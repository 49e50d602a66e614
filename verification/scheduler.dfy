/** Fairness of the send scheduler (outbox.go): calls share the link by bytes, in turn. */
module Scheduler {
  import opened Basics
  import opened Wire
  import opened OutboxModel

  predicate AtMost(frames: seq<Outgoing>, largest: nat) {
    forall i :: 0 <= i < |frames| ==> frames[i].Size() <= largest
  }

  ghost predicate BoxAtMost(box: Box, largest: nat) {
    forall c :: c in box.queues ==> AtMost(box.queues[c], largest)
  }

  /** A served prefix overshoots the quantum by less than one frame. */
  lemma {:induction false} ServeBound(call: u32, queue: seq<Outgoing>, spent: nat, quantum: int, sink: Sink, n: nat,
                                      largest: nat)
    requires quantum > 0 && AtMost(queue, largest)
    ensures spent + SizeOf(Post(call, queue[..Serve(queue, spent, quantum, sink, n).count]))
            <= Max(spent, quantum - 1 + largest)
    decreases |queue|
  {
    var s := Serve(queue, spent, quantum, sink, n);
    if s.count == 0 {
      assert queue[..0] == [];
    } else {
      assert AtMost(queue[1..], largest);
      ServeBound(call, queue[1..], spent + queue[0].Size(), quantum, sink, n + 1, largest);
      assert queue[..s.count][1..] == queue[1..][..s.count - 1];
      assert Post(call, queue[..s.count])[1..] == Post(call, queue[1..][..s.count - 1]);
    }
  }

  /** One turn sends at most the quantum, less one byte, and one largest frame. */
  lemma TurnBound(box: Box, sink: Sink, n: nat, largest: nat)
    requires box.Valid() && box.turns != [] && BoxAtMost(box, largest)
    ensures SizeOf(Turn(box, sink, n).sent) <= box.quantum - 1 + largest
  {
    var call := box.turns[0];
    assert call in box.queues;
    ServeBound(call, box.Queue(call), 0, box.quantum, sink, n, largest);
  }

  /** A call's place in the line of turns. */
  function Rank(turns: seq<u32>, call: u32): (r: nat)
    requires call in turns
    ensures r < |turns| && turns[r] == call
  {
    if turns[0] == call then 0 else 1 + Rank(turns[1..], call)
  }

  /** What can happen to an outbox: the sending side queues, grants or discards, and a
      drain, whichever it is and however it ends, tells the ready credits and takes turns
      (`DrainIsStages`). */
  datatype Action =
    | Push(call: u32, frame: Outgoing)
    | Discard(call: u32)
    | Grant(call: u32, messageID: u32, items: u32)
    | TellCredits(sink: Sink, n: nat)
    | TakeTurn(sink: Sink, n: nat)

  datatype Ran = Ran(box: Box, sent: seq<Posted>)

  function Perform(box: Box, a: Action): Ran {
    match a
    case Push(call, frame) => Ran(box.Append(call, frame), [])
    case Discard(call) => Ran(box.Discard(call), [])
    case Grant(call, messageID, items) => Ran(box.Grant(call, messageID, items), [])
    case TellCredits(sink, n) => Ran(DrainCredits(box, sink, n).box, DrainCredits(box, sink, n).sent)
    case TakeTurn(sink, n) =>
      if box.turns == [] then Ran(box, []) else Ran(Turn(box, sink, n).box, Turn(box, sink, n).sent)
  }

  function PerformAll(box: Box, actions: seq<Action>): Ran
    decreases |actions|
  {
    if actions == [] then Ran(box, [])
    else
      var head := Perform(box, actions[0]);
      var rest := PerformAll(head.box, actions[1..]);
      Ran(rest.box, head.sent + rest.sent)
  }

  /** The call is still waiting for its turn all along: it is not discarded, and no turn
      is taken while it stands in front. */
  ghost predicate Waits(box: Box, actions: seq<Action>, call: u32)
    decreases |actions|
  {
    call in box.turns &&
    (actions != [] ==>
       && actions[0] != Action.Discard(call)
       && (actions[0].TakeTurn? ==> box.turns[0] != call)
       && Waits(Perform(box, actions[0]).box, actions[1..], call))
  }

  ghost predicate PushesAtMost(actions: seq<Action>, largest: nat) {
    forall a :: a in actions && a.Push? ==> a.frame.Size() <= largest
  }

  function TurnsIn(actions: seq<Action>): nat {
    if actions == [] then 0 else (if actions[0].TakeTurn? then 1 else 0) + TurnsIn(actions[1..])
  }

  function GrantsIn(actions: seq<Action>): nat {
    if actions == [] then 0 else (if actions[0].Grant? then 1 else 0) + GrantsIn(actions[1..])
  }

  /** How many of these frames are CREDITs. */
  function CreditsIn(posts: seq<Posted>): nat {
    if posts == [] then 0 else (if posts[0].frame.header.kind == Kind.Credit then 1 else 0) + CreditsIn(posts[1..])
  }

  ghost predicate NoDiscard(actions: seq<Action>) {
    forall a :: a in actions ==> !a.Discard?
  }

  lemma {:induction false} RankFirst(turns: seq<u32>, call: u32, tail: seq<u32>)
    requires call in turns
    ensures Rank(turns + tail, call) == Rank(turns, call)
  {
    assert (turns + tail)[0] == turns[0];
    if turns[0] != call {
      RankFirst(turns[1..], call, tail);
      assert (turns + tail)[1..] == turns[1..] + tail;
    }
  }

  lemma {:induction false} RankWithout(turns: seq<u32>, other: u32, call: u32)
    requires call in turns && other != call
    ensures call in Without(turns, other)
    ensures Rank(Without(turns, other), call) <= Rank(turns, call)
  {
    if turns[0] != call {
      RankWithout(turns[1..], other, call);
      var tail := Without(turns[1..], other);
      if turns[0] == other {
        assert Without(turns, other) == tail;
      } else {
        assert Without(turns, other) == [turns[0]] + tail;
        assert ([turns[0]] + tail)[1..] == tail;
      }
    }
  }

  /** One action: a turn moves every waiting call up by exactly one place, queueing,
      granting and telling credit move it not at all, a discard of another call moves it up
      or not at all. */
  lemma RankStep(box: Box, a: Action, call: u32)
    requires box.Valid() && call in box.turns
    requires a != Action.Discard(call) && (a.TakeTurn? ==> box.turns[0] != call)
    ensures Perform(box, a).box.Valid()
    ensures call in Perform(box, a).box.turns
    ensures var before, after := Rank(box.turns, call), Rank(Perform(box, a).box.turns, call);
            match a
            case TakeTurn(_, _) => after == before - 1
            case Discard(_) => after <= before
            case _ => after == before
  {
    match a {
      case Push(other, frame) =>
        AppendKeepsValid(box, other, frame);
        RankFirst(box.turns, call, [other]);
      case Discard(other) =>
        DiscardKeepsValid(box, other);
        RankWithout(box.turns, other, call);
      case Grant(_, _, _) =>
      case TellCredits(sink, n) => DrainCreditsKeepsValid(box, sink, n);
      case TakeTurn(sink, n) =>
        TurnKeepsValid(box, sink, n);
        var line := box.turns[1..];
        var tail := Perform(box, a).box.turns[|line|..];
        assert Perform(box, a).box.turns == line + tail;
        RankFirst(line, call, tail);
    }
  }

  lemma StepAtMost(box: Box, a: Action, largest: nat)
    requires box.Valid() && BoxAtMost(box, largest) && (a.Push? ==> a.frame.Size() <= largest)
    ensures BoxAtMost(Perform(box, a).box, largest)
  {
    if a.TakeTurn? && box.turns != [] {
      var front := box.turns[0];
      var s := Serve(box.Queue(front), 0, box.quantum, a.sink, a.n);
      assert front in box.queues;
      assert AtMost(box.Queue(front)[s.count..], largest);
    } else if a.TellCredits? {
      CreditBytes(box, SortedKeys(ReadyCalls(box)), a.sink, a.n);
    }
  }

  lemma {:induction false} SizeConcat(a: seq<Posted>, b: seq<Posted>)
    ensures SizeOf(a + b) == SizeOf(a) + SizeOf(b)
  {
    if a == [] {
      assert a + b == b;
    } else {
      SizeConcat(a[1..], b);
      assert (a + b)[1..] == a[1..] + b;
    }
  }

  /** k times the unit. */
  function Times(k: nat, unit: nat): nat {
    if k == 0 then 0 else unit + Times(k - 1, unit)
  }

  lemma {:induction false} TimesIs(k: nat, unit: nat)
    ensures Times(k, unit) == k * unit
  {
    if k > 0 {
      TimesIs(k - 1, unit);
      assert k * unit == unit + (k - 1) * unit;
    }
  }

  lemma {:induction false} TimesSum(a: nat, b: nat, unit: nat)
    ensures Times(a + b, unit) == Times(a, unit) + Times(b, unit)
  {
    if a > 0 {
      TimesSum(a - 1, b, unit);
    }
  }

  lemma {:induction false} TimesMonotone(a: nat, b: nat, unit: nat)
    requires a <= b
    ensures Times(a, unit) <= Times(b, unit)
    decreases b
  {
    if a > 0 {
      TimesMonotone(a - 1, b - 1, unit);
    }
  }

  // ------------------------------------------------------------ bytes of credit

  /** The size of every CREDIT frame. */
  const CREDIT_LEN: nat := HEADER_LEN + 4

  lemma {:induction false} CreditsConcat(a: seq<Posted>, b: seq<Posted>)
    ensures CreditsIn(a + b) == CreditsIn(a) + CreditsIn(b)
  {
    if a == [] {
      assert a + b == b;
    } else {
      CreditsConcat(a[1..], b);
      assert (a + b)[1..] == a[1..] + b;
    }
  }

  /** A credit stage sends CREDITs and nothing else, each of which stops waiting, and
      touches no queue and no place in line. */
  lemma {:induction false} CreditBytes(box: Box, ready: seq<u32>, sink: Sink, n: nat)
    ensures var d := SendCredits(box, ready, sink, n);
            && SizeOf(d.sent) == Times(CreditsIn(d.sent), CREDIT_LEN)
            && CreditsIn(d.sent) + |d.box.credits| == |box.credits|
            && d.box == box.(credits := d.box.credits)
    decreases |ready|
  {
    if ready != [] {
      var next := box.(credits := box.credits - {ready[0]});
      if ready[0] !in box.credits {
        CreditBytes(box, ready[1..], sink, n);
      } else if sink(n) {
        KeyCount(box.credits, ready[0], box.credits[ready[0]]);
        CreditBytes(next, ready[1..], sink, n + 1);
        var head := Posted(ready[0], CreditFrame(ready[0], box.credits[ready[0]]));
        var rest := SendCredits(next, ready[1..], sink, n + 1);
        assert ([head] + rest.sent)[1..] == rest.sent;
      }
    }
  }

  /** How removing and adding a key changes the size of a map. */
  lemma KeyCount<V>(table: map<u32, V>, call: u32, value: V)
    ensures |table - {call}| == |table| - if call in table then 1 else 0
    ensures |table[call := value]| == |table| + if call in table then 0 else 1
  {
    var less, more := table - {call}, table[call := value];
    assert less.Keys == table.Keys - {call} && more.Keys == table.Keys + {call};
    assert |less.Keys| == |less| && |more.Keys| == |more| && |table.Keys| == |table|;
  }

  // ---------------------------------------------------------------- bytes sent

  /** How many more credits can be waiting after an action. */
  lemma CreditsAfter(box: Box, a: Action)
    ensures a.TakeTurn? ==> Perform(box, a).box.credits == box.credits
    ensures !a.TakeTurn? ==>
              CreditsIn(Perform(box, a).sent) + |Perform(box, a).box.credits|
              <= |box.credits| + if a.Grant? then 1 else 0
  {
    hide Serve, DrainCredits, Without, SaturatingAdd;
    match a {
      case Push(_, _) =>
      case Grant(call, messageID, items) =>
        KeyCount(box.credits, call, box.Grant(call, messageID, items).credits[call]);
      case Discard(call) => KeyCount(box.credits, call, WaitingCredit(0, 0));
      case TellCredits(sink, n) => StageCredits(box, sink, n);
      case TakeTurn(_, _) =>
    }
  }

  lemma StageCredits(box: Box, sink: Sink, n: nat)
    ensures CreditsIn(DrainCredits(box, sink, n).sent) + |DrainCredits(box, sink, n).box.credits| == |box.credits|
  {
    hide SendCredits;
    CreditBytes(box, SortedKeys(ReadyCalls(box)), sink, n);
  }

  /** What one action sends: the CREDITs it tells, or at most one turn's worth, or nothing. */
  lemma ActionBytes(box: Box, a: Action, largest: nat)
    requires box.Valid() && BoxAtMost(box, largest)
    requires a.Push? ==> a.frame.Size() <= largest
    ensures var head := Perform(box, a);
            && head.box.Valid() && BoxAtMost(head.box, largest) && head.box.quantum == box.quantum
            && (if a.TakeTurn? then SizeOf(head.sent) <= box.quantum - 1 + largest
                else SizeOf(head.sent) == Times(CreditsIn(head.sent), CREDIT_LEN))
  {
    StepAtMost(box, a, largest);
    match a {
      case Push(other, frame) => AppendKeepsValid(box, other, frame);
      case Discard(other) => DiscardKeepsValid(box, other);
      case Grant(_, _, _) =>
      case TellCredits(sink, n) =>
        DrainCreditsKeepsValid(box, sink, n);
        CreditBytes(box, SortedKeys(ReadyCalls(box)), sink, n);
      case TakeTurn(sink, n) =>
        if box.turns != [] {
          TurnKeepsValid(box, sink, n);
          TurnBound(box, sink, n, largest);
        }
    }
  }

  /** CREDITs told outside of turns: those of the stages. */
  function Told(box: Box, actions: seq<Action>): nat
    decreases |actions|
  {
    if actions == [] then 0
    else
      var head := Perform(box, actions[0]);
      (if actions[0].TakeTurn? then 0 else CreditsIn(head.sent)) + Told(head.box, actions[1..])
  }

  /** k turns send at most k turns' worth of bytes, and beside them there are only CREDITs. */
  lemma {:induction false} TurnsBytes(box: Box, actions: seq<Action>, largest: nat)
    requires box.Valid() && BoxAtMost(box, largest) && PushesAtMost(actions, largest)
    ensures SizeOf(PerformAll(box, actions).sent)
            <= Times(TurnsIn(actions), box.quantum - 1 + largest) + Times(Told(box, actions), CREDIT_LEN)
    decreases |actions|
  {
    hide Perform, Box.Valid, CREDIT_LEN, BoxAtMost;
    if actions != [] {
      hide SizeOf, CreditsIn;
      assert actions[0] in actions;
      ActionBytes(box, actions[0], largest);
      var head, tail := Perform(box, actions[0]), actions[1..];
      assert PushesAtMost(tail, largest);
      TurnsBytes(head.box, tail, largest);
      SizeConcat(head.sent, PerformAll(head.box, tail).sent);
      if !actions[0].TakeTurn? {
        TimesSum(CreditsIn(head.sent), Told(head.box, tail), CREDIT_LEN);
      }
    }
  }

  /** The CREDITs told were sent, and each was waiting at first or was granted meanwhile. */
  lemma {:induction false} CreditsTold(box: Box, actions: seq<Action>)
    ensures var ran, told := PerformAll(box, actions), Told(box, actions);
            && told <= CreditsIn(ran.sent)
            && told + |ran.box.credits| <= |box.credits| + GrantsIn(actions)
    decreases |actions|
  {
    hide Perform;
    if actions != [] {
      var head := Perform(box, actions[0]);
      CreditsAfter(box, actions[0]);
      CreditsTold(head.box, actions[1..]);
      CreditsConcat(head.sent, PerformAll(head.box, actions[1..]).sent);
    }
  }

  /** While a call waits in the line at place p, across any number of drains and whatever
      is queued, granted, discarded or rejected meanwhile, at most p turns are taken;
      without discards, exactly as many as it moved up. */
  lemma {:induction false} WaitingTurns(box: Box, actions: seq<Action>, call: u32)
    requires box.Valid() && Waits(box, actions, call)
    ensures var after := PerformAll(box, actions).box;
            && after.Valid() && call in after.turns
            && TurnsIn(actions) + Rank(after.turns, call) <= Rank(box.turns, call)
            && (NoDiscard(actions) ==> TurnsIn(actions) + Rank(after.turns, call) == Rank(box.turns, call))
    decreases |actions|
  {
    if actions != [] {
      var head, tail := Perform(box, actions[0]), actions[1..];
      RankStep(box, actions[0], call);
      assert NoDiscard(actions) ==> !actions[0].Discard? && NoDiscard(tail);
      WaitingTurns(head.box, tail, call);
    }
  }

  /** The waiting bound: ahead of the call at place p there go out at most p times
      (quantum - 1 + largest frame) bytes, and the CREDITs told, which are no more than
      those that waited at first and those granted since. */
  lemma WaitingBound(box: Box, actions: seq<Action>, call: u32, largest: nat)
    requires box.Valid() && Waits(box, actions, call)
    requires BoxAtMost(box, largest) && PushesAtMost(actions, largest)
    ensures var bytes := SizeOf(PerformAll(box, actions).sent);
            var turns := Times(Rank(box.turns, call), box.quantum - 1 + largest);
            && bytes <= turns + Times(CreditsIn(PerformAll(box, actions).sent), CREDIT_LEN)
            && bytes <= turns + Times(|box.credits| + GrantsIn(actions), CREDIT_LEN)
  {
    hide PerformAll, TurnsIn, GrantsIn, CreditsIn, Told, SizeOf, Times, InLine, Waits, CREDIT_LEN;
    WaitingTurns(box, actions, call);
    TurnsBytes(box, actions, largest);
    CreditsTold(box, actions);
    var told := Told(box, actions);
    TimesMonotone(TurnsIn(actions), Rank(box.turns, call), box.quantum - 1 + largest);
    TimesMonotone(told, CreditsIn(PerformAll(box, actions).sent), CREDIT_LEN);
    TimesMonotone(told, |box.credits| + GrantsIn(actions), CREDIT_LEN);
  }

  // ------------------------------------------------------------------ whole drains

  /** The call in front is the one whose head is offered next. */
  lemma FrontIsOffered(box: Box, sink: Sink, n: nat)
    requires box.Valid() && box.turns != []
    ensures var t, queue := Turn(box, sink, n), box.Queue(box.turns[0]);
            if sink(n) then t.sent != [] && t.sent[0] == Posted(box.turns[0], queue[0])
            else t.rejected && t.sent == [] && t.box.Queue(box.turns[0]) == queue
  {
    assert box.turns[0] in box.queues;
  }

  /** The frames of a drain go out in turns. */
  lemma {:induction false} DrainIsTurns(box: Box, sink: Sink, n: nat) returns (actions: seq<Action>)
    requires box.Valid()
    ensures forall i :: 0 <= i < |actions| ==> actions[i].TakeTurn? && actions[i].sink == sink
    ensures PerformAll(box, actions).box == DrainFrames(box, sink, n).box
    ensures PerformAll(box, actions).sent == DrainFrames(box, sink, n).sent
    decreases box.total
  {
    hide Turn, InLine;
    if box.total <= 0 || box.turns == [] {
      actions := [];
    } else {
      TurnKeepsValid(box, sink, n);
      var t := Turn(box, sink, n);
      var rest := [];
      if !t.rejected {
        rest := DrainIsTurns(t.box, sink, n + t.offers);
      }
      actions := [TakeTurn(sink, n)] + rest;
      assert actions[1..] == rest;
      if t.rejected {
        assert t.sent + [] == t.sent;
      }
    }
  }

  lemma {:induction false} PerformConcat(box: Box, a: seq<Action>, b: seq<Action>)
    ensures var first := PerformAll(box, a);
            PerformAll(box, a + b) == Ran(PerformAll(first.box, b).box, first.sent + PerformAll(first.box, b).sent)
    decreases |a|
  {
    hide Perform;
    if a == [] {
      assert a + b == b;
      assert [] + PerformAll(box, b).sent == PerformAll(box, b).sent;
    } else {
      var head := Perform(box, a[0]);
      PerformConcat(head.box, a[1..], b);
      assert (a + b)[0] == a[0] && (a + b)[1..] == a[1..] + b;
      var mid := PerformAll(head.box, a[1..]);
      var end := PerformAll(mid.box, b);
      assert head.sent + (mid.sent + end.sent) == head.sent + mid.sent + end.sent;
    }
  }

  lemma PerformOne(box: Box, a: Action)
    ensures PerformAll(box, [a]) == Perform(box, a)
  {
    hide Perform;
    assert [a][1..] == [];
    assert Perform(box, a).sent + [] == Perform(box, a).sent;
  }

  /** A whole drain is credits, turns, credits, and ends with the first credits when the
      sink rejects one of them: what the waiting bound says, it says of drains. */
  lemma DrainIsStages(box: Box, sink: Sink) returns (actions: seq<Action>)
    requires box.Valid()
    ensures PerformAll(box, actions) == Ran(Drain(box, sink).box, Drain(box, sink).sent)
    ensures var n := |actions| - 1;
            if DrainCredits(box, sink, 0).rejected then actions == [TellCredits(sink, 0)]
            else
              && n >= 1 && actions[0] == TellCredits(sink, 0)
              && actions[n].TellCredits? && actions[n].sink == sink
              && forall i :: 0 < i < n ==> actions[i].TakeTurn? && actions[i].sink == sink
  {
    hide PerformAll, InLine, DrainCredits, DrainFrames;
    DrainCreditsKeepsValid(box, sink, 0);
    var first := DrainCredits(box, sink, 0);
    var open := TellCredits(sink, 0);
    PerformOne(box, open);
    if first.rejected {
      actions := [open];
    } else {
      var turns := DrainIsTurns(first.box, sink, first.offers);
      var frames := DrainFrames(first.box, sink, first.offers);
      var close := TellCredits(sink, first.offers + frames.offers);
      PerformConcat(box, [open], turns);
      PerformConcat(box, [open] + turns, [close]);
      PerformOne(frames.box, close);
      actions := [open] + turns + [close];
      assert forall i :: 0 < i <= |turns| ==> actions[i] == turns[i - 1];
    }
  }

  /** Whether credit goes ahead of the call in front is a matter of one test. If some credit
      is ready, it is what a drain offers first: accepted, it is sent ahead of every call in
      line; rejected, the drain is over and no turn is taken. If none is, the drain begins
      with the turns. */
  lemma CreditsGoFirst(box: Box, sink: Sink)
    requires box.Valid()
    ensures var d := Drain(box, sink);
            if ReadyCalls(box) == {} then DrainCredits(box, sink, 0) == Drained(box, [], false, 0)
            else if sink(0) then
              && d.sent != [] && d.sent[0].call in ReadyCalls(box)
              && d.sent[0].frame.header.kind == Kind.Credit && d.sent[0].frame.Size() == CREDIT_LEN
            else d == Drained(box, [], true, 1)
  {
    hide InLine, DrainFrames;
    var ready := SortedKeys(ReadyCalls(box));
    if ReadyCalls(box) != {} {
      var c :| c in ReadyCalls(box);
      SortedKeysHas(ReadyCalls(box), c);
      SortedKeysHas(ReadyCalls(box), ready[0]);
    }
    DrainCreditsKeepsValid(box, sink, 0);
  }

  /** So turns alone bound nothing: here a call stands in front of the line, and nine bytes
      go out ahead of its frame. */
  lemma CreditGoesAhead(frame: Outgoing, waiting: WaitingCredit, sink: Sink)
    requires sink(0)
    ensures var box := Box(map[0 := [frame]], map[2 := waiting], [0], 1, 8, 8, 1);
            && box.Valid() && Rank(box.turns, 0) == 0
            && Drain(box, sink).sent != [] && Drain(box, sink).sent[0].call == 2
            && Drain(box, sink).sent[0].frame.Size() == 9
  {
    hide Drain, SortedKeys;
    var box := Box(map[0 := [frame]], map[2 := waiting], [0], 1, 8, 8, 1);
    assert map[0 := [frame]] - {0} == map[];
    assert InLine([0][1..], map[0 := [frame]] - {0}, 0);
    assert 2 in ReadyCalls(box);
    CreditsGoFirst(box, sink);
    assert forall c :: c in ReadyCalls(box) ==> c == 2;
  }
}
