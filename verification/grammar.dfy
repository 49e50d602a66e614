/** The order of frames on the wire, per call, over every run of a core. The caller's side
    is read off the frames the sink accepted; the callee's side off the frames it queued.
    In between, each queue is first in, first out. */
module Grammar {
  import opened Basics
  import opened Wire
  import opened OutboxModel
  import opened OutboxRefinement
  import opened Session
  import opened CoreModel
  import opened Histories
  import opened Completion

  // --------------------------------------------------------------- caller's side

  /** How far a call this side made has got on the wire. `Closing`: it is settled here and
      may still say CANCEL. ERROR frames, which answer frames of the peer that make no
      sense, are no part of the conversation. */
  datatype Asking = Idle | Asked | Streaming | Ended | Closing | Wrong

  function Travel(st: Asking, kind: Kind): Asking {
    match kind
    case Error => st
    case Request => if st == Asked then Streaming else Wrong
    case Item => if st == Streaming then Streaming else Wrong
    case End => if st == Streaming then Ended else Wrong
    case Credit => if st == Streaming || st == Ended then st else Wrong
    case Cancel => if st == Closing then Idle else Wrong
    case Response => Wrong
  }

  function Run(st: Asking, frames: seq<Outgoing>): Asking
    decreases |frames|
  {
    if frames == [] then st else Run(Travel(st, frames[0].header.kind), frames[1..])
  }

  function Settles(st: Asking): Asking {
    if st == Asked then Idle else if st == Streaming || st == Ended then Closing else st
  }

  /** The queue as the trace shows it, whether a frame went out that was not the oldest of
      it, whether the call was ever opened while older frames of its id were still
      queued, and the stage of the conversation. */
  datatype Wires = Wires(line: seq<Outgoing>, jumped: bool, tainted: bool, stage: Asking)

  function Observe(l: Wires, a: Act): Wires {
    match a
    case Queued(_, frame) => l.(line := l.line + [frame])
    case Dropped(_) => l.(line := [])
    case Cleared => l.(line := [])
    case Opened(_) => l.(tainted := l.tainted || l.line != [], stage := if l.stage == Wrong then Wrong else Asked)
    case Told(outcome) => if outcome.Terminates() then l.(stage := Settles(l.stage)) else l
    case Sent(post) =>
      var frame := post.frame;
      if frame.header.kind == Kind.Credit then l.(stage := Travel(l.stage, Kind.Credit))
      else if l.line == [] || l.line[0] != frame then l.(jumped := true)
      else l.(line := l.line[1..], stage := Travel(l.stage, frame.header.kind))
    case _ => l
  }

  const QUIET := Wires([], false, false, Idle)

  function WiresOf(h: seq<Act>): Wires { Fold(Observe, QUIET, h) }

  /** Queues hold no CREDIT, and the trace shows them as they are. */
  ghost predicate InOrder(v: View, l: Wires) {
    l.line == v.queue && !l.jumped && NoCredit(v.queue)
  }

  /** A call of this side: what it has said and what it has queued continue one
      conversation. */
  ghost predicate Conversing(v: View, l: Wires) {
    if v.waiting.Some? then
      && l.stage in {Asked, Streaming, Ended}
      && Run(l.stage, v.queue) == (if v.waiting.value.sendClosed then Ended else Streaming)
      && (l.stage == Asked <==> Opens(v.queue))
    else
      && v.credit.None?
      && l.stage in {Idle, Closing}
      && Run(l.stage, v.queue) in {Idle, Closing}
  }

  ghost predicate WellWired(k: Setup, c: u32, v: View, l: Wires) {
    && InOrder(v, l)
    && (k.Own(c) && !l.tainted ==> Conversing(v, l))
  }

  lemma {:induction false} RunConcat(st: Asking, a: seq<Outgoing>, b: seq<Outgoing>)
    ensures Run(st, a + b) == Run(Run(st, a), b)
    decreases |a|
  {
    if a == [] {
      assert a + b == b;
    } else {
      RunConcat(Travel(st, a[0].header.kind), a[1..], b);
      assert (a + b)[0] == a[0] && (a + b)[1..] == a[1..] + b;
    }
  }

  lemma RunOne(st: Asking, queue: seq<Outgoing>, frame: Outgoing)
    ensures Run(st, queue + [frame]) == Travel(Run(st, queue), frame.header.kind)
  {
    RunConcat(st, queue, [frame]);
    assert [frame][1..] == [];
  }

  /** The oldest frames go out one after the other. */
  lemma {:induction false} ObservePrefix(l: Wires, c: u32, count: nat)
    requires count <= |l.line| && NoCredit(l.line)
    ensures Fold(Observe, l, SentActs(c, l.line[..count]))
            == l.(line := l.line[count..], stage := Run(l.stage, l.line[..count]))
    decreases count
  {
    if count > 0 {
      var first, rest := l.line[0], l.line[1..];
      var l1 := l.(line := rest, stage := Travel(l.stage, first.header.kind));
      ObservePrefix(l1, c, count - 1);
      assert l.line[..count][1..] == rest[..count - 1] && l.line[count..] == rest[count - 1..];
      assert SentActs(c, l.line[..count])[1..] == SentActs(c, rest[..count - 1]);
      assert Observe(l, Sent(Posted(c, first))) == l1;
    } else {
      assert l.line[..0] == [] && l.line[0..] == l.line;
    }
  }

  lemma ObserveTell(l: Wires, c: u32, credit: Option<WaitingCredit>, sent: bool)
    ensures Fold(Observe, l, SentActs(c, Tell(credit, c, sent)))
            == if sent && credit.Some? then l.(stage := Travel(l.stage, Kind.Credit)) else l
  {
    if sent && credit.Some? {
      var frame := CreditFrame(c, credit.value);
      var acts := [Sent(Posted(c, frame))];
      assert [frame][1..] == [];
      assert SentActs(c, [frame]) == acts;
      assert Fold(Observe, Observe(l, acts[0]), []) == Observe(l, acts[0]);
    }
  }

  lemma {:induction false} SentConcat(c: u32, a: seq<Outgoing>, b: seq<Outgoing>)
    ensures SentActs(c, a + b) == SentActs(c, a) + SentActs(c, b)
  {
    if a == [] {
      assert a + b == b;
    } else {
      SentConcat(c, a[1..], b);
      assert (a + b)[0] == a[0] && (a + b)[1..] == a[1..] + b;
    }
  }

  /** A drain, as the ledger sees it: perhaps a CREDIT, frames off the head of the queue,
      perhaps a CREDIT. */
  lemma ObserveDrain(l: Wires, c: u32, v: View, v': View, sent: seq<Outgoing>, share: Share)
    requires InOrder(v, l) && Shares(c, v.queue, v.credit, sent, v'.queue, v'.credit, share)
    ensures var st0 := if share.before then Travel(l.stage, Kind.Credit) else l.stage;
            var st1 := Run(st0, v.queue[..share.count]);
            Fold(Observe, l, SentActs(c, sent))
            == l.(line := v'.queue, stage := if share.after then Travel(st1, Kind.Credit) else st1)
  {
    var a, b, d := Tell(v.credit, c, share.before), v.queue[..share.count], Tell(v.credit, c, share.after);
    SentConcat(c, a + b, d);
    SentConcat(c, a, b);
    FoldConcat(Observe, l, SentActs(c, a) + SentActs(c, b), SentActs(c, d));
    FoldConcat(Observe, l, SentActs(c, a), SentActs(c, b));
    ObserveTell(l, c, v.credit, share.before);
    var l1 := Fold(Observe, l, SentActs(c, a));
    ObservePrefix(l1, c, share.count);
    ObserveTell(Fold(Observe, l1, SentActs(c, b)), c, v.credit, share.after);
  }

  /** A conversation under way stays one while its queue is served: nothing overtakes the
      REQUEST. */
  lemma ConversingDrain(c: u32, v: View, v': View, sent: seq<Outgoing>, share: Share, l: Wires)
    requires InOrder(v, l) && Conversing(v, l)
    requires Shares(c, v.queue, v.credit, sent, v'.queue, v'.credit, share)
    requires v'.waiting == v.waiting && v'.running == v.running
    ensures Conversing(v', Fold(Observe, l, SentActs(c, sent)))
  {
    hide Fold;
    ObserveDrain(l, c, v, v', sent, share);
    var count := share.count;
    assert v.queue == v.queue[..count] + v.queue[count..];
    RunConcat(l.stage, v.queue[..count], v.queue[count..]);
    if v.waiting.Some? {
      OnlyForward(Run(l.stage, v.queue[..count]), v'.queue);
      if count > 0 {
        OnlyForward(Travel(l.stage, v.queue[0].header.kind), v.queue[..count][1..]);
      }
    } else {
      OnlyForward(l.stage, v.queue[..count]);
      OnlyForward(Run(l.stage, v.queue[..count]), v'.queue);
    }
  }

  /** Stages that no later frame leads back from. */
  lemma {:induction false} OnlyForward(st: Asking, frames: seq<Outgoing>)
    ensures st == Wrong ==> Run(st, frames) == Wrong
    ensures Run(st, frames) == Asked ==> st == Asked
    ensures st in {Streaming, Ended} ==> Run(st, frames) in {Streaming, Ended, Wrong}
    ensures st in {Idle, Closing} ==> Run(st, frames) in {Idle, Closing, Wrong}
    ensures st == Asked && frames != [] && frames[0].header.kind == Request ==>
            Run(st, frames) in {Streaming, Ended, Wrong}
    ensures Run(st, frames) in {Streaming, Ended} ==> st in {Asked, Streaming, Ended}
    ensures st in {Streaming, Ended} && Opens(frames) ==> Run(st, frames) == Wrong
    decreases |frames|
  {
    if frames != [] {
      OnlyForward(Travel(st, frames[0].header.kind), frames[1..]);
    }
  }

  /** How the ledger follows a step: the line is the queue, the stage is what the owner's
      acts make it. */
  ghost predicate Follows(v: View, e: Event, d: Delta, l: Wires, m: Wires) {
    var line := if d.discard then [] else l.line;
    && m.line == (if d.append.Some? then line + [d.append.value] else line)
    && m.jumped == l.jumped
    && m.tainted == (l.tainted || (e.Open? && l.line != []))
    && m.stage == (if e.Open? then (if l.stage == Wrong then Wrong else Asked)
                   else if (e.Settle? || e.Abandon?) && v.waiting.Some? then Settles(l.stage)
                   else l.stage)
  }

  lemma FollowsAsking(k: Setup, v: View, e: Event, heard: Option<Message>, l: Wires)
    requires e.Open? || e.PushItem? || e.PushEnd?
    ensures Follows(v, e, Change(k, v, e), l, After(Observe, k, v, e, heard, l))
  {
    hide Setup.BodyFrame, Setup.ControlFrame, Setup.ErrorFrame, SaturatingAdd, Travel, Settles;
  }

  lemma FollowsGranting(k: Setup, v: View, e: Event, heard: Option<Message>, l: Wires)
    requires e.Bounce? || e.Grant? || e.TellItem? || e.Allow?
    ensures Follows(v, e, Change(k, v, e), l, After(Observe, k, v, e, heard, l))
  {
    hide Setup.BodyFrame, Setup.ControlFrame, Setup.ErrorFrame, SaturatingAdd, Travel, Settles;
  }

  lemma FollowsEnding(k: Setup, v: View, e: Event, heard: Option<Message>, l: Wires)
    requires e.Abandon? || (e.Settle? && e.outcome.Terminates())
    ensures Follows(v, e, Change(k, v, e), l, After(Observe, k, v, e, heard, l))
  {
    hide Setup.ControlFrame, Travel, Settles, Few;
    if v.waiting.Some? {
      var outcome := if e.Settle? then e.outcome else FailedOutcome(e.call, e.status);
      ObserveSettled(l, e.call, v.waiting.value.entered, outcome, k.ControlFrame(e.call, Cancel));
    } else {
      ObserveNothing(l);
    }
  }

  lemma ObserveNothing(l: Wires)
    ensures Few(Observe, l, []) == l
  {
  }

  lemma ObserveSettled(l: Wires, c: u32, links: nat, outcome: Outcome, frame: Outgoing)
    requires outcome.Terminates()
    ensures var acts := [Dropped(c), Unwound(c, links), Told(outcome)];
            && Few(Observe, l, acts) == l.(line := [], stage := Settles(l.stage))
            && Few(Observe, l, acts + [Queued(c, frame)]) == l.(line := [frame], stage := Settles(l.stage))
  {
    hide Settles;
  }

  lemma FollowsError(k: Setup, v: View, e: Event, heard: Option<Message>, l: Wires)
    requires e.Finish? || e.Stray?
    ensures Follows(v, e, Change(k, v, e), l, After(Observe, k, v, e, heard, l))
  {
    hide Setup.BodyFrame, Setup.ControlFrame, Setup.ErrorFrame, SaturatingAdd, Travel, Settles;
  }

  lemma FollowsReply(k: Setup, v: View, e: Event, heard: Option<Message>, l: Wires)
    requires e.Yield? || e.Answer? || e.CloseOut?
    ensures Follows(v, e, Change(k, v, e), l, After(Observe, k, v, e, heard, l))
  {
    hide Setup.BodyFrame, Setup.ControlFrame, Setup.ErrorFrame, SaturatingAdd, Travel, Settles;
  }

  lemma FollowsSilent(k: Setup, v: View, e: Event, heard: Option<Message>, l: Wires)
    requires e.Admit? || e.Update? || e.Deliver? || e.Leave? || e.Ignore?
    ensures Follows(v, e, Change(k, v, e), l, After(Observe, k, v, e, heard, l))
  {
    hide Setup.BodyFrame, Setup.ControlFrame, Setup.ErrorFrame, SaturatingAdd, Travel, Settles;
  }

  lemma FollowsOwn(k: Setup, a: Surroundings, v: View, e: Event, heard: Option<Message>, l: Wires)
    requires !e.Global() && Allowed(k, a, v, e, heard)
    ensures Follows(v, e, Change(k, v, e), l, After(Observe, k, v, e, heard, l))
  {
    hide Change, Follows, After, Setup.Plain;
    if e.Settle? || e.Abandon? {
      FollowsEnding(k, v, e, heard, l);
    } else if e.Open? || e.PushItem? || e.PushEnd? {
      FollowsAsking(k, v, e, heard, l);
    } else if e.Calling() {
      FollowsGranting(k, v, e, heard, l);
    } else if e.Yield? || e.Answer? || e.CloseOut? {
      FollowsReply(k, v, e, heard, l);
    } else if e.Finish? || e.Stray? {
      FollowsError(k, v, e, heard, l);
    } else {
      FollowsSilent(k, v, e, heard, l);
    }
  }

  /** One step of one call: the queue stays in view. */
  lemma InOrderOwn(k: Setup, a: Surroundings, v: View, e: Event, heard: Option<Message>, l: Wires, m: Wires)
    requires InOrder(v, l) && !e.Global() && Allowed(k, a, v, e, heard)
    requires Follows(v, e, Change(k, v, e), l, m)
    ensures InOrder(Changed(v, Change(k, v, e)), m)
  {
    hide Change, Allowed, Settles;
    NoCreditQueued(k, a, v, e, heard);
  }

  /** One step of one call: the conversation goes on. */
  lemma ConversingCalling(k: Setup, c: u32, a: Surroundings, v: View, e: Event, heard: Option<Message>,
                          l: Wires, m: Wires, t: Tally)
    requires WellWired(k, c, v, l) && Consistent(k, c, v, t)
    requires !e.Global() && e.call == c && Allowed(k, a, v, e, heard)
    requires Follows(v, e, Change(k, v, e), l, m) && k.Own(c) && !m.tainted
    requires e.Calling() && !e.Settle? && !e.Abandon?
    ensures Conversing(Changed(v, Change(k, v, e)), m)
  {
    hide Setup.Plain, ReadCredit, SaturatingAdd, Setup.Own, Run, Setup.Squeezed, NoCredit;
    match e {
      case Open(_, _, frame) =>
        RunNone(Asked);
        RunOne(Asked, v.queue, frame);
      case PushItem(_, body) =>
        var frame := k.BodyFrame(c, Kind.Item, v.waiting.value.itemID, body);
        BodyFrameKind(k, c, Kind.Item, v.waiting.value.itemID, body);
        RunOne(l.stage, v.queue, frame);
      case PushEnd(_) => RunOne(l.stage, v.queue, k.ControlFrame(c, Kind.End));
      case _ =>
    }
  }

  /** A settled call says CANCEL at most, and nothing if its REQUEST never left. */
  lemma ConversingSettled(k: Setup, c: u32, a: Surroundings, v: View, e: Event, heard: Option<Message>,
                          l: Wires, m: Wires, t: Tally)
    requires WellWired(k, c, v, l) && Consistent(k, c, v, t)
    requires !e.Global() && e.call == c && Allowed(k, a, v, e, heard)
    requires Follows(v, e, Change(k, v, e), l, m) && k.Own(c) && !m.tainted
    requires e.Settle? || e.Abandon?
    ensures Conversing(Changed(v, Change(k, v, e)), m)
  {
    hide Setup.Plain, ReadCredit, SaturatingAdd, Setup.Own, Run, Setup.Squeezed, NoCredit;
    RunNone(Settles(l.stage));
    if e.Abandon? {
      RunOne(Settles(l.stage), [], k.ControlFrame(c, Cancel));
    }
  }

  lemma ConversingServing(k: Setup, c: u32, a: Surroundings, v: View, e: Event, heard: Option<Message>,
                          l: Wires, m: Wires, t: Tally)
    requires WellWired(k, c, v, l) && Consistent(k, c, v, t)
    requires !e.Global() && e.call == c && Allowed(k, a, v, e, heard)
    requires Follows(v, e, Change(k, v, e), l, m) && k.Own(c) && !m.tainted
    requires !e.Calling()
    ensures Conversing(Changed(v, Change(k, v, e)), m)
  {
    hide Setup.Plain, ReadCredit, SaturatingAdd, Setup.Own, Run, Setup.Squeezed, NoCredit;
    if e.Stray? {
      BodyFrameKind(k, c, Kind.Error, k.registry.errorID, e.status.Encode());
      RunOne(l.stage, v.queue, k.ErrorFrame(c, e.status));
    }
  }

  lemma RunNone(st: Asking)
    ensures Run(st, []) == st
  {
  }

  lemma WiredOwn(k: Setup, c: u32, a: Surroundings, v: View, e: Event, heard: Option<Message>, l: Wires, t: Tally)
    requires WellWired(k, c, v, l) && Consistent(k, c, v, t)
    requires !e.Global() && e.call == c && Allowed(k, a, v, e, heard)
    ensures WellWired(k, c, Changed(v, Change(k, v, e)), After(Observe, k, v, e, heard, l))
  {
    hide Change, Allowed, After, Conversing, InOrder, Follows;
    var m := After(Observe, k, v, e, heard, l);
    FollowsOwn(k, a, v, e, heard, l);
    InOrderOwn(k, a, v, e, heard, l, m);
    if k.Own(c) && !m.tainted {
      if e.Settle? || e.Abandon? {
        ConversingSettled(k, c, a, v, e, heard, l, m, t);
      } else if e.Calling() {
        ConversingCalling(k, c, a, v, e, heard, l, m, t);
      } else {
        ConversingServing(k, c, a, v, e, heard, l, m, t);
      }
    }
  }

  lemma WiredMove(k: Setup, c: u32, v: View, h: seq<Act>, v': View, h': seq<Act>, m: Move)
    requires WellWired(k, c, v, WiresOf(h)) && Completed(k, c, v, h) && Evolves(k, c, v, h, v', h', m)
    ensures WellWired(k, c, v', WiresOf(h'))
  {
    hide Fold, Change, Allowed, Conversing;
    var l := WiresOf(h);
    match m {
      case Stay =>
      case Own(a, e, heard) =>
        FoldStep(Observe, QUIET, h, k, v, e, heard);
        WiredOwn(k, c, a, v, e, heard, l, TallyOf(h));
      case Drains(share, sent) =>
        FoldConcat(Observe, QUIET, h, SentActs(c, sent));
        ObserveDrain(l, c, v, v', sent, share);
        if k.Own(c) && !l.tainted {
          ConversingDrain(c, v, v', sent, share, l);
        }
      case Ends =>
        FoldFew(Observe, QUIET, h, [Cleared]);
        ConversingEnds(v, l);
    }
  }

  lemma ConversingEnds(v: View, l: Wires)
    requires v.waiting.None?
    ensures Conversing(v, l) ==> Conversing(NOTHING, l.(line := []))
  {
  }

  lemma {:induction false} WiredAlways(k: Setup, s: State, c: u32)
    requires Reachable(k, s)
    ensures WellWired(k, c, ViewOf(s, c), WiresOf(History(s, c)))
    decreases |s.journal|
  {
    hide Enabled, Apply, Evolves;
    if s.journal == [] {
      RunNone(Idle);
    } else {
      var before, step := Previous(k, s);
      WiredAlways(k, before, c);
      BoxStaysSound(k, before);
      CompletedAlways(k, before, c);
      var m := EveryStepMoves(k, before, step, c);
      WiredMove(k, c, ViewOf(before, c), History(before, c), ViewOf(s, c), History(s, c), m);
    }
  }

  /** The caller's grammar. Under an id of its own, provided no older frame of that id was
      still queued whenever it was opened, the frames a core gets accepted by its sink are
      for each opening a prefix of REQUEST, ITEM*, END?, with CREDITs only behind the
      REQUEST, then once settled at most one CANCEL and nothing more; and the REQUEST heads
      the queue exactly as long as nothing has been accepted. */
  lemma CallerGrammar(k: Setup, s: State, c: u32)
    requires Reachable(k, s) && k.Own(c)
    ensures var l := WiresOf(History(s, c));
            !l.tainted ==>
              && l.stage != Wrong
              && (c in s.pending ==> (l.stage == Asked <==> s.box.OpensWithRequest(c)))
              && (c !in s.pending ==> c !in s.box.credits)
  {
    hide Fold;
    WiredAlways(k, s, c);
  }

  /** A step of a call changes the view and the ledger of that call as it says. */
  lemma StepSeen(k: Setup, s: State, step: Step)
    requires Reachable(k, s) && !step.event.Global() && Enabled(k, s, step)
    ensures var e, t := step.event, Apply(k, s, step);
            var v, l := ViewOf(s, e.call), WiresOf(History(s, e.call));
            && Reachable(k, t)
            && ViewOf(t, e.call) == Changed(v, Change(k, v, e))
            && Follows(v, e, Change(k, v, e), l, WiresOf(History(t, e.call)))
  {
    hide Change, Install, Reachable, Fold, Follows, After;
    var e, v := step.event, ViewOf(s, step.event.call);
    var acts := Change(k, v, e).acts + HeardActs(step.heard);
    assert Allowed(k, Around(k, s), v, e, step.heard);
    Extend(k, s, step);
    InstallViews(s, e.call, Change(k, v, e), e.call);
    OneInstall(k, s, step);
    ActsOfItsCall(k, Around(k, s), v, e, step.heard, e.call);
    MineConcat(s.trace, acts, e.call);
    MineAll(acts, e.call);
    FoldStep(Observe, QUIET, History(s, e.call), k, v, e, step.heard);
    FollowsOwn(k, Around(k, s), v, e, step.heard, WiresOf(History(s, e.call)));
  }

  /** Abandoning a call leaves nothing queued if and only if its REQUEST heads the queue, and
      one CANCEL otherwise. So a call of which the sink has accepted nothing yet is
      abandoned as the conversation allows exactly when its REQUEST is the oldest frame of
      its id: behind an older one, the REQUEST is thrown away and a CANCEL goes out that
      no REQUEST precedes. */
  lemma AbandonedExactly(k: Setup, s: State, c: u32, status: Status)
    requires Reachable(k, s) && c in s.pending
    ensures var t := Apply(k, s, Step(Abandon(c, status), None));
            var stage, queue := WiresOf(History(t, c)).stage, t.box.Queue(c);
            && Reachable(k, t) && c !in t.pending && c !in t.box.credits
            && queue == (if s.box.OpensWithRequest(c) then [] else [k.ControlFrame(c, Cancel)])
            && (WiresOf(History(s, c)).stage == Asked ==> (Run(stage, queue) != Wrong <==> s.box.OpensWithRequest(c)))
  {
    hide Fold, Reachable, Apply, Change;
    var step, v := Step(Abandon(c, status), None), ViewOf(s, c);
    var t := Apply(k, s, step);
    StepSeen(k, s, step);
    AbandonDelta(k, v, c, status);
    RunNone(Settles(WiresOf(History(s, c)).stage));
    RunOne(Settles(WiresOf(History(s, c)).stage), [], k.ControlFrame(c, Cancel));
    assert ViewOf(t, c) == Changed(v, Change(k, v, Abandon(c, status)));
  }

  /** So if the id was clean whenever it was opened, abandoning a call whose REQUEST has not
      left emits nothing at all, and abandoning any other exactly one CANCEL. */
  lemma AbandonedQuietly(k: Setup, s: State, c: u32, status: Status)
    requires Reachable(k, s) && c in s.pending && !WiresOf(History(s, c)).tainted
    ensures var t := Apply(k, s, Step(Abandon(c, status), None));
            && c !in t.pending && c !in t.box.credits
            && t.box.Queue(c) == if WiresOf(History(s, c)).stage == Asked then [] else [k.ControlFrame(c, Cancel)]
  {
    hide Fold, Reachable, Apply;
    CompletedAlways(k, s, c);
    WiredAlways(k, s, c);
    AbandonedExactly(k, s, c, status);
  }

  lemma AbandonDelta(k: Setup, v: View, c: u32, status: Status)
    requires v.waiting.Some?
    ensures var after := Changed(v, Change(k, v, Abandon(c, status)));
            && after.waiting.None? && after.credit.None?
            && after.queue == if Opens(v.queue) then [] else [k.ControlFrame(c, Cancel)]
  {
  }

  /** First in, first out: whatever happens, a queue is what was queued and neither sent
      nor dropped, and only its oldest frame is ever sent. */
  lemma FirstInFirstOut(k: Setup, s: State, c: u32)
    requires Reachable(k, s)
    ensures WiresOf(History(s, c)).line == s.box.Queue(c) && !WiresOf(History(s, c)).jumped
  {
    hide Fold;
    WiredAlways(k, s, c);
  }
}
