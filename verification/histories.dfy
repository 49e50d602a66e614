/** The run of a core as one call sees it: the call's view, and its history, the acts of
    the trace that concern it. Every step of the core is, for each call, one of four moves. */
module Histories {
  import opened Basics
  import opened Wire
  import opened OutboxModel
  import opened OutboxRefinement
  import opened Session
  import opened CoreModel

  /** Whether an act concerns a call. Clearing the outbox concerns every call. */
  predicate Concerns(a: Act, call: u32) {
    match a
    case Told(outcome) => outcome.call == call
    case Sent(post) => post.call == call
    case Heard(message) => message.Call() == call
    case Cleared => true
    case _ => a.call == call
  }

  function Mine(acts: seq<Act>, call: u32): seq<Act> {
    if acts == [] then []
    else (if Concerns(acts[0], call) then [acts[0]] else []) + Mine(acts[1..], call)
  }

  function History(s: State, call: u32): seq<Act> { Mine(s.trace, call) }

  lemma {:induction false} MineConcat(a: seq<Act>, b: seq<Act>, call: u32)
    ensures Mine(a + b, call) == Mine(a, call) + Mine(b, call)
  {
    if a == [] {
      assert a + b == b;
    } else {
      MineConcat(a[1..], b, call);
      assert (a + b)[0] == a[0] && (a + b)[1..] == a[1..] + b;
      Regroup(if Concerns(a[0], call) then [a[0]] else [], Mine(a[1..], call), Mine(b, call));
    }
  }

  lemma {:induction false} MineAll(acts: seq<Act>, call: u32)
    requires forall a :: a in acts ==> Concerns(a, call)
    ensures Mine(acts, call) == acts
  {
    if acts != [] {
      MineAll(acts[1..], call);
    }
  }

  lemma {:induction false} MineNone(acts: seq<Act>, call: u32)
    requires forall a :: a in acts ==> !Concerns(a, call)
    ensures Mine(acts, call) == []
  {
    if acts != [] {
      MineNone(acts[1..], call);
    }
  }

  function SentActs(call: u32, frames: seq<Outgoing>): seq<Act> {
    if frames == [] then [] else [Sent(Posted(call, frames[0]))] + SentActs(call, frames[1..])
  }

  lemma {:induction false} MineOfSends(posts: seq<Posted>, call: u32)
    ensures Mine(Sends(posts), call) == SentActs(call, Of(posts, call))
  {
    if posts != [] {
      MineOfSends(posts[1..], call);
      assert Sends(posts)[1..] == Sends(posts[1..]);
    }
  }

  predicate OnlyOf(acts: seq<Act>, call: u32) {
    forall i :: 0 <= i < |acts| ==> acts[i] != Cleared && Concerns(acts[i], call)
  }

  lemma ActsCalling(k: Setup, a: Surroundings, v: View, e: Event, heard: Option<Message>)
    requires e.Calling() && Allowed(k, a, v, e, heard)
    ensures OnlyOf(Change(k, v, e).acts, e.call)
  {
    hide Setup.BodyFrame, Setup.ControlFrame, Setup.ErrorFrame, Setup.Plain, ReadCredit, SaturatingAdd, Setup.Own;
  }

  lemma ActsServing(k: Setup, a: Surroundings, v: View, e: Event, heard: Option<Message>)
    requires !e.Global() && !e.Calling() && Allowed(k, a, v, e, heard)
    ensures OnlyOf(Change(k, v, e).acts, e.call)
  {
    hide Setup.BodyFrame, Setup.ControlFrame, Setup.ErrorFrame, Setup.Plain, ReadCredit, SaturatingAdd, Setup.Own;
  }

  /** An act other than clearing concerns one call. */
  lemma OneConcern(a: Act, call: u32, other: u32)
    requires a != Cleared && Concerns(a, call)
    ensures Concerns(a, other) <==> other == call
  {
  }

  /** The acts of a step concern its own call and no other. */
  lemma ActsOfItsCall(k: Setup, a: Surroundings, v: View, e: Event, heard: Option<Message>, c: u32)
    requires !e.Global() && Allowed(k, a, v, e, heard)
    ensures forall act :: act in Change(k, v, e).acts + HeardActs(heard) ==> (Concerns(act, c) <==> c == e.call)
  {
    hide Change, Concerns;
    if e.Calling() {
      ActsCalling(k, a, v, e, heard);
    } else {
      ActsServing(k, a, v, e, heard);
    }
    HeardConcerns(k, a, v, e, heard);
    forall act | act in Change(k, v, e).acts + HeardActs(heard)
      ensures Concerns(act, c) <==> c == e.call
    {
      OneConcern(act, e.call, c);
    }
  }

  lemma HeardConcerns(k: Setup, a: Surroundings, v: View, e: Event, heard: Option<Message>)
    requires !e.Global() && Allowed(k, a, v, e, heard)
    ensures OnlyOf(HeardActs(heard), e.call)
  {
    hide Setup.BodyFrame, Setup.ControlFrame, Setup.ErrorFrame, Setup.Plain, ReadCredit, SaturatingAdd, Setup.Own;
  }

  // ------------------------------------------------------------------- moves

  datatype Move =
    | Stay
    | Own(around: Surroundings, event: Event, heard: Option<Message>)
    | Drains(share: Share, sent: seq<Outgoing>)
    | Ends

  /** What one move does to one call's view and history. */
  ghost predicate Evolves(k: Setup, call: u32, v: View, h: seq<Act>, v': View, h': seq<Act>, m: Move) {
    match m
    case Stay => v' == v && h' == h
    case Own(a, e, heard) =>
      && !e.Global() && e.call == call && Allowed(k, a, v, e, heard)
      && v' == Changed(v, Change(k, v, e))
      && h' == h + (Change(k, v, e).acts + HeardActs(heard))
    case Drains(share, sent) =>
      && Shares(call, v.queue, v.credit, sent, v'.queue, v'.credit, share)
      && v'.waiting == v.waiting && v'.running == v.running
      && h' == h + SentActs(call, sent)
    case Ends => v.waiting.None? && v.running.None? && v' == NOTHING && h' == h + [Cleared]
  }

  lemma OwnOrStay(k: Setup, s: State, step: Step, c: u32) returns (m: Move)
    requires Enabled(k, s, step) && !step.event.Global()
    ensures var t := Apply(k, s, step);
            Evolves(k, c, ViewOf(s, c), History(s, c), ViewOf(t, c), History(t, c), m)
    ensures m.Own? ==> m == Own(Around(k, s), step.event, step.heard)
  {
    var e, v := step.event, ViewOf(s, step.event.call);
    var acts := Change(k, v, e).acts + HeardActs(step.heard);
    assert Allowed(k, Around(k, s), v, e, step.heard);
    ActsOfItsCall(k, Around(k, s), v, e, step.heard, c);
    InstallViews(s, e.call, Change(k, v, e), c);
    OneInstall(k, s, step);
    MineConcat(s.trace, acts, c);
    if e.call == c {
      MineAll(acts, c);
      m := Own(Around(k, s), e, step.heard);
    } else {
      MineNone(acts, c);
      NothingAdded(History(s, c));
      m := Stay;
    }
  }

  lemma OneInstall(k: Setup, s: State, step: Step)
    requires !step.event.Global()
    ensures var d := Change(k, ViewOf(s, step.event.call), step.event);
            var t, u := Apply(k, s, step), Install(s, step.event.call, d);
            && t.trace == s.trace + (d.acts + HeardActs(step.heard))
            && t.pending == u.pending && t.inflight == u.inflight && t.box == u.box
  {
    hide Change, BoxAfter;
    var d := Change(k, ViewOf(s, step.event.call), step.event);
    Regroup(s.trace, d.acts, HeardActs(step.heard));
  }

  /** Every step of the core is one move of every call. */
  lemma EveryStepMoves(k: Setup, s: State, step: Step, c: u32) returns (m: Move)
    requires Enabled(k, s, step) && s.box.Valid()
    ensures var t := Apply(k, s, step);
            Evolves(k, c, ViewOf(s, c), History(s, c), ViewOf(t, c), History(t, c), m)
    ensures m.Own? ==> !step.event.Global() && m == Own(Around(k, s), step.event, step.heard)
  {
    hide Evolves, Apply, Enabled, Box.Valid;
    if !step.event.Global() {
      m := OwnOrStay(k, s, step, c);
    } else if step.event.DrainTo? {
      m := DrainShares(k, s, step, c);
    } else {
      m := SettingMoves(k, s, step, c);
    }
  }

  lemma SettingMoves(k: Setup, s: State, step: Step, c: u32) returns (m: Move)
    requires Enabled(k, s, step) && step.event.Global() && !step.event.DrainTo?
    ensures var t := Apply(k, s, step);
            Evolves(k, c, ViewOf(s, c), History(s, c), ViewOf(t, c), History(t, c), m)
    ensures !m.Own?
  {
    hide Drain, Shares, Install, Change, Allowed, Mine;
    if step.event.EndSession? {
      EndingMoves(k, s, step, c);
      m := Ends;
    } else {
      NothingAdded(s.trace);
      m := Stay;
    }
  }

  lemma EndingMoves(k: Setup, s: State, step: Step, c: u32)
    requires Enabled(k, s, step) && step.event.EndSession?
    ensures var t := Apply(k, s, step);
            Evolves(k, c, ViewOf(s, c), History(s, c), ViewOf(t, c), History(t, c), Ends)
  {
    hide Drain, Shares, Install, Change, Allowed;
    MineConcat(s.trace, [Cleared], c);
    NothingAdded(s.trace + [Cleared]);
  }

  lemma DrainShares(k: Setup, s: State, step: Step, c: u32) returns (m: Move)
    requires Enabled(k, s, step) && s.box.Valid() && step.event.DrainTo?
    ensures var t := Apply(k, s, step);
            Evolves(k, c, ViewOf(s, c), History(s, c), ViewOf(t, c), History(t, c), m)
    ensures !m.Own?
  {
    hide Drain, Shares, Install, Change;
    var sink := step.event.sink;
    var share := DrainRefines(s.box, sink, c);
    var sent := Drain(s.box, sink).sent;
    MineConcat(s.trace, Sends(sent), c);
    MineOfSends(sent, c);
    NothingAdded(s.trace + Sends(sent));
    m := Drains(share, Of(sent, c));
  }

  /** The kind of frame an event queues, if it queues one. */
  function Speaks(e: Event): Kind {
    match e
    case Open(_, _, frame) => frame.header.kind
    case PushItem(_, _) => Kind.Item
    case PushEnd(_) => Kind.End
    case Abandon(_, _) => Cancel
    case Yield(_, _) => Kind.Item
    case Answer(_, _) => Kind.Response
    case CloseOut(_) => Kind.End
    case _ => Kind.Error
  }

  ghost predicate Spoken(e: Event, f: Option<Outgoing>)
    requires !e.Global()
  {
    f.Some? ==>
      && f.value.header.kind == Speaks(e)
      && (if e.Open? then f.value == e.frame else f.value.header.call == e.call && Bare(f.value))
  }

  lemma CallingKinds(k: Setup, v: View, e: Event)
    requires e.Calling()
    ensures Spoken(e, Change(k, v, e).append)
  {
    hide Setup.BodyFrame, SaturatingAdd;
    if e.PushItem? && v.waiting.Some? {
      BodyFrameKind(k, e.call, Kind.Item, v.waiting.value.itemID, e.body);
    }
  }

  lemma ServingKinds(k: Setup, v: View, e: Event)
    requires !e.Global() && !e.Calling()
    ensures Spoken(e, Change(k, v, e).append)
  {
    hide Setup.BodyFrame, SaturatingAdd;
    if e.Yield? && v.running.Some? {
      BodyFrameKind(k, e.call, Kind.Item, v.running.value.replyID, e.body);
    } else if e.Answer? && v.running.Some? {
      BodyFrameKind(k, e.call, Kind.Response, v.running.value.replyID, e.body);
    } else if e.Finish? || e.Stray? {
      BodyFrameKind(k, e.call, Kind.Error, k.registry.errorID, e.status.Encode());
    }
  }

  /** What a step queues bears its call's id and is of the event's kind; only a REQUEST
      bears a ctx. */
  lemma AppendKinds(k: Setup, v: View, e: Event)
    requires !e.Global()
    ensures Spoken(e, Change(k, v, e).append)
  {
    hide Change, Spoken;
    if e.Calling() {
      CallingKinds(k, v, e);
    } else {
      ServingKinds(k, v, e);
    }
  }

  /** What a step queues is no CREDIT: credit waits beside the queues. */
  lemma NoCreditQueued(k: Setup, a: Surroundings, v: View, e: Event, heard: Option<Message>)
    requires !e.Global() && Allowed(k, a, v, e, heard)
    ensures var d := Change(k, v, e); d.append.Some? ==> d.append.value.header.kind != Kind.Credit
  {
    hide Change, Setup.Plain, Setup.Own;
    AppendKinds(k, v, e);
  }

  // ------------------------------------------------------------ folding a history

  /** What a history amounts to, folded act by act. */
  function Fold<L>(step: (L, Act) -> L, l: L, acts: seq<Act>): L
    decreases |acts|
  {
    if acts == [] then l else Fold(step, step(l, acts[0]), acts[1..])
  }

  lemma {:induction false} FoldConcat<L>(step: (L, Act) -> L, l: L, a: seq<Act>, b: seq<Act>)
    ensures Fold(step, l, a + b) == Fold(step, Fold(step, l, a), b)
    decreases |a|
  {
    if a == [] {
      assert a + b == b;
    } else {
      FoldConcat(step, step(l, a[0]), a[1..], b);
      assert (a + b)[0] == a[0] && (a + b)[1..] == a[1..] + b;
    }
  }

  /** A handful of acts, one after the other. */
  function Few<L>(step: (L, Act) -> L, l: L, acts: seq<Act>): L {
    var n := |acts|;
    var l1 := if n > 0 then step(l, acts[0]) else l;
    var l2 := if n > 1 then step(l1, acts[1]) else l1;
    var l3 := if n > 2 then step(l2, acts[2]) else l2;
    if n > 3 then step(l3, acts[3]) else l3
  }

  lemma FoldFew<L>(step: (L, Act) -> L, l: L, h: seq<Act>, acts: seq<Act>)
    requires |acts| <= 4
    ensures Fold(step, l, h + acts) == Few(step, Fold(step, l, h), acts)
  {
    FoldConcat(step, l, h, acts);
    var m, n := Fold(step, l, h), |acts|;
    var m1 := if n > 0 then step(m, acts[0]) else m;
    var m2 := if n > 1 then step(m1, acts[1]) else m1;
    var m3 := if n > 2 then step(m2, acts[2]) else m2;
    assert acts[0..] == acts;
    if n > 0 { Peel(step, m, acts, 0); }
    if n > 1 { Peel(step, m1, acts, 1); }
    if n > 2 { Peel(step, m2, acts, 2); }
    if n > 3 { Peel(step, m3, acts, 3); }
  }

  lemma Peel<L>(step: (L, Act) -> L, l: L, acts: seq<Act>, i: nat)
    requires i < |acts|
    ensures Fold(step, l, acts[i..]) == Fold(step, step(l, acts[i]), acts[i + 1..])
  {
    assert acts[i..][1..] == acts[i + 1..];
  }

  /** A ledger after a step of the call: the step's acts, then the message it answers. */
  function After<L>(step: (L, Act) -> L, k: Setup, v: View, e: Event, heard: Option<Message>, l: L): L
    requires !e.Global()
  {
    var m := Few(step, l, Change(k, v, e).acts);
    if heard.Some? then step(m, Heard(heard.value)) else m
  }

  lemma FoldStep<L>(step: (L, Act) -> L, l: L, h: seq<Act>, k: Setup, v: View, e: Event, heard: Option<Message>)
    requires !e.Global()
    ensures Fold(step, l, h + (Change(k, v, e).acts + HeardActs(heard)))
            == After(step, k, v, e, heard, Fold(step, l, h))
  {
    hide Change, Fold;
    var acts := Change(k, v, e).acts;
    FewActs(k, v, e);
    FoldFew(step, l, h, acts);
    if heard.Some? {
      Regroup(h, acts, [Heard(heard.value)]);
      FoldFew(step, l, h + acts, [Heard(heard.value)]);
    } else {
      NothingAdded(acts);
    }
  }

  lemma FewActs(k: Setup, v: View, e: Event)
    requires !e.Global()
    ensures |Change(k, v, e).acts| <= 4
  {
    hide Setup.BodyFrame, Setup.ControlFrame, Setup.ErrorFrame, SaturatingAdd;
  }
}
