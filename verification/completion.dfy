/** Every call ends exactly once, and every interceptor link a call entered is unwound
    exactly once, over every run of a core. */
module Completion {
  import opened Basics
  import opened OutboxModel
  import opened OutboxRefinement
  import opened Session
  import opened CoreModel
  import opened Histories

  // ------------------------------------------------------- exactly-once completion

  /** How often a call was opened and ended, whether it is open, and whether an outcome
      was ever told of a call that was not open (or a call opened that was). */
  datatype Tally = Tally(opens: nat, ends: nat, open: bool, broken: bool)

  function Count(l: Tally, a: Act): Tally {
    match a
    case Opened(_) => l.(opens := l.opens + 1, open := true, broken := l.broken || l.open)
    case Told(outcome) =>
      if outcome.Terminates() then l.(ends := l.ends + 1, open := false, broken := l.broken || !l.open)
      else l.(broken := l.broken || !l.open)
    case _ => l
  }

  function TallyOf(h: seq<Act>): Tally { Fold(Count, Tally(0, 0, false, false), h) }

  ghost predicate Consistent(k: Setup, c: u32, v: View, l: Tally) {
    && l.opens == l.ends + (if v.waiting.Some? then 1 else 0)
    && l.open == v.waiting.Some?
    && !l.broken
    && (v.waiting.Some? ==> k.Own(c))
    && (v.running.Some? ==> !k.Own(c))
  }

  ghost predicate Completed(k: Setup, c: u32, v: View, h: seq<Act>) { Consistent(k, c, v, TallyOf(h)) }

  lemma SentUncounted(l: Tally, call: u32, frames: seq<Outgoing>)
    ensures Fold(Count, l, SentActs(call, frames)) == l
  {
    if frames != [] {
      SentUncounted(l, call, frames[1..]);
      assert SentActs(call, frames)[1..] == SentActs(call, frames[1..]);
    }
  }

  lemma ConsistentCalling(k: Setup, c: u32, a: Surroundings, v: View, e: Event, heard: Option<Message>, l: Tally)
    requires Consistent(k, c, v, l) && !e.Global() && e.call == c && Allowed(k, a, v, e, heard)
    requires e.Calling()
    ensures Consistent(k, c, Changed(v, Change(k, v, e)), After(Count, k, v, e, heard, l))
  {
    hide Setup.BodyFrame, Setup.ControlFrame, Setup.ErrorFrame, Setup.Plain, ReadCredit, SaturatingAdd, Setup.Own;
  }

  lemma ConsistentServing(k: Setup, c: u32, a: Surroundings, v: View, e: Event, heard: Option<Message>, l: Tally)
    requires Consistent(k, c, v, l) && !e.Global() && e.call == c && Allowed(k, a, v, e, heard)
    requires !e.Calling()
    ensures Consistent(k, c, Changed(v, Change(k, v, e)), After(Count, k, v, e, heard, l))
  {
    hide Setup.BodyFrame, Setup.ControlFrame, Setup.ErrorFrame, Setup.Plain, ReadCredit, SaturatingAdd, Setup.Own;
  }

  lemma ConsistentOwn(k: Setup, c: u32, a: Surroundings, v: View, e: Event, heard: Option<Message>, l: Tally)
    requires Consistent(k, c, v, l) && !e.Global() && e.call == c && Allowed(k, a, v, e, heard)
    ensures Consistent(k, c, Changed(v, Change(k, v, e)), After(Count, k, v, e, heard, l))
  {
    hide Change, Allowed, After;
    if e.Calling() {
      ConsistentCalling(k, c, a, v, e, heard, l);
    } else {
      ConsistentServing(k, c, a, v, e, heard, l);
    }
  }

  lemma CompletedMove(k: Setup, c: u32, v: View, h: seq<Act>, v': View, h': seq<Act>, m: Move)
    requires Completed(k, c, v, h) && Evolves(k, c, v, h, v', h', m)
    ensures Completed(k, c, v', h')
  {
    hide Fold, Change, Allowed, Shares;
    var start := Tally(0, 0, false, false);
    match m {
      case Stay =>
      case Own(a, e, heard) =>
        FoldStep(Count, start, h, k, v, e, heard);
        ConsistentOwn(k, c, a, v, e, heard, TallyOf(h));
      case Drains(share, sent) =>
        FoldConcat(Count, start, h, SentActs(c, sent));
        SentUncounted(TallyOf(h), c, sent);
      case Ends => FoldFew(Count, start, h, [Cleared]);
    }
  }

  lemma {:induction false} CompletedAlways(k: Setup, s: State, c: u32)
    requires Reachable(k, s)
    ensures Completed(k, c, ViewOf(s, c), History(s, c))
    decreases |s.journal|
  {
    hide Enabled, Apply, Evolves;
    if s.journal != [] {
      var before, step := Previous(k, s);
      CompletedAlways(k, before, c);
      BoxStaysSound(k, before);
      var m := EveryStepMoves(k, before, step, c);
      CompletedMove(k, c, ViewOf(before, c), History(before, c), ViewOf(s, c), History(s, c), m);
    }
  }

  /** Exactly once: every id was opened as often as it was ended, plus one if it is still
      pending, and outcomes were told only of open calls. */
  lemma ExactlyOnce(k: Setup, s: State, c: u32)
    requires Reachable(k, s)
    ensures var l := TallyOf(History(s, c));
            l.opens == l.ends + (if c in s.pending then 1 else 0) && !l.broken
  {
    CompletedAlways(k, s, c);
  }

  /** The two tables never share an id: each holds one parity. */
  lemma ParitySeparation(k: Setup, s: State)
    requires Reachable(k, s)
    ensures forall c :: c in s.pending ==> k.Own(c)
    ensures forall c :: c in s.inflight ==> !k.Own(c)
    ensures s.pending.Keys !! s.inflight.Keys
  {
    forall c
      ensures c in s.pending ==> k.Own(c)
      ensures c in s.inflight ==> !k.Own(c)
    {
      CompletedAlways(k, s, c);
    }
  }

  // ------------------------------------------------------------ interceptor links

  /** Passages of one link: calls that entered it and calls that left it by unwinding. */
  datatype Passages = Passages(entered: nat, unwound: nat)

  function Pass(link: nat): (Passages, Act) -> Passages {
    (l: Passages, a: Act) =>
      match a
      case Entered(_, n) => if n > link then l.(entered := l.entered + 1) else l
      case Unwound(_, n) => if n > link then l.(unwound := l.unwound + 1) else l
      case _ => l
  }

  /** The live calls that are inside a link. */
  ghost function InsidePending(s: State, link: nat): set<u32> {
    set c | c in s.pending && s.pending[c].entered > link
  }

  ghost function InsideInflight(s: State, link: nat): set<u32> {
    set c | c in s.inflight && s.inflight[c].entered > link
  }

  ghost predicate Balanced(s: State, link: nat) {
    var l := Fold(Pass(link), Passages(0, 0), s.trace);
    l.entered == l.unwound + |InsidePending(s, link)| + |InsideInflight(s, link)|
  }

  lemma SentPassesNothing(link: nat, l: Passages, posts: seq<Posted>)
    ensures Fold(Pass(link), l, Sends(posts)) == l
  {
    if posts != [] {
      SentPassesNothing(link, l, posts[1..]);
      assert Sends(posts)[1..] == Sends(posts[1..]);
    }
  }

  function Inside(entered: Option<nat>, link: nat): nat {
    if entered.Some? && entered.value > link then 1 else 0
  }

  function DepthW(w: Option<Waiting>): Option<nat> { if w.Some? then Some(w.value.entered) else None }

  function DepthR(r: Option<Running>): Option<nat> { if r.Some? then Some(r.value.entered) else None }

  lemma OneDiffers(a: set<u32>, b: set<u32>, call: u32)
    requires a - {call} == b - {call}
    ensures |b| == |a| - (if call in a then 1 else 0) + (if call in b then 1 else 0)
  {
    assert a == (a - {call}) + if call in a then {call} else {};
    assert b == (a - {call}) + if call in b then {call} else {};
  }

  /** Changing one entry of a table changes the number of calls inside by that entry. */
  lemma PendingCount(s: State, t: State, call: u32, w: Option<Waiting>, link: nat)
    requires t.pending == Put(s.pending, call, w)
    ensures |InsidePending(t, link)| == |InsidePending(s, link)|
            - Inside(DepthW(Lookup(s.pending, call)), link) + Inside(DepthW(w), link)
  {
    OneDiffers(InsidePending(s, link), InsidePending(t, link), call);
  }

  lemma InflightCount(s: State, t: State, call: u32, r: Option<Running>, link: nat)
    requires t.inflight == Put(s.inflight, call, r)
    ensures |InsideInflight(t, link)| == |InsideInflight(s, link)|
            - Inside(DepthR(Lookup(s.inflight, call)), link) + Inside(DepthR(r), link)
  {
    OneDiffers(InsideInflight(s, link), InsideInflight(t, link), call);
  }

  /** Passages in that neither unwound nor are accounted for by the call still being inside. */
  function Owed(w: Option<Waiting>, r: Option<Running>, link: nat, l: Passages): int {
    l.entered - l.unwound - Inside(DepthW(w), link) - Inside(DepthR(r), link)
  }

  lemma EnteringBalance(k: Setup, a: Surroundings, v: View, e: Event, heard: Option<Message>, link: nat, l: Passages)
    requires !e.Global() && Allowed(k, a, v, e, heard)
    requires e.Bounce? || e.Open?
    ensures var d := Change(k, v, e);
            Owed(d.waiting, d.running, link, After(Pass(link), k, v, e, heard, l))
            == Owed(v.waiting, v.running, link, l)
  {
    hide Setup.BodyFrame, Setup.ControlFrame, Setup.ErrorFrame, Setup.Plain, ReadCredit, SaturatingAdd, Setup.Own;
  }

  lemma SettlingBalance(k: Setup, a: Surroundings, v: View, e: Event, heard: Option<Message>, link: nat, l: Passages)
    requires !e.Global() && Allowed(k, a, v, e, heard)
    requires e.Settle? || e.Abandon?
    ensures var d := Change(k, v, e);
            Owed(d.waiting, d.running, link, After(Pass(link), k, v, e, heard, l))
            == Owed(v.waiting, v.running, link, l)
  {
    hide Setup.BodyFrame, Setup.ControlFrame, Setup.ErrorFrame, Setup.Plain, ReadCredit, SaturatingAdd, Setup.Own;
  }

  lemma StayingBalance(k: Setup, a: Surroundings, v: View, e: Event, heard: Option<Message>, link: nat, l: Passages)
    requires !e.Global() && Allowed(k, a, v, e, heard)
    requires e.PushItem? || e.PushEnd? || e.Grant? || e.TellItem? || e.Allow?
    ensures var d := Change(k, v, e);
            Owed(d.waiting, d.running, link, After(Pass(link), k, v, e, heard, l))
            == Owed(v.waiting, v.running, link, l)
  {
    hide Setup.BodyFrame, Setup.ControlFrame, Setup.ErrorFrame, Setup.Plain, ReadCredit, SaturatingAdd, Setup.Own;
  }

  lemma FinishingBalance(k: Setup, a: Surroundings, v: View, e: Event, heard: Option<Message>, link: nat, l: Passages)
    requires !e.Global() && Allowed(k, a, v, e, heard)
    requires e.Answer? || e.CloseOut? || e.Finish? || e.Leave?
    ensures var d := Change(k, v, e);
            Owed(d.waiting, d.running, link, After(Pass(link), k, v, e, heard, l))
            == Owed(v.waiting, v.running, link, l)
  {
    hide Setup.BodyFrame, Setup.ControlFrame, Setup.ErrorFrame, Setup.Plain, ReadCredit, SaturatingAdd, Setup.Own;
  }

  lemma ServingBalance(k: Setup, a: Surroundings, v: View, e: Event, heard: Option<Message>, link: nat, l: Passages)
    requires !e.Global() && Allowed(k, a, v, e, heard)
    requires e.Admit? || e.Update? || e.Deliver? || e.Yield? || e.Stray? || e.Ignore?
    ensures var d := Change(k, v, e);
            Owed(d.waiting, d.running, link, After(Pass(link), k, v, e, heard, l))
            == Owed(v.waiting, v.running, link, l)
  {
    hide Setup.BodyFrame, Setup.ControlFrame, Setup.ErrorFrame, Setup.Plain, ReadCredit, SaturatingAdd, Setup.Own;
  }

  /** One step of one call: what it enters it unwinds, or it is inside afterwards. */
  lemma CallBalance(k: Setup, a: Surroundings, v: View, e: Event, heard: Option<Message>, link: nat, l: Passages)
    requires !e.Global() && Allowed(k, a, v, e, heard)
    ensures var d := Change(k, v, e);
            Owed(d.waiting, d.running, link, After(Pass(link), k, v, e, heard, l))
            == Owed(v.waiting, v.running, link, l)
  {
    hide Change, Allowed, After, Owed;
    if e.Bounce? || e.Open? {
      EnteringBalance(k, a, v, e, heard, link, l);
    } else if e.Settle? || e.Abandon? {
      SettlingBalance(k, a, v, e, heard, link, l);
    } else if e.Calling() {
      StayingBalance(k, a, v, e, heard, link, l);
    } else if e.Answer? || e.CloseOut? || e.Finish? || e.Leave? {
      FinishingBalance(k, a, v, e, heard, link, l);
    } else {
      ServingBalance(k, a, v, e, heard, link, l);
    }
  }

  lemma BalancedCallStep(k: Setup, s: State, step: Step, link: nat)
    requires Balanced(s, link) && Enabled(k, s, step) && !step.event.Global()
    ensures Balanced(Apply(k, s, step), link)
  {
    hide Fold, After, Change, Install;
    var e, v, t := step.event, ViewOf(s, step.event.call), Apply(k, s, step);
    var d := Change(k, v, e);
    var acts := d.acts + HeardActs(step.heard);
    OneInstall(k, s, step);
    FoldStep(Pass(link), Passages(0, 0), s.trace, k, v, e, step.heard);
    CallBalance(k, Around(k, s), v, e, step.heard, link, Fold(Pass(link), Passages(0, 0), s.trace));
    Installed(s, e.call, d);
    PendingCount(s, t, e.call, d.waiting, link);
    InflightCount(s, t, e.call, d.running, link);
  }

  lemma Installed(s: State, call: u32, d: Delta)
    ensures Install(s, call, d).pending == Put(s.pending, call, d.waiting)
    ensures Install(s, call, d).inflight == Put(s.inflight, call, d.running)
  {
  }

  lemma BalancedStep(k: Setup, s: State, step: Step, link: nat)
    requires Balanced(s, link) && Enabled(k, s, step) && s.box.Valid()
    ensures Balanced(Apply(k, s, step), link)
  {
    hide Balanced, Enabled, Apply, Box.Valid;
    if !step.event.Global() {
      BalancedCallStep(k, s, step, link);
    } else {
      BalancedGlobalStep(k, s, step, link);
    }
  }

  lemma SameTables(s: State, t: State, link: nat)
    requires t.pending == s.pending && t.inflight == s.inflight
    ensures InsidePending(t, link) == InsidePending(s, link) && InsideInflight(t, link) == InsideInflight(s, link)
  {
  }

  lemma BalancedGlobalStep(k: Setup, s: State, step: Step, link: nat)
    requires Balanced(s, link) && Enabled(k, s, step) && s.box.Valid() && step.event.Global()
    ensures Balanced(Apply(k, s, step), link)
  {
    hide Fold, Change, Install, Drain, Allowed, Box.Valid, Inside, InsidePending, InsideInflight;
    var start, t := Passages(0, 0), Apply(k, s, step);
    NothingAdded(s.trace);
    SameTables(s, t, link);
    match step.event {
      case DrainTo(sink) =>
        var sends := Sends(Drain(s.box, sink).sent);
        NothingAdded(s.trace + sends);
        FoldConcat(Pass(link), start, s.trace, sends);
        SentPassesNothing(link, Fold(Pass(link), start, s.trace), Drain(s.box, sink).sent);
      case EndSession =>
        NothingAdded(s.trace + [Cleared]);
        FoldFew(Pass(link), start, s.trace, [Cleared]);
      case _ =>
    }
  }

  /** Interceptor conservation, link by link: calls that entered the link are as many as
      those unwound through it plus the live calls inside it. */
  lemma {:induction false} LinksConserved(k: Setup, s: State, link: nat)
    requires Reachable(k, s)
    ensures Balanced(s, link)
    decreases |s.journal|
  {
    hide Enabled, Apply;
    if s.journal == [] {
      assert InsidePending(s, link) == {} && InsideInflight(s, link) == {};
    } else {
      var before, step := Previous(k, s);
      LinksConserved(k, before, link);
      BoxStaysSound(k, before);
      BalancedStep(k, before, step, link);
    }
  }
}
