/** When one id stands for one call: a core opens each id at most once as long as it has
    not probed all ids of its parity. */
module Incarnations {
  import opened Basics
  import opened CallIds
  import opened OutboxModel
  import opened OutboxRefinement
  import opened Session
  import opened CoreModel
  import opened Histories
  import opened Completion
  import opened Ledger
  import opened Flows

  lemma WrapTurns(x: nat, q: nat)
    ensures (x + U32_SPAN * q) % U32_SPAN == x % U32_SPAN
  {
  }

  lemma NthPlus(next: u32, a: nat, b: nat)
    ensures Nth(Nth(next, a), b) == Nth(next, a + b)
  {
    var x := next as int + 2 * a;
    assert x == U32_SPAN * (x / U32_SPAN) + x % U32_SPAN;
    WrapTurns(x % U32_SPAN + 2 * b, x / U32_SPAN);
  }

  function First(k: Setup): u32 { Initial(k).next }

  /** How many of the ids probed are spoken for; the one just issued is not yet. */
  function Used(s: State): int { s.probes - if s.issued.Some? then 1 else 0 }

  /** Where the allocator stands, and where the id it issued last stood. */
  ghost predicate Numbered(k: Setup, s: State) {
    && s.next == Nth(First(k), s.probes)
    && (s.issued.Some? ==> s.probes > 0 && s.issued.value == Nth(First(k), s.probes - 1))
  }

  lemma NumberedStep(k: Setup, s: State, step: Step)
    requires Numbered(k, s) && Enabled(k, s, step)
    ensures Numbered(k, Apply(k, s, step))
  {
    hide Change, Install, Drain, Nth, Allowed;
    if step.event.Probed? {
      NthPlus(First(k), s.probes, step.event.count);
      NthPlus(First(k), s.probes, step.event.count - 1);
    } else if !step.event.Global() {
      IssueKept(k, s, step);
    }
  }

  lemma IssueKept(k: Setup, s: State, step: Step)
    requires !step.event.Global()
    ensures var t := Apply(k, s, step);
            && t.next == s.next && t.probes == s.probes
            && t.issued == if step.event.Open? then None else s.issued
  {
    hide Change, BoxAfter, Visited;
  }

  /** The call's id was met at some probe before those still unused. */
  ghost predicate Met(k: Setup, c: u32, used: int) {
    exists j :: 0 <= j < used && Nth(First(k), j) == c
  }

  ghost predicate OpenedOnce(k: Setup, s: State, c: u32) {
    var opens := FlowOf(History(s, c)).opens;
    && (opens > 0 ==> Met(k, c, Used(s)))
    && (s.probes <= PARITY_IDS ==> opens <= 1)
  }

  /** How often a move opens its call. */
  lemma OpensMove(k: Setup, c: u32, v: View, h: seq<Act>, v': View, h': seq<Act>, m: Move)
    requires Completed(k, c, v, h) && Evolves(k, c, v, h, v', h', m)
    ensures FlowOf(h').opens == FlowOf(h).opens + if m.Own? && m.event.Open? then 1 else 0
  {
    hide Fold, Change, Allowed, Shares, Consistent, After, Booked;
    match m {
      case Stay =>
      case Own(a, e, heard) =>
        FoldStep(Note, DRY, h, k, v, e, heard);
        StepIsBooked(k, v, e, heard, FlowOf(h));
        OpensBooked(k, c, a, v, e, heard, FlowOf(h), TallyOf(h));
      case Drains(share, sent) =>
        FoldConcat(Note, DRY, h, SentActs(c, sent));
        NoteSent(FlowOf(h), c, sent);
      case Ends => FoldFew(Note, DRY, h, [Cleared]);
    }
  }

  lemma OpensBooked(k: Setup, c: u32, a: Surroundings, v: View, e: Event, heard: Option<Message>, l: Flow, t: Tally)
    requires Stepping(k, c, a, v, e, heard, t)
    ensures !e.Global() && Booked(k, v, e, heard, l).opens == if e.Open? then l.opens + 1 else l.opens
  {
    hide Booked, Change;
    SettlesRightly(k, c, a, v, e, heard, t);
    BookedParts(k, v, e, heard, l);
  }

  /** An id can be opened only when it has just been issued. */
  lemma OpenIsIssued(k: Setup, s: State, step: Step)
    requires step.event.Open? && Enabled(k, s, step)
    ensures s.issued == Some(step.event.call)
  {
    hide Change;
  }

  lemma OnceStep(k: Setup, s: State, step: Step, c: u32)
    requires Reachable(k, s) && Numbered(k, s) && OpenedOnce(k, s, c) && Enabled(k, s, step)
    ensures OpenedOnce(k, Apply(k, s, step), c)
  {
    hide Reachable, Enabled, Apply, Evolves, Fold, Nth, Met;
    var t := Apply(k, s, step);
    BoxStaysSound(k, s);
    CompletedAlways(k, s, c);
    var m := EveryStepMoves(k, s, step, c);
    OpensMove(k, c, ViewOf(s, c), History(s, c), ViewOf(t, c), History(t, c), m);
    UsedStep(k, s, step);
    if FlowOf(History(s, c)).opens > 0 {
      MetStays(k, c, Used(s), Used(t));
    }
    if m.Own? && m.event.Open? {
      OwnCall(k, c, ViewOf(s, c), History(s, c), ViewOf(t, c), History(t, c), m);
      OpenIsIssued(k, s, step);
      MetNow(k, c, s.probes, Used(s), FlowOf(History(s, c)).opens > 0);
    }
  }

  lemma OwnCall(k: Setup, c: u32, v: View, h: seq<Act>, v': View, h': seq<Act>, m: Move)
    requires Evolves(k, c, v, h, v', h', m) && m.Own?
    ensures !m.event.Global() && m.event.call == c
  {
    hide Change, Allowed;
  }

  lemma UsedStep(k: Setup, s: State, step: Step)
    requires Enabled(k, s, step)
    ensures var t := Apply(k, s, step);
            && t.probes >= s.probes && Used(t) >= Used(s)
            && (step.event.Open? ==> t.probes == s.probes && Used(t) == s.probes)
  {
    hide Change, Install, Drain, Nth, Allowed;
    if !step.event.Global() {
      IssueKept(k, s, step);
    }
  }

  lemma MetStays(k: Setup, c: u32, used: int, more: int)
    requires Met(k, c, used) && used <= more
    ensures Met(k, c, more)
  {
    hide Nth;
  }

  /** The id met last was met never before, unless the parity has been gone through. */
  lemma MetNow(k: Setup, c: u32, probes: nat, used: int, before: bool)
    requires probes > 0 && c == Nth(First(k), probes - 1) && used == probes - 1 && (before ==> Met(k, c, used))
    ensures Met(k, c, probes)
    ensures probes <= PARITY_IDS ==> !before
  {
    hide Nth;
    if probes <= PARITY_IDS && before {
      var j :| 0 <= j < used && Nth(First(k), j) == c;
      NthInjective(First(k), j, probes - 1);
    }
  }

  lemma {:induction false} OnceAlways(k: Setup, s: State, c: u32)
    requires Reachable(k, s)
    ensures Numbered(k, s) && OpenedOnce(k, s, c)
    decreases |s.journal|
  {
    hide Enabled, Apply, Fold, OpenedOnce, Numbered;
    if s.journal == [] {
      OnceAtFirst(k, c);
    } else {
      var before, step := Previous(k, s);
      OnceAlways(k, before, c);
      NumberedStep(k, before, step);
      OnceStep(k, before, step, c);
    }
  }

  lemma OnceAtFirst(k: Setup, c: u32)
    ensures Numbered(k, Initial(k)) && OpenedOnce(k, Initial(k), c)
  {
  }

  /** As long as a core has probed no more ids than its parity has, it has opened no id
      twice. */
  lemma EachIdOnce(k: Setup, s: State, c: u32)
    requires Reachable(k, s) && s.probes <= PARITY_IDS
    ensures FlowOf(History(s, c)).opens <= 1
  {
    hide Reachable, Fold;
    OnceAlways(k, s, c);
  }
}
