/** Chains of enabled steps, and what holds in every state they lead to. */
module Chains {
  import opened Basics
  import opened Wire
  import opened OutboxModel
  import opened CallIds
  import opened Session
  import opened CoreModel
  import Completion

  // --------------------------------------------------------------- chains of steps

  function HeardIn(steps: seq<Step>): seq<Message> {
    if steps == [] then []
    else (if steps[0].heard.Some? then [steps[0].heard.value] else []) + HeardIn(steps[1..])
  }

  lemma {:induction false} HeardConcat(a: seq<Step>, b: seq<Step>)
    ensures HeardIn(a + b) == HeardIn(a) + HeardIn(b)
  {
    if a == [] {
      assert a + b == b;
    } else {
      HeardConcat(a[1..], b);
      assert (a + b)[0] == a[0] && (a + b)[1..] == a[1..] + b;
      Regroup(if a[0].heard.Some? then [a[0].heard.value] else [], HeardIn(a[1..]), HeardIn(b));
    }
  }

  /** Enabled steps lead from one state to the other, and they answer these messages. */
  ghost predicate Chained(k: Setup, s: State, t: State, heard: seq<Message>) {
    && Reachable(k, s) && Reachable(k, t)
    && |s.journal| <= |t.journal| && t.journal[..|s.journal|] == s.journal
    && HeardIn(t.journal[|s.journal|..]) == heard
  }

  /** None of these steps is a drain. */
  ghost predicate Undrained(steps: seq<Step>) { forall i :: 0 <= i < |steps| ==> !steps[i].event.DrainTo? }

  /** Such steps lead there without a drain. */
  ghost predicate Leads(k: Setup, s: State, t: State, heard: seq<Message>) {
    Chained(k, s, t, heard) && Undrained(t.journal[|s.journal|..])
  }

  lemma Here(k: Setup, s: State)
    requires Reachable(k, s)
    ensures Leads(k, s, s, [])
  {
    hide Reachable;
  }

  lemma Onward(k: Setup, s: State, t: State, u: State, a: seq<Message>, b: seq<Message>)
    requires Leads(k, s, t, a) && Leads(k, t, u, b)
    ensures Leads(k, s, u, a + b)
  {
    hide Reachable;
    var i, j := |s.journal|, |t.journal|;
    assert u.journal[i..] == t.journal[i..] + u.journal[j..] by {
      assert u.journal == t.journal + u.journal[j..];
    }
    HeardConcat(t.journal[i..], u.journal[j..]);
    assert u.journal[..i] == u.journal[..j][..i];
    assert Undrained(t.journal[i..] + u.journal[j..]);
  }

  /** As `Onward`, when the second part answers nothing. */
  lemma OnwardQuietly(k: Setup, s: State, t: State, u: State, a: seq<Message>)
    requires Leads(k, s, t, a) && Leads(k, t, u, [])
    ensures Leads(k, s, u, a)
  {
    Onward(k, s, t, u, a, []);
    NothingAdded(a);
  }

  lemma OneStep(k: Setup, s: State, step: Step)
    requires Reachable(k, s) && Enabled(k, s, step)
    ensures Chained(k, s, Apply(k, s, step), Given(step.heard))
    ensures !step.event.DrainTo? ==> Leads(k, s, Apply(k, s, step), Given(step.heard))
  {
    hide Reachable, Effect, Enabled;
    Extend(k, s, step);
    var t := Apply(k, s, step);
    assert t.journal == s.journal + [step];
    assert t.journal[|s.journal|..] == [step];
    assert [step][1..] == [] && HeardIn([step]) == Given(step.heard) + HeardIn([]);
    NothingAdded(Given(step.heard));
  }

  /** A step of one call that nothing prompted. */
  lemma Doing(k: Setup, s: State, e: Event)
    requires Reachable(k, s) && !e.Global() && Allowed(k, Around(k, s), ViewOf(s, e.call), e, None)
    ensures Leads(k, s, Do(k, s, e), [])
  {
    hide Allowed, Effect, Reachable;
    OneStep(k, s, Step(e, None));
  }

  /** A step of one call that answers a message. */
  lemma Hearing(k: Setup, s: State, e: Event, m: Message)
    requires Reachable(k, s) && !e.Global() && Allowed(k, Around(k, s), ViewOf(s, e.call), e, Some(m))
    ensures Leads(k, s, Hear(k, s, e, m), [m])
  {
    hide Allowed, Effect, Reachable;
    OneStep(k, s, Step(e, Some(m)));
  }

  lemma Straying(k: Setup, s: State, call: u32, status: Status, m: Message)
    requires Reachable(k, s) && m.Call() == call && call !in s.inflight && (call in s.pending ==> m.Is(Request))
    requires Provokes(k, m)
    ensures Leads(k, s, Hear(k, s, Stray(call, status), m), [m])
  {
    hide Reachable, Apply, Leads;
    Hearing(k, s, Stray(call, status), m);
  }

  lemma Finishing(k: Setup, s: State, call: u32, status: Status)
    requires Reachable(k, s) && call in s.inflight
    ensures Leads(k, s, Do(k, s, Finish(call, status)), [])
  {
    hide Reachable, Apply, Leads;
    Doing(k, s, Finish(call, status));
  }

  lemma Ignoring(k: Setup, s: State, call: u32, m: Message)
    requires Reachable(k, s) && m.Call() == call
    requires call in s.pending ==> m.Is(Cancel) || m.Is(Kind.Credit)
    requires call in s.inflight ==> m.Frame? && !m.Is(Kind.Item) && !m.Is(Kind.End)
    ensures Leads(k, s, Hear(k, s, Ignore(call), m), [m])
  {
    hide Reachable, Apply, Leads;
    Hearing(k, s, Ignore(call), m);
  }

  lemma Bouncing(k: Setup, s: State, call: u32, entered: nat)
    requires Reachable(k, s) && entered <= s.links
    ensures Leads(k, s, Do(k, s, Bounce(call, entered)), [])
  {
    hide Reachable, Apply, Leads;
    Doing(k, s, Bounce(call, entered));
  }

  lemma FinishingOn(k: Setup, s: State, call: u32, status: Status, m: Message)
    requires Reachable(k, s) && m.Call() == call && call in s.inflight
    ensures Leads(k, s, Hear(k, s, Finish(call, status), m), [m])
  {
    hide Reachable, Apply, Leads;
    Hearing(k, s, Finish(call, status), m);
  }

  lemma AbandoningOn(k: Setup, s: State, call: u32, status: Status, m: Message)
    requires Reachable(k, s) && m.Call() == call && call in s.pending
    ensures Leads(k, s, Hear(k, s, Abandon(call, status), m), [m])
  {
    hide Reachable, Apply, Leads;
    Hearing(k, s, Abandon(call, status), m);
  }

  // ------------------------------------------------------- what reachable states obey

  /** What the operations rely on between them. */
  ghost predicate Sane(k: Setup, s: State) {
    && BoxSound(k, s.box)
    && k.Own(s.next)
    && (forall c :: c in s.pending ==> k.Own(c))
    && (forall c :: c in s.inflight ==> !k.Own(c))
    && (s.pending != map[] || s.inflight != map[] ==> s.ready)
    && Within(s)
  }

  /** Live calls have entered no more links than the chain has. */
  ghost predicate Within(s: State) {
    && (forall c :: c in s.pending ==> s.pending[c].entered <= s.links)
    && (forall c :: c in s.inflight ==> s.inflight[c].entered <= s.links)
  }

  ghost predicate Poised(k: Setup, s: State) {
    k.Own(s.next) && (s.pending != map[] || s.inflight != map[] ==> s.ready) && Within(s)
  }

  /** Only `Call` makes a call wait that did not, and only on a ready core; no step enters
      more links than there are. */
  lemma WaitsWhenReady(k: Setup, a: Surroundings, v: View, e: Event, heard: Option<Message>)
    requires !e.Global() && Allowed(k, a, v, e, heard)
    requires v.waiting.Some? ==> v.waiting.value.entered <= a.links
    requires v.running.Some? ==> v.running.value.entered <= a.links
    ensures var d := Change(k, v, e);
            && (d.waiting.Some? ==> (v.waiting.Some? || a.ready) && d.waiting.value.entered <= a.links)
            && (d.running.Some? ==> (v.running.Some? || a.ready) && d.running.value.entered <= a.links)
  {
    hide Setup.Plain, Setup.Own, Setup.Squeezed;
  }

  lemma InstallKeeps(k: Setup, s: State, step: Step)
    requires !step.event.Global()
    ensures var d, t := Change(k, ViewOf(s, step.event.call), step.event), Apply(k, s, step);
            t.next == s.next && t.ready == s.ready && t.links == s.links
            && t.pending == Put(s.pending, step.event.call, d.waiting)
            && t.inflight == Put(s.inflight, step.event.call, d.running)
  {
    hide Change, BoxAfter;
  }

  lemma PoisedCall(k: Setup, s: State, t: State, call: u32, d: Delta)
    requires Poised(k, s)
    requires d.waiting.Some? ==> (call in s.pending || s.ready) && d.waiting.value.entered <= s.links
    requires d.running.Some? ==> (call in s.inflight || s.ready) && d.running.value.entered <= s.links
    requires t.next == s.next && t.ready == s.ready && t.links == s.links
    requires t.pending == Put(s.pending, call, d.waiting) && t.inflight == Put(s.inflight, call, d.running)
    ensures Poised(k, t)
  {
    hide Setup.Own;
  }

  lemma PoisedStep(k: Setup, s: State, step: Step)
    requires Poised(k, s) && Enabled(k, s, step)
    ensures Poised(k, Apply(k, s, step))
  {
    hide Drain, Setup.Own, Change, Install;
    if !step.event.Global() {
      var call := step.event.call;
      InstallKeeps(k, s, step);
      assert Allowed(k, Around(k, s), ViewOf(s, call), step.event, step.heard);
      WaitsWhenReady(k, Around(k, s), ViewOf(s, call), step.event, step.heard);
      PoisedCall(k, s, Apply(k, s, step), call, Change(k, ViewOf(s, call), step.event));
    } else if step.event.Probed? {
      NthOwn(k, s.next, step.event.count);
    }
  }

  lemma NthOwn(k: Setup, next: u32, count: nat)
    requires k.Own(next)
    ensures k.Own(Nth(next, count))
  {
    NthOfNth(next, count);
  }

  lemma {:induction false} PoisedAlways(k: Setup, s: State)
    requires Reachable(k, s)
    ensures Poised(k, s)
    decreases |s.journal|
  {
    hide Enabled, Apply;
    if s.journal != [] {
      var before, step := Previous(k, s);
      PoisedAlways(k, before);
      PoisedStep(k, before, step);
    }
  }

  lemma SaneAlways(k: Setup, s: State)
    requires Reachable(k, s)
    ensures Sane(k, s)
  {
    hide Reachable, BoxSound;
    PoisedAlways(k, s);
    BoxStaysSound(k, s);
    Completion.ParitySeparation(k, s);
  }
}
