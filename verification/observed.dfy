/** The trace tells the truth: over every run, what the interceptor chain was really made to
    do and what a caller really collects are what the trace says. */
module Observed {
  import opened Basics
  import opened Session
  import opened OutboxModel
  import opened CoreModel
  import opened Histories
  import opened Chains

  function See(visits: seq<Visit>, a: Act): seq<Visit> {
    match a
    case Entered(_, links) => visits + [In(links)]
    case Unwound(_, links) => visits + [Out(Unwinding(links))]
    case _ => visits
  }

  /** The visits a trace speaks of. */
  function VisitsIn(acts: seq<Act>): seq<Visit> { Fold(See, [], acts) }

  lemma {:induction false} SendsVisitNothing(visits: seq<Visit>, posts: seq<Posted>)
    ensures Fold(See, visits, Sends(posts)) == visits
  {
    if posts != [] {
      SendsVisitNothing(visits, posts[1..]);
      assert Sends(posts)[1..] == Sends(posts[1..]);
    }
  }

  ghost predicate Inside(v: View, links: nat) {
    && (v.waiting.Some? ==> v.waiting.value.entered <= links)
    && (v.running.Some? ==> v.running.value.entered <= links)
  }

  lemma TryingVisits(k: Setup, a: Surroundings, v: View, e: Event, heard: Option<Message>, visits: seq<Visit>)
    requires !e.Global() && Allowed(k, a, v, e, heard) && Inside(v, a.links)
    requires e.Bounce? || e.Open?
    ensures Visited(visits, a.links, Change(k, v, e)) == After(See, k, v, e, heard, visits)
  {
    hide Setup.BodyFrame, Setup.ControlFrame, Setup.ErrorFrame, Setup.Plain, SaturatingAdd, Setup.Own, Unwinding;
  }

  lemma SettlingVisits(k: Setup, a: Surroundings, v: View, e: Event, heard: Option<Message>, visits: seq<Visit>)
    requires !e.Global() && Allowed(k, a, v, e, heard) && Inside(v, a.links)
    requires e.Settle? || e.Abandon?
    ensures Visited(visits, a.links, Change(k, v, e)) == After(See, k, v, e, heard, visits)
  {
    hide Setup.BodyFrame, Setup.ControlFrame, Setup.ErrorFrame, Setup.Plain, SaturatingAdd, Setup.Own, Unwinding;
  }

  lemma StandingVisits(k: Setup, a: Surroundings, v: View, e: Event, heard: Option<Message>, visits: seq<Visit>)
    requires !e.Global() && Allowed(k, a, v, e, heard) && Inside(v, a.links)
    requires e.PushItem? || e.PushEnd? || e.Grant? || e.TellItem? || e.Allow?
    ensures Visited(visits, a.links, Change(k, v, e)) == After(See, k, v, e, heard, visits)
  {
    hide Setup.BodyFrame, Setup.ControlFrame, Setup.ErrorFrame, Setup.Plain, SaturatingAdd, Setup.Own, Unwinding;
  }

  lemma AnsweringVisits(k: Setup, a: Surroundings, v: View, e: Event, heard: Option<Message>, visits: seq<Visit>)
    requires !e.Global() && Allowed(k, a, v, e, heard) && Inside(v, a.links)
    requires e.Answer? || e.CloseOut?
    ensures Visited(visits, a.links, Change(k, v, e)) == After(See, k, v, e, heard, visits)
  {
    hide Setup.BodyFrame, Setup.ControlFrame, Setup.ErrorFrame, Setup.Plain, SaturatingAdd, Setup.Own, Unwinding;
  }

  lemma FinishingVisits(k: Setup, a: Surroundings, v: View, e: Event, heard: Option<Message>, visits: seq<Visit>)
    requires !e.Global() && Allowed(k, a, v, e, heard) && Inside(v, a.links)
    requires e.Finish? || e.Leave?
    ensures Visited(visits, a.links, Change(k, v, e)) == After(See, k, v, e, heard, visits)
  {
    hide Setup.BodyFrame, Setup.ControlFrame, Setup.ErrorFrame, Setup.Plain, SaturatingAdd, Setup.Own, Unwinding;
  }

  lemma ServedVisits(k: Setup, a: Surroundings, v: View, e: Event, heard: Option<Message>, visits: seq<Visit>)
    requires !e.Global() && Allowed(k, a, v, e, heard) && Inside(v, a.links)
    requires e.Admit? || e.Update? || e.Deliver? || e.Yield? || e.Stray? || e.Ignore?
    ensures Visited(visits, a.links, Change(k, v, e)) == After(See, k, v, e, heard, visits)
  {
    hide Setup.BodyFrame, Setup.ControlFrame, Setup.ErrorFrame, Setup.Plain, SaturatingAdd, Setup.Own, Unwinding;
  }

  lemma CallVisits(k: Setup, a: Surroundings, v: View, e: Event, heard: Option<Message>, visits: seq<Visit>)
    requires !e.Global() && Allowed(k, a, v, e, heard) && Inside(v, a.links)
    ensures Visited(visits, a.links, Change(k, v, e)) == After(See, k, v, e, heard, visits)
  {
    hide Change, Allowed, After, Visited;
    if e.Bounce? || e.Open? {
      TryingVisits(k, a, v, e, heard, visits);
    } else if e.Settle? || e.Abandon? {
      SettlingVisits(k, a, v, e, heard, visits);
    } else if e.Calling() {
      StandingVisits(k, a, v, e, heard, visits);
    } else if e.Answer? || e.CloseOut? {
      AnsweringVisits(k, a, v, e, heard, visits);
    } else if e.Finish? || e.Leave? {
      FinishingVisits(k, a, v, e, heard, visits);
    } else {
      ServedVisits(k, a, v, e, heard, visits);
    }
  }

  lemma InstallVisits(k: Setup, s: State, step: Step)
    requires !step.event.Global()
    ensures Apply(k, s, step).visits == Visited(s.visits, s.links, Change(k, ViewOf(s, step.event.call), step.event))
  {
    hide Change, BoxAfter, Visited;
  }

  lemma VisitsStep(k: Setup, s: State, step: Step)
    requires Within(s) && Enabled(k, s, step) && s.visits == VisitsIn(s.trace)
    ensures var t := Apply(k, s, step); t.visits == VisitsIn(t.trace)
  {
    hide Change, Install, Drain, Fold, Visited, After, Unwinding;
    if !step.event.Global() {
      var v := ViewOf(s, step.event.call);
      assert Allowed(k, Around(k, s), v, step.event, step.heard);
      InstallVisits(k, s, step);
      OneInstall(k, s, step);
      FoldStep(See, [], s.trace, k, v, step.event, step.heard);
      CallVisits(k, Around(k, s), v, step.event, step.heard, s.visits);
    } else {
      GlobalVisits(k, s, step);
    }
  }

  lemma GlobalVisits(k: Setup, s: State, step: Step)
    requires step.event.Global() && Enabled(k, s, step) && s.visits == VisitsIn(s.trace)
    ensures var t := Apply(k, s, step); t.visits == VisitsIn(t.trace)
  {
    hide Drain, Fold;
    NothingAdded(s.trace);
    if step.event.DrainTo? && s.box.Valid() {
      var sent := Drain(s.box, step.event.sink).sent;
      NothingAdded(s.trace + Sends(sent));
      FoldConcat(See, [], s.trace, Sends(sent));
      SendsVisitNothing(s.visits, sent);
    } else if step.event.EndSession? {
      NothingAdded(s.trace + [Cleared]);
      FoldFew(See, [], s.trace, [Cleared]);
    }
  }

  /** The chain is made to do exactly what the trace says, in that order: each passage enters
      a prefix of the links, and each unwinding visits the prefix its call had entered, last
      link first. With `LinksConserved` this counts the chain's own visits. */
  lemma {:induction false} ChainDoesAsTraced(k: Setup, s: State)
    requires Reachable(k, s)
    ensures s.visits == VisitsIn(s.trace)
    decreases |s.journal|
  {
    hide Enabled, Apply, Fold;
    if s.journal == [] {
      NoVisits();
    } else {
      var before, step := Previous(k, s);
      ChainDoesAsTraced(k, before);
      SaneAlways(k, before);
      VisitsStep(k, before, step);
    }
  }

  lemma NoVisits()
    ensures VisitsIn([]) == []
  {
  }

  // ------------------------------------------------------------------- outcomes

  function Say(told: seq<Outcome>, a: Act): seq<Outcome> {
    if a.Told? then told + [a.outcome] else told
  }

  /** The outcomes a trace speaks of. */
  function ToldIn(acts: seq<Act>): seq<Outcome> { Fold(Say, [], acts) }

  lemma {:induction false} SendsTellNothing(told: seq<Outcome>, posts: seq<Posted>)
    ensures Fold(Say, told, Sends(posts)) == told
  {
    if posts != [] {
      SendsTellNothing(told, posts[1..]);
      assert Sends(posts)[1..] == Sends(posts[1..]);
    }
  }

  function More(told: seq<Outcome>, outcome: Option<Outcome>): seq<Outcome> {
    if outcome.Some? then told + [outcome.value] else told
  }

  lemma CallingTells(k: Setup, v: View, e: Event, heard: Option<Message>, told: seq<Outcome>)
    requires e.Calling()
    ensures After(Say, k, v, e, heard, told) == More(told, Change(k, v, e).outcome)
  {
    hide Setup.BodyFrame, Setup.ControlFrame, Setup.ErrorFrame, SaturatingAdd;
  }

  lemma ServingTells(k: Setup, v: View, e: Event, heard: Option<Message>, told: seq<Outcome>)
    requires !e.Global() && !e.Calling()
    ensures After(Say, k, v, e, heard, told) == More(told, Change(k, v, e).outcome)
  {
    hide Setup.BodyFrame, Setup.ControlFrame, Setup.ErrorFrame, SaturatingAdd;
  }

  /** The last part of a list. */
  ghost predicate Ends(all: seq<Outcome>, last: seq<Outcome>) {
    |last| <= |all| && all[|all| - |last|..] == last
  }

  lemma EndsMore(all: seq<Outcome>, last: seq<Outcome>, outcome: Option<Outcome>)
    requires Ends(all, last)
    ensures Ends(More(all, outcome), More(last, outcome))
  {
  }

  lemma InstallOutcomes(k: Setup, s: State, step: Step)
    requires !step.event.Global()
    ensures Apply(k, s, step).outcomes == More(s.outcomes, Change(k, ViewOf(s, step.event.call), step.event).outcome)
  {
    hide Change, BoxAfter, Visited;
  }

  lemma OutcomesStep(k: Setup, s: State, step: Step)
    requires Enabled(k, s, step) && Ends(ToldIn(s.trace), s.outcomes)
    ensures var t := Apply(k, s, step); Ends(ToldIn(t.trace), t.outcomes)
  {
    hide Change, Install, Drain, Fold, After, More;
    if !step.event.Global() {
      var v, told := ViewOf(s, step.event.call), ToldIn(s.trace);
      InstallOutcomes(k, s, step);
      OneInstall(k, s, step);
      FoldStep(Say, [], s.trace, k, v, step.event, step.heard);
      if step.event.Calling() {
        CallingTells(k, v, step.event, step.heard, told);
      } else {
        ServingTells(k, v, step.event, step.heard, told);
      }
      EndsMore(told, s.outcomes, Change(k, v, step.event).outcome);
    } else {
      GlobalOutcomes(k, s, step);
    }
  }

  lemma GlobalOutcomes(k: Setup, s: State, step: Step)
    requires step.event.Global() && Enabled(k, s, step) && Ends(ToldIn(s.trace), s.outcomes)
    ensures var t := Apply(k, s, step); Ends(ToldIn(t.trace), t.outcomes)
  {
    hide Drain, Fold;
    NothingAdded(s.trace);
    if step.event.DrainTo? && s.box.Valid() {
      var sent := Drain(s.box, step.event.sink).sent;
      NothingAdded(s.trace + Sends(sent));
      FoldConcat(Say, [], s.trace, Sends(sent));
      SendsTellNothing(ToldIn(s.trace), sent);
    } else if step.event.EndSession? {
      NothingAdded(s.trace + [Cleared]);
      FoldFew(Say, [], s.trace, [Cleared]);
    }
  }

  /** The outcomes that wait to be collected are the last that were told: none is made up,
      dropped or reordered on the way to the caller. */
  lemma {:induction false} OutcomesAreTold(k: Setup, s: State)
    requires Reachable(k, s)
    ensures Ends(ToldIn(s.trace), s.outcomes)
    decreases |s.journal|
  {
    hide Enabled, Apply, Fold;
    if s.journal != [] {
      var before, step := Previous(k, s);
      OutcomesAreTold(k, before);
      OutcomesStep(k, before, step);
    }
  }
}
