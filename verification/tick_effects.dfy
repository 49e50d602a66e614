/** What a tick comes to: which calls it ends and how, and that it serves every other call
    in flight, in the order of the ids. */
module TickEffects {
  import opened Basics
  import opened Wire
  import opened OutboxModel
  import opened Session
  import opened CoreModel
  import opened CoreOps
  import opened Chains
  import opened Lawful
  import opened Effects
  import opened PollEffects

  /** A waiting call is due at its deadline. */
  predicate CallDue(w: Waiting, now: Time) { w.deadline != 0 && w.deadline <= now }

  /** A running call is due at its limit, or when nothing was heard for as long as it may
      idle. */
  predicate ServiceDue(r: Running, now: Time) {
    || (r.limit != 0 && r.limit <= now)
    || (r.idleLimit > 0 && r.lastHeard + r.idleLimit != 0 && r.lastHeard + r.idleLimit <= now)
  }

  lemma DueIsPast(r: Running, now: Time)
    ensures ServiceDue(r, now) <==> Past(r.NextExpiry(), now)
  {
  }

  /** A call's view with the deadline of a call this side made enforced. */
  ghost predicate OwnerTimedOut(k: Setup, c: u32, v: View, w: View) {
    && w.waiting.None? && w.running == v.running && w.credit.None?
    && w.queue == if Opens(v.queue) then [] else [Signal(k, Cancel, c)]
  }

  /** And with that of a call of the peer. */
  ghost predicate ServiceTimedOut(k: Setup, c: u32, v: View, w: View) {
    && w.running.None? && w.waiting == v.waiting && w.credit.None?
    && |w.queue| == 1 && Complains(k, w.queue[0], c, DEADLINE_EXCEEDED)
  }

  /** What the owners of the due calls among these are told, in order. */
  function TimeOuts(table: map<u32, Waiting>, ids: seq<u32>, now: Time): seq<Outcome> {
    if ids == [] then []
    else
      (if ids[0] in table && CallDue(table[ids[0]], now) then
         [Outcome(Failed, ids[0], [], Some(DEADLINE_EXCEEDED))] else [])
      + TimeOuts(table, ids[1..], now)
  }

  lemma {:induction false} TimeOutsFrame(a: map<u32, Waiting>, b: map<u32, Waiting>, ids: seq<u32>, now: Time)
    requires forall c :: c in ids ==> Lookup(a, c) == Lookup(b, c)
    ensures TimeOuts(a, ids, now) == TimeOuts(b, ids, now)
  {
    if ids != [] {
      assert ids[0] in ids;
      TimeOutsFrame(a, b, ids[1..], now);
    }
  }

  /** No id twice. */
  ghost predicate OnceEach(ids: seq<u32>) { forall i, j :: 0 <= i < j < |ids| ==> ids[i] != ids[j] }

  lemma OnceTail(ids: seq<u32>)
    requires OnceEach(ids) && ids != []
    ensures OnceEach(ids[1..]) && ids[0] !in ids[1..]
  {
  }

  lemma GivenUpTimesOut(k: Setup, s: State, t: State, c: u32)
    requires GivenUp(k, s, t, c, DEADLINE_EXCEEDED)
    ensures OwnerTimedOut(k, c, ViewOf(s, c), ViewOf(t, c)) && Apart(s, t, c)
    ensures t.outcomes == s.outcomes + [Outcome(Failed, c, [], Some(DEADLINE_EXCEEDED))]
  {
    hide Apart, Opens;
  }

  lemma DueIsGivenUp(k: Setup, s: State, t: State, c: u32)
    requires Reachable(k, s) && c in s.pending && t == Do(k, s, Abandon(c, DEADLINE_EXCEEDED))
    ensures Reachable(k, t) && OwnerTimedOut(k, c, ViewOf(s, c), ViewOf(t, c)) && Apart(s, t, c)
    ensures t.outcomes == s.outcomes + [Outcome(Failed, c, [], Some(DEADLINE_EXCEEDED))]
  {
    hide Reachable, Apply, Fit, OwnerTimedOut, GivenUp, Leads;
    Placed(k, s, c);
    AbandonDone(k, s, t, c, DEADLINE_EXCEEDED, None);
    GivenUpTimesOut(k, s, t, c);
    Doing(k, s, Abandon(c, DEADLINE_EXCEEDED));
    LedTo(k, s, t, []);
  }

  lemma {:induction false} ExpirePendingExactly(k: Setup, s: State, ids: seq<u32>, now: Time)
    requires Reachable(k, s) && OnceEach(ids)
    ensures var t := ExpirePending(k, s, ids, now);
            && Reachable(k, t)
            && t.outcomes == s.outcomes + TimeOuts(s.pending, ids, now)
            && forall c :: if c in ids && c in s.pending && CallDue(s.pending[c], now)
                           then OwnerTimedOut(k, c, ViewOf(s, c), ViewOf(t, c)) else ViewOf(t, c) == ViewOf(s, c)
    decreases |ids|
  {
    hide Reachable, Apply, Fit, OwnerTimedOut;
    if ids == [] {
      NothingAdded(s.outcomes);
    } else {
      var c := ids[0];
      Placed(k, s, c);
      OnceTail(ids);
      var due := c in s.pending && CallDue(s.pending[c], now);
      var s1 := if due then Do(k, s, Abandon(c, DEADLINE_EXCEEDED)) else s;
      if due {
        DueIsGivenUp(k, s, s1, c);
      }
      assert forall d :: d in ids[1..] ==> Lookup(s1.pending, d) == ViewOf(s1, d).waiting == ViewOf(s, d).waiting;
      TimeOutsFrame(s1.pending, s.pending, ids[1..], now);
      ExpirePendingExactly(k, s1, ids[1..], now);
      var told := if due then [Outcome(Failed, c, [], Some(DEADLINE_EXCEEDED))] else [];
      NothingAdded(s.outcomes);
      Regroup(s.outcomes, told, TimeOuts(s.pending, ids[1..], now));
      assert forall d :: d in ids <==> d == c || d in ids[1..];
    }
  }

  lemma {:induction false} ExpireInflightExactly(k: Setup, s: State, ids: seq<u32>, now: Time)
    requires Reachable(k, s) && OnceEach(ids)
    ensures var t := ExpireInflight(k, s, ids, now);
            && Reachable(k, t)
            && t.outcomes == s.outcomes
            && forall c :: if c in ids && c in s.inflight && ServiceDue(s.inflight[c], now)
                           then ServiceTimedOut(k, c, ViewOf(s, c), ViewOf(t, c)) else ViewOf(t, c) == ViewOf(s, c)
    decreases |ids|
  {
    hide Reachable, Apply, ServiceTimedOut, ServiceDue, Running.NextExpiry;
    if ids != [] {
      var c := ids[0];
      Placed(k, s, c);
      OnceTail(ids);
      var due := c in s.inflight && ServiceDue(s.inflight[c], now);
      var s1 := if due then Do(k, s, Finish(c, DEADLINE_EXCEEDED)) else s;
      if c in s.inflight {
        DueIsPast(s.inflight[c], now);
      }
      if due {
        FinishDone(k, s, s1, c, DEADLINE_EXCEEDED, None);
        FailingTimesOut(k, s, s1, c);
        Finishing(k, s, c, DEADLINE_EXCEEDED);
        LedTo(k, s, s1, []);
      }
      ExpireInflightExactly(k, s1, ids[1..], now);
      assert forall d :: d in ids[1..] ==> Lookup(s1.inflight, d) == ViewOf(s1, d).running == ViewOf(s, d).running;
      assert forall d :: d in ids <==> d == c || d in ids[1..];
    }
  }

  lemma FailingTimesOut(k: Setup, s: State, t: State, c: u32)
    requires Failing(k, s, t, c, DEADLINE_EXCEEDED)
    ensures ServiceTimedOut(k, c, ViewOf(s, c), ViewOf(t, c)) && Apart(s, t, c) && t.outcomes == s.outcomes
  {
    hide Apart, Complains;
  }

  // ---------------------------------------------------------------- serving all

  /** These states lead from one to the other, and between them these calls are served, one
      after the other. */
  ghost predicate ServedInTurn(k: Setup, ids: seq<u32>, states: seq<State>, now: Time) {
    && |states| == |ids| + 1
    && forall i :: 0 <= i < |ids| ==> Served(k, states[i], states[i + 1], ids[i], now)
  }

  lemma {:induction false} PollAllExactly(k: Setup, s: State, ids: seq<u32>, now: Time) returns (states: seq<State>)
    requires Reachable(k, s) && OnceEach(ids) && forall c :: c in ids ==> c in s.inflight
    ensures ServedInTurn(k, ids, states, now) && states[0] == s && states[|ids|] == PollAll(k, s, ids, now)
    decreases |ids|
  {
    hide Reachable, Poll, Served, Fit;
    if ids == [] {
      states := [s];
    } else {
      var c := ids[0];
      assert c in ids;
      Placed(k, s, c);
      PollExactly(k, s, c, now);
      var s1 := Poll(k, s, c, now);
      ServedApart(k, s, s1, c, now);
      PollLawful(k, s, c, now);
      LedTo(k, s, s1, []);
      OnceTail(ids);
      assert forall d :: d in ids[1..] ==> d in ids && ViewOf(s1, d) == ViewOf(s, d) && Lookup(s1.inflight, d).Some?;
      var rest := PollAllExactly(k, s1, ids[1..], now);
      states := [s] + rest;
    }
  }

  /** While others are served, a call's view stays. */
  lemma {:induction false} OthersServed(k: Setup, ids: seq<u32>, states: seq<State>, now: Time, first: nat, last: nat,
                                        c: u32)
    requires ServedInTurn(k, ids, states, now) && first <= last <= |ids|
    requires forall i :: first <= i < last ==> ids[i] != c
    ensures ViewOf(states[last], c) == ViewOf(states[first], c)
    decreases last
  {
    hide Served;
    if last > first {
      OthersServed(k, ids, states, now, first, last - 1, c);
      ServedApart(k, states[last - 1], states[last], ids[last - 1], now);
    }
  }

  /** Why a call that was served is still in flight. */
  ghost predicate StillThere(k: Setup, before: Running, s: State, c: u32)
    requires c in s.inflight
  {
    var r := s.inflight[c];
    && r.handler == before.handler
    && (|| s.box.total >= k.config.maxConnectionQueue
        || |s.box.Queue(c)| >= k.config.maxCallQueue
        || (r.shape.CalleeStreams() && r.established && r.credit == 0)
        || (r.polled > before.polled && r.handler.poll(r.polled - 1) == Progress.Pending))
  }

  lemma PolledStays(k: Setup, s: State, t: State, c: u32, now: Time, items: seq<Outgoing>)
    requires Polled(k, s, t, c, now, items) && c in t.inflight
    ensures StillThere(k, s.inflight[c], t, c)
  {
    hide CarriesAnswers, MayYield, Says, Complains;
  }

  lemma CollectedStays(k: Setup, s: State, t: State, c: u32)
    requires Collected(k, s, t, c) && c in t.inflight
    ensures t.inflight[c].handler == s.inflight[c].handler && t.inflight[c].polled == s.inflight[c].polled
  {
    hide Complains;
    assert Lookup(t.inflight, c) == Some(t.inflight[c]);
  }

  lemma ServedStays(k: Setup, s: State, t: State, c: u32, now: Time)
    requires Served(k, s, t, c, now) && c in t.inflight
    ensures c in s.inflight && StillThere(k, s.inflight[c], t, c)
  {
    hide Polled, Collected;
    var m, items :| ServedVia(k, s, m, t, c, now, items);
    CollectedIn(k, s, m, c);
    if c in m.inflight {
      CollectedStays(k, s, m, c);
      PolledStays(k, m, t, c, now, items);
    }
  }

  lemma CollectedIn(k: Setup, s: State, t: State, c: u32)
    requires Collected(k, s, t, c)
    ensures c in s.inflight
  {
  }

  /** A tick. The calls this side made that are due are given up, and their owners told in
      the order of the ids; the running calls that are due fail; no other call is touched by
      that. Then every running call that was not due is served, in the order of the ids, and
      nothing else happens. */
  lemma TickExactly(k: Setup, s: State, now: Time) returns (ids: seq<u32>, states: seq<State>)
    requires Reachable(k, s)
    ensures ServedInTurn(k, ids, states, now) && states[|ids|] == Tick(k, s, now)
    ensures forall i, j :: 0 <= i < j < |ids| ==> ids[i] < ids[j]
    ensures forall c :: c in ids <==> c in s.inflight && !ServiceDue(s.inflight[c], now)
    ensures var u := states[0];
            && Reachable(k, u)
            && u.outcomes == s.outcomes + TimeOuts(s.pending, SortedKeys(s.pending.Keys), now)
            && forall c ::
                 if c in s.pending && CallDue(s.pending[c], now) then OwnerTimedOut(k, c, ViewOf(s, c), ViewOf(u, c))
                 else if c in s.inflight && ServiceDue(s.inflight[c], now) then
                   ServiceTimedOut(k, c, ViewOf(s, c), ViewOf(u, c))
                 else ViewOf(u, c) == ViewOf(s, c)
  {
    hide Reachable, ExpirePending, ExpireInflight, PollAll, SortedKeys, Served, OwnerTimedOut, ServiceTimedOut;
    hide ServiceDue, Fit;
    var a, s1 := SortedKeys(s.pending.Keys), ExpirePending(k, s, SortedKeys(s.pending.Keys), now);
    SortedOnce(s.pending.Keys);
    ExpirePendingExactly(k, s, a, now);
    var b, u := SortedKeys(s1.inflight.Keys), ExpireInflight(k, s1, SortedKeys(s1.inflight.Keys), now);
    SortedOnce(s1.inflight.Keys);
    ExpireInflightExactly(k, s1, b, now);
    ids := SortedKeys(u.inflight.Keys);
    SortedOnce(u.inflight.Keys);
    states := PollAllExactly(k, u, ids, now);
    forall c
      ensures Lookup(s1.inflight, c) == Lookup(s.inflight, c)
      ensures c in s.pending ==> c !in s.inflight
    {
      Placed(k, s, c);
      ExpiredLeft(k, s, s1, c, now);
    }
    forall c
      ensures Lookup(u.inflight, c) == if c in s1.inflight && ServiceDue(s1.inflight[c], now) then None
                                       else Lookup(s1.inflight, c)
    {
      FailedLeft(k, s1, u, c, now);
    }
    InBoth(s.inflight, s1.inflight);
    Remaining(s1.inflight, u.inflight, now);
  }

  lemma SortedOnce(keys: set<u32>)
    ensures OnceEach(SortedKeys(keys))
    ensures forall i, j :: 0 <= i < j < |SortedKeys(keys)| ==> SortedKeys(keys)[i] < SortedKeys(keys)[j]
    ensures forall c :: c in SortedKeys(keys) <==> c in keys
  {
    hide SortedKeys;
    SortedKeysSorted(keys);
  }

  lemma ExpiredLeft(k: Setup, s: State, t: State, c: u32, now: Time)
    requires OwnerTimedOut(k, c, ViewOf(s, c), ViewOf(t, c)) || ViewOf(t, c) == ViewOf(s, c)
    ensures Lookup(t.inflight, c) == Lookup(s.inflight, c)
  {
    assert Lookup(t.inflight, c) == ViewOf(t, c).running && Lookup(s.inflight, c) == ViewOf(s, c).running;
  }

  lemma FailedLeft(k: Setup, s: State, t: State, c: u32, now: Time)
    requires if c in s.inflight && ServiceDue(s.inflight[c], now) then ServiceTimedOut(k, c, ViewOf(s, c), ViewOf(t, c))
             else ViewOf(t, c) == ViewOf(s, c)
    ensures Lookup(t.inflight, c) == if c in s.inflight && ServiceDue(s.inflight[c], now) then None
                                     else Lookup(s.inflight, c)
  {
    hide ServiceDue, Complains;
    assert Lookup(t.inflight, c) == ViewOf(t, c).running && Lookup(s.inflight, c) == ViewOf(s, c).running;
  }

  lemma InBoth(a: map<u32, Running>, b: map<u32, Running>)
    requires forall c :: Lookup(b, c) == Lookup(a, c)
    ensures a == b
  {
    assert forall c :: c in a <==> Lookup(a, c).Some?;
    assert forall c :: c in b <==> Lookup(b, c).Some?;
  }

  lemma Remaining(a: map<u32, Running>, b: map<u32, Running>, now: Time)
    requires forall c :: Lookup(b, c) == if c in a && ServiceDue(a[c], now) then None else Lookup(a, c)
    ensures forall c :: c in b <==> c in a && !ServiceDue(a[c], now)
  {
    hide ServiceDue;
    assert forall c :: c in b <==> Lookup(b, c).Some?;
  }

  /** So after a tick a call that was in flight and not due is in flight only if there was no
      room when its turn ended, or its allowance is spent, or its handler was asked in this
      tick and answered Pending at last; from its turn on nothing more happens to it. */
  lemma EveryHandlerIsAsked(k: Setup, s: State, now: Time, c: u32) returns (i: nat, ids: seq<u32>, states: seq<State>)
    requires Reachable(k, s) && c in s.inflight && !ServiceDue(s.inflight[c], now)
    ensures ServedInTurn(k, ids, states, now) && states[|ids|] == Tick(k, s, now) && i < |ids| && ids[i] == c
    ensures ViewOf(states[i], c) == ViewOf(s, c) && ViewOf(states[i + 1], c) == ViewOf(Tick(k, s, now), c)
    ensures c in Tick(k, s, now).inflight ==>
              c in states[i + 1].inflight && StillThere(k, s.inflight[c], states[i + 1], c)
  {
    hide Reachable, Tick, Served, OwnerTimedOut, ServiceTimedOut, ServiceDue, StillThere;
    ids, states := TickExactly(k, s, now);
    i :| 0 <= i < |ids| && ids[i] == c;
    Placed(k, s, c);
    OthersServed(k, ids, states, now, 0, i, c);
    OthersServed(k, ids, states, now, i + 1, |ids|, c);
    var t := Tick(k, s, now);
    if c in t.inflight {
      assert Lookup(states[i + 1].inflight, c) == ViewOf(t, c).running;
      assert Lookup(states[i].inflight, c) == ViewOf(s, c).running;
      ServedStays(k, states[i], states[i + 1], c, now);
    }
  }
}
