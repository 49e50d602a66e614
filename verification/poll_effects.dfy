/** What polling a running call comes to, read off the script of its handler: which items
    it yields, why it stops, and which frame its last answer makes. */
module PollEffects {
  import opened Basics
  import opened Wire
  import opened OutboxModel
  import opened Session
  import opened CoreModel
  import opened CoreOps
  import opened Chains
  import opened Effects

  /** After n more frames of this call the ceilings leave room for another. */
  predicate RoomAfter(k: Setup, s: State, c: u32, n: nat) {
    s.box.total + n < k.config.maxConnectionQueue && |s.box.Queue(c)| + n < k.config.maxCallQueue
  }

  /** The handler's i-th answer from now is an item, and there is room for it. */
  predicate ItemAt(k: Setup, s: State, c: u32, r: Running, i: nat) {
    r.handler.poll(r.polled + i).Item? && RoomAfter(k, s, c, i)
  }

  /** The handler's next n answers are items, and may be: the call streams, credit lasts, and
      there is room for each. */
  ghost predicate MayYield(k: Setup, s: State, c: u32, r: Running, n: nat) {
    && (forall i: nat :: i < n ==> ItemAt(k, s, c, r, i))
    && (n > 0 ==> r.shape.CalleeStreams())
    && (r.established ==> n <= r.credit as int)
  }

  /** This ITEM carries the handler's i-th answer from now. */
  ghost predicate CarriesAnswer(k: Setup, c: u32, r: Running, f: Outgoing, i: nat) {
    var answer := r.handler.poll(r.polled + i);
    answer.Item? && Says(k, f, Kind.Item, c, r.replyID, answer.body)
  }

  /** These ITEMs carry the next answers of the handler. */
  ghost predicate CarriesAnswers(k: Setup, c: u32, r: Running, items: seq<Outgoing>) {
    forall i: nat :: i < |items| ==> CarriesAnswer(k, c, r, items[i], i)
  }

  /** The record after n items. */
  function Advanced(r: Running, n: nat): Running
    requires r.established ==> n <= r.credit as int
  {
    r.(polled := r.polled + n, credit := if r.established then (r.credit as int - n) as u32 else r.credit)
  }

  /** The call is left as it is, but for the items. */
  ghost predicate Rests(k: Setup, s: State, t: State, c: u32, r: Running, items: seq<Outgoing>) {
    c in s.inflight && CarriesAnswers(k, c, s.inflight[c], items) && RunsOn(s, t, c, r, items)
  }

  /** The call has left, with its items and then this last frame queued. */
  ghost predicate Concludes(k: Setup, s: State, t: State, c: u32, items: seq<Outgoing>, last: Outgoing) {
    c in s.inflight && CarriesAnswers(k, c, s.inflight[c], items) && Leaves(s, t, c, items + [last])
  }

  /** Why polling stopped after these items, and what came of it. No room: the call waits,
      and if it is its own queue that has been full for too long, it fails. Its allowance
      spent, or Pending: it waits. Else its last answer ends it, well or with an ERROR. */
  ghost predicate StopsAt(k: Setup, s: State, t: State, c: u32, now: Time, items: seq<Outgoing>)
    requires c in s.inflight && MayYield(k, s, c, s.inflight[c], |items|)
  {
    var r, n := s.inflight[c], |items|;
    var r1 := Advanced(r, n);
    if !RoomAfter(k, s, c, n) then
      if |s.box.Queue(c)| + n < k.config.maxCallQueue then
        Rests(k, s, t, c, r1.(fullSince := if n == 0 then r.fullSince else 0), items)
      else
        var since := if n == 0 && r.fullSince != 0 then r.fullSince else now;
        if now - since >= k.config.queueFullLimit then Failing(k, s, t, c, RESOURCE_EXHAUSTED)
        else Rests(k, s, t, c, r1.(fullSince := since), items)
    else if r.shape.CalleeStreams() && r.established && r.credit as int == n then
      Rests(k, s, t, c, r1.(fullSince := 0), items)
    else
      match r.handler.poll(r.polled + n)
      case Pending => Rests(k, s, t, c, r1.(fullSince := 0, polled := r.polled + n + 1), items)
      case Respond(body) =>
        if r.shape.CalleeStreams() then Failing(k, s, t, c, INTERNAL)
        else exists last :: Concludes(k, s, t, c, items, last) && Says(k, last, Kind.Response, c, r.replyID, body)
      case Item(_) => !r.shape.CalleeStreams() && Failing(k, s, t, c, INTERNAL)
      case End =>
        if r.shape.CalleeStreams() then Concludes(k, s, t, c, items, Signal(k, Kind.End, c))
        else Failing(k, s, t, c, INTERNAL)
      case Fail(status) => Failing(k, s, t, c, if status.Some? then status.value else INTERNAL)
  }

  /** Polling a running call. */
  ghost predicate Polled(k: Setup, s: State, t: State, c: u32, now: Time, items: seq<Outgoing>) {
    c in s.inflight && MayYield(k, s, c, s.inflight[c], |items|) && StopsAt(k, s, t, c, now, items)
  }

  /** What polling relies on: ceilings as configured, and the call's links within the chain. */
  ghost predicate Fit(k: Setup, s: State, c: u32) {
    && s.box.maxPerCall == k.config.maxCallQueue && s.box.maxTotal == k.config.maxConnectionQueue
    && (c in s.inflight ==> s.inflight[c].entered <= s.links)
  }

  /** Links of live calls are within the chain, and the ceilings are the configured ones. */
  lemma Placed(k: Setup, s: State, c: u32)
    requires Reachable(k, s)
    ensures Fit(k, s, c) && (c in s.pending ==> s.pending[c].entered <= s.links)
    ensures c in s.pending ==> c !in s.inflight
  {
    hide Reachable;
    SaneAlways(k, s);
  }

  lemma NoItems(k: Setup, s: State, t: State, c: u32, r: Running)
    requires c in s.inflight && RunsOn(s, t, c, r, [])
    ensures Rests(k, s, t, c, r, [])
  {
    hide RunsOn;
  }

  /** Polling that yields nothing: the first answer, or the first obstacle, is the end. */
  lemma StuckExactly(k: Setup, s: State, t: State, c: u32, now: Time)
    requires Fit(k, s, c) && c in s.inflight && !s.box.HasRoom(c) && t == Stuck(k, s, c, s.inflight[c], now)
    ensures Polled(k, s, t, c, now, [])
  {
    hide Apply, Failing, RunsOn;
    var r := s.inflight[c];
    if !s.box.FullFor(c) {
      Idle(s, c);
      NoItems(k, s, t, c, r);
    } else {
      var since := if r.fullSince == 0 then now else r.fullSince;
      var m := Do(k, s, Update(c, r.(fullSince := since)));
      Updated(k, s, m, c, r.(fullSince := since));
      if now - since >= k.config.queueFullLimit {
        FailsNext(k, s, m, t, c, r.(fullSince := since), RESOURCE_EXHAUSTED);
      } else {
        NoItems(k, s, t, c, r.(fullSince := since));
      }
    }
  }

  lemma Idle(s: State, c: u32)
    requires c in s.inflight
    ensures RunsOn(s, s, c, s.inflight[c], [])
  {
    NothingAdded(s.box.Queue(c));
  }

  lemma Updated(k: Setup, s: State, m: State, c: u32, r: Running)
    requires m == Do(k, s, Update(c, r)) && c in s.inflight
    ensures RunsOn(s, m, c, r, []) && c in m.inflight && m.inflight[c] == r && m.box == s.box && m.links == s.links
  {
    hide Apply, Apart;
    UpdateDone(k, s, m, c, r, None);
    StaysIn(s, m, c);
  }

  lemma StaysIn(s: State, m: State, c: u32)
    requires Apart(s, m, c)
    ensures m.links == s.links
  {
  }

  lemma FailsNext(k: Setup, s: State, m: State, t: State, c: u32, r: Running, status: Status)
    requires c in s.inflight && RunsOn(s, m, c, r, []) && r.entered == s.inflight[c].entered <= m.links
    requires c in m.inflight && m.inflight[c] == r && t == Do(k, m, Finish(c, status))
    ensures Failing(k, s, t, c, status)
  {
    hide Apply, RunsOn, Failing;
    FinishDone(k, m, t, c, status, None);
    RunsThenFails(k, s, m, t, c, r, [], status);
  }

  /** An answer other than an item the call may yield. */
  lemma ConcludeExactly(k: Setup, s: State, m: State, t: State, c: u32, now: Time)
    requires Fit(k, s, c) && c in s.inflight && s.box.HasRoom(c)
    requires var r := s.inflight[c];
             && !(r.shape.CalleeStreams() && r.Starved())
             && m == Do(k, s, Update(c, r.(fullSince := 0)))
             && (if r.handler.poll(r.polled).Item? then
                   !r.shape.CalleeStreams() && t == Do(k, m, Finish(c, INTERNAL))
                 else t == Conclude(k, m, c, r.(fullSince := 0), r.handler.poll(r.polled)))
    ensures Polled(k, s, t, c, now, [])
  {
    hide Apply, Failing, RunsOn, Leaves, Says;
    var r := s.inflight[c];
    var r1 := r.(fullSince := 0);
    Updated(k, s, m, c, r1);
    match r.handler.poll(r.polled) {
      case Pending =>
        var r2 := r1.(polled := r.polled + 1);
        Updated(k, m, t, c, r2);
        RunsTwice(s, m, t, c, r1, r2, [], []);
        NothingAdded<Outgoing>([]);
        NoItems(k, s, t, c, r2);
      case Respond(body) =>
        if r.shape.CalleeStreams() {
          FailsNext(k, s, m, t, c, r1, INTERNAL);
        } else {
          var last := AnswerDone(k, m, t, c, body);
          RunsThenLeaves(s, m, t, c, r1, [], [last]);
          assert Concludes(k, s, t, c, [], last);
        }
      case Item(_) => FailsNext(k, s, m, t, c, r1, INTERNAL);
      case End =>
        if r.shape.CalleeStreams() {
          CloseOutDone(k, m, t, c);
          RunsThenLeaves(s, m, t, c, r1, [], [Signal(k, Kind.End, c)]);
        } else {
          FailsNext(k, s, m, t, c, r1, INTERNAL);
        }
      case Fail(status) => FailsNext(k, s, m, t, c, r1, if status.Some? then status.value else INTERNAL);
    }
  }

  /** The state after one item is the state before it, with room for one less. */
  ghost predicate OneItem(k: Setup, s: State, m: State, c: u32, f: Outgoing) {
    && c in s.inflight && c in m.inflight && !s.inflight[c].Starved()
    && var r := s.inflight[c];
       && r.shape.CalleeStreams() && r.handler.poll(r.polled).Item? && RoomAfter(k, s, c, 0)
       && Says(k, f, Kind.Item, c, r.replyID, r.handler.poll(r.polled).body)
       && m.inflight[c] == Advanced(r, 1).(fullSince := 0)
       && RunsOn(s, m, c, m.inflight[c], [f])
  }

  lemma RoomShifts(k: Setup, s: State, m: State, c: u32, f: Outgoing, n: nat)
    requires OneItem(k, s, m, c, f)
    ensures RoomAfter(k, m, c, n) <==> RoomAfter(k, s, c, n + 1)
    ensures |m.box.Queue(c)| == |s.box.Queue(c)| + 1
  {
  }

  lemma MayYieldMore(k: Setup, s: State, m: State, c: u32, f: Outgoing, n: nat)
    requires OneItem(k, s, m, c, f) && MayYield(k, m, c, m.inflight[c], n)
    ensures MayYield(k, s, c, s.inflight[c], n + 1)
    ensures Advanced(m.inflight[c], n) == Advanced(s.inflight[c], n + 1).(fullSince := 0)
    ensures var r, r1 := s.inflight[c], m.inflight[c];
            && r1.entered == r.entered && r1.shape == r.shape && r1.handler == r.handler && r1.replyID == r.replyID
            && r1.polled == r.polled + 1 && r1.fullSince == 0 && r1.established == r.established
            && (r.established ==> r1.credit as int == r.credit as int - 1)
  {
    hide Says, RunsOn, RoomAfter;
    var r, r1 := s.inflight[c], m.inflight[c];
    forall i: nat | i < n + 1
      ensures ItemAt(k, s, c, r, i)
    {
      if i > 0 {
        RoomShifts(k, s, m, c, f, i - 1);
        assert ItemAt(k, m, c, r1, i - 1);
      }
    }
  }

  lemma CarriesMore(k: Setup, s: State, m: State, c: u32, f: Outgoing, items: seq<Outgoing>)
    requires OneItem(k, s, m, c, f) && CarriesAnswers(k, c, m.inflight[c], items)
    ensures CarriesAnswers(k, c, s.inflight[c], [f] + items)
  {
    hide Says, RunsOn, RoomAfter;
    var r, r1, all := s.inflight[c], m.inflight[c], [f] + items;
    forall i: nat | i < |all|
      ensures CarriesAnswer(k, c, r, all[i], i)
    {
      if i > 0 {
        assert CarriesAnswer(k, c, r1, items[i - 1], i - 1);
      }
    }
  }

  lemma RestsMore(k: Setup, s: State, m: State, t: State, c: u32, f: Outgoing, r: Running, items: seq<Outgoing>)
    requires OneItem(k, s, m, c, f) && Rests(k, m, t, c, r, items)
    ensures Rests(k, s, t, c, r, [f] + items)
  {
    hide Says, RunsOn, RoomAfter, CarriesAnswers;
    CarriesMore(k, s, m, c, f, items);
    RunsTwice(s, m, t, c, m.inflight[c], r, [f], items);
  }

  lemma ConcludesMore(k: Setup, s: State, m: State, t: State, c: u32, f: Outgoing, items: seq<Outgoing>, last: Outgoing)
    requires OneItem(k, s, m, c, f) && Concludes(k, m, t, c, items, last)
    ensures Concludes(k, s, t, c, [f] + items, last)
  {
    hide Says, RunsOn, RoomAfter, CarriesAnswers, Leaves;
    CarriesMore(k, s, m, c, f, items);
    RunsThenLeaves(s, m, t, c, m.inflight[c], [f], items + [last]);
    Regroup([f], items, [last]);
  }

  /** One item more in front. */
  lemma PolledMore(k: Setup, s: State, m: State, t: State, c: u32, now: Time, f: Outgoing, items: seq<Outgoing>)
    requires OneItem(k, s, m, c, f) && Polled(k, m, t, c, now, items)
    ensures Polled(k, s, t, c, now, [f] + items)
  {
    hide Says, RunsOn, RoomAfter, CarriesAnswers, Rests, Concludes, Failing, Advanced, MayYield;
    var r, r1, n := s.inflight[c], m.inflight[c], |items|;
    MayYieldMore(k, s, m, c, f, n);
    RoomShifts(k, s, m, c, f, n);
    assert r1.handler.poll(r1.polled + n) == r.handler.poll(r.polled + (n + 1));
    forall r2 | Rests(k, m, t, c, r2, items)
      ensures Rests(k, s, t, c, r2, [f] + items)
    {
      RestsMore(k, s, m, t, c, f, r2, items);
    }
    forall last | Concludes(k, m, t, c, items, last)
      ensures Concludes(k, s, t, c, [f] + items, last)
    {
      ConcludesMore(k, s, m, t, c, f, items, last);
    }
    forall status | Failing(k, m, t, c, status)
      ensures Failing(k, s, t, c, status)
    {
      RunsThenFails(k, s, m, t, c, r1, [f], status);
    }
  }

  /** Polling a call yields some items and stops as it must. */
  lemma {:induction false} PollLoopExactly(k: Setup, s: State, c: u32, now: Time) returns (items: seq<Outgoing>)
    requires Fit(k, s, c) && c in s.inflight
    ensures Polled(k, s, PollLoop(k, s, c, now), c, now, items)
    decreases Spare(s.box)
  {
    hide Apply, Failing, Leaves, Says, StopsAt, MayYield, Conclude, Stuck;
    var r := s.inflight[c];
    items := [];
    if !s.box.HasRoom(c) {
      StuckExactly(k, s, PollLoop(k, s, c, now), c, now);
    } else {
      var r1 := r.(fullSince := 0);
      var s1 := Do(k, s, Update(c, r1));
      Updated(k, s, s1, c, r1);
      var progress := r.handler.poll(r.polled);
      if r.shape.CalleeStreams() && r.Starved() {
        SpentExactly(k, s, s1, c, now);
      } else if progress.Item? && r.shape.CalleeStreams() {
        YieldFills(k, s, c, r1, progress.body);
        var s2 := Do(k, s1, Yield(c, progress.body));
        var f := YieldDone(k, s1, s2, c, progress.body);
        RunsTwice(s, s1, s2, c, r1, Advanced(r, 1).(fullSince := 0), [], [f]);
        NowFit(k, s, s2, c);
        var rest := PollLoopExactly(k, s2, c, now);
        PolledMore(k, s, s2, PollLoop(k, s, c, now), c, now, f, rest);
        items := [f] + rest;
      } else {
        ConcludeExactly(k, s, s1, PollLoop(k, s, c, now), c, now);
      }
    }
  }

  lemma NowFit(k: Setup, s: State, t: State, c: u32)
    requires Fit(k, s, c) && Apart(s, t, c) && c in s.inflight
    requires Lookup(t.inflight, c).Some? && Lookup(t.inflight, c).value.entered == s.inflight[c].entered
    ensures Fit(k, t, c)
  {
  }

  lemma SpentExactly(k: Setup, s: State, t: State, c: u32, now: Time)
    requires Fit(k, s, c) && c in s.inflight && s.box.HasRoom(c)
    requires s.inflight[c].shape.CalleeStreams() && s.inflight[c].Starved()
    requires t == Do(k, s, Update(c, s.inflight[c].(fullSince := 0)))
    ensures Polled(k, s, t, c, now, [])
  {
    hide Apply, RunsOn;
    Updated(k, s, t, c, s.inflight[c].(fullSince := 0));
    NoItems(k, s, t, c, s.inflight[c].(fullSince := 0));
  }

  // ------------------------------------------------------------- collecting credit

  /** The record and the credit after the handler granted these items, none perhaps. */
  ghost predicate GrantTaken(k: Setup, s: State, t: State, c: u32, items: u32) {
    && c in s.inflight && Apart(s, t, c) && k.registry.creditID.Some?
    && Lookup(t.pending, c) == Lookup(s.pending, c)
    && Lookup(t.inflight, c) == Some(s.inflight[c].(asked := s.inflight[c].asked + 1))
    && t.outcomes == s.outcomes && t.visits == s.visits && t.box.Queue(c) == s.box.Queue(c)
    && var already := if s.box.Credit(c).Some? then s.box.Credit(c).value.items as int else 0;
       var sum := Min(already + items as int, U32_MAX) as u32;
       t.box.Credit(c) == if items == 0 then s.box.Credit(c) else Some(WaitingCredit(k.registry.creditID.value, sum))
  }

  /** Before a poll, the handler of an open caller's stream is asked for credit, if credit is
      in the protocol and the handler grants any; if it panics, the call fails. */
  ghost predicate Collected(k: Setup, s: State, t: State, c: u32) {
    c in s.inflight &&
    var r := s.inflight[c];
    if k.registry.creditID.None? || !r.shape.CallerStreams() || r.inboundClosed then t == s
    else
      match r.handler.grant(r.asked)
      case NoGranter => t == s
      case GrantFails(status) => Failing(k, s, t, c, status)
      case Grants(items) => GrantTaken(k, s, t, c, items)
  }

  lemma CollectExactly(k: Setup, s: State, c: u32)
    requires Fit(k, s, c) && c in s.inflight
    ensures Collected(k, s, CollectGrant(k, s, c), c) && Fit(k, CollectGrant(k, s, c), c)
  {
    hide Apply, Failing, Apart;
    var r, t := s.inflight[c], CollectGrant(k, s, c);
    if k.registry.creditID.Some? && r.shape.CallerStreams() && !r.inboundClosed {
      match r.handler.grant(r.asked) {
        case NoGranter =>
        case GrantFails(status) =>
          FinishDone(k, s, t, c, status, None);
          FailedFits(k, s, t, c, status);
        case Grants(items) =>
          var m := Do(k, s, Update(c, r.(asked := r.asked + 1)));
          Updated(k, s, m, c, r.(asked := r.asked + 1));
          NothingAdded(s.box.Queue(c));
          if items > 0 {
            GrantDone(k, m, t, c, items);
            ApartTwice(s, m, t, c);
          }
          NowFit(k, s, t, c);
      }
    }
  }

  lemma FailedFits(k: Setup, s: State, t: State, c: u32, status: Status)
    requires Fit(k, s, c) && Failing(k, s, t, c, status)
    ensures Fit(k, t, c)
  {
  }

  /** Serving a call: credit is collected, and if the call is still there it is polled. */
  ghost predicate Served(k: Setup, s: State, t: State, c: u32, now: Time) {
    exists m, items :: ServedVia(k, s, m, t, c, now, items)
  }

  ghost predicate ServedVia(k: Setup, s: State, m: State, t: State, c: u32, now: Time, items: seq<Outgoing>) {
    Collected(k, s, m, c) && if c in m.inflight then Polled(k, m, t, c, now, items) else t == m
  }

  /** `pollOne`. */
  lemma PollExactly(k: Setup, s: State, c: u32, now: Time)
    requires Fit(k, s, c) && c in s.inflight
    ensures Served(k, s, Poll(k, s, c, now), c, now)
  {
    hide CollectGrant, PollLoop, Collected, Polled;
    CollectExactly(k, s, c);
    var m := CollectGrant(k, s, c);
    var items := [];
    if c in m.inflight {
      items := PollLoopExactly(k, m, c, now);
    } else {
      NotThere(k, m, c, now);
    }
    assert ServedVia(k, s, m, Poll(k, s, c, now), c, now, items);
  }

  lemma NotThere(k: Setup, s: State, c: u32, now: Time)
    requires c !in s.inflight
    ensures PollLoop(k, s, c, now) == s
  {
  }

  /** Serving one call leaves every other as it is. */
  lemma ServedApart(k: Setup, s: State, t: State, c: u32, now: Time)
    requires Served(k, s, t, c, now)
    ensures Apart(s, t, c) && t.outcomes == s.outcomes
  {
    hide Apart, Polled, Collected;
    var m, items :| ServedVia(k, s, m, t, c, now, items);
    CollectedApart(k, s, m, c);
    if c in m.inflight {
      PolledApart(k, m, t, c, now, items);
      ApartTwice(s, m, t, c);
    }
  }

  lemma CollectedApart(k: Setup, s: State, t: State, c: u32)
    requires Collected(k, s, t, c)
    ensures Apart(s, t, c) && t.outcomes == s.outcomes
  {
  }

  lemma PolledApart(k: Setup, s: State, t: State, c: u32, now: Time, items: seq<Outgoing>)
    requires Polled(k, s, t, c, now, items)
    ensures Apart(s, t, c) && t.outcomes == s.outcomes
  {
    hide Apart, CarriesAnswers, MayYield, Says, RoomAfter;
  }
}
