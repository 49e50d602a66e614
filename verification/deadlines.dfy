/** Time: what a tick leaves behind, and how a deadline budget shrinks from hop to hop. */
module Deadlines {
  import opened Basics
  import opened CtxModel
  import opened Session
  import opened CoreModel
  import opened CoreOps
  import opened Lawful

  // ------------------------------------------------------------------- ticking

  /** No live call has a deadline, handler limit or idle limit at or before now. */
  ghost predicate NothingPast(s: State, now: Time) {
    && (forall c :: c in s.pending ==> !Past(s.pending[c].deadline, now))
    && (forall c :: c in s.inflight ==> !Past(s.inflight[c].NextExpiry(), now))
  }

  /** Calls may have left, but none has come or changed its expiry. */
  ghost predicate OnlyLeft(s: State, t: State) {
    && (forall c :: c in t.pending ==> c in s.pending && t.pending[c] == s.pending[c])
    && (forall c :: c in t.inflight ==> c in s.inflight && t.inflight[c].NextExpiry() == s.inflight[c].NextExpiry())
  }

  lemma LeftTwice(s: State, t: State, u: State)
    requires OnlyLeft(s, t) && OnlyLeft(t, u)
    ensures OnlyLeft(s, u)
  {
    hide Running.NextExpiry;
  }

  /** The events a tick is made of. */
  ghost predicate Passing(s: State, e: Event) {
    match e
    case Update(call, r) => call in s.inflight && r.NextExpiry() == s.inflight[call].NextExpiry()
    case _ => e.Grant? || e.Yield? || e.Answer? || e.CloseOut? || e.Finish? || e.Abandon?
  }

  lemma OnlyLeftBy(k: Setup, s: State, e: Event)
    requires Passing(s, e)
    ensures OnlyLeft(s, Do(k, s, e))
  {
    hide Change, BoxAfter, Running.NextExpiry;
    PassingDelta(k, s, e);
  }

  lemma PassingDelta(k: Setup, s: State, e: Event)
    requires Passing(s, e)
    ensures var v := ViewOf(s, e.call);
            var d := Change(k, v, e);
            && (d.waiting.Some? ==> d.waiting == v.waiting)
            && (d.running.Some? ==> v.running.Some? && d.running.value.NextExpiry() == v.running.value.NextExpiry())
  {
    hide BoxAfter, Setup.Squeezed, SaturatingAdd;
  }

  lemma CollectOnlyLeft(k: Setup, s: State, call: u32)
    ensures OnlyLeft(s, CollectGrant(k, s, call))
  {
    hide Apply, OnlyLeft;
    StaysPut(s);
    if k.registry.creditID.Some? && call in s.inflight && s.inflight[call].shape.CallerStreams()
       && !s.inflight[call].inboundClosed {
      var r := s.inflight[call];
      match r.handler.grant(r.asked) {
        case NoGranter =>
        case GrantFails(status) => OnlyLeftBy(k, s, Finish(call, status));
        case Grants(items) =>
          var asked := Do(k, s, Update(call, r.(asked := r.asked + 1)));
          OnlyLeftBy(k, s, Update(call, r.(asked := r.asked + 1)));
          if items > 0 {
            OnlyLeftBy(k, asked, Event.Grant(call, items));
            LeftTwice(s, asked, Do(k, asked, Event.Grant(call, items)));
          }
      }
    }
  }

  lemma StaysPut(s: State)
    ensures OnlyLeft(s, s)
  {
  }

  lemma StuckOnlyLeft(k: Setup, s: State, call: u32, now: Time)
    requires call in s.inflight
    ensures OnlyLeft(s, Stuck(k, s, call, s.inflight[call], now))
  {
    hide Apply, OnlyLeft;
    StaysPut(s);
    var r := s.inflight[call];
    if s.box.FullFor(call) {
      var r1 := r.(fullSince := if r.fullSince == 0 then now else r.fullSince);
      var s1 := Do(k, s, Update(call, r1));
      OnlyLeftBy(k, s, Update(call, r1));
      OnlyLeftBy(k, s1, Finish(call, RESOURCE_EXHAUSTED));
      LeftTwice(s, s1, Do(k, s1, Finish(call, RESOURCE_EXHAUSTED)));
    }
  }

  lemma ConcludeOnlyLeft(k: Setup, s: State, call: u32, progress: Progress)
    requires call in s.inflight
    ensures OnlyLeft(s, Conclude(k, s, call, s.inflight[call], progress))
  {
    hide Apply, OnlyLeft, Setup.Squeezed;
    StaysPut(s);
    var r := s.inflight[call];
    match progress {
      case Pending => OnlyLeftBy(k, s, Update(call, r.(polled := r.polled + 1)));
      case Respond(body) =>
        OnlyLeftBy(k, s, Finish(call, INTERNAL));
        OnlyLeftBy(k, s, Answer(call, body));
      case End =>
        OnlyLeftBy(k, s, Finish(call, INTERNAL));
        OnlyLeftBy(k, s, CloseOut(call));
      case Fail(status) => OnlyLeftBy(k, s, Finish(call, if status.Some? then status.value else INTERNAL));
      case Item(_) =>
    }
  }

  lemma {:induction false} PollLoopOnlyLeft(k: Setup, s: State, call: u32, now: Time)
    ensures OnlyLeft(s, PollLoop(k, s, call, now))
    decreases Spare(s.box)
  {
    hide Apply, OnlyLeft, Setup.Squeezed;
    StaysPut(s);
    if call in s.inflight {
      var r := s.inflight[call];
      if !s.box.HasRoom(call) {
        StuckOnlyLeft(k, s, call, now);
      } else {
        var r1 := r.(fullSince := 0);
        var s1 := Do(k, s, Update(call, r1));
        OnlyLeftBy(k, s, Update(call, r1));
        var progress := r.handler.poll(r.polled);
        YieldFills(k, s, call, r1, if progress.Item? then progress.body else []);
        if !(r.shape.CalleeStreams() && r.Starved()) {
          if progress.Item? {
            OnlyLeftBy(k, s1, Finish(call, INTERNAL));
            LeftTwice(s, s1, Do(k, s1, Finish(call, INTERNAL)));
            var s2 := Do(k, s1, Yield(call, progress.body));
            OnlyLeftBy(k, s1, Yield(call, progress.body));
            LeftTwice(s, s1, s2);
            PollLoopOnlyLeft(k, s2, call, now);
            LeftTwice(s, s2, PollLoop(k, s2, call, now));
          } else {
            ConcludeOnlyLeft(k, s1, call, progress);
            LeftTwice(s, s1, Conclude(k, s1, call, r1, progress));
          }
        }
      }
    }
  }

  lemma {:induction false} PollAllOnlyLeft(k: Setup, s: State, ids: seq<u32>, now: Time)
    ensures OnlyLeft(s, PollAll(k, s, ids, now))
    decreases |ids|
  {
    hide OnlyLeft, CollectGrant, PollLoop;
    StaysPut(s);
    if ids != [] {
      var s0 := CollectGrant(k, s, ids[0]);
      var s1 := Poll(k, s, ids[0], now);
      CollectOnlyLeft(k, s, ids[0]);
      PollLoopOnlyLeft(k, s0, ids[0], now);
      LeftTwice(s, s0, s1);
      PollAllOnlyLeft(k, s1, ids[1..], now);
      LeftTwice(s, s1, PollAll(k, s1, ids[1..], now));
    }
  }

  lemma AbandonedGone(k: Setup, s: State, call: u32, status: Status)
    requires call in s.pending
    ensures Do(k, s, Abandon(call, status)).pending == s.pending - {call}
  {
  }

  lemma FinishedGone(k: Setup, s: State, call: u32, status: Status)
    requires call in s.inflight
    ensures Do(k, s, Finish(call, status)).inflight == s.inflight - {call}
    ensures Do(k, s, Finish(call, status)).pending == s.pending
  {
    PutSame(s.pending, call);
  }

  lemma {:induction false} ExpirePendingClears(k: Setup, s: State, ids: seq<u32>, now: Time)
    ensures var t := ExpirePending(k, s, ids, now);
            && OnlyLeft(s, t)
            && forall c :: c in ids && c in t.pending ==> !Past(t.pending[c].deadline, now)
    decreases |ids|
  {
    hide Apply, Running.NextExpiry;
    if ids != [] {
      var call := ids[0];
      var s1 := if call in s.pending && Past(s.pending[call].deadline, now)
                then Do(k, s, Abandon(call, DEADLINE_EXCEEDED)) else s;
      if call in s.pending && Past(s.pending[call].deadline, now) {
        OnlyLeftBy(k, s, Abandon(call, DEADLINE_EXCEEDED));
        AbandonedGone(k, s, call, DEADLINE_EXCEEDED);
      }
      ExpirePendingClears(k, s1, ids[1..], now);
    }
  }

  lemma {:induction false} ExpireInflightClears(k: Setup, s: State, ids: seq<u32>, now: Time)
    ensures var t := ExpireInflight(k, s, ids, now);
            && OnlyLeft(s, t)
            && forall c :: c in ids && c in t.inflight ==> !Past(t.inflight[c].NextExpiry(), now)
    decreases |ids|
  {
    hide Apply, Running.NextExpiry;
    if ids != [] {
      var call := ids[0];
      var s1 := if call in s.inflight && Past(s.inflight[call].NextExpiry(), now)
                then Do(k, s, Finish(call, DEADLINE_EXCEEDED)) else s;
      if call in s.inflight && Past(s.inflight[call].NextExpiry(), now) {
        OnlyLeftBy(k, s, Finish(call, DEADLINE_EXCEEDED));
        FinishedGone(k, s, call, DEADLINE_EXCEEDED);
      }
      ExpireInflightClears(k, s1, ids[1..], now);
    }
  }

  /** After a tick nothing that is still live was due, whatever the handlers do meanwhile. */
  lemma TickClears(k: Setup, s: State, now: Time)
    ensures NothingPast(Tick(k, s, now), now)
    ensures OnlyLeft(s, Tick(k, s, now))
  {
    hide ExpirePending, ExpireInflight, PollAll, SortedKeys, Running.NextExpiry;
    var s1 := ExpirePending(k, s, SortedKeys(s.pending.Keys), now);
    SortedKeysSorted(s.pending.Keys);
    ExpirePendingClears(k, s, SortedKeys(s.pending.Keys), now);
    var s2 := ExpireInflight(k, s1, SortedKeys(s1.inflight.Keys), now);
    SortedKeysSorted(s1.inflight.Keys);
    ExpireInflightClears(k, s1, SortedKeys(s1.inflight.Keys), now);
    PollAllOnlyLeft(k, s2, SortedKeys(s2.inflight.Keys), now);
    assert NothingPast(s2, now);
  }

  // ---------------------------------------------------------- the nearest deadline

  ghost predicate Expires(s: State, at: Time) {
    at != 0 && ((exists c :: c in s.pending && s.pending[c].deadline == at)
                || (exists c :: c in s.inflight && s.inflight[c].NextExpiry() == at))
  }

  /** The earliest instant at which anything expires, or 0 when nothing ever does. */
  ghost predicate Nearest(s: State, at: Time) {
    && (at != 0 ==> Expires(s, at))
    && (forall x :: Expires(s, x) ==> at != 0 && at <= x)
  }

  /** The nearest deadline is one instant, so the order the tables are walked in is of no
      consequence; after a tick it lies ahead. */
  lemma NearestAfterTick(k: Setup, s: State, now: Time, at: Time, other: Time)
    requires Nearest(Tick(k, s, now), at) && Nearest(Tick(k, s, now), other)
    ensures at == other && (at == 0 || at > now)
  {
    hide Tick, Running.NextExpiry;
    TickClears(k, s, now);
  }

  /** `WaitPolicy` (rpcnet/session.go); durations of zero or less mean the defaults. */
  datatype WaitPolicy = WaitPolicy(idleCap: Time, workPoll: Time) {
    function Normalized(): (p: WaitPolicy)
      ensures p.idleCap > 0 && p.workPoll > 0
    {
      WaitPolicy(if idleCap <= 0 then 250 * MILLISECOND else idleCap, if workPoll <= 0 then 200_000 else workPoll)
    }
  }

  datatype Wait = Wait(timeout: Time, writable: bool)

  /** `HasRunnableWork`: some call could be polled for more. */
  ghost predicate Runnable(s: State) {
    exists c :: c in s.inflight && CanRun(s.inflight[c]) && s.box.HasRoom(c)
  }

  predicate CanRun(r: Running) { !(r.shape.CalleeStreams() && r.Starved()) }

  /** `Plan`, over what it asks of the core: whether work could run, the nearest deadline
      (0 for none), whether frames wait. */
  function Plan(policy: WaitPolicy, runnable: bool, nearest: Time, unsent: bool, netCongested: bool, now: Time): Wait {
    var p := policy.Normalized();
    var capped := if runnable then Min(p.idleCap, p.workPoll) else p.idleCap;
    Wait(if nearest != 0 then Min(capped, Max(nearest - now, 0)) else capped, netCongested || unsent)
  }

  /** A wait planned in any state is zero if and only if some live call is due, ends no later
      than any expiry still ahead, and is cut short only by work, the cap or the nearest
      expiry. */
  lemma PlanInAnyState(s: State, policy: WaitPolicy, runnable: bool, unsent: bool, congested: bool, now: Time, at: Time)
    requires Nearest(s, at)
    ensures var w := Plan(policy, runnable, at, unsent, congested, now);
            && w.timeout >= 0
            && (w.timeout == 0 <==> exists x :: Expires(s, x) && x <= now)
            && (forall x :: Expires(s, x) && x > now ==> now + w.timeout <= x)
            && (w.timeout in {0, policy.Normalized().idleCap} || (runnable && w.timeout == policy.Normalized().workPoll)
                || now + w.timeout == at)
            && (w.writable <==> congested || unsent)
  {
    hide Expires;
    var w := Plan(policy, runnable, at, unsent, congested, now);
    assert w.timeout == 0 ==> at != 0 && at <= now && Expires(s, at);
  }

  /** Planned right after a tick, the wait is positive, lasts no longer than the nearest
      expiry of any live call, and is cut short only by work, the cap or that expiry. */
  lemma PlanWakesInTime(k: Setup, s: State, policy: WaitPolicy, runnable: bool, unsent: bool, congested: bool,
                        now: Time, at: Time)
    requires Nearest(Tick(k, s, now), at)
    ensures var w := Plan(policy, runnable, at, unsent, congested, now);
            && w.timeout > 0
            && (forall x :: Expires(Tick(k, s, now), x) ==> now + w.timeout <= x)
            && (w.timeout == policy.Normalized().idleCap || (runnable && w.timeout == policy.Normalized().workPoll)
                || now + w.timeout == at)
  {
    hide Tick, Expires;
    NearestAfterTick(k, s, now, at, at);
  }

  // -------------------------------------------------------------- budget over hops

  /** `RemainingMs` of a call with this deadline: whole milliseconds left, if bounded. */
  function RemainingMs(deadline: Time, now: Time): Option<u32> {
    if deadline == 0 then None
    else if deadline - now <= 0 then Some(0)
    else Some(Min((deadline - now) / MILLISECOND, U32_MAX) as u32)
  }

  /** `OnwardCtx`: the ctx for a call made on behalf of a running one; none when its time
      is up, since a zero would mean no deadline at all. */
  function OnwardCtx(ctx: Ctx, deadline: Time, now: Time): Option<Ctx> {
    match RemainingMs(deadline, now)
    case None => Some(EMPTY_CTX.(traceID := ctx.traceID, spanID := ctx.spanID, tenant := ctx.tenant))
    case Some(left) =>
      if left == 0 then None
      else Some(EMPTY_CTX.(deadlineMs := left, traceID := ctx.traceID, spanID := ctx.spanID, tenant := ctx.tenant))
  }

  /** One hop: when the request came in, when the onward call was made, under which own
      deadline, by a method of which shape. */
  datatype Hop = Hop(shape: Shape, arrived: Time, left: Time, allowed: Time)

  /** The ctx that leaves a hop, given the one that reached it. */
  function Relay(k: Setup, ctx: Ctx, hop: Hop): Option<Ctx> {
    match OnwardCtx(ctx, LimitOf(k, hop.shape, ctx, hop.arrived), hop.left)
    case None => None
    case Some(onward) => Some(SetOut(Some(onward), hop.allowed))
  }

  function RelayAll(k: Setup, ctx: Ctx, hops: seq<Hop>): Option<Ctx>
    decreases |hops|
  {
    if hops == [] then Some(ctx)
    else
      match Relay(k, ctx, hops[0])
      case None => None
      case Some(onward) => RelayAll(k, onward, hops[1..])
  }

  /** Whole milliseconds spent at the hops. */
  function Spent(hops: seq<Hop>): int {
    if hops == [] then 0 else (hops[0].left - hops[0].arrived) / MILLISECOND + Spent(hops[1..])
  }

  ghost predicate Forward(hops: seq<Hop>) { forall h :: h in hops ==> 0 <= h.arrived <= h.left }

  lemma WholeMilliseconds(budget: nat, left: int, spent: nat)
    requires left <= budget * MILLISECOND - spent
    ensures left / MILLISECOND + spent / MILLISECOND <= budget
  {
    assert left == MILLISECOND * (left / MILLISECOND) + left % MILLISECOND;
    assert spent == MILLISECOND * (spent / MILLISECOND) + spent % MILLISECOND;
  }

  /** One hop: what is sent onward and what was spent fit the budget, a bounded budget
      stays bounded, and the call is refused exactly when less than a millisecond of the
      limit is left. */
  lemma HopKeepsBudget(k: Setup, ctx: Ctx, hop: Hop)
    requires k.config.handlerLimit > 0 && ctx.HasDeadline() && 0 <= hop.arrived <= hop.left
    ensures var onward := Relay(k, ctx, hop);
            onward.Some? ==>
              && onward.value.HasDeadline()
              && onward.value.deadlineMs as int + (hop.left - hop.arrived) / MILLISECOND <= ctx.deadlineMs as int
    ensures Relay(k, ctx, hop).None? <==> LimitOf(k, hop.shape, ctx, hop.arrived) - hop.left < MILLISECOND
  {
    var limit := LimitOf(k, hop.shape, ctx, hop.arrived);
    assert 0 < limit <= hop.arrived + ctx.deadlineMs as int * MILLISECOND;
    WholeMilliseconds(ctx.deadlineMs as int, limit - hop.left, hop.left - hop.arrived);
  }

  /** What a hop sends onward, whether the budget is bounded or not: the trace, the span and
      the tenant it got, no token, no key and no credit; and a deadline exactly of what is
      left in whole milliseconds, lowered to what the hop itself allows. */
  lemma HopExactly(k: Setup, ctx: Ctx, hop: Hop)
    ensures var limit, onward := LimitOf(k, hop.shape, ctx, hop.arrived), Relay(k, ctx, hop);
            var left := if limit == 0 then 0 else (limit - hop.left) / MILLISECOND;
            && (onward.None? <==> limit != 0 && limit - hop.left < MILLISECOND)
            && (onward.Some? ==>
                  && onward.value == Ctx(onward.value.deadlineMs, ctx.traceID, ctx.spanID, [], ctx.tenant, [], 0)
                  && (hop.allowed <= 0 ==> onward.value.deadlineMs as int == Min(left, U32_MAX))
                  && (hop.allowed > 0 ==>
                        var own := Min(Max(hop.allowed / MILLISECOND, 1), U32_MAX);
                        onward.value.deadlineMs as int == if limit == 0 then own else Min(Min(left, U32_MAX), own)))
  {
  }

  /** Any number of hops, clocks not running backwards. */
  lemma {:induction false} HopsKeepBudget(k: Setup, ctx: Ctx, hops: seq<Hop>)
    requires k.config.handlerLimit > 0 && ctx.HasDeadline() && Forward(hops)
    ensures var last := RelayAll(k, ctx, hops);
            last.Some? ==>
              last.value.HasDeadline() && last.value.deadlineMs as int + Spent(hops) <= ctx.deadlineMs as int
    decreases |hops|
  {
    hide Relay;
    if hops != [] {
      HopKeepsBudget(k, ctx, hops[0]);
      var onward := Relay(k, ctx, hops[0]);
      if onward.Some? {
        HopsKeepBudget(k, onward.value, hops[1..]);
      }
    }
  }
}
