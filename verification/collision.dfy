/** A run on which the caller's frame order does fail: the peer claims, in a REQUEST of its
    own, the id that a client allocates next. The refusal is still queued under that id
    when the client opens its call, so the call's REQUEST is not the oldest frame. */
module Collision {
  import opened Basics
  import opened Wire
  import opened CallIds
  import opened OutboxModel
  import opened OutboxRefinement
  import opened CtxModel
  import opened Session
  import opened CoreModel
  import opened CoreOps
  import opened Histories
  import opened Grammar
  import opened Overtaking

  /** What the peer sends, and the call the owner then makes. */
  datatype Clash = Clash(
    claimID: u32, header: Header, claimCtx: Bytes, claimBody: Bytes, env: Arrival,
    requestID: u32, body: Bytes, ctx: Option<Ctx>, allowed: Time, way: Departure, now: Time)
  {
    /** The ctx the call leaves with. */
    function Leaving(): Ctx { way.rewrite(SetOut(ctx, allowed)) }

    /** The claim is a REQUEST under id 0; the call is answered by a stream and keeps to the
        ceilings of a client. */
    predicate Fits(k: Setup) {
      && k.role.Client? && k.config.schedulerQuantum > 0
      && k.config.maxPending >= 1 && k.config.maxCallQueue >= 2 && k.config.maxConnectionQueue >= 2
      && header.kind == Request && header.call == 0
      && Sendable(header, claimCtx, k.config.maxCtxLen) && claimID !in k.registry.plain
      && requestID in k.registry.byRequest && About(k).shape.CalleeStreams()
      && |body| <= k.config.maxBodyLen
      && (Leaving().IsEmpty() || |Encoding(Leaving())| <= k.config.maxCtxLen)
    }

    function About(k: Setup): Method
      requires requestID in k.registry.byRequest
    {
      k.registry.byRequest[requestID].about
    }

    function Claim(): Outgoing { Outgoing(claimID, header, claimCtx, claimBody) }

    /** `OnReady`, then `OnMessage`, then `Call`. */
    ghost function Ready(k: Setup): State { Do(k, Initial(k), BecomeReady) }

    ghost function Claimed(k: Setup): State {
      OnMessage(k, Ready(k), claimID, Encode(header, claimCtx, claimBody), now, env).state
    }

    ghost function Called(k: Setup): Did<u32> {
      Call(k, Claimed(k), requestID, body, ctx, allowed, now, way)
    }
  }

  lemma StepCounts(k: Setup, s: State, step: Step)
    requires !step.event.Global() && !Change(k, ViewOf(s, step.event.call), step.event).discard
    ensures var d, t := Change(k, ViewOf(s, step.event.call), step.event), Apply(k, s, step);
            && t.ready == s.ready && t.links == s.links && t.next == s.next
            && t.pending == Put(s.pending, step.event.call, d.waiting)
            && t.inflight == Put(s.inflight, step.event.call, d.running)
            && OneMore(s.box, t.box, d.append.Some?)
  {
    hide Change, BoxAfter, OneMore, Visited;
    BoxCounts(s.box, step.event.call, Change(k, ViewOf(s, step.event.call), step.event));
  }

  /** The ceilings of a box stay, and it holds one frame more or as many. */
  ghost predicate OneMore(box: Box, after: Box, more: bool) {
    && after.maxTotal == box.maxTotal && after.maxPerCall == box.maxPerCall
    && after.total == box.total + if more then 1 else 0
  }

  lemma BoxCounts(box: Box, call: u32, d: Delta)
    requires !d.discard
    ensures OneMore(box, BoxAfter(box, call, d), d.append.Some?)
  {
  }

  /** A core without links stands ready, and knows of no call but this one, whose queue and
      ledger are these. */
  ghost predicate Stands(k: Setup, s: State, c: u32, waiting: Option<Waiting>, queue: seq<Outgoing>, stage: Asking,
                         tainted: bool) {
    && Reachable(k, s) && s.ready && s.links == 0
    && s.box.total == |queue|
    && s.box.maxTotal == k.config.maxConnectionQueue && s.box.maxPerCall == k.config.maxCallQueue
    && s.inflight == map[] && s.pending == Put(map[], c, waiting)
    && ViewOf(s, c).queue == queue
    && WiresOf(History(s, c)).line == queue
    && WiresOf(History(s, c)).stage == stage && WiresOf(History(s, c)).tainted == tainted
  }

  lemma ReadyFirst(k: Setup, x: Clash)
    requires x.Fits(k)
    ensures Stands(k, x.Ready(k), 0, None, [], Idle, false) && x.Ready(k).next == 0
  {
    hide Reachable;
    InitialReachable(k);
    Extend(k, Initial(k), Step(BecomeReady, None));
    NothingAdded<Act>([]);
  }

  /** `OnMessage` refuses the claim: an ERROR is queued under the id. */
  lemma Refused(k: Setup, x: Clash)
    requires x.Fits(k)
    ensures Stands(k, x.Claimed(k), 0, None, [k.ErrorFrame(0, INVALID_ARGUMENT)], Idle, false) && x.Claimed(k).next == 0
  {
    hide Reachable, Apply, Setup.ErrorFrame, Fold, WiresOf, Clash.Claimed, Clash.Ready, Sendable, Encoding;
    ReadyFirst(k, x);
    ClaimIsStray(k, x);
    var s := x.Ready(k);
    var step := Step(Stray(0, INVALID_ARGUMENT), Some(Frame(x.Claim())));
    StepSeen(k, s, step);
    StepCounts(k, s, step);
  }

  lemma ClaimIsStray(k: Setup, x: Clash)
    requires x.Fits(k)
    ensures x.Claimed(k) == Apply(k, x.Ready(k), Step(Stray(0, INVALID_ARGUMENT), Some(Frame(x.Claim()))))
  {
    hide Reachable, Install, Encode, Decode, Encoding, Clash.Leaving, Change;
    DecodeEncode(x.header, x.claimCtx, x.claimBody, k.config.maxCtxLen);
  }

  /** The id is allocated all the same, and the REQUEST queued behind that ERROR. */
  lemma OpenedBehind(k: Setup, x: Clash) returns (w: Waiting, frame: Outgoing)
    requires x.Fits(k)
    ensures x.Called(k).result == Ok(0)
    ensures frame.header.kind == Request && w.shape.CalleeStreams()
    ensures Stands(k, x.Called(k).state, 0, Some(w), [k.ErrorFrame(0, INVALID_ARGUMENT), frame], Asked, true)
  {
    hide Reachable, Apply, Fold, WiresOf, Setup.ErrorFrame, RequestFrame, Encoding, Clash.Claimed;
    Refused(k, x);
    var s := x.Claimed(k);
    var p := Step(Probed(1, true), None);
    var s1 := Apply(k, s, p);
    ProbedOnce(k, s, p);
    w := WaitingFor(x.About(k), 0, DeadlineOf(x.Leaving(), x.now));
    frame := RequestFrame(k, 0, x.requestID, x.Leaving(), x.body);
    RequestIs(k, x);
    var step := Step(Open(0, w, frame), None);
    assert x.Called(k) == Did(Apply(k, s1, step), Ok(0)) by { hide Stands; }
    StepSeen(k, s1, step);
    StepCounts(k, s1, step);
  }

  lemma ProbedOnce(k: Setup, s: State, p: Step)
    requires Reachable(k, s) && p == Step(Probed(1, true), None) && s.next == 0
    ensures var t := Apply(k, s, p);
            && Reachable(k, t)
            && t == s.(next := Nth(0, 1), probes := s.probes + 1, issued := Some(0), journal := t.journal)
    ensures Allocation(0, {}) == Search(Some(0), Nth(0, 1), 1)
  {
    hide Reachable;
    Extend(k, s, p);
    NothingAdded(s.trace);
  }

  lemma RequestIs(k: Setup, x: Clash)
    requires x.Fits(k)
    ensures var frame := RequestFrame(k, 0, x.requestID, x.Leaving(), x.body);
            frame.header.kind == Request && frame.header.call == 0 && frame.messageID == x.requestID
  {
    hide Encoding;
  }

  // --------------------------------------------------------------- what then happens

  /** What a drain sends of a call. */
  ghost function DrainedOf(s: State, sink: Sink, c: u32): seq<Outgoing> {
    if s.box.Valid() then Of(Drain(s.box, sink).sent, c) else []
  }

  /** A drain moves the stage of a conversation over the credit and the frames it sends. */
  lemma DrainSeen(k: Setup, s: State, sink: Sink, c: u32) returns (share: Share)
    requires Reachable(k, s)
    ensures var t, l := Do(k, s, DrainTo(sink)), WiresOf(History(s, c));
            && Shares(c, s.box.Queue(c), s.box.Credit(c), DrainedOf(s, sink, c), t.box.Queue(c), t.box.Credit(c), share)
            && WiresOf(History(t, c)).stage == (
                 var st0 := if share.before then Travel(l.stage, Kind.Credit) else l.stage;
                 var st1 := Run(st0, s.box.Queue(c)[..share.count]);
                 if share.after then Travel(st1, Kind.Credit) else st1)
  {
    hide Reachable, Fold, Shares, Drain, Travel, Run;
    BoxStaysSound(k, s);
    WiredAlways(k, s, c);
    share := DrainRefines(s.box, sink, c);
    var t, sent := Do(k, s, DrainTo(sink)), Drain(s.box, sink).sent;
    NothingAdded(s.trace + Sends(sent));
    assert t.trace == s.trace + Sends(sent);
    MineConcat(s.trace, Sends(sent), c);
    MineOfSends(sent, c);
    FoldConcat(Observe, QUIET, History(s, c), SentActs(c, Of(sent, c)));
    ObserveDrain(WiresOf(History(s, c)), c, ViewOf(s, c), ViewOf(t, c), Of(sent, c), share);
  }

  /** The stage after a drain that sent a CREDIT first, and after one that sent a CANCEL. */
  lemma SentTooSoon(st: Asking, c: u32, queue: seq<Outgoing>, credit: Option<WaitingCredit>, sent: seq<Outgoing>,
                    queue': seq<Outgoing>, credit': Option<WaitingCredit>, share: Share)
    requires Shares(c, queue, credit, sent, queue', credit', share) && OutboxModel.NoCredit(queue) && sent != []
    requires (st == Asked && sent[0].header.kind == Kind.Credit) || (st == Idle && sent[0].header.kind == Cancel)
    ensures var st0 := if share.before then Travel(st, Kind.Credit) else st;
            var st1 := Run(st0, queue[..share.count]);
            (if share.after then Travel(st1, Kind.Credit) else st1) == Wrong
  {
    var first := queue[..share.count];
    var st0 := if share.before then Travel(st, Kind.Credit) else st;
    OnlyForward(st0, first);
    if first != [] {
      OnlyForward(Travel(st0, first[0].header.kind), first[1..]);
    }
  }

  /** `GrantCredit` then lets the CREDIT out ahead of the REQUEST: the frame order that
      `CallerGrammar` promises fails on this run. */
  lemma CreditCanOvertake(k: Setup, x: Clash, items: u32, sink: Sink)
    requires x.Fits(k) && k.registry.creditID.Some? && Obliging(sink)
    ensures x.Called(k).result == Ok(0)
    ensures var granted := GrantCredit(k, x.Called(k).state, 0, items);
            var s := granted.state;
            var sent := DrainedOf(s, sink, 0);
            && granted.result == Ok(()) && Reachable(k, s)
            && sent != [] && sent[0].header.kind == Kind.Credit
            && WiresOf(History(Do(k, s, DrainTo(sink)), 0)).stage == Wrong
  {
    hide Apply, Reachable, Setup.ErrorFrame, WiresOf, Drain, Obliging, Box.Valid, Clash.Called, Shares,
         OutboxModel.NoCredit, Fold, SaturatingAdd;
    var w, frame := OpenedBehind(k, x);
    var s := x.Called(k).state;
    var step := Step(Event.Grant(0, items), None);
    var t := Apply(k, s, step);
    assert GrantCredit(k, s, 0, items) == Did(t, Ok(()));
    StepSeen(k, s, step);
    BoxStaysSound(k, t);
    WiredAlways(k, t, 0);
    ErrorKind(k, 0, INVALID_ARGUMENT);
    CreditOvertakesExactly(t.box, sink, 0);
    var share := DrainSeen(k, t, sink, 0);
    var u := Do(k, t, DrainTo(sink));
    SentTooSoon(Asked, 0, t.box.Queue(0), t.box.Credit(0), DrainedOf(t, sink, 0), u.box.Queue(0), u.box.Credit(0),
                share);
  }

  lemma ErrorKind(k: Setup, c: u32, status: Status)
    ensures k.ErrorFrame(c, status).header.kind == Kind.Error
  {
    BodyFrameKind(k, c, Kind.Error, k.registry.errorID, status.Encode());
  }

  /** `Cancel` instead discards the REQUEST that never left and queues a CANCEL, the only
      frame the peer will ever get of the call. */
  lemma CancelCanMislead(k: Setup, x: Clash, sink: Sink)
    requires x.Fits(k) && Obliging(sink)
    ensures x.Called(k).result == Ok(0)
    ensures var s := CancelCall(k, x.Called(k).state, 0);
            && Reachable(k, s) && WiresOf(History(s, 0)).stage == Idle
            && s.box.Queue(0) == [k.ControlFrame(0, Cancel)]
            && DrainedOf(s, sink, 0) == [k.ControlFrame(0, Cancel)]
            && WiresOf(History(Do(k, s, DrainTo(sink)), 0)).stage == Wrong
  {
    hide Apply, Reachable, Setup.ErrorFrame, WiresOf, Drain, Obliging, Box.Valid, Clash.Called, Shares,
         OutboxModel.NoCredit, Fold;
    var w, frame := OpenedBehind(k, x);
    var s := x.Called(k).state;
    var step := Step(Abandon(0, CANCELLED), None);
    var t := Apply(k, s, step);
    StepSeen(k, s, step);
    ErrorKind(k, 0, INVALID_ARGUMENT);
    AbandonDelta(k, ViewOf(s, 0), 0, CANCELLED);
    BoxStaysSound(k, t);
    WiredAlways(k, t, 0);
    ObligingDrain(t.box, sink, 0);
    var share := DrainSeen(k, t, sink, 0);
    var u := Do(k, t, DrainTo(sink));
    SentTooSoon(Idle, 0, t.box.Queue(0), t.box.Credit(0), DrainedOf(t, sink, 0), u.box.Queue(0), u.box.Credit(0),
                share);
  }
}
