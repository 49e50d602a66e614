/** The operations of a session core (core.go) as values: what each of them makes of a
    state. Every one is a chain of enabled steps of `CoreModel`. */
module CoreOps {
  import opened Basics
  import opened Wire
  import opened OutboxModel
  import opened CallIds
  import opened CtxModel
  import opened Session
  import opened CoreModel

  datatype CallError =
    | NotReady | UnknownMethod | UnknownCall | WrongShape | SendClosed | NoCredit | CreditUnsupported
    | TooManyPending | Congested | BodyTooLarge | CtxTooLarge | CallIDExhausted | Rejected(status: Status)

  datatype Did<T> = Did(state: State, result: Result<T, CallError>)

  // ------------------------------------------------------------ interceptors

  datatype Passage = Passage(entered: nat, rejection: Option<Status>)

  /** `Chain.Outgoing` and `Chain.Inbound`: the links in order, up to the first that
      rejects, which does not count as entered. */
  function PassLinks(verdicts: Verdicts, i: nat, links: nat): (p: Passage)
    requires i <= links
    ensures i <= p.entered <= links
    ensures p.rejection.None? ==> p.entered == links
    decreases links - i
  {
    if i == links then Passage(links, None)
    else if verdicts(i).Some? then Passage(i, verdicts(i))
    else PassLinks(verdicts, i + 1, links)
  }

  /** What the chain does to a departing call: its verdicts, and what the links together
      make of the ctx. */
  datatype Departure = Departure(verdicts: Verdicts, rewrite: Ctx -> Ctx)

  /** What meets an arriving request: the chain's verdicts and the handler factory's answer. */
  datatype Arrival = Arrival(verdicts: Verdicts, made: Result<Handler, Status>)

  // -------------------------------------------------------------- making calls

  /** `millisOf`: whole milliseconds, at least one, held at the largest word. */
  function MillisOf(budget: Time): u32 {
    Min(Max(budget / MILLISECOND, 1), U32_MAX) as u32
  }

  /** The ctx a call sets out with: the caller's, its deadline lowered to the options'. */
  function SetOut(ctx: Option<Ctx>, allowed: Time): Ctx {
    var c := if ctx.Some? then ctx.value else EMPTY_CTX;
    if allowed > 0 && (!c.HasDeadline() || MillisOf(allowed) < c.deadlineMs) then
      c.(deadlineMs := MillisOf(allowed))
    else c
  }

  function DeadlineOf(ctx: Ctx, now: Time): Time {
    if ctx.HasDeadline() then now + ctx.deadlineMs as int * MILLISECOND else 0
  }

  function WaitingFor(about: Method, entered: nat, deadline: Time): Waiting {
    Waiting(entered, about.requestID, about.CallerItemID(), about.replyID, about.shape, deadline, false, 0, false)
  }

  function RequestFrame(k: Setup, call: u32, requestID: u32, ctx: Ctx, body: Bytes): Outgoing {
    var block := if ctx.IsEmpty() then [] else Encoding(ctx);
    k.Squeezed(Header(Request, call, false, !ctx.IsEmpty()), requestID, block, body)
  }

  ghost function Call(k: Setup, s: State, requestID: u32, body: Bytes, ctx: Option<Ctx>, allowed: Time, now: Time,
                      d: Departure): Did<u32>
  {
    if !s.ready then Did(s, Err(NotReady))
    else if requestID !in k.registry.byRequest then Did(s, Err(UnknownMethod))
    else if |body| > k.config.maxBodyLen then Did(s, Err(BodyTooLarge))
    else if |s.pending| >= k.config.maxPending then Did(s, Err(TooManyPending))
    else
      var search := Allocation(s.next, s.pending.Keys);
      var s1 := Do(k, s, Probed(search.probes, search.found.Some?));
      if search.found.None? then Did(s1, Err(CallIDExhausted))
      else Launch(k, s1, search.found.value, requestID, body, SetOut(ctx, allowed), now, d)
  }

  /** The part of `Call` behind the allocation. */
  ghost function Launch(k: Setup, s: State, call: u32, requestID: u32, body: Bytes, ctx: Ctx, now: Time,
                        d: Departure): Did<u32>
    requires requestID in k.registry.byRequest
  {
    var p := PassLinks(d.verdicts, 0, s.links);
    var sent := d.rewrite(ctx);
    if p.rejection.Some? then Did(Do(k, s, Bounce(call, p.entered)), Err(Rejected(p.rejection.value)))
    else if !sent.IsEmpty() && |Encoding(sent)| > k.config.maxCtxLen then
      Did(Do(k, s, Bounce(call, p.entered)), Err(CallError.CtxTooLarge))
    else if !s.box.HasRoom(call) then Did(Do(k, s, Bounce(call, p.entered)), Err(Congested))
    else
      var w := WaitingFor(k.registry.byRequest[requestID].about, p.entered, DeadlineOf(sent, now));
      Did(Do(k, s, Open(call, w, RequestFrame(k, call, requestID, sent, body))), Ok(call))
  }

  ghost function SendItem(k: Setup, s: State, call: u32, body: Bytes): Did<()> {
    if call !in s.pending then Did(s, Err(UnknownCall))
    else
      var w := s.pending[call];
      if !w.shape.CallerStreams() then Did(s, Err(WrongShape))
      else if w.sendClosed then Did(s, Err(SendClosed))
      else if w.established && w.credit == 0 then Did(s, Err(NoCredit))
      else if |body| > k.config.maxBodyLen then Did(s, Err(BodyTooLarge))
      else if !s.box.HasRoom(call) then Did(s, Err(Congested))
      else Did(Do(k, s, PushItem(call, body)), Ok(()))
  }

  ghost function CloseSend(k: Setup, s: State, call: u32): Did<()> {
    if call !in s.pending then Did(s, Err(UnknownCall))
    else if !s.pending[call].shape.CallerStreams() then Did(s, Err(WrongShape))
    else if s.pending[call].sendClosed then Did(s, Err(SendClosed))
    else if !s.box.HasRoom(call) then Did(s, Err(Congested))
    else Did(Do(k, s, PushEnd(call)), Ok(()))
  }

  ghost function GrantCredit(k: Setup, s: State, call: u32, items: u32): Did<()> {
    if k.registry.creditID.None? then Did(s, Err(CreditUnsupported))
    else if call in s.inflight then
      if !s.inflight[call].shape.CallerStreams() then Did(s, Err(WrongShape))
      else Did(Do(k, s, Event.Grant(call, items)), Ok(()))
    else if call in s.pending then
      if !s.pending[call].shape.CalleeStreams() then Did(s, Err(WrongShape))
      else Did(Do(k, s, Event.Grant(call, items)), Ok(()))
    else Did(s, Err(UnknownCall))
  }

  ghost function CancelCall(k: Setup, s: State, call: u32): State {
    if call in s.pending then Do(k, s, Abandon(call, CANCELLED)) else s
  }

  // ------------------------------------------------------------------ polling

  ghost function CollectGrant(k: Setup, s: State, call: u32): State {
    if k.registry.creditID.None? || call !in s.inflight then s
    else
      var r := s.inflight[call];
      if !r.shape.CallerStreams() || r.inboundClosed then s
      else
        match r.handler.grant(r.asked)
        case NoGranter => s
        case GrantFails(status) => Do(k, s, Finish(call, status))
        case Grants(items) =>
          var asked := Do(k, s, Update(call, r.(asked := r.asked + 1)));
          if items > 0 then Do(k, asked, Event.Grant(call, items)) else asked
  }

  /** How many more frames the connection ceiling lets in. */
  function Spare(box: Box): nat { if box.total < box.maxTotal then box.maxTotal - box.total else 0 }

  /** `pollOne`: ask the handler for progress until it has none, it is done, or its queue,
      the connection or its allowance is full. A handler that always has another item is
      stopped by the ceilings. */
  ghost function PollLoop(k: Setup, s: State, call: u32, now: Time): State
    decreases Spare(s.box)
  {
    if call !in s.inflight then s
    else
      var r := s.inflight[call];
      if !s.box.HasRoom(call) then Stuck(k, s, call, r, now)
      else
        var s1 := Do(k, s, Update(call, r.(fullSince := 0)));
        var r1 := r.(fullSince := 0);
        if r.shape.CalleeStreams() && r.Starved() then s1
        else
          match r.handler.poll(r.polled)
          case Item(body) =>
            if !r.shape.CalleeStreams() then Do(k, s1, Finish(call, INTERNAL))
            else
              YieldFills(k, s, call, r1, body);
              PollLoop(k, Do(k, s1, Yield(call, body)), call, now)
          case _ => Conclude(k, s1, call, r1, r.handler.poll(r.polled))
  }

  /** The call has no room: it waits, and if it is its own queue that has been full for
      too long, it is given up. */
  ghost function Stuck(k: Setup, s: State, call: u32, r: Running, now: Time): State {
    if !s.box.FullFor(call) then s
    else
      var since := if r.fullSince == 0 then now else r.fullSince;
      var s1 := Do(k, s, Update(call, r.(fullSince := since)));
      if now - since >= k.config.queueFullLimit then Do(k, s1, Finish(call, RESOURCE_EXHAUSTED)) else s1
  }

  /** Any progress but an item. */
  ghost function Conclude(k: Setup, s: State, call: u32, r: Running, progress: Progress): State {
    match progress
    case Pending => Do(k, s, Update(call, r.(polled := r.polled + 1)))
    case Respond(body) =>
      if r.shape.CalleeStreams() then Do(k, s, Finish(call, INTERNAL))
      else Do(k, s, Answer(call, body))
    case End =>
      if !r.shape.CalleeStreams() then Do(k, s, Finish(call, INTERNAL))
      else Do(k, s, CloseOut(call))
    case Fail(status) => Do(k, s, Finish(call, if status.Some? then status.value else INTERNAL))
    case Item(_) => s
  }

  /** A yielded item takes one place of the connection. */
  lemma YieldFills(k: Setup, s: State, call: u32, r1: Running, body: Bytes)
    requires call in s.inflight && s.box.HasRoom(call)
    ensures var s1 := Do(k, s, Update(call, r1));
            && s1.box == s.box && call in s1.inflight && s1.inflight[call] == r1
            && Spare(Do(k, s1, Yield(call, body)).box) < Spare(s.box)
  {
  }

  ghost function Poll(k: Setup, s: State, call: u32, now: Time): State {
    PollLoop(k, CollectGrant(k, s, call), call, now)
  }

  // ---------------------------------------------------------------- receiving

  /** `failReceived`. */
  ghost function FailReceived(k: Setup, s: State, status: Status, m: Message): State {
    var call := m.Call();
    if call in s.inflight then Hear(k, s, Finish(call, status), m)
    else if call in s.pending then Hear(k, s, Abandon(call, status), m)
    else Hear(k, s, Stray(call, status), m)
  }

  ghost function OnRequest(k: Setup, s: State, frame: Outgoing, now: Time, env: Arrival): State {
    var call, m := frame.header.call, Frame(frame);
    if k.Own(call) then Hear(k, s, Stray(call, INVALID_ARGUMENT), m)
    else if call in s.inflight then Hear(k, s, Ignore(call), m)
    else if frame.messageID !in k.registry.byRequest || !k.registry.byRequest[frame.messageID].served then
      Hear(k, s, Stray(call, UNIMPLEMENTED), m)
    else if |s.inflight| >= k.config.maxPending then Hear(k, s, Stray(call, RESOURCE_EXHAUSTED), m)
    else
      var ctx := if frame.header.hasCtx then Meaning(frame.ctx) else Some(EMPTY_CTX);
      if ctx.None? then Hear(k, s, Stray(call, INVALID_ARGUMENT), m)
      else Welcome(k, s, frame, ctx.value, k.registry.byRequest[frame.messageID].about, now, env)
  }

  /** When an admitted call must be done: the caller's deadline, and for a unary method
      also the handler limit. */
  function LimitOf(k: Setup, shape: Shape, ctx: Ctx, now: Time): Time {
    var limit, own := DeadlineOf(ctx, now), now + k.config.handlerLimit;
    if shape.Unary? && (limit == 0 || own < limit) then own else limit
  }

  function RunningFor(k: Setup, about: Method, handler: Handler, ctx: Ctx, entered: nat, now: Time): Running {
    Running(handler, 0, 0, 0, about.CallerItemID(), about.replyID, about.shape, LimitOf(k, about.shape, ctx, now),
            if about.shape.Unary? then 0 else about.idleLimit, now, !about.shape.CallerStreams(), ctx.initialCredit,
            ctx.initialCredit != 0, 0, entered)
  }

  /** The part of `onRequest` behind the checks that involve no link. */
  ghost function Welcome(k: Setup, s: State, frame: Outgoing, ctx: Ctx, about: Method, now: Time, env: Arrival): State {
    var call, m := frame.header.call, Frame(frame);
    var p := PassLinks(env.verdicts, 0, s.links);
    var inflated := k.Inflate(frame.header, frame.body);
    if p.rejection.Some? then Hear(k, Do(k, s, Bounce(call, p.entered)), Stray(call, p.rejection.value), m)
    else if inflated.Err? then Hear(k, Do(k, s, Bounce(call, p.entered)), Stray(call, inflated.error), m)
    else if env.made.Err? then Hear(k, Do(k, s, Bounce(call, p.entered)), Stray(call, env.made.error), m)
    else
      var r := RunningFor(k, about, env.made.value, ctx, p.entered, now);
      Poll(k, Hear(k, s, Admit(call, r), m), call, now)
  }

  ghost function OnResponse(k: Setup, s: State, frame: Outgoing, body: Bytes): State {
    var call, m := frame.header.call, Frame(frame);
    if call !in s.pending then Hear(k, s, Ignore(call), m)
    else if s.pending[call].shape.CalleeStreams() || frame.messageID != s.pending[call].replyID then
      Hear(k, s, Settle(call, FailedOutcome(call, INVALID_ARGUMENT)), m)
    else Hear(k, s, Settle(call, Outcome(OutcomeKind.Response, call, body, None)), m)
  }

  ghost function OnError(k: Setup, s: State, frame: Outgoing, body: Bytes): State {
    var call, m := frame.header.call, Frame(frame);
    if call !in s.pending then Hear(k, s, Ignore(call), m)
    else
      var status := if frame.messageID == k.registry.errorID then DecodeStatus(body) else INVALID_ARGUMENT;
      Hear(k, s, Settle(call, FailedOutcome(call, status)), m)
  }

  ghost function OnItem(k: Setup, s: State, frame: Outgoing, body: Bytes, now: Time): State {
    var call, m := frame.header.call, Frame(frame);
    if call in s.inflight then OnCallerItem(k, s, frame, body, now)
    else if call !in s.pending then Hear(k, s, Ignore(call), m)
    else if !s.pending[call].shape.CalleeStreams() || frame.messageID != s.pending[call].replyID then
      Hear(k, s, Abandon(call, INVALID_ARGUMENT), m)
    else Hear(k, s, TellItem(call, body), m)
  }

  ghost function OnCallerItem(k: Setup, s: State, frame: Outgoing, body: Bytes, now: Time): State
    requires frame.header.call in s.inflight
  {
    var call, m := frame.header.call, Frame(frame);
    var r := s.inflight[call];
    if !r.shape.CallerStreams() then Hear(k, s, Finish(call, INVALID_ARGUMENT), m)
    else if r.inboundClosed then Hear(k, s, Update(call, r.(lastHeard := now)), m)
    else if frame.messageID != r.itemID then Hear(k, s, Finish(call, INVALID_ARGUMENT), m)
    else if r.handler.item(r.delivered).Some? then Hear(k, s, Finish(call, r.handler.item(r.delivered).value), m)
    else Poll(k, Hear(k, s, Deliver(call, body, now), m), call, now)
  }

  ghost function OnEnd(k: Setup, s: State, frame: Outgoing, now: Time): State {
    var call, m := frame.header.call, Frame(frame);
    if call in s.inflight then OnCallerEnd(k, s, frame, now)
    else if call !in s.pending then Hear(k, s, Ignore(call), m)
    else if frame.messageID != k.registry.voidID || !s.pending[call].shape.CalleeStreams() then
      Hear(k, s, Abandon(call, INVALID_ARGUMENT), m)
    else Hear(k, s, Settle(call, Outcome(OutcomeKind.End, call, [], None)), m)
  }

  ghost function OnCallerEnd(k: Setup, s: State, frame: Outgoing, now: Time): State
    requires frame.header.call in s.inflight
  {
    var call, m := frame.header.call, Frame(frame);
    var r := s.inflight[call];
    if frame.messageID != k.registry.voidID || !r.shape.CallerStreams() then
      Hear(k, s, Finish(call, INVALID_ARGUMENT), m)
    else if r.inboundClosed then Hear(k, s, Update(call, r.(lastHeard := now)), m)
    else if r.handler.close.Some? then Hear(k, s, Finish(call, r.handler.close.value), m)
    else Poll(k, Hear(k, s, Update(call, r.(lastHeard := now, inboundClosed := true)), m), call, now)
  }

  ghost function OnCancel(k: Setup, s: State, frame: Outgoing): State {
    var call, m := frame.header.call, Frame(frame);
    if call !in s.inflight then Hear(k, s, Ignore(call), m)
    else Hear(k, s, Finish(call, if frame.messageID == k.registry.voidID then CANCELLED else INVALID_ARGUMENT), m)
  }

  ghost function OnCredit(k: Setup, s: State, frame: Outgoing, body: Bytes, now: Time): State {
    var call, m := frame.header.call, Frame(frame);
    if k.registry.creditID.None? || (call !in s.inflight && call !in s.pending) then Hear(k, s, Ignore(call), m)
    else if frame.messageID != k.registry.creditID.value then
      if call in s.inflight then Hear(k, s, Finish(call, INVALID_ARGUMENT), m)
      else Hear(k, s, Abandon(call, INVALID_ARGUMENT), m)
    else Hear(k, s, Allow(call, ReadCredit(body), now), m)
  }

  /** A decoded frame at a ready core. */
  ghost function OnFrame(k: Setup, s: State, frame: Outgoing, now: Time, env: Arrival): State {
    if frame.header.kind == Request then OnRequest(k, s, frame, now, env)
    else
      match k.Inflate(frame.header, frame.body)
      case Err(status) => FailReceived(k, s, status, Frame(frame))
      case Ok(body) =>
        match frame.header.kind
        case Request => s
        case Response => OnResponse(k, s, frame, body)
        case Error => OnError(k, s, frame, body)
        case Item => OnItem(k, s, frame, body, now)
        case End => OnEnd(k, s, frame, now)
        case Cancel => OnCancel(k, s, frame)
        case Credit => OnCredit(k, s, frame, body, now)
  }

  datatype Handled = Handled(state: State, consumed: bool)

  ghost function OnMessage(k: Setup, s: State, messageID: u32, payload: Bytes, now: Time, env: Arrival): Handled {
    if messageID in k.registry.plain then Handled(s, false)
    else
      match Decode(payload, k.config.maxCtxLen)
      case Err(_) =>
        if messageID in k.registry.owned && |payload| >= HEADER_LEN then
          Handled(FailReceived(k, s, INTERNAL, Garbled(ReadCallID(payload))), true)
        else Handled(s, true)
      case Ok(p) =>
        var frame := Outgoing(messageID, p.header, p.ctx, p.body);
        if s.ready then Handled(OnFrame(k, s, frame, now, env), true)
        else Handled(Hear(k, s, Ignore(frame.header.call), Frame(frame)), true)
  }

  // --------------------------------------------------------------------- time

  predicate Past(expiry: Time, now: Time) { expiry != 0 && expiry <= now }

  /** `expirePending` over the remaining ids. */
  ghost function ExpirePending(k: Setup, s: State, ids: seq<u32>, now: Time): State
    decreases |ids|
  {
    if ids == [] then s
    else
      var call := ids[0];
      var s1 := if call in s.pending && Past(s.pending[call].deadline, now)
                then Do(k, s, Abandon(call, DEADLINE_EXCEEDED)) else s;
      ExpirePending(k, s1, ids[1..], now)
  }

  ghost function ExpireInflight(k: Setup, s: State, ids: seq<u32>, now: Time): State
    decreases |ids|
  {
    if ids == [] then s
    else
      var call := ids[0];
      var s1 := if call in s.inflight && Past(s.inflight[call].NextExpiry(), now)
                then Do(k, s, Finish(call, DEADLINE_EXCEEDED)) else s;
      ExpireInflight(k, s1, ids[1..], now)
  }

  ghost function PollAll(k: Setup, s: State, ids: seq<u32>, now: Time): State
    decreases |ids|
  {
    if ids == [] then s else PollAll(k, Poll(k, s, ids[0], now), ids[1..], now)
  }

  ghost function Tick(k: Setup, s: State, now: Time): State {
    var s1 := ExpirePending(k, s, SortedKeys(s.pending.Keys), now);
    var s2 := ExpireInflight(k, s1, SortedKeys(s1.inflight.Keys), now);
    PollAll(k, s2, SortedKeys(s2.inflight.Keys), now)
  }

  // ------------------------------------------------------------- session's end

  ghost function SettleAll(k: Setup, s: State, ids: seq<u32>): State
    decreases |ids|
  {
    if ids == [] then s
    else
      var s1 := if ids[0] in s.pending then Do(k, s, Settle(ids[0], FailedOutcome(ids[0], UNAVAILABLE))) else s;
      SettleAll(k, s1, ids[1..])
  }

  ghost function LeaveAll(k: Setup, s: State, ids: seq<u32>): State
    decreases |ids|
  {
    if ids == [] then s
    else
      var s1 := if ids[0] in s.inflight then Do(k, s, Leave(ids[0])) else s;
      LeaveAll(k, s1, ids[1..])
  }

  ghost function OnSessionEnd(k: Setup, s: State): State {
    if s.finished then s
    else
      var s1 := SettleAll(k, s, SortedKeys(s.pending.Keys));
      Do(k, LeaveAll(k, s1, SortedKeys(s1.inflight.Keys)), EndSession)
  }
}
