/** What a received message comes to, kind by kind, on the bytes it arrives as. */
module MessageEffects {
  import opened Basics
  import opened Wire
  import opened OutboxModel
  import opened CtxModel
  import opened Session
  import opened CoreModel
  import opened CoreOps
  import opened Chains
  import opened Effects
  import opened PollEffects
  import CallEffects

  /** A ready core gets these bytes, which decode to this frame of its protocol. */
  ghost predicate Arrives(k: Setup, s: State, f: Outgoing) {
    && Reachable(k, s) && s.ready
    && f.messageID !in k.registry.plain && Sendable(f.header, f.ctx, k.config.maxCtxLen)
  }

  /** `OnMessage` on the bytes of a frame. */
  ghost function Arrived(k: Setup, s: State, f: Outgoing, now: Time, env: Arrival): Handled {
    OnMessage(k, s, f.messageID, Encode(f.header, f.ctx, f.body), now, env)
  }

  /** What a frame's body reads as: itself, or what it inflates to. */
  predicate ReadsAs(k: Setup, f: Outgoing, body: Bytes) {
    if f.header.compressed then
      k.compressor.Some? && k.compressor.value.decompress(f.body, k.config.maxBodyLen) == Body(body)
    else body == f.body
  }

  /** It cannot be read, and why. */
  predicate Unreadable(k: Setup, f: Outgoing, status: Status) {
    && f.header.compressed
    && if k.compressor.None? then status == INTERNAL
       else
         var e := k.compressor.value.decompress(f.body, k.config.maxBodyLen);
         !e.Body? && status == if e.TooLarge? then RESOURCE_EXHAUSTED else INTERNAL
  }

  lemma InflateReads(k: Setup, f: Outgoing)
    ensures match k.Inflate(f.header, f.body)
            case Ok(body) => ReadsAs(k, f, body) && forall status :: !Unreadable(k, f, status)
            case Err(status) => Unreadable(k, f, status) && forall body :: !ReadsAs(k, f, body)
    ensures forall body :: ReadsAs(k, f, body) ==> k.Inflate(f.header, f.body) == Ok(body)
    ensures forall status :: Unreadable(k, f, status) ==> k.Inflate(f.header, f.body) == Err(status)
  {
  }

  lemma ArrivedIs(k: Setup, s: State, f: Outgoing, now: Time, env: Arrival)
    requires Arrives(k, s, f)
    ensures Arrived(k, s, f, now, env) == Handled(OnFrame(k, s, f, now, env), true)
  {
    hide Reachable, OnFrame, Encode, Decode;
    DecodeEncode(f.header, f.ctx, f.body, k.config.maxCtxLen);
  }

  /** A call, live on either side or not, is failed by what was received under it. */
  ghost predicate Spoils(k: Setup, s: State, t: State, c: u32, status: Status) {
    if c in s.inflight then Failing(k, s, t, c, status)
    else if c in s.pending then GivenUp(k, s, t, c, status)
    else TurnedAway(k, s, t, c, status, None)
  }

  lemma FailReceivedSpoils(k: Setup, s: State, m: Message, status: Status)
    requires Reachable(k, s)
    ensures Spoils(k, s, FailReceived(k, s, status, m), m.Call(), status)
  {
    hide Reachable, Apply, Failing, GivenUp, TurnedAway;
    var c := m.Call();
    Placed(k, s, c);
    var t := FailReceived(k, s, status, m);
    if c in s.inflight {
      FinishDone(k, s, t, c, status, Some(m));
    } else if c in s.pending {
      AbandonDone(k, s, t, c, status, Some(m));
    } else {
      StrayDone(k, s, t, c, status, Some(m));
    }
  }

  // ------------------------------------------------------------ not a live frame

  /** A message of a plain protocol is left to others. One that does not decode fails the
      call it names, if it is of this protocol and long enough to name one; else it does
      nothing. One that decodes does nothing before the core is ready. */
  lemma OtherMessages(k: Setup, s: State, messageID: u32, payload: Bytes, now: Time, env: Arrival)
    requires Reachable(k, s)
    requires messageID in k.registry.plain || Decode(payload, k.config.maxCtxLen).Err? || !s.ready
    ensures var h := OnMessage(k, s, messageID, payload, now, env);
            && (h.consumed <==> messageID !in k.registry.plain)
            && if messageID !in k.registry.plain && Decode(payload, k.config.maxCtxLen).Err?
                  && messageID in k.registry.owned && |payload| >= HEADER_LEN
               then Spoils(k, s, h.state, ReadCallID(payload), INTERNAL)
               else Unmoved(s, h.state)
  {
    hide Reachable, Apply, FailReceived, Spoils, OnFrame, Decode;
    if messageID !in k.registry.plain {
      match Decode(payload, k.config.maxCtxLen) {
        case Err(_) =>
          if messageID in k.registry.owned && |payload| >= HEADER_LEN {
            FailReceivedSpoils(k, s, Garbled(ReadCallID(payload)), INTERNAL);
          }
        case Ok(p) =>
          var f := Outgoing(messageID, p.header, p.ctx, p.body);
          IgnoreDone(k, s, OnMessage(k, s, messageID, payload, now, env).state, p.header.call, Some(Frame(f)));
      }
    }
  }

  /** A message is left to others if and only if it is of a plain protocol. */
  lemma ConsumedExactly(k: Setup, s: State, messageID: u32, payload: Bytes, now: Time, env: Arrival)
    ensures OnMessage(k, s, messageID, payload, now, env).consumed <==> messageID !in k.registry.plain
  {
    hide OnFrame, FailReceived, Apply, Decode;
  }

  /** A frame other than a REQUEST whose body cannot be read fails its call. */
  lemma UnreadableHeard(k: Setup, s: State, f: Outgoing, now: Time, env: Arrival, status: Status)
    requires Arrives(k, s, f) && f.header.kind != Request && Unreadable(k, f, status)
    ensures var h := Arrived(k, s, f, now, env); h.consumed && Spoils(k, s, h.state, f.header.call, status)
  {
    hide Reachable, Apply, Arrived, Spoils, FailReceived;
    ArrivedIs(k, s, f, now, env);
    InflateReads(k, f);
    FailReceivedSpoils(k, s, Frame(f), status);
  }

  // ----------------------------------------------------- frames without a stream

  /** A CANCEL ends a running call as cancelled, or as invalid if it is not the void message;
      under any other id it does nothing. */
  lemma CancelHeard(k: Setup, s: State, f: Outgoing, now: Time, env: Arrival, body: Bytes)
    requires Arrives(k, s, f) && f.header.kind == Cancel && ReadsAs(k, f, body)
    ensures var t, c := Arrived(k, s, f, now, env).state, f.header.call;
            if c !in s.inflight then Unmoved(s, t)
            else Failing(k, s, t, c, if f.messageID == k.registry.voidID then CANCELLED else INVALID_ARGUMENT)
  {
    hide Reachable, Apply, Arrived, Failing, Unmoved, ReadsAs;
    ArrivedIs(k, s, f, now, env);
    InflateReads(k, f);
    var t, c, m := OnCancel(k, s, f), f.header.call, Some(Frame(f));
    Placed(k, s, c);
    if c in s.inflight {
      FinishDone(k, s, t, c, if f.messageID == k.registry.voidID then CANCELLED else INVALID_ARGUMENT, m);
    } else {
      IgnoreDone(k, s, t, c, m);
    }
  }

  /** A RESPONSE under a waiting call ends it: well, with the body, if it is the reply of a
      call that carries one; as invalid otherwise. */
  lemma ResponseHeard(k: Setup, s: State, f: Outgoing, now: Time, env: Arrival, body: Bytes)
    requires Arrives(k, s, f) && f.header.kind == Kind.Response && ReadsAs(k, f, body)
    ensures var t, c := Arrived(k, s, f, now, env).state, f.header.call;
            if c !in s.pending then Unmoved(s, t)
            else if s.pending[c].shape.CalleeStreams() || f.messageID != s.pending[c].replyID then
              Over(s, t, c, Outcome(Failed, c, [], Some(INVALID_ARGUMENT)), [])
            else Over(s, t, c, Outcome(OutcomeKind.Response, c, body, None), [])
  {
    hide Reachable, Apply, Arrived, Over, Unmoved, ReadsAs;
    ArrivedIs(k, s, f, now, env);
    InflateReads(k, f);
    var t, c, m := OnResponse(k, s, f, body), f.header.call, Some(Frame(f));
    Placed(k, s, c);
    if c !in s.pending {
      IgnoreDone(k, s, t, c, m);
    } else if s.pending[c].shape.CalleeStreams() || f.messageID != s.pending[c].replyID {
      SettleDone(k, s, t, c, FailedOutcome(c, INVALID_ARGUMENT), m);
    } else {
      SettleDone(k, s, t, c, Outcome(OutcomeKind.Response, c, body, None), m);
    }
  }

  /** An ERROR under a waiting call ends it with the status it carries, if it is the error
      message; as invalid otherwise. */
  lemma ErrorHeard(k: Setup, s: State, f: Outgoing, now: Time, env: Arrival, body: Bytes)
    requires Arrives(k, s, f) && f.header.kind == Kind.Error && ReadsAs(k, f, body)
    ensures var t, c := Arrived(k, s, f, now, env).state, f.header.call;
            if c !in s.pending then Unmoved(s, t)
            else
              var status := if f.messageID == k.registry.errorID then DecodeStatus(body) else INVALID_ARGUMENT;
              Over(s, t, c, Outcome(Failed, c, [], Some(status)), [])
  {
    hide Reachable, Apply, Arrived, Over, Unmoved, ReadsAs, DecodeStatus;
    ArrivedIs(k, s, f, now, env);
    InflateReads(k, f);
    var t, c, m := OnError(k, s, f, body), f.header.call, Some(Frame(f));
    Placed(k, s, c);
    if c !in s.pending {
      IgnoreDone(k, s, t, c, m);
    } else {
      var status := if f.messageID == k.registry.errorID then DecodeStatus(body) else INVALID_ARGUMENT;
      SettleDone(k, s, t, c, FailedOutcome(c, status), m);
    }
  }

  /** The items a CREDIT body grants: its first word, or none if it is cut. */
  function ItemsIn(body: Bytes): u32 { if |body| < 4 then 0 else Word(body) }

  /** The CREDIT that a drain makes of waiting credit grants just that, under its id. */
  lemma CreditFrameGrants(call: u32, waiting: WaitingCredit)
    ensures var f := CreditFrame(call, waiting);
            && f.messageID == waiting.messageID && f.header == Header(Kind.Credit, call, false, false) && f.ctx == []
            && ItemsIn(f.body) == waiting.items && |f.body| == 4
  {
    CreditRoundTrip(waiting.items);
  }

  /** More credit for a live call, held at what a word holds; from now on credit counts. */
  ghost predicate CreditAdded(s: State, t: State, c: u32, items: u32, now: Time) {
    if c in s.inflight then
      var r := s.inflight[c];
      var more := Min(r.credit as int + items as int, U32_MAX) as u32;
      Recorded(s, t, c, Lookup(s.pending, c), Some(r.(lastHeard := now, established := true, credit := more)))
    else
      && c in s.pending
      && var w := s.pending[c];
         Recorded(s, t, c,
              Some(w.(established := true, credit := Min(w.credit as int + items as int, U32_MAX) as u32)), None)
  }

  /** A CREDIT adds to the credit of a live call, if it is the credit message; any other
      ends the call as invalid. It does nothing to a call that is not live, or where credit
      is not in the protocol. */
  lemma CreditHeard(k: Setup, s: State, f: Outgoing, now: Time, env: Arrival, body: Bytes)
    requires Arrives(k, s, f) && f.header.kind == Kind.Credit && ReadsAs(k, f, body)
    ensures var t, c := Arrived(k, s, f, now, env).state, f.header.call;
            if k.registry.creditID.None? || (c !in s.inflight && c !in s.pending) then Unmoved(s, t)
            else if k.registry.creditID == Some(f.messageID) then CreditAdded(s, t, c, ItemsIn(body), now)
            else Spoils(k, s, t, c, INVALID_ARGUMENT)
  {
    hide Reachable, Apply, Arrived, Failing, GivenUp, TurnedAway, Unmoved, ReadsAs, Recorded;
    ArrivedIs(k, s, f, now, env);
    InflateReads(k, f);
    var t, c, m := OnCredit(k, s, f, body, now), f.header.call, Some(Frame(f));
    Placed(k, s, c);
    if k.registry.creditID.None? || (c !in s.inflight && c !in s.pending) {
      IgnoreDone(k, s, t, c, m);
    } else if f.messageID == k.registry.creditID.value {
      AllowDone(k, s, t, c, ReadCredit(body), now, m);
    } else if c in s.inflight {
      FinishDone(k, s, t, c, INVALID_ARGUMENT, m);
    } else {
      AbandonDone(k, s, t, c, INVALID_ARGUMENT, m);
    }
  }

  // ------------------------------------------------------------------ streams

  /** The call is kept with this record, and then served. */
  ghost predicate ServedAs(k: Setup, s: State, t: State, c: u32, r: Running, now: Time) {
    exists m :: Recorded(s, m, c, Lookup(s.pending, c), Some(r)) && Served(k, m, t, c, now)
  }

  lemma PollServes(k: Setup, s: State, m: State, c: u32, r: Running, now: Time)
    requires Fit(k, s, c) && c in s.inflight && r.entered == s.inflight[c].entered
    requires Recorded(s, m, c, Lookup(s.pending, c), Some(r))
    ensures ServedAs(k, s, Poll(k, m, c, now), c, r, now)
  {
    hide Poll, Served;
    NowFit(k, s, m, c);
    PollExactly(k, m, c, now);
  }

  /** An ITEM for a running call. It ends the call as invalid if the caller does not stream
      or the item is not of its method, and with the handler's status if that refuses it.
      After the end of the stream it only counts as heard. Else it is delivered, and the
      call is served. */
  ghost predicate ItemTaken(k: Setup, s: State, t: State, f: Outgoing, now: Time)
    requires f.header.call in s.inflight
  {
    var c := f.header.call;
    var r := s.inflight[c];
    if !r.shape.CallerStreams() then Failing(k, s, t, c, INVALID_ARGUMENT)
    else if r.inboundClosed then Recorded(s, t, c, Lookup(s.pending, c), Some(r.(lastHeard := now)))
    else if f.messageID != r.itemID then Failing(k, s, t, c, INVALID_ARGUMENT)
    else
      match r.handler.item(r.delivered)
      case Some(refusal) => Failing(k, s, t, c, refusal)
      case None => ServedAs(k, s, t, c, r.(lastHeard := now, delivered := r.delivered + 1), now)
  }

  lemma CallerItemTaken(k: Setup, s: State, f: Outgoing, body: Bytes, now: Time)
    requires f.header.call in s.inflight && Fit(k, s, f.header.call)
    ensures ItemTaken(k, s, OnCallerItem(k, s, f, body, now), f, now)
  {
    hide Apply, Failing, Recorded, Poll, ServedAs;
    var t, c, m := OnCallerItem(k, s, f, body, now), f.header.call, Some(Frame(f));
    var r := s.inflight[c];
    if !r.shape.CallerStreams() {
      FinishDone(k, s, t, c, INVALID_ARGUMENT, m);
    } else if r.inboundClosed {
      UpdateDone(k, s, t, c, r.(lastHeard := now), m);
    } else if f.messageID != r.itemID {
      FinishDone(k, s, t, c, INVALID_ARGUMENT, m);
    } else if r.handler.item(r.delivered).Some? {
      FinishDone(k, s, t, c, r.handler.item(r.delivered).value, m);
    } else {
      var u := Hear(k, s, Deliver(c, body, now), Frame(f));
      DeliverDone(k, s, u, c, body, now, m);
      PollServes(k, s, u, c, r.(lastHeard := now, delivered := r.delivered + 1), now);
    }
  }

  /** An ITEM for a waiting call is told to its owner, if it is the reply of a call whose
      callee streams; any other gives the call up. */
  ghost predicate ItemTold(k: Setup, s: State, t: State, f: Outgoing, body: Bytes)
    requires f.header.call in s.pending
  {
    var c := f.header.call;
    if !s.pending[c].shape.CalleeStreams() || f.messageID != s.pending[c].replyID then
      GivenUp(k, s, t, c, INVALID_ARGUMENT)
    else
      && Recorded(s, t.(outcomes := s.outcomes), c, Lookup(s.pending, c), Lookup(s.inflight, c))
      && t.outcomes == s.outcomes + [Outcome(OutcomeKind.Item, c, body, None)]
  }

  lemma ItemHeard(k: Setup, s: State, f: Outgoing, now: Time, env: Arrival, body: Bytes)
    requires Arrives(k, s, f) && f.header.kind == Kind.Item && ReadsAs(k, f, body)
    ensures var t, c := Arrived(k, s, f, now, env).state, f.header.call;
            if c in s.inflight then ItemTaken(k, s, t, f, now)
            else if c in s.pending then ItemTold(k, s, t, f, body)
            else Unmoved(s, t)
  {
    hide Reachable, Apply, Arrived, GivenUp, ItemTaken, Unmoved, ReadsAs, Recorded, OnCallerItem;
    ArrivedIs(k, s, f, now, env);
    InflateReads(k, f);
    var t, c, m := OnItem(k, s, f, body, now), f.header.call, Some(Frame(f));
    Placed(k, s, c);
    if c in s.inflight {
      CallerItemTaken(k, s, f, body, now);
    } else if c !in s.pending {
      IgnoreDone(k, s, t, c, m);
    } else if !s.pending[c].shape.CalleeStreams() || f.messageID != s.pending[c].replyID {
      AbandonDone(k, s, t, c, INVALID_ARGUMENT, m);
    } else {
      TellItemDone(k, s, t, c, body, m);
    }
  }

  /** An END for a running call. It ends the call as invalid if it is not the void message
      or the caller does not stream, and with the handler's status if that refuses it. A
      second one only counts as heard. Else the stream is closed, and the call is served. */
  ghost predicate EndTaken(k: Setup, s: State, t: State, f: Outgoing, now: Time)
    requires f.header.call in s.inflight
  {
    var c := f.header.call;
    var r := s.inflight[c];
    if f.messageID != k.registry.voidID || !r.shape.CallerStreams() then Failing(k, s, t, c, INVALID_ARGUMENT)
    else if r.inboundClosed then Recorded(s, t, c, Lookup(s.pending, c), Some(r.(lastHeard := now)))
    else
      match r.handler.close
      case Some(refusal) => Failing(k, s, t, c, refusal)
      case None => ServedAs(k, s, t, c, r.(lastHeard := now, inboundClosed := true), now)
  }

  lemma CallerEndTaken(k: Setup, s: State, f: Outgoing, now: Time)
    requires f.header.call in s.inflight && Fit(k, s, f.header.call)
    ensures EndTaken(k, s, OnCallerEnd(k, s, f, now), f, now)
  {
    hide Apply, Failing, Recorded, Poll, ServedAs;
    var t, c, m := OnCallerEnd(k, s, f, now), f.header.call, Some(Frame(f));
    var r := s.inflight[c];
    if f.messageID != k.registry.voidID || !r.shape.CallerStreams() {
      FinishDone(k, s, t, c, INVALID_ARGUMENT, m);
    } else if r.inboundClosed {
      UpdateDone(k, s, t, c, r.(lastHeard := now), m);
    } else if r.handler.close.Some? {
      FinishDone(k, s, t, c, r.handler.close.value, m);
    } else {
      var r1 := r.(lastHeard := now, inboundClosed := true);
      var u := Hear(k, s, Update(c, r1), Frame(f));
      UpdateDone(k, s, u, c, r1, m);
      PollServes(k, s, u, c, r1, now);
    }
  }

  /** An END for a waiting call ends it well, if it is the void message and the callee
      streams; any other gives the call up. */
  lemma EndHeard(k: Setup, s: State, f: Outgoing, now: Time, env: Arrival, body: Bytes)
    requires Arrives(k, s, f) && f.header.kind == Kind.End && ReadsAs(k, f, body)
    ensures var t, c := Arrived(k, s, f, now, env).state, f.header.call;
            if c in s.inflight then EndTaken(k, s, t, f, now)
            else if c !in s.pending then Unmoved(s, t)
            else if f.messageID == k.registry.voidID && s.pending[c].shape.CalleeStreams() then
              Over(s, t, c, Outcome(OutcomeKind.End, c, [], None), [])
            else GivenUp(k, s, t, c, INVALID_ARGUMENT)
  {
    hide Reachable, Apply, Arrived, GivenUp, Over, EndTaken, Unmoved, ReadsAs, OnCallerEnd;
    ArrivedIs(k, s, f, now, env);
    InflateReads(k, f);
    var t, c, m := OnEnd(k, s, f, now), f.header.call, Some(Frame(f));
    Placed(k, s, c);
    if c in s.inflight {
      CallerEndTaken(k, s, f, now);
    } else if c !in s.pending {
      IgnoreDone(k, s, t, c, m);
    } else if f.messageID != k.registry.voidID || !s.pending[c].shape.CalleeStreams() {
      AbandonDone(k, s, t, c, INVALID_ARGUMENT, m);
    } else {
      SettleDone(k, s, t, c, Outcome(OutcomeKind.End, c, [], None), m);
    }
  }

  // ----------------------------------------------------------------- admission

  /** What a REQUEST's ctx block means; no block means no ctx. */
  function CtxIn(f: Outgoing): Option<Ctx> { if f.header.hasCtx then Meaning(f.ctx) else Some(EMPTY_CTX) }

  /** When a call must be done: at its ctx's deadline, and if it is unary no later than the
      handler limit allows. */
  function DoneBy(k: Setup, shape: Shape, ctx: Ctx, now: Time): Time {
    var until, own := CallEffects.Until(ctx, now), now + k.config.handlerLimit;
    if !shape.Unary? then until else if until == 0 then own else Min(until, own)
  }

  /** The record of a call just admitted. */
  ghost predicate Admitted(k: Setup, r: Running, about: Method, handler: Handler, ctx: Ctx, now: Time, links: nat) {
    && r.handler == handler && r.polled == 0 && r.delivered == 0 && r.asked == 0
    && r.replyID == about.replyID && r.shape == about.shape
    && r.itemID == (if about.requestItem.Some? then about.requestItem.value else about.requestID)
    && r.limit == DoneBy(k, about.shape, ctx, now)
    && r.idleLimit == (if about.shape.Unary? then 0 else about.idleLimit) && r.lastHeard == now && r.fullSince == 0
    && (r.inboundClosed <==> !about.shape.CallerStreams())
    && r.credit == ctx.initialCredit && (r.established <==> ctx.initialCredit != 0) && r.entered == links
  }

  /** A REQUEST is served: its record is made, all links are entered, and it is served. */
  ghost predicate Begun(k: Setup, s: State, t: State, f: Outgoing, ctx: Ctx, now: Time, env: Arrival)
    requires f.messageID in k.registry.byRequest && env.made.Ok?
  {
    var c, about := f.header.call, k.registry.byRequest[f.messageID].about;
    exists m: State, r: Running ::
      && Admitted(k, r, about, env.made.value, ctx, now, s.links)
      && Recorded(s, m.(visits := s.visits), c, Lookup(s.pending, c), Some(r)) && m.visits == s.visits + [In(s.links)]
      && Served(k, m, t, c, now)
  }

  /** What becomes of a REQUEST. It is turned away, in this order, if its id is of this
      side's parity, if its method is not served, if too many calls are in flight, if its ctx
      means nothing, by the first link that rejects it, if its body cannot be read, or if the
      factory makes no handler; links entered by then are unwound. A REQUEST under an id in
      flight is ignored. Else it is served. */
  ghost predicate RequestMet(k: Setup, s: State, t: State, f: Outgoing, now: Time, env: Arrival) {
    var c := f.header.call;
    if k.Own(c) then TurnedAway(k, s, t, c, INVALID_ARGUMENT, None)
    else if c in s.inflight then Unmoved(s, t)
    else if f.messageID !in k.registry.byRequest || !k.registry.byRequest[f.messageID].served then
      TurnedAway(k, s, t, c, UNIMPLEMENTED, None)
    else if |s.inflight| >= k.config.maxPending then TurnedAway(k, s, t, c, RESOURCE_EXHAUSTED, None)
    else
      match CtxIn(f)
      case None => TurnedAway(k, s, t, c, INVALID_ARGUMENT, None)
      case Some(ctx) =>
        if !CallEffects.AllPass(env.verdicts, s.links) then
          exists i :: CallEffects.RejectsAt(env.verdicts, s.links, i)
                      && TurnedAway(k, s, t, c, env.verdicts(i).value, Some(i))
        else if exists status :: Unreadable(k, f, status) then
          exists status :: Unreadable(k, f, status) && TurnedAway(k, s, t, c, status, Some(s.links))
        else if env.made.Err? then TurnedAway(k, s, t, c, env.made.error, Some(s.links))
        else Begun(k, s, t, f, ctx, now, env)
  }

  lemma AdmitBegins(k: Setup, s: State, f: Outgoing, ctx: Ctx, now: Time, env: Arrival)
    requires Fit(k, s, f.header.call) && f.messageID in k.registry.byRequest && env.made.Ok?
    ensures var about := k.registry.byRequest[f.messageID].about;
            var r := RunningFor(k, about, env.made.value, ctx, s.links, now);
            Begun(k, s, Poll(k, Hear(k, s, Admit(f.header.call, r), Frame(f)), f.header.call, now), f, ctx, now, env)
  {
    hide Apply, Poll, Served, Recorded;
    var c, about := f.header.call, k.registry.byRequest[f.messageID].about;
    var r := RunningFor(k, about, env.made.value, ctx, s.links, now);
    var m := Hear(k, s, Admit(c, r), Frame(f));
    AdmitDone(k, s, m, c, r, Some(Frame(f)));
    AdmittedFits(k, s, m, c, r);
    PollExactly(k, m, c, now);
    assert Admitted(k, r, about, env.made.value, ctx, now, s.links);
  }

  lemma AdmittedFits(k: Setup, s: State, m: State, c: u32, r: Running)
    requires Fit(k, s, c) && r.entered <= s.links
    requires Recorded(s, m.(visits := s.visits), c, Lookup(s.pending, c), Some(r))
    ensures Fit(k, m, c) && c in m.inflight
  {
  }

  lemma WelcomeMeets(k: Setup, s: State, f: Outgoing, ctx: Ctx, now: Time, env: Arrival)
    requires Fit(k, s, f.header.call) && f.messageID in k.registry.byRequest && CtxIn(f) == Some(ctx)
    requires !k.Own(f.header.call) && f.header.call !in s.inflight && k.registry.byRequest[f.messageID].served
    requires |s.inflight| < k.config.maxPending
    ensures RequestMet(k, s, Welcome(k, s, f, ctx, k.registry.byRequest[f.messageID].about, now, env), f, now, env)
  {
    hide Apply, Poll, TurnedAway, Begun, CtxIn, Unreadable, ReadsAs, RunningFor, Fit, Setup.Inflate, Setup.Own;
    CallEffects.PassExactly(env.verdicts, 0, s.links);
    InflateReads(k, f);
    var c, p, m := f.header.call, PassLinks(env.verdicts, 0, s.links), Some(Frame(f));
    var u := Do(k, s, Bounce(c, p.entered));
    var t := Welcome(k, s, f, ctx, k.registry.byRequest[f.messageID].about, now, env);
    var inflated := k.Inflate(f.header, f.body);
    if p.rejection.Some? {
      BounceThenStray(k, s, u, t, c, p.entered, p.rejection.value, m);
    } else if inflated.Err? {
      BounceThenStray(k, s, u, t, c, p.entered, inflated.error, m);
    } else if env.made.Err? {
      BounceThenStray(k, s, u, t, c, p.entered, env.made.error, m);
    } else {
      AdmitBegins(k, s, f, ctx, now, env);
    }
  }

  lemma RequestHeard(k: Setup, s: State, f: Outgoing, now: Time, env: Arrival)
    requires Arrives(k, s, f) && f.header.kind == Request
    ensures RequestMet(k, s, Arrived(k, s, f, now, env).state, f, now, env)
  {
    hide Reachable, Apply, Arrived, TurnedAway, Begun, Welcome, Meaning, Setup.Own, Unmoved, Fit;
    ArrivedIs(k, s, f, now, env);
    var t, c, m := OnRequest(k, s, f, now, env), f.header.call, Some(Frame(f));
    Placed(k, s, c);
    if k.Own(c) {
      StrayDone(k, s, t, c, INVALID_ARGUMENT, m);
    } else if c in s.inflight {
      IgnoreDone(k, s, t, c, m);
    } else if f.messageID !in k.registry.byRequest || !k.registry.byRequest[f.messageID].served {
      StrayDone(k, s, t, c, UNIMPLEMENTED, m);
    } else if |s.inflight| >= k.config.maxPending {
      StrayDone(k, s, t, c, RESOURCE_EXHAUSTED, m);
    } else if CtxIn(f).None? {
      StrayDone(k, s, t, c, INVALID_ARGUMENT, m);
    } else {
      WelcomeMeets(k, s, f, CtxIn(f).value, now, env);
    }
  }
}
