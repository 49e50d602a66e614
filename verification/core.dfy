/** `Core` (core.go), the object: its tables, outbox and outcomes change in place, and
    every method is proved to do what `CoreOps` says, step by step. */
module CoreObject {
  import opened Basics
  import opened Wire
  import opened OutboxModel
  import opened OutboxObject
  import opened CallIds
  import opened CtxModel
  import opened CtxCodec
  import opened Session
  import opened CoreModel
  import opened CoreOps
  import opened Chains
  import opened Lawful
  import opened Deadlines

  /** `Chain` (interceptor.go), over links that answer as given. */
  class Chain {
    var links: nat
    ghost var visits: seq<Visit>

    constructor ()
      ensures links == 0 && visits == []
    {
      links, visits := 0, [];
    }

    method Add()
      modifies this
      ensures links == old(links) + 1 && visits == old(visits)
    {
      links := links + 1;
    }

    /** `Outgoing` and `Inbound`: they differ only in what they ask of a link. */
    method Pass(verdicts: Verdicts) returns (p: Passage)
      modifies this`visits
      ensures p == PassLinks(verdicts, 0, links)
      ensures visits == old(visits) + [In(p.entered)]
    {
      var index := 0;
      while index < links
        invariant index <= links
        invariant PassLinks(verdicts, 0, links) == PassLinks(verdicts, index, links)
      {
        var rejection := verdicts(index);
        if rejection.Some? {
          visits := visits + [In(index)];
          return Passage(index, rejection);
        }
        index := index + 1;
      }
      visits := visits + [In(links)];
      return Passage(links, None);
    }

    method Outbound(entered: nat)
      modifies this`visits
      ensures visits == old(visits) + [Out(Unwinding(Min(entered, links)))]
    {
      var index := Min(entered, links) - 1;
      ghost var order := [];
      NothingAdded(Unwinding(index + 1));
      while index >= 0
        invariant -1 <= index
        invariant order + Unwinding(index + 1) == Unwinding(Min(entered, links)) && visits == old(visits)
      {
        Regroup(order, [index], Unwinding(index));
        order := order + [index];
        index := index - 1;
      }
      NothingAdded(order);
      visits := visits + [Out(order)];
    }
  }

  class Core {
    const setup: Setup
    const ids: CallIDAllocator
    const outbox: Outbox
    const chain: Chain
    var pending: map<u32, Waiting>
    var inflight: map<u32, Running>
    var outcomes: seq<Outcome>
    var ready: bool
    var finished: bool
    ghost var probes: nat
    ghost var issued: Option<u32>
    ghost var journal: seq<Step>
    ghost var trace: seq<Act>

    ghost function Value(): State
      reads this, ids, outbox, chain
    {
      State(ids.next, probes, issued, chain.links, chain.visits, pending, inflight, outbox.Value(), outcomes, ready,
            finished, journal, trace)
    }

    /** The object's invariant: some run of enabled steps leads to its present state. */
    ghost predicate Valid()
      reads this, ids, outbox, chain
    {
      ids.role == setup.role && Reachable(setup, Value())
    }

    /** `NewCore`. */
    constructor (registry: Registry, role: Role, config: Config, compressor: Option<Compressor>)
      ensures Valid() && fresh(ids) && fresh(outbox) && fresh(chain)
      ensures setup == Setup(registry, config.Normalized(), role, compressor)
      ensures Value() == Initial(setup)
    {
      var c := config.Normalized();
      setup := Setup(registry, c, role, compressor);
      ids := new CallIDAllocator(role);
      outbox := new Outbox(c.maxCallQueue, c.maxConnectionQueue, c.schedulerQuantum);
      chain := new Chain();
      pending, inflight, outcomes, ready, finished := map[], map[], [], false, false;
      probes, issued, journal, trace := 0, None, [], [];
      new;
      InitialReachable(setup);
    }

    // ------------------------------------------------------------- one step each

    ghost method note(step: Step, acts: seq<Act>)
      modifies this`journal, this`trace
      ensures journal == old(journal) + [step]
      ensures trace == old(trace) + acts + HeardActs(step.heard)
    {
      journal := journal + [step];
      trace := trace + acts + HeardActs(step.heard);
    }

    /** A record's bookkeeping. */
    method touch(call: u32, record: Running, ghost heard: Option<Message>)
      requires call in inflight
      modifies this
      ensures Value() == Apply(setup, old(Value()), Step(Update(call, record), heard))
      ensures inflight == old(inflight)[call := record] && pending == old(pending)
    {
      ghost var before := Value();
      inflight := inflight[call := record];
      note(Step(Update(call, record), heard), []);
      PutSame(before.pending, call);
      Stepped(setup, before, Step(Update(call, record), heard), Value());
    }

    /** What settling a call does to the tables: it is gone from them and from the outbox,
        its links unwind and its owner is told. */
    method release(call: u32, outcome: Outcome)
      requires call in pending
      modifies this`pending, this`outcomes, outbox, chain
      ensures pending == old(pending) - {call} && outcomes == old(outcomes) + [outcome]
      ensures outbox.Value() == old(outbox.Value()).Discard(call)
      ensures chain.links == old(chain.links)
      ensures chain.visits == old(chain.visits) + [Out(Unwinding(Min(old(pending)[call].entered, chain.links)))]
    {
      var record := pending[call];
      pending := pending - {call};
      outbox.Discard(call);
      chain.Outbound(record.entered);
      outcomes := outcomes + [outcome];
    }

    method settlePending(call: u32, outcome: Outcome, ghost heard: Option<Message>)
      modifies this, outbox, chain
      ensures Value() == if call in old(pending) then Apply(setup, old(Value()), Step(Settle(call, outcome), heard))
                         else old(Value())
      ensures pending == old(pending) - {call}
    {
      hide Change, BoxAfter, Box.Discard;
      if call !in pending {
        return;
      }
      ghost var before := Value();
      SettleDelta(setup, ViewOf(before, call), call, outcome);
      BoxRestarted(before.box, call, Change(setup, ViewOf(before, call), Settle(call, outcome)));
      release(call, outcome);
      note(Step(Settle(call, outcome), heard), Change(setup, ViewOf(before, call), Settle(call, outcome)).acts);
      PutSame(before.inflight, call);
      Stepped(setup, before, Step(Settle(call, outcome), heard), Value());
    }

    /** `abandonPending`: settled here; the peer hears CANCEL unless the REQUEST never left. */
    method abandonPending(call: u32, status: Status, ghost heard: Option<Message>)
      requires call in pending
      modifies this, outbox, chain
      ensures Value() == Apply(setup, old(Value()), Step(Abandon(call, status), heard))
      ensures pending == old(pending) - {call}
    {
      hide Change, BoxAfter, Setup.ControlFrame, Box.Discard, Box.Append, Opens, QueueIn, Unwinding, FailedOutcome;
      ghost var before := Value();
      AbandonIsSettle(setup, ViewOf(before, call), call, status);
      BoxRestarted(before.box, call, Change(setup, ViewOf(before, call), Abandon(call, status)));
      PutSame(before.inflight, call);
      hide Put;
      var requestQueued := outbox.Value().OpensWithRequest(call);
      release(call, FailedOutcome(call, status));
      if !requestQueued {
        outbox.PushTerminal(call, setup.ControlFrame(call, Cancel));
      }
      note(Step(Abandon(call, status), heard), Change(setup, ViewOf(before, call), Abandon(call, status)).acts);
      PutNone(before.pending, call);
      Stepped(setup, before, Step(Abandon(call, status), heard), Value());
    }

    method finishInflight(call: u32, status: Status, ghost heard: Option<Message>)
      requires call in inflight
      modifies this, outbox, chain
      ensures Value() == Apply(setup, old(Value()), Step(Finish(call, status), heard))
      ensures inflight == old(inflight) - {call} && pending == old(pending)
    {
      hide Change, BoxAfter, Setup.ErrorFrame, Box.Discard, Box.Append;
      ghost var before := Value();
      FinishDelta(setup, ViewOf(before, call), call, status);
      BoxRestarted(before.box, call, Change(setup, ViewOf(before, call), Finish(call, status)));
      var record := inflight[call];
      inflight := inflight - {call};
      outbox.Discard(call);
      outbox.PushTerminal(call, setup.ErrorFrame(call, status));
      chain.Outbound(record.entered);
      note(Step(Finish(call, status), heard), Change(setup, ViewOf(before, call), Finish(call, status)).acts);
      PutSame(before.pending, call);
      Stepped(setup, before, Step(Finish(call, status), heard), Value());
    }

    method failCall(call: u32, status: Status, ghost heard: Message)
      modifies this, outbox, chain
      ensures Value() == Hear(setup, old(Value()), Stray(call, status), heard)
    {
      ghost var before := Value();
      outbox.PushTerminal(call, setup.ErrorFrame(call, status));
      note(Step(Stray(call, status), Some(heard)), [Queued(call, setup.ErrorFrame(call, status))]);
      PutSame(before.pending, call);
      PutSame(before.inflight, call);
      Stepped(setup, before, Step(Stray(call, status), Some(heard)), Value());
    }

    /** The RESPONSE that ends a call well. */
    method answer(call: u32, body: Bytes)
      requires call in inflight
      modifies this, outbox, chain
      ensures Value() == Do(setup, old(Value()), Event.Answer(call, body))
    {
      hide Change, BoxAfter, Setup.BodyFrame, Box.Append;
      ghost var before := Value();
      AnswerDelta(setup, ViewOf(before, call), call, body);
      BoxAppended(before.box, call, Change(setup, ViewOf(before, call), Event.Answer(call, body)));
      var record := inflight[call];
      inflight := inflight - {call};
      outbox.PushTerminal(call, setup.BodyFrame(call, Kind.Response, record.replyID, body));
      chain.Outbound(record.entered);
      note(Step(Event.Answer(call, body), None), Change(setup, ViewOf(before, call), Event.Answer(call, body)).acts);
      PutSame(before.pending, call);
      Stepped(setup, before, Step(Event.Answer(call, body), None), Value());
    }

    /** The END that ends a stream well. */
    method closeOut(call: u32)
      requires call in inflight
      modifies this, outbox, chain
      ensures Value() == Do(setup, old(Value()), CloseOut(call))
    {
      hide Change, BoxAfter, Setup.ControlFrame, Box.Append;
      ghost var before := Value();
      CloseOutDelta(setup, ViewOf(before, call), call);
      BoxAppended(before.box, call, Change(setup, ViewOf(before, call), CloseOut(call)));
      var record := inflight[call];
      inflight := inflight - {call};
      outbox.PushTerminal(call, setup.ControlFrame(call, Kind.End));
      chain.Outbound(record.entered);
      note(Step(CloseOut(call), None), Change(setup, ViewOf(before, call), CloseOut(call)).acts);
      PutSame(before.pending, call);
      Stepped(setup, before, Step(CloseOut(call), None), Value());
    }

    method grantQueued(call: u32, items: u32)
      requires setup.registry.creditID.Some?
      modifies this, outbox, chain
      ensures Value() == Do(setup, old(Value()), Event.Grant(call, items))
    {
      ghost var before := Value();
      outbox.Grant(call, setup.registry.creditID.value, items);
      note(Step(Event.Grant(call, items), None), [Granted(call, items)]);
      PutSame(before.pending, call);
      PutSame(before.inflight, call);
      Stepped(setup, before, Step(Event.Grant(call, items), None), Value());
    }

    /** A message that changes nothing. */
    ghost method ignore(message: Message)
      modifies this`journal, this`trace
      ensures Value() == Hear(setup, old(Value()), Ignore(message.Call()), message)
    {
      ghost var before := Value();
      var call := message.Call();
      note(Step(Ignore(call), Some(message)), []);
      PutSame(before.pending, call);
      PutSame(before.inflight, call);
      Stepped(setup, before, Step(Ignore(call), Some(message)), Value());
    }

    // --------------------------------------------------------------- making calls

    method OnReady()
      requires Valid()
      modifies this
      ensures Valid() && Value() == Do(setup, old(Value()), BecomeReady)
    {
      hide Reachable;
      OneStep(setup, Value(), Step(BecomeReady, None));
      ready := true;
      note(Step(BecomeReady, None), []);
      NothingAdded(old(trace));
    }

    method AddInterceptor()
      requires Valid()
      modifies this, chain
      ensures Valid() && Value() == Do(setup, old(Value()), AddLink)
    {
      hide Reachable;
      OneStep(setup, Value(), Step(AddLink, None));
      chain.Add();
      note(Step(AddLink, None), []);
      NothingAdded(old(trace));
    }

    method probe(taken: set<u32>) returns (call: Option<u32>)
      requires ids.Valid()
      modifies this, ids
      ensures call == Allocation(old(ids.next), taken).found
      ensures var search := Allocation(old(ids.next), taken);
              Value() == Do(setup, old(Value()), Probed(search.probes, search.found.Some?))
      ensures pending == old(pending) && inflight == old(inflight)
    {
      hide Probe;
      ghost var search := Allocation(ids.next, taken);
      ProbeFindsFirst(ids.next, taken, PARITY_IDS);
      call := ids.Allocate(taken);
      probes, issued := probes + search.probes, call;
      note(Step(Probed(search.probes, search.found.Some?), None), []);
      NothingAdded(old(trace));
    }

    /** `since` is the state before the call entered these links. */
    method bounce(call: u32, entered: nat, ghost since: State)
      requires Value() == since.(visits := since.visits + [In(entered)])
      modifies this, chain
      ensures Value() == Do(setup, since, Bounce(call, entered))
    {
      ghost var before := since;
      chain.Outbound(entered);
      note(Step(Bounce(call, entered), None), [Entered(call, entered), Unwound(call, entered)]);
      PutSame(before.pending, call);
      PutSame(before.inflight, call);
      Stepped(setup, before, Step(Bounce(call, entered), None), Value());
    }

    method open(call: u32, record: Waiting, frame: Outgoing, ghost since: State) returns (ok: bool)
      requires Value() == since.(visits := since.visits + [In(record.entered)])
      modifies this, outbox
      ensures ok == old(outbox.Value().HasRoom(call))
      ensures Value() == if ok then Do(setup, since, Open(call, record, frame)) else old(Value())
    {
      hide Setup.Squeezed;
      ghost var before := since;
      ok := outbox.Push(call, frame);
      if ok {
        pending, issued := pending[call := record], None;
        note(Step(Open(call, record, frame), None), [Entered(call, record.entered), Opened(call), Queued(call, frame)]);
        PutSame(before.inflight, call);
        Stepped(setup, before, Step(Open(call, record, frame), None), Value());
      }
    }

    /** `Call`, behind the allocation. */
    method launch(call: u32, requestID: u32, body: Bytes, ctx: Ctx, now: Time, env: Departure)
      returns (r: Result<u32, CallError>)
      requires requestID in setup.registry.byRequest
      modifies this, outbox, chain
      ensures Did(Value(), r) == Launch(setup, old(Value()), call, requestID, body, ctx, now, env)
    {
      hide Apply, Encoding;
      var about := setup.registry.byRequest[requestID].about;
      ghost var since := Value();
      var p := chain.Pass(env.verdicts);
      if p.rejection.Some? {
        bounce(call, p.entered, since);
        return Err(Rejected(p.rejection.value));
      }
      var sent := env.rewrite(ctx);
      var encodedCtx := [];
      if !sent.IsEmpty() {
        encodedCtx := CtxCodec.Encode(sent);
        if |encodedCtx| > setup.config.maxCtxLen {
          bounce(call, p.entered, since);
          return Err(CallError.CtxTooLarge);
        }
      }
      var frame := setup.Squeezed(Header(Request, call, false, !sent.IsEmpty()), requestID, encodedCtx, body);
      var ok := open(call, WaitingFor(about, p.entered, DeadlineOf(sent, now)), frame, since);
      if !ok {
        bounce(call, p.entered, since);
        return Err(Congested);
      }
      r := Ok(call);
    }

    method Call(requestID: u32, body: Bytes, ctx: Option<Ctx>, allowed: Time, now: Time, env: Departure)
      returns (r: Result<u32, CallError>)
      requires Valid()
      modifies this, ids, outbox, chain
      ensures Valid()
      ensures Did(Value(), r) == CoreOps.Call(setup, old(Value()), requestID, body, ctx, allowed, now, env)
    {
      hide Reachable, Apply, Launch, Allocation;
      CallLawful(setup, Value(), requestID, body, ctx, allowed, now, env);
      LedTo(setup, Value(), CoreOps.Call(setup, Value(), requestID, body, ctx, allowed, now, env).state, []);
      if !ready { return Err(NotReady); }
      if requestID !in setup.registry.byRequest { return Err(UnknownMethod); }
      if |body| > setup.config.maxBodyLen { return Err(BodyTooLarge); }
      if |pending| >= setup.config.maxPending { return Err(TooManyPending); }
      SaneAlways(setup, Value());
      var call := probe(pending.Keys);
      if call.None? { return Err(CallIDExhausted); }
      r := launch(call.value, requestID, body, SetOut(ctx, allowed), now, env);
    }

    method SendItem(call: u32, body: Bytes) returns (r: Result<(), CallError>)
      requires Valid()
      modifies this, outbox, chain
      ensures Valid() && Did(Value(), r) == CoreOps.SendItem(setup, old(Value()), call, body)
    {
      hide Reachable, Apply;
      SendItemLawful(setup, Value(), call, body);
      LedTo(setup, Value(), CoreOps.SendItem(setup, Value(), call, body).state, []);
      if call !in pending { return Err(UnknownCall); }
      var record := pending[call];
      if !record.shape.CallerStreams() { return Err(WrongShape); }
      if record.sendClosed { return Err(SendClosed); }
      if record.established && record.credit == 0 { return Err(NoCredit); }
      if |body| > setup.config.maxBodyLen { return Err(BodyTooLarge); }
      var ok := pushItem(call, body);
      if !ok { return Err(Congested); }
      r := Ok(());
    }

    /** `SendItem`, behind its checks. */
    method pushItem(call: u32, body: Bytes) returns (ok: bool)
      requires call in pending && (pending[call].established ==> pending[call].credit > 0)
      modifies this, outbox
      ensures ok == old(outbox.Value().HasRoom(call))
      ensures Value() == if ok then Do(setup, old(Value()), PushItem(call, body)) else old(Value())
    {
      hide Setup.BodyFrame, Change, BoxAfter;
      ghost var before := Value();
      PushItemDelta(setup, ViewOf(before, call), call, body);
      BoxAppended(before.box, call, Change(setup, ViewOf(before, call), PushItem(call, body)));
      var record := pending[call];
      var frame := setup.BodyFrame(call, Kind.Item, record.itemID, body);
      ok := outbox.Push(call, frame);
      if !ok { return; }
      if record.established {
        record := record.(credit := record.credit - 1);
      }
      pending := pending[call := record];
      note(Step(PushItem(call, body), None), [Offered(call, body), Queued(call, frame)]);
      PutSame(before.inflight, call);
      Stepped(setup, before, Step(PushItem(call, body), None), Value());
    }

    method CloseSend(call: u32) returns (r: Result<(), CallError>)
      requires Valid()
      modifies this, outbox, chain
      ensures Valid() && Did(Value(), r) == CoreOps.CloseSend(setup, old(Value()), call)
    {
      hide Reachable;
      CloseSendLawful(setup, Value(), call);
      LedTo(setup, Value(), CoreOps.CloseSend(setup, Value(), call).state, []);
      if call !in pending { return Err(UnknownCall); }
      var record := pending[call];
      if !record.shape.CallerStreams() { return Err(WrongShape); }
      if record.sendClosed { return Err(SendClosed); }
      ghost var before := Value();
      var ok := outbox.Push(call, setup.ControlFrame(call, Kind.End));
      if !ok { return Err(Congested); }
      pending := pending[call := record.(sendClosed := true)];
      note(Step(PushEnd(call), None), [Queued(call, setup.ControlFrame(call, Kind.End))]);
      PutSame(before.inflight, call);
      Stepped(setup, before, Step(PushEnd(call), None), Value());
      r := Ok(());
    }

    method Grant(call: u32, items: u32) returns (r: Result<(), CallError>)
      requires Valid()
      modifies this, outbox, chain
      ensures Valid() && Did(Value(), r) == GrantCredit(setup, old(Value()), call, items)
    {
      hide Reachable, Apply;
      GrantLawful(setup, Value(), call, items);
      LedTo(setup, Value(), GrantCredit(setup, Value(), call, items).state, []);
      if setup.registry.creditID.None? { return Err(CreditUnsupported); }
      if call in inflight {
        if !inflight[call].shape.CallerStreams() { return Err(WrongShape); }
      } else if call in pending {
        if !pending[call].shape.CalleeStreams() { return Err(WrongShape); }
      } else {
        return Err(UnknownCall);
      }
      grantQueued(call, items);
      r := Ok(());
    }

    method CancelCall(call: u32)
      requires Valid()
      modifies this, outbox, chain
      ensures Valid() && Value() == CoreOps.CancelCall(setup, old(Value()), call)
    {
      hide Reachable, Apply;
      CancelLawful(setup, Value(), call);
      LedTo(setup, Value(), CoreOps.CancelCall(setup, Value(), call), []);
      if call in pending {
        abandonPending(call, CANCELLED, None);
      }
    }

    // ------------------------------------------------------------------- polling

    method collectGrant(call: u32)
      modifies this, outbox, chain
      ensures Value() == CollectGrant(setup, old(Value()), call)
    {
      hide Apply;
      if setup.registry.creditID.None? || call !in inflight { return; }
      var record := inflight[call];
      if !record.shape.CallerStreams() || record.inboundClosed { return; }
      match record.handler.grant(record.asked) {
        case NoGranter =>
        case GrantFails(refused) => finishInflight(call, refused, None);
        case Grants(items) =>
          touch(call, record.(asked := record.asked + 1), None);
          if items > 0 {
            grantQueued(call, items);
          }
      }
    }

    /** A yielded item: the push cannot fail, since there was room, and the allowance
        cannot run below zero, since the call was not starved. */
    method yieldItem(call: u32, body: Bytes)
      requires call in inflight && outbox.Value().HasRoom(call) && !inflight[call].Starved()
      modifies this, outbox, chain
      ensures Value() == Do(setup, old(Value()), Yield(call, body))
    {
      hide Setup.BodyFrame, Change, BoxAfter;
      ghost var before := Value();
      YieldDelta(setup, ViewOf(before, call), call, body);
      BoxAppended(before.box, call, Change(setup, ViewOf(before, call), Yield(call, body)));
      var record := inflight[call];
      var frame := setup.BodyFrame(call, Kind.Item, record.replyID, body);
      var ok := outbox.Push(call, frame);
      assert ok;
      record := record.(polled := record.polled + 1);
      if record.established {
        record := record.(credit := record.credit - 1);
      }
      inflight := inflight[call := record];
      note(Step(Yield(call, body), None), [Yielded(call, body), Queued(call, frame)]);
      PutSame(before.pending, call);
      Stepped(setup, before, Step(Yield(call, body), None), Value());
    }

    /** `pollOne` when the call has no room. */
    method stuck(call: u32, now: Time)
      requires call in inflight && !outbox.Value().HasRoom(call)
      modifies this, outbox, chain
      ensures Value() == Stuck(setup, old(Value()), call, old(inflight)[call], now)
    {
      hide Apply;
      if !outbox.Value().FullFor(call) { return; }
      var record := inflight[call];
      if record.fullSince == 0 {
        record := record.(fullSince := now);
      }
      touch(call, record, None);
      if now - record.fullSince >= setup.config.queueFullLimit {
        finishInflight(call, RESOURCE_EXHAUSTED, None);
      }
    }

    /** `pollOne` when the handler gives no item. */
    method conclude(call: u32, progress: Progress)
      requires call in inflight
      modifies this, outbox, chain
      ensures Value() == Conclude(setup, old(Value()), call, old(inflight)[call], progress)
    {
      hide Apply, Setup.Squeezed;
      var record := inflight[call];
      match progress {
        case Pending => touch(call, record.(polled := record.polled + 1), None);
        case Respond(body) =>
          if record.shape.CalleeStreams() {
            finishInflight(call, INTERNAL, None);
          } else {
            answer(call, body);
          }
        case End =>
          if !record.shape.CalleeStreams() {
            finishInflight(call, INTERNAL, None);
          } else {
            closeOut(call);
          }
        case Fail(status) => finishInflight(call, if status.Some? then status.value else INTERNAL, None);
        case Item(_) =>
      }
    }

    /** `pollOne`. It ends for every handler, one that yields for ever included. */
    method pollOne(call: u32, now: Time)
      modifies this, outbox, chain
      ensures Value() == Poll(setup, old(Value()), call, now)
    {
      hide Apply, Setup.Squeezed, Stuck, Conclude;
      collectGrant(call);
      ghost var start := Value();
      while true
        invariant PollLoop(setup, start, call, now) == PollLoop(setup, Value(), call, now)
        decreases Spare(outbox.Value())
      {
        ghost var before := Value();
        if call !in inflight { return; }
        if !outbox.Value().HasRoom(call) {
          stuck(call, now);
          return;
        }
        var record := inflight[call].(fullSince := 0);
        touch(call, record, None);
        if record.shape.CalleeStreams() && record.Starved() { return; }
        var progress := record.handler.poll(record.polled);
        if !progress.Item? {
          TouchedBox(setup, before, call, record);
          conclude(call, progress);
          return;
        }
        if !record.shape.CalleeStreams() {
          finishInflight(call, INTERNAL, None);
          return;
        }
        YieldFills(setup, before, call, record, progress.body);
        yieldItem(call, progress.body);
      }
    }

    // ----------------------------------------------------------------- receiving

    method failReceived(status: Status, message: Message)
      modifies this, outbox, chain
      ensures Value() == FailReceived(setup, old(Value()), status, message)
    {
      hide Apply;
      var call := message.Call();
      if call in inflight {
        finishInflight(call, status, Some(message));
      } else if call in pending {
        abandonPending(call, status, Some(message));
      } else {
        failCall(call, status, message);
      }
    }

    method admit(call: u32, record: Running, ghost message: Message, ghost since: State)
      requires Value() == since.(visits := since.visits + [In(record.entered)])
      modifies this
      ensures Value() == Hear(setup, since, Admit(call, record), message)
    {
      ghost var before := since;
      inflight := inflight[call := record];
      note(Step(Admit(call, record), Some(message)),
           [Entered(call, record.entered), Admitted(call, record.shape, record.credit)]);
      PutSame(before.pending, call);
      Stepped(setup, before, Step(Admit(call, record), Some(message)), Value());
    }

    method refuse(frame: Outgoing, entered: nat, status: Status, ghost since: State)
      requires Value() == since.(visits := since.visits + [In(entered)])
      modifies this, outbox, chain
      ensures var call := frame.header.call;
              Value() == Hear(setup, Do(setup, since, Bounce(call, entered)), Stray(call, status), Frame(frame))
    {
      hide Apply;
      bounce(frame.header.call, entered, since);
      failCall(frame.header.call, status, Frame(frame));
    }

    /** `onRequest`, from the interceptors on. */
    method welcome(frame: Outgoing, ctx: Ctx, about: Method, now: Time, env: Arrival)
      modifies this, outbox, chain
      ensures Value() == Welcome(setup, old(Value()), frame, ctx, about, now, env)
    {
      hide Apply, Poll, Setup.Inflate;
      var call := frame.header.call;
      ghost var since := Value();
      var p := chain.Pass(env.verdicts);
      if p.rejection.Some? {
        refuse(frame, p.entered, p.rejection.value, since);
        return;
      }
      var inflated := setup.Inflate(frame.header, frame.body);
      if inflated.Err? {
        refuse(frame, p.entered, inflated.error, since);
        return;
      }
      if env.made.Err? {
        refuse(frame, p.entered, env.made.error, since);
        return;
      }
      admit(call, RunningFor(setup, about, env.made.value, ctx, p.entered, now), Frame(frame), since);
      pollOne(call, now);
    }

    method onRequest(frame: Outgoing, now: Time, env: Arrival)
      modifies this, outbox, chain
      ensures Value() == OnRequest(setup, old(Value()), frame, now, env)
    {
      hide Apply, Welcome, Meaning;
      var call, message := frame.header.call, Frame(frame);
      if setup.role.Allocates(call) {
        failCall(call, INVALID_ARGUMENT, message);
        return;
      }
      if call in inflight {
        ignore(message);
        return;
      }
      var id := frame.messageID;
      if id !in setup.registry.byRequest || !setup.registry.byRequest[id].served {
        failCall(call, UNIMPLEMENTED, message);
        return;
      }
      if |inflight| >= setup.config.maxPending {
        failCall(call, RESOURCE_EXHAUSTED, message);
        return;
      }
      var ctx := EMPTY_CTX;
      if frame.header.hasCtx {
        var decoded := DecodeCtx(frame.ctx);
        if decoded.None? {
          failCall(call, INVALID_ARGUMENT, message);
          return;
        }
        ctx := decoded.value;
      }
      welcome(frame, ctx, setup.registry.byRequest[id].about, now, env);
    }

    method onResponse(frame: Outgoing, body: Bytes)
      modifies this, outbox, chain
      ensures Value() == OnResponse(setup, old(Value()), frame, body)
    {
      hide Apply;
      var call := frame.header.call;
      if call !in pending {
        ignore(Frame(frame));
        return;
      }
      var record := pending[call];
      if record.shape.CalleeStreams() || frame.messageID != record.replyID {
        settlePending(call, FailedOutcome(call, INVALID_ARGUMENT), Some(Frame(frame)));
        return;
      }
      settlePending(call, Outcome(OutcomeKind.Response, call, body, None), Some(Frame(frame)));
    }

    method onError(frame: Outgoing, body: Bytes)
      modifies this, outbox, chain
      ensures Value() == OnError(setup, old(Value()), frame, body)
    {
      hide Apply, DecodeStatus;
      var call := frame.header.call;
      if call !in pending {
        ignore(Frame(frame));
        return;
      }
      var status := INVALID_ARGUMENT;
      if frame.messageID == setup.registry.errorID {
        status := DecodeStatus(body);
      }
      settlePending(call, FailedOutcome(call, status), Some(Frame(frame)));
    }

    method tellItem(frame: Outgoing, body: Bytes)
      modifies this
      ensures Value() == Hear(setup, old(Value()), TellItem(frame.header.call, body), Frame(frame))
    {
      ghost var before := Value();
      var call := frame.header.call;
      var outcome := Outcome(OutcomeKind.Item, call, body, None);
      outcomes := outcomes + [outcome];
      note(Step(TellItem(call, body), Some(Frame(frame))), [Told(outcome)]);
      PutSame(before.pending, call);
      PutSame(before.inflight, call);
      Stepped(setup, before, Step(TellItem(call, body), Some(Frame(frame))), Value());
    }

    method onItem(frame: Outgoing, body: Bytes, now: Time)
      modifies this, outbox, chain
      ensures Value() == OnItem(setup, old(Value()), frame, body, now)
    {
      hide Apply, OnCallerItem;
      var call := frame.header.call;
      if call in inflight {
        onCallerItem(frame, body, now);
        return;
      }
      if call !in pending {
        ignore(Frame(frame));
        return;
      }
      var record := pending[call];
      if !record.shape.CalleeStreams() || frame.messageID != record.replyID {
        abandonPending(call, INVALID_ARGUMENT, Some(Frame(frame)));
        return;
      }
      tellItem(frame, body);
    }

    method deliver(frame: Outgoing, body: Bytes, now: Time)
      requires frame.header.call in inflight
      modifies this
      ensures Value() == Hear(setup, old(Value()), Deliver(frame.header.call, body, now), Frame(frame))
    {
      ghost var before := Value();
      var call := frame.header.call;
      var record := inflight[call];
      inflight := inflight[call := record.(lastHeard := now, delivered := record.delivered + 1)];
      note(Step(Deliver(call, body, now), Some(Frame(frame))), [Delivered(call, body)]);
      PutSame(before.pending, call);
      Stepped(setup, before, Step(Deliver(call, body, now), Some(Frame(frame))), Value());
    }

    method onCallerItem(frame: Outgoing, body: Bytes, now: Time)
      requires frame.header.call in inflight
      modifies this, outbox, chain
      ensures Value() == OnCallerItem(setup, old(Value()), frame, body, now)
    {
      hide Apply, Poll;
      var call, message := frame.header.call, Frame(frame);
      var record := inflight[call];
      if !record.shape.CallerStreams() {
        finishInflight(call, INVALID_ARGUMENT, Some(message));
        return;
      }
      if record.inboundClosed {
        touch(call, record.(lastHeard := now), Some(message));
        return;
      }
      if frame.messageID != record.itemID {
        finishInflight(call, INVALID_ARGUMENT, Some(message));
        return;
      }
      var refused := record.handler.item(record.delivered);
      if refused.Some? {
        finishInflight(call, refused.value, Some(message));
        return;
      }
      deliver(frame, body, now);
      pollOne(call, now);
    }

    method onEnd(frame: Outgoing, now: Time)
      modifies this, outbox, chain
      ensures Value() == OnEnd(setup, old(Value()), frame, now)
    {
      hide Apply, OnCallerEnd;
      var call, message := frame.header.call, Frame(frame);
      if call in inflight {
        onCallerEnd(frame, now);
        return;
      }
      if call !in pending {
        ignore(message);
        return;
      }
      if frame.messageID != setup.registry.voidID || !pending[call].shape.CalleeStreams() {
        abandonPending(call, INVALID_ARGUMENT, Some(message));
        return;
      }
      settlePending(call, Outcome(OutcomeKind.End, call, [], None), Some(message));
    }

    method onCallerEnd(frame: Outgoing, now: Time)
      requires frame.header.call in inflight
      modifies this, outbox, chain
      ensures Value() == OnCallerEnd(setup, old(Value()), frame, now)
    {
      hide Apply, Poll;
      var call, message := frame.header.call, Frame(frame);
      var record := inflight[call];
      if frame.messageID != setup.registry.voidID || !record.shape.CallerStreams() {
        finishInflight(call, INVALID_ARGUMENT, Some(message));
        return;
      }
      if record.inboundClosed {
        touch(call, record.(lastHeard := now), Some(message));
        return;
      }
      if record.handler.close.Some? {
        finishInflight(call, record.handler.close.value, Some(message));
        return;
      }
      touch(call, record.(lastHeard := now, inboundClosed := true), Some(message));
      pollOne(call, now);
    }

    method onCancel(frame: Outgoing)
      modifies this, outbox, chain
      ensures Value() == OnCancel(setup, old(Value()), frame)
    {
      hide Apply;
      var call, message := frame.header.call, Frame(frame);
      if call !in inflight {
        ignore(message);
        return;
      }
      if frame.messageID == setup.registry.voidID {
        finishInflight(call, CANCELLED, Some(message));
        return;
      }
      finishInflight(call, INVALID_ARGUMENT, Some(message));
    }

    method allow(frame: Outgoing, items: u32, now: Time)
      requires frame.header.call in inflight || frame.header.call in pending
      modifies this
      ensures Value() == Hear(setup, old(Value()), Allow(frame.header.call, items, now), Frame(frame))
    {
      hide SaturatingAdd;
      ghost var before := Value();
      var call := frame.header.call;
      if call in inflight {
        var r := inflight[call];
        r := r.(lastHeard := now, credit := SaturatingAdd(r.credit, items), established := true);
        inflight := inflight[call := r];
      } else {
        var w := pending[call];
        pending := pending[call := w.(credit := SaturatingAdd(w.credit, items), established := true)];
      }
      note(Step(Allow(call, items, now), Some(Frame(frame))), [Credited(call, items)]);
      PutSame(before.pending, call);
      PutSame(before.inflight, call);
      Stepped(setup, before, Step(Allow(call, items, now), Some(Frame(frame))), Value());
    }

    method onCredit(frame: Outgoing, body: Bytes, now: Time)
      modifies this, outbox, chain
      ensures Value() == OnCredit(setup, old(Value()), frame, body, now)
    {
      hide Apply, ReadCredit;
      var call, message := frame.header.call, Frame(frame);
      if setup.registry.creditID.None? || (call !in inflight && call !in pending) {
        ignore(message);
        return;
      }
      if frame.messageID != setup.registry.creditID.value {
        if call in inflight {
          finishInflight(call, INVALID_ARGUMENT, Some(message));
        } else {
          abandonPending(call, INVALID_ARGUMENT, Some(message));
        }
        return;
      }
      allow(frame, ReadCredit(body), now);
    }

    method onFrame(frame: Outgoing, now: Time, env: Arrival)
      modifies this, outbox, chain
      ensures Value() == OnFrame(setup, old(Value()), frame, now, env)
    {
      hide Apply, Setup.Inflate, OnRequest, OnResponse, OnError, OnItem, OnEnd, OnCancel, OnCredit, FailReceived;
      if frame.header.kind == Request {
        onRequest(frame, now, env);
        return;
      }
      var inflated := setup.Inflate(frame.header, frame.body);
      if inflated.Err? {
        failReceived(inflated.error, Frame(frame));
        return;
      }
      match frame.header.kind {
        case Request =>
        case Response => onResponse(frame, inflated.value);
        case Error => onError(frame, inflated.value);
        case Item => onItem(frame, inflated.value, now);
        case End => onEnd(frame, now);
        case Cancel => onCancel(frame);
        case Credit => onCredit(frame, inflated.value, now);
      }
    }

    method OnMessage(messageID: u32, payload: Bytes, now: Time, env: Arrival) returns (consumed: bool)
      requires Valid()
      modifies this, outbox, chain
      ensures Valid()
      ensures Handled(Value(), consumed) == CoreOps.OnMessage(setup, old(Value()), messageID, payload, now, env)
    {
      hide Reachable, Apply, Decode, OnFrame, FailReceived, HeardBy;
      OnMessageLawful(setup, Value(), messageID, payload, now, env);
      LedTo(setup, Value(), CoreOps.OnMessage(setup, Value(), messageID, payload, now, env).state,
            HeardBy(setup, messageID, payload));
      if messageID in setup.registry.plain { return false; }
      var parsed := Decode(payload, setup.config.maxCtxLen);
      if parsed.Err? {
        if messageID in setup.registry.owned && |payload| >= HEADER_LEN {
          failReceived(INTERNAL, Garbled(ReadCallID(payload)));
        }
        return true;
      }
      var frame := Outgoing(messageID, parsed.value.header, parsed.value.ctx, parsed.value.body);
      if !ready {
        ignore(Frame(frame));
        return true;
      }
      onFrame(frame, now, env);
      return true;
    }

    // ---------------------------------------------------------------------- time

    method expirePending(now: Time)
      modifies this, outbox, chain
      ensures Value() == ExpirePending(setup, old(Value()), SortedKeys(old(pending).Keys), now)
    {
      hide Apply, SortedKeys, ExpirePending;
      var calls := SortedKeys(pending.Keys);
      SortedKeysSorted(pending.Keys);
      ghost var whole := ExpirePending(setup, Value(), calls, now);
      var i := 0;
      assert calls[0..] == calls;
      while i < |calls|
        invariant i <= |calls|
        invariant whole == ExpirePending(setup, Value(), calls[i..], now)
        invariant forall j :: i <= j < |calls| ==> calls[j] in pending
      {
        assert calls[i..][1..] == calls[i + 1..];
        ExpireNextPending(setup, Value(), calls[i..], now);
        var record := pending[calls[i]];
        if record.deadline != 0 && !(now < record.deadline) {
          abandonPending(calls[i], DEADLINE_EXCEEDED, None);
        }
        i := i + 1;
      }
      assert calls[i..] == [];
      ExpireNoPending(setup, Value(), now);
    }

    method expireInflight(now: Time)
      modifies this, outbox, chain
      ensures Value() == ExpireInflight(setup, old(Value()), SortedKeys(old(inflight).Keys), now)
    {
      hide Apply, SortedKeys, ExpireInflight, Running.NextExpiry;
      var calls := SortedKeys(inflight.Keys);
      SortedKeysSorted(inflight.Keys);
      ghost var whole := ExpireInflight(setup, Value(), calls, now);
      var i := 0;
      assert calls[0..] == calls;
      while i < |calls|
        invariant i <= |calls|
        invariant whole == ExpireInflight(setup, Value(), calls[i..], now)
        invariant forall j :: i <= j < |calls| ==> calls[j] in inflight
      {
        assert calls[i..][1..] == calls[i + 1..];
        ExpireNextInflight(setup, Value(), calls[i..], now);
        var expiry := inflight[calls[i]].NextExpiry();
        if expiry != 0 && !(now < expiry) {
          finishInflight(calls[i], DEADLINE_EXCEEDED, None);
        }
        i := i + 1;
      }
      assert calls[i..] == [];
      ExpireNoInflight(setup, Value(), now);
    }

    method pollAll(now: Time)
      modifies this, outbox, chain
      ensures Value() == PollAll(setup, old(Value()), SortedKeys(old(inflight).Keys), now)
    {
      hide Apply, SortedKeys, Poll;
      var calls := SortedKeys(inflight.Keys);
      ghost var whole := PollAll(setup, Value(), calls, now);
      var i := 0;
      assert calls[0..] == calls;
      while i < |calls|
        invariant i <= |calls|
        invariant whole == PollAll(setup, Value(), calls[i..], now)
      {
        assert calls[i..][1..] == calls[i + 1..];
        pollOne(calls[i], now);
        i := i + 1;
      }
    }

    method Tick(now: Time)
      requires Valid()
      modifies this, outbox, chain
      ensures Valid() && Value() == CoreOps.Tick(setup, old(Value()), now)
    {
      hide Reachable, ExpirePending, ExpireInflight, PollAll, SortedKeys;
      TickLawful(setup, Value(), now);
      LedTo(setup, Value(), CoreOps.Tick(setup, Value(), now), []);
      expirePending(now);
      expireInflight(now);
      pollAll(now);
    }

    // --------------------------------------------------------- draining and ending

    method Drain(sink: Sink) returns (sent: seq<Posted>)
      requires Valid()
      modifies this, outbox, chain
      ensures Valid() && Value() == Do(setup, old(Value()), DrainTo(sink))
      ensures trace == old(trace) + Sends(sent)
    {
      hide Reachable, OutboxModel.Drain;
      BoxStaysSound(setup, Value());
      OneStep(setup, Value(), Step(DrainTo(sink), None));
      sent := outbox.Drain(sink);
      note(Step(DrainTo(sink), None), Sends(sent));
      NothingAdded(trace);
    }

    method TakeOutcomes() returns (taken: seq<Outcome>)
      requires Valid()
      modifies this
      ensures Valid() && taken == old(outcomes) && Value() == Do(setup, old(Value()), CoreModel.TakeOutcomes)
    {
      hide Reachable;
      OneStep(setup, Value(), Step(CoreModel.TakeOutcomes, None));
      taken := outcomes;
      outcomes := [];
      note(Step(CoreModel.TakeOutcomes, None), []);
      NothingAdded(old(trace));
    }

    method settleAll()
      modifies this, outbox, chain
      ensures Value() == SettleAll(setup, old(Value()), SortedKeys(old(pending).Keys))
    {
      hide Apply, SortedKeys;
      var calls := SortedKeys(pending.Keys);
      ghost var whole := SettleAll(setup, Value(), calls);
      var i := 0;
      assert calls[0..] == calls;
      while i < |calls|
        invariant i <= |calls|
        invariant whole == SettleAll(setup, Value(), calls[i..])
      {
        assert calls[i..][1..] == calls[i + 1..];
        settlePending(calls[i], FailedOutcome(calls[i], UNAVAILABLE), None);
        i := i + 1;
      }
    }

    method leave(call: u32)
      requires call in inflight
      modifies this, chain
      ensures Value() == Do(setup, old(Value()), Leave(call))
      ensures inflight == old(inflight) - {call}
    {
      ghost var before := Value();
      var record := inflight[call];
      inflight := inflight - {call};
      chain.Outbound(record.entered);
      note(Step(Leave(call), None), [Unwound(call, record.entered), Left(call)]);
      PutSame(before.pending, call);
      Stepped(setup, before, Step(Leave(call), None), Value());
    }

    method leaveAll()
      modifies this, chain
      ensures Value() == LeaveAll(setup, old(Value()), SortedKeys(old(inflight).Keys))
    {
      hide Apply, SortedKeys;
      var calls := SortedKeys(inflight.Keys);
      SortedKeysSorted(inflight.Keys);
      ghost var whole := LeaveAll(setup, Value(), calls);
      var i := 0;
      assert calls[0..] == calls;
      while i < |calls|
        invariant i <= |calls|
        invariant whole == LeaveAll(setup, Value(), calls[i..])
        invariant forall j :: i <= j < |calls| ==> calls[j] in inflight
      {
        assert calls[i..][1..] == calls[i + 1..];
        leave(calls[i]);
        i := i + 1;
      }
    }

    /** `OnSessionEnd`. The flags are raised last instead of first; nothing looks at them
        in between. */
    method OnSessionEnd()
      requires Valid()
      modifies this, outbox, chain
      ensures Valid() && Value() == CoreOps.OnSessionEnd(setup, old(Value()))
    {
      hide Reachable, SettleAll, LeaveAll, SortedKeys, Unavailables;
      SessionEnds(setup, Value());
      LedTo(setup, Value(), CoreOps.OnSessionEnd(setup, Value()), []);
      if finished { return; }
      settleAll();
      leaveAll();
      finished := true;
      ready := false;
      outbox.Clear();
      note(Step(EndSession, None), [Cleared]);
    }

    // ------------------------------------------------------------------- waiting

    /** `NextDeadline`, walking both tables in whatever order. */
    method NextDeadline() returns (nearest: Time)
      ensures Nearest(Value(), nearest)
    {
      hide Running.NextExpiry;
      nearest := 0;
      var waiting := pending.Keys;
      while waiting != {}
        invariant waiting <= pending.Keys
        invariant nearest != 0 ==> exists c :: c in pending && pending[c].deadline == nearest
        invariant forall c :: c in pending && c !in waiting && pending[c].deadline != 0 ==>
                  nearest != 0 && nearest <= pending[c].deadline
        decreases waiting
      {
        var call :| call in waiting;
        nearest := Earlier(nearest, pending[call].deadline);
        waiting := waiting - {call};
      }
      var running := inflight.Keys;
      while running != {}
        invariant running <= inflight.Keys
        invariant nearest != 0 ==> Expires(Value(), nearest)
        invariant forall c :: c in pending && pending[c].deadline != 0 ==>
                  nearest != 0 && nearest <= pending[c].deadline
        invariant forall c :: c in inflight && c !in running && inflight[c].NextExpiry() != 0 ==>
                                nearest != 0 && nearest <= inflight[c].NextExpiry()
        decreases running
      {
        var call :| call in running;
        nearest := Earlier(nearest, inflight[call].NextExpiry());
        running := running - {call};
      }
    }

    method HasRunnableWork() returns (runnable: bool)
      ensures runnable <==> Runnable(Value())
    {
      var rest := inflight.Keys;
      while rest != {}
        invariant rest <= inflight.Keys
        invariant forall c :: c in inflight && c !in rest ==> !(CanRun(inflight[c]) && outbox.Value().HasRoom(c))
        decreases rest
      {
        var call :| call in rest;
        var record := inflight[call];
        if CanRun(record) && outbox.Value().HasRoom(call) {
          return true;
        }
        rest := rest - {call};
      }
      runnable := false;
    }

    /** `WaitPolicy.Plan` (rpcnet/session.go). */
    method PlanWait(policy: WaitPolicy, netCongested: bool, now: Time) returns (w: Wait, nearest: Time)
      ensures Nearest(Value(), nearest)
      ensures w == Plan(policy, Runnable(Value()), nearest, !outbox.Value().Empty(), netCongested, now)
    {
      hide Nearest, Runnable;
      var p := policy.Normalized();
      var timeout := p.idleCap;
      var runnable := HasRunnableWork();
      if runnable {
        timeout := Min(timeout, p.workPoll);
      }
      nearest := NextDeadline();
      if nearest != 0 {
        timeout := Min(timeout, Max(nearest - now, 0));
      }
      w := Wait(timeout, netCongested || !outbox.Value().Empty());
    }
  }

  /** The loops of `expirePending` and `expireInflight`, one call at a time. */
  lemma ExpireNextPending(k: Setup, s: State, ids: seq<u32>, now: Time)
    requires ids != []
    ensures ExpirePending(k, s, ids, now) ==
            ExpirePending(k, if ids[0] in s.pending && Past(s.pending[ids[0]].deadline, now)
                             then Do(k, s, Abandon(ids[0], DEADLINE_EXCEEDED)) else s, ids[1..], now)
  {
    hide Do;
  }

  lemma ExpireNoPending(k: Setup, s: State, now: Time)
    ensures ExpirePending(k, s, [], now) == s
  {
  }

  lemma ExpireNextInflight(k: Setup, s: State, ids: seq<u32>, now: Time)
    requires ids != []
    ensures ExpireInflight(k, s, ids, now) ==
            ExpireInflight(k, if ids[0] in s.inflight && Past(s.inflight[ids[0]].NextExpiry(), now)
                              then Do(k, s, Finish(ids[0], DEADLINE_EXCEEDED)) else s, ids[1..], now)
  {
    hide Do;
  }

  lemma ExpireNoInflight(k: Setup, s: State, now: Time)
    ensures ExpireInflight(k, s, [], now) == s
  {
  }

  lemma TouchedBox(k: Setup, s: State, call: u32, r: Running)
    ensures Do(k, s, Update(call, r)).box == s.box
  {
  }

  /** The box after a step that queues a frame, */
  lemma BoxAppended(box: Box, call: u32, d: Delta)
    requires !d.discard && d.append.Some? && d.grant.None?
    ensures BoxAfter(box, call, d) == box.Append(call, d.append.value)
  {
  }

  /** and after one that discards the call's queue first. */
  lemma BoxRestarted(box: Box, call: u32, d: Delta)
    requires d.discard && d.grant.None?
    ensures BoxAfter(box, call, d)
            == if d.append.Some? then box.Discard(call).Append(call, d.append.value) else box.Discard(call)
  {
  }

  lemma PutNone<V>(table: map<u32, V>, call: u32)
    ensures Put(table, call, None) == table - {call}
  {
  }

  lemma YieldDelta(k: Setup, v: View, call: u32, body: Bytes)
    requires v.running.Some?
    ensures var r := v.running.value;
            var frame := k.BodyFrame(call, Kind.Item, r.replyID, body);
            Change(k, v, Yield(call, body))
            == Delta(v.waiting, Some(r.(polled := r.polled + 1, credit := Spend(r.credit, r.established))), false,
                     Some(frame), None, None, None, None, [Yielded(call, body), Queued(call, frame)])
  {
  }

  lemma PushItemDelta(k: Setup, v: View, call: u32, body: Bytes)
    requires v.waiting.Some?
    ensures var w := v.waiting.value;
            var frame := k.BodyFrame(call, Kind.Item, w.itemID, body);
            Change(k, v, PushItem(call, body))
            == Delta(Some(w.(credit := Spend(w.credit, w.established))), v.running, false, Some(frame), None, None,
                     None, None, [Offered(call, body), Queued(call, frame)])
  {
  }

  lemma AnswerDelta(k: Setup, v: View, call: u32, body: Bytes)
    requires v.running.Some?
    ensures var frame := k.BodyFrame(call, Kind.Response, v.running.value.replyID, body);
            Change(k, v, Event.Answer(call, body))
            == Delta(v.waiting, None, false, Some(frame), None, None, None, Some(v.running.value.entered),
                     [Responded(call, body), Queued(call, frame), Unwound(call, v.running.value.entered)])
  {
  }

  lemma CloseOutDelta(k: Setup, v: View, call: u32)
    requires v.running.Some?
    ensures var frame := k.ControlFrame(call, Kind.End);
            Change(k, v, CloseOut(call))
            == Delta(v.waiting, None, false, Some(frame), None, None, None, Some(v.running.value.entered),
                     [Queued(call, frame), Unwound(call, v.running.value.entered)])
  {
  }

  lemma FinishDelta(k: Setup, v: View, call: u32, status: Status)
    requires v.running.Some?
    ensures var frame := k.ErrorFrame(call, status);
            Change(k, v, Finish(call, status))
            == Delta(v.waiting, None, true, Some(frame), None, None, None, Some(v.running.value.entered),
                     [Dropped(call), Queued(call, frame), Unwound(call, v.running.value.entered)])
  {
  }

  lemma SettleDelta(k: Setup, v: View, call: u32, outcome: Outcome)
    requires v.waiting.Some?
    ensures Change(k, v, Settle(call, outcome)) == SettledDelta(v, call, outcome)
  {
  }

  lemma AbandonIsSettle(k: Setup, v: View, call: u32, status: Status)
    requires v.waiting.Some?
    ensures var d, frame := SettledDelta(v, call, FailedOutcome(call, status)), k.ControlFrame(call, Cancel);
            Change(k, v, Abandon(call, status))
            == if Opens(v.queue) then d else d.(append := Some(frame), acts := d.acts + [Queued(call, frame)])
  {
  }

  /** The fields a step of one call leaves behind make up the state after it. */
  lemma Stepped(k: Setup, s: State, step: Step, t: State)
    requires !step.event.Global()
    requires var call := step.event.call;
             var d := Change(k, ViewOf(s, call), step.event);
             && t.next == s.next && t.probes == s.probes && t.issued == (if step.event.Open? then None else s.issued)
             && t.links == s.links && t.visits == Visited(s.visits, s.links, d)
             && t.ready == s.ready && t.finished == s.finished
             && t.pending == Put(s.pending, call, d.waiting) && t.inflight == Put(s.inflight, call, d.running)
             && t.box == BoxAfter(s.box, call, d)
             && t.outcomes == (if d.outcome.Some? then s.outcomes + [d.outcome.value] else s.outcomes)
             && t.journal == s.journal + [step] && t.trace == s.trace + d.acts + HeardActs(step.heard)
    ensures t == Apply(k, s, step)
  {
    hide Change, BoxAfter;
  }
}
