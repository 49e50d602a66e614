/** Every operation of a core is a chain of enabled steps, so every state a core gets into
    is reachable; and of the messages it is given it hears each once, first of all. */
module Lawful {
  import opened Basics
  import opened Wire
  import opened OutboxModel
  import opened CallIds
  import opened CtxModel
  import opened Session
  import opened CoreModel
  import opened CoreOps
  import opened Chains

  // -------------------------------------------------------------- making calls

  lemma CallLawful(k: Setup, s: State, requestID: u32, body: Bytes, ctx: Option<Ctx>, allowed: Time, now: Time,
                   d: Departure)
    requires Reachable(k, s)
    ensures Leads(k, s, Call(k, s, requestID, body, ctx, allowed, now, d).state, [])
  {
    hide Reachable, Allocation, Launch, Apply, Leads;
    Here(k, s);
    var search := Allocation(s.next, s.pending.Keys);
    var s1 := Do(k, s, Probed(search.probes, search.found.Some?));
    ProbeLawful(k, s);
    if s.ready && requestID in k.registry.byRequest && search.found.Some? {
      ProbedSame(k, s, search.probes);
      LedTo(k, s, s1, []);
      LaunchLawful(k, s1, search.found.value, requestID, body, SetOut(ctx, allowed), now, d);
      var t := Launch(k, s1, search.found.value, requestID, body, SetOut(ctx, allowed), now, d).state;
      OnwardQuietly(k, s, s1, t, []);
    }
  }

  /** Probing is a step, and what it finds is an own id that no call waits under. */
  lemma ProbeLawful(k: Setup, s: State)
    requires Reachable(k, s)
    ensures var search := Allocation(s.next, s.pending.Keys);
            && search.probes > 0
            && Leads(k, s, Do(k, s, Probed(search.probes, search.found.Some?)), [])
            && (search.found.Some? ==>
                  && search.found.value == Nth(s.next, search.probes - 1)
                  && k.Own(search.found.value) && search.found.value !in s.pending)
  {
    hide Reachable, Probe, Effect, Leads, BoxSound;
    SaneAlways(k, s);
    var search := Allocation(s.next, s.pending.Keys);
    AllocateComplete(k.role, s.next, s.pending.Keys);
    ProbeFindsFirst(s.next, s.pending.Keys, PARITY_IDS);
    OneStep(k, s, Step(Probed(search.probes, search.found.Some?), None));
  }

  lemma LedTo(k: Setup, s: State, t: State, heard: seq<Message>)
    requires Leads(k, s, t, heard)
    ensures Reachable(k, s) && Reachable(k, t)
  {
    hide Reachable;
  }

  lemma ProbedSame(k: Setup, s: State, count: nat)
    requires count > 0
    ensures var t := Do(k, s, Probed(count, true));
            t == s.(next := Nth(s.next, count), probes := s.probes + count, issued := Some(Nth(s.next, count - 1)),
                    journal := t.journal)
  {
    NothingAdded(s.trace);
  }

  lemma LaunchLawful(k: Setup, s: State, call: u32, requestID: u32, body: Bytes, ctx: Ctx, now: Time, d: Departure)
    requires Reachable(k, s) && s.ready && s.issued == Some(call) && k.Own(call) && call !in s.pending
    requires requestID in k.registry.byRequest
    ensures Leads(k, s, Launch(k, s, call, requestID, body, ctx, now, d).state, [])
  {
    hide Reachable, Effect, Leads, Encoding, Allowed, DeadlineOf, RequestFrame, WaitingFor;
    var p := PassLinks(d.verdicts, 0, s.links);
    var sent := d.rewrite(ctx);
    var w := WaitingFor(k.registry.byRequest[requestID].about, p.entered, DeadlineOf(sent, now));
    Bouncing(k, s, call, p.entered);
    if p.rejection.None? && s.box.HasRoom(call) {
      OpenLawful(k, s, call, requestID, p.entered, sent, DeadlineOf(sent, now), body);
    }
  }

  lemma OpenLawful(k: Setup, s: State, call: u32, requestID: u32, entered: nat, ctx: Ctx, deadline: Time, body: Bytes)
    requires Reachable(k, s) && s.ready && s.issued == Some(call) && k.Own(call) && call !in s.pending
    requires requestID in k.registry.byRequest && s.box.HasRoom(call) && entered <= s.links
    ensures var w := WaitingFor(k.registry.byRequest[requestID].about, entered, deadline);
            Leads(k, s, Do(k, s, Open(call, w, RequestFrame(k, call, requestID, ctx, body))), [])
  {
    hide Reachable, Apply, Leads, Encoding, Setup.Own, BoxSound;
    SaneAlways(k, s);
    SameCeilings(k, s);
    var w := WaitingFor(k.registry.byRequest[requestID].about, entered, deadline);
    Doing(k, s, Open(call, w, RequestFrame(k, call, requestID, ctx, body)));
  }

  lemma SameCeilings(k: Setup, s: State)
    requires BoxSound(k, s.box)
    ensures s.box.maxPerCall == k.config.maxCallQueue
  {
  }

  lemma SendItemLawful(k: Setup, s: State, call: u32, body: Bytes)
    requires Reachable(k, s)
    ensures Leads(k, s, SendItem(k, s, call, body).state, [])
    ensures |SendItem(k, s, call, body).state.journal| <= |s.journal| + 1
  {
    hide Reachable, Effect, Leads, Setup.Squeezed, BoxSound;
    Here(k, s);
    if SendItem(k, s, call, body).result.Ok? {
      SaneAlways(k, s);
      SameCeilings(k, s);
      BodyFrameKind(k, call, Kind.Item, s.pending[call].itemID, body);
      Doing(k, s, PushItem(call, body));
    }
  }

  lemma CloseSendLawful(k: Setup, s: State, call: u32)
    requires Reachable(k, s)
    ensures Leads(k, s, CloseSend(k, s, call).state, [])
    ensures |CloseSend(k, s, call).state.journal| <= |s.journal| + 1
  {
    hide Reachable, Effect, Leads, BoxSound;
    Here(k, s);
    if CloseSend(k, s, call).result.Ok? {
      SaneAlways(k, s);
      SameCeilings(k, s);
      Doing(k, s, PushEnd(call));
    }
  }

  lemma GrantLawful(k: Setup, s: State, call: u32, items: u32)
    requires Reachable(k, s)
    ensures Leads(k, s, GrantCredit(k, s, call, items).state, [])
    ensures |GrantCredit(k, s, call, items).state.journal| <= |s.journal| + 1
  {
    hide Reachable, Effect, Leads;
    Here(k, s);
    if GrantCredit(k, s, call, items).result.Ok? {
      Doing(k, s, Event.Grant(call, items));
    }
  }

  lemma CancelLawful(k: Setup, s: State, call: u32)
    requires Reachable(k, s)
    ensures Leads(k, s, CancelCall(k, s, call), [])
    ensures |CancelCall(k, s, call).journal| <= |s.journal| + 1
  {
    hide Reachable, Effect, Leads;
    Here(k, s);
    if call in s.pending {
      Doing(k, s, Abandon(call, CANCELLED));
    }
  }

  // ------------------------------------------------------------------ polling

  lemma PutSame<V>(table: map<u32, V>, call: u32)
    ensures Put(table, call, Lookup(table, call)) == table
  {
  }

  /** Bookkeeping changes the one record and nothing else. */
  lemma Updated(k: Setup, s: State, call: u32, r: Running)
    requires call in s.inflight
    ensures var t := Do(k, s, Update(call, r));
            t == s.(inflight := s.inflight[call := r], journal := t.journal)
  {
    PutSame(s.pending, call);
    NothingAdded(s.trace);
  }

  lemma UpdateLawful(k: Setup, s: State, call: u32, r: Running)
    requires Reachable(k, s) && call in s.inflight
    requires Touches(s.inflight[call], r) && TouchedBy(s.inflight[call], r, None)
    ensures Leads(k, s, Do(k, s, Update(call, r)), [])
    ensures var t := Do(k, s, Update(call, r));
            t == s.(inflight := s.inflight[call := r], journal := t.journal)
  {
    hide Reachable, Effect, Leads;
    Updated(k, s, call, r);
    Doing(k, s, Update(call, r));
  }

  lemma CollectGrantLawful(k: Setup, s: State, call: u32)
    requires Reachable(k, s)
    ensures Leads(k, s, CollectGrant(k, s, call), [])
  {
    hide Reachable, Apply, Leads;
    Here(k, s);
    if k.registry.creditID.Some? && call in s.inflight {
      var r := s.inflight[call];
      if r.shape.CallerStreams() && !r.inboundClosed {
        match r.handler.grant(r.asked) {
          case NoGranter =>
          case GrantFails(status) => Finishing(k, s, call, status);
          case Grants(items) =>
            var asked := Do(k, s, Update(call, r.(asked := r.asked + 1)));
            UpdateLawful(k, s, call, r.(asked := r.asked + 1));
            LedTo(k, s, asked, []);
            if items > 0 {
              Doing(k, asked, Event.Grant(call, items));
              OnwardQuietly(k, s, asked, Do(k, asked, Event.Grant(call, items)), []);
            }
        }
      }
    }
  }

  lemma StuckLawful(k: Setup, s: State, call: u32, now: Time)
    requires Reachable(k, s) && call in s.inflight
    ensures Leads(k, s, Stuck(k, s, call, s.inflight[call], now), [])
  {
    hide Reachable, Apply, Leads;
    Here(k, s);
    var r := s.inflight[call];
    if s.box.FullFor(call) {
      var r1 := r.(fullSince := if r.fullSince == 0 then now else r.fullSince);
      var s1 := Do(k, s, Update(call, r1));
      UpdateLawful(k, s, call, r1);
      LedTo(k, s, s1, []);
      Finishing(k, s1, call, RESOURCE_EXHAUSTED);
      OnwardQuietly(k, s, s1, Do(k, s1, Finish(call, RESOURCE_EXHAUSTED)), []);
    }
  }

  lemma RespondLawful(k: Setup, s: State, call: u32, body: Bytes)
    requires Reachable(k, s) && call in s.inflight && s.box.HasRoom(call) && !s.inflight[call].shape.CalleeStreams()
    requires s.inflight[call].handler.poll(s.inflight[call].polled) == Progress.Respond(body)
    ensures Leads(k, s, Do(k, s, Answer(call, body)), [])
  {
    hide Reachable, Apply, Leads, BoxSound, Setup.Own;
    SaneAlways(k, s);
    SameCeilings(k, s);
    Doing(k, s, Answer(call, body));
  }

  lemma CloseOutLawful(k: Setup, s: State, call: u32)
    requires Reachable(k, s) && call in s.inflight && s.box.HasRoom(call) && s.inflight[call].shape.CalleeStreams()
    requires s.inflight[call].handler.poll(s.inflight[call].polled) == Progress.End
    ensures Leads(k, s, Do(k, s, CloseOut(call)), [])
  {
    hide Reachable, Apply, Leads, BoxSound, Setup.Own;
    SaneAlways(k, s);
    SameCeilings(k, s);
    Doing(k, s, CloseOut(call));
  }

  lemma ConcludeLawful(k: Setup, s: State, call: u32, progress: Progress)
    requires Reachable(k, s) && call in s.inflight && s.box.HasRoom(call)
    requires progress == s.inflight[call].handler.poll(s.inflight[call].polled)
    ensures Leads(k, s, Conclude(k, s, call, s.inflight[call], progress), [])
  {
    hide Reachable, Apply, Leads, Allowed;
    Here(k, s);
    var r := s.inflight[call];
    match progress {
      case Pending => UpdateLawful(k, s, call, r.(polled := r.polled + 1));
      case Respond(body) =>
        if r.shape.CalleeStreams() {
          Finishing(k, s, call, INTERNAL);
        } else {
          RespondLawful(k, s, call, body);
        }
      case End =>
        if r.shape.CalleeStreams() {
          CloseOutLawful(k, s, call);
        } else {
          Finishing(k, s, call, INTERNAL);
        }
      case Fail(status) => Finishing(k, s, call, if status.Some? then status.value else INTERNAL);
      case Item(_) =>
    }
  }

  /** Polling is a chain of enabled steps; in particular every item a handler yields is
      queued with room to spare, so none is lost. */
  lemma {:induction false} PollLoopLawful(k: Setup, s: State, call: u32, now: Time)
    requires Reachable(k, s)
    ensures Leads(k, s, PollLoop(k, s, call, now), [])
    decreases Spare(s.box)
  {
    hide Reachable, Apply, Leads, BoxSound, Setup.Squeezed;
    Here(k, s);
    if call in s.inflight {
      var r := s.inflight[call];
      if !s.box.HasRoom(call) {
        StuckLawful(k, s, call, now);
      } else {
        var r1 := r.(fullSince := 0);
        var s1 := Do(k, s, Update(call, r1));
        UpdateLawful(k, s, call, r1);
        LedTo(k, s, s1, []);
        if !(r.shape.CalleeStreams() && r.Starved()) {
          PollOnce(k, s, call, r1, s1, now);
        }
      }
    }
  }

  lemma YieldLawful(k: Setup, s: State, call: u32, body: Bytes)
    requires Reachable(k, s) && call in s.inflight && s.box.HasRoom(call)
    requires s.inflight[call].shape.CalleeStreams() && !s.inflight[call].Starved()
    requires s.inflight[call].handler.poll(s.inflight[call].polled) == Progress.Item(body)
    ensures Leads(k, s, Do(k, s, Yield(call, body)), [])
  {
    hide Reachable, Apply, Leads, BoxSound, Setup.Own;
    SaneAlways(k, s);
    SameCeilings(k, s);
    Doing(k, s, Yield(call, body));
  }

  lemma {:induction false} PollOnce(k: Setup, s: State, call: u32, r1: Running, s1: State, now: Time)
    requires Reachable(k, s) && call in s.inflight && s.box.HasRoom(call)
    requires r1 == s.inflight[call].(fullSince := 0) && s1 == Do(k, s, Update(call, r1)) && Leads(k, s, s1, [])
    requires s1 == s.(inflight := s.inflight[call := r1], journal := s1.journal)
    requires !(r1.shape.CalleeStreams() && r1.Starved())
    ensures Leads(k, s, PollLoop(k, s, call, now), [])
    decreases Spare(s.box), 0
  {
    hide Reachable, Apply, Leads, Allowed;
    LedTo(k, s, s1, []);
    var progress := r1.handler.poll(r1.polled);
    if progress.Item? && r1.shape.CalleeStreams() {
      var s2 := Do(k, s1, Yield(call, progress.body));
      YieldLawful(k, s1, call, progress.body);
      LedTo(k, s1, s2, []);
      OnwardQuietly(k, s, s1, s2, []);
      YieldFills(k, s, call, r1, progress.body);
      PollLoopLawful(k, s2, call, now);
      OnwardQuietly(k, s, s2, PollLoop(k, s2, call, now), []);
    } else if progress.Item? {
      Finishing(k, s1, call, INTERNAL);
      OnwardQuietly(k, s, s1, Do(k, s1, Finish(call, INTERNAL)), []);
    } else {
      ConcludeLawful(k, s1, call, progress);
      OnwardQuietly(k, s, s1, Conclude(k, s1, call, r1, progress), []);
    }
  }

  lemma PollLawful(k: Setup, s: State, call: u32, now: Time)
    requires Reachable(k, s)
    ensures Leads(k, s, Poll(k, s, call, now), [])
  {
    hide Reachable, Apply, Leads;
    var s1 := CollectGrant(k, s, call);
    CollectGrantLawful(k, s, call);
    LedTo(k, s, s1, []);
    PollLoopLawful(k, s1, call, now);
    OnwardQuietly(k, s, s1, PollLoop(k, s1, call, now), []);
  }

  /** Hearing a message and then polling. */
  lemma HearThenPoll(k: Setup, s: State, t: State, call: u32, now: Time, m: Message)
    requires Leads(k, s, t, [m])
    ensures Leads(k, s, Poll(k, t, call, now), [m])
  {
    hide Reachable, Apply, Leads;
    LedTo(k, s, t, [m]);
    PollLawful(k, t, call, now);
    OnwardQuietly(k, s, t, Poll(k, t, call, now), [m]);
  }

  // ---------------------------------------------------------------- receiving

  lemma FailReceivedLawful(k: Setup, s: State, status: Status, m: Message)
    requires Reachable(k, s) && Provokes(k, m)
    ensures Leads(k, s, FailReceived(k, s, status, m), [m])
  {
    hide Reachable, Apply, Leads, Allowed;
    var call := m.Call();
    if call in s.inflight {
      FinishingOn(k, s, call, status, m);
    } else if call in s.pending {
      AbandoningOn(k, s, call, status, m);
    } else {
      Straying(k, s, call, status, m);
    }
  }

  lemma BounceLawful(k: Setup, s: State, call: u32, entered: nat, status: Status, m: Message)
    requires Reachable(k, s) && m.Call() == call && call !in s.inflight && call !in s.pending && entered <= s.links
    requires Provokes(k, m)
    ensures Leads(k, s, Hear(k, Do(k, s, Bounce(call, entered)), Stray(call, status), m), [m])
  {
    hide Reachable, Leads, Allowed, Apply;
    var s1 := Do(k, s, Bounce(call, entered));
    Bouncing(k, s, call, entered);
    LedTo(k, s, s1, []);
    BounceSame(k, s, call, entered);
    Straying(k, s1, call, status, m);
    Onward(k, s, s1, Hear(k, s1, Stray(call, status), m), [], [m]);
    NothingAdded([m]);
  }

  lemma BounceSame(k: Setup, s: State, call: u32, entered: nat)
    ensures ViewOf(Do(k, s, Bounce(call, entered)), call) == ViewOf(s, call)
  {
  }

  lemma WelcomeLawful(k: Setup, s: State, frame: Outgoing, ctx: Ctx, about: Method, now: Time, env: Arrival)
    requires Reachable(k, s) && s.ready && frame.header.kind == Request
    requires !k.Own(frame.header.call) && frame.header.call !in s.inflight && |s.inflight| < k.config.maxPending
    requires ctx.initialCredit == InitialCredit(frame)
    requires frame.messageID in k.registry.byRequest && about == k.registry.byRequest[frame.messageID].about
    ensures Leads(k, s, Welcome(k, s, frame, ctx, about, now, env), [Frame(frame)])
  {
    hide Reachable, Apply, Leads, Poll, BoxSound, Setup.Own, InitialCredit, Allowed, RunningFor;
    SaneAlways(k, s);
    var call, m := frame.header.call, Frame(frame);
    var p := PassLinks(env.verdicts, 0, s.links);
    var inflated := k.Inflate(frame.header, frame.body);
    if p.rejection.Some? {
      BounceLawful(k, s, call, p.entered, p.rejection.value, m);
    } else if inflated.Err? {
      BounceLawful(k, s, call, p.entered, inflated.error, m);
    } else if env.made.Err? {
      BounceLawful(k, s, call, p.entered, env.made.error, m);
    } else {
      var r := RunningFor(k, about, env.made.value, ctx, p.entered, now);
      AdmitLawful(k, s, frame, ctx, about, env.made.value, p.entered, now);
      HearThenPoll(k, s, Hear(k, s, Admit(call, r), m), call, now, m);
    }
  }

  lemma AdmitLawful(k: Setup, s: State, frame: Outgoing, ctx: Ctx, about: Method, handler: Handler, entered: nat,
                    now: Time)
    requires Reachable(k, s) && s.ready && frame.header.kind == Request
    requires !k.Own(frame.header.call) && frame.header.call !in s.inflight && |s.inflight| < k.config.maxPending
    requires ctx.initialCredit == InitialCredit(frame) && entered <= s.links
    requires frame.messageID in k.registry.byRequest && about == k.registry.byRequest[frame.messageID].about
    ensures var r := RunningFor(k, about, handler, ctx, entered, now);
            Leads(k, s, Hear(k, s, Admit(frame.header.call, r), Frame(frame)), [Frame(frame)])
  {
    hide Reachable, Apply, Leads, Setup.Own, InitialCredit, DeadlineOf;
    Hearing(k, s, Admit(frame.header.call, RunningFor(k, about, handler, ctx, entered, now)), Frame(frame));
  }

  lemma OnRequestLawful(k: Setup, s: State, frame: Outgoing, now: Time, env: Arrival)
    requires Reachable(k, s) && s.ready && frame.header.kind == Request
    ensures Leads(k, s, OnRequest(k, s, frame, now, env), [Frame(frame)])
  {
    hide Reachable, Apply, Leads, Meaning, Welcome, BoxSound, Setup.Own, Allowed;
    SaneAlways(k, s);
    var call, m := frame.header.call, Frame(frame);
    var ctx := if frame.header.hasCtx then Meaning(frame.ctx) else Some(EMPTY_CTX);
    if k.Own(call) {
      Straying(k, s, call, INVALID_ARGUMENT, m);
    } else if call in s.inflight {
      Ignoring(k, s, call, m);
    } else if frame.messageID !in k.registry.byRequest || !k.registry.byRequest[frame.messageID].served {
      Straying(k, s, call, UNIMPLEMENTED, m);
    } else if |s.inflight| >= k.config.maxPending {
      Straying(k, s, call, RESOURCE_EXHAUSTED, m);
    } else if ctx.None? {
      Straying(k, s, call, INVALID_ARGUMENT, m);
    } else {
      WelcomeLawful(k, s, frame, ctx.value, k.registry.byRequest[frame.messageID].about, now, env);
    }
  }

  lemma TouchLawful(k: Setup, s: State, call: u32, r: Running, m: Message)
    requires Reachable(k, s) && call in s.inflight && m.Call() == call
    requires Touches(s.inflight[call], r) && TouchedBy(s.inflight[call], r, Some(m))
    ensures Leads(k, s, Hear(k, s, Update(call, r), m), [m])
  {
    hide Reachable, Apply, Leads, Touches, TouchedBy;
    Hearing(k, s, Update(call, r), m);
  }

  lemma DeliverLawful(k: Setup, s: State, frame: Outgoing, body: Bytes, now: Time)
    requires Reachable(k, s) && frame.header.call in s.inflight
    requires frame.header.kind == Kind.Item && k.Inflate(frame.header, frame.body) == Ok(body)
    requires s.inflight[frame.header.call].shape.CallerStreams() && !s.inflight[frame.header.call].inboundClosed
    ensures Leads(k, s, Hear(k, s, Deliver(frame.header.call, body, now), Frame(frame)), [Frame(frame)])
  {
    hide Reachable, Apply, Leads, Setup.Inflate;
    Hearing(k, s, Deliver(frame.header.call, body, now), Frame(frame));
  }

  lemma OnCallerItemLawful(k: Setup, s: State, frame: Outgoing, body: Bytes, now: Time)
    requires Reachable(k, s) && frame.header.call in s.inflight
    requires frame.header.kind == Kind.Item && k.Inflate(frame.header, frame.body) == Ok(body)
    ensures Leads(k, s, OnCallerItem(k, s, frame, body, now), [Frame(frame)])
  {
    hide Reachable, Apply, Leads, Poll, Setup.Inflate, Allowed;
    var call, m := frame.header.call, Frame(frame);
    var r := s.inflight[call];
    if !r.shape.CallerStreams() {
      FinishingOn(k, s, call, INVALID_ARGUMENT, m);
    } else if r.inboundClosed {
      TouchLawful(k, s, call, r.(lastHeard := now), m);
    } else if frame.messageID != r.itemID {
      FinishingOn(k, s, call, INVALID_ARGUMENT, m);
    } else if r.handler.item(r.delivered).Some? {
      FinishingOn(k, s, call, r.handler.item(r.delivered).value, m);
    } else {
      DeliverLawful(k, s, frame, body, now);
      HearThenPoll(k, s, Hear(k, s, Deliver(call, body, now), m), call, now, m);
    }
  }

  lemma OnCallerEndLawful(k: Setup, s: State, frame: Outgoing, now: Time)
    requires Reachable(k, s) && frame.header.call in s.inflight && frame.header.kind == Kind.End
    ensures Leads(k, s, OnCallerEnd(k, s, frame, now), [Frame(frame)])
  {
    hide Reachable, Apply, Leads, Poll, Allowed;
    var call, m := frame.header.call, Frame(frame);
    var r := s.inflight[call];
    var r1 := r.(lastHeard := now, inboundClosed := true);
    if frame.messageID != k.registry.voidID || !r.shape.CallerStreams() {
      FinishingOn(k, s, call, INVALID_ARGUMENT, m);
    } else if r.inboundClosed {
      TouchLawful(k, s, call, r.(lastHeard := now), m);
    } else if r.handler.close.Some? {
      FinishingOn(k, s, call, r.handler.close.value, m);
    } else {
      TouchLawful(k, s, call, r1, m);
      HearThenPoll(k, s, Hear(k, s, Update(call, r1), m), call, now, m);
    }
  }

  lemma OnItemLawful(k: Setup, s: State, frame: Outgoing, body: Bytes, now: Time)
    requires Reachable(k, s)
    requires frame.header.kind == Kind.Item && k.Inflate(frame.header, frame.body) == Ok(body)
    ensures Leads(k, s, OnItem(k, s, frame, body, now), [Frame(frame)])
  {
    hide Reachable, Apply, Leads, OnCallerItem, Setup.Inflate;
    var call, m := frame.header.call, Frame(frame);
    if call in s.inflight {
      OnCallerItemLawful(k, s, frame, body, now);
    } else if call !in s.pending {
      Ignoring(k, s, call, m);
    } else if !s.pending[call].shape.CalleeStreams() || frame.messageID != s.pending[call].replyID {
      AbandoningOn(k, s, call, INVALID_ARGUMENT, m);
    } else {
      Hearing(k, s, TellItem(call, body), m);
    }
  }

  lemma OnEndLawful(k: Setup, s: State, frame: Outgoing, now: Time)
    requires Reachable(k, s) && frame.header.kind == Kind.End
    ensures Leads(k, s, OnEnd(k, s, frame, now), [Frame(frame)])
  {
    hide Reachable, Apply, Leads, OnCallerEnd;
    var call, m := frame.header.call, Frame(frame);
    if call in s.inflight {
      OnCallerEndLawful(k, s, frame, now);
    } else if call !in s.pending {
      Ignoring(k, s, call, m);
    } else if frame.messageID != k.registry.voidID || !s.pending[call].shape.CalleeStreams() {
      AbandoningOn(k, s, call, INVALID_ARGUMENT, m);
    } else {
      Hearing(k, s, Settle(call, Outcome(OutcomeKind.End, call, [], None)), m);
    }
  }

  lemma OnReplyLawful(k: Setup, s: State, frame: Outgoing, body: Bytes)
    requires Reachable(k, s) && k.Inflate(frame.header, frame.body) == Ok(body)
    requires frame.header.kind in {Kind.Response, Kind.Error}
    ensures frame.header.kind == Kind.Response ==> Leads(k, s, OnResponse(k, s, frame, body), [Frame(frame)])
    ensures frame.header.kind == Kind.Error ==> Leads(k, s, OnError(k, s, frame, body), [Frame(frame)])
  {
    hide Reachable, Apply, Leads, DecodeStatus;
    var call, m := frame.header.call, Frame(frame);
    if call !in s.pending {
      Ignoring(k, s, call, m);
    } else if frame.header.kind == Kind.Response {
      if s.pending[call].shape.CalleeStreams() || frame.messageID != s.pending[call].replyID {
        Hearing(k, s, Settle(call, FailedOutcome(call, INVALID_ARGUMENT)), m);
      } else {
        Hearing(k, s, Settle(call, Outcome(OutcomeKind.Response, call, body, None)), m);
      }
    } else if frame.header.kind == Kind.Error {
      var status := if frame.messageID == k.registry.errorID then DecodeStatus(body) else INVALID_ARGUMENT;
      Hearing(k, s, Settle(call, FailedOutcome(call, status)), m);
    }
  }

  lemma OnControlLawful(k: Setup, s: State, frame: Outgoing, body: Bytes, now: Time)
    requires Reachable(k, s) && k.Inflate(frame.header, frame.body) == Ok(body)
    ensures frame.header.kind == Cancel ==> Leads(k, s, OnCancel(k, s, frame), [Frame(frame)])
    ensures frame.header.kind == Kind.Credit ==> Leads(k, s, OnCredit(k, s, frame, body, now), [Frame(frame)])
  {
    hide Reachable, Apply, Leads, ReadCredit, Setup.Inflate, Allowed;
    var call, m := frame.header.call, Frame(frame);
    if frame.header.kind == Cancel {
      if call !in s.inflight {
        Ignoring(k, s, call, m);
      } else {
        FinishingOn(k, s, call, if frame.messageID == k.registry.voidID then CANCELLED else INVALID_ARGUMENT, m);
      }
    } else if frame.header.kind == Kind.Credit {
      if k.registry.creditID.None? || (call !in s.inflight && call !in s.pending) {
        Ignoring(k, s, call, m);
      } else if frame.messageID != k.registry.creditID.value {
        if call in s.inflight {
          FinishingOn(k, s, call, INVALID_ARGUMENT, m);
        } else {
          AbandoningOn(k, s, call, INVALID_ARGUMENT, m);
        }
      } else {
        AllowLawful(k, s, frame, body, now);
      }
    }
  }

  lemma AllowLawful(k: Setup, s: State, frame: Outgoing, body: Bytes, now: Time)
    requires Reachable(k, s) && k.Inflate(frame.header, frame.body) == Ok(body) && frame.header.kind == Kind.Credit
    requires frame.header.call in s.inflight || frame.header.call in s.pending
    ensures Leads(k, s, Hear(k, s, Allow(frame.header.call, ReadCredit(body), now), Frame(frame)), [Frame(frame)])
  {
    hide Reachable, Apply, Leads, ReadCredit, Setup.Inflate;
    Hearing(k, s, Allow(frame.header.call, ReadCredit(body), now), Frame(frame));
  }

  /** A decoded frame is heard exactly once. */
  lemma OnFrameLawful(k: Setup, s: State, frame: Outgoing, now: Time, env: Arrival)
    requires Reachable(k, s) && s.ready
    ensures Leads(k, s, OnFrame(k, s, frame, now, env), [Frame(frame)])
  {
    hide Reachable, Leads, OnRequest, OnResponse, OnError, OnItem, OnEnd, OnCancel, OnCredit, FailReceived,
         Setup.Inflate;
    if frame.header.kind == Request {
      OnRequestLawful(k, s, frame, now, env);
    } else {
      match k.Inflate(frame.header, frame.body) {
        case Err(status) => FailReceivedLawful(k, s, status, Frame(frame));
        case Ok(body) =>
          match frame.header.kind {
            case Request =>
            case Item => OnItemLawful(k, s, frame, body, now);
            case End => OnEndLawful(k, s, frame, now);
            case Response => OnReplyLawful(k, s, frame, body);
            case Error => OnReplyLawful(k, s, frame, body);
            case Cancel => OnControlLawful(k, s, frame, body, now);
            case Credit => OnControlLawful(k, s, frame, body, now);
          }
      }
    }
  }

  /** The message `OnMessage` hears, if it hears one at all. */
  function HeardBy(k: Setup, messageID: u32, payload: Bytes): seq<Message> {
    if messageID in k.registry.plain then []
    else
      match Decode(payload, k.config.maxCtxLen)
      case Err(_) =>
        if messageID in k.registry.owned && |payload| >= HEADER_LEN then [Garbled(ReadCallID(payload))] else []
      case Ok(p) => [Frame(Outgoing(messageID, p.header, p.ctx, p.body))]
  }

  lemma OnMessageLawful(k: Setup, s: State, messageID: u32, payload: Bytes, now: Time, env: Arrival)
    requires Reachable(k, s)
    ensures Leads(k, s, OnMessage(k, s, messageID, payload, now, env).state, HeardBy(k, messageID, payload))
  {
    hide Reachable, Leads, OnFrame, FailReceived, Decode, Apply, BoxSound, Setup.Own;
    Here(k, s);
    SaneAlways(k, s);
    if messageID !in k.registry.plain {
      match Decode(payload, k.config.maxCtxLen) {
        case Err(_) =>
          if messageID in k.registry.owned && |payload| >= HEADER_LEN {
            FailReceivedLawful(k, s, INTERNAL, Garbled(ReadCallID(payload)));
          }
        case Ok(p) =>
          var frame := Outgoing(messageID, p.header, p.ctx, p.body);
          if s.ready {
            OnFrameLawful(k, s, frame, now, env);
          } else {
            Ignoring(k, s, frame.header.call, Frame(frame));
          }
      }
    }
  }

  // --------------------------------------------------------------------- time

  lemma {:induction false} ExpirePendingLawful(k: Setup, s: State, ids: seq<u32>, now: Time)
    requires Reachable(k, s)
    ensures Leads(k, s, ExpirePending(k, s, ids, now), [])
    decreases |ids|
  {
    hide Reachable, Leads, Apply;
    Here(k, s);
    if ids != [] {
      var call := ids[0];
      var s1 := if call in s.pending && Past(s.pending[call].deadline, now)
                then Do(k, s, Abandon(call, DEADLINE_EXCEEDED)) else s;
      if s1 != s {
        Doing(k, s, Abandon(call, DEADLINE_EXCEEDED));
      }
      LedTo(k, s, s1, []);
      ExpirePendingLawful(k, s1, ids[1..], now);
      OnwardQuietly(k, s, s1, ExpirePending(k, s1, ids[1..], now), []);
    }
  }

  lemma {:induction false} ExpireInflightLawful(k: Setup, s: State, ids: seq<u32>, now: Time)
    requires Reachable(k, s)
    ensures Leads(k, s, ExpireInflight(k, s, ids, now), [])
    decreases |ids|
  {
    hide Reachable, Leads, Apply;
    Here(k, s);
    if ids != [] {
      var call := ids[0];
      var s1 := if call in s.inflight && Past(s.inflight[call].NextExpiry(), now)
                then Do(k, s, Finish(call, DEADLINE_EXCEEDED)) else s;
      if s1 != s {
        Finishing(k, s, call, DEADLINE_EXCEEDED);
      }
      LedTo(k, s, s1, []);
      ExpireInflightLawful(k, s1, ids[1..], now);
      OnwardQuietly(k, s, s1, ExpireInflight(k, s1, ids[1..], now), []);
    }
  }

  lemma {:induction false} PollAllLawful(k: Setup, s: State, ids: seq<u32>, now: Time)
    requires Reachable(k, s)
    ensures Leads(k, s, PollAll(k, s, ids, now), [])
    decreases |ids|
  {
    hide Reachable, Leads, Poll;
    Here(k, s);
    if ids != [] {
      var s1 := Poll(k, s, ids[0], now);
      PollLawful(k, s, ids[0], now);
      LedTo(k, s, s1, []);
      PollAllLawful(k, s1, ids[1..], now);
      OnwardQuietly(k, s, s1, PollAll(k, s1, ids[1..], now), []);
    }
  }

  lemma TickLawful(k: Setup, s: State, now: Time)
    requires Reachable(k, s)
    ensures Leads(k, s, Tick(k, s, now), [])
  {
    hide Reachable, Leads, PollAll, ExpirePending, ExpireInflight, SortedKeys;
    var s1 := ExpirePending(k, s, SortedKeys(s.pending.Keys), now);
    ExpirePendingLawful(k, s, SortedKeys(s.pending.Keys), now);
    LedTo(k, s, s1, []);
    var s2 := ExpireInflight(k, s1, SortedKeys(s1.inflight.Keys), now);
    ExpireInflightLawful(k, s1, SortedKeys(s1.inflight.Keys), now);
    LedTo(k, s1, s2, []);
    OnwardQuietly(k, s, s1, s2, []);
    PollAllLawful(k, s2, SortedKeys(s2.inflight.Keys), now);
    OnwardQuietly(k, s, s2, Tick(k, s, now), []);
  }

  // ------------------------------------------------------------- session's end

  function Unavailables(ids: seq<u32>): seq<Outcome> {
    if ids == [] then [] else [FailedOutcome(ids[0], UNAVAILABLE)] + Unavailables(ids[1..])
  }

  /** The unwindings of these calls, in this order, each through the links it entered. */
  function UnwoundFrom(depths: map<u32, nat>, ids: seq<u32>): seq<Visit> {
    if ids == [] then []
    else (if ids[0] in depths then [Out(Unwinding(depths[ids[0]]))] else []) + UnwoundFrom(depths, ids[1..])
  }

  function OwnDepths(table: map<u32, Waiting>): map<u32, nat> { map c | c in table :: table[c].entered }

  function TheirDepths(table: map<u32, Running>): map<u32, nat> { map c | c in table :: table[c].entered }

  lemma {:induction false} UnwoundFrame(a: map<u32, nat>, b: map<u32, nat>, ids: seq<u32>)
    requires forall c :: c in ids ==> Lookup(a, c) == Lookup(b, c)
    ensures UnwoundFrom(a, ids) == UnwoundFrom(b, ids)
  {
    if ids != [] {
      assert ids[0] in ids;
      UnwoundFrame(a, b, ids[1..]);
    }
  }

  /** The list names each key of a table once. */
  ghost predicate Lists<V>(ids: seq<u32>, table: map<u32, V>) {
    Distinct(ids) && forall c :: c in table <==> c in ids
  }

  lemma EnteredWithin(k: Setup, s: State, call: u32)
    requires Reachable(k, s)
    ensures call in s.pending ==> s.pending[call].entered <= s.links
    ensures call in s.inflight ==> s.inflight[call].entered <= s.links
  {
    hide Reachable, BoxSound;
    SaneAlways(k, s);
  }

  lemma SettleOne(k: Setup, s: State, call: u32)
    requires Reachable(k, s) && call in s.pending
    ensures var o := FailedOutcome(call, UNAVAILABLE);
            var t := Do(k, s, Settle(call, o));
            && Leads(k, s, t, [])
            && t.pending == s.pending - {call} && t.inflight == s.inflight && t.links == s.links
            && t.outcomes == s.outcomes + [o] && t.finished == s.finished
            && t.visits == s.visits + [Out(Unwinding(s.pending[call].entered))]
  {
    hide Reachable, Leads, Sane, BoxAfter;
    EnteredWithin(k, s, call);
    Doing(k, s, Settle(call, FailedOutcome(call, UNAVAILABLE)));
    PutSame(s.inflight, call);
  }

  lemma ListsRest<V>(ids: seq<u32>, table: map<u32, V>)
    requires Lists(ids, table) && ids != []
    ensures ids[0] in table && Lists(ids[1..], table - {ids[0]})
  {
    assert forall c :: c in ids <==> c == ids[0] || c in ids[1..];
  }

  lemma {:induction false} SettleAllDone(k: Setup, s: State, ids: seq<u32>)
    requires Reachable(k, s) && Lists(ids, s.pending)
    ensures var t := SettleAll(k, s, ids);
            && Leads(k, s, t, []) && t.pending == map[] && t.inflight == s.inflight
            && t.outcomes == s.outcomes + Unavailables(ids) && t.finished == s.finished
            && t.visits == s.visits + UnwoundFrom(OwnDepths(s.pending), ids)
    decreases |ids|
  {
    hide Reachable, Leads, Apply;
    Here(k, s);
    if ids == [] {
      NothingAdded(s.outcomes);
      NothingAdded(s.visits);
    } else {
      ListsRest(ids, s.pending);
      SettleOne(k, s, ids[0]);
      var s1 := Do(k, s, Settle(ids[0], FailedOutcome(ids[0], UNAVAILABLE)));
      LedTo(k, s, s1, []);
      SettleAllDone(k, s1, ids[1..]);
      OnwardQuietly(k, s, s1, SettleAll(k, s1, ids[1..]), []);
      Regroup(s.outcomes, [FailedOutcome(ids[0], UNAVAILABLE)], Unavailables(ids[1..]));
      UnwoundFrame(OwnDepths(s1.pending), OwnDepths(s.pending), ids[1..]);
      Regroup(s.visits, [Out(Unwinding(s.pending[ids[0]].entered))], UnwoundFrom(OwnDepths(s.pending), ids[1..]));
    }
  }

  lemma LeaveOne(k: Setup, s: State, call: u32)
    requires Reachable(k, s) && call in s.inflight && s.pending == map[]
    ensures var t := Do(k, s, Leave(call));
            && Leads(k, s, t, [])
            && t.inflight == s.inflight - {call} && t.pending == map[] && t.links == s.links
            && t.outcomes == s.outcomes && t.finished == s.finished
            && t.visits == s.visits + [Out(Unwinding(s.inflight[call].entered))]
  {
    hide Reachable, Leads, Sane, BoxAfter;
    EnteredWithin(k, s, call);
    Doing(k, s, Leave(call));
    PutSame(s.pending, call);
  }

  lemma {:induction false} LeaveAllDone(k: Setup, s: State, ids: seq<u32>)
    requires Reachable(k, s) && Lists(ids, s.inflight) && s.pending == map[]
    ensures var t := LeaveAll(k, s, ids);
            && Leads(k, s, t, []) && t.pending == map[] && t.inflight == map[]
            && t.outcomes == s.outcomes && t.finished == s.finished
            && t.visits == s.visits + UnwoundFrom(TheirDepths(s.inflight), ids)
    decreases |ids|
  {
    hide Reachable, Leads, Apply;
    Here(k, s);
    NothingAdded(s.visits);
    if ids != [] {
      ListsRest(ids, s.inflight);
      LeaveOne(k, s, ids[0]);
      var s1 := Do(k, s, Leave(ids[0]));
      LedTo(k, s, s1, []);
      LeaveAllDone(k, s1, ids[1..]);
      OnwardQuietly(k, s, s1, LeaveAll(k, s1, ids[1..]), []);
      UnwoundFrame(TheirDepths(s1.inflight), TheirDepths(s.inflight), ids[1..]);
      Regroup(s.visits, [Out(Unwinding(s.inflight[ids[0]].entered))],
              UnwoundFrom(TheirDepths(s.inflight), ids[1..]));
    }
  }

  lemma SortedLists<V>(table: map<u32, V>)
    ensures Lists(SortedKeys(table.Keys), table)
  {
    SortedKeysSorted(table.Keys);
  }

  /** The end of a session settles every call still pending, once, as unavailable, in the
      order of the ids, and unwinds every live call, those of this side first; nothing
      stays in flight or queued; ending it again does nothing. */
  lemma SessionEnds(k: Setup, s: State)
    requires Reachable(k, s)
    ensures Leads(k, s, OnSessionEnd(k, s), [])
    ensures !s.finished ==>
              var t := OnSessionEnd(k, s);
              && t.pending == map[] && t.inflight == map[] && t.box == t.box.Clear() && t.finished && !t.ready
              && t.outcomes == s.outcomes + Unavailables(SortedKeys(s.pending.Keys))
              && t.visits == s.visits + UnwoundFrom(OwnDepths(s.pending), SortedKeys(s.pending.Keys))
                             + UnwoundFrom(TheirDepths(s.inflight), SortedKeys(s.inflight.Keys))
              && OnSessionEnd(k, t) == t
    ensures s.finished ==> OnSessionEnd(k, s) == s
  {
    hide Reachable, Leads, SettleAll, LeaveAll, SortedKeys, Lists, Unavailables, UnwoundFrom;
    Here(k, s);
    if !s.finished {
      SortedLists(s.pending);
      SettleAllDone(k, s, SortedKeys(s.pending.Keys));
      var s1 := SettleAll(k, s, SortedKeys(s.pending.Keys));
      LedTo(k, s, s1, []);
      SortedLists(s1.inflight);
      LeaveAllDone(k, s1, SortedKeys(s1.inflight.Keys));
      var s2 := LeaveAll(k, s1, SortedKeys(s1.inflight.Keys));
      LedTo(k, s1, s2, []);
      OneStep(k, s2, Step(EndSession, None));
      OnwardQuietly(k, s1, s2, OnSessionEnd(k, s), []);
      OnwardQuietly(k, s, s1, OnSessionEnd(k, s), []);
    }
  }

  /** Once a session has ended a message settles, admits and tells nothing. It queues
      something exactly when it is of this protocol, names a call and does not decode:
      such a message is answered before anyone asks whether the core is ready. */
  lemma SilentUnlessUndecodable(k: Setup, s: State, messageID: u32, payload: Bytes, now: Time, env: Arrival)
    requires !s.ready && s.pending == map[] && s.inflight == map[]
    ensures var t := OnMessage(k, s, messageID, payload, now, env).state;
            && t.pending == map[] && t.inflight == map[] && t.outcomes == s.outcomes && t.ready == s.ready
            && (t.box != s.box <==>
                  && messageID !in k.registry.plain && messageID in k.registry.owned
                  && |payload| >= HEADER_LEN && Decode(payload, k.config.maxCtxLen).Err?)
  {
    hide Decode, OnFrame, Apply;
    match Decode(payload, k.config.maxCtxLen) {
      case Ok(p) => Unheeded(k, s, Frame(Outgoing(messageID, p.header, p.ctx, p.body)));
      case Err(_) =>
        if |payload| >= HEADER_LEN {
          Complained(k, s, Garbled(ReadCallID(payload)), INTERNAL);
        }
    }
  }

  lemma Unheeded(k: Setup, s: State, m: Message)
    ensures var t := Hear(k, s, Ignore(m.Call()), m);
            t.box == s.box && t.ready == s.ready && t.outcomes == s.outcomes
            && (s.pending == map[] && s.inflight == map[] ==> t.pending == map[] && t.inflight == map[])
  {
    PutSame(s.pending, m.Call());
    PutSame(s.inflight, m.Call());
  }

  lemma Complained(k: Setup, s: State, m: Message, status: Status)
    ensures var t := Hear(k, s, Stray(m.Call(), status), m);
            t.box != s.box && t.ready == s.ready && t.outcomes == s.outcomes
            && (s.pending == map[] && s.inflight == map[] ==> t.pending == map[] && t.inflight == map[])
  {
    hide Setup.ErrorFrame;
    PutSame(s.pending, m.Call());
    PutSame(s.inflight, m.Call());
    assert Hear(k, s, Stray(m.Call(), status), m).box == s.box.Append(m.Call(), k.ErrorFrame(m.Call(), status));
  }
}
