/** What the operations of a call's owner come to: when each is accepted, which error it
    gives otherwise, and what it then leaves behind. */
module CallEffects {
  import opened Basics
  import opened Wire
  import opened OutboxModel
  import opened CallIds
  import opened CtxModel
  import opened Session
  import opened CoreModel
  import opened CoreOps
  import opened Chains
  import opened Effects
  import CtxCodec
  import Layout

  // --------------------------------------------------------- items, end, credit

  /** The ceilings leave room for one more frame of this call. */
  predicate Room(k: Setup, s: State, c: u32) {
    s.box.total < k.config.maxConnectionQueue && |s.box.Queue(c)| < k.config.maxCallQueue
  }

  lemma RoomIs(k: Setup, s: State, c: u32)
    requires Reachable(k, s)
    ensures Room(k, s, c) <==> s.box.HasRoom(c)
  {
    hide Reachable;
    BoxStaysSound(k, s);
  }

  /** `SendItem` is accepted if and only if the call waits, its caller streams and has not
      closed, credit is left or none was ever given, the body fits, and there is room; the
      first of these that fails names the error. Accepted, the ITEM is queued behind all
      else and one credit is spent if credit counts; refused, nothing happens. */
  lemma SendItemExactly(k: Setup, s: State, c: u32, body: Bytes)
    requires Reachable(k, s)
    ensures var did, w := SendItem(k, s, c, body), Lookup(s.pending, c);
            && (did.result.Ok? <==>
                  && w.Some? && w.value.shape.CallerStreams() && !w.value.sendClosed
                  && (w.value.established ==> w.value.credit > 0)
                  && |body| <= k.config.maxBodyLen && Room(k, s, c))
            && (did.result == Err(UnknownCall) <==> c !in s.pending)
            && (did.result == Err(WrongShape) <==> w.Some? && !w.value.shape.CallerStreams())
            && (w.Some? && w.value.shape.CallerStreams() ==>
                  && (did.result == Err(SendClosed) <==> w.value.sendClosed)
                  && (!w.value.sendClosed ==>
                        && (did.result == Err(NoCredit) <==> w.value.established && w.value.credit == 0)
                        && ((w.value.established ==> w.value.credit > 0) ==>
                              && (did.result == Err(BodyTooLarge) <==> |body| > k.config.maxBodyLen)
                              && (did.result == Err(Congested) <==>
                                    |body| <= k.config.maxBodyLen && !Room(k, s, c)))))
            && (did.result.Err? ==> did.state == s)
    ensures SendItem(k, s, c, body).result.Ok? ==> ItemSent(k, s, SendItem(k, s, c, body).state, c, body)
  {
    hide Reachable, Apply, Room, ItemSent;
    RoomIs(k, s, c);
    if SendItem(k, s, c, body).result.Ok? {
      ItemQueued(k, s, SendItem(k, s, c, body).state, c, body);
    }
  }

  ghost predicate ItemSent(k: Setup, s: State, t: State, c: u32, body: Bytes) {
    && c in s.pending && c in t.pending && Apart(s, t, c)
    && t.pending[c] == s.pending[c].(credit := t.pending[c].credit)
    && t.pending[c].credit as int == s.pending[c].credit as int - (if s.pending[c].established then 1 else 0)
    && Lookup(t.inflight, c) == Lookup(s.inflight, c) && t.outcomes == s.outcomes && t.visits == s.visits
    && exists f :: Adds(s, t, c, [f]) && Says(k, f, Kind.Item, c, s.pending[c].itemID, body)
  }

  lemma ItemQueued(k: Setup, s: State, t: State, c: u32, body: Bytes)
    requires t == Do(k, s, PushItem(c, body)) && c in s.pending
    requires s.pending[c].established ==> s.pending[c].credit > 0
    ensures ItemSent(k, s, t, c, body)
  {
    hide Apply, Setup.BodyFrame, Says, Apart;
    Stepwise(k, s, t, PushItem(c, body), None);
    NothingAdded(s.outcomes);
    var f := k.BodyFrame(c, Kind.Item, s.pending[c].itemID, body);
    BodyFrameSays(k, c, Kind.Item, s.pending[c].itemID, body);
    assert Adds(s, t, c, [f]);
  }

  /** `CloseSend` is accepted if and only if the call waits, its caller streams and has not
      closed, and there is room. Accepted, the END is queued and the stream is closed. */
  lemma CloseSendExactly(k: Setup, s: State, c: u32)
    requires Reachable(k, s)
    ensures var did, w := CloseSend(k, s, c), Lookup(s.pending, c);
            && (did.result.Ok? <==>
                  w.Some? && w.value.shape.CallerStreams() && !w.value.sendClosed && Room(k, s, c))
            && (did.result == Err(UnknownCall) <==> c !in s.pending)
            && (did.result == Err(WrongShape) <==> w.Some? && !w.value.shape.CallerStreams())
            && (w.Some? && w.value.shape.CallerStreams() ==>
                  && (did.result == Err(SendClosed) <==> w.value.sendClosed)
                  && (did.result == Err(Congested) <==> !w.value.sendClosed && !Room(k, s, c)))
            && (did.result.Err? ==> did.state == s)
    ensures CloseSend(k, s, c).result.Ok? ==> StreamClosed(k, s, CloseSend(k, s, c).state, c)
  {
    hide Reachable, Apply, Room, StreamClosed;
    RoomIs(k, s, c);
    if CloseSend(k, s, c).result.Ok? {
      EndQueued(k, s, CloseSend(k, s, c).state, c);
    }
  }

  ghost predicate StreamClosed(k: Setup, s: State, t: State, c: u32) {
    && c in s.pending && Apart(s, t, c)
    && Lookup(t.pending, c) == Some(s.pending[c].(sendClosed := true))
    && Lookup(t.inflight, c) == Lookup(s.inflight, c) && t.outcomes == s.outcomes && t.visits == s.visits
    && Adds(s, t, c, [Signal(k, Kind.End, c)])
  }

  lemma EndQueued(k: Setup, s: State, t: State, c: u32)
    requires t == Do(k, s, PushEnd(c)) && c in s.pending
    ensures StreamClosed(k, s, t, c)
  {
    hide Apply, Apart;
    Stepwise(k, s, t, PushEnd(c), None);
    NothingAdded(s.outcomes);
  }

  /** `Grant` is accepted if and only if credit is in the protocol and the call is live with
      a stream that runs towards this side; a running call is looked at before a waiting
      one. Accepted, the credit waits to be told, on top of what waits already. */
  lemma GrantExactly(k: Setup, s: State, c: u32, items: u32)
    ensures var did, w, r := GrantCredit(k, s, c, items), Lookup(s.pending, c), Lookup(s.inflight, c);
            && (did.result == Err(CreditUnsupported) <==> k.registry.creditID.None?)
            && (k.registry.creditID.Some? ==>
                  && (did.result == Err(UnknownCall) <==> r.None? && w.None?)
                  && (did.result.Ok? <==> if r.Some? then r.value.shape.CallerStreams()
                                          else w.Some? && w.value.shape.CalleeStreams())
                  && (did.result == Err(WrongShape) <==>
                        if r.Some? then !r.value.shape.CallerStreams() else w.Some? && !w.value.shape.CalleeStreams()))
            && (did.result.Err? ==> did.state == s)
            && (did.result.Ok? ==> Endows(k, s, did.state, c, items))
  {
    hide Apply, Endows;
    if GrantCredit(k, s, c, items).result.Ok? {
      GrantDone(k, s, GrantCredit(k, s, c, items).state, c, items);
    }
  }

  /** `Cancel` gives the call up as cancelled if it waits, and does nothing otherwise. */
  lemma CancelExactly(k: Setup, s: State, c: u32)
    requires Reachable(k, s)
    ensures var t := CancelCall(k, s, c); if c in s.pending then GivenUp(k, s, t, c, CANCELLED) else t == s
  {
    hide Reachable, Apply, GivenUp, BoxSound;
    SaneAlways(k, s);
    if c in s.pending {
      AbandonDone(k, s, CancelCall(k, s, c), c, CANCELLED, None);
    }
  }

  // ------------------------------------------------------------------- a call

  /** The first of these links to reject is the i-th. */
  ghost predicate RejectsAt(verdicts: Verdicts, links: nat, i: nat) {
    i < links && verdicts(i).Some? && forall j: nat :: j < i ==> verdicts(j).None?
  }

  ghost predicate AllPass(verdicts: Verdicts, links: nat) { forall i: nat :: i < links ==> verdicts(i).None? }

  /** A chain lets a call pass if and only if every link does; otherwise the first link to
      reject gives the status, and exactly those before it are entered. */
  lemma {:induction false} PassExactly(verdicts: Verdicts, from: nat, links: nat)
    requires from <= links && AllPass(verdicts, from)
    ensures var p := PassLinks(verdicts, from, links);
            && (p.rejection.None? <==> AllPass(verdicts, links))
            && (p.rejection.Some? ==> RejectsAt(verdicts, links, p.entered) && p.rejection == verdicts(p.entered))
            && (p.rejection.None? ==> p.entered == links)
    decreases links - from
  {
    if from < links && verdicts(from).None? {
      PassExactly(verdicts, from + 1, links);
    }
  }

  /** A time in whole milliseconds: at least one, at most what a word holds. */
  predicate InMillis(allowed: Time, ms: u32) {
    && ms >= 1
    && (ms > 1 ==> ms as int * MILLISECOND <= allowed)
    && (ms < U32_MAX as u32 ==> allowed < (ms as int + 1) * MILLISECOND)
  }

  /** The ctx a call sets out with is the one given, or none, its deadline lowered to what
      the options allow. */
  ghost predicate SetsOut(given: Option<Ctx>, allowed: Time, c: Ctx) {
    var from := if given.Some? then given.value else EMPTY_CTX;
    && c == from.(deadlineMs := c.deadlineMs)
    && (allowed <= 0 ==> c.deadlineMs == from.deadlineMs)
    && (allowed > 0 ==>
          exists ms :: InMillis(allowed, ms)
                       && c.deadlineMs == if from.deadlineMs != 0 && from.deadlineMs < ms then from.deadlineMs else ms)
  }

  lemma SetOutSetsOut(given: Option<Ctx>, allowed: Time)
    ensures SetsOut(given, allowed, SetOut(given, allowed))
  {
    if allowed > 0 {
      var q := allowed / MILLISECOND;
      assert allowed == q * MILLISECOND + allowed % MILLISECOND;
      assert InMillis(allowed, MillisOf(allowed));
    }
  }

  /** The id is the first one free from the allocator's next id on. */
  ghost predicate FirstFree(k: Setup, s: State, call: u32, j: nat) {
    && k.Own(call) && call !in s.pending && call == Nth(s.next, j)
    && forall i: nat :: i < j ==> Nth(s.next, i) in s.pending
  }

  /** What a call must meet before any id or link is asked for. */
  ghost predicate Eligible(k: Setup, s: State, requestID: u32, body: Bytes) {
    && s.ready && requestID in k.registry.byRequest && |body| <= k.config.maxBodyLen
    && |s.pending| < k.config.maxPending
  }

  /** The ctx block would be longer than the ceiling. */
  predicate TooLong(k: Setup, sent: Ctx) { sent != EMPTY_CTX && |Encoding(sent)| > k.config.maxCtxLen }

  /** The instant a ctx bounds its call to: none, or its milliseconds from now. */
  function Until(sent: Ctx, now: Time): Time {
    if sent.deadlineMs == 0 then 0 else now + sent.deadlineMs as int * MILLISECOND
  }

  /** The record of a call just made: the ids and the shape of its method, the deadline of
      its ctx, all links entered, nothing closed, no credit yet. */
  ghost predicate Awaits(k: Setup, w: Waiting, requestID: u32, sent: Ctx, now: Time, links: nat)
    requires requestID in k.registry.byRequest
  {
    var about := k.registry.byRequest[requestID].about;
    && w.requestID == about.requestID && w.replyID == about.replyID && w.shape == about.shape
    && w.itemID == (if about.requestItem.Some? then about.requestItem.value else about.requestID)
    && w.deadline == Until(sent, now) && w.entered == links
    && !w.sendClosed && !w.established && w.credit == 0
  }

  /** The REQUEST of a call: under its about's request id, with this body, and with a ctx
      block that means what was sent, unless that is nothing. */
  ghost predicate Asks(k: Setup, f: Outgoing, call: u32, requestID: u32, sent: Ctx, body: Bytes) {
    && f.messageID == requestID && f.header.kind == Request && f.header.call == call && Bears(k, f, body)
    && (f.header.hasCtx <==> sent != EMPTY_CTX)
    && f.ctx == (if sent == EMPTY_CTX then [] else Encoding(sent))
    && (f.header.hasCtx && Layout.AllSpellable(LAYOUT, ValuesOf(sent)) ==> Meaning(f.ctx) == Some(sent))
  }

  lemma RequestAsks(k: Setup, call: u32, requestID: u32, sent: Ctx, body: Bytes)
    ensures Asks(k, RequestFrame(k, call, requestID, sent, body), call, requestID, sent, body)
  {
    hide Encoding, Meaning, Layout.AllSpellable;
    CtxCodec.CtxRoundTrip(sent, []);
    NothingAdded(Encoding(sent));
  }

  /** A call has been made: its record waits and its REQUEST is queued. */
  ghost predicate Made(k: Setup, s: State, t: State, call: u32, requestID: u32, body: Bytes, sent: Ctx, now: Time)
    requires requestID in k.registry.byRequest
  {
    && call in t.pending && Awaits(k, t.pending[call], requestID, sent, now, s.links)
    && Apart(s.(next := t.next), t, call) && Lookup(t.inflight, call) == Lookup(s.inflight, call)
    && t.outcomes == s.outcomes && t.visits == s.visits + [In(s.links)]
    && exists f :: Adds(s, t, call, [f]) && Asks(k, f, call, requestID, sent, body)
  }

  lemma OpenMakes(k: Setup, s: State, t: State, call: u32, requestID: u32, body: Bytes, sent: Ctx, now: Time)
    requires requestID in k.registry.byRequest
    requires var w := WaitingFor(k.registry.byRequest[requestID].about, s.links, DeadlineOf(sent, now));
             t == Do(k, s, Open(call, w, RequestFrame(k, call, requestID, sent, body)))
    ensures Made(k, s, t, call, requestID, body, sent, now)
  {
    hide Apply, RequestFrame, Asks, Apart;
    var w := WaitingFor(k.registry.byRequest[requestID].about, s.links, DeadlineOf(sent, now));
    var f := RequestFrame(k, call, requestID, sent, body);
    Stepwise(k, s, t, Open(call, w, f), None);
    NothingAdded(s.outcomes);
    RequestAsks(k, call, requestID, sent, body);
    assert Adds(s, t, call, [f]);
    assert s.(next := t.next) == s by { Stays(s, t, call); }
  }

  lemma Stays(s: State, t: State, call: u32)
    requires Apart(s, t, call)
    ensures t.next == s.next
  {
  }

  /** A call was refused at the links or behind them: the first link to reject names the
      error, else the ctx does, else the want of room; the links entered are unwound. */
  ghost predicate Bounced(k: Setup, s: State, did: Did<u32>, verdicts: Verdicts, sent: Ctx, entered: nat) {
    && Unmoved(s, did.state.(next := s.next, visits := s.visits))
    && did.state.visits == s.visits + [In(entered), Out(Unwinding(entered))]
    && if AllPass(verdicts, s.links) then
         entered == s.links && did.result == Err(if TooLong(k, sent) then CallError.CtxTooLarge else Congested)
       else RejectsAt(verdicts, s.links, entered) && did.result == Err(Rejected(verdicts(entered).value))
  }

  /** With an id in hand, a call is accepted if and only if every link lets it pass, the ctx
      that leaves fits, and there is room. Then it has been made, else bounced. */
  ghost predicate Decided(k: Setup, s: State, did: Did<u32>, call: u32, requestID: u32, body: Bytes, sent: Ctx,
                          now: Time, verdicts: Verdicts)
    requires requestID in k.registry.byRequest
  {
    && (did.result.Ok? <==> AllPass(verdicts, s.links) && !TooLong(k, sent) && Room(k, s, call))
    && (did.result.Ok? ==> did.result == Ok(call) && Made(k, s, did.state, call, requestID, body, sent, now))
    && (did.result.Err? ==> exists entered :: Bounced(k, s, did, verdicts, sent, entered))
  }

  lemma NextIsOwn(k: Setup, s: State)
    requires Reachable(k, s)
    ensures k.Own(s.next)
  {
    hide Reachable, BoxSound;
    SaneAlways(k, s);
  }

  /** Probing for an id changes nothing but the next id. */
  lemma ProbeMoves(k: Setup, s: State, t: State)
    requires k.Own(s.next)
    requires var search := Allocation(s.next, s.pending.Keys); t == Do(k, s, Probed(search.probes, search.found.Some?))
    ensures Unmoved(s, t.(next := s.next))
    ensures var search := Allocation(s.next, s.pending.Keys);
            if forall id: u32 :: k.Own(id) ==> id in s.pending then search.found.None?
            else
              && search.found.Some? && search.probes > 0
              && FirstFree(k, s, search.found.value, search.probes - 1) && t.next == Nth(s.next, search.probes)
  {
    hide Probe;
    AllocateComplete(k.role, s.next, s.pending.Keys);
    ProbeFindsFirst(s.next, s.pending.Keys, PARITY_IDS);
  }

  lemma LaunchExactly(k: Setup, s: State, call: u32, requestID: u32, body: Bytes, ctx: Ctx, now: Time, d: Departure)
    requires requestID in k.registry.byRequest && (Room(k, s, call) <==> s.box.HasRoom(call))
    ensures var did, sent := Launch(k, s, call, requestID, body, ctx, now, d), d.rewrite(ctx);
            && Decided(k, s, did, call, requestID, body, sent, now, d.verdicts)
            && did.state.next == s.next
  {
    hide Apply, Encoding, Made, RequestFrame, Room, WaitingFor, DeadlineOf;
    PassExactly(d.verdicts, 0, s.links);
    var p := PassLinks(d.verdicts, 0, s.links);
    var did, sent := Launch(k, s, call, requestID, body, ctx, now, d), d.rewrite(ctx);
    if did.result.Ok? {
      OpenMakes(k, s, did.state, call, requestID, body, sent, now);
      MadeStays(k, s, did.state, call, requestID, body, sent, now);
    } else {
      BounceDone(k, s, did.state, call, p.entered);
      assert Bounced(k, s, did, d.verdicts, sent, p.entered);
    }
  }

  /** `Call`, where it is refused before an id is allocated: by the first of these reasons,
      and nothing happens. */
  lemma CallRefused(k: Setup, s: State, requestID: u32, body: Bytes, ctx: Option<Ctx>, allowed: Time, now: Time,
                    d: Departure)
    requires !Eligible(k, s, requestID, body)
    ensures var did := Call(k, s, requestID, body, ctx, allowed, now, d);
            && did.state == s
            && did.result == Err(if !s.ready then NotReady
                                 else if requestID !in k.registry.byRequest then UnknownMethod
                                 else if |body| > k.config.maxBodyLen then BodyTooLarge
                                 else TooManyPending)
  {
  }

  /** `Call` otherwise. It gives up for want of an id exactly when every own id waits. Else
      it takes the first free one, and is accepted if and only if every link lets it pass,
      the ctx that the chain made of it fits, and there is room; the first of these to fail
      names the error, and the links entered are unwound. */
  lemma CallExactly(k: Setup, s: State, requestID: u32, body: Bytes, ctx: Option<Ctx>, allowed: Time, now: Time,
                    d: Departure) returns (call: u32, j: nat, from: Ctx)
    requires Reachable(k, s) && Eligible(k, s, requestID, body)
    ensures SetsOut(ctx, allowed, from)
    ensures var did, sent := Call(k, s, requestID, body, ctx, allowed, now, d), d.rewrite(from);
            if forall id: u32 :: k.Own(id) ==> id in s.pending then
              did.result == Err(CallIDExhausted) && Unmoved(s, did.state.(next := s.next))
            else
              && FirstFree(k, s, call, j) && did.state.next == Nth(s.next, j + 1)
              && Decided(k, s, did, call, requestID, body, sent, now, d.verdicts)
  {
    hide Reachable, Apply, Allocation, Launch, SetOut, SetsOut, Decided, FirstFree, Room;
    SetOutSetsOut(ctx, allowed);
    call, j, from := 0, 0, SetOut(ctx, allowed);
    NextIsOwn(k, s);
    var search := Allocation(s.next, s.pending.Keys);
    var s1 := Do(k, s, Probed(search.probes, search.found.Some?));
    ProbeMoves(k, s, s1);
    if search.found.Some? {
      call, j := search.found.value, search.probes - 1;
      RoomIs(k, s, call);
      LaunchAfter(k, s, s1, call, requestID, body, from, now, d);
    }
  }

  lemma LaunchAfter(k: Setup, s: State, m: State, call: u32, requestID: u32, body: Bytes, ctx: Ctx, now: Time,
                    d: Departure)
    requires requestID in k.registry.byRequest && Unmoved(s, m.(next := s.next))
    requires Room(k, s, call) <==> s.box.HasRoom(call)
    ensures var did, sent := Launch(k, m, call, requestID, body, ctx, now, d), d.rewrite(ctx);
            && Decided(k, s, did, call, requestID, body, sent, now, d.verdicts)
            && did.state.next == m.next
  {
    hide Launch, Made, Bounced, Room;
    RoomSame(k, s, m, call);
    LaunchExactly(k, m, call, requestID, body, ctx, now, d);
    var did, sent := Launch(k, m, call, requestID, body, ctx, now, d), d.rewrite(ctx);
    if did.result.Ok? {
      MadeAfter(k, s, m, did.state, call, requestID, body, sent, now);
    } else {
      var entered :| Bounced(k, m, did, d.verdicts, sent, entered);
      BouncedAfter(k, s, m, did, d.verdicts, sent, entered);
    }
  }

  lemma RoomSame(k: Setup, s: State, t: State, c: u32)
    requires t.box == s.box
    ensures Room(k, t, c) <==> Room(k, s, c)
  {
  }

  /** What is said of the state behind the allocation holds of the one before it. */
  lemma MadeAfter(k: Setup, s: State, m: State, t: State, call: u32, requestID: u32, body: Bytes, sent: Ctx, now: Time)
    requires requestID in k.registry.byRequest && Unmoved(s, m.(next := s.next))
    requires Made(k, m, t, call, requestID, body, sent, now)
    ensures Made(k, s, t, call, requestID, body, sent, now)
  {
    hide Awaits, Asks;
    var f :| Adds(m, t, call, [f]) && Asks(k, f, call, requestID, sent, body);
    assert Adds(s, t, call, [f]);
    assert forall c :: ViewOf(m, c) == ViewOf(s, c);
  }

  lemma BouncedAfter(k: Setup, s: State, m: State, did: Did<u32>, verdicts: Verdicts, sent: Ctx, entered: nat)
    requires Unmoved(s, m.(next := s.next)) && Bounced(k, m, did, verdicts, sent, entered)
    ensures Bounced(k, s, did, verdicts, sent, entered)
  {
  }

  lemma MadeStays(k: Setup, s: State, t: State, call: u32, requestID: u32, body: Bytes, sent: Ctx, now: Time)
    requires requestID in k.registry.byRequest
    requires var w := WaitingFor(k.registry.byRequest[requestID].about, s.links, DeadlineOf(sent, now));
             t == Do(k, s, Open(call, w, RequestFrame(k, call, requestID, sent, body)))
    ensures t.next == s.next
  {
    hide Change, BoxAfter;
  }
}
