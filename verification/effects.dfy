/** What single steps of a core come to, in terms of what its owner, its peer, its handlers
    and its interceptors can notice: the frames queued, the outcomes told, the records kept
    and the links visited. The laws of the operations (`CallEffects`, `PollEffects`,
    `MessageEffects`, `TickEffects`) are stated in these terms. */
module Effects {
  import opened Basics
  import opened Wire
  import opened OutboxModel
  import opened Session
  import opened CoreModel

  // ------------------------------------------------------------------- frames

  /** Squeezing makes this body shorter, and it is long enough to be tried. */
  predicate Shrinks(k: Setup, body: Bytes) {
    && k.compressor.Some? && |body| >= k.config.compressAbove
    && var squeezed := k.compressor.value.compress(body);
       squeezed.Some? && |squeezed.value| < |body|
  }

  /** The frame carries this body, squeezed exactly if that makes it shorter. */
  predicate Bears(k: Setup, f: Outgoing, body: Bytes) {
    if Shrinks(k, body) then f.header.compressed && Some(f.body) == k.compressor.value.compress(body)
    else !f.header.compressed && f.body == body
  }

  /** A frame without a ctx, of this kind, under this call and message id, with this body. */
  predicate Says(k: Setup, f: Outgoing, kind: Kind, call: u32, id: u32, body: Bytes) {
    && f.messageID == id && f.header.kind == kind && f.header.call == call
    && !f.header.hasCtx && f.ctx == [] && Bears(k, f, body)
  }

  /** An ERROR with this status. */
  predicate Complains(k: Setup, f: Outgoing, call: u32, status: Status) {
    Says(k, f, Kind.Error, call, k.registry.errorID, status.Encode())
  }

  /** An END or a CANCEL: the void message, with no body. */
  function Signal(k: Setup, kind: Kind, call: u32): Outgoing {
    Outgoing(k.registry.voidID, Header(kind, call, false, false), [], [])
  }

  lemma BodyFrameSays(k: Setup, call: u32, kind: Kind, id: u32, body: Bytes)
    ensures Says(k, k.BodyFrame(call, kind, id, body), kind, call, id, body)
  {
  }

  lemma ErrorFrameComplains(k: Setup, call: u32, status: Status)
    ensures Complains(k, k.ErrorFrame(call, status), call, status)
  {
    hide Says, Setup.BodyFrame;
    BodyFrameSays(k, call, Kind.Error, k.registry.errorID, status.Encode());
  }

  // ------------------------------------------------------------------- states

  /** Nothing that anyone can notice has changed. */
  ghost predicate Unmoved(s: State, t: State) {
    && t.next == s.next && t.links == s.links && t.visits == s.visits
    && t.pending == s.pending && t.inflight == s.inflight
    && t.box == s.box && t.outcomes == s.outcomes && t.ready == s.ready && t.finished == s.finished
  }

  /** Every call but this one is as it was, and so is the core itself. */
  ghost predicate Apart(s: State, t: State, c: u32) {
    && (forall d :: d != c ==> ViewOf(t, d) == ViewOf(s, d))
    && t.next == s.next && t.links == s.links && t.ready == s.ready && t.finished == s.finished
    && t.box.maxPerCall == s.box.maxPerCall && t.box.maxTotal == s.box.maxTotal
    && t.box.total == s.box.total - |s.box.Queue(c)| + |t.box.Queue(c)|
  }

  /** A running call has failed with this status: it has left, its handler's links have been
      unwound, what was queued or granted is thrown away, and an ERROR is queued instead. */
  ghost predicate Failing(k: Setup, s: State, t: State, c: u32, status: Status) {
    && c in s.inflight && c !in t.inflight && Apart(s, t, c)
    && Lookup(t.pending, c) == Lookup(s.pending, c) && t.outcomes == s.outcomes
    && t.visits == s.visits + [Out(Unwinding(s.inflight[c].entered))]
    && t.box.Credit(c).None? && |t.box.Queue(c)| == 1 && Complains(k, t.box.Queue(c)[0], c, status)
  }

  /** A waiting call is over: its owner is told this outcome, its links have been unwound,
      and of what was queued or granted nothing is left but these frames. */
  ghost predicate Over(s: State, t: State, c: u32, outcome: Outcome, left: seq<Outgoing>) {
    && c in s.pending && c !in t.pending && Apart(s, t, c)
    && Lookup(t.inflight, c) == Lookup(s.inflight, c) && t.outcomes == s.outcomes + [outcome]
    && t.visits == s.visits + [Out(Unwinding(s.pending[c].entered))]
    && t.box.Credit(c).None? && t.box.Queue(c) == left
  }

  /** A waiting call is given up with this status. The peer is sent a CANCEL, unless the
      REQUEST is still the oldest frame queued: then it is never sent at all. */
  ghost predicate GivenUp(k: Setup, s: State, t: State, c: u32, status: Status) {
    Over(s, t, c, Outcome(Failed, c, [], Some(status)), if Opens(s.box.Queue(c)) then [] else [Signal(k, Cancel, c)])
  }

  /** These frames are queued behind the call's others, and nothing else has happened
      to the outbox. */
  ghost predicate Adds(s: State, t: State, c: u32, more: seq<Outgoing>) {
    t.box.Queue(c) == s.box.Queue(c) + more && t.box.Credit(c) == s.box.Credit(c)
  }

  /** An ERROR is queued under a call that this core does not serve; if some links had been
      entered for it, they have been unwound. */
  ghost predicate TurnedAway(k: Setup, s: State, t: State, c: u32, status: Status, bounced: Option<nat>) {
    && Apart(s, t, c) && Lookup(t.pending, c) == Lookup(s.pending, c) && Lookup(t.inflight, c) == Lookup(s.inflight, c)
    && t.outcomes == s.outcomes
    && t.visits == s.visits + (if bounced.Some? then [In(bounced.value), Out(Unwinding(bounced.value))] else [])
    && |t.box.Queue(c)| == |s.box.Queue(c)| + 1
    && Adds(s, t, c, [t.box.Queue(c)[|s.box.Queue(c)|]])
    && Complains(k, t.box.Queue(c)[|s.box.Queue(c)|], c, status)
  }

  /** The call's record is now this one, and nothing else has happened. */
  ghost predicate Recorded(s: State, t: State, c: u32, waiting: Option<Waiting>, running: Option<Running>) {
    && Apart(s, t, c) && Lookup(t.pending, c) == waiting && Lookup(t.inflight, c) == running
    && t.outcomes == s.outcomes && t.visits == s.visits && Adds(s, t, c, [])
  }

  // ------------------------------------------------------------- single steps

  lemma BoxTotal(box: Box, c: u32, d: Delta)
    ensures var after := BoxAfter(box, c, d);
            && after.maxPerCall == box.maxPerCall && after.maxTotal == box.maxTotal
            && after.total == box.total - |box.Queue(c)| + |after.Queue(c)|
  {
    hide Without, SaturatingAdd;
  }

  /** A step of one call, as a change of that call's view. */
  lemma Stepwise(k: Setup, s: State, t: State, e: Event, heard: Option<Message>)
    requires !e.Global() && t == Apply(k, s, Step(e, heard))
    ensures var d := Change(k, ViewOf(s, e.call), e);
            && Apart(s, t, e.call)
            && ViewOf(t, e.call) == Changed(ViewOf(s, e.call), d)
            && t.visits == Visited(s.visits, s.links, d)
            && t.outcomes == s.outcomes + (if d.outcome.Some? then [d.outcome.value] else [])
  {
    hide Change, BoxAfter, Changed, Visited;
    var d := Change(k, ViewOf(s, e.call), e);
    forall c
      ensures ViewOf(t, c) == if c == e.call then Changed(ViewOf(s, c), d) else ViewOf(s, c)
    {
      InstallViews(s, e.call, d, c);
      assert ViewOf(t, c) == ViewOf(Install(s, e.call, d), c);
    }
    BoxTotal(s.box, e.call, d);
    NothingAdded(s.outcomes);
  }

  lemma FinishDone(k: Setup, s: State, t: State, c: u32, status: Status, heard: Option<Message>)
    requires t == Apply(k, s, Step(Finish(c, status), heard))
    requires c in s.inflight && s.inflight[c].entered <= s.links
    ensures Failing(k, s, t, c, status)
  {
    hide Apply, Setup.ErrorFrame, Complains, Apart;
    Stepwise(k, s, t, Finish(c, status), heard);
    ErrorFrameComplains(k, c, status);
    NothingAdded(s.outcomes);
  }

  lemma SettleDone(k: Setup, s: State, t: State, c: u32, outcome: Outcome, heard: Option<Message>)
    requires t == Apply(k, s, Step(Settle(c, outcome), heard))
    requires c in s.pending && s.pending[c].entered <= s.links
    ensures Over(s, t, c, outcome, [])
  {
    hide Apply, Apart;
    Stepwise(k, s, t, Settle(c, outcome), heard);
  }

  lemma AbandonDone(k: Setup, s: State, t: State, c: u32, status: Status, heard: Option<Message>)
    requires t == Apply(k, s, Step(Abandon(c, status), heard))
    requires c in s.pending && s.pending[c].entered <= s.links
    ensures GivenUp(k, s, t, c, status)
  {
    hide Apply, Apart, Opens;
    Stepwise(k, s, t, Abandon(c, status), heard);
  }

  lemma StrayDone(k: Setup, s: State, t: State, c: u32, status: Status, heard: Option<Message>)
    requires t == Apply(k, s, Step(Stray(c, status), heard))
    ensures TurnedAway(k, s, t, c, status, None)
  {
    hide Apply, Setup.ErrorFrame, Complains, Apart;
    Stepwise(k, s, t, Stray(c, status), heard);
    ErrorFrameComplains(k, c, status);
    NothingAdded(s.outcomes);
    NothingAdded(s.visits);
  }

  lemma BoxSame(box: Box, c: u32, d: Delta)
    requires !d.discard && d.append.None? && d.grant.None?
    ensures BoxAfter(box, c, d) == box
  {
  }

  lemma BounceDone(k: Setup, s: State, t: State, c: u32, entered: nat)
    requires t == Do(k, s, Bounce(c, entered)) && entered <= s.links
    ensures Unmoved(s, t.(visits := s.visits)) && t.visits == s.visits + [In(entered), Out(Unwinding(entered))]
  {
    hide BoxAfter;
    var d := Change(k, ViewOf(s, c), Bounce(c, entered));
    assert BoxAfter(s.box, c, d) == s.box by { BoxSame(s.box, c, d); }
    assert Put(s.pending, c, Lookup(s.pending, c)) == s.pending;
    assert Put(s.inflight, c, Lookup(s.inflight, c)) == s.inflight;
    assert s.visits + [In(entered)] + [Out(Unwinding(entered))] == s.visits + [In(entered), Out(Unwinding(entered))];
  }

  lemma BounceThenStray(k: Setup, s: State, m: State, t: State, c: u32, entered: nat, status: Status,
                        heard: Option<Message>)
    requires m == Do(k, s, Bounce(c, entered)) && entered <= s.links
    requires t == Apply(k, m, Step(Stray(c, status), heard))
    ensures TurnedAway(k, s, t, c, status, Some(entered))
  {
    hide Apply, Complains;
    BounceDone(k, s, m, c, entered);
    StrayDone(k, m, t, c, status, heard);
    NothingAdded(m.visits);
  }

  lemma IgnoreDone(k: Setup, s: State, t: State, c: u32, heard: Option<Message>)
    requires t == Apply(k, s, Step(Ignore(c), heard))
    ensures Unmoved(s, t)
  {
    assert Put(s.pending, c, Lookup(s.pending, c)) == s.pending;
    assert Put(s.inflight, c, Lookup(s.inflight, c)) == s.inflight;
  }

  lemma UpdateDone(k: Setup, s: State, t: State, c: u32, r: Running, heard: Option<Message>)
    requires t == Apply(k, s, Step(Update(c, r), heard)) && c in s.inflight
    ensures Recorded(s, t, c, Lookup(s.pending, c), Some(r)) && t.box == s.box
  {
    hide Apart;
    Stepwise(k, s, t, Update(c, r), heard);
    NothingAdded(s.outcomes);
    NothingAdded(s.box.Queue(c));
  }

  lemma DeliverDone(k: Setup, s: State, t: State, c: u32, body: Bytes, now: Time, heard: Option<Message>)
    requires t == Apply(k, s, Step(Deliver(c, body, now), heard)) && c in s.inflight
    ensures var r := s.inflight[c];
            Recorded(s, t, c, Lookup(s.pending, c), Some(r.(lastHeard := now, delivered := r.delivered + 1)))
  {
    hide Apply, Apart;
    Stepwise(k, s, t, Deliver(c, body, now), heard);
    NothingAdded(s.outcomes);
    NothingAdded(s.box.Queue(c));
  }

  lemma TellItemDone(k: Setup, s: State, t: State, c: u32, body: Bytes, heard: Option<Message>)
    requires t == Apply(k, s, Step(TellItem(c, body), heard))
    ensures Recorded(s, t.(outcomes := s.outcomes), c, Lookup(s.pending, c), Lookup(s.inflight, c))
    ensures t.outcomes == s.outcomes + [Outcome(OutcomeKind.Item, c, body, None)]
  {
    hide Apply;
    Stepwise(k, s, t, TellItem(c, body), heard);
    NothingAdded(s.box.Queue(c));
    var u := t.(outcomes := s.outcomes);
    assert forall d :: ViewOf(u, d) == ViewOf(t, d);
  }

  lemma AllowDone(k: Setup, s: State, t: State, c: u32, items: u32, now: Time, heard: Option<Message>)
    requires t == Apply(k, s, Step(Allow(c, items, now), heard)) && (c in s.inflight || c in s.pending)
    ensures var w, r := Lookup(s.pending, c), Lookup(s.inflight, c);
            if r.Some? then
              Recorded(s, t, c, w, Some(r.value.(lastHeard := now, established := true,
                                             credit := Min(r.value.credit as int + items as int, U32_MAX) as u32)))
            else
              Recorded(s, t, c, Some(w.value.(established := true,
                                          credit := Min(w.value.credit as int + items as int, U32_MAX) as u32)), r)
  {
    hide Apply, Apart;
    Stepwise(k, s, t, Allow(c, items, now), heard);
    NothingAdded(s.outcomes);
    NothingAdded(s.box.Queue(c));
  }

  lemma AdmitDone(k: Setup, s: State, t: State, c: u32, r: Running, heard: Option<Message>)
    requires t == Apply(k, s, Step(Admit(c, r), heard))
    ensures Recorded(s, t.(visits := s.visits), c, Lookup(s.pending, c), Some(r))
    ensures t.visits == s.visits + [In(r.entered)]
  {
    hide Apply;
    Stepwise(k, s, t, Admit(c, r), heard);
    NothingAdded(s.outcomes);
    NothingAdded(s.box.Queue(c));
    var u := t.(visits := s.visits);
    assert forall d :: ViewOf(u, d) == ViewOf(t, d);
  }

  /** Credit granted waits to be told, on top of what waits already. */
  ghost predicate Endows(k: Setup, s: State, t: State, c: u32, items: u32) {
    var already := if s.box.Credit(c).Some? then s.box.Credit(c).value.items as int else 0;
    && Apart(s, t, c) && k.registry.creditID.Some?
    && Lookup(t.pending, c) == Lookup(s.pending, c) && Lookup(t.inflight, c) == Lookup(s.inflight, c)
    && t.outcomes == s.outcomes && t.visits == s.visits && t.box.Queue(c) == s.box.Queue(c)
    && t.box.Credit(c) == Some(WaitingCredit(k.registry.creditID.value, Min(already + items as int, U32_MAX) as u32))
  }

  lemma GrantDone(k: Setup, s: State, t: State, c: u32, items: u32)
    requires t == Do(k, s, Event.Grant(c, items)) && k.registry.creditID.Some?
    ensures Endows(k, s, t, c, items)
  {
    hide Apply, Apart;
    Stepwise(k, s, t, Event.Grant(c, items), None);
    NothingAdded(s.outcomes);
  }

  /** The call is running with this record and these more frames queued; nothing else. */
  ghost predicate RunsOn(s: State, t: State, c: u32, r: Running, more: seq<Outgoing>) {
    && Apart(s, t, c) && Lookup(t.pending, c) == Lookup(s.pending, c) && Lookup(t.inflight, c) == Some(r)
    && t.outcomes == s.outcomes && t.visits == s.visits && Adds(s, t, c, more)
  }

  /** A running call has left: its links have been unwound, and these more frames queued. */
  ghost predicate Leaves(s: State, t: State, c: u32, more: seq<Outgoing>) {
    && c in s.inflight && c !in t.inflight
    && Apart(s, t, c) && Lookup(t.pending, c) == Lookup(s.pending, c)
    && t.outcomes == s.outcomes && t.visits == s.visits + [Out(Unwinding(s.inflight[c].entered))] && Adds(s, t, c, more)
  }

  lemma YieldDone(k: Setup, s: State, t: State, c: u32, body: Bytes) returns (f: Outgoing)
    requires t == Do(k, s, Yield(c, body)) && c in s.inflight && !s.inflight[c].Starved()
    ensures var r := s.inflight[c];
            var left := if r.established then r.credit - 1 else r.credit;
            RunsOn(s, t, c, r.(polled := r.polled + 1, credit := left), [f])
    ensures Says(k, f, Kind.Item, c, s.inflight[c].replyID, body)
  {
    hide Apply, Apart, Says, Setup.BodyFrame;
    f := k.BodyFrame(c, Kind.Item, s.inflight[c].replyID, body);
    Stepwise(k, s, t, Yield(c, body), None);
    BodyFrameSays(k, c, Kind.Item, s.inflight[c].replyID, body);
    NothingAdded(s.outcomes);
  }

  lemma AnswerDone(k: Setup, s: State, t: State, c: u32, body: Bytes) returns (f: Outgoing)
    requires t == Do(k, s, Answer(c, body)) && c in s.inflight && s.inflight[c].entered <= s.links
    ensures Leaves(s, t, c, [f]) && Says(k, f, Kind.Response, c, s.inflight[c].replyID, body)
  {
    hide Apply, Apart, Says, Setup.BodyFrame;
    f := k.BodyFrame(c, Kind.Response, s.inflight[c].replyID, body);
    Stepwise(k, s, t, Answer(c, body), None);
    BodyFrameSays(k, c, Kind.Response, s.inflight[c].replyID, body);
    NothingAdded(s.outcomes);
  }

  lemma CloseOutDone(k: Setup, s: State, t: State, c: u32)
    requires t == Do(k, s, CloseOut(c)) && c in s.inflight && s.inflight[c].entered <= s.links
    ensures Leaves(s, t, c, [Signal(k, Kind.End, c)])
  {
    hide Apply, Apart;
    Stepwise(k, s, t, CloseOut(c), None);
    NothingAdded(s.outcomes);
  }

  // ------------------------------------------------------------ one after another

  /** A call runs on, and then whatever happens next happens. */
  lemma ApartTwice(s: State, m: State, t: State, c: u32)
    requires Apart(s, m, c) && Apart(m, t, c)
    ensures Apart(s, t, c)
  {
  }

  lemma RunsThenFails(k: Setup, s: State, m: State, t: State, c: u32, r: Running, more: seq<Outgoing>, status: Status)
    requires RunsOn(s, m, c, r, more) && c in s.inflight && r.entered == s.inflight[c].entered
    requires Failing(k, m, t, c, status)
    ensures Failing(k, s, t, c, status)
  {
    hide Apart, Complains;
    ApartTwice(s, m, t, c);
  }

  lemma RunsTwice(s: State, m: State, t: State, c: u32, r: Running, r': Running, a: seq<Outgoing>, b: seq<Outgoing>)
    requires RunsOn(s, m, c, r, a) && RunsOn(m, t, c, r', b)
    ensures RunsOn(s, t, c, r', a + b)
  {
    hide Apart;
    ApartTwice(s, m, t, c);
    Regroup(s.box.Queue(c), a, b);
  }

  lemma RunsThenLeaves(s: State, m: State, t: State, c: u32, r: Running, a: seq<Outgoing>, b: seq<Outgoing>)
    requires RunsOn(s, m, c, r, a) && c in s.inflight && r.entered == s.inflight[c].entered && Leaves(m, t, c, b)
    ensures Leaves(s, t, c, a + b)
  {
    hide Apart;
    ApartTwice(s, m, t, c);
    Regroup(s.box.Queue(c), a, b);
  }
}
