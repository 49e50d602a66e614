/** One session core (core.go) as a state machine. A state holds the two tables of live
    calls, the outbox and the outcomes, and beside them the history of the run: the
    journal of steps taken and the trace of acts an observer could have seen. Every
    operation of the core is a chain of these steps (`CoreOps`), so what every step keeps
    holds in every state of every run. A step that concerns one call is a function of
    what the core knows about that call alone, its `View`. */
module CoreModel {
  import opened Basics
  import opened Wire
  import opened OutboxModel
  import opened CallIds
  import opened CtxModel
  import opened Session

  /** A received message: a frame, or bytes that decode to none but name a call. */
  datatype Message = Frame(frame: Outgoing) | Garbled(id: u32) {
    function Call(): u32 {
      match this
      case Frame(frame) => frame.header.call
      case Garbled(id) => id
    }

    predicate Is(kind: Kind) { Frame? && frame.header.kind == kind }
  }

  /** What an observer standing at the core's boundary sees. */
  datatype Act =
    | Opened(call: u32)
    | Told(outcome: Outcome)
    | Admitted(call: u32, shape: Shape, credit: u32)
    | Yielded(call: u32, body: Bytes)
    | Responded(call: u32, body: Bytes)
    | Offered(call: u32, body: Bytes)
    | Delivered(call: u32, body: Bytes)
    | Credited(call: u32, items: u32)
    | Queued(call: u32, frame: Outgoing)
    | Dropped(call: u32)
    | Cleared
    | Sent(post: Posted)
    | Granted(call: u32, items: u32)
    | Entered(call: u32, links: nat)
    | Unwound(call: u32, links: nat)
    | Left(call: u32)
    | Heard(message: Message)

  datatype Event =
    | BecomeReady
    | AddLink
    | Probed(count: nat, found: bool)
    | EndSession
    | DrainTo(sink: Sink)
    | TakeOutcomes
    | Bounce(call: u32, entered: nat)
    | Open(call: u32, waiting: Waiting, frame: Outgoing)
    | PushItem(call: u32, body: Bytes)
    | PushEnd(call: u32)
    | Grant(call: u32, items: u32)
    | Settle(call: u32, outcome: Outcome)
    | Abandon(call: u32, status: Status)
    | TellItem(call: u32, body: Bytes)
    | Allow(call: u32, items: u32, now: Time)
    | Admit(call: u32, running: Running)
    | Update(call: u32, running: Running)
    | Deliver(call: u32, body: Bytes, now: Time)
    | Yield(call: u32, body: Bytes)
    | Answer(call: u32, body: Bytes)
    | CloseOut(call: u32)
    | Finish(call: u32, status: Status)
    | Stray(call: u32, status: Status)
    | Leave(call: u32)
    | Ignore(call: u32)
  {
    /** The event concerns the core as a whole. */
    predicate Global() {
      BecomeReady? || AddLink? || Probed? || EndSession? || DrainTo? || TakeOutcomes?
    }

    /** The event is about a call this side made, or about to make, or granted. */
    predicate Calling() {
      Bounce? || Open? || PushItem? || PushEnd? || Grant? || Settle? || Abandon? || TellItem? || Allow?
    }
  }

  /** An event, and the message it answers when it is the first consequence of one. */
  datatype Step = Step(event: Event, heard: Option<Message>)

  /** What the interceptor chain was made to do: a call entered its first links, or was
      unwound through links in some order. */
  datatype Visit = In(links: nat) | Out(order: seq<nat>)

  /** The links an unwinding visits: those entered, last first. */
  function Unwinding(entered: nat): (order: seq<nat>)
    ensures |order| == entered
  {
    if entered == 0 then [] else [entered - 1] + Unwinding(entered - 1)
  }

  /** An unwinding visits exactly the entered prefix of the chain, in reverse. */
  lemma {:induction false} UnwindingReverses(entered: nat, i: nat)
    requires i < entered
    ensures Unwinding(entered)[i] == entered - 1 - i
  {
    if i > 0 {
      UnwindingReverses(entered - 1, i - 1);
    }
  }

  /** `probes` counts the ids ever probed; `issued` is the id allocated last, until it is
      opened. */
  datatype State = State(
    next: u32,
    probes: nat,
    issued: Option<u32>,
    links: nat,
    visits: seq<Visit>,
    pending: map<u32, Waiting>,
    inflight: map<u32, Running>,
    box: Box,
    outcomes: seq<Outcome>,
    ready: bool,
    finished: bool,
    journal: seq<Step>,
    trace: seq<Act>)

  function Initial(k: Setup): State {
    State(if k.role.Server? then 1 else 0, 0, None, 0, [], map[], map[],
          NewBox(k.config.maxCallQueue, k.config.maxConnectionQueue, k.config.schedulerQuantum),
          [], false, false, [], [])
  }

  // -------------------------------------------------------------- one call's view

  datatype View = View(
    waiting: Option<Waiting>,
    running: Option<Running>,
    queue: seq<Outgoing>,
    credit: Option<WaitingCredit>)

  const NOTHING := View(None, None, [], None)

  function Lookup<V>(table: map<u32, V>, call: u32): Option<V> {
    if call in table then Some(table[call]) else None
  }

  function Put<V>(table: map<u32, V>, call: u32, value: Option<V>): map<u32, V> {
    if value.Some? then table[call := value.value] else table - {call}
  }

  function ViewOf(s: State, call: u32): View {
    View(Lookup(s.pending, call), Lookup(s.inflight, call), s.box.Queue(call), s.box.Credit(call))
  }

  /** What the rest of the core contributes to whether a step of one call is possible. */
  datatype Surroundings = Surroundings(
    ready: bool, issued: Option<u32>, links: nat, spare: bool, crowded: bool, idle: bool)

  function Around(k: Setup, s: State): Surroundings {
    Surroundings(s.ready, s.issued, s.links, s.box.total < s.box.maxTotal, |s.inflight| >= k.config.maxPending,
                 |s.pending| == 0)
  }

  /** What a step does to its call: the new table entries, whether queue and credit are
      thrown away, what is queued or granted after that, what the owner is told, how many
      links are entered and how many are then unwound, and the acts this amounts to. */
  datatype Delta = Delta(
    waiting: Option<Waiting>,
    running: Option<Running>,
    discard: bool,
    append: Option<Outgoing>,
    grant: Option<WaitingCredit>,
    outcome: Option<Outcome>,
    entry: Option<nat>,
    exit: Option<nat>,
    acts: seq<Act>)

  function Same(v: View, acts: seq<Act>): Delta {
    Delta(v.waiting, v.running, false, None, None, None, None, None, acts)
  }

  function Spend(credit: u32, established: bool): u32 {
    if established && credit > 0 then credit - 1 else credit
  }

  /** `settlePending`: the call leaves the table, its queue goes, its links unwind and
      its owner is told. */
  function SettledDelta(v: View, call: u32, outcome: Outcome): Delta
    requires v.waiting.Some?
  {
    Delta(None, v.running, true, None, None, Some(outcome), None, Some(v.waiting.value.entered),
          [Dropped(call), Unwound(call, v.waiting.value.entered), Told(outcome)])
  }

  /** The effect of an event on its call. Outside its guard an event does nothing. */
  function Change(k: Setup, v: View, e: Event): Delta
    requires !e.Global()
  {
    match e
    case Bounce(call, entered) =>
      Same(v, [Entered(call, entered), Unwound(call, entered)]).(entry := Some(entered), exit := Some(entered))
    case Open(call, w, frame) =>
      Delta(Some(w), v.running, false, Some(frame), None, None, Some(w.entered), None,
            [Entered(call, w.entered), Opened(call), Queued(call, frame)])
    case PushItem(call, body) =>
      if v.waiting.None? then Same(v, [])
      else
        var w := v.waiting.value;
        var frame := k.BodyFrame(call, Kind.Item, w.itemID, body);
        Delta(Some(w.(credit := Spend(w.credit, w.established))), v.running, false, Some(frame), None, None, None, None,
              [Offered(call, body), Queued(call, frame)])
    case PushEnd(call) =>
      if v.waiting.None? then Same(v, [])
      else
        var frame := k.ControlFrame(call, Kind.End);
        Delta(Some(v.waiting.value.(sendClosed := true)), v.running, false, Some(frame), None, None, None, None,
              [Queued(call, frame)])
    case Grant(call, items) =>
      if k.registry.creditID.None? then Same(v, [])
      else
        Delta(v.waiting, v.running, false, None, Some(WaitingCredit(k.registry.creditID.value, items)),
              None, None, None, [Granted(call, items)])
    case Settle(call, outcome) => if v.waiting.None? then Same(v, []) else SettledDelta(v, call, outcome)
    case Abandon(call, status) =>
      if v.waiting.None? then Same(v, [])
      else
        var d, frame := SettledDelta(v, call, FailedOutcome(call, status)), k.ControlFrame(call, Cancel);
        if Opens(v.queue) then d else d.(append := Some(frame), acts := d.acts + [Queued(call, frame)])
    case TellItem(call, body) =>
      var outcome := Outcome(OutcomeKind.Item, call, body, None);
      Same(v, [Told(outcome)]).(outcome := Some(outcome))
    case Allow(call, items, now) =>
      if v.running.Some? then
        var r := v.running.value;
        Same(v, [Credited(call, items)])
        .(running := Some(r.(lastHeard := now, credit := SaturatingAdd(r.credit, items), established := true)))
      else if v.waiting.Some? then
        var w := v.waiting.value;
        Same(v, [Credited(call, items)])
        .(waiting := Some(w.(credit := SaturatingAdd(w.credit, items), established := true)))
      else Same(v, [])
    case Admit(call, r) =>
      Same(v, [Entered(call, r.entered), Admitted(call, r.shape, r.credit)])
      .(running := Some(r), entry := Some(r.entered))
    case Update(call, r) => if v.running.None? then Same(v, []) else Same(v, []).(running := Some(r))
    case Deliver(call, body, now) =>
      if v.running.None? then Same(v, [])
      else
        var r := v.running.value;
        Same(v, [Delivered(call, body)]).(running := Some(r.(lastHeard := now, delivered := r.delivered + 1)))
    case Yield(call, body) =>
      if v.running.None? then Same(v, [])
      else
        var r := v.running.value;
        var frame := k.BodyFrame(call, Kind.Item, r.replyID, body);
        Delta(v.waiting, Some(r.(polled := r.polled + 1, credit := Spend(r.credit, r.established))), false, Some(frame),
              None, None, None, None, [Yielded(call, body), Queued(call, frame)])
    case Answer(call, body) =>
      if v.running.None? then Same(v, [])
      else
        var frame := k.BodyFrame(call, Kind.Response, v.running.value.replyID, body);
        Delta(v.waiting, None, false, Some(frame), None, None, None, Some(v.running.value.entered),
              [Responded(call, body), Queued(call, frame), Unwound(call, v.running.value.entered)])
    case CloseOut(call) =>
      if v.running.None? then Same(v, [])
      else
        var frame := k.ControlFrame(call, Kind.End);
        Delta(v.waiting, None, false, Some(frame), None, None, None, Some(v.running.value.entered),
              [Queued(call, frame), Unwound(call, v.running.value.entered)])
    case Finish(call, status) =>
      if v.running.None? then Same(v, [])
      else
        var frame := k.ErrorFrame(call, status);
        Delta(v.waiting, None, true, Some(frame), None, None, None, Some(v.running.value.entered),
              [Dropped(call), Queued(call, frame), Unwound(call, v.running.value.entered)])
    case Stray(call, status) =>
      var frame := k.ErrorFrame(call, status);
      Same(v, [Queued(call, frame)]).(append := Some(frame))
    case Leave(call) =>
      if v.running.None? then Same(v, [])
      else
        Same(v, [Unwound(call, v.running.value.entered), Left(call)])
        .(running := None, exit := Some(v.running.value.entered))
    case Ignore(call) => Same(v, [])
  }

  /** A call's view after a change. */
  function Changed(v: View, d: Delta): View {
    var queue := if d.discard then [] else v.queue;
    var credit := if d.discard then None else v.credit;
    View(d.waiting, d.running,
         if d.append.Some? then queue + [d.append.value] else queue,
         if d.grant.Some? then Some(Raised(credit, d.grant.value)) else credit)
  }

  /** Credit granted on top of credit that still waits. */
  function Raised(credit: Option<WaitingCredit>, grant: WaitingCredit): WaitingCredit {
    WaitingCredit(grant.messageID, SaturatingAdd(if credit.Some? then credit.value.items else 0, grant.items))
  }

  function BoxAfter(box: Box, call: u32, d: Delta): Box {
    var b := if d.discard then box.Discard(call) else box;
    var b := if d.append.Some? then b.Append(call, d.append.value) else b;
    if d.grant.Some? then b.Grant(call, d.grant.value.messageID, d.grant.value.items) else b
  }

  /** The chain's visits after a step; `Outbound` never goes beyond the chain's length. */
  function Visited(visits: seq<Visit>, links: nat, d: Delta): seq<Visit> {
    var v := if d.entry.Some? then visits + [In(d.entry.value)] else visits;
    if d.exit.Some? then v + [Out(Unwinding(Min(d.exit.value, links)))] else v
  }

  function Install(s: State, call: u32, d: Delta): State {
    s.(visits := Visited(s.visits, s.links, d),
       pending := Put(s.pending, call, d.waiting),
       inflight := Put(s.inflight, call, d.running),
       box := BoxAfter(s.box, call, d),
       outcomes := if d.outcome.Some? then s.outcomes + [d.outcome.value] else s.outcomes,
       trace := s.trace + d.acts)
  }

  function Sends(posts: seq<Posted>): seq<Act> {
    if posts == [] then [] else [Sent(posts[0])] + Sends(posts[1..])
  }

  ghost function Effect(k: Setup, s: State, e: Event): State {
    match e
    case BecomeReady => s.(ready := true)
    case AddLink => s.(links := s.links + 1)
    case Probed(count, found) =>
      s.(next := Nth(s.next, count), probes := s.probes + count,
         issued := if found && count > 0 then Some(Nth(s.next, count - 1)) else None)
    case EndSession => s.(ready := false, finished := true, box := s.box.Clear(), trace := s.trace + [Cleared])
    case DrainTo(sink) =>
      if !s.box.Valid() then s
      else s.(box := Drain(s.box, sink).box, trace := s.trace + Sends(Drain(s.box, sink).sent))
    case TakeOutcomes => s.(outcomes := [])
    case _ =>
      var t := Install(s, e.call, Change(k, ViewOf(s, e.call), e));
      if e.Open? then t.(issued := None) else t
  }

  /** One step: the event, noted in the journal, and the message it answers. */
  ghost function Apply(k: Setup, s: State, step: Step): State {
    var t := Effect(k, s, step.event);
    t.(journal := s.journal + [step], trace := t.trace + HeardActs(step.heard))
  }

  /** A step that nothing prompted, and one that answers a message. */
  ghost function Do(k: Setup, s: State, e: Event): State { Apply(k, s, Step(e, None)) }

  ghost function Hear(k: Setup, s: State, e: Event, m: Message): State { Apply(k, s, Step(e, Some(m))) }

  function HeardActs(heard: Option<Message>): seq<Act> {
    if heard.Some? then [Heard(heard.value)] else []
  }

  function Given(heard: Option<Message>): seq<Message> { if heard.Some? then [heard.value] else [] }

  // ---------------------------------------------------------------- guards

  /** The parts of a running call that only bookkeeping changes. */
  ghost predicate Touches(r: Running, r': Running) {
    && r' == r.(polled := r'.polled, delivered := r'.delivered, asked := r'.asked, lastHeard := r'.lastHeard,
                inboundClosed := r'.inboundClosed, fullSince := r'.fullSince)
  }

  /** A record is touched by nothing heard, by an item after the end of its stream, or by
      that end. */
  predicate TouchedBy(r: Running, r': Running, heard: Option<Message>) {
    if heard.None? then r'.inboundClosed == r.inboundClosed && r'.delivered == r.delivered
    else
      && heard.value.Frame? && r'.delivered == r.delivered && r.shape.CallerStreams() && r'.inboundClosed
      && (heard.value.Is(Kind.End) || (heard.value.Is(Kind.Item) && r.inboundClosed))
  }

  /** Which frame settles a call how. With no frame, the session's end does. */
  predicate SettledBy(k: Setup, w: Waiting, outcome: Outcome, heard: Option<Message>) {
    match outcome.kind
    case Response =>
      && heard.Some? && heard.value.Is(Kind.Response) && !w.shape.CalleeStreams()
      && k.Plain(heard.value.frame) == Some(outcome.body)
    case Item => false
    case End => heard.Some? && heard.value.Is(Kind.End) && w.shape.CalleeStreams()
    case Failed =>
      if heard.Some? then heard.value.Is(Kind.Error) || heard.value.Is(Kind.Response)
      else outcome == FailedOutcome(outcome.call, UNAVAILABLE)
  }

  /** A frame without a ctx block. */
  predicate Bare(frame: Outgoing) { !frame.header.hasCtx && frame.ctx == [] }

  /** The credit a REQUEST opens its stream with, as its receiver reads it. */
  function InitialCredit(frame: Outgoing): u32 {
    var ctx := if frame.header.hasCtx then Meaning(frame.ctx) else Some(EMPTY_CTX);
    if ctx.Some? then ctx.value.initialCredit else 0
  }

  /** What a core may answer with an ERROR although no call is live under its id: a REQUEST,
      and what does not decode or does not inflate. */
  predicate Provokes(k: Setup, m: Message) { m.Garbled? || m.Is(Request) || k.Plain(m.frame).None? }

  /** A record bears the ids and the shape of this method. */
  predicate AwaitsReply(w: Waiting, about: Method) {
    w.itemID == about.CallerItemID() && w.replyID == about.replyID && w.shape == about.shape
  }

  predicate ServesMethod(r: Running, about: Method) {
    r.itemID == about.CallerItemID() && r.replyID == about.replyID && r.shape == about.shape
  }

  /** When an event may befall its call. */
  ghost predicate Allowed(k: Setup, a: Surroundings, v: View, e: Event, heard: Option<Message>)
    requires !e.Global()
  {
    var room := a.spare && |v.queue| < k.config.maxCallQueue;
    (heard.Some? ==> heard.value.Call() == e.call) &&
    match e
    case Bounce(call, entered) => heard.None? && entered <= a.links
    case Open(call, w, frame) =>
      && heard.None? && a.ready && k.Own(call) && a.issued == Some(call) && v.waiting.None? && room
      && w.entered <= a.links && !w.sendClosed && !w.established && w.credit == 0
      && frame.header.kind == Request && frame.header.call == call
      && frame.messageID in k.registry.byRequest && AwaitsReply(w, k.registry.byRequest[frame.messageID].about)
    case PushItem(call, body) =>
      && heard.None? && room
      && v.waiting.Some? && v.waiting.value.shape.CallerStreams() && !v.waiting.value.sendClosed
      && (v.waiting.value.established ==> v.waiting.value.credit > 0)
    case PushEnd(call) =>
      heard.None? && room && v.waiting.Some? && v.waiting.value.shape.CallerStreams() && !v.waiting.value.sendClosed
    case Grant(call, items) =>
      && heard.None? && k.registry.creditID.Some?
      && (if v.running.Some? then v.running.value.shape.CallerStreams()
          else v.waiting.Some? && v.waiting.value.shape.CalleeStreams())
    case Settle(call, outcome) =>
      v.waiting.Some? && outcome.call == call && SettledBy(k, v.waiting.value, outcome, heard)
    case Abandon(call, status) => v.waiting.Some?
    case TellItem(call, body) =>
      && v.waiting.Some? && v.waiting.value.shape.CalleeStreams()
      && heard.Some? && heard.value.Is(Kind.Item) && k.Plain(heard.value.frame) == Some(body)
    case Allow(call, items, now) =>
      && (v.waiting.Some? || v.running.Some?)
      && heard.Some? && heard.value.Is(Kind.Credit)
      && k.Plain(heard.value.frame).Some? && items == ReadCredit(k.Plain(heard.value.frame).value)
    case Admit(call, r) =>
      && a.ready && !k.Own(call) && v.running.None? && !a.crowded && heard.Some? && heard.value.Is(Request)
      && r.entered <= a.links && r.inboundClosed == !r.shape.CallerStreams() && r.delivered == 0
      && r.credit == InitialCredit(heard.value.frame) && (r.established <==> r.credit != 0)
      && heard.value.frame.messageID in k.registry.byRequest
      && ServesMethod(r, k.registry.byRequest[heard.value.frame.messageID].about)
    case Update(call, r) =>
      v.running.Some? && Touches(v.running.value, r) && TouchedBy(v.running.value, r, heard)
    case Deliver(call, body, now) =>
      && v.running.Some? && v.running.value.shape.CallerStreams() && !v.running.value.inboundClosed
      && heard.Some? && heard.value.Is(Kind.Item) && k.Plain(heard.value.frame) == Some(body)
    case Yield(call, body) =>
      && heard.None? && room && v.running.Some? && v.running.value.shape.CalleeStreams() && !v.running.value.Starved()
      && v.running.value.handler.poll(v.running.value.polled) == Progress.Item(body)
    case Answer(call, body) =>
      && heard.None? && room && v.running.Some? && !v.running.value.shape.CalleeStreams()
      && v.running.value.handler.poll(v.running.value.polled) == Progress.Respond(body)
    case CloseOut(call) =>
      && heard.None? && room && v.running.Some? && v.running.value.shape.CalleeStreams()
      && v.running.value.handler.poll(v.running.value.polled) == Progress.End
    case Finish(call, status) => v.running.Some?
    case Stray(call, status) =>
      heard.Some? && Provokes(k, heard.value) && v.running.None? && (v.waiting.Some? ==> heard.value.Is(Request))
    case Leave(call) => heard.None? && v.running.Some? && a.idle
    case Ignore(call) =>
      && heard.Some?
      && (v.waiting.Some? ==> heard.value.Is(Cancel) || heard.value.Is(Kind.Credit))
      && (v.running.Some? ==> heard.value.Frame? && heard.value.frame.header.kind !in {Kind.Item, Kind.End})
  }

  /** When a step may be taken. */
  ghost predicate Enabled(k: Setup, s: State, step: Step) {
    match step.event
    case Probed(count, found) => step.heard.None? && count > 0
    case EndSession => step.heard.None? && s.pending == map[] && s.inflight == map[]
    case BecomeReady => step.heard.None?
    case AddLink => step.heard.None?
    case DrainTo(sink) => step.heard.None?
    case TakeOutcomes => step.heard.None?
    case _ => Allowed(k, Around(k, s), ViewOf(s, step.event.call), step.event, step.heard)
  }

  // ---------------------------------------------------------------- runs

  ghost function Replay(k: Setup, journal: seq<Step>): State {
    if journal == [] then Initial(k)
    else Apply(k, Replay(k, journal[..|journal| - 1]), journal[|journal| - 1])
  }

  /** Every step was enabled when it was taken. */
  ghost predicate Lawful(k: Setup, journal: seq<Step>) {
    forall i :: 0 <= i < |journal| ==> Enabled(k, Replay(k, journal[..i]), journal[i])
  }

  /** A state that some run of enabled steps leads to. */
  ghost predicate Reachable(k: Setup, s: State) {
    k.config.schedulerQuantum > 0 && Lawful(k, s.journal) && s == Replay(k, s.journal)
  }

  lemma InitialReachable(k: Setup)
    requires k.config.schedulerQuantum > 0
    ensures Reachable(k, Initial(k))
  {
    hide Enabled, Apply;
  }

  /** One more enabled step. */
  lemma Extend(k: Setup, s: State, step: Step)
    requires Reachable(k, s) && Enabled(k, s, step)
    ensures Reachable(k, Apply(k, s, step))
  {
    hide Enabled, Effect;
    var journal := s.journal + [step];
    assert journal[..|journal| - 1] == s.journal;
    ApplyNotes(k, s, step);
    hide Apply;
    forall i | 0 <= i < |journal|
      ensures Enabled(k, Replay(k, journal[..i]), journal[i])
    {
      assert journal[..i] == s.journal[..i];
    }
  }

  /** The state before the last step. */
  lemma Previous(k: Setup, s: State) returns (before: State, step: Step)
    requires Reachable(k, s) && s.journal != []
    ensures Reachable(k, before) && Enabled(k, before, step) && s == Apply(k, before, step)
    ensures |before.journal| < |s.journal|
  {
    hide Enabled, Apply;
    var n := |s.journal| - 1;
    step := s.journal[n];
    before := Replay(k, s.journal[..n]);
    JournalKept(k, s.journal[..n]);
    assert forall i :: 0 <= i < n ==> s.journal[..n][..i] == s.journal[..i];
  }

  lemma {:induction false} JournalKept(k: Setup, journal: seq<Step>)
    ensures Replay(k, journal).journal == journal
  {
    hide Apply;
    if journal != [] {
      var before, last := journal[..|journal| - 1], journal[|journal| - 1];
      JournalKept(k, before);
      ApplyNotes(k, Replay(k, before), last);
      assert journal == before + [last];
    }
  }

  lemma ApplyNotes(k: Setup, s: State, step: Step)
    ensures Apply(k, s, step).journal == s.journal + [step]
  {
    hide Effect;
  }

  // ---------------------------------------------------- what a step leaves alone

  /** A step of one call changes that call's view as `Changed` says and no other view. */
  lemma InstallViews(s: State, call: u32, d: Delta, c: u32)
    ensures ViewOf(Install(s, call, d), c) == if c == call then Changed(ViewOf(s, call), d) else ViewOf(s, c)
  {
    hide Without;
  }

  /** The box obeys its own invariant and the configured ceilings never change. */
  ghost predicate BoxSound(k: Setup, box: Box) {
    && box.Valid()
    && box.maxPerCall == k.config.maxCallQueue
    && box.maxTotal == k.config.maxConnectionQueue
    && box.quantum == k.config.schedulerQuantum
  }

  lemma BoxAfterSound(k: Setup, box: Box, call: u32, d: Delta)
    requires BoxSound(k, box)
    ensures BoxSound(k, BoxAfter(box, call, d))
  {
    hide InLine, Without;
    if d.discard {
      DiscardKeepsValid(box, call);
    }
    var b := if d.discard then box.Discard(call) else box;
    if d.append.Some? {
      AppendKeepsValid(b, call, d.append.value);
    }
  }

  lemma BoxSoundStep(k: Setup, s: State, step: Step)
    requires BoxSound(k, s.box)
    ensures BoxSound(k, Apply(k, s, step).box)
  {
    hide Drain, Change, BoxAfter, Put, Visited;
    if !step.event.Global() {
      hide BoxSound;
      var call := step.event.call;
      BoxAfterSound(k, s.box, call, Change(k, ViewOf(s, call), step.event));
    } else if step.event.DrainTo? {
      hide InLine;
      DrainKeepsValid(s.box, step.event.sink);
      DrainKeepsCeilings(s.box, step.event.sink);
    }
  }

  lemma {:induction false} BoxStaysSound(k: Setup, s: State)
    requires Reachable(k, s)
    ensures BoxSound(k, s.box)
    decreases |s.journal|
  {
    hide Enabled, Apply;
    if s.journal != [] {
      var before, step := Previous(k, s);
      BoxStaysSound(k, before);
      BoxSoundStep(k, before, step);
    }
  }
}
