/** The ledger of one call at one core: what was told and yielded, offered and delivered,
    heard and sent, granted and credited, folded over the call's history; and the filters
    and sums in which the laws of `Flows` and `Uploads` are stated. */
module Ledger {
  import opened Basics
  import opened Wire
  import opened OutboxModel
  import opened OutboxRefinement
  import opened Session
  import opened CoreModel
  import opened Histories

  /** `early`: the call was opened although its id had been heard of. `openAt`, `endAt`,
      `replyAt`, `since`: how many messages had been heard when the call was opened, when
      the owner was told of the end or of the response, and when the call was admitted. `free`:
      how many items had been offered before the first credit came. */
  datatype Flow = Flow(
    opens: nat,
    early: bool,
    openAt: nat,
    told: seq<Bytes>,
    ended: bool,
    endAt: nat,
    reply: Option<Bytes>,
    replyAt: nat,
    offered: seq<Bytes>,
    credited: nat,
    free: Option<nat>,
    admits: nat,
    since: nat,
    initial: u32,
    yielded: seq<Bytes>,
    responded: seq<Bytes>,
    delivered: seq<Bytes>,
    heard: seq<Message>,
    sent: seq<Outgoing>,
    granted: nat)

  const DRY := Flow(0, false, 0, [], false, 0, None, 0, [], 0, None, 0, 0, 0, [], [], [], [], [], 0)

  function Note(l: Flow, a: Act): Flow {
    match a
    case Opened(_) => l.(opens := l.opens + 1, early := l.early || l.heard != [], openAt := |l.heard|)
    case Told(outcome) =>
      (match outcome.kind
       case Item => l.(told := l.told + [outcome.body])
       case End => l.(ended := true, endAt := |l.heard|)
       case Response => l.(reply := Some(outcome.body), replyAt := |l.heard|)
       case Failed => l)
    case Offered(_, body) => l.(offered := l.offered + [body])
    case Credited(_, items) =>
      l.(credited := l.credited + items as int, free := if l.free.None? then Some(|l.offered|) else l.free)
    case Admitted(_, _, credit) => l.(admits := l.admits + 1, since := |l.heard|, initial := credit)
    case Yielded(_, body) => l.(yielded := l.yielded + [body])
    case Responded(_, body) => l.(responded := l.responded + [body])
    case Delivered(_, body) => l.(delivered := l.delivered + [body])
    case Heard(message) => l.(heard := l.heard + [message])
    case Sent(post) => l.(sent := l.sent + [post.frame])
    case Granted(_, items) => l.(granted := l.granted + items as int)
    case _ => l
  }

  function FlowOf(h: seq<Act>): Flow { Fold(Note, DRY, h) }

  lemma {:induction false} NoteSent(l: Flow, c: u32, frames: seq<Outgoing>)
    ensures Fold(Note, l, SentActs(c, frames)) == l.(sent := l.sent + frames)
    decreases |frames|
  {
    if frames == [] {
      NothingAdded(l.sent);
    } else {
      var l1 := l.(sent := l.sent + [frames[0]]);
      NoteSent(l1, c, frames[1..]);
      assert SentActs(c, frames)[1..] == SentActs(c, frames[1..]);
      assert [frames[0]] + frames[1..] == frames;
      Regroup(l.sent, [frames[0]], frames[1..]);
    }
  }

  // ------------------------------------------------- what one step comes to

  /** The act of a step that a ledger notes, if there is one, and where it stands among the
      acts of the step. */
  function NotedAct(k: Setup, v: View, e: Event): Option<Act>
    requires !e.Global()
  {
    match e
    case Open(call, _, _) => Some(Opened(call))
    case PushItem(call, body) => if v.waiting.Some? then Some(Offered(call, body)) else None
    case Grant(call, items) => if k.registry.creditID.Some? then Some(Granted(call, items)) else None
    case Settle(_, outcome) => if v.waiting.Some? then Some(Told(outcome)) else None
    case Abandon(call, status) => if v.waiting.Some? then Some(Told(FailedOutcome(call, status))) else None
    case TellItem(call, body) => Some(Told(Outcome(OutcomeKind.Item, call, body, None)))
    case Allow(call, items, _) => if v.running.Some? || v.waiting.Some? then Some(Credited(call, items)) else None
    case Admit(call, r) => Some(Admitted(call, r.shape, r.credit))
    case Deliver(call, body, _) => if v.running.Some? then Some(Delivered(call, body)) else None
    case Yield(call, body) => if v.running.Some? then Some(Yielded(call, body)) else None
    case Answer(call, body) => if v.running.Some? then Some(Responded(call, body)) else None
    case _ => None
  }

  function NotedAt(e: Event): nat {
    if e.Open? || e.Admit? then 1 else if e.Settle? || e.Abandon? then 2 else 0
  }

  /** Acts that no ledger notes. */
  predicate Unnoted(a: Act) {
    a.Entered? || a.Unwound? || a.Queued? || a.Dropped? || a.Left? || a.Cleared?
  }

  /** All acts but the one noted, which stands there, are unnoted. */
  predicate OneNoted(acts: seq<Act>, at: nat, n: Option<Act>) {
    && |acts| <= 4
    && (n.Some? ==> at < |acts| && acts[at] == n.value)
    && forall i :: 0 <= i < |acts| && (n.Some? ==> i != at) ==> Unnoted(acts[i])
  }

  lemma CallingNoted(k: Setup, v: View, e: Event)
    requires e.Calling()
    ensures OneNoted(Change(k, v, e).acts, NotedAt(e), NotedAct(k, v, e))
  {
    hide Setup.BodyFrame, Setup.ControlFrame, Setup.ErrorFrame, SaturatingAdd;
  }

  lemma ServingNoted(k: Setup, v: View, e: Event)
    requires !e.Global() && !e.Calling()
    ensures OneNoted(Change(k, v, e).acts, NotedAt(e), NotedAct(k, v, e))
  {
    hide Setup.BodyFrame, Setup.ControlFrame, Setup.ErrorFrame, SaturatingAdd;
  }

  lemma UnnotedAct(l: Flow, a: Act)
    requires Unnoted(a)
    ensures Note(l, a) == l
  {
  }

  lemma FewNoted(l: Flow, acts: seq<Act>, at: nat, n: Option<Act>)
    requires OneNoted(acts, at, n)
    ensures Few(Note, l, acts) == if n.Some? then Note(l, n.value) else l
  {
    hide Note, Unnoted;
    var m := if n.Some? then Note(l, n.value) else l;
    forall i | 0 <= i < |acts| && Unnoted(acts[i])
      ensures Note(l, acts[i]) == l && Note(m, acts[i]) == m
    {
      UnnotedAct(l, acts[i]);
      UnnotedAct(m, acts[i]);
    }
  }

  /** What the acts of a step come to. */
  function Entry(k: Setup, v: View, e: Event, l: Flow): Flow
    requires !e.Global()
  {
    if e.Calling() then CallerEntry(k, v, e, l) else CalleeEntry(v, e, l)
  }

  function CallerEntry(k: Setup, v: View, e: Event, l: Flow): Flow {
    match e
    case Open(_, _, _) => l.(opens := l.opens + 1, early := l.early || l.heard != [], openAt := |l.heard|)
    case PushItem(_, body) => if v.waiting.Some? then l.(offered := l.offered + [body]) else l
    case Grant(_, items) => if k.registry.creditID.Some? then l.(granted := l.granted + items as int) else l
    case Settle(_, outcome) => if v.waiting.Some? then Note(l, Told(outcome)) else l
    case TellItem(_, body) => l.(told := l.told + [body])
    case Allow(_, items, _) => if v.running.Some? || v.waiting.Some? then Note(l, Credited(0, items)) else l
    case _ => l
  }

  function CalleeEntry(v: View, e: Event, l: Flow): Flow {
    match e
    case Admit(_, r) => l.(admits := l.admits + 1, since := |l.heard|, initial := r.credit)
    case Deliver(_, body, _) => if v.running.Some? then l.(delivered := l.delivered + [body]) else l
    case Yield(_, body) => if v.running.Some? then l.(yielded := l.yielded + [body]) else l
    case Answer(_, body) => if v.running.Some? then l.(responded := l.responded + [body]) else l
    case _ => l
  }

  lemma NoteIsEntry(k: Setup, v: View, e: Event, l: Flow)
    requires !e.Global()
    ensures var n := NotedAct(k, v, e); Entry(k, v, e, l) == if n.Some? then Note(l, n.value) else l
  {
  }

  /** The ledger after a step of the call, in closed form. */
  function Booked(k: Setup, v: View, e: Event, heard: Option<Message>, l: Flow): Flow
    requires !e.Global()
  {
    var m := Entry(k, v, e, l);
    if heard.Some? then m.(heard := m.heard + [heard.value]) else m
  }

  lemma StepIsBooked(k: Setup, v: View, e: Event, heard: Option<Message>, l: Flow)
    requires !e.Global()
    ensures After(Note, k, v, e, heard, l) == Booked(k, v, e, heard, l)
  {
    hide Change, Few, NotedAct, OneNoted, Entry;
    if e.Calling() {
      CallingNoted(k, v, e);
    } else {
      ServingNoted(k, v, e);
    }
    FewNoted(l, Change(k, v, e).acts, NotedAt(e), NotedAct(k, v, e));
    NoteIsEntry(k, v, e, l);
  }

  /** The parts of the ledger one by one: what the owner was told; */
  ghost predicate ToldPart(v: View, e: Event, l: Flow, m: Flow) {
    var settles := e.Settle? && v.waiting.Some?;
    && m.opens == (if e.Open? then l.opens + 1 else l.opens)
    && m.early == (l.early || (e.Open? && l.heard != []))
    && m.openAt == (if e.Open? then |l.heard| else l.openAt)
    && m.told == (if e.TellItem? then l.told + [e.body] else l.told)
    && m.ended == (l.ended || (settles && e.outcome.kind == OutcomeKind.End))
    && m.endAt == (if settles && e.outcome.kind == OutcomeKind.End then |l.heard| else l.endAt)
    && m.reply == (if settles && e.outcome.kind == OutcomeKind.Response then Some(e.outcome.body) else l.reply)
    && m.replyAt == (if settles && e.outcome.kind == OutcomeKind.Response then |l.heard| else l.replyAt)
  }

  /** what was offered, credited and granted; */
  ghost predicate OfferedPart(k: Setup, v: View, e: Event, l: Flow, m: Flow) {
    var credits := e.Allow? && (v.running.Some? || v.waiting.Some?);
    && m.offered == (if e.PushItem? && v.waiting.Some? then l.offered + [e.body] else l.offered)
    && m.credited == (if credits then l.credited + e.items as int else l.credited)
    && m.free == (if credits && l.free.None? then Some(|l.offered|) else l.free)
    && m.granted == (if e.Grant? && k.registry.creditID.Some? then l.granted + e.items as int else l.granted)
  }

  /** and what a handler did. */
  ghost predicate ServedPart(v: View, e: Event, l: Flow, m: Flow) {
    && m.admits == (if e.Admit? then l.admits + 1 else l.admits)
    && m.since == (if e.Admit? then |l.heard| else l.since)
    && m.initial == (if e.Admit? then e.running.credit else l.initial)
    && m.yielded == (if e.Yield? && v.running.Some? then l.yielded + [e.body] else l.yielded)
    && m.responded == (if e.Answer? && v.running.Some? then l.responded + [e.body] else l.responded)
    && m.delivered == (if e.Deliver? && v.running.Some? then l.delivered + [e.body] else l.delivered)
  }

  lemma CallerParts(k: Setup, v: View, e: Event, l: Flow)
    requires e.Calling() && (e.Settle? ==> e.outcome.kind != OutcomeKind.Item)
    ensures var m := CallerEntry(k, v, e, l);
            && ToldPart(v, e, l, m) && OfferedPart(k, v, e, l, m) && ServedPart(v, e, l, m)
            && m.heard == l.heard && m.sent == l.sent
  {
  }

  lemma CalleeParts(k: Setup, v: View, e: Event, l: Flow)
    requires !e.Global() && !e.Calling()
    ensures var m := CalleeEntry(v, e, l);
            && ToldPart(v, e, l, m) && OfferedPart(k, v, e, l, m) && ServedPart(v, e, l, m)
            && m.heard == l.heard && m.sent == l.sent
  {
  }

  /** What the ledger is after a step, part by part. */
  lemma BookedParts(k: Setup, v: View, e: Event, heard: Option<Message>, l: Flow)
    requires !e.Global() && (e.Settle? ==> e.outcome.kind != OutcomeKind.Item)
    ensures var m := Booked(k, v, e, heard, l);
            && ToldPart(v, e, l, m) && OfferedPart(k, v, e, l, m) && ServedPart(v, e, l, m)
            && m.heard == (if heard.Some? then l.heard + [heard.value] else l.heard) && m.sent == l.sent
  {
    hide CallerEntry, CalleeEntry;
    if e.Calling() {
      CallerParts(k, v, e, l);
    } else {
      CalleeParts(k, v, e, l);
    }
  }

  /** Nothing is heard or sent by the acts of a step themselves. */
  lemma ChangeIsQuiet(k: Setup, v: View, e: Event)
    requires !e.Global()
    ensures forall i :: 0 <= i < |Change(k, v, e).acts| ==>
            !Change(k, v, e).acts[i].Sent? && !Change(k, v, e).acts[i].Heard?
  {
    hide Change;
    if e.Calling() {
      CallingNoted(k, v, e);
    } else {
      ServingNoted(k, v, e);
    }
  }

  // ------------------------------------------------------------ filters and sums

  /** The frames of these kinds. */
  function Only(kinds: set<Kind>, frames: seq<Outgoing>): seq<Outgoing> {
    if frames == [] then []
    else (if frames[0].header.kind in kinds then [frames[0]] else []) + Only(kinds, frames[1..])
  }

  lemma {:induction false} OnlyConcat(kinds: set<Kind>, a: seq<Outgoing>, b: seq<Outgoing>)
    ensures Only(kinds, a + b) == Only(kinds, a) + Only(kinds, b)
  {
    if a == [] {
      assert a + b == b;
    } else {
      OnlyConcat(kinds, a[1..], b);
      assert (a + b)[0] == a[0] && (a + b)[1..] == a[1..] + b;
      Regroup(if a[0].header.kind in kinds then [a[0]] else [], Only(kinds, a[1..]), Only(kinds, b));
    }
  }

  lemma OnlyOne(kinds: set<Kind>, a: seq<Outgoing>, f: Outgoing)
    ensures Only(kinds, a + [f]) == if f.header.kind in kinds then Only(kinds, a) + [f] else Only(kinds, a)
  {
    OnlyConcat(kinds, a, [f]);
    assert [f][1..] == [];
    NothingAdded(Only(kinds, a));
    NothingAdded([f]);
  }

  lemma OnlyNone(kinds: set<Kind>)
    ensures Only(kinds, []) == [] && Frames([]) == []
  {
  }

  const STREAM: set<Kind> := {Kind.Item, Kind.End}

  /** The frames of a stream: its ITEMs and its END. */
  function StreamOf(frames: seq<Outgoing>): seq<Outgoing> { Only(STREAM, frames) }

  function Requests(frames: seq<Outgoing>): nat {
    if frames == [] then 0 else (if frames[0].header.kind == Request then 1 else 0) + Requests(frames[1..])
  }

  lemma {:induction false} RequestsConcat(a: seq<Outgoing>, b: seq<Outgoing>)
    ensures Requests(a + b) == Requests(a) + Requests(b)
  {
    if a == [] {
      assert a + b == b;
    } else {
      RequestsConcat(a[1..], b);
      assert (a + b)[0] == a[0] && (a + b)[1..] == a[1..] + b;
    }
  }

  lemma RequestsOne(a: seq<Outgoing>, f: Outgoing)
    ensures Requests(a + [f]) == Requests(a) + if f.header.kind == Request then 1 else 0
  {
    RequestsConcat(a, [f]);
    assert [f][1..] == [];
  }

  /** Credit a frame carries, as its receiver reads it. */
  function CreditIn(k: Setup, f: Outgoing): nat {
    if f.header.kind == Kind.Credit && k.Plain(f).Some? then ReadCredit(k.Plain(f).value) as int else 0
  }

  function Credits(k: Setup, frames: seq<Outgoing>): nat {
    if frames == [] then 0 else CreditIn(k, frames[0]) + Credits(k, frames[1..])
  }

  lemma {:induction false} CreditsConcat(k: Setup, a: seq<Outgoing>, b: seq<Outgoing>)
    ensures Credits(k, a + b) == Credits(k, a) + Credits(k, b)
  {
    if a == [] {
      assert a + b == b;
    } else {
      CreditsConcat(k, a[1..], b);
      assert (a + b)[0] == a[0] && (a + b)[1..] == a[1..] + b;
    }
  }

  lemma CreditsOne(k: Setup, a: seq<Outgoing>, f: Outgoing)
    ensures Credits(k, a + [f]) == Credits(k, a) + CreditIn(k, f)
  {
    CreditsConcat(k, a, [f]);
    assert [f][1..] == [];
  }

  /** The frames among messages. */
  function Frames(messages: seq<Message>): seq<Outgoing> {
    if messages == [] then []
    else (if messages[0].Frame? then [messages[0].frame] else []) + Frames(messages[1..])
  }

  lemma {:induction false} FramesConcat(a: seq<Message>, b: seq<Message>)
    ensures Frames(a + b) == Frames(a) + Frames(b)
  {
    if a == [] {
      assert a + b == b;
    } else {
      FramesConcat(a[1..], b);
      assert (a + b)[0] == a[0] && (a + b)[1..] == a[1..] + b;
      Regroup(if a[0].Frame? then [a[0].frame] else [], Frames(a[1..]), Frames(b));
    }
  }

  lemma FramesOne(a: seq<Message>, m: Message)
    ensures Frames(a + [m]) == if m.Frame? then Frames(a) + [m.frame] else Frames(a)
  {
    FramesConcat(a, [m]);
    assert [m][1..] == [];
    NothingAdded(Frames(a));
    if m.Frame? {
      NothingAdded([m.frame]);
    }
  }

  lemma RequestsNone()
    ensures Requests([]) == 0
  {
  }

  lemma HeardOne(k: Setup, l: seq<Message>, m: Message)
    ensures var f := Frames(l + [m]);
            if m.Frame? then
              && StreamOf(f) == (if m.frame.header.kind in {Kind.Item, Kind.End} then StreamOf(Frames(l)) + [m.frame]
                                 else StreamOf(Frames(l)))
              && Requests(f) == Requests(Frames(l)) + (if m.frame.header.kind == Request then 1 else 0)
              && Credits(k, f) == Credits(k, Frames(l)) + CreditIn(k, m.frame)
            else f == Frames(l)
  {
    FramesOne(l, m);
    if m.Frame? {
      OnlyOne(STREAM, Frames(l), m.frame);
      RequestsOne(Frames(l), m.frame);
      CreditsOne(k, Frames(l), m.frame);
    }
  }

  // ------------------------------------------------------------- bodies and frames

  predicate Reads(k: Setup, frame: Outgoing, body: Bytes) {
    frame.header.kind == Kind.Item && k.Plain(frame) == Some(body)
  }

  /** These frames are ITEMs, and those are their plain bodies. */
  ghost predicate Plainly(k: Setup, frames: seq<Outgoing>, bodies: seq<Bytes>) {
    |frames| == |bodies| && forall i :: 0 <= i < |frames| ==> Reads(k, frames[i], bodies[i])
  }

  lemma PlainlyOne(k: Setup, frames: seq<Outgoing>, bodies: seq<Bytes>, frame: Outgoing, body: Bytes)
    requires Plainly(k, frames, bodies) && Reads(k, frame, body)
    ensures Plainly(k, frames + [frame], bodies + [body])
  {
    hide Reads;
  }

  ghost predicate Carries(k: Setup, c: u32, f: Outgoing, body: Bytes) {
    exists id :: f == k.BodyFrame(c, Kind.Item, id, body)
  }

  /** These frames carry those bodies, one each, in order. */
  ghost predicate Carry(k: Setup, c: u32, frames: seq<Outgoing>, bodies: seq<Bytes>) {
    |frames| == |bodies| && forall i :: 0 <= i < |frames| ==> Carries(k, c, frames[i], bodies[i])
  }

  /** They carry the first of those bodies. */
  ghost predicate CarrySome(k: Setup, c: u32, frames: seq<Outgoing>, bodies: seq<Bytes>) {
    |frames| <= |bodies| && Carry(k, c, frames, bodies[..|frames|])
  }

  /** They carry all of those bodies and the END behind them. */
  ghost predicate CarryAll(k: Setup, c: u32, frames: seq<Outgoing>, bodies: seq<Bytes>) {
    var n := |frames| - 1;
    n >= 0 && frames[n].header.kind == Kind.End && Carry(k, c, frames[..n], bodies)
  }

  lemma CarryOne(k: Setup, c: u32, frames: seq<Outgoing>, bodies: seq<Bytes>, id: u32, body: Bytes)
    requires Carry(k, c, frames, bodies)
    ensures Carry(k, c, frames + [k.BodyFrame(c, Kind.Item, id, body)], bodies + [body])
  {
    hide Setup.BodyFrame;
  }

  lemma CarryMeansSome(k: Setup, c: u32, frames: seq<Outgoing>, bodies: seq<Bytes>)
    requires Carry(k, c, frames, bodies)
    ensures CarrySome(k, c, frames, bodies)
  {
    hide Carries;
    assert bodies[..|bodies|] == bodies;
  }

  lemma CarryThenEnd(k: Setup, c: u32, frames: seq<Outgoing>, bodies: seq<Bytes>, end: Outgoing)
    requires Carry(k, c, frames, bodies) && end.header.kind == Kind.End
    ensures CarryAll(k, c, frames + [end], bodies)
  {
    hide Carries;
    assert (frames + [end])[..|frames|] == frames;
  }

  /** What is left of a stream when frames at its end are thrown away. */
  lemma CarryCut(k: Setup, c: u32, a: seq<Outgoing>, b: seq<Outgoing>, bodies: seq<Bytes>)
    requires CarryAll(k, c, a + b, bodies) || CarrySome(k, c, a + b, bodies)
    ensures CarryAll(k, c, a, bodies) || CarrySome(k, c, a, bodies)
  {
    hide Carries;
    var s, n := a + b, |a|;
    if b == [] {
      assert s == a;
    } else if CarryAll(k, c, s, bodies) {
      var m := |s| - 1;
      assert forall i :: 0 <= i < n ==> a[i] == s[..m][i] && bodies[..n][i] == bodies[i];
      assert Carry(k, c, a, bodies[..n]);
    } else {
      assert forall i :: 0 <= i < n ==> a[i] == s[i] && bodies[..n][i] == bodies[..|s|][i];
      assert Carry(k, c, a, bodies[..n]);
    }
  }

  lemma CarryNone(k: Setup, c: u32)
    ensures Carry(k, c, [], []) && CarrySome(k, c, [], [])
  {
  }

  // -------------------------------------------------------------- drained frames

  predicate Fitting(k: Setup, c: u32, f: Outgoing) {
    f.header.call == c && (if f.header.kind == Request then k.Own(c) else Bare(f))
  }

  predicate AllFitting(k: Setup, c: u32, frames: seq<Outgoing>) {
    forall i :: 0 <= i < |frames| ==> Fitting(k, c, frames[i])
  }

  function Items(credit: Option<WaitingCredit>): nat {
    if credit.Some? then credit.value.items as int else 0
  }

  predicate PlainCredit(frames: seq<Outgoing>) {
    forall i :: 0 <= i < |frames| && frames[i].header.kind == Kind.Credit ==> !frames[i].header.compressed
  }

  lemma {:induction false} QueuesHoldNoCredit(k: Setup, frames: seq<Outgoing>)
    requires NoCredit(frames)
    ensures Credits(k, frames) == 0
  {
    if frames != [] {
      QueuesHoldNoCredit(k, frames[1..]);
    }
  }

  /** Credit told by a drain. */
  lemma TellCredits(k: Setup, c: u32, credit: Option<WaitingCredit>, sent: bool)
    ensures var f := Tell(credit, c, sent);
            && Credits(k, f) == (if sent then Items(credit) else 0)
            && Requests(f) == 0 && PlainCredit(f) && AllFitting(k, c, f)
  {
    if sent && credit.Some? {
      CreditRoundTrip(credit.value.items);
      var f := CreditFrame(c, credit.value);
      assert [f][1..] == [];
      assert Credits(k, [f]) == CreditIn(k, f) + Credits(k, []);
    }
  }

  lemma TellOnly(c: u32, credit: Option<WaitingCredit>, sent: bool, kinds: set<Kind>)
    requires Kind.Credit !in kinds
    ensures Only(kinds, Tell(credit, c, sent)) == []
  {
    if sent && credit.Some? {
      assert [CreditFrame(c, credit.value)][1..] == [];
    }
  }

  /** What a drain moves from the queue to the sink it neither loses nor adds to. */
  lemma DrainTotals(k: Setup, c: u32, v: View, v': View, sent: seq<Outgoing>, share: Share)
    requires Shares(c, v.queue, v.credit, sent, v'.queue, v'.credit, share)
    requires NoCredit(v.queue) && AllFitting(k, c, v.queue)
    ensures Requests(sent) + Requests(v'.queue) == Requests(v.queue)
    ensures Credits(k, sent) + Items(v'.credit) == Items(v.credit)
    ensures PlainCredit(sent) && AllFitting(k, c, sent) && AllFitting(k, c, v'.queue)
  {
    hide Requests, Credits, Tell, Fitting;
    var a, b, d := Tell(v.credit, c, share.before), v.queue[..share.count], Tell(v.credit, c, share.after);
    TellCredits(k, c, v.credit, share.before);
    TellCredits(k, c, v.credit, share.after);
    QueuesHoldNoCredit(k, b);
    RequestsConcat(a + b, d);
    RequestsConcat(a, b);
    RequestsConcat(b, v'.queue);
    CreditsConcat(k, a + b, d);
    CreditsConcat(k, a, b);
    assert b + v'.queue == v.queue;
  }

  /** The same, kind by kind and in order. */
  lemma DrainOnly(c: u32, v: View, v': View, sent: seq<Outgoing>, share: Share, before: seq<Outgoing>, kinds: set<Kind>)
    requires Shares(c, v.queue, v.credit, sent, v'.queue, v'.credit, share) && Kind.Credit !in kinds
    ensures Only(kinds, before + sent) + Only(kinds, v'.queue) == Only(kinds, before) + Only(kinds, v.queue)
  {
    hide Only, Tell;
    var a, b, d := Tell(v.credit, c, share.before), v.queue[..share.count], Tell(v.credit, c, share.after);
    TellOnly(c, v.credit, share.before, kinds);
    TellOnly(c, v.credit, share.after, kinds);
    OnlyConcat(kinds, before, sent);
    OnlyConcat(kinds, a + b, d);
    OnlyConcat(kinds, a, b);
    OnlyConcat(kinds, b, v'.queue);
    assert b + v'.queue == v.queue;
    NothingAdded(Only(kinds, b));
    Regroup(Only(kinds, before), Only(kinds, b), Only(kinds, v'.queue));
  }
}
