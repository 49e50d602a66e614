/** Frames bear the message ids of their call's method, on either side: the single-core
    halves of the law that conforming frames are never refused. */
module Naming {
  import opened Basics
  import opened Wire
  import opened OutboxModel
  import opened OutboxRefinement
  import opened Session
  import opened CoreModel
  import opened Histories
  import opened Completion
  import opened Ledger
  import opened Flows

  /** The method a REQUEST names. */
  function Named(k: Setup, request: Outgoing): Option<Method> {
    if request.messageID in k.registry.byRequest then Some(k.registry.byRequest[request.messageID].about) else None
  }

  /** A frame of the caller of this method. */
  predicate FromCaller(k: Setup, about: Method, f: Outgoing) {
    match f.header.kind
    case Item => about.shape.CallerStreams() && f.messageID == about.CallerItemID()
    case End => about.shape.CallerStreams() && f.messageID == k.registry.voidID
    case _ => true
  }

  /** A frame of the callee. */
  predicate FromCallee(k: Setup, about: Method, f: Outgoing) {
    match f.header.kind
    case Response => !about.shape.CalleeStreams() && f.messageID == about.replyID
    case Item => about.shape.CalleeStreams() && f.messageID == about.replyID
    case End => about.shape.CalleeStreams() && f.messageID == k.registry.voidID
    case _ => true
  }

  /** Frames that tell how a call goes on, or that it is over. */
  predicate Tells(f: Outgoing) { f.header.kind in {Kind.Response, Kind.Item, Kind.End} }

  /** ERRORs, CANCELs and CREDITs are what they should be, whoever sends them. */
  predicate Formal(k: Setup, f: Outgoing) {
    && (f.header.kind == Kind.Credit ==> k.registry.creditID == Some(f.messageID))
    && (f.header.kind == Kind.Error ==> f.messageID == k.registry.errorID)
    && (f.header.kind == Cancel ==> f.messageID == k.registry.voidID)
  }

  /** A call of this side, opened at most once: what was said and is queued, and its record,
      are of the method that its REQUEST names. */
  ghost predicate OwnNamed(k: Setup, v: View, l: Flow) {
    var all := l.sent + v.queue;
    && (l.opens == 0 ==> v.waiting.None? && forall f :: f in all ==> f.header.kind != Request && !Tells(f))
    && (l.opens == 1 ==> forall g :: g in all && g.header.kind == Request ==>
          && Named(k, g).Some?
          && (v.waiting.Some? ==> AwaitsReply(v.waiting.value, Named(k, g).value))
          && forall f :: f in all ==> FromCaller(k, Named(k, g).value, f))
  }

  /** The REQUEST a call of the peer was admitted for. */
  ghost predicate AdmittedFor(l: Flow, g: Outgoing) {
    l.since < |l.heard| && l.heard[l.since] == Frame(g) && g.header.kind == Request
  }

  /** A call of the peer, admitted at most once: likewise, with the REQUEST it was admitted
      for. */
  ghost predicate TheirsNamed(k: Setup, v: View, l: Flow) {
    var all := l.sent + v.queue;
    && (l.admits == 0 ==> v.running.None? && forall f :: f in all ==> !Tells(f))
    && (l.admits == 1 ==> exists g :: AdmittedFor(l, g) && ServedFor(k, v, all, g))
  }

  /** The record and these frames are of the method that this REQUEST names. */
  ghost predicate ServedFor(k: Setup, v: View, all: seq<Outgoing>, g: Outgoing) {
    && Named(k, g).Some?
    && (v.running.Some? ==> ServesMethod(v.running.value, Named(k, g).value))
    && forall f :: f in all ==> FromCallee(k, Named(k, g).value, f)
  }

  ghost predicate WellNamed(k: Setup, c: u32, v: View, l: Flow) {
    && (forall f :: f in l.sent + v.queue ==> Formal(k, f))
    && (v.credit.Some? ==> k.registry.creditID == Some(v.credit.value.messageID))
    && (if k.Own(c) then OwnNamed(k, v, l) else TheirsNamed(k, v, l))
  }

  // --------------------------------------------------------------------- one step

  /** What a step of one call queues and makes of the records. */
  ghost predicate Names(k: Setup, c: u32, v: View, e: Event, heard: Option<Message>, d: Delta) {
    && (d.append.Some? ==> Formal(k, d.append.value))
    && (d.grant.Some? ==> k.registry.creditID == Some(d.grant.value.messageID))
    && (k.Own(c) ==>
          && (d.waiting.Some? && e.Open? ==> v.waiting.None?)
          && (d.waiting.Some? && !e.Open? ==>
                && v.waiting.Some? && d.waiting.value.itemID == v.waiting.value.itemID
                && d.waiting.value.replyID == v.waiting.value.replyID
                && d.waiting.value.shape == v.waiting.value.shape)
          && (e.Open? ==>
                && d.waiting == Some(e.waiting) && d.append == Some(e.frame)
                && e.frame.header.kind == Request && heard.None?
                && Named(k, e.frame).Some? && AwaitsReply(e.waiting, Named(k, e.frame).value))
          && (!e.Open? && d.append.Some? ==> d.append.value.header.kind != Request)
          && (d.append.Some? && Tells(d.append.value) ==>
                && v.waiting.Some?
                && forall about :: AwaitsReply(v.waiting.value, about) ==> FromCaller(k, about, d.append.value)))
    && (!k.Own(c) ==>
          && (d.running.Some? && e.Admit? ==> v.running.None?)
          && (d.running.Some? && !e.Admit? ==>
                && v.running.Some? && d.running.value.itemID == v.running.value.itemID
                && d.running.value.replyID == v.running.value.replyID
                && d.running.value.shape == v.running.value.shape)
          && (e.Admit? ==>
                && d.running == Some(e.running) && d.append.None? && heard.Some? && heard.value.Is(Request)
                && Named(k, heard.value.frame).Some? && ServesMethod(e.running, Named(k, heard.value.frame).value))
          && (d.append.Some? && Tells(d.append.value) ==>
                && v.running.Some?
                && forall about :: ServesMethod(v.running.value, about) ==> FromCallee(k, about, d.append.value)))
  }

  lemma NamesCalling(k: Setup, c: u32, a: Surroundings, v: View, e: Event, heard: Option<Message>, t: Tally)
    requires Stepping(k, c, a, v, e, heard, t) && e.Calling()
    ensures Names(k, c, v, e, heard, Change(k, v, e))
  {
    hide Setup.Plain, Setup.Own, SaturatingAdd, ReadCredit, InitialCredit;
  }

  lemma NamesServing(k: Setup, c: u32, a: Surroundings, v: View, e: Event, heard: Option<Message>, t: Tally)
    requires Stepping(k, c, a, v, e, heard, t) && !e.Calling()
    ensures Names(k, c, v, e, heard, Change(k, v, e))
  {
    hide Setup.Plain, Setup.Own, SaturatingAdd, ReadCredit, InitialCredit;
  }

  /** What one step adds to the frames of a call. */
  lemma AllAfter(v: View, d: Delta, l: Flow, m: Flow)
    requires m.sent == l.sent
    ensures forall f :: f in m.sent + Changed(v, d).queue ==> f in l.sent + v.queue || d.append == Some(f)
  {
  }

  lemma OwnNamedOwn(k: Setup, c: u32, v: View, e: Event, heard: Option<Message>, d: Delta, l: Flow, m: Flow)
    requires OwnNamed(k, v, l) && k.Own(c) && Names(k, c, v, e, heard, d)
    requires m.sent == l.sent && m.opens == (if e.Open? then l.opens + 1 else l.opens)
    ensures OwnNamed(k, Changed(v, d), m)
  {
    hide Setup.Own, Formal, FromCaller;
    AllAfter(v, d, l, m);
    var all := m.sent + Changed(v, d).queue;
    forall g, f | m.opens == 1 && g in all && g.header.kind == Request && f in all
      ensures Named(k, g).Some? && FromCaller(k, Named(k, g).value, f)
      ensures Changed(v, d).waiting.Some? ==> AwaitsReply(Changed(v, d).waiting.value, Named(k, g).value)
    {
      assert g in l.sent + v.queue ==> l.opens == 1;
      Quiet(k, Named(k, g).value, f);
    }
  }

  lemma Quiet(k: Setup, about: Method, f: Outgoing)
    ensures !Tells(f) ==> FromCaller(k, about, f) && FromCallee(k, about, f)
  {
  }

  lemma TheirsNamedOwn(k: Setup, c: u32, v: View, e: Event, heard: Option<Message>, d: Delta, l: Flow, m: Flow)
    requires TheirsNamed(k, v, l) && !k.Own(c) && Names(k, c, v, e, heard, d)
    requires m.sent == l.sent && m.admits == (if e.Admit? then l.admits + 1 else l.admits)
    requires m.since == (if e.Admit? then |l.heard| else l.since)
    requires m.heard == (if heard.Some? then l.heard + [heard.value] else l.heard)
    ensures TheirsNamed(k, Changed(v, d), m)
  {
    hide Setup.Own, Formal, FromCallee, ServesMethod;
    AllAfter(v, d, l, m);
    var all := m.sent + Changed(v, d).queue;
    if m.admits == 1 && e.Admit? {
      var g := heard.value.frame;
      assert AdmittedFor(m, g);
      forall f | f in all
        ensures FromCallee(k, Named(k, g).value, f)
      {
        Quiet(k, Named(k, g).value, f);
      }
      assert ServedFor(k, Changed(v, d), all, g);
    } else if m.admits == 1 {
      var g :| AdmittedFor(l, g) && ServedFor(k, v, l.sent + v.queue, g);
      assert AdmittedFor(m, g);
      if d.append.Some? {
        Quiet(k, Named(k, g).value, d.append.value);
      }
      SameIDs(v, d, e, Named(k, g).value);
      assert ServedFor(k, Changed(v, d), all, g);
    }
  }

  lemma SameIDs(v: View, d: Delta, e: Event, about: Method)
    requires v.running.Some? && d.running.Some? ==>
               && d.running.value.itemID == v.running.value.itemID && d.running.value.replyID == v.running.value.replyID
               && d.running.value.shape == v.running.value.shape
    ensures v.running.Some? && d.running.Some? && ServesMethod(v.running.value, about) ==>
              ServesMethod(d.running.value, about)
  {
  }

  lemma CreditAfter(v: View, d: Delta)
    ensures Changed(v, d).credit.Some? ==>
              var id := Changed(v, d).credit.value.messageID;
              (d.grant.Some? && id == d.grant.value.messageID) || (v.credit.Some? && id == v.credit.value.messageID)
  {
  }

  lemma NamingOwn(k: Setup, c: u32, a: Surroundings, v: View, e: Event, heard: Option<Message>, l: Flow, t: Tally)
    requires Stepping(k, c, a, v, e, heard, t) && WellNamed(k, c, v, l)
    ensures !e.Global() && WellNamed(k, c, Changed(v, Change(k, v, e)), Booked(k, v, e, heard, l))
  {
    hide Allowed, Consistent, Change, Booked, Setup.Own, OwnNamed, TheirsNamed, Formal;
    SettlesRightly(k, c, a, v, e, heard, t);
    BookedParts(k, v, e, heard, l);
    if e.Calling() {
      NamesCalling(k, c, a, v, e, heard, t);
    } else {
      NamesServing(k, c, a, v, e, heard, t);
    }
    var d, m := Change(k, v, e), Booked(k, v, e, heard, l);
    AllAfter(v, d, l, m);
    assert d.append.Some? ==> Formal(k, d.append.value);
    CreditAfter(v, d);
    if k.Own(c) {
      OwnNamedOwn(k, c, v, e, heard, d, l, m);
    } else {
      TheirsNamedOwn(k, c, v, e, heard, d, l, m);
    }
  }

  /** What a drain sends is of the queue, or a CREDIT. */
  lemma DrainSends(c: u32, v: View, v': View, sent: seq<Outgoing>, share: Share, before: seq<Outgoing>)
    requires Shares(c, v.queue, v.credit, sent, v'.queue, v'.credit, share)
    ensures forall f :: f in before + sent + v'.queue ==>
              f in before + v.queue
              || (f.header.kind == Kind.Credit && v.credit.Some? && f.messageID == v.credit.value.messageID)
    ensures v'.credit.Some? ==> v'.credit == v.credit
  {
    var a, b, d := Tell(v.credit, c, share.before), v.queue[..share.count], Tell(v.credit, c, share.after);
    assert forall f :: f in a || f in d ==>
             f.header.kind == Kind.Credit && v.credit.Some? && f.messageID == v.credit.value.messageID;
    assert forall f :: f in sent ==> f in a || f in b || f in d;
    assert forall f :: f in b || f in v'.queue ==> f in v.queue;
  }

  lemma CreditIsFine(k: Setup, f: Outgoing)
    requires f.header.kind == Kind.Credit && k.registry.creditID == Some(f.messageID)
    ensures !Tells(f) && Formal(k, f) && forall about :: FromCaller(k, about, f) && FromCallee(k, about, f)
  {
  }

  lemma NamingDrain(k: Setup, c: u32, v: View, v': View, sent: seq<Outgoing>, share: Share, l: Flow)
    requires WellNamed(k, c, v, l)
    requires Shares(c, v.queue, v.credit, sent, v'.queue, v'.credit, share)
    requires v'.waiting == v.waiting && v'.running == v.running
    ensures WellNamed(k, c, v', l.(sent := l.sent + sent))
  {
    hide Setup.Own, Shares, FromCaller, FromCallee, Formal, AwaitsReply, ServesMethod;
    DrainSends(c, v, v', sent, share, l.sent);
    var m, all := l.(sent := l.sent + sent), l.sent + sent + v'.queue;
    forall f | f in all && f.header.kind == Kind.Credit && k.registry.creditID == Some(f.messageID)
      ensures !Tells(f) && Formal(k, f) && forall about :: FromCaller(k, about, f) && FromCallee(k, about, f)
    {
      CreditIsFine(k, f);
    }
    if !k.Own(c) && l.admits == 1 {
      var g :| AdmittedFor(l, g) && ServedFor(k, v, l.sent + v.queue, g);
      assert AdmittedFor(m, g) && ServedFor(k, v', all, g);
    }
  }

  lemma NamingEnds(k: Setup, c: u32, v: View, l: Flow)
    requires WellNamed(k, c, v, l) && v.waiting.None? && v.running.None?
    ensures WellNamed(k, c, NOTHING, l)
  {
    hide Setup.Own, FromCaller, FromCallee, Formal;
    assert forall f :: f in l.sent + [] ==> f in l.sent + v.queue;
    if !k.Own(c) && l.admits == 1 {
      var g :| AdmittedFor(l, g) && ServedFor(k, v, l.sent + v.queue, g);
      assert ServedFor(k, NOTHING, l.sent + [], g);
    }
  }

  lemma NamingMove(k: Setup, c: u32, v: View, h: seq<Act>, v': View, h': seq<Act>, m: Move)
    requires WellNamed(k, c, v, FlowOf(h)) && Completed(k, c, v, h)
    requires Evolves(k, c, v, h, v', h', m)
    ensures WellNamed(k, c, v', FlowOf(h'))
  {
    hide Fold, WellNamed, Change, Allowed, Shares, Consistent, After, Booked;
    match m {
      case Stay =>
      case Own(a, e, heard) =>
        FoldStep(Note, DRY, h, k, v, e, heard);
        StepIsBooked(k, v, e, heard, FlowOf(h));
        NamingOwn(k, c, a, v, e, heard, FlowOf(h), TallyOf(h));
      case Drains(share, sent) =>
        FoldConcat(Note, DRY, h, SentActs(c, sent));
        NoteSent(FlowOf(h), c, sent);
        NamingDrain(k, c, v, v', sent, share, FlowOf(h));
      case Ends =>
        FoldFew(Note, DRY, h, [Cleared]);
        NamingEnds(k, c, v, FlowOf(h));
    }
  }

  lemma {:induction false} NamingAlways(k: Setup, s: State, c: u32)
    requires Reachable(k, s)
    ensures WellNamed(k, c, ViewOf(s, c), FlowOf(History(s, c)))
    decreases |s.journal|
  {
    hide Enabled, Apply, Evolves, Fold, Completed, WellNamed;
    if s.journal == [] {
      NamingAtFirst(k, c);
    } else {
      var before, step := Previous(k, s);
      NamingAlways(k, before, c);
      BoxStaysSound(k, before);
      CompletedAlways(k, before, c);
      var m := EveryStepMoves(k, before, step, c);
      NamingMove(k, c, ViewOf(before, c), History(before, c), ViewOf(s, c), History(s, c), m);
    }
  }

  lemma NamingAtFirst(k: Setup, c: u32)
    ensures WellNamed(k, c, ViewOf(Initial(k), c), FlowOf(History(Initial(k), c)))
  {
  }
}
