/** Between cores with agreeing registries no frame is refused for its form: what the callee
    sends under a call made once is told to the caller's owner as what it is, and what the
    caller sends is taken by the call it is for. */
module AnswersTold {
  import opened Basics
  import opened Wire
  import opened OutboxModel
  import opened Session
  import opened CoreModel
  import opened Chains
  import opened Histories
  import opened Ledger
  import opened Flows
  import opened Traces
  import opened Duplex
  import opened Naming
  import opened Effects
  import opened MessageEffects
  import CoreOps
  import DuplexLaws
  import UploadLaws
  import Uploads

  /** Methods mean the same on both sides, and so do the messages of the protocol. */
  ghost predicate Agreeing(duo: Duo) {
    && (forall id :: id in duo.a.registry.byRequest && id in duo.b.registry.byRequest ==>
          duo.a.registry.byRequest[id].about == duo.b.registry.byRequest[id].about)
    && duo.a.registry.voidID == duo.b.registry.voidID && duo.a.registry.errorID == duo.b.registry.errorID
    && duo.a.registry.creditID == duo.b.registry.creditID
  }

  lemma ReceivedID(k: Setup, f: Outgoing)
    ensures Received(k, f).Frame? ==> Received(k, f).frame.messageID == f.messageID
  {
    hide Encode, Decode;
  }

  /** The method of a call made once is one and the same on both sides: that of the only
      REQUEST there was. */
  ghost predicate SameMethod(duo: Duo, s: Sys, c: u32, about: Method) {
    && (c in s.a.pending ==> AwaitsReply(s.a.pending[c], about))
    && (c in s.b.inflight ==> ServesMethod(s.b.inflight[c], about))
    && (forall f :: f in AtA(s, c).sent ==> FromCaller(duo.a, about, f))
    && (forall f :: f in AtB(s, c).sent ==> FromCallee(duo.b, about, f))
  }

  lemma OneMethod(duo: Duo, run: seq<Sys>, i: nat, c: u32) returns (about: Method)
    requires duo.Agreed() && Agreeing(duo) && Run(duo, run) && i < |run| && duo.a.Own(c)
    requires AtA(run[i], c).opens <= 1 && AtB(run[i], c).admits == 1
    ensures SameMethod(duo, run[i], c, about)
  {
    hide Run, Fold, Undoes, Carried, Reachable, Flowing, Linked, Received, FromCaller, FromCallee;
    hide AwaitsReply, ServesMethod, Formal, UploadLaws.Raised;
    SoundAlways(duo, run, i);
    KeptAlways(duo, run, i, c);
    UploadLaws.RaisedAlways(duo, run, i, c);
    DuplexLaws.TheirsToServe(duo, c);
    DuplexLaws.NeverMoreThanAsked(duo, run, i, c);
    var s := run[i];
    NamingAlways(duo.a, s.a, c);
    NamingAlways(duo.b, s.b, c);
    var a, b := AtA(s, c), AtB(s, c);
    var g :| AdmittedFor(b, g) && ServedFor(duo.b, ViewOf(s.b, c), b.sent + s.b.box.Queue(c), g);
    var p := UploadLaws.AdmittedAt(duo, c, s);
    RequestReceived(duo, c, s, p, g);
    var r := a.sent[p];
    assert r in a.sent + s.a.box.Queue(c);
    about := Named(duo.b, g).value;
    assert Named(duo.a, r) == Some(about);
  }

  /** The REQUEST that a call was admitted for is the one its caller sent. */
  lemma RequestReceived(duo: Duo, c: u32, s: Sys, p: nat, g: Outgoing)
    requires Linked(duo.b, c, AtB(s, c), s.ab, AtA(s, c)) && AdmittedFor(AtB(s, c), g)
    requires p == AtB(s, c).since < |AtA(s, c).sent| - |Under(s.ab, c)|
    ensures g.messageID == AtA(s, c).sent[p].messageID
  {
    hide Received, Fold;
    var a, b := AtA(s, c), AtB(s, c);
    var n := |a.sent| - |Under(s.ab, c)|;
    DuplexLaws.EachReceived(duo.b, a.sent[..n]);
    ReceivedID(duo.b, a.sent[p]);
  }

  /** The oldest frame under way to side A is one that side B sent under its call, in the form
      it arrives in. */
  lemma HeadIsSent(duo: Duo, c: u32, s: Sys)
    requires Kept(duo, c, s) && duo.a.Own(c) && !duo.b.Own(c)
    requires s.ba != [] && s.ba[0].header.call == c && s.ba[0].header.kind != Request
    ensures s.ba[0] in AtB(s, c).sent
    ensures Sendable(s.ba[0].header, s.ba[0].ctx, duo.a.config.maxCtxLen)
  {
    hide Received, ReceivedAll, Fold, Setup.Own, Mute, Telling, Streams, Paid, Asking, Listening;
    var sent, link := AtB(s, c).sent, Under(s.ba, c);
    assert link[0] == s.ba[0];
    assert sent[|sent| - |link|..] == link;
    assert sent[|sent| - |link|] == s.ba[0];
  }

  /** What the frame at the head of the link comes to, for the owner of a waiting call. */
  ghost predicate ToldAsIs(duo: Duo, s: Sys, t: State, f: Outgoing, body: Bytes, now: Time) {
    var c := f.header.call;
    match f.header.kind
    case Response =>
      && Over(s.a, t, c, Outcome(OutcomeKind.Response, c, body, None), []) && AtB(s, c).responded == [body]
    case Item => c in t.pending && t.outcomes == s.a.outcomes + [Outcome(OutcomeKind.Item, c, body, None)]
    case End => Over(s.a, t, c, Outcome(OutcomeKind.End, c, [], None), [])
    case Error => Over(s.a, t, c, Outcome(Failed, c, [], Some(DecodeStatus(body))), [])
    case Credit => CreditAdded(s.a, t, c, ItemsIn(body), now)
    case _ => true
  }

  /** A call's owner is told what the callee says: a RESPONSE of the method served as a
      response, with the body its handler answered, an ITEM as an item, an END as the end,
      an ERROR as the failure it names, and a CREDIT counts; none of them is refused. */
  lemma AnswerIsTold(duo: Duo, run: seq<Sys>, i: nat, c: u32, body: Bytes, now: Time, env: CoreOps.Arrival)
    requires duo.Agreed() && Agreeing(duo) && Run(duo, run) && i < |run| && duo.a.Own(c)
    requires AtA(run[i], c).opens <= 1 && c in run[i].a.pending
    requires run[i].ba != [] && run[i].ba[0].header.call == c && run[i].ba[0].header.kind != Request
    requires run[i].ba[0].messageID !in duo.a.registry.plain && ReadsAs(duo.a, run[i].ba[0], body)
    ensures ToldAsIs(duo, run[i], Arrived(duo.a, run[i].a, run[i].ba[0], now, env).state, run[i].ba[0], body, now)
  {
    hide Run, Fold, Undoes, Carried, Reachable, Flowing, Linked, ReadsAs, Arrived, Over, GivenUp, Received, CreditAdded;
    hide SameMethod, Formal, FromCallee, Sane, WellNamed, DecodeStatus;
    var s, f := run[i], run[i].ba[0];
    SoundAlways(duo, run, i);
    KeptAlways(duo, run, i, c);
    DuplexLaws.TheirsToServe(duo, c);
    HeadIsSent(duo, c, s);
    ReadyToHear(duo.a, s.a, c);
    assert Arrives(duo.a, s.a, f);
    match f.header.kind {
      case Error =>
        SentInForm(duo, s, c, f);
        ErrorHeard(duo.a, s.a, f, now, env, body);
      case Response =>
        MethodOf(duo, run, i, c, f);
        ResponseHeard(duo.a, s.a, f, now, env, body);
        ResponseIs(duo, run, i, c, f, body);
      case Item =>
        MethodOf(duo, run, i, c, f);
        ItemHeard(duo.a, s.a, f, now, env, body);
        ItemKept(duo.a, s.a, Arrived(duo.a, s.a, f, now, env).state, f, body);
      case End =>
        MethodOf(duo, run, i, c, f);
        EndHeard(duo.a, s.a, f, now, env, body);
      case Credit =>
        SentInForm(duo, s, c, f);
        CreditHeard(duo.a, s.a, f, now, env, body);
      case _ =>
    }
  }

  lemma ReadyToHear(k: Setup, s: State, c: u32)
    requires Reachable(k, s) && c in s.pending
    ensures s.ready && c !in s.inflight
  {
    hide Reachable;
    SaneAlways(k, s);
  }

  lemma ItemKept(k: Setup, s: State, t: State, f: Outgoing, body: Bytes)
    requires f.header.call in s.pending && ItemTold(k, s, t, f, body)
    requires s.pending[f.header.call].shape.CalleeStreams() && f.messageID == s.pending[f.header.call].replyID
    ensures f.header.call in t.pending
    ensures t.outcomes == s.outcomes + [Outcome(OutcomeKind.Item, f.header.call, body, None)]
  {
    assert Lookup(t.pending, f.header.call).Some?;
  }

  lemma SentInForm(duo: Duo, s: Sys, c: u32, f: Outgoing)
    requires Agreeing(duo) && Reachable(duo.b, s.b) && f in AtB(s, c).sent
    ensures f.header.kind == Kind.Error ==> f.messageID == duo.a.registry.errorID
    ensures f.header.kind == Kind.Credit ==> duo.a.registry.creditID == Some(f.messageID)
  {
    hide Reachable, Fold, OwnNamed, TheirsNamed, Setup.Own;
    NamingAlways(duo.b, s.b, c);
    assert f in AtB(s, c).sent + s.b.box.Queue(c);
  }

  /** A frame that tells of a call made once is what its owner waits for. */
  lemma MethodOf(duo: Duo, run: seq<Sys>, i: nat, c: u32, f: Outgoing)
    requires duo.Agreed() && Agreeing(duo) && Run(duo, run) && i < |run| && duo.a.Own(c)
    requires AtA(run[i], c).opens <= 1 && c in run[i].a.pending && f in AtB(run[i], c).sent && Tells(f)
    ensures var w := run[i].a.pending[c];
            && (w.shape.CalleeStreams() <==> f.header.kind != Kind.Response)
            && f.messageID == if f.header.kind == Kind.End then duo.a.registry.voidID else w.replyID
  {
    hide Run, Fold, Undoes, Carried, Reachable, FromCaller, FromCallee, AwaitsReply, ServesMethod, Formal;
    SoundAlways(duo, run, i);
    DuplexLaws.TheirsToServe(duo, c);
    DuplexLaws.NeverMoreThanAsked(duo, run, i, c);
    NamingAlways(duo.b, run[i].b, c);
    assert f in AtB(run[i], c).sent + run[i].b.box.Queue(c);
    var about := OneMethod(duo, run, i, c);
    Awaited(duo, run[i].a.pending[c], about, f);
  }

  lemma Awaited(duo: Duo, w: Waiting, about: Method, f: Outgoing)
    requires Agreeing(duo) && AwaitsReply(w, about) && FromCallee(duo.b, about, f) && Tells(f)
    ensures w.shape.CalleeStreams() <==> f.header.kind != Kind.Response
    ensures f.messageID == if f.header.kind == Kind.End then duo.a.registry.voidID else w.replyID
  {
  }

  lemma ResponseIs(duo: Duo, run: seq<Sys>, i: nat, c: u32, f: Outgoing, body: Bytes)
    requires duo.Agreed() && Run(duo, run) && i < |run| && duo.a.Own(c) && AtA(run[i], c).opens <= 1
    requires f in AtB(run[i], c).sent && f.header.kind == Kind.Response && ReadsAs(duo.a, f, body)
    ensures AtB(run[i], c).responded == [body]
  {
    hide Run, Fold, Undoes, Carried, Flowing, Uploads.Taking, Uploads.Offering;
    UploadLaws.RaisedAlways(duo, run, i, c);
    DuplexLaws.TheirsToServe(duo, c);
    DuplexLaws.NeverMoreThanAsked(duo, run, i, c);
    var b := AtB(run[i], c);
    var j :| 0 <= j < |b.sent| && b.sent[j] == f;
    InflateReads(duo.a, f);
    UploadLaws.SameAnswer(duo, c, f, body, b.responded[0]);
  }

  // ---------------------------------------------------------- towards the callee

  /** The same towards the callee: an ITEM or an END of the caller, at the head of the link,
      is taken by the call it is for as an item or the end of its stream. */
  lemma OfferIsTaken(duo: Duo, run: seq<Sys>, i: nat, c: u32, body: Bytes, now: Time, env: CoreOps.Arrival)
    requires duo.Agreed() && Agreeing(duo) && Run(duo, run) && i < |run| && duo.a.Own(c)
    requires AtA(run[i], c).opens <= 1 && c in run[i].b.inflight && !run[i].b.inflight[c].inboundClosed
    requires run[i].ab != [] && run[i].ab[0].header.call == c && run[i].ab[0].header.kind in {Kind.Item, Kind.End}
    requires run[i].ab[0].messageID !in duo.b.registry.plain && ReadsAs(duo.b, run[i].ab[0], body)
    ensures var s, f := run[i].b, run[i].ab[0];
            var t, r := Arrived(duo.b, s, f, now, env).state, run[i].b.inflight[c];
            if f.header.kind == Kind.Item then
              match r.handler.item(r.delivered)
              case Some(refusal) => Failing(duo.b, s, t, c, refusal)
              case None => ServedAs(duo.b, s, t, c, r.(lastHeard := now, delivered := r.delivered + 1), now)
            else
              match r.handler.close
              case Some(refusal) => Failing(duo.b, s, t, c, refusal)
              case None => ServedAs(duo.b, s, t, c, r.(lastHeard := now, inboundClosed := true), now)
  {
    hide Run, Fold, Undoes, Carried, Reachable, Flowing, Linked, ReadsAs, Arrived, Received;
    hide FromCaller, FromCallee, AwaitsReply, ServesMethod, Sane, WellNamed, Failing, ServedAs;
    var s, f := run[i], run[i].ab[0];
    SoundAlways(duo, run, i);
    KeptAlways(duo, run, i, c);
    DuplexLaws.TheirsToServe(duo, c);
    DuplexLaws.NeverMoreThanAsked(duo, run, i, c);
    AdmittedOnce(duo, s, c);
    HeadIsOffered(duo, c, s);
    ReadyToServe(duo.b, s.b, c);
    assert Arrives(duo.b, s.b, f);
    var about := OneMethod(duo, run, i, c);
    Taken(duo, s.b.inflight[c], about, f);
    if f.header.kind == Kind.Item {
      ItemHeard(duo.b, s.b, f, now, env, body);
    } else {
      EndHeard(duo.b, s.b, f, now, env, body);
    }
  }

  lemma Taken(duo: Duo, r: Running, about: Method, f: Outgoing)
    requires Agreeing(duo) && ServesMethod(r, about) && FromCaller(duo.a, about, f)
    requires f.header.kind in {Kind.Item, Kind.End}
    ensures r.shape.CallerStreams()
    ensures f.messageID == if f.header.kind == Kind.End then duo.b.registry.voidID else r.itemID
  {
  }

  lemma AdmittedOnce(duo: Duo, s: Sys, c: u32)
    requires Kept(duo, c, s) && !duo.b.Own(c) && c in s.b.inflight && AtB(s, c).admits <= 1
    ensures AtB(s, c).admits == 1
  {
    hide Fold, Received, ReceivedAll, Mute, Telling, Labelled, Asking, Listening, Linked;
  }

  lemma HeadIsOffered(duo: Duo, c: u32, s: Sys)
    requires Kept(duo, c, s) && duo.a.Own(c) && !duo.b.Own(c)
    requires s.ab != [] && s.ab[0].header.call == c && s.ab[0].header.kind != Request
    ensures s.ab[0] in AtA(s, c).sent
    ensures Sendable(s.ab[0].header, s.ab[0].ctx, duo.b.config.maxCtxLen)
  {
    hide Received, ReceivedAll, Fold, Setup.Own, Mute, Telling, Streams, Paid, Asking, Listening;
    var sent, link := AtA(s, c).sent, Under(s.ab, c);
    assert link[0] == s.ab[0];
    assert sent[|sent| - |link|..] == link;
    assert sent[|sent| - |link|] == s.ab[0];
  }

  lemma ReadyToServe(k: Setup, s: State, c: u32)
    requires Reachable(k, s) && c in s.inflight
    ensures s.ready
  {
    hide Reachable;
    SaneAlways(k, s);
  }
}
