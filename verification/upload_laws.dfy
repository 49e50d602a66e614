/** What two connected cores guarantee of answers and of streams that run from the caller
    to the callee, over every run. */
module UploadLaws {
  import opened Basics
  import opened Wire
  import opened OutboxModel
  import opened Session
  import opened CoreModel
  import opened Histories
  import opened Ledger
  import opened Flows
  import opened Uploads
  import opened Traces
  import opened Duplex
  import opened DuplexLaws

  /** All that single cores guarantee of answers and uploads for one call of side A. */
  ghost predicate Raised(duo: Duo, c: u32, s: Sys) {
    Uploading(duo.a, c, ViewOf(s.a, c), AtA(s, c)) && Uploading(duo.b, c, ViewOf(s.b, c), AtB(s, c))
  }

  lemma RaisedAlways(duo: Duo, run: seq<Sys>, i: nat, c: u32)
    requires duo.Agreed() && Run(duo, run) && i < |run|
    ensures Raised(duo, c, run[i])
  {
    hide Run, Reachable, Uploading, Undoes, Carried;
    SoundAlways(duo, run, i);
    UploadingAlways(duo.a, run[i].a, c);
    UploadingAlways(duo.b, run[i].b, c);
  }

  // ----------------------------------------------------------------- the answer

  /** A response arrives intact: the owner of a call was told of one only if the handler
      answered, and then exactly what it answered. */
  lemma ResponseIntact(duo: Duo, run: seq<Sys>, i: nat, c: u32)
    requires duo.Agreed() && Run(duo, run) && i < |run| && duo.a.Own(c)
    requires AtA(run[i], c).opens <= 1 && AtA(run[i], c).reply.Some?
    ensures AtB(run[i], c).responded == [AtA(run[i], c).reply.value]
  {
    hide Run, Fold, Undoes, Linked, Flowing, Offering, Metered, Taking, CarriesBack, Setup.Plain;
    KeptAlways(duo, run, i, c);
    RaisedAlways(duo, run, i, c);
    TheirsToServe(duo, c);
    NeverMoreThanAsked(duo, run, i, c);
    var n := HeardIsSent(duo, c, run[i]);
    var a, b := AtA(run[i], c), AtB(run[i], c);
    var frame := b.sent[a.replyAt];
    assert a.heard[a.replyAt] == Frame(frame);
    SameAnswer(duo, c, frame, a.reply.value, b.responded[0]);
  }

  lemma SameAnswer(duo: Duo, c: u32, frame: Outgoing, told: Bytes, responded: Bytes)
    requires Undoes(duo.a, duo.b)
    requires duo.a.Plain(frame) == Some(told) && CarriesBack(duo.b, c, frame, responded)
    ensures told == responded
  {
    if frame.header.compressed {
      assert Unsqueezed(duo.a.compressor.value, frame.body, duo.a.config.maxBodyLen, responded);
    }
  }

  // ------------------------------------------------------------ uploads, in order

  /** The stream frames among received frames are the stream frames sent. */
  lemma {:induction false} StreamReceived(k: Setup, frames: seq<Outgoing>)
    requires forall i :: 0 <= i < |frames| && frames[i].header.kind in STREAM ==> Bare(frames[i])
    ensures StreamOf(Frames(ReceivedAll(k, frames))) == StreamOf(frames)
  {
    hide Received, Bare;
    if frames != [] {
      var f, m := frames[0], Received(k, frames[0]);
      var rest := ReceivedAll(k, frames[1..]);
      StreamReceived(k, frames[1..]);
      ReceivedCall(k, f);
      if f.header.kind in STREAM {
        ReceivedBare(k, f);
      }
      assert ([m] + rest)[1..] == rest;
      assert m.Frame? ==> ([m.frame] + Frames(rest))[1..] == Frames(rest);
      NothingAdded(Frames(rest));
      NothingAdded(StreamOf(Frames(rest)));
      NothingAdded(StreamOf(frames[1..]));
    }
  }

  /** The stream frames of the caller's talk. */
  lemma {:induction false} StreamInTalk(frames: seq<Outgoing>)
    ensures StreamOf(Only(TALK, frames)) == StreamOf(frames)
    ensures (forall i :: 0 <= i < |Only(TALK, frames)| ==> Only(TALK, frames)[i].header.kind in STREAM) ==>
              Only(TALK, frames) == StreamOf(frames)
  {
    if frames != [] {
      var rest := Only(TALK, frames[1..]);
      StreamInTalk(frames[1..]);
      NothingAdded(rest);
      if frames[0].header.kind in TALK {
        assert ([frames[0]] + rest)[1..] == rest;
        assert forall i :: 0 <= i < |rest| ==> ([frames[0]] + rest)[i + 1] == rest[i];
        assert ([frames[0]] + rest)[0] == frames[0];
      }
    }
  }

  /** A REQUEST in a talk is its first frame, and all behind it is the stream. */
  lemma OneRequest(k: Setup, c: u32, x: seq<Outgoing>, r: Outgoing, y: seq<Outgoing>, offered: seq<Bytes>)
    requires Talks(k, c, x + [r] + y, offered) && r.header.kind == Request
    ensures x == [] && (forall i :: 0 <= i < |y| ==> y[i].header.kind in STREAM)
    ensures CarryAll(k, c, y, offered) || CarrySome(k, c, y, offered)
  {
    hide CarryAll, CarrySome;
    var talk := x + [r] + y;
    OnlyStream(k, c, talk[1..], offered);
    forall j | 0 < j < |talk|
      ensures talk[j].header.kind in STREAM
    {
      assert talk[j] == talk[1..][j - 1];
    }
    assert talk[|x|] == r;
    assert talk[1..] == y;
  }

  lemma OnlyStream(k: Setup, c: u32, frames: seq<Outgoing>, bodies: seq<Bytes>)
    requires CarryAll(k, c, frames, bodies) || CarrySome(k, c, frames, bodies)
    ensures forall i :: 0 <= i < |frames| ==> frames[i].header.kind in STREAM
  {
    hide Carry;
    if CarryAll(k, c, frames, bodies) {
      OnlyItems(k, c, frames[..|frames| - 1], bodies);
      assert forall i :: 0 <= i < |frames| - 1 ==> frames[..|frames| - 1][i] == frames[i];
    } else {
      OnlyItems(k, c, frames, bodies[..|frames|]);
    }
  }

  /** Behind the REQUEST, what was sent and what is queued is the stream. */
  lemma StreamBehind(k: Setup, c: u32, sent: seq<Outgoing>, queue: seq<Outgoing>, p: nat, offered: seq<Bytes>)
    requires p < |sent| && sent[p].header.kind == Request
    requires Talks(k, c, Only(TALK, sent) + Only(TALK, queue), offered)
    ensures var talk, stream := Only(TALK, sent) + Only(TALK, queue), StreamOf(sent[p + 1..]) + StreamOf(queue);
            && talk != [] && talk[1..] == stream
            && (CarryAll(k, c, stream, offered) || CarrySome(k, c, stream, offered))
  {
    hide Only, CarryAll, CarrySome, Talks;
    var before, behind := sent[..p], sent[p + 1..];
    assert sent == before + [sent[p]] + behind;
    OnlyConcat(TALK, before + [sent[p]], behind);
    OnlyOne(TALK, before, sent[p]);
    var x, y := Only(TALK, before), Only(TALK, behind) + Only(TALK, queue);
    Regroup(x + [sent[p]], Only(TALK, behind), Only(TALK, queue));
    OneRequest(k, c, x, sent[p], y, offered);
    TalkIsStream(behind, queue, y);
  }

  /** Where the callee stands in the caller's stream: what it heard since the admission,
      what is under way and what is queued are together all the caller's stream. */
  lemma UploadParts(duo: Duo, run: seq<Sys>, i: nat, c: u32)
    requires duo.Agreed() && Run(duo, run) && i < |run| && duo.a.Own(c)
    requires AtA(run[i], c).opens <= 1 && AtB(run[i], c).admits == 1
    ensures var s := run[i];
            var stream := Since(AtB(s, c)) + (StreamOf(Under(s.ab, c)) + StreamOf(s.a.box.Queue(c)));
            var talk := Only(TALK, AtA(s, c).sent) + Only(TALK, s.a.box.Queue(c));
            && talk != [] && talk[1..] == stream
            && (CarryAll(duo.a, c, stream, AtA(s, c).offered) || CarrySome(duo.a, c, stream, AtA(s, c).offered))
  {
    hide Run, Fold, Undoes, Kept, Raised, Since, Only, CarryAll, CarrySome, Talks;
    KeptAlways(duo, run, i, c);
    RaisedAlways(duo, run, i, c);
    TheirsToServe(duo, c);
    var s := run[i];
    var sent, queue, offered := AtA(s, c).sent, s.a.box.Queue(c), AtA(s, c).offered;
    var n := |sent| - |Under(s.ab, c)|;
    var p := AdmittedAt(duo, c, s);
    TalksOf(duo, c, s);
    StreamBehind(duo.a, c, sent, queue, p, offered);
    HeardSince(duo, c, s, p, n);
    assert sent[p + 1..] == sent[p + 1..n] + sent[n..];
    OnlyConcat(STREAM, sent[p + 1..n], sent[n..]);
    Regroup(StreamOf(sent[p + 1..n]), StreamOf(sent[n..]), StreamOf(queue));
  }

  lemma TalksOf(duo: Duo, c: u32, s: Sys)
    requires Kept(duo, c, s) && Raised(duo, c, s) && duo.a.Own(c) && AtA(s, c).opens <= 1
    ensures Talks(duo.a, c, Only(TALK, AtA(s, c).sent) + Only(TALK, s.a.box.Queue(c)), AtA(s, c).offered)
    ensures AtA(s, c).sent[|AtA(s, c).sent| - |Under(s.ab, c)|..] == Under(s.ab, c)
  {
    hide Fold, Flowing, Only, Talks, Metered, Replied, ReceivedAll, CarryAll;
  }

  lemma TalkIsStream(sent: seq<Outgoing>, queue: seq<Outgoing>, y: seq<Outgoing>)
    requires y == Only(TALK, sent) + Only(TALK, queue) && forall i :: 0 <= i < |y| ==> y[i].header.kind in STREAM
    ensures y == StreamOf(sent) + StreamOf(queue)
  {
    hide Only;
    StreamInTalk(sent);
    StreamInTalk(queue);
    var a, b := Only(TALK, sent), Only(TALK, queue);
    assert forall i :: 0 <= i < |a| ==> y[i] == a[i];
    assert forall i :: 0 <= i < |b| ==> y[|a| + i] == b[i];
  }

  /** The message a callee admitted the call for is a REQUEST the caller sent. */
  lemma AdmittedAt(duo: Duo, c: u32, s: Sys) returns (p: nat)
    requires Kept(duo, c, s) && Raised(duo, c, s) && !duo.b.Own(c) && AtB(s, c).admits == 1
    ensures p == AtB(s, c).since < |AtA(s, c).sent| - |Under(s.ab, c)|
    ensures AtA(s, c).sent[p].header.kind == Request
  {
    hide Fold, Received, Flowing, Replied, Offering, Metered, Responding;
    var a, b := AtA(s, c), AtB(s, c);
    p := b.since;
    var n := |a.sent| - |Under(s.ab, c)|;
    EachReceived(duo.b, a.sent[..n]);
    ReceivedCall(duo.b, a.sent[p]);
  }

  lemma HeardSince(duo: Duo, c: u32, s: Sys, p: nat, n: nat)
    requires Kept(duo, c, s) && p == AtB(s, c).since < n == |AtA(s, c).sent| - |Under(s.ab, c)|
    ensures Since(AtB(s, c)) == StreamOf(AtA(s, c).sent[p + 1..n])
  {
    hide Fold, Received, Only, Frames, Mute, Rightful, Telling, Listening, Asking, Streams, Paid, ReceivedAll;
    var sent, heard := AtA(s, c).sent, AtB(s, c).heard;
    assert sent[..n] == sent[..p + 1] + sent[p + 1..n];
    ReceivedConcat(duo.b, sent[..p + 1], sent[p + 1..n]);
    EachReceived(duo.b, sent[..p + 1]);
    EachReceived(duo.b, sent[..n]);
    assert heard[p + 1..] == ReceivedAll(duo.b, sent[p + 1..n]);
    assert forall j :: p < j < n ==> Fitting(duo.a, c, sent[j]);
    StreamReceived(duo.b, sent[p + 1..n]);
  }

  /** Whatever becomes of either side, the handler was given a first part of what the caller
      offered: nothing is lost in between, repeated or reordered. */
  lemma GivenIsOffered(duo: Duo, run: seq<Sys>, i: nat, c: u32)
    requires duo.Agreed() && Run(duo, run) && i < |run| && duo.a.Own(c)
    requires AtA(run[i], c).opens <= 1
    ensures AtB(run[i], c).delivered <= AtA(run[i], c).offered
  {
    hide Run, Fold, Only, Frames, Undoes, Plainly, CarryAll, CarrySome, Flowing, Linked, Offering, Metered,
         Responding, Replied;
    NeverMoreThanAsked(duo, run, i, c);
    RaisedAlways(duo, run, i, c);
    TheirsToServe(duo, c);
    var s := run[i];
    var a, b := AtA(s, c), AtB(s, c);
    if b.admits == 1 {
      UploadParts(duo, run, i, c);
      var stream, more, d := Since(b), StreamOf(Under(s.ab, c)) + StreamOf(s.a.box.Queue(c)), |b.delivered|;
      assert stream + more == stream[..d] + (stream[d..] + more);
      FirstPart(Duo(duo.b, duo.a), c, stream[..d], stream[d..] + more, b.delivered, a.offered);
    }
  }

  /** While both sides are live and the caller has not closed, the items the handler was
      given, the items under way and the items queued are, in this order, all that the
      caller offered. */
  lemma UploadInOrder(duo: Duo, run: seq<Sys>, i: nat, c: u32)
    requires duo.Agreed() && Run(duo, run) && i < |run| && duo.a.Own(c)
    requires AtA(run[i], c).opens <= 1
    requires c in run[i].a.pending && !run[i].a.pending[c].sendClosed
    requires c in run[i].b.inflight && run[i].b.inflight[c].shape.CallerStreams() && !run[i].b.inflight[c].inboundClosed
    ensures var given, offered := AtB(run[i], c).delivered, AtA(run[i], c).offered;
            var link, queue := StreamOf(Under(run[i].ab, c)), StreamOf(run[i].a.box.Queue(c));
            var n, m := |given|, |given| + |link|;
            && m + |queue| == |offered|
            && given == offered[..n]
            && Carry(duo.a, c, link, offered[n..m])
            && Carry(duo.a, c, queue, offered[m..])
  {
    hide Run, Fold, Only, Frames, Undoes, Plainly, Carry, CarryAll, CarrySome, Flowing, Linked, Metered, Responding,
         Replied;
    NeverMoreThanAsked(duo, run, i, c);
    RaisedAlways(duo, run, i, c);
    TheirsToServe(duo, c);
    UploadParts(duo, run, i, c);
    var s := run[i];
    var stream, link, queue := Since(AtB(s, c)), StreamOf(Under(s.ab, c)), StreamOf(s.a.box.Queue(c));
    assert stream[..|stream|] == stream;
    Regroup(stream, link, queue);
    ThreeParts(Duo(duo.b, duo.a), c, stream, link, queue, AtB(s, c).delivered, AtA(s, c).offered);
  }

  /** The end means every item here too: a handler that was told of the end of its caller's
      stream had been given exactly what the caller offered, all of it, in order. */
  lemma CloseMeansAll(duo: Duo, run: seq<Sys>, i: nat, c: u32)
    requires duo.Agreed() && Run(duo, run) && i < |run| && duo.a.Own(c)
    requires AtA(run[i], c).opens <= 1
    requires c in run[i].b.inflight && run[i].b.inflight[c].shape.CallerStreams() && run[i].b.inflight[c].inboundClosed
    ensures AtB(run[i], c).delivered == AtA(run[i], c).offered
  {
    hide Run, Fold, Only, Frames, Undoes, Plainly, CarryAll, CarrySome, Flowing, Linked, Offering, Metered,
         Responding, Replied;
    NeverMoreThanAsked(duo, run, i, c);
    RaisedAlways(duo, run, i, c);
    TheirsToServe(duo, c);
    UploadParts(duo, run, i, c);
    var s := run[i];
    var b := AtB(s, c);
    var stream, more, d := Since(b), StreamOf(Under(s.ab, c)) + StreamOf(s.a.box.Queue(c)), |b.delivered|;
    assert stream + more == stream[..d] + [stream[d]] + (stream[d + 1..] + more);
    WholeStream(Duo(duo.b, duo.a), c, stream[..d], stream[d], stream[d + 1..] + more, b.delivered, AtA(s, c).offered);
  }

  // ---------------------------------------------------------------- upload credit

  /** Credit towards the callee. Until the first credit reaches the caller it may offer as
      many items as it likes; from then on it has offered no more than those and all that
      the callee's handler granted. */
  lemma UploadPaid(duo: Duo, run: seq<Sys>, i: nat, c: u32)
    requires duo.Agreed() && Run(duo, run) && i < |run| && duo.a.Own(c)
    requires AtA(run[i], c).opens <= 1
    ensures var a := AtA(run[i], c); a.free.Some? ==> |a.offered| <= a.free.value + AtB(run[i], c).granted
  {
    hide Run, Fold, Credits, Frames, Undoes, Received, ReceivedAll, Mute, Labelled, Listening, Streams, Paid,
         Offering, Responding, Taking;
    KeptAlways(duo, run, i, c);
    RaisedAlways(duo, run, i, c);
    var sent, link := AtB(run[i], c).sent, Under(run[i].ba, c);
    var done := sent[..|sent| - |link|];
    assert sent == done + link;
    CarriedTotals(duo.a, duo.b, done);
    CreditsConcat(duo.b, done, link);
  }
}
