/** What two connected cores guarantee together, over every run: a call is served at most
    as often as it was made, a stream arrives whole and in order, and credit bounds it. */
module DuplexLaws {
  import opened Basics
  import opened Wire
  import opened OutboxModel
  import opened Session
  import opened CoreModel
  import opened Histories
  import opened Ledger
  import opened Flows
  import opened Traces
  import opened Duplex

  // ------------------------------------------------------------------ at most once

  /** The way to the peer adds neither REQUESTs nor credit. */
  lemma {:induction false} CarriedTotals(k: Setup, other: Setup, frames: seq<Outgoing>)
    requires PlainCredit(frames)
    ensures Requests(Frames(ReceivedAll(k, frames))) <= Requests(frames)
    ensures Credits(k, Frames(ReceivedAll(k, frames))) <= Credits(other, frames)
  {
    hide Received;
    if frames != [] {
      CarriedTotals(k, other, frames[1..]);
      ReceivedCall(k, frames[0]);
      var rest := ReceivedAll(k, frames[1..]);
      var m := Received(k, frames[0]);
      var all := [m] + rest;
      assert all[1..] == rest;
      NothingAdded(Frames(rest));
      assert m.Frame? ==> ([m.frame] + Frames(rest))[1..] == Frames(rest);
    }
  }

  lemma HeardTotals(duo: Duo, c: u32, s: Sys)
    requires Kept(duo, c, s) && duo.a.Own(c)
    ensures Requests(Frames(AtB(s, c).heard)) <= AtA(s, c).opens
    ensures Credits(duo.b, Frames(AtB(s, c).heard)) <= AtA(s, c).granted
  {
    hide Received, Setup.Own, Fold, Requests, Credits, ReceivedAll, Labelled, Listening, Mute;
    var sent, link := AtA(s, c).sent, Under(s.ab, c);
    var done := sent[..|sent| - |link|];
    assert sent == done + link;
    CarriedTotals(duo.b, duo.a, done);
    RequestsConcat(done, link);
    CreditsConcat(duo.a, done, link);
  }

  /** A call is never admitted more often than it was made. */
  lemma NeverMoreThanAsked(duo: Duo, run: seq<Sys>, i: nat, c: u32)
    requires duo.Agreed() && Run(duo, run) && i < |run| && duo.a.Own(c)
    ensures AtB(run[i], c).admits <= AtA(run[i], c).opens
  {
    hide Run, Fold, Requests, Credits, Frames, Undoes, Linked, Streams;
    KeptAlways(duo, run, i, c);
    HeardTotals(duo, c, run[i]);
    TheirsToServe(duo, c);
  }

  lemma TheirsToServe(duo: Duo, c: u32)
    requires duo.Agreed() && duo.a.Own(c)
    ensures !duo.b.Own(c)
  {
  }

  // ---------------------------------------------------------- credit conservation

  /** The credit that a frame sent here opens a stream with there. */
  ghost predicate OpensWith(k: Setup, f: Outgoing, credit: u32) {
    f.header.kind == Request && Offers(Received(k, f), credit)
  }

  /** The credit a callee started from is the one that a REQUEST of the caller carried. */
  lemma InitialIsOffered(duo: Duo, run: seq<Sys>, i: nat, c: u32)
    requires duo.Agreed() && Run(duo, run) && i < |run| && duo.a.Own(c) && AtB(run[i], c).admits > 0
    ensures exists j :: 0 <= j < |AtA(run[i], c).sent|
                        && OpensWith(duo.b, AtA(run[i], c).sent[j], AtB(run[i], c).initial)
  {
    hide Run, Fold, Requests, Credits, Frames, Undoes, Streams, Received, InitialCredit;
    KeptAlways(duo, run, i, c);
    TheirsToServe(duo, c);
    var a, b := AtA(run[i], c), AtB(run[i], c);
    var j :| 0 <= j < |b.heard| && Offers(b.heard[j], b.initial);
    var n := |a.sent| - |Under(run[i].ab, c)|;
    EachReceived(duo.b, a.sent[..n]);
    ReceivedCall(duo.b, a.sent[j]);
    assert OpensWith(duo.b, a.sent[j], b.initial);
  }

  lemma {:induction false} EachReceived(k: Setup, frames: seq<Outgoing>)
    ensures |ReceivedAll(k, frames)| == |frames|
    ensures forall i :: 0 <= i < |frames| ==> ReceivedAll(k, frames)[i] == Received(k, frames[i])
  {
    hide Received;
    if frames != [] {
      EachReceived(k, frames[1..]);
    }
  }

  /** Credit conservation. If the callee admitted the call with initial credit, the ITEMs
      its handler ever yielded, queued and sent or not, are at most that credit and what
      the caller granted since. */
  lemma CreditConserved(duo: Duo, run: seq<Sys>, i: nat, c: u32)
    requires duo.Agreed() && Run(duo, run) && i < |run| && duo.a.Own(c)
    requires AtA(run[i], c).opens <= 1
    ensures var callee := AtB(run[i], c);
            callee.initial != 0 ==> |callee.yielded| <= callee.initial as int + AtA(run[i], c).granted
  {
    hide Run, Fold, Requests, Credits, Frames, Undoes, Linked, Streams;
    KeptAlways(duo, run, i, c);
    HeardTotals(duo, c, run[i]);
    TheirsToServe(duo, c);
  }

  // ------------------------------------------------------------- streams in order

  lemma {:induction false} BareFrames(k: Setup, frames: seq<Outgoing>)
    requires forall i :: 0 <= i < |frames| ==> Bare(frames[i])
    ensures Frames(ReceivedAll(k, frames)) == frames
    ensures |ReceivedAll(k, frames)| == |frames|
    ensures forall i :: 0 <= i < |frames| ==> ReceivedAll(k, frames)[i] == Frame(frames[i])
  {
    hide Received, Bare;
    if frames != [] {
      BareFrames(k, frames[1..]);
      ReceivedBare(k, frames[0]);
      var rest := ReceivedAll(k, frames[1..]);
      assert ([Frame(frames[0])] + rest)[1..] == rest;
      assert [frames[0]] + frames[1..] == frames;
    }
  }

  /** What the caller has heard is what the callee sent, frame by frame, short of what is
      under way. */
  lemma HeardIsSent(duo: Duo, c: u32, s: Sys) returns (n: nat)
    requires Kept(duo, c, s) && !duo.b.Own(c)
    ensures var sent, heard := AtB(s, c).sent, AtA(s, c).heard;
            && n == |heard| <= |sent| && sent[n..] == Under(s.ba, c)
            && Frames(heard) == sent[..n]
            && (forall j :: 0 <= j < n ==> heard[j] == Frame(sent[j]))
            && (forall j :: 0 <= j <= n ==> Frames(heard[..j]) == sent[..j])
  {
    hide Received, Setup.Own, Fold, ReceivedAll, Frames, Bare, Streams, Paid, Mute, Asking, Listening;
    var sent, link := AtB(s, c).sent, Under(s.ba, c);
    n := |sent| - |link|;
    BareFrames(duo.a, sent[..n]);
    var heard := AtA(s, c).heard;
    forall j | 0 <= j <= n
      ensures Frames(heard[..j]) == sent[..j]
    {
      BareFrames(duo.a, sent[..j]);
      assert heard[..j] == ReceivedAll(duo.a, sent[..j]);
    }
  }

  /** Bodies survive squeezing, carriage and inflating. */
  lemma SameBodies(duo: Duo, c: u32, frames: seq<Outgoing>, told: seq<Bytes>, yielded: seq<Bytes>)
    requires Undoes(duo.a, duo.b)
    requires Plainly(duo.a, frames, told) && Carry(duo.b, c, frames, yielded)
    ensures told == yielded
  {
    hide Carries, Reads;
    forall i | 0 <= i < |told|
      ensures told[i] == yielded[i]
    {
      SameBody(duo, c, frames[i], told[i], yielded[i]);
    }
  }

  lemma SameBody(duo: Duo, c: u32, frame: Outgoing, told: Bytes, yielded: Bytes)
    requires Undoes(duo.a, duo.b)
    requires Reads(duo.a, frame, told) && Carries(duo.b, c, frame, yielded)
    ensures told == yielded
  {
    if frame.header.compressed {
      assert Unsqueezed(duo.a.compressor.value, frame.body, duo.a.config.maxBodyLen, yielded);
    }
  }

  lemma CarrySplit(k: Setup, c: u32, x: seq<Outgoing>, y: seq<Outgoing>, bodies: seq<Bytes>)
    requires Carry(k, c, x + y, bodies)
    ensures Carry(k, c, x, bodies[..|x|]) && Carry(k, c, y, bodies[|x|..])
  {
    hide Carries;
    var s := x + y;
    assert forall i :: 0 <= i < |x| ==> x[i] == s[i];
    assert forall i :: 0 <= i < |y| ==> y[i] == s[|x| + i];
  }

  /** What the caller knows of a live stream, in terms of what the callee sent. */
  lemma ToldIsSent(duo: Duo, run: seq<Sys>, i: nat, c: u32) returns (n: nat)
    requires duo.Agreed() && Run(duo, run) && i < |run| && duo.a.Own(c)
    requires AtA(run[i], c).opens <= 1 && c in run[i].a.pending
    ensures var sent := AtB(run[i], c).sent;
            n <= |sent| && sent[n..] == Under(run[i].ba, c) && Plainly(duo.a, StreamOf(sent[..n]), AtA(run[i], c).told)
  {
    hide Run, Fold, Frames, Undoes, Plainly, Streams, Paid, Mute, Asking, Only, Linked;
    KeptAlways(duo, run, i, c);
    CausalAlways(duo, run, i, c);
    TheirsToServe(duo, c);
    n := HeardIsSent(duo, c, run[i]);
    assert AtA(run[i], c).heard[..n] == AtA(run[i], c).heard;
  }

  /** The callee's half of a call of side A that was made at most once. */
  lemma CalleeStreams(duo: Duo, run: seq<Sys>, i: nat, c: u32)
    requires duo.Agreed() && Run(duo, run) && i < |run| && duo.a.Own(c)
    requires AtA(run[i], c).opens <= 1
    ensures var b, stream := AtB(run[i], c), StreamOf(AtB(run[i], c).sent) + StreamOf(run[i].b.box.Queue(c));
            && (c in run[i].b.inflight ==> Carry(duo.b, c, stream, b.yielded))
            && (CarryAll(duo.b, c, stream, b.yielded) || CarrySome(duo.b, c, stream, b.yielded))
  {
    hide Run, Fold, Frames, Undoes, Paid, Mute, Asking, Only, Linked, Carry, CarryAll, CarrySome;
    KeptAlways(duo, run, i, c);
    NeverMoreThanAsked(duo, run, i, c);
    TheirsToServe(duo, c);
  }

  /** While a call is live on both sides, the items its owner was told of, the items under
      way and the items queued are, in this order, all that its handler yielded. */
  lemma StreamInOrder(duo: Duo, run: seq<Sys>, i: nat, c: u32)
    requires duo.Agreed() && Run(duo, run) && i < |run| && duo.a.Own(c)
    requires AtA(run[i], c).opens <= 1 && c in run[i].a.pending && c in run[i].b.inflight
    ensures var told, yielded := AtA(run[i], c).told, AtB(run[i], c).yielded;
            var link, queue := StreamOf(Under(run[i].ba, c)), StreamOf(run[i].b.box.Queue(c));
            var n, m := |told|, |told| + |link|;
            && m + |queue| == |yielded|
            && told == yielded[..n]
            && Carry(duo.b, c, link, yielded[n..m])
            && Carry(duo.b, c, queue, yielded[m..])
  {
    hide Run, Fold, Undoes, Only, Carries, Reads, Plainly, Carry;
    var p := ToldIsSent(duo, run, i, c);
    CalleeStreams(duo, run, i, c);
    var sent, yielded := AtB(run[i], c).sent, AtB(run[i], c).yielded;
    var head, link, queue := StreamOf(sent[..p]), StreamOf(Under(run[i].ba, c)), StreamOf(run[i].b.box.Queue(c));
    assert sent == sent[..p] + sent[p..];
    OnlyConcat(STREAM, sent[..p], sent[p..]);
    ThreeParts(duo, c, head, link, queue, AtA(run[i], c).told, yielded);
  }

  lemma ThreeParts(duo: Duo, c: u32, head: seq<Outgoing>, link: seq<Outgoing>, queue: seq<Outgoing>,
                   told: seq<Bytes>, yielded: seq<Bytes>)
    requires Undoes(duo.a, duo.b)
    requires Plainly(duo.a, head, told) && Carry(duo.b, c, head + link + queue, yielded)
    ensures var n, m := |told|, |told| + |link|;
            && m + |queue| == |yielded|
            && told == yielded[..n]
            && Carry(duo.b, c, link, yielded[n..m])
            && Carry(duo.b, c, queue, yielded[m..])
  {
    hide Undoes, Carries, Reads;
    CarrySplit(duo.b, c, head + link, queue, yielded);
    var m := |head| + |link|;
    CarrySplit(duo.b, c, head, link, yielded[..m]);
    assert yielded[..m][..|head|] == yielded[..|head|];
    SameBodies(duo, c, head, told, yielded[..|head|]);
  }

  /** Whatever becomes of the callee, a waiting caller was told a first part of what the
      handler yielded: nothing is lost in between, repeated or reordered. */
  lemma ToldIsYielded(duo: Duo, run: seq<Sys>, i: nat, c: u32)
    requires duo.Agreed() && Run(duo, run) && i < |run| && duo.a.Own(c)
    requires AtA(run[i], c).opens <= 1 && c in run[i].a.pending
    ensures AtA(run[i], c).told <= AtB(run[i], c).yielded
  {
    hide Run, Fold, Undoes, Only, Carries, Reads, Plainly, Carry, CarryAll, CarrySome;
    var p := ToldIsSent(duo, run, i, c);
    CalleeStreams(duo, run, i, c);
    var sent := AtB(run[i], c).sent;
    var head, rest := StreamOf(sent[..p]), StreamOf(sent[p..]) + StreamOf(run[i].b.box.Queue(c));
    assert sent == sent[..p] + sent[p..];
    OnlyConcat(STREAM, sent[..p], sent[p..]);
    Regroup(head, StreamOf(sent[p..]), StreamOf(run[i].b.box.Queue(c)));
    FirstPart(duo, c, head, rest, AtA(run[i], c).told, AtB(run[i], c).yielded);
  }

  lemma FirstPart(duo: Duo, c: u32, head: seq<Outgoing>, rest: seq<Outgoing>, told: seq<Bytes>, yielded: seq<Bytes>)
    requires Undoes(duo.a, duo.b) && Plainly(duo.a, head, told)
    requires CarryAll(duo.b, c, head + rest, yielded) || CarrySome(duo.b, c, head + rest, yielded)
    ensures told <= yielded
  {
    hide Undoes, Carries;
    var n := |head|;
    CarryCut(duo.b, c, head, rest, yielded);
    assert n > 0 ==> Reads(duo.a, head[n - 1], told[n - 1]);
    SameBodies(duo, c, head, told, yielded[..n]);
  }

  /** The end means every item: when the owner of a call is told of its end, it had been
      told exactly what the handler yielded, all of it, in order. */
  lemma EndMeansAll(duo: Duo, run: seq<Sys>, i: nat, c: u32)
    requires duo.Agreed() && Run(duo, run) && i < |run| && duo.a.Own(c)
    requires AtA(run[i], c).opens <= 1 && AtA(run[i], c).ended
    ensures AtA(run[i], c).told == AtB(run[i], c).yielded
  {
    hide Run, Fold, Frames, Undoes, Plainly, Streams, Paid, Mute, Asking, Only, Linked, Carry, CarryAll, CarrySome;
    KeptAlways(duo, run, i, c);
    CausalAlways(duo, run, i, c);
    TheirsToServe(duo, c);
    CalleeStreams(duo, run, i, c);
    var n := HeardIsSent(duo, c, run[i]);
    var sent, queue, end := AtB(run[i], c).sent, run[i].b.box.Queue(c), AtA(run[i], c).endAt;
    var head, rest := StreamOf(sent[..end]), StreamOf(sent[end + 1..]) + StreamOf(queue);
    StreamAround(sent, queue, end);
    WholeStream(duo, c, head, sent[end], rest, AtA(run[i], c).told, AtB(run[i], c).yielded);
  }

  lemma StreamAround(sent: seq<Outgoing>, queue: seq<Outgoing>, end: nat)
    requires end < |sent| && sent[end].header.kind == Kind.End
    ensures StreamOf(sent) + StreamOf(queue)
            == StreamOf(sent[..end]) + [sent[end]] + (StreamOf(sent[end + 1..]) + StreamOf(queue))
  {
    hide Only;
    assert sent[..end + 1] == sent[..end] + [sent[end]];
    OnlyOne(STREAM, sent[..end], sent[end]);
    assert sent == sent[..end + 1] + sent[end + 1..];
    OnlyConcat(STREAM, sent[..end + 1], sent[end + 1..]);
    Regroup(StreamOf(sent[..end]) + [sent[end]], StreamOf(sent[end + 1..]), StreamOf(queue));
  }

  /** An END among frames that carry a stream is its last, behind everything yielded. */
  lemma WholeStream(duo: Duo, c: u32, head: seq<Outgoing>, end: Outgoing, rest: seq<Outgoing>,
                    told: seq<Bytes>, yielded: seq<Bytes>)
    requires Undoes(duo.a, duo.b) && Plainly(duo.a, head, told) && end.header.kind == Kind.End
    requires var s := head + [end] + rest; CarryAll(duo.b, c, s, yielded) || CarrySome(duo.b, c, s, yielded)
    ensures told == yielded
  {
    hide Undoes, Reads, Carry;
    var s := head + [end] + rest;
    assert s[|head|] == end;
    var all := CarryAll(duo.b, c, s, yielded);
    var items := if all then s[..|s| - 1] else s;
    OnlyItems(duo.b, c, items, if all then yielded else yielded[..|s|]);
    assert forall i :: 0 <= i < |items| ==> s[i].header.kind == Kind.Item;
    assert items == head;
    SameBodies(duo, c, head, told, yielded);
  }

  lemma OnlyItems(k: Setup, c: u32, frames: seq<Outgoing>, bodies: seq<Bytes>)
    requires Carry(k, c, frames, bodies)
    ensures forall i :: 0 <= i < |frames| ==> frames[i].header.kind == Kind.Item
  {
    forall i | 0 <= i < |frames|
      ensures frames[i].header.kind == Kind.Item
    {
      assert Carries(k, c, frames[i], bodies[i]);
    }
  }
}
