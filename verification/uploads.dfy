/** What flows from caller to callee under one call at one core, and how a single answer
    comes back: the single-core halves of the laws of `UploadLaws`. */
module Uploads {
  import opened Basics
  import opened Wire
  import opened OutboxModel
  import opened OutboxRefinement
  import opened Session
  import opened CoreModel
  import opened Histories
  import opened Completion
  import opened Ledger
  import opened Flows

  // ---------------------------------------------------------------- invariants

  /** What a caller says of a call: its REQUEST, its ITEMs, its END. */
  const TALK: set<Kind> := {Request, Kind.Item, Kind.End}

  /** The REQUEST first, and behind it what carries the offered bodies. */
  ghost predicate Talks(k: Setup, c: u32, talk: seq<Outgoing>, offered: seq<Bytes>) {
    talk != [] ==>
      && talk[0].header.kind == Request
      && (CarryAll(k, c, talk[1..], offered) || CarrySome(k, c, talk[1..], offered))
  }

  /** A call opened at most once: what was sent and what is queued is its REQUEST and then
      everything offered, and while it waits nothing of that is missing. */
  ghost predicate Offering(k: Setup, c: u32, v: View, l: Flow) {
    var talk := Only(TALK, l.sent) + Only(TALK, v.queue);
    l.opens <= 1 ==>
      && (l.opens == 0 ==> v.waiting.None? && l.offered == [] && talk == [])
      && Talks(k, c, talk, l.offered)
      && (v.waiting.Some? ==>
            && talk != []
            && (if v.waiting.value.sendClosed then CarryAll(k, c, talk[1..], l.offered)
                else Carry(k, c, talk[1..], l.offered)))
  }

  /** Items are free until the first credit; from then on they are paid for. */
  ghost predicate Metered(k: Setup, v: View, l: Flow) {
    && l.credited <= Credits(k, Frames(l.heard))
    && (l.opens <= 1 ==>
          && (l.opens == 0 ==> v.waiting.None? && l.free.None? && l.offered == [])
          && (l.free.Some? ==> |l.offered| <= l.free.value + l.credited)
          && (v.waiting.Some? ==>
                && (v.waiting.value.established <==> l.free.Some?)
                && (l.free.None? ==> v.waiting.value.credit == 0)
                && (l.free.Some? ==> |l.offered| + v.waiting.value.credit as int <= l.free.value + l.credited)))
  }

  /** The response the owner was told of was heard as it was told. */
  ghost predicate Replied(k: Setup, l: Flow) {
    l.reply.Some? ==>
      && l.replyAt < |l.heard| && l.heard[l.replyAt].Is(Kind.Response)
      && k.Plain(l.heard[l.replyAt].frame) == Some(l.reply.value)
  }

  /** A RESPONSE among frames carries that one answer. */
  ghost predicate CarriedBack(k: Setup, c: u32, frames: seq<Outgoing>, responded: seq<Bytes>) {
    forall i :: 0 <= i < |frames| && frames[i].header.kind == Kind.Response ==>
                  responded != [] && CarriesBack(k, c, frames[i], responded[0])
  }

  ghost predicate CarriesBack(k: Setup, c: u32, f: Outgoing, body: Bytes) {
    exists id :: f == k.BodyFrame(c, Kind.Response, id, body)
  }

  /** An id admitted at most once is answered at most once, and its RESPONSE says what the
      handler answered. */
  ghost predicate Responding(k: Setup, c: u32, v: View, l: Flow) {
    l.admits <= 1 ==>
      && (l.admits == 0 ==> v.running.None? && l.responded == [])
      && (v.running.Some? ==> l.responded == [])
      && |l.responded| <= 1
      && CarriedBack(k, c, l.sent, l.responded) && CarriedBack(k, c, v.queue, l.responded)
  }

  /** The stream frames heard since the call was admitted. */
  function Since(l: Flow): seq<Outgoing> {
    if l.since < |l.heard| then StreamOf(Frames(l.heard[l.since + 1..])) else []
  }

  /** An id admitted at most once: the handler was given the first items heard since; while
      it is served and its stream open, all of them; once told of the end, all before it. */
  ghost predicate Taking(k: Setup, v: View, l: Flow) {
    var stream, n := Since(l), |l.delivered|;
    l.admits <= 1 ==>
      && (l.admits == 0 ==> v.running.None? && l.delivered == [])
      && (l.admits == 1 ==> l.since < |l.heard| && l.heard[l.since].Is(Request))
      && n <= |stream| && Plainly(k, stream[..n], l.delivered)
      && (v.running.Some? && v.running.value.shape.CallerStreams() ==>
            if v.running.value.inboundClosed then n < |stream| && stream[n].header.kind == Kind.End
            else n == |stream|)
      && (v.running.Some? ==> v.running.value.shape.CallerStreams() || v.running.value.inboundClosed)
  }

  /** What holds of every call in every run. */
  ghost predicate Uploading(k: Setup, c: u32, v: View, l: Flow) {
    && Replied(k, l)
    && (if k.Own(c) then Offering(k, c, v, l) && Metered(k, v, l) else Responding(k, c, v, l) && Taking(k, v, l))
  }

  // ------------------------------------------------------------- one step: the answer

  lemma RepliedOwn(k: Setup, c: u32, a: Surroundings, v: View, e: Event, heard: Option<Message>, l: Flow, t: Tally)
    requires Stepping(k, c, a, v, e, heard, t) && Replied(k, l)
    ensures Replied(k, Booked(k, v, e, heard, l))
  {
    hide Booked, Change, Consistent, Setup.Plain, Setup.Own;
    SettlesRightly(k, c, a, v, e, heard, t);
    BookedParts(k, v, e, heard, l);
  }

  lemma RespondingOwn(k: Setup, c: u32, a: Surroundings, v: View, e: Event, heard: Option<Message>, l: Flow, t: Tally)
    requires Stepping(k, c, a, v, e, heard, t) && Responding(k, c, v, l) && !k.Own(c)
    ensures Responding(k, c, Changed(v, Change(k, v, e)), Booked(k, v, e, heard, l))
  {
    hide Change, Allowed, Consistent, Setup.BodyFrame, Booked, CarriesBack;
    SettlesRightly(k, c, a, v, e, heard, t);
    BookedParts(k, v, e, heard, l);
    RespondsOwn(k, c, a, v, e, heard, t);
    if e.Yield? {
      BodyFrameKind(k, c, Kind.Item, v.running.value.replyID, e.body);
    } else if e.Answer? {
      BackAgain(k, c, v.running.value.replyID, e.body);
    }
  }

  lemma BackAgain(k: Setup, c: u32, id: u32, body: Bytes)
    ensures CarriesBack(k, c, k.BodyFrame(c, Kind.Response, id, body), body)
  {
    hide Setup.BodyFrame;
  }

  // -------------------------------------------------------------- one step: the caller

  /** What a step of an own call queues and makes of its record. */
  ghost predicate Pushes(k: Setup, c: u32, v: View, e: Event, d: Delta) {
    if e.Open? then
      && d.append.Some? && d.append.value.header.kind == Request && !d.discard
      && d.waiting.Some? && !d.waiting.value.sendClosed
    else if e.PushItem? then
      && v.waiting.Some? && !v.waiting.value.sendClosed && !d.discard
      && d.append == Some(k.BodyFrame(c, Kind.Item, v.waiting.value.itemID, e.body))
      && d.waiting.Some? && !d.waiting.value.sendClosed
    else if e.PushEnd? then
      && v.waiting.Some? && !v.waiting.value.sendClosed && !d.discard
      && d.append.Some? && d.append.value.header.kind == Kind.End
      && d.waiting.Some? && d.waiting.value.sendClosed
    else
      && (d.append.Some? ==> d.append.value.header.kind !in TALK)
      && (d.discard ==> d.waiting.None?)
      && (d.waiting.Some? ==> v.waiting.Some? && d.waiting.value.sendClosed == v.waiting.value.sendClosed)
  }

  lemma PushesOwn(k: Setup, c: u32, a: Surroundings, v: View, e: Event, heard: Option<Message>, t: Tally)
    requires Stepping(k, c, a, v, e, heard, t) && k.Own(c)
    ensures Pushes(k, c, v, e, Change(k, v, e))
    ensures e.Open? ==> v.waiting.None?
  {
    hide Setup.Plain, ReadCredit, SaturatingAdd, Setup.Own, Setup.BodyFrame, Setup.ErrorFrame, Setup.ControlFrame;
    AppendKinds(k, v, e);
  }

  /** What is left of the talk when frames at its end are thrown away. */
  lemma TalksCut(k: Setup, c: u32, a: seq<Outgoing>, b: seq<Outgoing>, offered: seq<Bytes>)
    requires Talks(k, c, a + b, offered)
    ensures Talks(k, c, a, offered)
  {
    hide CarryAll, CarrySome;
    if a != [] {
      assert (a + b)[1..] == a[1..] + b && (a + b)[0] == a[0];
      CarryCut(k, c, a[1..], b, offered);
    }
  }

  lemma OfferingOwn(k: Setup, c: u32, a: Surroundings, v: View, e: Event, heard: Option<Message>, l: Flow, t: Tally)
    requires Stepping(k, c, a, v, e, heard, t) && Offering(k, c, v, l) && k.Own(c)
    ensures Offering(k, c, Changed(v, Change(k, v, e)), Booked(k, v, e, heard, l))
  {
    hide Change, Allowed, Consistent, Only, Setup.BodyFrame, Setup.Own, Carry, CarrySome, CarryAll, Booked;
    SettlesRightly(k, c, a, v, e, heard, t);
    BookedParts(k, v, e, heard, l);
    PushesOwn(k, c, a, v, e, heard, t);
    var d := Change(k, v, e);
    var sent, queue := Only(TALK, l.sent), Only(TALK, v.queue);
    if d.append.Some? {
      OnlyOne(TALK, if d.discard then [] else v.queue, d.append.value);
    }
    OnlyNone(TALK);
    NothingAdded(sent);
    if l.opens <= 1 {
      TalksCut(k, c, sent, queue, l.offered);
      if e.Open? {
        NothingAdded([d.append.value]);
        OpensTalk(k, c, d.append.value);
      } else if e.PushItem? {
        BodyFrameKind(k, c, Kind.Item, v.waiting.value.itemID, e.body);
        Regroup(sent, queue, [d.append.value]);
        ItemTalk(k, c, sent + queue, l.offered, v.waiting.value.itemID, e.body);
      } else if e.PushEnd? {
        Regroup(sent, queue, [d.append.value]);
        EndTalk(k, c, sent + queue, l.offered, d.append.value);
      }
    }
  }

  lemma OpensTalk(k: Setup, c: u32, frame: Outgoing)
    requires frame.header.kind == Request
    ensures Talks(k, c, [frame], []) && Carry(k, c, [frame][1..], [])
  {
    CarryNone(k, c);
  }

  lemma ItemTalk(k: Setup, c: u32, talk: seq<Outgoing>, offered: seq<Bytes>, id: u32, body: Bytes)
    requires Talks(k, c, talk, offered) && talk != [] && Carry(k, c, talk[1..], offered)
    ensures var more := talk + [k.BodyFrame(c, Kind.Item, id, body)];
            Talks(k, c, more, offered + [body]) && Carry(k, c, more[1..], offered + [body])
  {
    hide Carry, CarrySome, CarryAll, Setup.BodyFrame;
    var frame := k.BodyFrame(c, Kind.Item, id, body);
    assert (talk + [frame])[1..] == talk[1..] + [frame];
    CarryOne(k, c, talk[1..], offered, id, body);
    CarryMeansSome(k, c, talk[1..] + [frame], offered + [body]);
  }

  lemma EndTalk(k: Setup, c: u32, talk: seq<Outgoing>, offered: seq<Bytes>, end: Outgoing)
    requires Talks(k, c, talk, offered) && talk != [] && Carry(k, c, talk[1..], offered) && end.header.kind == Kind.End
    ensures var more := talk + [end]; Talks(k, c, more, offered) && CarryAll(k, c, more[1..], offered)
  {
    hide Carry, CarrySome, CarryAll;
    assert (talk + [end])[1..] == talk[1..] + [end];
    CarryThenEnd(k, c, talk[1..], offered, end);
  }

  /** What a step makes of an own call's credit. */
  ghost predicate Meters(k: Setup, v: View, e: Event, heard: Option<Message>, w: Waiting) {
    if e.Open? then !w.established && w.credit == 0
    else if v.waiting.None? then false
    else
      var was := v.waiting.value;
      if e.PushItem? then
        && w.established == was.established
        && (if was.established then was.credit > 0 && w.credit == was.credit - 1 else w.credit == was.credit)
      else if e.Allow? then w.established && w.credit as int <= was.credit as int + e.items as int
      else w.established == was.established && w.credit == was.credit
  }

  lemma MetersOwn(k: Setup, c: u32, a: Surroundings, v: View, e: Event, heard: Option<Message>, t: Tally)
    requires Stepping(k, c, a, v, e, heard, t) && k.Own(c)
    ensures Change(k, v, e).waiting.Some? ==> Meters(k, v, e, heard, Change(k, v, e).waiting.value)
    ensures e.Allow? ==>
            v.waiting.Some? && heard.Some? && heard.value.Frame? && e.items as int == CreditIn(k, heard.value.frame)
    ensures e.Open? ==> v.waiting.None?
    ensures e.PushItem? ==> v.waiting.Some? && (v.waiting.value.established ==> v.waiting.value.credit > 0)
  {
    hide Setup.Plain, ReadCredit, Setup.Own, Setup.BodyFrame, Setup.ErrorFrame, Setup.ControlFrame;
  }

  lemma MeteredOwn(k: Setup, c: u32, a: Surroundings, v: View, e: Event, heard: Option<Message>, l: Flow, t: Tally)
    requires Stepping(k, c, a, v, e, heard, t) && Metered(k, v, l) && k.Own(c)
    ensures Metered(k, Changed(v, Change(k, v, e)), Booked(k, v, e, heard, l))
  {
    hide Change, Allowed, Consistent, Credits, Frames, CreditIn, Setup.Own, Booked;
    SettlesRightly(k, c, a, v, e, heard, t);
    BookedParts(k, v, e, heard, l);
    MetersOwn(k, c, a, v, e, heard, t);
    if heard.Some? {
      HeardOne(k, l.heard, heard.value);
    }
  }

  // -------------------------------------------------------------- one step: the callee

  /** What a step of a call of the peer does to its open stream. */
  ghost predicate Takes(k: Setup, v: View, e: Event, heard: Option<Message>, r: Running) {
    if e.Admit? then
      heard.Some? && heard.value.Is(Request) && r.inboundClosed == !r.shape.CallerStreams()
    else if v.running.None? then false
    else
      var was := v.running.value;
      && r.shape == was.shape && (was.inboundClosed ==> r.inboundClosed)
      && (if e.Deliver? then
            && heard.Some? && heard.value.Frame? && Reads(k, heard.value.frame, e.body)
            && was.shape.CallerStreams() && !was.inboundClosed && !r.inboundClosed
          else
            && (r.inboundClosed != was.inboundClosed ==>
                  heard.Some? && heard.value.Is(Kind.End) && was.shape.CallerStreams())
            && (heard.Some? && heard.value.Frame? && heard.value.frame.header.kind in STREAM ==> r.inboundClosed))
  }

  lemma TakesOwn(k: Setup, c: u32, a: Surroundings, v: View, e: Event, heard: Option<Message>, t: Tally)
    requires Stepping(k, c, a, v, e, heard, t) && !k.Own(c)
    ensures e.Admit? ==> v.running.None? && Change(k, v, e).running.Some?
    ensures e.Deliver? ==> v.running.Some? && Change(k, v, e).running.Some?
    ensures Change(k, v, e).running.Some? ==> Takes(k, v, e, heard, Change(k, v, e).running.value)
  {
    hide Setup.Plain, ReadCredit, SaturatingAdd, Setup.Own, Setup.BodyFrame, InitialCredit;
  }

  /** One more message heard since the admission. */
  lemma SinceOne(l: Flow, m: Flow, message: Message)
    requires m.since == l.since < |l.heard| && m.heard == l.heard + [message]
    ensures Since(m) == if message.Frame? && message.frame.header.kind in STREAM then Since(l) + [message.frame]
                        else Since(l)
  {
    hide Only, Frames;
    var rest := l.heard[l.since + 1..];
    assert m.heard[l.since + 1..] == rest + [message];
    FramesOne(rest, message);
    if message.Frame? {
      OnlyOne(STREAM, Frames(rest), message.frame);
    }
  }

  lemma SinceSame(l: Flow, m: Flow)
    requires m.since == l.since && m.heard == l.heard
    ensures Since(m) == Since(l)
  {
  }

  lemma SinceNone(l: Flow)
    requires l.since + 1 == |l.heard|
    ensures Since(l) == []
  {
    assert l.heard[l.since + 1..] == [];
  }

  lemma PlainlyPrefix(k: Setup, stream: seq<Outgoing>, n: nat, frame: Outgoing, bodies: seq<Bytes>)
    requires n <= |stream| && Plainly(k, stream[..n], bodies)
    ensures Plainly(k, (stream + [frame])[..n], bodies)
  {
    assert (stream + [frame])[..n] == stream[..n];
  }

  lemma TakingOwn(k: Setup, c: u32, a: Surroundings, v: View, e: Event, heard: Option<Message>, l: Flow, t: Tally)
    requires Stepping(k, c, a, v, e, heard, t) && Taking(k, v, l) && !k.Own(c)
    ensures Taking(k, Changed(v, Change(k, v, e)), Booked(k, v, e, heard, l))
  {
    hide Change, Allowed, Consistent, Setup.Own, Booked, Since, Setup.Plain;
    SettlesRightly(k, c, a, v, e, heard, t);
    BookedParts(k, v, e, heard, l);
    TakesOwn(k, c, a, v, e, heard, t);
    RespondsOwn(k, c, a, v, e, heard, t);
    var m, stream, n := Booked(k, v, e, heard, l), Since(l), |l.delivered|;
    PlainlyNone(k);
    if m.admits <= 1 {
      assert m.admits == 0 ==> Since(m)[..0] == [];
      if heard.None? {
        SinceSame(l, m);
      } else if e.Admit? {
        SinceNone(m);
      } else if l.admits == 1 {
        SinceOne(l, m, heard.value);
        if heard.value.Frame? && heard.value.frame.header.kind in STREAM {
          PlainlyPrefix(k, stream, n, heard.value.frame, l.delivered);
          if e.Deliver? && n == |stream| {
            assert stream[..n] == stream;
            PlainlyOne(k, stream, l.delivered, heard.value.frame, e.body);
            assert (stream + [heard.value.frame])[..n + 1] == stream + [heard.value.frame];
          }
        }
      }
    }
  }

  lemma PlainlyNone(k: Setup)
    ensures Plainly(k, [], [])
  {
  }

  // ------------------------------------------------------------------- every move

  lemma UploadingOwn(k: Setup, c: u32, a: Surroundings, v: View, e: Event, heard: Option<Message>, l: Flow, t: Tally)
    requires Stepping(k, c, a, v, e, heard, t) && Uploading(k, c, v, l)
    ensures !e.Global() && Uploading(k, c, Changed(v, Change(k, v, e)), Booked(k, v, e, heard, l))
  {
    hide Stepping, Change, Booked, Replied, Offering, Metered, Responding, Taking, Setup.Own;
    IsOwn(k, c, a, v, e, heard, t);
    RepliedOwn(k, c, a, v, e, heard, l, t);
    if k.Own(c) {
      OfferingOwn(k, c, a, v, e, heard, l, t);
      MeteredOwn(k, c, a, v, e, heard, l, t);
    } else {
      RespondingOwn(k, c, a, v, e, heard, l, t);
      TakingOwn(k, c, a, v, e, heard, l, t);
    }
  }

  /** What a drain sends for a call is no RESPONSE but those of its queue. */
  lemma CarriedBackDrain(k: Setup, c: u32, v: View, v': View, sent: seq<Outgoing>, share: Share, responded: seq<Bytes>)
    requires Shares(c, v.queue, v.credit, sent, v'.queue, v'.credit, share) && CarriedBack(k, c, v.queue, responded)
    ensures CarriedBack(k, c, sent, responded) && CarriedBack(k, c, v'.queue, responded)
  {
    hide CarriesBack;
    var a, b := Tell(v.credit, c, share.before), v.queue[..share.count];
    assert forall i :: 0 <= i < |sent| && sent[i].header.kind == Kind.Response ==>
             |a| <= i < |a| + |b| && sent[i] == v.queue[i - |a|];
  }

  lemma UploadingDrain(k: Setup, c: u32, v: View, v': View, sent: seq<Outgoing>, share: Share, l: Flow)
    requires Uploading(k, c, v, l)
    requires Shares(c, v.queue, v.credit, sent, v'.queue, v'.credit, share)
    requires v'.waiting == v.waiting && v'.running == v.running
    ensures Uploading(k, c, v', l.(sent := l.sent + sent))
  {
    hide Only, Credits, Setup.Own, Carry, CarrySome, CarryAll, Plainly, Frames, Talks, CarriesBack, Shares;
    var m := l.(sent := l.sent + sent);
    SinceSame(l, m);
    if k.Own(c) {
      DrainOnly(c, v, v', sent, share, l.sent, TALK);
    } else if l.admits <= 1 {
      CarriedBackDrain(k, c, v, v', sent, share, l.responded);
    }
  }

  lemma UploadingEnds(k: Setup, c: u32, v: View, l: Flow)
    requires Uploading(k, c, v, l) && v.waiting.None? && v.running.None?
    ensures Uploading(k, c, NOTHING, l)
  {
    hide Setup.Own, Credits, Frames, CarriesBack, CarryAll, CarrySome, Plainly;
    if k.Own(c) && l.opens <= 1 {
      TalksCut(k, c, Only(TALK, l.sent), Only(TALK, v.queue), l.offered);
      NothingAdded(Only(TALK, l.sent));
    }
  }

  lemma UploadingMove(k: Setup, c: u32, v: View, h: seq<Act>, v': View, h': seq<Act>, m: Move)
    requires Uploading(k, c, v, FlowOf(h)) && Completed(k, c, v, h)
    requires Evolves(k, c, v, h, v', h', m)
    ensures Uploading(k, c, v', FlowOf(h'))
  {
    hide Fold, Uploading, Change, Allowed, Shares, Consistent, After, Booked;
    match m {
      case Stay =>
      case Own(a, e, heard) =>
        FoldStep(Note, DRY, h, k, v, e, heard);
        StepIsBooked(k, v, e, heard, FlowOf(h));
        UploadingOwn(k, c, a, v, e, heard, FlowOf(h), TallyOf(h));
      case Drains(share, sent) =>
        FoldConcat(Note, DRY, h, SentActs(c, sent));
        NoteSent(FlowOf(h), c, sent);
        UploadingDrain(k, c, v, v', sent, share, FlowOf(h));
      case Ends =>
        FoldFew(Note, DRY, h, [Cleared]);
        UploadingEnds(k, c, v, FlowOf(h));
    }
  }

  lemma {:induction false} UploadingAlways(k: Setup, s: State, c: u32)
    requires Reachable(k, s)
    ensures Uploading(k, c, ViewOf(s, c), FlowOf(History(s, c)))
    decreases |s.journal|
  {
    hide Enabled, Apply, Evolves, Fold, Completed, Uploading;
    if s.journal == [] {
      UploadingAtFirst(k, c);
    } else {
      var before, step := Previous(k, s);
      UploadingAlways(k, before, c);
      BoxStaysSound(k, before);
      CompletedAlways(k, before, c);
      var m := EveryStepMoves(k, before, step, c);
      UploadingMove(k, c, ViewOf(before, c), History(before, c), ViewOf(s, c), History(s, c), m);
    }
  }

  lemma UploadingAtFirst(k: Setup, c: u32)
    ensures Uploading(k, c, ViewOf(Initial(k), c), FlowOf(History(Initial(k), c)))
  {
    FlowingAtFirst(k, c);
    PlainlyNone(k);
  }
}
