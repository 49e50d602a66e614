/** What flows under one call at one core, over every run: items told and yielded, frames
    heard and sent, credit granted and received. These are the single-core halves of the
    laws of `DuplexLaws`. */
module Flows {
  import opened Basics
  import opened Wire
  import opened OutboxModel
  import opened OutboxRefinement
  import opened Session
  import opened CoreModel
  import opened Histories
  import opened Completion
  import opened Ledger

  // ---------------------------------------------------------------- invariants

  /** Until a call is opened or its id heard of, nothing exists under that id. */
  ghost predicate Mute(v: View, l: Flow) {
    l.opens == 0 && l.heard == [] ==>
      v == NOTHING && l.sent == [] && l.yielded == [] && l.told == [] && l.granted == 0 && l.admits == 0 && !l.ended
  }

  /** Only an id of this side is ever opened. */
  ghost predicate Rightful(k: Setup, c: u32, l: Flow) {
    (!k.Own(c) ==> l.opens == 0) && (l.early ==> l.heard != [])
  }

  /** Every frame bears its call's id, only a REQUEST may bear a ctx, and only under an own
      id; no CREDIT is queued. */
  ghost predicate Labelled(k: Setup, c: u32, v: View, l: Flow) {
    NoCredit(v.queue) && AllFitting(k, c, v.queue) && AllFitting(k, c, l.sent)
  }

  /** While a call waits, its owner has been told exactly the items heard; told of the end,
      it had been told all that were heard before the END. */
  ghost predicate Listening(k: Setup, v: View, l: Flow) {
    l.opens <= 1 && !l.early ==>
      && (l.opens == 0 ==> v.waiting.None? && l.told == [] && !l.ended)
      && (v.waiting.Some? ==> !l.ended && Plainly(k, StreamOf(Frames(l.heard)), l.told))
      && (l.ended ==> l.endAt < |l.heard| && l.heard[l.endAt].Is(Kind.End)
                      && Plainly(k, StreamOf(Frames(l.heard[..l.endAt])), l.told))
  }

  /** One REQUEST for each opening. */
  ghost predicate Asking(v: View, l: Flow) { Requests(l.sent) + Requests(v.queue) <= l.opens }

  /** No more credit is told than was granted. */
  ghost predicate Telling(k: Setup, v: View, l: Flow) {
    Credits(k, l.sent) + Items(v.credit) <= l.granted && PlainCredit(l.sent)
  }

  /** An id admitted at most once: while it is served, what was sent and what is queued
      carry everything its handler yielded; afterwards all of it and an END, or the first
      part of it and none. */
  ghost predicate Streams(k: Setup, c: u32, v: View, l: Flow) {
    var stream := StreamOf(l.sent) + StreamOf(v.queue);
    l.admits <= 1 ==>
      && (l.admits == 0 ==> v.running.None? && l.yielded == [] && stream == [])
      && (v.running.Some? ==> Carry(k, c, stream, l.yielded))
      && (CarryAll(k, c, stream, l.yielded) || CarrySome(k, c, stream, l.yielded))
  }

  predicate Offers(m: Message, credit: u32) { m.Is(Request) && InitialCredit(m.frame) == credit }

  /** Admissions are paid for by REQUESTs heard, items by credit. */
  ghost predicate Paid(k: Setup, v: View, l: Flow) {
    var credit := l.initial as int + Credits(k, Frames(l.heard));
    && l.admits <= Requests(Frames(l.heard))
    && (l.admits == 0 ==> v.running.None? && l.yielded == [] && l.initial == 0)
    && (l.admits > 0 ==> exists i :: 0 <= i < |l.heard| && Offers(l.heard[i], l.initial))
    && (l.admits <= 1 && l.initial != 0 ==>
          && |l.yielded| <= credit
          && (v.running.Some? ==>
                v.running.value.established && |l.yielded| + v.running.value.credit as int <= credit))
  }

  /** What holds of every call in every run. */
  ghost predicate Flowing(k: Setup, c: u32, v: View, l: Flow) {
    && Mute(v, l)
    && Rightful(k, c, l)
    && Labelled(k, c, v, l)
    && Telling(k, v, l)
    && (if k.Own(c) then Listening(k, v, l) && Asking(v, l) else Streams(k, c, v, l) && Paid(k, v, l))
  }

  // ------------------------------------------------------------ one step of one call

  /** What every step of one call may rely on. */
  ghost predicate Stepping(k: Setup, c: u32, a: Surroundings, v: View, e: Event, heard: Option<Message>, t: Tally) {
    Consistent(k, c, v, t) && !e.Global() && e.call == c && Allowed(k, a, v, e, heard)
  }

  /** What a step queues bears its call's id. */
  lemma AppendFits(k: Setup, c: u32, a: Surroundings, v: View, e: Event, heard: Option<Message>, t: Tally)
    requires Stepping(k, c, a, v, e, heard, t)
    ensures Change(k, v, e).append.Some? ==> Fitting(k, c, Change(k, v, e).append.value)
  {
    hide Change, Setup.Plain, Setup.Own;
    AppendKinds(k, v, e);
  }

  lemma LabelledOwn(k: Setup, c: u32, a: Surroundings, v: View, e: Event, heard: Option<Message>, l: Flow, t: Tally)
    requires Stepping(k, c, a, v, e, heard, t) && Labelled(k, c, v, l)
    ensures Labelled(k, c, Changed(v, Change(k, v, e)), Booked(k, v, e, heard, l))
  {
    hide Change, Allowed, Fitting, Booked;
    SettlesRightly(k, c, a, v, e, heard, t);
    BookedParts(k, v, e, heard, l);
    NoCreditQueued(k, a, v, e, heard);
    AppendFits(k, c, a, v, e, heard, t);
  }

  /** Under an id nothing is known of, unprompted, a call can only be tried. */
  lemma OnlyTries(k: Setup, c: u32, a: Surroundings, e: Event, t: Tally)
    requires Stepping(k, c, a, NOTHING, e, None, t)
    ensures e.Bounce? || e.Open?
  {
    hide Setup.Plain, Setup.Own;
  }

  lemma MuteOwn(k: Setup, c: u32, a: Surroundings, v: View, e: Event, heard: Option<Message>, l: Flow, t: Tally)
    requires Stepping(k, c, a, v, e, heard, t) && Mute(v, l)
    ensures Mute(Changed(v, Change(k, v, e)), Booked(k, v, e, heard, l))
  {
    hide Allowed, Consistent, Change, Booked;
    SettlesRightly(k, c, a, v, e, heard, t);
    BookedParts(k, v, e, heard, l);
    if l.opens == 0 && l.heard == [] && heard.None? {
      OnlyTries(k, c, a, e, t);
      if e.Bounce? {
        TriedOnly(k, e);
      }
    }
  }

  lemma TriedOnly(k: Setup, e: Event)
    requires e.Bounce?
    ensures Changed(NOTHING, Change(k, NOTHING, e)) == NOTHING
  {
  }

  lemma RightfulOwn(k: Setup, c: u32, a: Surroundings, v: View, e: Event, heard: Option<Message>, l: Flow, t: Tally)
    requires Stepping(k, c, a, v, e, heard, t) && Rightful(k, c, l)
    ensures Rightful(k, c, Booked(k, v, e, heard, l))
  {
    hide Setup.Own, Change, Consistent, Setup.Plain, Booked;
    SettlesRightly(k, c, a, v, e, heard, t);
    BookedParts(k, v, e, heard, l);
  }

  lemma SettlesRightly(k: Setup, c: u32, a: Surroundings, v: View, e: Event, heard: Option<Message>, t: Tally)
    requires Stepping(k, c, a, v, e, heard, t)
    ensures e.Settle? ==> e.outcome.kind != OutcomeKind.Item
  {
    hide Setup.Own, Setup.Plain;
  }

  /** A grant waits until it is told; nothing else adds to waiting credit. */
  lemma GrantsWait(k: Setup, v: View, e: Event)
    requires !e.Global()
    ensures var d := Change(k, v, e);
            && Items(d.grant) == (if e.Grant? && k.registry.creditID.Some? then e.items as int else 0)
            && (d.discard ==> d.grant.None?)
  {
    hide Setup.BodyFrame, Setup.ControlFrame, Setup.ErrorFrame, SaturatingAdd;
  }

  lemma TellingOwn(k: Setup, c: u32, a: Surroundings, v: View, e: Event, heard: Option<Message>, l: Flow, t: Tally)
    requires Stepping(k, c, a, v, e, heard, t) && Telling(k, v, l)
    ensures Telling(k, Changed(v, Change(k, v, e)), Booked(k, v, e, heard, l))
  {
    hide Credits, Change, SaturatingAdd, Booked, Allowed, Consistent;
    SettlesRightly(k, c, a, v, e, heard, t);
    BookedParts(k, v, e, heard, l);
    GrantsWait(k, v, e);
  }

  // ---------------------------------------------------------------- own calls

  /** What a step of an own call makes of its waiting. */
  lemma WaitingAfter(k: Setup, c: u32, a: Surroundings, v: View, e: Event, heard: Option<Message>, t: Tally)
    requires Stepping(k, c, a, v, e, heard, t) && k.Own(c)
    ensures (e.Settle? ==> e.outcome.kind != OutcomeKind.Item && v.waiting.Some?)
    ensures var w := Change(k, v, e).waiting;
            && (w.Some? ==> e.Open? || (v.waiting.Some? && !e.Settle? && !e.Abandon?))
            && (w.Some? && heard.Some? && heard.value.Frame? && !e.TellItem? ==>
                  heard.value.frame.header.kind !in {Kind.Item, Kind.End})
            && (w.Some? && heard.Some? ==> heard.value.Frame?)
            && (e.TellItem? ==> v.waiting.Some? && heard.Some? && heard.value.Is(Kind.Item)
                                && k.Plain(heard.value.frame) == Some(e.body))
            && (e.Settle? && e.outcome.kind == OutcomeKind.End ==> heard.Some? && heard.value.Is(Kind.End))
            && (e.Open? ==> heard.None? && v.waiting.None?)
  {
    hide Setup.Plain, ReadCredit, SaturatingAdd, Setup.Own, Setup.BodyFrame, Setup.ControlFrame, Setup.ErrorFrame;
  }

  lemma ListeningOwn(k: Setup, c: u32, a: Surroundings, v: View, e: Event, heard: Option<Message>, l: Flow, t: Tally)
    requires Stepping(k, c, a, v, e, heard, t) && Listening(k, v, l) && k.Own(c)
    ensures Listening(k, Changed(v, Change(k, v, e)), Booked(k, v, e, heard, l))
  {
    hide Setup.Plain, Setup.Own, Frames, Only, Change, Allowed, Consistent, Booked;
    SettlesRightly(k, c, a, v, e, heard, t);
    BookedParts(k, v, e, heard, l);
    OnlyNone(STREAM);
    WaitingAfter(k, c, a, v, e, heard, t);
    if heard.Some? {
      HeardOne(k, l.heard, heard.value);
      assert (l.heard + [heard.value])[..|l.heard|] == l.heard;
      if l.ended && l.endAt < |l.heard| {
        assert (l.heard + [heard.value])[..l.endAt] == l.heard[..l.endAt];
      }
    }
    if e.TellItem? && Plainly(k, StreamOf(Frames(l.heard)), l.told) {
      PlainlyOne(k, StreamOf(Frames(l.heard)), l.told, heard.value.frame, e.body);
    }
  }

  /** Only opening queues a REQUEST. */
  lemma AskingOwn(k: Setup, c: u32, a: Surroundings, v: View, e: Event, heard: Option<Message>, l: Flow, t: Tally)
    requires Stepping(k, c, a, v, e, heard, t) && Asking(v, l)
    ensures Asking(Changed(v, Change(k, v, e)), Booked(k, v, e, heard, l))
  {
    hide Setup.Plain, Setup.Own, Requests, Change, Consistent, Allowed, Booked;
    SettlesRightly(k, c, a, v, e, heard, t);
    BookedParts(k, v, e, heard, l);
    AppendKinds(k, v, e);
    var d := Change(k, v, e);
    if d.append.Some? {
      RequestsOne(if d.discard then [] else v.queue, d.append.value);
    }
    RequestsNone();
  }

  // ------------------------------------------------------------- calls of the peer

  /** What a step of a call of the peer queues and leaves in the table. */
  ghost predicate Responds(k: Setup, c: u32, v: View, e: Event, d: Delta) {
    if e.Admit? then v.running.None? && d.append.None? && !d.discard
    else if e.Yield? then
      v.running.Some? && d.running.Some? && !d.discard
      && d.append == Some(k.BodyFrame(c, Kind.Item, v.running.value.replyID, e.body))
    else if e.Answer? then
      v.running.Some? && d.running.None? && !d.discard
      && d.append == Some(k.BodyFrame(c, Kind.Response, v.running.value.replyID, e.body))
    else if e.CloseOut? then
      v.running.Some? && d.running.None? && !d.discard && d.append.Some? && d.append.value.header.kind == Kind.End
    else
      && (d.append.Some? ==> d.append.value.header.kind == Kind.Error && d.running.None?)
      && (d.discard ==> d.running.None?)
      && (d.running.Some? ==> v.running.Some?)
  }

  lemma RespondsOwn(k: Setup, c: u32, a: Surroundings, v: View, e: Event, heard: Option<Message>, t: Tally)
    requires Stepping(k, c, a, v, e, heard, t) && !k.Own(c)
    ensures Responds(k, c, v, e, Change(k, v, e))
  {
    hide Setup.Plain, ReadCredit, SaturatingAdd, Setup.Own, Setup.BodyFrame, Setup.ErrorFrame, Setup.ControlFrame;
    AppendKinds(k, v, e);
  }

  lemma StreamsOwn(k: Setup, c: u32, a: Surroundings, v: View, e: Event, heard: Option<Message>, l: Flow, t: Tally)
    requires Stepping(k, c, a, v, e, heard, t) && Streams(k, c, v, l) && !k.Own(c)
    ensures Streams(k, c, Changed(v, Change(k, v, e)), Booked(k, v, e, heard, l))
  {
    hide Change, Allowed, Consistent, Only, Setup.BodyFrame, Carry, CarrySome, CarryAll, Booked;
    SettlesRightly(k, c, a, v, e, heard, t);
    BookedParts(k, v, e, heard, l);
    RespondsOwn(k, c, a, v, e, heard, t);
    var d := Change(k, v, e);
    var sent, queue := StreamOf(l.sent), StreamOf(v.queue);
    if d.append.Some? {
      StreamOne(if d.discard then [] else v.queue, d.append.value);
    }
    OnlyNone(STREAM);
    StreamNone();
    NothingAdded(sent);
    if l.admits <= 1 {
      CarryCut(k, c, sent, queue, l.yielded);
    }
    if e.Admit? {
      CarryNone(k, c);
    } else if e.Yield? {
      var r := v.running.value;
      BodyFrameKind(k, c, Kind.Item, r.replyID, e.body);
      Regroup(sent, queue, [d.append.value]);
      if l.admits <= 1 {
        CarryOne(k, c, sent + queue, l.yielded, r.replyID, e.body);
        CarryMeansSome(k, c, sent + queue + [d.append.value], l.yielded + [e.body]);
      }
    } else if e.Answer? {
      BodyFrameKind(k, c, Kind.Response, v.running.value.replyID, e.body);
    } else if e.CloseOut? {
      Regroup(sent, queue, [d.append.value]);
      if l.admits <= 1 {
        CarryThenEnd(k, c, sent + queue, l.yielded, d.append.value);
      }
    }
  }

  lemma StreamOne(a: seq<Outgoing>, f: Outgoing)
    ensures StreamOf(a + [f]) == if f.header.kind in STREAM then StreamOf(a) + [f] else StreamOf(a)
  {
    OnlyOne(STREAM, a, f);
  }

  lemma StreamNone()
    ensures StreamOf([]) == []
  {
  }

  /** What a step makes of the credit of a call of the peer. */
  ghost predicate Spends(k: Setup, v: View, e: Event, heard: Option<Message>, r: Running) {
    if e.Admit? then
      heard.Some? && Offers(heard.value, r.credit) && r == e.running && (r.established <==> r.credit != 0)
    else if v.running.None? then false
    else
      var was := v.running.value;
      if e.Yield? then
        r.established == was.established && (was.established ==> was.credit > 0 && r.credit == was.credit - 1)
      else if e.Allow? then
        && heard.Some? && heard.value.Frame?
        && r.established && r.credit as int <= was.credit as int + CreditIn(k, heard.value.frame)
      else r.established == was.established && r.credit == was.credit
  }

  lemma SpendsOwn(k: Setup, c: u32, a: Surroundings, v: View, e: Event, heard: Option<Message>, t: Tally)
    requires Stepping(k, c, a, v, e, heard, t) && !k.Own(c)
    ensures e.Admit? ==> v.running.None? && Change(k, v, e).running.Some?
    ensures Change(k, v, e).running.Some? ==> Spends(k, v, e, heard, Change(k, v, e).running.value)
  {
    hide Setup.Plain, ReadCredit, Setup.Own, Setup.BodyFrame, InitialCredit;
  }

  lemma PaidOwn(k: Setup, c: u32, a: Surroundings, v: View, e: Event, heard: Option<Message>, l: Flow, t: Tally)
    requires Stepping(k, c, a, v, e, heard, t) && Paid(k, v, l) && !k.Own(c)
    ensures Paid(k, Changed(v, Change(k, v, e)), Booked(k, v, e, heard, l))
  {
    hide Change, Allowed, Consistent, Requests, Credits, Frames, CreditIn, Setup.BodyFrame, Setup.Own, InitialCredit,
         Booked;
    SettlesRightly(k, c, a, v, e, heard, t);
    BookedParts(k, v, e, heard, l);
    RespondsOwn(k, c, a, v, e, heard, t);
    SpendsOwn(k, c, a, v, e, heard, t);
    if heard.Some? {
      HeardOne(k, l.heard, heard.value);
    }
    var m := Booked(k, v, e, heard, l);
    if e.Admit? {
      assert Offers(m.heard[|l.heard|], m.initial);
    } else if l.admits > 0 {
      var i :| 0 <= i < |l.heard| && Offers(l.heard[i], l.initial);
      assert Offers(m.heard[i], m.initial);
    }
  }

  // ------------------------------------------------------------------- every move

  lemma FlowingOwn(k: Setup, c: u32, a: Surroundings, v: View, e: Event, heard: Option<Message>, l: Flow, t: Tally)
    requires Stepping(k, c, a, v, e, heard, t) && Flowing(k, c, v, l)
    ensures Flowing(k, c, Changed(v, Change(k, v, e)), Booked(k, v, e, heard, l))
  {
    hide Stepping, Change, Booked, Mute, Labelled, Rightful, Telling, Listening, Asking, Streams, Paid, Setup.Own;
    assert !e.Global() by { IsOwn(k, c, a, v, e, heard, t); }
    MuteOwn(k, c, a, v, e, heard, l, t);
    RightfulOwn(k, c, a, v, e, heard, l, t);
    LabelledOwn(k, c, a, v, e, heard, l, t);
    TellingOwn(k, c, a, v, e, heard, l, t);
    if k.Own(c) {
      ListeningOwn(k, c, a, v, e, heard, l, t);
      AskingOwn(k, c, a, v, e, heard, l, t);
    } else {
      StreamsOwn(k, c, a, v, e, heard, l, t);
      PaidOwn(k, c, a, v, e, heard, l, t);
    }
  }

  lemma IsOwn(k: Setup, c: u32, a: Surroundings, v: View, e: Event, heard: Option<Message>, t: Tally)
    requires Stepping(k, c, a, v, e, heard, t)
    ensures !e.Global()
  {
  }

  lemma FlowingDrain(k: Setup, c: u32, v: View, v': View, sent: seq<Outgoing>, share: Share, l: Flow)
    requires Flowing(k, c, v, l)
    requires Shares(c, v.queue, v.credit, sent, v'.queue, v'.credit, share)
    requires v'.waiting == v.waiting && v'.running == v.running
    ensures Flowing(k, c, v', l.(sent := l.sent + sent))
  {
    hide Only, Requests, Credits, Setup.Own, Fitting, Carry, CarrySome, CarryAll, Plainly, Frames;
    DrainTotals(k, c, v, v', sent, share);
    DrainOnly(c, v, v', sent, share, l.sent, STREAM);
    RequestsConcat(l.sent, sent);
    CreditsConcat(k, l.sent, sent);
  }

  lemma FlowingEnds(k: Setup, c: u32, v: View, l: Flow)
    requires Flowing(k, c, v, l) && v.waiting.None? && v.running.None?
    ensures Flowing(k, c, NOTHING, l)
  {
    hide Setup.Own, Fitting, Carry, CarrySome, CarryAll, Plainly, Frames;
    if !k.Own(c) && l.admits <= 1 {
      CarryCut(k, c, StreamOf(l.sent), StreamOf(v.queue), l.yielded);
      NothingAdded(StreamOf(l.sent));
    }
  }

  lemma FlowingMove(k: Setup, c: u32, v: View, h: seq<Act>, v': View, h': seq<Act>, m: Move)
    requires Flowing(k, c, v, FlowOf(h)) && Completed(k, c, v, h)
    requires Evolves(k, c, v, h, v', h', m)
    ensures Flowing(k, c, v', FlowOf(h'))
  {
    hide Fold, Flowing, Change, Allowed, Shares, Consistent, After, Booked, NoCredit;
    match m {
      case Stay =>
      case Own(a, e, heard) =>
        FoldStep(Note, DRY, h, k, v, e, heard);
        StepIsBooked(k, v, e, heard, FlowOf(h));
        FlowingOwn(k, c, a, v, e, heard, FlowOf(h), TallyOf(h));
      case Drains(share, sent) =>
        FoldConcat(Note, DRY, h, SentActs(c, sent));
        NoteSent(FlowOf(h), c, sent);
        FlowingDrain(k, c, v, v', sent, share, FlowOf(h));
      case Ends =>
        FoldFew(Note, DRY, h, [Cleared]);
        FlowingEnds(k, c, v, FlowOf(h));
    }
  }

  lemma {:induction false} FlowingAlways(k: Setup, s: State, c: u32)
    requires Reachable(k, s)
    ensures Flowing(k, c, ViewOf(s, c), FlowOf(History(s, c)))
    decreases |s.journal|
  {
    hide Enabled, Apply, Evolves, Fold, Completed;
    if s.journal == [] {
      FlowingAtFirst(k, c);
    } else {
      var before, step := Previous(k, s);
      FlowingAlways(k, before, c);
      BoxStaysSound(k, before);
      CompletedAlways(k, before, c);
      var m := EveryStepMoves(k, before, step, c);
      FlowingMove(k, c, ViewOf(before, c), History(before, c), ViewOf(s, c), History(s, c), m);
    }
  }

  lemma FlowingAtFirst(k: Setup, c: u32)
    ensures ViewOf(Initial(k), c) == NOTHING && History(Initial(k), c) == []
    ensures Flowing(k, c, NOTHING, FlowOf([]))
  {
    CarryNone(k, c);
  }
}
