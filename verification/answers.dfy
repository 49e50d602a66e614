/** What a core says under the ids of its peer: every request it admits is answered in the
    form its shape permits, once, unless the session ends first. */
module Answers {
  import opened Basics
  import opened Wire
  import opened OutboxModel
  import opened OutboxRefinement
  import opened Session
  import opened CoreModel
  import opened Histories
  import opened Completion

  /** `Dropping`: unsent items and waiting credit are gone, the ERROR is due. */
  datatype Answering = Absent | Serving(shape: Shape) | Dropping(shape: Shape) | Answered | Abandoned | Amiss

  /** A frame queued under the call's id. Later ERRORs answer further frames of the peer. */
  function Speak(st: Answering, kind: Kind): Answering {
    match kind
    case Item => if st.Serving? && st.shape.CalleeStreams() then st else Amiss
    case End => if st.Serving? && st.shape.CalleeStreams() then Answered else Amiss
    case Response => if st.Serving? && !st.shape.CalleeStreams() then Answered else Amiss
    case Error => if st.Dropping? then Answered else if st.Serving? then Amiss else st
    case _ => Amiss
  }

  function Listen(st: Answering, a: Act): Answering {
    match a
    case Admitted(_, shape, _) => if st.Serving? || st.Dropping? || st.Amiss? then Amiss else Serving(shape)
    case Dropped(_) => if st.Serving? then Dropping(st.shape) else st
    case Queued(_, frame) => Speak(st, frame.header.kind)
    case Left(_) => if st.Serving? then Abandoned else Amiss
    case _ => st
  }

  function AnsweringOf(h: seq<Act>): Answering { Fold(Listen, Absent, h) }

  ghost predicate Attending(v: View, st: Answering) {
    match st
    case Serving(shape) => v.running.Some? && v.running.value.shape == shape
    case Dropping(_) => false
    case Amiss => false
    case _ => v.running.None?
  }

  ghost predicate Attentive(k: Setup, c: u32, v: View, h: seq<Act>) { !k.Own(c) ==> Attending(v, AnsweringOf(h)) }

  /** Acts that are no part of an answer. */
  predicate Aside(acts: seq<Act>) {
    forall i :: 0 <= i < |acts| ==> !acts[i].Admitted? && !acts[i].Dropped? && !acts[i].Queued? && !acts[i].Left?
  }

  lemma AsideUnheeded(st: Answering, acts: seq<Act>)
    requires Aside(acts)
    ensures Few(Listen, st, acts) == st
  {
  }

  lemma AsideEvents(k: Setup, v: View, e: Event)
    requires e.Bounce? || e.Grant? || e.TellItem? || e.Allow? || e.Update? || e.Deliver? || e.Ignore?
    ensures Aside(Change(k, v, e).acts)
  {
    hide SaturatingAdd;
  }

  /** Steps that concern no answer leave the call served or not as it was. */
  lemma AttendingAside(k: Setup, c: u32, a: Surroundings, v: View, e: Event, heard: Option<Message>, st: Answering,
                       t: Tally)
    requires Attending(v, st) && Consistent(k, c, v, t) && !k.Own(c)
    requires !e.Global() && e.call == c && Allowed(k, a, v, e, heard)
    requires e.Bounce? || e.Grant? || e.TellItem? || e.Allow? || e.Update? || e.Deliver? || e.Ignore?
    ensures Attending(Changed(v, Change(k, v, e)), After(Listen, k, v, e, heard, st))
  {
    hide Setup.Plain, ReadCredit, SaturatingAdd, Setup.Own, Few, Listen, TouchedBy;
    AsideEvents(k, v, e);
    AsideUnheeded(st, Change(k, v, e).acts);
    ListenHeard(st, heard);
  }

  lemma ListenHeard(st: Answering, heard: Option<Message>)
    ensures heard.Some? ==> Listen(st, Heard(heard.value)) == st
  {
  }

  /** A step that answers. */
  lemma AttendingYield(k: Setup, c: u32, a: Surroundings, v: View, e: Event, heard: Option<Message>, st: Answering,
                       t: Tally)
    requires Attending(v, st) && Consistent(k, c, v, t) && !k.Own(c)
    requires e.Yield?
    requires e.call == c && Allowed(k, a, v, e, heard)
    ensures Attending(Changed(v, Change(k, v, e)), After(Listen, k, v, e, heard, st))
  {
    hide Setup.Plain, Setup.Own, Setup.BodyFrame, Setup.ErrorFrame, Setup.ControlFrame;
    AppendKinds(k, v, e);
  }

  lemma AttendingEnd(k: Setup, c: u32, a: Surroundings, v: View, e: Event, heard: Option<Message>, st: Answering,
                     t: Tally)
    requires Attending(v, st) && Consistent(k, c, v, t) && !k.Own(c)
    requires e.Answer? || e.CloseOut?
    requires e.call == c && Allowed(k, a, v, e, heard)
    ensures Attending(Changed(v, Change(k, v, e)), After(Listen, k, v, e, heard, st))
  {
    hide Setup.Plain, Setup.Own, Setup.BodyFrame, Setup.ErrorFrame, Setup.ControlFrame;
    AppendKinds(k, v, e);
  }

  lemma AttendingFinish(k: Setup, c: u32, a: Surroundings, v: View, e: Event, heard: Option<Message>, st: Answering,
                        t: Tally)
    requires Attending(v, st) && Consistent(k, c, v, t) && !k.Own(c) && e.Finish?
    requires e.call == c && Allowed(k, a, v, e, heard)
    ensures Attending(Changed(v, Change(k, v, e)), After(Listen, k, v, e, heard, st))
  {
    hide Setup.Plain, Setup.Own, Setup.BodyFrame, Setup.ErrorFrame, Setup.ControlFrame;
    AppendKinds(k, v, e);
  }

  /** The other steps: admission, leaving with the session, and strays. */
  lemma AttendingAdmit(k: Setup, c: u32, a: Surroundings, v: View, e: Event, heard: Option<Message>, st: Answering,
                       t: Tally)
    requires Attending(v, st) && Consistent(k, c, v, t) && !k.Own(c)
    requires e.Admit?
    requires e.call == c && Allowed(k, a, v, e, heard)
    ensures Attending(Changed(v, Change(k, v, e)), After(Listen, k, v, e, heard, st))
  {
    hide Setup.Plain, Setup.Own, Setup.BodyFrame, Setup.ErrorFrame, InitialCredit;
    AppendKinds(k, v, e);
  }

  lemma AttendingLeave(k: Setup, c: u32, a: Surroundings, v: View, e: Event, heard: Option<Message>, st: Answering,
                       t: Tally)
    requires Attending(v, st) && Consistent(k, c, v, t) && !k.Own(c)
    requires e.Leave? || e.Stray?
    requires e.call == c && Allowed(k, a, v, e, heard)
    ensures Attending(Changed(v, Change(k, v, e)), After(Listen, k, v, e, heard, st))
  {
    hide Setup.Plain, Setup.Own, Setup.BodyFrame, Setup.ErrorFrame, InitialCredit;
    AppendKinds(k, v, e);
  }

  /** A call of the peer is none this side makes. */
  lemma NoneOfOurs(k: Setup, c: u32, a: Surroundings, v: View, e: Event, heard: Option<Message>, t: Tally)
    requires Consistent(k, c, v, t) && !k.Own(c) && !e.Global() && e.call == c && Allowed(k, a, v, e, heard)
    ensures !e.Open? && !e.PushItem? && !e.PushEnd? && !e.Settle? && !e.Abandon?
  {
    hide Setup.Plain, Setup.Own;
  }

  lemma AttendingOwn(k: Setup, c: u32, a: Surroundings, v: View, e: Event, heard: Option<Message>, st: Answering,
                     t: Tally)
    requires Attending(v, st) && Consistent(k, c, v, t) && !k.Own(c)
    requires !e.Global() && e.call == c && Allowed(k, a, v, e, heard)
    ensures Attending(Changed(v, Change(k, v, e)), After(Listen, k, v, e, heard, st))
  {
    hide Change, Allowed, After, Attending, Consistent;
    NoneOfOurs(k, c, a, v, e, heard, t);
    if e.Yield? {
      AttendingYield(k, c, a, v, e, heard, st, t);
    } else if e.Answer? || e.CloseOut? {
      AttendingEnd(k, c, a, v, e, heard, st, t);
    } else if e.Finish? {
      AttendingFinish(k, c, a, v, e, heard, st, t);
    } else if e.Admit? {
      AttendingAdmit(k, c, a, v, e, heard, st, t);
    } else if e.Leave? || e.Stray? {
      AttendingLeave(k, c, a, v, e, heard, st, t);
    } else {
      AttendingAside(k, c, a, v, e, heard, st, t);
    }
  }

  lemma SentUnheeded(st: Answering, call: u32, frames: seq<Outgoing>)
    ensures Fold(Listen, st, SentActs(call, frames)) == st
  {
    if frames != [] {
      SentUnheeded(st, call, frames[1..]);
      assert SentActs(call, frames)[1..] == SentActs(call, frames[1..]);
    }
  }

  lemma AttentiveMove(k: Setup, c: u32, v: View, h: seq<Act>, v': View, h': seq<Act>, m: Move)
    requires Attentive(k, c, v, h) && Completed(k, c, v, h) && Evolves(k, c, v, h, v', h', m)
    ensures Attentive(k, c, v', h')
  {
    hide Fold, Change, Allowed, Shares;
    var st := AnsweringOf(h);
    if !k.Own(c) {
      match m {
        case Stay =>
        case Own(a, e, heard) =>
          FoldStep(Listen, Absent, h, k, v, e, heard);
          AttendingOwn(k, c, a, v, e, heard, st, TallyOf(h));
        case Drains(share, sent) =>
          FoldConcat(Listen, Absent, h, SentActs(c, sent));
          SentUnheeded(st, c, sent);
        case Ends => FoldFew(Listen, Absent, h, [Cleared]);
      }
    }
  }

  lemma {:induction false} AttentiveAlways(k: Setup, s: State, c: u32)
    requires Reachable(k, s)
    ensures Attentive(k, c, ViewOf(s, c), History(s, c))
    decreases |s.journal|
  {
    hide Enabled, Apply, Evolves;
    if s.journal != [] {
      var before, step := Previous(k, s);
      AttentiveAlways(k, before, c);
      BoxStaysSound(k, before);
      CompletedAlways(k, before, c);
      var m := EveryStepMoves(k, before, step, c);
      AttentiveMove(k, c, ViewOf(before, c), History(before, c), ViewOf(s, c), History(s, c), m);
    }
  }

  /** The callee's grammar. A call of the peer is in flight exactly while it has been
      admitted and not answered; until then only ITEMs were queued, and only for a shape
      that streams; it leaves with exactly one RESPONSE, END or ERROR, the one its shape
      permits, an ERROR only after queue and credit were dropped, or with the session. */
  lemma CalleeGrammar(k: Setup, s: State, c: u32)
    requires Reachable(k, s) && !k.Own(c)
    ensures var st := AnsweringOf(History(s, c));
            && st in {Absent, Answered, Abandoned}
                     + {Serving(Unary), Serving(ServerStream), Serving(ClientStream), Serving(BidiStream)}
            && (c in s.inflight <==> st.Serving?)
            && (c in s.inflight ==> s.inflight[c].shape == st.shape)
  {
    hide Fold;
    AttentiveAlways(k, s, c);
  }
}
