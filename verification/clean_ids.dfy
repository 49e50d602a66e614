/** Where the caller's frame order holds without any condition on the queue: for every id
    that is opened once, and not after the peer has provoked an answer under it. */
module CleanIds {
  import opened Basics
  import opened OutboxModel
  import opened OutboxRefinement
  import opened Session
  import opened CoreModel
  import opened Histories
  import opened Completion
  import opened Grammar
  import Flows
  import Ledger

  /** None of these messages is one that a core answers though no call is live. */
  ghost predicate Harmless(k: Setup, messages: seq<Message>) {
    forall i :: 0 <= i < |messages| ==> !Provokes(k, messages[i])
  }

  /** An id opened once had nothing queued then, if only harmless messages were heard of it
      before; until it is opened, nothing at all exists under it. */
  ghost predicate Clean(k: Setup, v: View, l: Ledger.Flow, w: Wires) {
    && l.openAt <= |l.heard|
    && (!l.early ==> l.openAt == 0)
    && (l.opens == 0 && Harmless(k, l.heard) ==> v == NOTHING)
    && (l.opens <= 1 && Harmless(k, l.heard[..l.openAt]) ==> !w.tainted)
  }

  /** Under an id nothing is known of, a harmless message is ignored. */
  lemma OnlyIgnores(k: Setup, c: u32, a: Surroundings, e: Event, heard: Option<Message>, t: Tally)
    requires Flows.Stepping(k, c, a, NOTHING, e, heard, t) && heard.Some? && !Provokes(k, heard.value)
    ensures e.Ignore? && Changed(NOTHING, Change(k, NOTHING, e)) == NOTHING
  {
    hide Setup.Plain, Setup.Own;
  }

  lemma NothingStays(k: Setup, c: u32, a: Surroundings, e: Event, heard: Option<Message>, t: Tally)
    requires Flows.Stepping(k, c, a, NOTHING, e, heard, t)
    requires !e.Open? && (heard.Some? ==> !Provokes(k, heard.value))
    ensures Changed(NOTHING, Change(k, NOTHING, e)) == NOTHING
  {
    hide Flows.Stepping, Change, Provokes;
    if heard.Some? {
      OnlyIgnores(k, c, a, e, heard, t);
    } else {
      Flows.OnlyTries(k, c, a, e, t);
      Flows.TriedOnly(k, e);
    }
  }

  lemma OpensUnprompted(k: Setup, c: u32, a: Surroundings, v: View, e: Event, heard: Option<Message>, t: Tally)
    requires Flows.Stepping(k, c, a, v, e, heard, t) && e.Open?
    ensures heard.None?
  {
    hide Setup.Plain, Setup.Own;
  }

  lemma CleanOwn(k: Setup, c: u32, a: Surroundings, v: View, e: Event, heard: Option<Message>,
                 l: Ledger.Flow, w: Wires, t: Tally)
    requires Clean(k, v, l, w) && InOrder(v, w)
    requires Flows.Stepping(k, c, a, v, e, heard, t)
    ensures Clean(k, Changed(v, Change(k, v, e)), Ledger.Booked(k, v, e, heard, l), After(Observe, k, v, e, heard, w))
  {
    hide Change, Changed, Allowed, Consistent, After, Ledger.Booked, Settles, Provokes;
    Flows.SettlesRightly(k, c, a, v, e, heard, t);
    Ledger.BookedParts(k, v, e, heard, l);
    FollowsOwn(k, a, v, e, heard, w);
    var m := Ledger.Booked(k, v, e, heard, l);
    if e.Open? {
      OpensUnprompted(k, c, a, v, e, heard, t);
      assert l.heard[..|l.heard|] == l.heard;
    } else {
      assert m.heard[..m.openAt] == l.heard[..l.openAt];
      if m.opens == 0 && Harmless(k, m.heard) {
        HarmlessBefore(k, l.heard, heard);
        NothingStays(k, c, a, e, heard, t);
      }
    }
  }

  lemma HarmlessBefore(k: Setup, messages: seq<Message>, heard: Option<Message>)
    requires Harmless(k, messages + Given(heard))
    ensures Harmless(k, messages) && (heard.Some? ==> !Provokes(k, heard.value))
  {
    hide Provokes;
    var all := messages + Given(heard);
    assert forall i :: 0 <= i < |messages| ==> all[i] == messages[i];
    assert heard.Some? ==> all[|messages|] == heard.value;
  }

  lemma CleanDrain(k: Setup, c: u32, v: View, v': View, sent: seq<Outgoing>, share: Share, l: Ledger.Flow, w: Wires,
                   w': Wires)
    requires Clean(k, v, l, w) && w'.tainted == w.tainted
    requires Shares(c, v.queue, v.credit, sent, v'.queue, v'.credit, share)
    requires v'.waiting == v.waiting && v'.running == v.running
    ensures Clean(k, v', l.(sent := l.sent + sent), w')
  {
  }

  lemma CleanMove(k: Setup, c: u32, v: View, h: seq<Act>, v': View, h': seq<Act>, m: Move)
    requires Clean(k, v, Ledger.FlowOf(h), WiresOf(h)) && InOrder(v, WiresOf(h))
    requires Completed(k, c, v, h) && Evolves(k, c, v, h, v', h', m)
    ensures Clean(k, v', Ledger.FlowOf(h'), WiresOf(h'))
  {
    hide Fold, Change, Allowed, Shares, Consistent, After, Ledger.Booked, InOrder, Run, Travel, Clean;
    var l, w := Ledger.FlowOf(h), WiresOf(h);
    match m {
      case Stay =>
      case Own(a, e, heard) =>
        FoldStep(Observe, QUIET, h, k, v, e, heard);
        FoldStep(Ledger.Note, Ledger.DRY, h, k, v, e, heard);
        Ledger.StepIsBooked(k, v, e, heard, l);
        CleanOwn(k, c, a, v, e, heard, l, w, TallyOf(h));
      case Drains(share, sent) =>
        FoldConcat(Observe, QUIET, h, SentActs(c, sent));
        FoldConcat(Ledger.Note, Ledger.DRY, h, SentActs(c, sent));
        Ledger.NoteSent(l, c, sent);
        ObserveDrain(w, c, v, v', sent, share);
        CleanDrain(k, c, v, v', sent, share, l, w, WiresOf(h'));
      case Ends =>
        FoldFew(Observe, QUIET, h, [Cleared]);
        FoldFew(Ledger.Note, Ledger.DRY, h, [Cleared]);
        CleanEnds(k, v, l, w, WiresOf(h'));
    }
  }

  lemma CleanEnds(k: Setup, v: View, l: Ledger.Flow, w: Wires, w': Wires)
    requires Clean(k, v, l, w) && w'.tainted == w.tainted
    ensures Clean(k, NOTHING, l, w')
  {
  }

  lemma {:induction false} CleanAlways(k: Setup, s: State, c: u32)
    requires Reachable(k, s)
    ensures Clean(k, ViewOf(s, c), Ledger.FlowOf(History(s, c)), WiresOf(History(s, c)))
    decreases |s.journal|
  {
    hide Enabled, Apply, Evolves, Fold, Completed, Clean;
    if s.journal == [] {
      Unopened(k, c);
    } else {
      var before, step := Previous(k, s);
      CleanAlways(k, before, c);
      BoxStaysSound(k, before);
      CompletedAlways(k, before, c);
      WiredAlways(k, before, c);
      var m := EveryStepMoves(k, before, step, c);
      CleanMove(k, c, ViewOf(before, c), History(before, c), ViewOf(s, c), History(s, c), m);
    }
  }

  lemma Unopened(k: Setup, c: u32)
    ensures Clean(k, ViewOf(Initial(k), c), Ledger.FlowOf(History(Initial(k), c)), WiresOf(History(Initial(k), c)))
  {
  }

  /** Only harmless messages were heard before the call was opened. */
  ghost predicate HarmlessAtFirst(k: Setup, l: Ledger.Flow) {
    l.openAt <= |l.heard| ==> Harmless(k, l.heard[..l.openAt])
  }

  /** A call whose id was not heard of at all is such a call. */
  lemma UnheardIsHarmless(k: Setup, s: State, c: u32)
    requires Reachable(k, s) && !Ledger.FlowOf(History(s, c)).early
    ensures HarmlessAtFirst(k, Ledger.FlowOf(History(s, c)))
  {
    hide Fold, Reachable, Provokes;
    CleanAlways(k, s, c);
  }

  /** The caller's grammar, for every id that a core has opened once, provided that before
      the opening no REQUEST was heard under it and nothing that does not decode or
      inflate: what the sink accepted under it is a prefix of REQUEST, ITEM*, END?, with
      CREDITs only behind the REQUEST, and then at most one CANCEL; and abandoning the call
      emits nothing exactly as long as the REQUEST has not been accepted. */
  lemma GrammarOnce(k: Setup, s: State, c: u32, status: Status)
    requires Reachable(k, s) && k.Own(c)
    requires var l := Ledger.FlowOf(History(s, c)); l.opens <= 1 && HarmlessAtFirst(k, l)
    ensures WiresOf(History(s, c)).stage != Wrong
    ensures c in s.pending ==> (WiresOf(History(s, c)).stage == Asked <==> s.box.OpensWithRequest(c))
    ensures c in s.pending ==>
              var t := Apply(k, s, Step(Abandon(c, status), None));
              t.box.Queue(c) == [] <==> WiresOf(History(s, c)).stage == Asked
  {
    hide Fold, Reachable, Apply;
    CleanAlways(k, s, c);
    CallerGrammar(k, s, c);
    if c in s.pending {
      AbandonedQuietly(k, s, c, status);
    }
  }
}
