/** The outbox refines a plain map of FIFO queues: whatever the sink accepts or rejects,
    what went out for a call followed by what is still queued for it is its queue from
    before the drain. Waiting credit goes out at most once, beside the queue. */
module OutboxRefinement {
  import opened Basics
  import opened OutboxModel

  lemma {:induction false} OfConcat(a: seq<Posted>, b: seq<Posted>, call: u32)
    ensures Of(a + b, call) == Of(a, call) + Of(b, call)
  {
    if a == [] {
      assert a + b == b;
    } else {
      OfConcat(a[1..], b, call);
      assert (a + b)[0] == a[0] && (a + b)[1..] == a[1..] + b;
      if a[0].call == call {
        assert [a[0].frame] + (Of(a[1..], call) + Of(b, call)) == [a[0].frame] + Of(a[1..], call) + Of(b, call);
      }
    }
  }

  lemma {:induction false} OfPost(owner: u32, frames: seq<Outgoing>, call: u32)
    ensures Of(Post(owner, frames), call) == if call == owner then frames else []
  {
    if frames != [] {
      OfPost(owner, frames[1..], call);
      assert Post(owner, frames)[1..] == Post(owner, frames[1..]);
    }
  }

  /** What went out for a call, and what it has left. */
  ghost predicate Moves(box: Box, d: Drained, call: u32) {
    && Of(d.sent, call) + d.box.Queue(call) == box.Queue(call)
    && d.box.Credit(call) == box.Credit(call)
  }

  /** One turn moves a prefix of one queue and leaves every other queue alone. */
  lemma TurnRefines(box: Box, sink: Sink, n: nat, call: u32)
    requires box.Valid() && box.turns != []
    ensures Moves(box, Turn(box, sink, n), call)
  {
    var front := box.turns[0];
    var queue := box.Queue(front);
    var s := Serve(queue, 0, box.quantum, sink, n);
    OfPost(front, queue[..s.count], call);
    assert queue[..s.count] + queue[s.count..] == queue;
  }

  lemma Relay(a: Box, t: Drained, rest: Drained, d: Drained, call: u32)
    requires Moves(a, t, call) && Moves(t.box, rest, call)
    requires d.box == rest.box && d.sent == t.sent + rest.sent
    ensures Moves(a, d, call)
  {
    OfConcat(t.sent, rest.sent, call);
    var x, y, z := Of(t.sent, call), Of(rest.sent, call), rest.box.Queue(call);
    assert x + y + z == x + (y + z);
  }

  /** `drainFrames`, for every behaviour of the sink. */
  lemma {:induction false} DrainFramesRefines(box: Box, sink: Sink, n: nat, call: u32)
    requires box.Valid()
    ensures Moves(box, DrainFrames(box, sink, n), call)
    decreases box.total
  {
    hide Turn, InLine, Of;
    var d := DrainFrames(box, sink, n);
    if box.total > 0 && box.turns != [] {
      TurnKeepsValid(box, sink, n);
      TurnRefines(box, sink, n, call);
      var t := Turn(box, sink, n);
      if !t.rejected {
        DrainFramesRefines(t.box, sink, n + t.offers, call);
        Relay(box, t, DrainFrames(t.box, sink, n + t.offers), d, call);
      }
    } else {
      NothingPosted(box, call);
    }
  }

  lemma NothingPosted(box: Box, call: u32)
    ensures Moves(box, Drained(box, [], false, 0), call)
  {
    NothingAdded(box.Queue(call));
  }

  /** A drain that meets no rejection leaves no frame behind. */
  lemma {:induction false} DrainFramesEmpties(box: Box, sink: Sink, n: nat)
    requires box.Valid()
    ensures !DrainFrames(box, sink, n).rejected ==>
              DrainFrames(box, sink, n).box.total == 0 && DrainFrames(box, sink, n).box.queues == map[]
    decreases box.total
  {
    hide InLine, Serve, Post;
    if box.total <= 0 || box.turns == [] {
      InLineMeans(box.turns, box.queues, box.total);
    } else {
      TurnKeepsValid(box, sink, n);
      var t := Turn(box, sink, n);
      if !t.rejected {
        DrainFramesEmpties(t.box, sink, n + t.offers);
      }
    }
  }

  /** What one drain does to one call: a credit ahead of the queue, `count` frames off
      its head, a credit behind them. */
  datatype Share = Share(before: bool, count: nat, after: bool)

  function Tell(credit: Option<WaitingCredit>, call: u32, sent: bool): seq<Outgoing> {
    if sent && credit.Some? then [CreditFrame(call, credit.value)] else []
  }

  /** Credit of one call: sent whole and once, or still waiting; the queues stay. */
  ghost predicate Tells(box: Box, d: Drained, call: u32, sent: bool) {
    && Of(d.sent, call) == Tell(box.Credit(call), call, sent)
    && d.box.Queue(call) == box.Queue(call)
    && d.box.Credit(call) == (if sent then None else box.Credit(call))
    && (sent ==> box.Credit(call).Some?)
  }

  lemma {:induction false} SendCreditsRefines(box: Box, ready: seq<u32>, sink: Sink, n: nat, call: u32)
    returns (sent: bool)
    ensures Tells(box, SendCredits(box, ready, sink, n), call, sent)
    ensures sent ==> call in ready
    decreases |ready|
  {
    sent := false;
    if ready != [] {
      if ready[0] !in box.credits {
        sent := SendCreditsRefines(box, ready[1..], sink, n, call);
      } else if sink(n) {
        var next := box.(credits := box.credits - {ready[0]});
        sent := SendCreditsRefines(next, ready[1..], sink, n + 1, call);
        var rest := SendCredits(next, ready[1..], sink, n + 1);
        var head := Posted(ready[0], CreditFrame(ready[0], box.credits[ready[0]]));
        assert ([head] + rest.sent)[1..] == rest.sent;
        if ready[0] == call {
          assert Of(rest.sent, call) == [];
          sent := true;
        }
      }
    }
  }

  lemma CreditStage(box: Box, sink: Sink, n: nat, call: u32) returns (sent: bool)
    ensures Tells(box, DrainCredits(box, sink, n), call, sent)
    ensures sent ==> !Opens(box.Queue(call))
  {
    sent := SendCreditsRefines(box, SortedKeys(ReadyCalls(box)), sink, n, call);
    SortedKeysHas(ReadyCalls(box), call);
  }

  /** The per-call meaning of a drain, as a relation between what one call had, what went
      out for it, and what it has left. */
  ghost predicate Shares(call: u32, queue: seq<Outgoing>, credit: Option<WaitingCredit>, sent: seq<Outgoing>,
                         queue': seq<Outgoing>, credit': Option<WaitingCredit>, s: Share)
  {
    && s.count <= |queue|
    && sent == Tell(credit, call, s.before) + queue[..s.count] + Tell(credit, call, s.after)
    && queue' == queue[s.count..]
    && credit' == (if s.before || s.after then None else credit)
    && (s.before ==> credit.Some? && !Opens(queue))
    && (s.after ==> credit.Some? && !s.before && !Opens(queue'))
  }

  /** Three stages in a row. */
  lemma Assemble(box: Box, a: Drained, b: Drained, c: Drained, sent: seq<Posted>, call: u32, before: bool, after: bool)
    returns (s: Share)
    requires Tells(box, a, call, before) && Moves(a.box, b, call) && Tells(b.box, c, call, after)
    requires before ==> !Opens(box.Queue(call))
    requires after ==> !Opens(b.box.Queue(call))
    requires sent == a.sent + b.sent + c.sent
    ensures Shares(call, box.Queue(call), box.Credit(call), Of(sent, call), c.box.Queue(call), c.box.Credit(call), s)
  {
    OfConcat(a.sent + b.sent, c.sent, call);
    OfConcat(a.sent, b.sent, call);
    var queue, prefix, rest := box.Queue(call), Of(b.sent, call), b.box.Queue(call);
    s := Share(before, |prefix|, after);
    assert queue == prefix + rest;
    assert queue[..|prefix|] == prefix && queue[|prefix|..] == rest;
  }

  lemma DrainOnRefines(box: Box, first: Drained, sink: Sink, call: u32, before: bool) returns (s: Share)
    requires first.box.Valid() && Tells(box, first, call, before)
    requires before ==> !Opens(box.Queue(call))
    ensures var d := DrainOn(first, sink);
            Shares(call, box.Queue(call), box.Credit(call), Of(d.sent, call), d.box.Queue(call), d.box.Credit(call), s)
  {
    DrainFramesRefines(first.box, sink, first.offers, call);
    var frames := DrainFrames(first.box, sink, first.offers);
    var after := CreditStage(frames.box, sink, first.offers + frames.offers, call);
    var last := DrainCredits(frames.box, sink, first.offers + frames.offers);
    s := Assemble(box, first, frames, last, DrainOn(first, sink).sent, call, before, after);
  }

  lemma OnlyCredits(box: Box, first: Drained, call: u32, before: bool) returns (s: Share)
    requires Tells(box, first, call, before) && (before ==> !Opens(box.Queue(call)))
    ensures Shares(call, box.Queue(call), box.Credit(call), Of(first.sent, call), first.box.Queue(call),
                   first.box.Credit(call), s)
  {
    s := Share(before, 0, false);
    var told := Tell(box.Credit(call), call, before);
    assert told + box.Queue(call)[..0] + [] == told;
  }

  /** `Drain` refines the per-call queues and never lets a CREDIT overtake the REQUEST
      of its own call. */
  lemma DrainRefines(box: Box, sink: Sink, call: u32) returns (s: Share)
    requires box.Valid()
    ensures var d := Drain(box, sink);
            Shares(call, box.Queue(call), box.Credit(call), Of(d.sent, call), d.box.Queue(call), d.box.Credit(call), s)
  {
    var before := CreditStage(box, sink, 0, call);
    DrainCreditsKeepsValid(box, sink, 0);
    var first := DrainCredits(box, sink, 0);
    if first.rejected {
      s := OnlyCredits(box, first, call, before);
    } else {
      s := DrainOnRefines(box, first, sink, call, before);
    }
  }

  // ------------------------------------------------------------ when a drain stops

  /** Of the offers from the n-th on, those accepted are what was sent, and the one behind
      them was rejected if the stage says so. */
  ghost predicate Offered(d: Drained, sink: Sink, n: nat) {
    && d.offers == |d.sent| + (if d.rejected then 1 else 0)
    && (forall i: nat :: n <= i < n + |d.sent| ==> sink(i))
    && (d.rejected ==> !sink(n + |d.sent|))
  }

  lemma OfferedOn(a: Drained, b: Drained, sink: Sink, n: nat)
    requires Offered(a, sink, n) && !a.rejected && Offered(b, sink, n + a.offers)
    ensures Offered(Prefixed(a.sent, a.offers, b), sink, n)
  {
  }

  lemma {:induction false} ServeOffers(queue: seq<Outgoing>, spent: nat, quantum: int, sink: Sink, n: nat)
    ensures var s := Serve(queue, spent, quantum, sink, n);
            (forall i: nat :: n <= i < n + s.count ==> sink(i)) && (s.rejected ==> !sink(n + s.count))
    decreases |queue|
  {
    if queue != [] && spent < quantum && sink(n) {
      ServeOffers(queue[1..], spent + queue[0].Size(), quantum, sink, n + 1);
    }
  }

  lemma {:induction false} PostLength(call: u32, frames: seq<Outgoing>)
    ensures |Post(call, frames)| == |frames|
  {
    if frames != [] {
      PostLength(call, frames[1..]);
    }
  }

  lemma TurnOffers(box: Box, sink: Sink, n: nat)
    requires box.turns != []
    ensures Offered(Turn(box, sink, n), sink, n)
  {
    var queue := box.Queue(box.turns[0]);
    ServeOffers(queue, 0, box.quantum, sink, n);
    PostLength(box.turns[0], queue[..Serve(queue, 0, box.quantum, sink, n).count]);
  }

  lemma {:induction false} FramesOffered(box: Box, sink: Sink, n: nat)
    requires box.Valid()
    ensures Offered(DrainFrames(box, sink, n), sink, n)
    decreases box.total
  {
    hide Turn, InLine, Offered;
    if box.total <= 0 || box.turns == [] {
      NothingOffered(box, sink, n);
    } else {
      TurnKeepsValid(box, sink, n);
      TurnOffers(box, sink, n);
      var t := Turn(box, sink, n);
      if !t.rejected {
        FramesOffered(t.box, sink, n + t.offers);
        OfferedOn(t, DrainFrames(t.box, sink, n + t.offers), sink, n);
      }
    }
  }

  lemma NothingOffered(box: Box, sink: Sink, n: nat)
    ensures Offered(Drained(box, [], false, 0), sink, n)
  {
  }

  lemma {:induction false} CreditsOffered(box: Box, ready: seq<u32>, sink: Sink, n: nat)
    ensures var d := SendCredits(box, ready, sink, n);
            && Offered(d, sink, n)
            && d.box == box.(credits := d.box.credits)
            && (forall c :: c in d.box.credits ==> c in box.credits)
            && (!d.rejected ==> forall c :: c in ready ==> c !in d.box.credits)
    decreases |ready|
  {
    if ready != [] {
      if ready[0] !in box.credits {
        CreditsOffered(box, ready[1..], sink, n);
      } else if sink(n) {
        CreditsOffered(box.(credits := box.credits - {ready[0]}), ready[1..], sink, n + 1);
      }
    }
  }

  lemma StageOffered(box: Box, sink: Sink, n: nat)
    ensures var d := DrainCredits(box, sink, n);
            && Offered(d, sink, n) && d.box == box.(credits := d.box.credits)
            && (!d.rejected ==> ReadyCalls(d.box) == {})
  {
    hide Offered;
    var d := DrainCredits(box, sink, n);
    CreditsOffered(box, SortedKeys(ReadyCalls(box)), sink, n);
    forall c | c in ReadyCalls(box)
      ensures c in SortedKeys(ReadyCalls(box))
    {
      SortedKeysHas(ReadyCalls(box), c);
    }
    assert forall c :: c in ReadyCalls(d.box) ==> c in ReadyCalls(box);
  }

  /** A drain goes on as far as the sink lets it. Its three stages send exactly what the sink
      accepts of what they offer, and each stops only at a rejection: otherwise no credit is
      left that may go out, and no frame is left at all. Only a rejection in the first stage
      ends the drain. */
  lemma DrainStops(box: Box, sink: Sink) returns (first: Drained, frames: Drained, last: Drained)
    requires box.Valid()
    ensures Offered(first, sink, 0) && first.box == box.(credits := first.box.credits)
    ensures !first.rejected ==> ReadyCalls(first.box) == {}
    ensures first.rejected ==> Drain(box, sink).sent == first.sent && Drain(box, sink).box == first.box
    ensures !first.rejected ==>
              && Drain(box, sink).sent == first.sent + frames.sent + last.sent && Drain(box, sink).box == last.box
              && Offered(frames, sink, first.offers) && frames.box.credits == first.box.credits
              && (!frames.rejected ==> frames.box.queues == map[])
              && Offered(last, sink, first.offers + frames.offers)
              && last.box == frames.box.(credits := last.box.credits)
              && (!last.rejected ==> ReadyCalls(last.box) == {})
  {
    hide DrainCredits, DrainFrames, Offered, ReadyCalls, InLine;
    first := DrainCredits(box, sink, 0);
    StageOffered(box, sink, 0);
    DrainCreditsKeepsValid(box, sink, 0);
    frames := DrainFrames(first.box, sink, first.offers);
    FramesOffered(first.box, sink, first.offers);
    DrainFramesEmpties(first.box, sink, first.offers);
    DrainFramesKeepsValid(first.box, sink, first.offers);
    last := DrainCredits(frames.box, sink, first.offers + frames.offers);
    StageOffered(frames.box, sink, first.offers + frames.offers);
  }
}
