/** What a drain into an obliging sink sends, and when a CREDIT overtakes the REQUEST of its
    own call: exactly when an older frame of the same id is queued in front of it. */
module Overtaking {
  import opened Basics
  import opened Wire
  import opened OutboxModel
  import opened OutboxRefinement

  /** A sink that accepts whatever it is offered. */
  ghost predicate Obliging(sink: Sink) { forall n: nat :: sink(n) }

  lemma {:induction false} ObligingServe(queue: seq<Outgoing>, spent: nat, quantum: int, sink: Sink, n: nat)
    requires Obliging(sink)
    ensures !Serve(queue, spent, quantum, sink, n).rejected
    decreases |queue|
  {
    if queue != [] && spent < quantum {
      ObligingServe(queue[1..], spent + queue[0].Size(), quantum, sink, n + 1);
    }
  }

  lemma {:induction false} ObligingFrames(box: Box, sink: Sink, n: nat)
    requires box.Valid() && Obliging(sink)
    ensures !DrainFrames(box, sink, n).rejected
    decreases box.total
  {
    hide Obliging, InLine, Serve;
    if box.total > 0 && box.turns != [] {
      TurnKeepsValid(box, sink, n);
      ObligingServe(box.Queue(box.turns[0]), 0, box.quantum, sink, n);
      var t := Turn(box, sink, n);
      ObligingFrames(t.box, sink, n + t.offers);
    }
  }

  lemma {:induction false} ObligingCredits(box: Box, ready: seq<u32>, sink: Sink, n: nat, call: u32)
    requires Obliging(sink)
    ensures var d := SendCredits(box, ready, sink, n);
            !d.rejected && Tells(box, d, call, call in ready && call in box.credits)
    decreases |ready|
  {
    if ready != [] {
      if ready[0] !in box.credits {
        ObligingCredits(box, ready[1..], sink, n, call);
      } else {
        var next := box.(credits := box.credits - {ready[0]});
        ObligingCredits(next, ready[1..], sink, n + 1, call);
        var rest := SendCredits(next, ready[1..], sink, n + 1);
        var head := Posted(ready[0], CreditFrame(ready[0], box.credits[ready[0]]));
        assert ([head] + rest.sent)[1..] == rest.sent;
      }
    }
  }

  lemma ObligingStage(box: Box, sink: Sink, n: nat, call: u32)
    requires Obliging(sink)
    ensures var d := DrainCredits(box, sink, n);
            !d.rejected && Tells(box, d, call, box.Credit(call).Some? && !Opens(box.Queue(call)))
  {
    hide Obliging, SendCredits, Tells;
    ObligingCredits(box, SortedKeys(ReadyCalls(box)), sink, n, call);
    SortedKeysHas(ReadyCalls(box), call);
  }

  /** What a drain into an obliging sink sends for a call: all of its queue, its credit
      behind it if the queue opens with a REQUEST, and in front of it otherwise. */
  lemma ObligingDrain(box: Box, sink: Sink, call: u32)
    requires box.Valid() && Obliging(sink)
    ensures var queue, credit := box.Queue(call), box.Credit(call);
            Of(Drain(box, sink).sent, call)
            == Tell(credit, call, !Opens(queue)) + queue + Tell(credit, call, Opens(queue))
  {
    hide Obliging, SendCredits, DrainFrames, InLine, Of, SortedKeys;
    ObligingStage(box, sink, 0, call);
    DrainCreditsKeepsValid(box, sink, 0);
    var first := DrainCredits(box, sink, 0);
    DrainFramesRefines(first.box, sink, first.offers, call);
    ObligingFrames(first.box, sink, first.offers);
    DrainFramesEmpties(first.box, sink, first.offers);
    var frames := DrainFrames(first.box, sink, first.offers);
    NothingAdded(Of(frames.sent, call));
    ObligingStage(frames.box, sink, first.offers + frames.offers, call);
    var last := DrainCredits(frames.box, sink, first.offers + frames.offers);
    OfConcat(first.sent + frames.sent, last.sent, call);
    OfConcat(first.sent, frames.sent, call);
  }

  /** Exactly when a waiting CREDIT goes out ahead of the queue: when the queue does not
      open with the REQUEST. */
  lemma CreditOvertakesExactly(box: Box, sink: Sink, call: u32)
    requires box.Valid() && Obliging(sink) && call in box.credits && NoCredit(box.Queue(call))
    ensures var out := Of(Drain(box, sink).sent, call);
            out != [] && (out[0].header.kind == Kind.Credit <==> !box.OpensWithRequest(call))
  {
    hide Drain, Obliging;
    ObligingDrain(box, sink, call);
  }
}
