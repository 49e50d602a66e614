/** `Outbox` (outbox.go), the object: its fields change in place, and every method is
    proved against the value model. */
module OutboxObject {
  import opened Basics
  import opened OutboxModel

  class Outbox {
    var queues: map<u32, seq<Outgoing>>
    var credits: map<u32, WaitingCredit>
    var turns: seq<u32>
    var total: int
    const maxPerCall: int
    const maxTotal: int
    const quantum: int

    function Value(): Box
      reads this
    {
      Box(queues, credits, turns, total, maxPerCall, maxTotal, quantum)
    }

    /** The quantum is positive because `Config.normalized` makes it so. */
    constructor (maxPerCall: int, maxTotal: int, quantum: int)
      requires quantum > 0
      ensures Value() == NewBox(maxPerCall, maxTotal, quantum)
      ensures Value().Valid()
    {
      queues, credits, turns, total := map[], map[], [], 0;
      this.maxPerCall, this.maxTotal, this.quantum := maxPerCall, maxTotal, quantum;
    }

    method append(call: u32, frame: Outgoing)
      modifies this
      ensures Value() == old(Value()).Append(call, frame)
    {
      var queue := if call in queues then queues[call] else [];
      if |queue| == 0 {
        turns := turns + [call];
      }
      queues := queues[call := queue + [frame]];
      total := total + 1;
    }

    method PushTerminal(call: u32, frame: Outgoing)
      modifies this
      ensures Value() == old(Value()).Append(call, frame)
    {
      append(call, frame);
    }

    /** A frame enters exactly when there is room, and the ceilings then still hold. */
    method Push(call: u32, frame: Outgoing) returns (ok: bool)
      modifies this
      ensures ok == old(Value().HasRoom(call))
      ensures Value() == if ok then old(Value()).Append(call, frame) else old(Value())
      ensures ok ==> total <= maxTotal && |Value().Queue(call)| <= maxPerCall
    {
      if total >= maxTotal || Value().FullFor(call) {
        return false;
      }
      append(call, frame);
      return true;
    }

    method Discard(call: u32)
      modifies this
      ensures Value() == old(Value()).Discard(call)
    {
      total := total - |Value().Queue(call)|;
      queues := queues - {call};
      credits := credits - {call};
      turns := Without(turns, call);
    }

    method Grant(call: u32, messageID: u32, items: u32)
      modifies this
      ensures Value() == old(Value()).Grant(call, messageID, items)
    {
      var already := if call in credits then credits[call].items else 0;
      credits := credits[call := WaitingCredit(messageID, SaturatingAdd(already, items))];
    }

    method Clear()
      modifies this
      ensures Value() == old(Value()).Clear()
    {
      queues, credits := map[], map[];
      turns := [];
      total := 0;
    }

    /** The inner loop of `drainFrames`: the front call's turn. */
    method serve(call: u32, sink: Sink, n: nat) returns (count: nat, rejected: bool, sent: seq<Posted>)
      requires call in queues
      modifies this`queues, this`total
      ensures Service(count, rejected) == Serve(old(queues[call]), 0, quantum, sink, n)
      ensures queues == old(queues)[call := old(queues[call])[count..]]
      ensures total == old(total) - count
      ensures sent == Post(call, old(queues[call])[..count])
    {
      hide Post, Outgoing.Size;
      ghost var queue := queues[call];
      var spent: nat := 0;
      count, rejected, sent := 0, false, [];
      assert queue[0..] == queue && queue[..0] == [];
      PostNone(call);
      assert queues == queues[call := queue];
      while spent < quantum && |queues[call]| > 0
        invariant count <= |queue|
        invariant queues == old(queues)[call := queue[count..]]
        invariant total == old(total) - count
        invariant sent == Post(call, queue[..count])
        invariant var rest := Serve(queue[count..], spent, quantum, sink, n + count);
                  Serve(queue, 0, quantum, sink, n) == rest.(count := count + rest.count)
        decreases |queue| - count
      {
        var frame := queues[call][0];
        if !sink(n + count) {
          rejected := true;
          break;
        }
        spent := spent + frame.Size();
        queues := queues[call := queues[call][1..]];
        total := total - 1;
        sent := sent + [Posted(call, frame)];
        PostGrows(call, queue, count);
        assert queue[count..][1..] == queue[count + 1..];
        count := count + 1;
      }
    }

    /** The front call's turn, which puts it at the back of the line or takes it out. */
    method rotate(sink: Sink, n: nat) returns (sent: seq<Posted>, rejected: bool, offers: nat)
      requires Value().Valid() && turns != []
      modifies this`queues, this`turns, this`total
      ensures Drained(Value(), sent, rejected, offers) == Turn(old(Value()), sink, n)
    {
      ghost var before := Value();
      var call := turns[0];
      turns := turns[1..];
      var count;
      count, rejected, sent := serve(call, sink, n);
      if |queues[call]| > 0 {
        turns := turns + [call];
      } else {
        queues := queues - {call};
      }
      FrontTurn(before, count, Value());
      offers := count + if rejected then 1 else 0;
    }

    /** One iteration of `drainFrames`, added to what went out before it. */
    method takeTurn(sink: Sink, start: nat, sofar: seq<Posted>, n: nat, ghost whole: Drained)
      returns (sent: seq<Posted>, offers: nat, rejected: bool)
      requires Draining(whole, sofar, n, Value(), sink, start) && total > 0 && turns != []
      modifies this`queues, this`turns, this`total
      ensures !rejected ==> Draining(whole, sent, offers, Value(), sink, start) && 0 <= total < old(total)
      ensures rejected ==> whole == Drained(Value(), sent, true, offers)
    {
      hide Turn, DrainFrames, InLine;
      ghost var before := Value();
      var part, used;
      part, rejected, used := rotate(sink, start + n);
      sent, offers := sofar + part, n + used;
      DrainOneTurn(whole, sofar, n, before, sink, start, Drained(Value(), part, rejected, used));
    }

    method drainFrames(sink: Sink, start: nat) returns (sent: seq<Posted>, offers: nat)
      requires Value().Valid()
      modifies this`queues, this`turns, this`total
      ensures var d := DrainFrames(old(Value()), sink, start);
              Value() == d.box && sent == d.sent && offers == d.offers
    {
      ghost var whole := DrainFrames(Value(), sink, start);
      sent, offers := [], 0;
      PrefixedNone(whole);
      while total > 0 && |turns| > 0
        invariant Draining(whole, sent, offers, Value(), sink, start)
        decreases total
      {
        var rejected;
        sent, offers, rejected := takeTurn(sink, start, sent, offers, whole);
        if rejected {
          return;
        }
      }
      assert sent + [] == sent;
    }

    method drainCredits(sink: Sink, start: nat) returns (sent: seq<Posted>, offers: nat, ok: bool)
      modifies this`credits
      ensures var d := DrainCredits(old(Value()), sink, start);
              Value() == d.box && sent == d.sent && offers == d.offers && ok == !d.rejected
    {
      var ready := SortedKeys(ReadyCalls(Value()));
      ghost var whole := SendCredits(Value(), ready, sink, start);
      sent, offers := [], 0;
      var i := 0;
      assert ready[0..] == ready;
      while i < |ready|
        invariant i <= |ready|
        invariant var rest := SendCredits(Value(), ready[i..], sink, start + offers);
                  && whole.box == rest.box && whole.sent == sent + rest.sent
                  && whole.offers == offers + rest.offers && whole.rejected == rest.rejected
      {
        var call := ready[i];
        assert ready[i..][1..] == ready[i + 1..];
        if call in credits {
          if !sink(start + offers) {
            offers := offers + 1;
            assert sent + [] == sent;
            return sent, offers, false;
          }
          var frame := Posted(call, CreditFrame(call, credits[call]));
          ghost var rest :=
            SendCredits(Value().(credits := credits - {call}), ready[i + 1..], sink, start + offers + 1);
          assert sent + ([frame] + rest.sent) == sent + [frame] + rest.sent;
          sent := sent + [frame];
          offers := offers + 1;
          credits := credits - {call};
        }
        i := i + 1;
      }
      assert sent + [] == sent;
      ok := true;
    }

    method Drain(sink: Sink) returns (sent: seq<Posted>)
      requires Value().Valid()
      modifies this
      ensures Value() == OutboxModel.Drain(old(Value()), sink).box
      ensures sent == OutboxModel.Drain(old(Value()), sink).sent
      ensures Value().Valid()
    {
      hide DrainFrames, SendCredits, Serve, OutboxModel.Drain, DrainCredits, InLine;
      ghost var v0 := Value();
      DrainKeepsValid(v0, sink);
      DrainCreditsKeepsValid(v0, sink, 0);
      var first, n, ok := drainCredits(sink, 0);
      ghost var v1 := Value();
      if !ok {
        DrainInThree(v0, v1, v1, sink);
        return first;
      }
      var frames, m := drainFrames(sink, n);
      ghost var v2 := Value();
      var last, _, _ := drainCredits(sink, n + m);
      sent := first + frames + last;
      DrainInThree(v0, v1, v2, sink);
    }
  }

  /** A drain is its first credits, and unless those met a rejection, frames and credits
      again. */
  lemma DrainInThree(v0: Box, v1: Box, v2: Box, sink: Sink)
    requires v0.Valid() && v1.Valid() && v1 == DrainCredits(v0, sink, 0).box
    requires !DrainCredits(v0, sink, 0).rejected ==>
               v2 == DrainFrames(v1, sink, DrainCredits(v0, sink, 0).offers).box
    ensures DrainCredits(v0, sink, 0).rejected ==> OutboxModel.Drain(v0, sink) == DrainCredits(v0, sink, 0)
    ensures !DrainCredits(v0, sink, 0).rejected ==>
              var first := DrainCredits(v0, sink, 0);
              var frames := DrainFrames(v1, sink, first.offers);
              var last := DrainCredits(v2, sink, first.offers + frames.offers);
              && OutboxModel.Drain(v0, sink).box == last.box
              && OutboxModel.Drain(v0, sink).sent == first.sent + frames.sent + last.sent
  {
  }

  /** `whole` is what has gone out so far, followed by a drain of the present box. */
  ghost predicate Draining(whole: Drained, sent: seq<Posted>, offers: nat, box: Box, sink: Sink, start: nat) {
    box.Valid() && whole == Prefixed(sent, offers, DrainFrames(box, sink, start + offers))
  }

  /** One turn of a drain under way: it goes on from the box the turn left, or ends there. */
  lemma DrainOneTurn(whole: Drained, sofar: seq<Posted>, n: nat, box: Box, sink: Sink, start: nat, t: Drained)
    requires Draining(whole, sofar, n, box, sink, start) && box.total > 0 && box.turns != []
    requires t == Turn(box, sink, start + n)
    ensures !t.rejected ==>
            Draining(whole, sofar + t.sent, n + t.offers, t.box, sink, start) && 0 <= t.box.total < box.total
    ensures t.rejected ==> whole == Drained(t.box, sofar + t.sent, true, n + t.offers)
  {
    TurnKeepsValid(box, sink, start + n);
    if !t.rejected {
      PrefixedTwice(sofar, n, t.sent, t.offers, DrainFrames(t.box, sink, start + n + t.offers));
    }
  }

  lemma PostNone(call: u32)
    ensures Post(call, []) == []
  {
  }

  lemma {:induction false} PostGrows(call: u32, queue: seq<Outgoing>, count: nat)
    requires count < |queue|
    ensures Post(call, queue[..count + 1]) == Post(call, queue[..count]) + [Posted(call, queue[count])]
  {
    if count == 0 {
      assert queue[..1] == [queue[0]] && queue[..0] == [];
    } else {
      var tail := queue[1..];
      PostGrows(call, tail, count - 1);
      assert queue[..count + 1][1..] == tail[..count] && queue[..count][1..] == tail[..count - 1];
      var head := [Posted(call, queue[0])];
      assert head + (Post(call, tail[..count - 1]) + [Posted(call, queue[count])])
          == head + Post(call, tail[..count - 1]) + [Posted(call, queue[count])];
    }
  }

  /** Popping the front call and putting it back behind the others is one `Turn`. */
  lemma FrontTurn(before: Box, count: nat, after: Box)
    requires before.Valid() && before.turns != [] && count <= |before.Queue(before.turns[0])|
    requires var call := before.turns[0];
             var rest := before.queues[call][count..];
             && after.queues ==
                (if rest == [] then before.queues[call := rest] - {call} else before.queues[call := rest])
             && after.turns == (if rest == [] then before.turns[1..] else before.turns[1..] + [call])
    requires after == before.(queues := after.queues, turns := after.turns, total := before.total - count)
    ensures after == AfterTurn(before, count)
  {
    var call := before.turns[0];
    assert before.queues[call := before.queues[call][count..]] - {call} == before.queues - {call};
    assert before.turns[1..] + [] == before.turns[1..];
  }
}
