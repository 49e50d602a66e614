/** The send queues of one session as values (outbox.go): one FIFO queue per call, a
    round-robin list of the calls that have something to send, and credit that waits
    beside the queues. Frames are kept decoded; `Wire` shows that their encoding is
    read back as these parts. */
module OutboxModel {
  import opened Basics
  import opened Wire

  datatype Outgoing = Outgoing(messageID: u32, header: Header, ctx: Bytes, body: Bytes) {
    /** The length of the encoded payload. */
    function Size(): (n: nat)
      ensures n >= HEADER_LEN
    {
      PayloadLen(header, ctx, body)
    }
  }

  datatype WaitingCredit = WaitingCredit(messageID: u32, items: u32)

  /** A sink's answer to its n-th offer of one drain. Every behaviour of every sink is
      some such function. */
  type Sink = nat -> bool

  datatype Box = Box(
    queues: map<u32, seq<Outgoing>>,
    credits: map<u32, WaitingCredit>,
    turns: seq<u32>,
    total: int,
    maxPerCall: int,
    maxTotal: int,
    quantum: int)
  {
    function Queue(call: u32): seq<Outgoing> { QueueIn(queues, call) }

    function Credit(call: u32): Option<WaitingCredit> {
      if call in credits then Some(credits[call]) else None
    }

    predicate FullFor(call: u32) { |Queue(call)| >= maxPerCall }

    predicate HasRoom(call: u32) { total < maxTotal && !FullFor(call) }

    predicate OpensWithRequest(call: u32) { Opens(Queue(call)) }

    predicate Empty() { total == 0 && credits == map[] }

    function Append(call: u32, frame: Outgoing): Box {
      this.(turns := if Queue(call) == [] then turns + [call] else turns,
            queues := queues[call := Queue(call) + [frame]],
            total := total + 1)
    }

    function Discard(call: u32): Box {
      this.(queues := queues - {call},
            credits := credits - {call},
            turns := Without(turns, call),
            total := total - |Queue(call)|)
    }

    function Grant(call: u32, messageID: u32, items: u32): Box {
      var already := if call in credits then credits[call].items else 0;
      this.(credits := credits[call := WaitingCredit(messageID, SaturatingAdd(already, items))])
    }

    function Clear(): Box {
      this.(queues := map[], credits := map[], turns := [], total := 0)
    }

    /** The structural invariant. */
    ghost predicate Valid() {
      quantum > 0 && InLine(turns, queues, total)
    }
  }

  predicate Opens(queue: seq<Outgoing>) { queue != [] && queue[0].header.kind == Request }

  /** Credit never stands in a queue. */
  predicate NoCredit(frames: seq<Outgoing>) {
    forall i :: 0 <= i < |frames| ==> frames[i].header.kind != Wire.Credit
  }

  function NewBox(maxPerCall: int, maxTotal: int, quantum: int): Box {
    Box(map[], map[], [], 0, maxPerCall, maxTotal, quantum)
  }

  function Without(turns: seq<u32>, call: u32): seq<u32> {
    if turns == [] then []
    else if turns[0] == call then Without(turns[1..], call)
    else [turns[0]] + Without(turns[1..], call)
  }

  /** The list of turns holds each call with a non-empty queue once and no other call,
      and the counter is the number of queued frames (`InLineMeans` spells this out). */
  ghost predicate InLine(turns: seq<u32>, queues: map<u32, seq<Outgoing>>, total: int) {
    if turns == [] then queues == map[] && total == 0
    else
      && turns[0] in queues && queues[turns[0]] != []
      && InLine(turns[1..], queues - {turns[0]}, total - |queues[turns[0]]|)
  }

  predicate Distinct(turns: seq<u32>) {
    forall i, j :: 0 <= i < j < |turns| ==> turns[i] != turns[j]
  }

  function QueueIn(queues: map<u32, seq<Outgoing>>, call: u32): seq<Outgoing> {
    if call in queues then queues[call] else []
  }

  /** The number of frames queued for the calls in a list. */
  function Load(turns: seq<u32>, queues: map<u32, seq<Outgoing>>): nat {
    if turns == [] then 0 else |QueueIn(queues, turns[0])| + Load(turns[1..], queues)
  }

  /** A frame the sink accepted, with the call whose queue it came from. */
  datatype Posted = Posted(call: u32, frame: Outgoing)

  function Post(call: u32, frames: seq<Outgoing>): seq<Posted> {
    if frames == [] then [] else [Posted(call, frames[0])] + Post(call, frames[1..])
  }

  /** The frames posted for one call, in order. */
  function Of(posts: seq<Posted>, call: u32): seq<Outgoing> {
    if posts == [] then []
    else if posts[0].call == call then [posts[0].frame] + Of(posts[1..], call)
    else Of(posts[1..], call)
  }

  function SizeOf(posts: seq<Posted>): nat {
    if posts == [] then 0 else posts[0].frame.Size() + SizeOf(posts[1..])
  }

  // ---------------------------------------------------------------- draining

  datatype Service = Service(count: nat, rejected: bool)

  /** One call's turn: how many frames go out before its quantum is spent, its queue is
      empty or the sink rejects. `n` numbers the next offer. */
  function Serve(queue: seq<Outgoing>, spent: nat, quantum: int, sink: Sink, n: nat): (s: Service)
    ensures s.count <= |queue|
    ensures s.rejected ==> s.count < |queue|
    decreases |queue|
  {
    if queue == [] || spent >= quantum then Service(0, false)
    else if !sink(n) then Service(0, true)
    else
      var rest := Serve(queue[1..], spent + queue[0].Size(), quantum, sink, n + 1);
      rest.(count := rest.count + 1)
  }

  datatype Drained = Drained(box: Box, sent: seq<Posted>, rejected: bool, offers: nat)

  /** The box after the call in front has sent `count` frames: it goes to the back of
      the line if it has more, and leaves the line otherwise. */
  function AfterTurn(box: Box, count: nat): Box
    requires box.turns != [] && count <= |box.Queue(box.turns[0])|
  {
    var call := box.turns[0];
    var rest := box.Queue(call)[count..];
    box.(turns := box.turns[1..] + (if rest == [] then [] else [call]),
         queues := if rest == [] then box.queues - {call} else box.queues[call := rest],
         total := box.total - count)
  }

  /** One iteration of `drainFrames`. */
  function Turn(box: Box, sink: Sink, n: nat): Drained
    requires box.turns != []
  {
    var queue := box.Queue(box.turns[0]);
    var s := Serve(queue, 0, box.quantum, sink, n);
    Drained(AfterTurn(box, s.count), Post(box.turns[0], queue[..s.count]), s.rejected,
            s.count + if s.rejected then 1 else 0)
  }

  /** `drainFrames`: turns until nothing is queued or the sink rejects. */
  function DrainFrames(box: Box, sink: Sink, n: nat): Drained
    requires box.Valid()
    decreases box.total
  {
    if box.total <= 0 || box.turns == [] then Drained(box, [], false, 0)
    else
      var t := Turn(box, sink, n);
      TurnKeepsValid(box, sink, n);
      if t.rejected then t
      else
        Prefixed(t.sent, t.offers, DrainFrames(t.box, sink, n + t.offers))
  }

  /** A drain's outcome with what happened before it put in front. */
  function Prefixed(sent: seq<Posted>, offers: nat, rest: Drained): Drained {
    Drained(rest.box, sent + rest.sent, rest.rejected, offers + rest.offers)
  }

  lemma PrefixedTwice(a: seq<Posted>, i: nat, b: seq<Posted>, j: nat, rest: Drained)
    ensures Prefixed(a, i, Prefixed(b, j, rest)) == Prefixed(a + b, i + j, rest)
  {
    assert a + (b + rest.sent) == a + b + rest.sent;
  }

  lemma PrefixedNone(rest: Drained)
    ensures Prefixed([], 0, rest) == rest
  {
    assert [] + rest.sent == rest.sent;
  }

  function CreditFrame(call: u32, waiting: WaitingCredit): Outgoing {
    Outgoing(waiting.messageID, Header(Wire.Credit, call, false, false), [], Le32(waiting.items))
  }

  /** The calls whose credit may go out: never ahead of a REQUEST still queued. */
  function ReadyCalls(box: Box): set<u32> {
    set c | c in box.credits && !box.OpensWithRequest(c)
  }

  function SendCredits(box: Box, ready: seq<u32>, sink: Sink, n: nat): Drained
    decreases |ready|
  {
    if ready == [] then Drained(box, [], false, 0)
    else if ready[0] !in box.credits then SendCredits(box, ready[1..], sink, n)
    else if !sink(n) then Drained(box, [], true, 1)
    else
      var call := ready[0];
      var rest := SendCredits(box.(credits := box.credits - {call}), ready[1..], sink, n + 1);
      Drained(rest.box, [Posted(call, CreditFrame(call, box.credits[call]))] + rest.sent, rest.rejected,
              rest.offers + 1)
  }

  function DrainCredits(box: Box, sink: Sink, n: nat): Drained {
    SendCredits(box, SortedKeys(ReadyCalls(box)), sink, n)
  }

  /** The rest of a drain once the first round of credits got through: frames, then the
      credits the frames made ready. */
  function DrainOn(first: Drained, sink: Sink): Drained
    requires first.box.Valid()
  {
    var frames := DrainFrames(first.box, sink, first.offers);
    var last := DrainCredits(frames.box, sink, first.offers + frames.offers);
    Drained(last.box, first.sent + frames.sent + last.sent, last.rejected, first.offers + frames.offers + last.offers)
  }

  /** `Drain`. */
  function Drain(box: Box, sink: Sink): Drained
    requires box.Valid()
  {
    var first := DrainCredits(box, sink, 0);
    DrainCreditsKeepsValid(box, sink, 0);
    if first.rejected then first else DrainOn(first, sink)
  }

  // ------------------------------------------------- the structural invariant

  /** What the invariant says: `turns` is duplicate-free and is exactly the set of calls
      with a non-empty queue, no queue is kept empty, and `total` is the sum of the
      queue lengths. */
  lemma {:induction false} InLineMeans(turns: seq<u32>, queues: map<u32, seq<Outgoing>>, total: int)
    requires InLine(turns, queues, total)
    ensures Distinct(turns)
    ensures forall c :: c in turns <==> c in queues
    ensures forall c :: c in queues ==> queues[c] != []
    ensures total == Load(turns, queues)
  {
    if turns != [] {
      var rest, others := turns[1..], queues - {turns[0]};
      InLineMeans(rest, others, total - |queues[turns[0]]|);
      assert total == Load(turns, queues) by {
        LoadFrame(rest, others, queues);
      }
      hide InLine, Load;
      forall c
        ensures c in turns <==> c in queues
        ensures c in queues ==> queues[c] != []
      {
        assert c in turns <==> c == turns[0] || c in rest;
        assert c != turns[0] && c in queues ==> c in others && others[c] == queues[c];
      }
      assert forall i :: 0 < i < |turns| ==> turns[i] == rest[i - 1] && turns[i] in others;
    }
  }

  /** The load of a list depends only on the queues it names. */
  lemma {:induction false} LoadFrame(turns: seq<u32>, a: map<u32, seq<Outgoing>>, b: map<u32, seq<Outgoing>>)
    requires forall c :: c in turns ==> QueueIn(a, c) == QueueIn(b, c)
    ensures Load(turns, a) == Load(turns, b)
  {
    if turns != [] {
      LoadFrame(turns[1..], a, b);
    }
  }

  /** A newcomer joins at the back. */
  lemma {:induction false} Join(turns: seq<u32>, queues: map<u32, seq<Outgoing>>, total: int, call: u32,
                                queue: seq<Outgoing>)
    requires InLine(turns, queues, total) && call !in queues && queue != []
    ensures InLine(turns + [call], queues[call := queue], total + |queue|)
  {
    var line, more := turns + [call], queues[call := queue];
    if turns == [] {
      assert line[1..] == [] && more - {call} == map[];
    } else {
      var front := turns[0];
      Join(turns[1..], queues - {front}, total - |queues[front]|, call, queue);
      assert line[1..] == turns[1..] + [call];
      assert more - {front} == (queues - {front})[call := queue];
    }
  }

  /** A call already in line gets another queue. */
  lemma {:induction false} Requeue(turns: seq<u32>, queues: map<u32, seq<Outgoing>>, total: int, call: u32,
                                   queue: seq<Outgoing>)
    requires InLine(turns, queues, total) && call in queues && queue != []
    ensures InLine(turns, queues[call := queue], total - |queues[call]| + |queue|)
  {
    var more := queues[call := queue];
    if turns != [] {
      var front := turns[0];
      if front == call {
        assert more - {call} == queues - {call};
      } else {
        Requeue(turns[1..], queues - {front}, total - |queues[front]|, call, queue);
        assert more - {front} == (queues - {front})[call := queue];
      }
    }
  }

  /** A call leaves the line, wherever it stands. */
  lemma {:induction false} Leave(turns: seq<u32>, queues: map<u32, seq<Outgoing>>, total: int, call: u32)
    requires InLine(turns, queues, total)
    ensures InLine(Without(turns, call), queues - {call}, total - |QueueIn(queues, call)|)
  {
    if turns == [] {
      assert queues - {call} == map[];
    } else {
      var front := turns[0];
      var others := queues - {front};
      if front == call {
        Absent(turns[1..], others, total - |queues[front]|, call);
      } else {
        Leave(turns[1..], others, total - |queues[front]|, call);
        var line := [front] + Without(turns[1..], call);
        assert line[1..] == Without(turns[1..], call);
        assert queues - {call} - {front} == others - {call};
      }
    }
  }

  /** A call without a queue does not stand in line. */
  lemma {:induction false} Absent(turns: seq<u32>, queues: map<u32, seq<Outgoing>>, total: int, call: u32)
    requires InLine(turns, queues, total) && call !in queues
    ensures Without(turns, call) == turns && call !in turns
  {
    if turns != [] {
      Absent(turns[1..], queues - {turns[0]}, total - |queues[turns[0]]|, call);
    }
  }

  lemma AppendKeepsValid(box: Box, call: u32, frame: Outgoing)
    requires box.Valid()
    ensures box.Append(call, frame).Valid()
  {
    var queue := box.Queue(call) + [frame];
    if call in box.queues {
      NoneEmpty(box.turns, box.queues, box.total, call);
      Requeue(box.turns, box.queues, box.total, call, queue);
    } else {
      Join(box.turns, box.queues, box.total, call, queue);
    }
  }

  lemma {:induction false} NoneEmpty(turns: seq<u32>, queues: map<u32, seq<Outgoing>>, total: int, call: u32)
    requires InLine(turns, queues, total) && call in queues
    ensures queues[call] != [] && call in turns
  {
    if turns != [] && turns[0] != call {
      NoneEmpty(turns[1..], queues - {turns[0]}, total - |queues[turns[0]]|, call);
    }
  }

  lemma DiscardKeepsValid(box: Box, call: u32)
    requires box.Valid()
    ensures box.Discard(call).Valid()
  {
    Leave(box.turns, box.queues, box.total, call);
  }

  /** The front call keeps the rest of its queue, at the back, or leaves. */
  lemma AfterTurnValid(box: Box, count: nat)
    requires box.Valid() && box.turns != [] && count <= |box.Queue(box.turns[0])|
    ensures AfterTurn(box, count).Valid()
  {
    var call := box.turns[0];
    var rest := box.Queue(call)[count..];
    if rest == [] {
      assert box.turns[1..] + [] == box.turns[1..];
    } else {
      var others := box.queues - {call};
      Join(box.turns[1..], others, box.total - |box.Queue(call)|, call, rest);
      assert others[call := rest] == box.queues[call := rest];
    }
  }

  /** A turn keeps the invariant, and unless the sink rejects it sends something. */
  lemma TurnKeepsValid(box: Box, sink: Sink, n: nat)
    requires box.Valid() && box.turns != []
    ensures Turn(box, sink, n).box.Valid()
    ensures !Turn(box, sink, n).rejected ==> 0 <= Turn(box, sink, n).box.total < box.total
    ensures Turn(box, sink, n).box.credits == box.credits
  {
    var s := Serve(box.Queue(box.turns[0]), 0, box.quantum, sink, n);
    AfterTurnValid(box, s.count);
    TotalNat(AfterTurn(box, s.count));
  }

  lemma TotalNat(box: Box)
    requires box.Valid()
    ensures box.total >= 0
  {
    InLineMeans(box.turns, box.queues, box.total);
  }

  /** Sending credits touches nothing but the waiting credits. */
  lemma {:induction false} CreditsKeepQueues(box: Box, ready: seq<u32>, sink: Sink, n: nat)
    ensures SendCredits(box, ready, sink, n).box == box.(credits := SendCredits(box, ready, sink, n).box.credits)
    decreases |ready|
  {
    if ready != [] {
      if ready[0] !in box.credits {
        CreditsKeepQueues(box, ready[1..], sink, n);
      } else if sink(n) {
        CreditsKeepQueues(box.(credits := box.credits - {ready[0]}), ready[1..], sink, n + 1);
      }
    }
  }

  lemma {:induction false} DrainFramesKeepsValid(box: Box, sink: Sink, n: nat)
    requires box.Valid()
    ensures DrainFrames(box, sink, n).box.Valid()
    ensures DrainFrames(box, sink, n).box.credits == box.credits
    decreases box.total
  {
    hide InLine, Serve, Post;
    if box.total > 0 && box.turns != [] {
      TurnKeepsValid(box, sink, n);
      var t := Turn(box, sink, n);
      if !t.rejected {
        DrainFramesKeepsValid(t.box, sink, n + t.offers);
      }
    }
  }

  lemma DrainCreditsKeepsValid(box: Box, sink: Sink, n: nat)
    ensures var d := DrainCredits(box, sink, n); d.box == box.(credits := d.box.credits)
    ensures box.Valid() ==> DrainCredits(box, sink, n).box.Valid()
  {
    CreditsKeepQueues(box, SortedKeys(ReadyCalls(box)), sink, n);
  }

  lemma DrainKeepsValid(box: Box, sink: Sink)
    requires box.Valid()
    ensures Drain(box, sink).box.Valid()
  {
    hide DrainFrames, SendCredits, InLine;
    DrainCreditsKeepsValid(box, sink, 0);
    var first := DrainCredits(box, sink, 0);
    if !first.rejected {
      DrainFramesKeepsValid(first.box, sink, first.offers);
      var frames := DrainFrames(first.box, sink, first.offers);
      DrainCreditsKeepsValid(frames.box, sink, first.offers + frames.offers);
    }
  }

  lemma {:induction false} DrainFramesKeepsCeilings(box: Box, sink: Sink, n: nat)
    requires box.Valid()
    ensures var b := DrainFrames(box, sink, n).box;
            b.maxPerCall == box.maxPerCall && b.maxTotal == box.maxTotal && b.quantum == box.quantum
    decreases box.total
  {
    if box.total > 0 && box.turns != [] {
      TurnKeepsValid(box, sink, n);
      var t := Turn(box, sink, n);
      if !t.rejected {
        DrainFramesKeepsCeilings(t.box, sink, n + t.offers);
      }
    }
  }

  lemma DrainKeepsCeilings(box: Box, sink: Sink)
    requires box.Valid()
    ensures var b := Drain(box, sink).box;
            b.maxPerCall == box.maxPerCall && b.maxTotal == box.maxTotal && b.quantum == box.quantum
  {
    hide DrainFrames, SendCredits;
    DrainCreditsKeepsValid(box, sink, 0);
    var first := DrainCredits(box, sink, 0);
    if !first.rejected {
      DrainFramesKeepsCeilings(first.box, sink, first.offers);
      var frames := DrainFrames(first.box, sink, first.offers);
      DrainCreditsKeepsValid(frames.box, sink, first.offers + frames.offers);
    }
  }
}
