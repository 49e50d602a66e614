/** Two cores over two lossless first-in first-out links, in any interleaving. */
module Duplex {
  import opened Basics
  import opened Wire
  import opened OutboxModel
  import opened Session
  import opened CoreModel
  import opened Histories
  import opened Ledger
  import opened Flows
  import opened Chains
  import opened Traces

  /** A frame as the peer receives it: encoded, carried and decoded again. */
  function Received(k: Setup, f: Outgoing): Message {
    match Decode(Encode(f.header, f.ctx, f.body), k.config.maxCtxLen)
    case Ok(p) => Frame(Outgoing(f.messageID, p.header, p.ctx, p.body))
    case Err(_) => Garbled(f.header.call)
  }

  function ReceivedAll(k: Setup, frames: seq<Outgoing>): seq<Message> {
    if frames == [] then [] else [Received(k, frames[0])] + ReceivedAll(k, frames[1..])
  }

  /** `ab` and `ba` are the frames under way. */
  datatype Sys = Sys(a: State, b: State, ab: seq<Outgoing>, ba: seq<Outgoing>)

  datatype Duo = Duo(a: Setup, b: Setup) {
    /** The two sides allocate ids of different parity, and what either side inflates is
        what the other side squeezed. */
    ghost predicate Agreed() {
      && a.role != b.role
      && Undoes(a, b) && Undoes(b, a)
      && a.config.schedulerQuantum > 0 && b.config.schedulerQuantum > 0
    }

    function Start(): Sys { Sys(Initial(a), Initial(b), [], []) }
  }

  ghost predicate Undoes(receiver: Setup, sender: Setup) {
    receiver.compressor.Some? && sender.compressor.Some? ==>
      forall body: Bytes, limit: int ::
        sender.compressor.value.compress(body).Some? ==>
          Unsqueezed(receiver.compressor.value, sender.compressor.value.compress(body).value, limit, body)
  }

  predicate Unsqueezed(c: Compressor, squeezed: Bytes, limit: int, body: Bytes) {
    var e := c.decompress(squeezed, limit);
    e.Body? ==> e.bytes == body
  }

  /** One side moves: it works on its own, or takes the oldest frame under way to it. What
      its sink accepts is under way from then on. */
  ghost predicate Goes(k: Setup, s: State, t: State, into: seq<Outgoing>, into': seq<Outgoing>,
                       out: seq<Outgoing>, out': seq<Outgoing>)
  {
    && (|| (into' == into && Chained(k, s, t, []))
        || (into != [] && into' == into[1..] && Chained(k, s, t, [Received(k, into[0])])))
    && |s.trace| <= |t.trace|
    && out' == out + FramesOf(PostsIn(t.trace[|s.trace|..]))
  }

  ghost predicate Moved(duo: Duo, s: Sys, t: Sys) {
    || (t.b == s.b && Goes(duo.a, s.a, t.a, s.ba, t.ba, s.ab, t.ab))
    || (t.a == s.a && Goes(duo.b, s.b, t.b, s.ab, t.ab, s.ba, t.ba))
  }

  /** A run of the two cores. */
  ghost predicate Run(duo: Duo, run: seq<Sys>) {
    && run != [] && run[0] == duo.Start()
    && forall i :: 0 < i < |run| ==> Moved(duo, run[i - 1], run[i])
  }

  // -------------------------------------------------------- first in, first out

  lemma {:induction false} ReceivedConcat(k: Setup, a: seq<Outgoing>, b: seq<Outgoing>)
    ensures ReceivedAll(k, a + b) == ReceivedAll(k, a) + ReceivedAll(k, b)
  {
    hide Received;
    if a == [] {
      assert a + b == b;
    } else {
      ReceivedConcat(k, a[1..], b);
      assert (a + b)[0] == a[0] && (a + b)[1..] == a[1..] + b;
      Regroup([Received(k, a[0])], ReceivedAll(k, a[1..]), ReceivedAll(k, b));
    }
  }

  lemma {:induction false} FramesOfConcat(a: seq<Posted>, b: seq<Posted>)
    ensures FramesOf(a + b) == FramesOf(a) + FramesOf(b)
  {
    if a == [] {
      assert a + b == b;
    } else {
      FramesOfConcat(a[1..], b);
      assert (a + b)[0] == a[0] && (a + b)[1..] == a[1..] + b;
      Regroup([a[0].frame], FramesOf(a[1..]), FramesOf(b));
    }
  }

  /** What is under way is the last of what was sent, and the rest has been heard. */
  ghost predicate Delivered(k: Setup, heard: seq<Message>, link: seq<Outgoing>, sent: seq<Outgoing>) {
    var n := |sent| - |link|;
    n >= 0 && sent[n..] == link && heard == ReceivedAll(k, sent[..n])
  }

  /** The oldest frame under way is heard. */
  lemma DeliveredOne(k: Setup, heard: seq<Message>, link: seq<Outgoing>, sent: seq<Outgoing>)
    requires Delivered(k, heard, link, sent) && link != []
    ensures Delivered(k, heard + [Received(k, link[0])], link[1..], sent)
  {
    hide Received;
    var n := |sent| - |link|;
    assert sent[..n + 1] == sent[..n] + [link[0]];
    ReceivedConcat(k, sent[..n], [link[0]]);
    assert [link[0]][1..] == [];
    assert ReceivedAll(k, [link[0]]) == [Received(k, link[0])];
  }

  /** Further frames are sent. */
  lemma DeliveredMore(k: Setup, heard: seq<Message>, link: seq<Outgoing>, sent: seq<Outgoing>, more: seq<Outgoing>)
    requires Delivered(k, heard, link, sent)
    ensures Delivered(k, heard, link + more, sent + more)
  {
    var n := |sent| - |link|;
    assert (sent + more)[n..] == link + more && (sent + more)[..n] == sent[..n];
  }

  /** One side has heard, of what the other sent, all but what is under way. */
  ghost predicate Carried(k: Setup, to: State, from: State, link: seq<Outgoing>) {
    Delivered(k, MessagesIn(to.trace), link, FramesOf(PostsIn(from.trace)))
  }

  lemma CarriedByReceiver(k: Setup, s: State, t: State, into: seq<Outgoing>, into': seq<Outgoing>,
                          out: seq<Outgoing>, out': seq<Outgoing>, from: State)
    requires Carried(k, s, from, into) && Goes(k, s, t, into, into', out, out')
    ensures Carried(k, t, from, into')
  {
    hide Chained, Received, Delivered, MessagesIn, PostsIn, FramesOf;
    var more := t.trace[|s.trace|..];
    var heard := if into' == into && Chained(k, s, t, []) then [] else [Received(k, into[0])];
    ChainTrace(k, s, t, heard);
    assert t.trace == s.trace + more;
    MessagesConcat(s.trace, more);
    NothingAdded(MessagesIn(s.trace));
    if heard != [] {
      DeliveredOne(k, MessagesIn(s.trace), into, FramesOf(PostsIn(from.trace)));
    }
  }

  lemma CarriedBySender(k: Setup, s: State, t: State, into: seq<Outgoing>, into': seq<Outgoing>,
                        out: seq<Outgoing>, out': seq<Outgoing>, other: Setup, to: State)
    requires Carried(other, to, s, out) && Goes(k, s, t, into, into', out, out')
    ensures Carried(other, to, t, out')
  {
    hide Chained, Received, Delivered, MessagesIn, PostsIn, FramesOf;
    var more := t.trace[|s.trace|..];
    var heard := if into' == into && Chained(k, s, t, []) then [] else [Received(k, into[0])];
    ChainTrace(k, s, t, heard);
    assert t.trace == s.trace + more;
    PostsConcat(s.trace, more);
    FramesOfConcat(PostsIn(s.trace), PostsIn(more));
    DeliveredMore(other, MessagesIn(to.trace), out, FramesOf(PostsIn(s.trace)), FramesOf(PostsIn(more)));
  }

  ghost predicate Sound(duo: Duo, s: Sys) {
    && Reachable(duo.a, s.a) && Reachable(duo.b, s.b)
    && Carried(duo.a, s.a, s.b, s.ba) && Carried(duo.b, s.b, s.a, s.ab)
  }

  lemma SoundMove(duo: Duo, s: Sys, t: Sys)
    requires Sound(duo, s) && Moved(duo, s, t)
    ensures Sound(duo, t)
  {
    hide Reachable, Carried;
    if t.b == s.b && Goes(duo.a, s.a, t.a, s.ba, t.ba, s.ab, t.ab) {
      CarriedByReceiver(duo.a, s.a, t.a, s.ba, t.ba, s.ab, t.ab, s.b);
      CarriedBySender(duo.a, s.a, t.a, s.ba, t.ba, s.ab, t.ab, duo.b, s.b);
    } else {
      CarriedByReceiver(duo.b, s.b, t.b, s.ab, t.ab, s.ba, t.ba, s.a);
      CarriedBySender(duo.b, s.b, t.b, s.ab, t.ab, s.ba, t.ba, duo.a, s.a);
    }
  }

  lemma FreshTrace(k: Setup)
    ensures MessagesIn(Initial(k).trace) == [] && FramesOf(PostsIn(Initial(k).trace)) == []
  {
  }

  lemma AtFirst(duo: Duo)
    ensures Carried(duo.a, Initial(duo.a), Initial(duo.b), []) && Carried(duo.b, Initial(duo.b), Initial(duo.a), [])
  {
    hide Received;
    FreshTrace(duo.a);
    FreshTrace(duo.b);
    hide Initial;
  }

  /** In every state of every run both cores are in a state of a run of their own, and the
      links lose, repeat and reorder nothing. */
  lemma {:induction false} SoundAlways(duo: Duo, run: seq<Sys>, i: nat)
    requires duo.Agreed() && Run(duo, run) && i < |run|
    ensures Sound(duo, run[i])
    decreases i
  {
    hide Moved, Undoes, Reachable, Initial;
    if i == 0 {
      AtFirst(duo);
      InitialReachable(duo.a);
      InitialReachable(duo.b);
    } else {
      SoundAlways(duo, run, i - 1);
      SoundMove(duo, run[i - 1], run[i]);
    }
  }

  // --------------------------------------------------------------- one call's part

  lemma ReceivedCall(k: Setup, f: Outgoing)
    ensures Received(k, f).Call() == f.header.call
    ensures var m := Received(k, f);
            m.Frame? ==>
              && m.frame.header == f.header
              && (!f.header.hasCtx ==> m.frame.body == f.body)
              && (f.header.hasCtx ==> f.header.kind == Request)
  {
    hide Word;
    EncodedHead(f.header, f.ctx, f.body);
    KindRoundTrip(f.header.kind);
    var p := Encode(f.header, f.ctx, f.body);
    if !f.header.hasCtx {
      assert p[HEADER_LEN..] == f.body;
    }
  }

  lemma ReceivedBare(k: Setup, f: Outgoing)
    requires Bare(f)
    ensures Received(k, f) == Frame(f)
  {
    hide Encode, Decode;
    DecodeEncode(f.header, f.ctx, f.body, k.config.maxCtxLen);
  }

  lemma {:induction false} UnderConcat(a: seq<Outgoing>, b: seq<Outgoing>, c: u32)
    ensures Under(a + b, c) == Under(a, c) + Under(b, c)
  {
    if a == [] {
      assert a + b == b;
    } else {
      UnderConcat(a[1..], b, c);
      assert (a + b)[0] == a[0] && (a + b)[1..] == a[1..] + b;
      Regroup(if a[0].header.call == c then [a[0]] else [], Under(a[1..], c), Under(b, c));
    }
  }

  lemma {:induction false} AboutReceived(k: Setup, frames: seq<Outgoing>, c: u32)
    ensures About(ReceivedAll(k, frames), c) == ReceivedAll(k, Under(frames, c))
  {
    hide Received;
    if frames != [] {
      AboutReceived(k, frames[1..], c);
      ReceivedCall(k, frames[0]);
      var all := ReceivedAll(k, frames);
      assert all[1..] == ReceivedAll(k, frames[1..]);
      assert ([frames[0]] + Under(frames[1..], c))[1..] == Under(frames[1..], c);
      NothingAdded(Under(frames[1..], c));
      NothingAdded(About(ReceivedAll(k, frames[1..]), c));
    }
  }

  /** The same for one call. */
  ghost predicate Linked(k: Setup, c: u32, to: Flow, link: seq<Outgoing>, from: Flow) {
    Delivered(k, to.heard, Under(link, c), from.sent)
  }

  lemma DeliveredUnder(k: Setup, heard: seq<Message>, link: seq<Outgoing>, sent: seq<Outgoing>, c: u32)
    requires Delivered(k, heard, link, sent)
    ensures Delivered(k, About(heard, c), Under(link, c), Under(sent, c))
  {
    hide Received;
    var n := |sent| - |link|;
    assert sent == sent[..n] + link;
    UnderConcat(sent[..n], link, c);
    AboutReceived(k, sent[..n], c);
    var all := Under(sent, c);
    assert all[..|all| - |Under(link, c)|] == Under(sent[..n], c);
  }

  lemma LinkedAlways(k: Setup, c: u32, to: State, link: seq<Outgoing>, other: Setup, from: State)
    requires Carried(k, to, from, link) && Reachable(k, to) && Reachable(other, from)
    ensures Linked(k, c, FlowOf(History(to, c)), link, FlowOf(History(from, c)))
  {
    hide Reachable, Delivered, Fold;
    CallShare(k, to, c);
    CallShare(other, from, c);
    DeliveredUnder(k, MessagesIn(to.trace), link, FramesOf(PostsIn(from.trace)), c);
  }

  // ------------------------------------------------------------------- causality

  /** Nobody hears of a call before it is opened. */
  ghost predicate Causal(a: Flow, b: Flow) {
    && (a.opens == 0 ==> a.heard == [] && b.heard == [])
    && (a.opens <= 1 ==> !a.early)
  }

  lemma CausalByA(ka: Setup, c: u32, a: Flow, a': Flow, b: Flow, ba: seq<Outgoing>)
    requires Causal(a, b) && Grows(a, a')
    requires b.heard == [] ==> b.sent == []
    requires Linked(ka, c, a', ba, b)
    ensures Causal(a', b)
  {
    hide Received, Under;
  }

  lemma CausalByB(kb: Setup, c: u32, a: Flow, b: Flow, b': Flow, ab: seq<Outgoing>)
    requires Causal(a, b)
    requires a.opens == 0 && a.heard == [] ==> a.sent == []
    requires Linked(kb, c, b', ab, a)
    ensures Causal(a, b')
  {
    hide Received, Under;
  }

  /** The ledgers of a call of side A. */
  function AtA(s: Sys, c: u32): Flow { FlowOf(History(s.a, c)) }

  function AtB(s: Sys, c: u32): Flow { FlowOf(History(s.b, c)) }

  /** All that single cores and links guarantee for one call of side A. */
  ghost predicate Kept(duo: Duo, c: u32, s: Sys) {
    && Flowing(duo.a, c, ViewOf(s.a, c), AtA(s, c))
    && Flowing(duo.b, c, ViewOf(s.b, c), AtB(s, c))
    && Linked(duo.a, c, AtA(s, c), s.ba, AtB(s, c))
    && Linked(duo.b, c, AtB(s, c), s.ab, AtA(s, c))
  }

  lemma KeptAlways(duo: Duo, run: seq<Sys>, i: nat, c: u32)
    requires duo.Agreed() && Run(duo, run) && i < |run|
    ensures Kept(duo, c, run[i])
  {
    hide Run, Reachable, Flowing, Linked, Undoes, Carried;
    SoundAlways(duo, run, i);
    var s := run[i];
    FlowingAlways(duo.a, s.a, c);
    FlowingAlways(duo.b, s.b, c);
    LinkedAlways(duo.a, c, s.a, s.ba, duo.b, s.b);
    LinkedAlways(duo.b, c, s.b, s.ab, duo.a, s.a);
  }

  lemma {:induction false} CausalAlways(duo: Duo, run: seq<Sys>, i: nat, c: u32)
    requires duo.Agreed() && Run(duo, run) && i < |run| && duo.a.Own(c)
    ensures Causal(AtA(run[i], c), AtB(run[i], c))
    decreases i
  {
    hide Reachable, Linked, Undoes, Goes, Fold, Flowing;
    if i > 0 {
      CausalAlways(duo, run, i - 1, c);
      KeptAlways(duo, run, i - 1, c);
      KeptAlways(duo, run, i, c);
      var s, t := run[i - 1], run[i];
      MuteSends(duo.a, c, ViewOf(s.a, c), AtA(s, c));
      MuteSends(duo.b, c, ViewOf(s.b, c), AtB(s, c));
      if t.b == s.b && Goes(duo.a, s.a, t.a, s.ba, t.ba, s.ab, t.ab) {
        GoesGrows(duo.a, s.a, t.a, s.ba, t.ba, s.ab, t.ab, c);
        CausalByA(duo.a, c, AtA(s, c), AtA(t, c), AtB(s, c), t.ba);
      } else {
        CausalByB(duo.b, c, AtA(s, c), AtB(s, c), AtB(t, c), t.ab);
      }
    } else {
      NothingYet(duo, c);
    }
  }

  lemma NothingYet(duo: Duo, c: u32)
    ensures AtA(duo.Start(), c) == DRY && AtB(duo.Start(), c) == DRY
  {
  }

  lemma MuteSends(k: Setup, c: u32, v: View, l: Flow)
    requires Flowing(k, c, v, l)
    ensures l.opens == 0 && l.heard == [] ==> l.sent == []
    ensures !k.Own(c) ==> l.opens == 0
  {
    hide Setup.Own;
  }

  lemma GoesGrows(k: Setup, s: State, t: State, into: seq<Outgoing>, into': seq<Outgoing>,
                  out: seq<Outgoing>, out': seq<Outgoing>, c: u32)
    requires Goes(k, s, t, into, into', out, out')
    ensures Grows(FlowOf(History(s, c)), FlowOf(History(t, c)))
  {
    hide Chained, Received, Grows;
    var heard := if into' == into && Chained(k, s, t, []) then [] else [Received(k, into[0])];
    ChainTrace(k, s, t, heard);
    HistoryGrows(s, t, c);
  }
}
