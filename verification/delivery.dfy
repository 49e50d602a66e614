/** The operations of a core are moves of the two-core system: every run of operations of
    two cores is one of the runs that the laws of `DuplexLaws` speak of. */
module Delivery {
  import opened Basics
  import opened Wire
  import opened OutboxModel
  import opened Session
  import opened CoreModel
  import opened Chains
  import opened Lawful
  import opened Traces
  import opened Duplex
  import CoreOps
  import opened CtxModel

  /** What was done without a drain and without hearing anything leaves both links alone, */
  lemma QuietMoves(k: Setup, s: State, t: State, into: seq<Outgoing>, out: seq<Outgoing>)
    requires Leads(k, s, t, [])
    ensures Goes(k, s, t, into, into, out, out)
  {
    hide Reachable;
    ChainTrace(k, s, t, []);
    NothingAdded(out);
  }

  /** and what hears the oldest frame under way takes that frame off its link. */
  lemma HeardMoves(k: Setup, s: State, t: State, into: seq<Outgoing>, out: seq<Outgoing>)
    requires into != [] && Leads(k, s, t, [Received(k, into[0])])
    ensures Goes(k, s, t, into, into[1..], out, out)
  {
    hide Reachable, Received;
    ChainTrace(k, s, t, [Received(k, into[0])]);
    NothingAdded(out);
  }

  /** Draining into the outgoing link is a move. */
  lemma SinkMoves(k: Setup, s: State, into: seq<Outgoing>, out: seq<Outgoing>, sink: Sink)
    requires Reachable(k, s) && s.box.Valid()
    ensures var t := Apply(k, s, Step(DrainTo(sink), None));
            Goes(k, s, t, into, into, out, out + FramesOf(Drain(s.box, sink).sent))
  {
    hide Reachable, Chained, Leads, Drain;
    OneStep(k, s, Step(DrainTo(sink), None));
    var sent := Drain(s.box, sink).sent;
    NothingAdded(s.trace + Sends(sent));
    SendsAreSends(sent);
    assert (s.trace + Sends(sent))[|s.trace|..] == Sends(sent);
  }

  /** A frame is of the protocol of this core. */
  predicate Understands(k: Setup, frame: Outgoing) {
    frame.messageID in k.registry.owned && frame.messageID !in k.registry.plain
  }

  /** `OnMessage` on a frame as the bytes it travels as. */
  ghost function Handed(k: Setup, s: State, frame: Outgoing, now: Time, env: CoreOps.Arrival): State {
    CoreOps.OnMessage(k, s, frame.messageID, Encode(frame.header, frame.ctx, frame.body), now, env).state
  }

  /** Handing a core the oldest frame under way to it, as the bytes it travels as, is a
      move: the core hears exactly that frame, and posts nothing. */
  lemma DeliveryMoves(k: Setup, s: State, into: seq<Outgoing>, out: seq<Outgoing>, now: Time, env: CoreOps.Arrival)
    requires Reachable(k, s) && into != [] && Understands(k, into[0])
    ensures Goes(k, s, Handed(k, s, into[0], now, env), into, into[1..], out, out)
  {
    hide Reachable, Leads, CoreOps.OnMessage, Decode, Encode, Goes;
    var f := into[0];
    var payload := Encode(f.header, f.ctx, f.body);
    OnMessageLawful(k, s, f.messageID, payload, now, env);
    EncodedHead(f.header, f.ctx, f.body);
    HeardMoves(k, s, Handed(k, s, f, now, env), into, out);
  }

  // ---------------------------------------------------------- runs of operations

  /** What may be asked of a core: everything its owner and its session may call. */
  datatype Operation =
    | OnReady
    | AddInterceptor
    | Call(requestID: u32, body: Bytes, ctx: Option<Ctx>, allowed: Time, now: Time, way: CoreOps.Departure)
    | SendItem(call: u32, body: Bytes)
    | CloseSend(call: u32)
    | Grant(call: u32, items: u32)
    | Cancel(call: u32)
    | Tick(now: Time)
    | OnSessionEnd
    | Collect
    | DrainInto(sink: Sink)
    | Receive(now: Time, env: CoreOps.Arrival)

  /** The operations that neither hear nor send. */
  ghost function Worked(k: Setup, s: State, op: Operation): State {
    match op
    case OnReady => Do(k, s, BecomeReady)
    case AddInterceptor => Do(k, s, AddLink)
    case Call(requestID, body, ctx, allowed, now, way) =>
      CoreOps.Call(k, s, requestID, body, ctx, allowed, now, way).state
    case SendItem(call, body) => CoreOps.SendItem(k, s, call, body).state
    case CloseSend(call) => CoreOps.CloseSend(k, s, call).state
    case Grant(call, items) => CoreOps.GrantCredit(k, s, call, items).state
    case Cancel(call) => CoreOps.CancelCall(k, s, call)
    case Tick(now) => CoreOps.Tick(k, s, now)
    case OnSessionEnd => CoreOps.OnSessionEnd(k, s)
    case Collect => Do(k, s, CoreModel.TakeOutcomes)
    case _ => s
  }

  lemma WorkLeads(k: Setup, s: State, op: Operation)
    requires Reachable(k, s)
    ensures Leads(k, s, Worked(k, s, op), [])
  {
    hide Reachable, Leads, CoreOps.Call, CoreOps.SendItem, CoreOps.CloseSend, CoreOps.GrantCredit, CoreOps.CancelCall;
    hide CoreOps.Tick, CoreOps.OnSessionEnd, Apply;
    match op {
      case OnReady => OneStep(k, s, Step(BecomeReady, None));
      case AddInterceptor => OneStep(k, s, Step(AddLink, None));
      case Call(requestID, body, ctx, allowed, now, way) => CallLawful(k, s, requestID, body, ctx, allowed, now, way);
      case SendItem(call, body) => SendItemLawful(k, s, call, body);
      case CloseSend(call) => CloseSendLawful(k, s, call);
      case Grant(call, items) => GrantLawful(k, s, call, items);
      case Cancel(call) => CancelLawful(k, s, call);
      case Tick(now) => TickLawful(k, s, now);
      case OnSessionEnd => SessionEnds(k, s);
      case Collect => OneStep(k, s, Step(CoreModel.TakeOutcomes, None));
      case _ => Here(k, s);
    }
  }

  /** One core between its two links. */
  datatype Side = Side(state: State, into: seq<Outgoing>, out: seq<Outgoing>)

  /** An operation at one core: a drain sends, a delivery takes the oldest frame under way. */
  ghost function Operate(k: Setup, x: Side, op: Operation): Side {
    match op
    case DrainInto(sink) =>
      if !x.state.box.Valid() then x
      else x.(state := Do(k, x.state, DrainTo(sink)), out := x.out + FramesOf(Drain(x.state.box, sink).sent))
    case Receive(now, env) =>
      if x.into == [] then x else x.(state := Handed(k, x.state, x.into[0], now, env), into := x.into[1..])
    case _ => x.(state := Worked(k, x.state, op))
  }

  /** Every operation is a move: those that neither hear nor send leave both links alone. */
  lemma OperationMoves(k: Setup, x: Side, op: Operation)
    requires Reachable(k, x.state)
    requires op.Receive? && x.into != [] ==> Understands(k, x.into[0])
    ensures var y := Operate(k, x, op); Goes(k, x.state, y.state, x.into, y.into, x.out, y.out)
    ensures !op.DrainInto? && !op.Receive? ==> Operate(k, x, op).into == x.into && Operate(k, x, op).out == x.out
  {
    hide Reachable, Leads, Goes, Worked, Handed, Apply, Box.Valid, Drain;
    BoxStaysSound(k, x.state);
    assert x.state.box.Valid() by { Boxed(k, x.state.box); }
    match op {
      case DrainInto(sink) => SinkMoves(k, x.state, x.into, x.out, sink);
      case Receive(now, env) =>
        if x.into == [] {
          Here(k, x.state);
          QuietMoves(k, x.state, x.state, x.into, x.out);
        } else {
          DeliveryMoves(k, x.state, x.into, x.out, now, env);
        }
      case _ =>
        WorkLeads(k, x.state, op);
        QuietMoves(k, x.state, Worked(k, x.state, op), x.into, x.out);
    }
  }

  lemma Boxed(k: Setup, box: Box)
    requires BoxSound(k, box)
    ensures box.Valid()
  {
  }

  /** An operation at side A or at side B. */
  datatype Deed = AtSideA(op: Operation) | AtSideB(op: Operation)

  ghost function Done(duo: Duo, s: Sys, d: Deed): Sys {
    match d
    case AtSideA(op) =>
      var y := Operate(duo.a, Side(s.a, s.ba, s.ab), op);
      Sys(y.state, s.b, y.out, y.into)
    case AtSideB(op) =>
      var y := Operate(duo.b, Side(s.b, s.ab, s.ba), op);
      Sys(s.a, y.state, y.into, y.out)
  }

  /** What is delivered is of the receiver's protocol. */
  ghost predicate Sensible(duo: Duo, s: Sys, d: Deed) {
    match d
    case AtSideA(op) => op.Receive? && s.ba != [] ==> Understands(duo.a, s.ba[0])
    case AtSideB(op) => op.Receive? && s.ab != [] ==> Understands(duo.b, s.ab[0])
  }

  /** The states that these operations lead through. */
  ghost function Played(duo: Duo, deeds: seq<Deed>): (run: seq<Sys>)
    ensures |run| == |deeds| + 1
  {
    if deeds == [] then [duo.Start()]
    else
      var n := |deeds| - 1;
      var before := Played(duo, deeds[..n]);
      before + [Done(duo, before[n], deeds[n])]
  }

  /** Every run of operations of two cores, in any order, is a run of the two-core system. */
  lemma {:induction false} OperationsRun(duo: Duo, deeds: seq<Deed>)
    requires duo.Agreed()
    requires forall i :: 0 <= i < |deeds| ==> Sensible(duo, Played(duo, deeds[..i])[i], deeds[i])
    ensures Run(duo, Played(duo, deeds))
  {
    hide Moved, Done, Sensible, Undoes, Sound;
    if deeds != [] {
      var n := |deeds| - 1;
      var before := Played(duo, deeds[..n]);
      assert forall i :: 0 <= i < n ==> deeds[..n][..i] == deeds[..i];
      OperationsRun(duo, deeds[..n]);
      DeedMoves(duo, before, n, deeds[n]);
    }
  }

  lemma DeedMoves(duo: Duo, run: seq<Sys>, i: nat, d: Deed)
    requires duo.Agreed() && Run(duo, run) && i < |run| && Sensible(duo, run[i], d)
    ensures Moved(duo, run[i], Done(duo, run[i], d))
  {
    hide Run, Undoes, Reachable, Carried, Goes, Operate, Understands;
    SoundAlways(duo, run, i);
    var s := run[i];
    match d {
      case AtSideA(op) => OperationMoves(duo.a, Side(s.a, s.ba, s.ab), op);
      case AtSideB(op) => OperationMoves(duo.b, Side(s.b, s.ab, s.ba), op);
    }
  }
}
