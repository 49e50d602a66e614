/** `SocketTransport` (rpcnet/transport.go): frames over a non-blocking socket that may
    take any part of what it is given. The socket is a script: its answer to its n-th
    write. Every behaviour of every socket is some script. */
module Transport {
  import opened Basics

  /** What a write gave: bytes taken, and an error, which may mean "would block". */
  datatype Answer = Answer(written: nat, error: Option<Errno>)

  datatype Errno = WouldBlock | Broken

  type Script = nat -> Answer

  datatype Status = OK | Pending | Closed | Error

  /** `wire` is every byte the socket has taken, in order. */
  datatype Line = Line(wire: Bytes, backlog: Bytes, refused: bool, closed: bool, writes: nat) {
    /** The bytes the transport has answered for. */
    function Stream(): Bytes { wire + backlog }
  }

  datatype Done = Done(line: Line, status: Status)

  /** How much of the data the socket takes at its next write. */
  function Taken(l: Line, data: Bytes, script: Script): nat { Min(script(l.writes).written, |data|) }

  function Wrote(l: Line, data: Bytes, script: Script): Line {
    l.(wire := l.wire + data[..Taken(l, data, script)], writes := l.writes + 1)
  }

  function Failed(l: Line): Done { Done(l.(closed := true), Error) }

  /** `pushBacklog`: write until nothing is left or the socket stops taking. */
  function PushBacklog(l: Line, script: Script): Done
    decreases |l.backlog|
  {
    if l.backlog == [] then Done(l, OK)
    else
      var written, error := Taken(l, l.backlog, script), script(l.writes).error;
      var l1 := Wrote(l, l.backlog, script).(backlog := l.backlog[written..]);
      if error == Some(WouldBlock) then Done(l1, OK)
      else if error == Some(Broken) then Failed(l1)
      else if written == 0 then Done(l1, OK)
      else PushBacklog(l1, script)
  }

  /** `Send`, once nothing is held back. */
  function SendNow(l: Line, frame: Bytes, script: Script): Done {
    var written, error := Taken(l, frame, script), script(l.writes).error;
    var l1 := Wrote(l, frame, script);
    if written == |frame| then Done(l1.(refused := false), OK)
    else if error == Some(Broken) then Failed(l1)
    else if written == 0 then Done(l1.(refused := true), Pending)
    else Done(l1.(refused := false, backlog := l1.backlog + frame[written..]), OK)
  }

  function Offer(l: Line, frame: Bytes, script: Script): Done {
    if l.closed then Done(l, Closed)
    else
      var pushed := PushBacklog(l, script);
      if pushed.status != OK then pushed
      else if pushed.line.backlog != [] then Done(pushed.line.(refused := true), Pending)
      else SendNow(pushed.line, frame, script)
  }

  /** `a` is the beginning of `b`. */
  ghost predicate Begins(a: Bytes, b: Bytes) { |a| <= |b| && b[..|a|] == a }

  /** Pushing loses, adds and reorders nothing, even when it fails half way. */
  lemma {:induction false} PushConserves(l: Line, script: Script)
    ensures PushBacklog(l, script).line.Stream() == l.Stream()
    ensures PushBacklog(l, script).line.closed == (l.closed || PushBacklog(l, script).status == Error)
    ensures PushBacklog(l, script).status in {OK, Error} && PushBacklog(l, script).line.refused == l.refused
    decreases |l.backlog|
  {
    if l.backlog != [] {
      var written, error := Taken(l, l.backlog, script), script(l.writes).error;
      var l1 := Wrote(l, l.backlog, script).(backlog := l.backlog[written..]);
      assert l.backlog == l.backlog[..written] + l.backlog[written..];
      Regroup(l.wire, l.backlog[..written], l.backlog[written..]);
      if error != Some(WouldBlock) && error != Some(Broken) && written != 0 {
        PushConserves(l1, script);
      }
    }
  }

  /** A frame answered OK is all on its way, one answered Pending has left no byte behind,
      and when the transport fails, the socket has got no more than the beginning of what
      it was to get. `Backlogged` is raised exactly by a refusal. */
  lemma SendConserves(l: Line, frame: Bytes, script: Script)
    requires !l.closed
    ensures var d := Offer(l, frame, script);
            match d.status
            case OK => !d.line.closed && d.line.Stream() == l.Stream() + frame && !d.line.refused
            case Pending => !d.line.closed && d.line.Stream() == l.Stream() && d.line.refused
            case Error => d.line.closed && Begins(d.line.wire, l.Stream() + frame)
            case Closed => false
  {
    PushConserves(l, script);
    var pushed := PushBacklog(l, script);
    if pushed.status != OK {
      assert l.Stream() + frame == pushed.line.wire + (pushed.line.backlog + frame);
    } else if pushed.line.backlog == [] {
      var p := pushed.line;
      NothingAdded(p.wire);
      var written := Taken(p, frame, script);
      assert frame == frame[..written] + frame[written..];
      Regroup(p.wire, frame[..written], frame[written..]);
      if written == |frame| {
        assert frame[..written] == frame;
        NothingAdded(p.wire + frame);
      } else if written == 0 {
        NothingAdded(p.wire);
      } else {
        NothingAdded(frame[written..]);
      }
    }
  }

  /** `Receive`, given what reading gives: the backlog is pushed first, and a read of
      nothing or an error closes the transport. */
  function Take(l: Line, read: nat, error: Option<Errno>, script: Script): Done {
    if l.closed then Done(l, Closed)
    else
      var pushed := PushBacklog(l, script);
      if pushed.status != OK then pushed
      else if error.Some? then if error.value.WouldBlock? then Done(pushed.line, Pending) else Failed(pushed.line)
      else if read == 0 then Done(pushed.line.(closed := true), Closed)
      else Done(pushed.line, OK)
  }

  /** Receiving loses and adds no byte of what is being sent, whatever it meets; an open
      transport stays open exactly when the answer is OK or Pending, and OK means that
      something was read. */
  lemma TakeConserves(l: Line, read: nat, error: Option<Errno>, script: Script)
    ensures var d := Take(l, read, error, script);
            && d.line.Stream() == l.Stream() && d.line.refused == l.refused
            && (d.line.closed <==> d.status !in {OK, Pending})
            && (d.status == OK ==> error.None? && read > 0)
  {
    PushConserves(l, script);
  }

  // ------------------------------------------------- when each answer is given

  /** How much of so many bytes the socket takes at its n-th write. */
  function TakenAt(script: Script, n: nat, left: nat): nat { Min(script(n).written, left) }

  /** The socket takes something of what it is given, and gives no error. */
  predicate GoesOn(script: Script, n: nat, left: nat) { TakenAt(script, n, left) > 0 && script(n).error.None? }

  /** The writes from the first to the last, each given what the one before left over, bring
      the backlog from the first line to the second: all but the last take something and
      give no error. */
  ghost predicate Writes(a: Line, b: Line, script: Script)
    decreases |a.backlog|
  {
    if b.writes == a.writes then b == a
    else
      a.backlog != [] &&
      var taken := TakenAt(script, a.writes, |a.backlog|);
      var next := a.(wire := a.wire + a.backlog[..taken], backlog := a.backlog[taken..], writes := a.writes + 1);
      if b.writes == next.writes then b == next else GoesOn(script, a.writes, |a.backlog|) && Writes(next, b, script)
  }

  /** The last write was stopped by this. */
  predicate StoppedBy(a: Line, b: Line, script: Script, error: Errno) {
    b.writes > a.writes && script(b.writes - 1).error == Some(error)
  }

  /** A push writes the backlog until nothing is left, the socket takes nothing, or it gives
      an error; it fails exactly at an error other than would-block. */
  lemma {:induction false} PushExactly(l: Line, script: Script)
    ensures var d := PushBacklog(l, script);
            var b := d.line.(closed := l.closed);
            && Writes(l, b, script)
            && (d.status == Error <==> StoppedBy(l, b, script, Broken)) && d.status in {OK, Error}
            && (d.line.closed <==> l.closed || d.status == Error)
            && (d.status == OK && b.backlog != [] ==>
                  b.writes > l.writes && (StoppedBy(l, b, script, WouldBlock) || script(b.writes - 1).written == 0))
            && (b.writes == l.writes <==> l.backlog == [])
    decreases |l.backlog|
  {
    if l.backlog != [] {
      var written, error := Taken(l, l.backlog, script), script(l.writes).error;
      var l1 := Wrote(l, l.backlog, script).(backlog := l.backlog[written..]);
      var d := PushBacklog(l, script);
      if error.None? && written != 0 {
        PushExactly(l1, script);
        assert d == PushBacklog(l1, script);
        WritesOn(l1, d.line.(closed := l.closed), script);
        assert GoesOn(script, l.writes, |l.backlog|);
      } else {
        assert error.None? || error.value.WouldBlock? || error.value.Broken?;
        assert d.line.(closed := l.closed) == l1;
      }
    }
  }

  lemma {:induction false} WritesOn(a: Line, b: Line, script: Script)
    requires Writes(a, b, script)
    ensures b.writes >= a.writes
    decreases |a.backlog|
  {
    if b.writes != a.writes {
      var taken := TakenAt(script, a.writes, |a.backlog|);
      var next := a.(wire := a.wire + a.backlog[..taken], backlog := a.backlog[taken..], writes := a.writes + 1);
      if b.writes != next.writes {
        WritesOn(next, b, script);
      }
    }
  }

  /** When `Send` gives which answer. The backlog is written first, up to `mid`. The answer is
      Pending if and only if some of it is left, or the socket is then offered the frame,
      which is not empty, takes none of it and gives no error but would-block. It is OK if
      and only if none is left and the socket takes the frame whole, or some of it without
      another error; what it leaves is held back. It is Error if and only if an error other
      than would-block stops the backlog, or the frame short of its end. */
  lemma SendExactly(l: Line, frame: Bytes, script: Script) returns (mid: Line)
    requires !l.closed
    ensures Writes(l, mid, script) && !mid.closed
    ensures var d := Offer(l, frame, script);
            var failed, held := StoppedBy(l, mid, script, Broken), mid.backlog != [];
            var taken, broken := TakenAt(script, mid.writes, |frame|), script(mid.writes).error == Some(Broken);
            && (!failed && held ==> StoppedBy(l, mid, script, WouldBlock)
                                    || (mid.writes > l.writes && script(mid.writes - 1).written == 0))
            && (d.status == Pending <==> !failed && (held || (frame != [] && taken == 0 && !broken)))
            && (d.status == OK <==> !failed && !held && (taken == |frame| || (taken > 0 && !broken)))
            && (d.status == Error <==> failed || (!held && taken < |frame| && broken))
            && d.line.writes == mid.writes + (if failed || held then 0 else 1)
            && d.line.wire == mid.wire + (if failed || held then [] else frame[..taken])
            && d.line.backlog == (if d.status == OK then frame[taken..] else mid.backlog)
            && (d.line.refused <==> if d.status == Error then l.refused else d.status == Pending)
            && (d.line.closed <==> d.status == Error)
  {
    PushExactly(l, script);
    PushConserves(l, script);
    mid := PushBacklog(l, script).line.(closed := false);
    NothingAdded(mid.wire);
  }

  /** A socket that takes whatever it is offered answers every `Send` with OK, and nothing is
      held back, whatever was refused before. */
  lemma TakesAll(l: Line, frame: Bytes, script: Script)
    requires !l.closed
    requires forall n: nat :: n >= l.writes ==> script(n).error.None? && script(n).written >= |l.backlog| + |frame|
    ensures var d := Offer(l, frame, script);
            d.status == OK && d.line.backlog == [] && !d.line.refused && d.line.wire == l.Stream() + frame
  {
    SendConserves(l, frame, script);
    var mid := SendExactly(l, frame, script);
    if l.backlog != [] {
      var next := l.(wire := l.wire + l.backlog, backlog := [], writes := l.writes + 1);
      assert l.backlog[..|l.backlog|] == l.backlog && l.backlog[|l.backlog|..] == [];
      PushExactly(l, script);
      WritesOn(l, mid, script);
    }
  }

  /** When `Receive` gives which answer, given what reading gives. */
  lemma TakeExactly(l: Line, read: nat, error: Option<Errno>, script: Script) returns (mid: Line)
    requires !l.closed
    ensures Writes(l, mid, script) && !mid.closed
    ensures var d := Take(l, read, error, script);
            var failed := StoppedBy(l, mid, script, Broken);
            && (d.status == Error <==> failed || error == Some(Broken))
            && (d.status == Pending <==> !failed && error == Some(WouldBlock))
            && (d.status == Closed <==> !failed && error.None? && read == 0)
            && (d.status == OK <==> !failed && error.None? && read > 0)
            && d.line == mid.(closed := d.status in {Error, Closed})
            && (!failed && mid.backlog != [] ==> StoppedBy(l, mid, script, WouldBlock)
                                                 || (mid.writes > l.writes && script(mid.writes - 1).written == 0))
  {
    PushExactly(l, script);
    PushConserves(l, script);
    mid := PushBacklog(l, script).line.(closed := false);
  }

  // ---------------------------------------------------------------- whole runs

  /** What may be asked of a transport: to send a frame, to receive, or, as `CloseSend`
      does on the side, to push what is held back. */
  datatype Ask = SendFrame(frame: Bytes) | Receive(read: nat, error: Option<Errno>) | Push

  /** The line after a run, and the frames that were answered OK, joined. */
  datatype Ran = Ran(line: Line, promised: Bytes)

  function Serve(l: Line, asks: seq<Ask>, script: Script): Ran
    decreases |asks|
  {
    if asks == [] then Ran(l, [])
    else if asks[0].Push? then Serve(if l.closed then l else PushBacklog(l, script).line, asks[1..], script)
    else if asks[0].Receive? then Serve(Take(l, asks[0].read, asks[0].error, script).line, asks[1..], script)
    else
      var d := Offer(l, asks[0].frame, script);
      var rest := Serve(d.line, asks[1..], script);
      Ran(rest.line, (if d.status == OK then asks[0].frame else []) + rest.promised)
  }

  /** A closed transport sends nothing more. */
  lemma {:induction false} ClosedStays(l: Line, asks: seq<Ask>, script: Script)
    requires l.closed
    ensures Serve(l, asks, script) == Ran(l, [])
    decreases |asks|
  {
    if asks != [] {
      ClosedStays(l, asks[1..], script);
    }
  }

  /** Byte-stream conservation over every run and every socket: as long as the transport
      is open, the bytes the socket has taken and the backlog are together exactly the
      frames answered OK, in order. */
  lemma {:induction false} RunConserves(l: Line, asks: seq<Ask>, script: Script)
    requires !l.closed
    ensures var r := Serve(l, asks, script);
            !r.line.closed ==> r.line.Stream() == l.Stream() + r.promised
    decreases |asks|
  {
    if asks == [] {
      NothingAdded(l.Stream());
    } else if !asks[0].SendFrame? {
      PushConserves(l, script);
      var next := PushBacklog(l, script).line;
      if asks[0].Receive? {
        TakeConserves(l, asks[0].read, asks[0].error, script);
        next := Take(l, asks[0].read, asks[0].error, script).line;
      }
      if next.closed {
        ClosedStays(next, asks[1..], script);
      } else {
        RunConserves(next, asks[1..], script);
      }
    } else {
      SendConserves(l, asks[0].frame, script);
      var d := Offer(l, asks[0].frame, script);
      if d.line.closed {
        ClosedStays(d.line, asks[1..], script);
      } else {
        RunConserves(d.line, asks[1..], script);
        var rest := Serve(d.line, asks[1..], script);
        var own := if d.status == OK then asks[0].frame else [];
        NothingAdded(l.Stream());
        Regroup(l.Stream(), own, rest.promised);
      }
    }
  }

  // ---------------------------------------------------------------- the object

  /** The socket: it takes what its script says and remembers all it took. */
  class Socket {
    const script: Script
    ghost var wire: Bytes
    var writes: nat

    constructor (script: Script)
      ensures this.script == script && wire == [] && writes == 0
    {
      this.script := script;
      wire, writes := [], 0;
    }

    method write(data: Bytes) returns (written: nat, error: Option<Errno>)
      modifies this
      ensures written == Min(script(old(writes)).written, |data|) && error == script(old(writes)).error
      ensures wire == old(wire) + data[..written] && writes == old(writes) + 1
    {
      written, error := Min(script(writes).written, |data|), script(writes).error;
      wire := wire + data[..written];
      writes := writes + 1;
    }
  }

  class SocketTransport {
    const socket: Socket
    var backlog: Bytes
    var refused: bool
    var closed: bool

    ghost function Value(): Line
      reads this, socket
    {
      Line(socket.wire, backlog, refused, closed, socket.writes)
    }

    constructor (socket: Socket)
      ensures this.socket == socket
      ensures backlog == [] && !refused && !closed
    {
      this.socket := socket;
      backlog, refused, closed := [], false, false;
    }

    predicate Backlogged()
      reads this
    {
      |backlog| > 0 || refused
    }

    method fail() returns (status: Status)
      modifies this`closed
      ensures closed && status == Error
    {
      closed := true;
      status := Error;
    }

    method pushBacklog() returns (status: Status)
      modifies this`backlog, this`closed, socket
      ensures Done(Value(), status) == PushBacklog(old(Value()), socket.script)
    {
      ghost var whole := PushBacklog(Value(), socket.script);
      while |backlog| > 0
        invariant refused == old(refused) && closed == old(closed)
        invariant whole == PushBacklog(Value(), socket.script)
        decreases |backlog|
      {
        var written, error := socket.write(backlog);
        if written > 0 {
          backlog := backlog[written..];
        }
        if error.Some? {
          if error.value == WouldBlock {
            return OK;
          }
          status := fail();
          return;
        }
        if written == 0 {
          return OK;
        }
      }
      status := OK;
    }

    method Send(frame: Bytes) returns (status: Status)
      modifies this, socket
      ensures Done(Value(), status) == Offer(old(Value()), frame, socket.script)
      ensures status == Pending ==> Backlogged()
    {
      PushConserves(Value(), socket.script);
      if closed {
        return Closed;
      }
      if |backlog| > 0 {
        var pushed := pushBacklog();
        if pushed != OK {
          return pushed;
        }
        if |backlog| > 0 {
          refused := true;
          return Pending;
        }
      }
      var written, error := socket.write(frame);
      if written == |frame| {
        refused := false;
        return OK;
      }
      if error.Some? && error.value != WouldBlock {
        status := fail();
        return;
      }
      if written <= 0 {
        refused := true;
        return Pending;
      }
      refused := false;
      backlog := backlog + frame[written..];
      return OK;
    }

    /** `Receive`: whatever happens, the bytes answered for stay answered for. */
    method Receive(read: nat, error: Option<Errno>) returns (got: nat, status: Status)
      modifies this`backlog, this`closed, socket
      ensures Done(Value(), status) == Take(old(Value()), read, error, socket.script)
      ensures Value().Stream() == old(Value().Stream())
      ensures got == if status == OK then read else 0
    {
      TakeConserves(Value(), read, error, socket.script);
      if closed {
        return 0, Closed;
      }
      if |backlog| > 0 {
        status := pushBacklog();
        if status != OK {
          return 0, status;
        }
      }
      if error.Some? {
        if error.value == WouldBlock {
          return 0, Pending;
        }
        status := fail();
        return 0, status;
      }
      if read == 0 {
        closed := true;
        return 0, Closed;
      }
      return read, OK;
    }
  }
}
