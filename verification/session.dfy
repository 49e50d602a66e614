/** The vocabulary of a session core (core.go, descriptor.go, handler.go, status.go,
    compression.go): what is configured, what the environment answers, and the records
    of live calls. Message texts are left out. */
module Session {
  import opened Basics
  import opened Wire
  import opened Layout
  import opened CallIds
  import opened OutboxModel

  // ------------------------------------------------------------- descriptors

  datatype Shape = Unary | ServerStream | ClientStream | BidiStream {
    predicate CallerStreams() { ClientStream? || BidiStream? }

    predicate CalleeStreams() { ServerStream? || BidiStream? }
  }

  datatype Method = Method(requestID: u32, requestItem: Option<u32>, replyID: u32, shape: Shape, idleLimit: Time) {
    function CallerItemID(): u32 {
      if requestItem.Some? then requestItem.value else requestID
    }
  }

  datatype Entry = Entry(about: Method, served: bool)

  datatype Registry = Registry(
    voidID: u32,
    errorID: u32,
    creditID: Option<u32>,
    byRequest: map<u32, Entry>,
    owned: set<u32>,
    plain: set<u32>)

  datatype Config = Config(
    maxPending: int,
    maxCallQueue: int,
    maxConnectionQueue: int,
    schedulerQuantum: int,
    maxCtxLen: int,
    maxBodyLen: int,
    handlerLimit: Time,
    queueFullLimit: Time,
    compressAbove: int)
  {
    /** Zero and negative settings mean the defaults, so the ceilings and the quantum of
        a running core are positive. */
    function Normalized(): (c: Config)
      ensures c.maxPending > 0 && c.maxCallQueue > 0 && c.maxConnectionQueue > 0 && c.schedulerQuantum > 0
      ensures c.maxCtxLen > 0 && 0 < c.maxBodyLen <= MAX_BODY_CEILING
      ensures c.handlerLimit > 0 && c.queueFullLimit > 0 && c.compressAbove > 0
      ensures (maxPending > 0 ==> c.maxPending == maxPending) && (maxCallQueue > 0 ==> c.maxCallQueue == maxCallQueue)
      ensures maxConnectionQueue > 0 ==> c.maxConnectionQueue == maxConnectionQueue
      ensures schedulerQuantum > 0 ==> c.schedulerQuantum == schedulerQuantum
      ensures maxCtxLen > 0 ==> c.maxCtxLen == maxCtxLen
      ensures 0 < maxBodyLen <= MAX_BODY_CEILING ==> c.maxBodyLen == maxBodyLen
      ensures (handlerLimit > 0 ==> c.handlerLimit == handlerLimit)
              && (queueFullLimit > 0 ==> c.queueFullLimit == queueFullLimit)
      ensures compressAbove > 0 ==> c.compressAbove == compressAbove
    {
      Config(
        if maxPending <= 0 then 65_536 else maxPending,
        if maxCallQueue <= 0 then 64 else maxCallQueue,
        if maxConnectionQueue <= 0 then 1_024 else maxConnectionQueue,
        if schedulerQuantum <= 0 then 64 * 1024 else schedulerQuantum,
        if maxCtxLen <= 0 then 64 * 1024 else maxCtxLen,
        if maxBodyLen <= 0 || maxBodyLen > MAX_BODY_CEILING then MAX_BODY_CEILING else maxBodyLen,
        if handlerLimit <= 0 then 30_000 * MILLISECOND else handlerLimit,
        if queueFullLimit <= 0 then 5_000 * MILLISECOND else queueFullLimit,
        if compressAbove <= 0 then 1024 else compressAbove)
    }
  }

  const MAX_BODY_CEILING := 16 * 1024 * 1024 - HEADER_LEN

  // ------------------------------------------------------------------ status

  datatype Status = Status(code: u32, message: Bytes) {
    function Encode(): Bytes { Spell(Num(code)) + Spell(Blob(message)) }
  }

  const CANCELLED := Status(1, [])
  const DEADLINE_EXCEEDED := Status(2, [])
  const UNIMPLEMENTED := Status(3, [])
  const INVALID_ARGUMENT := Status(4, [])
  const RESOURCE_EXHAUSTED := Status(7, [])
  const UNAVAILABLE := Status(9, [])
  const INTERNAL := Status(10, [])

  function DecodeStatus(body: Bytes): Status {
    if body == [] then INTERNAL
    else
      match Take(WordField, body)
      case Broken => INTERNAL
      case Took(code, rest) =>
        if rest == [] then Status(code.word, [])
        else
          match Take(StringField, rest)
          case Broken => INTERNAL
          case Took(message, _) => Status(code.word, message.bytes)
  }

  /** What an ERROR's body means, whatever it is: nothing, or a code that is cut, or a text
      that is cut or no UTF-8, stands for INTERNAL; else it is the layout's word and string,
      a text that is absent being empty. */
  lemma StatusExactly(body: Bytes)
    ensures match Fields([WordField, StringField], body)
            case None => DecodeStatus(body) == INTERNAL
            case Some(values) =>
              && |values| == 2 && values[0].Num? && values[1].Blob?
              && DecodeStatus(body) == if body == [] then INTERNAL else Status(values[0].word, values[1].bytes)
  {
    var kinds := [WordField, StringField];
    assert kinds[1..] == [StringField] && kinds[1..][1..] == [];
    if body != [] && Take(WordField, body).Took? {
      var rest := Take(WordField, body).rest;
      assert Fields(kinds, body) == Prepend([Take(WordField, body).value], Fields([StringField], rest));
      if rest == [] {
        assert Zeros([StringField]) == [Blob([])];
      } else if Take(StringField, rest).Took? {
        assert Fields([StringField], rest) == Some([Take(StringField, rest).value] + []);
      }
    }
  }

  /** A status arrives as it was sent, provided its text is UTF-8 that fits a word. */
  lemma StatusRoundTrip(s: Status)
    requires Spellable(StringField, Blob(s.message))
    ensures DecodeStatus(s.Encode()) == s
  {
    var text := Spell(Blob(s.message));
    TakeSpell(WordField, Num(s.code), text);
    TakeSpell(StringField, Blob(s.message), []);
    assert text + [] == text;
  }

  // ------------------------------------------------------- compression, abstract

  datatype Expansion = Body(bytes: Bytes) | TooLarge | Malformed

  datatype Compressor = Compressor(compress: Bytes -> Option<Bytes>, decompress: (Bytes, int) -> Expansion)

  // --------------------------------------------------------------- environment

  datatype Progress = Pending | Respond(body: Bytes) | Item(body: Bytes) | End | Fail(status: Option<Status>)

  /** What asking a handler for credit can give: it is no granter, it grants, it panics. */
  datatype Granting = NoGranter | Grants(items: u32) | GrantFails(status: Status)

  /** A handler as the answers it will give: to its i-th poll, to the i-th item delivered
      to it, to the end of the caller's stream, to the i-th request for credit. Every run
      of every handler, panics included, is some such script. */
  datatype Handler = Handler(
    poll: nat -> Progress,
    item: nat -> Option<Status>,
    close: Option<Status>,
    grant: nat -> Granting)

  /** What the interceptor chain answers to one call: link i's verdict. */
  type Verdicts = nat -> Option<Status>

  // ------------------------------------------------------------------- records

  datatype Waiting = Waiting(
    entered: nat,
    requestID: u32,
    itemID: u32,
    replyID: u32,
    shape: Shape,
    deadline: Time,
    sendClosed: bool,
    credit: u32,
    established: bool)

  datatype Running = Running(
    handler: Handler,
    polled: nat,
    delivered: nat,
    asked: nat,
    itemID: u32,
    replyID: u32,
    shape: Shape,
    limit: Time,
    idleLimit: Time,
    lastHeard: Time,
    inboundClosed: bool,
    credit: u32,
    established: bool,
    fullSince: Time,
    entered: nat)
  {
    predicate Starved() { established && credit == 0 }

    function NextExpiry(): Time {
      Earlier(limit, if idleLimit > 0 then lastHeard + idleLimit else 0)
    }
  }

  /** `earlier`: the nearer of two instants, where 0 is no instant. */
  function Earlier(current: Time, candidate: Time): (nearest: Time)
    ensures nearest == 0 <==> current == 0 && candidate == 0
    ensures nearest == current || nearest == candidate
    ensures current != 0 ==> nearest <= current
    ensures candidate != 0 ==> nearest <= candidate
  {
    if candidate == 0 then current
    else if current == 0 || candidate < current then candidate
    else current
  }

  datatype OutcomeKind = Response | Item | End | Failed

  datatype Outcome = Outcome(kind: OutcomeKind, call: u32, body: Bytes, status: Option<Status>) {
    predicate Terminates() { kind != OutcomeKind.Item }
  }

  function FailedOutcome(call: u32, status: Status): Outcome {
    Outcome(Failed, call, [], Some(status))
  }

  // --------------------------------------------------------------------- frames

  /** What never changes while a core runs. */
  datatype Setup = Setup(registry: Registry, config: Config, role: Role, compressor: Option<Compressor>) {
    /** `bodyFrame`, with `maybeCompress`: a body is squeezed when that makes it shorter. */
    function BodyFrame(call: u32, kind: Kind, messageID: u32, body: Bytes): Outgoing {
      Squeezed(Header(kind, call, false, false), messageID, [], body)
    }

    function Squeezed(header: Header, messageID: u32, ctx: Bytes, body: Bytes): Outgoing {
      if compressor.None? || |body| < config.compressAbove then Outgoing(messageID, header, ctx, body)
      else
        var squeezed := compressor.value.compress(body);
        if squeezed.None? || |squeezed.value| >= |body| then Outgoing(messageID, header, ctx, body)
        else Outgoing(messageID, header.(compressed := true), ctx, squeezed.value)
    }

    function ControlFrame(call: u32, kind: Kind): Outgoing {
      Outgoing(registry.voidID, Header(kind, call, false, false), [], [])
    }

    function ErrorFrame(call: u32, status: Status): Outgoing {
      BodyFrame(call, Kind.Error, registry.errorID, status.Encode())
    }

    /** `inflate`: the plain body of a received frame, or why there is none. */
    function Inflate(header: Header, body: Bytes): Result<Bytes, Status> {
      if !header.compressed then Ok(body)
      else if compressor.None? then Err(INTERNAL)
      else
        match compressor.value.decompress(body, config.maxBodyLen)
        case Body(bytes) => Ok(bytes)
        case TooLarge => Err(RESOURCE_EXHAUSTED)
        case Malformed => Err(INTERNAL)
    }

    function Plain(frame: Outgoing): Option<Bytes> {
      match Inflate(frame.header, frame.body)
      case Ok(bytes) => Some(bytes)
      case Err(_) => None
    }

    predicate Own(call: u32) { role.Allocates(call) }
  }

  /** Compression touches neither kind nor address of a frame. */
  lemma BodyFrameKind(k: Setup, call: u32, kind: Kind, id: u32, body: Bytes)
    ensures k.BodyFrame(call, kind, id, body).header.kind == kind
    ensures k.BodyFrame(call, kind, id, body).header.call == call
    ensures !k.BodyFrame(call, kind, id, body).header.hasCtx && k.BodyFrame(call, kind, id, body).ctx == []
  {
  }

  /** `readCredit`: a missing or cut word counts as no credit. */
  function ReadCredit(body: Bytes): u32 {
    if |body| < 4 then 0 else Word(body)
  }

  lemma CreditRoundTrip(items: u32)
    ensures ReadCredit(Le32(items)) == items
  {
    WordOfLe32(items, []);
    assert Le32(items) + [] == Le32(items);
  }
}
