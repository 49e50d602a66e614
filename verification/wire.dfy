/** The frame header and its codec (wire.go). A first byte packs the kind in its low
    three bits, three reserved bits, the ctx flag (64) and the compression flag (128);
    the masks are written as arithmetic on the byte's value. */
module Wire {
  import opened Basics

  datatype Kind = Request | Response | Error | Item | End | Cancel | Credit

  datatype Header = Header(kind: Kind, call: u32, compressed: bool, hasCtx: bool)

  datatype WireError = Truncated | UnknownKind | ReservedBits | CtxOnNonRequest | CtxTruncated | CtxTooLarge

  datatype Parsed = Parsed(header: Header, ctx: Bytes, body: Bytes)

  const HEADER_LEN := 5
  const CTX_LENGTH_LEN := 4

  function KindCode(k: Kind): (code: byte)
    ensures code <= 6
  {
    match k
    case Request => 0
    case Response => 1
    case Error => 2
    case Item => 3
    case End => 4
    case Cancel => 5
    case Credit => 6
  }

  function KindOf(code: byte): Kind
    requires code <= 6
  {
    match code
    case 0 => Request
    case 1 => Response
    case 2 => Error
    case 3 => Item
    case 4 => End
    case 5 => Cancel
    case _ => Credit
  }

  /** `KindBits`: the low three bits. */
  function KindBits(first: byte): byte { first % 8 }

  function ReservedBitsOf(first: byte): byte { first / 8 % 8 }

  function CtxFlag(first: byte): bool { first / 64 % 2 == 1 }

  function CompressedFlag(first: byte): bool { first / 128 == 1 }

  function FirstByte(h: Header): (first: byte)
    ensures KindBits(first) == KindCode(h.kind)
    ensures ReservedBitsOf(first) == 0
    ensures CtxFlag(first) == h.hasCtx && CompressedFlag(first) == h.compressed
  {
    KindCode(h.kind) + (if h.compressed then 128 else 0) + (if h.hasCtx then 64 else 0)
  }

  /** `Encode`, as a value: header, then a length-prefixed ctx block when the header
      announces one, then the body. Go's `uint32(len(ctx))` truncates. */
  function Encode(h: Header, ctx: Bytes, body: Bytes): Bytes {
    [FirstByte(h)] + Le32(h.call)
    + (if h.hasCtx then Le32((|ctx| % U32_SPAN) as u32) + ctx else [])
    + body
  }

  /** `Encode`, as the program builds it: one buffer, filled and then appended to. */
  method EncodeFrame(h: Header, ctx: Bytes, body: Bytes) returns (payload: Bytes)
    ensures payload == Encode(h, ctx, body)
    ensures |payload| == PayloadLen(h, ctx, body)
  {
    payload := [0, 0, 0, 0, 0];
    var first := KindCode(h.kind);
    if h.compressed { first := first + 128; }
    if h.hasCtx { first := first + 64; }
    payload := payload[0 := first];
    payload := payload[..1] + Le32(h.call);
    if h.hasCtx {
      payload := payload + Le32((|ctx| % U32_SPAN) as u32);
      payload := payload + ctx;
    }
    payload := payload + body;
  }

  /** The length of the encoding (`EncodeFrame` ties it to the bytes). */
  function PayloadLen(h: Header, ctx: Bytes, body: Bytes): nat {
    HEADER_LEN + |body| + if h.hasCtx then CTX_LENGTH_LEN + |ctx| else 0
  }

  function ReadCallID(payload: Bytes): u32
    requires |payload| >= HEADER_LEN
  {
    Word(payload[1..])
  }

  function Decode(payload: Bytes, maxCtxLen: int): Result<Parsed, WireError> {
    if |payload| < HEADER_LEN then Err(Truncated)
    else
      var first := payload[0];
      if ReservedBitsOf(first) != 0 then Err(ReservedBits)
      else if KindBits(first) > 6 then Err(UnknownKind)
      else
        var header := Header(KindOf(KindBits(first)), ReadCallID(payload), CompressedFlag(first), CtxFlag(first));
        var rest := payload[HEADER_LEN..];
        if !header.hasCtx then Ok(Parsed(header, [], rest))
        else if header.kind != Request then Err(CtxOnNonRequest)
        else if |rest| < CTX_LENGTH_LEN then Err(CtxTruncated)
        else
          var declared := Word(rest) as int;
          if declared > maxCtxLen then Err(CtxTooLarge)
          else
            var afterLength := rest[CTX_LENGTH_LEN..];
            if |afterLength| < declared then Err(CtxTruncated)
            else Ok(Parsed(header, afterLength[..declared], afterLength[declared..]))
  }

  /** What a frame must be for its spelling to be read back as itself. */
  predicate Sendable(h: Header, ctx: Bytes, maxCtxLen: int) {
    if h.hasCtx then h.kind == Request && |ctx| <= maxCtxLen && |ctx| <= U32_MAX else ctx == []
  }

  /** The kind bits and the call id survive encoding, so a queue can be inspected
      without decoding it. */
  lemma EncodedHead(h: Header, ctx: Bytes, body: Bytes)
    ensures var p := Encode(h, ctx, body);
            |p| >= HEADER_LEN && KindBits(p[0]) == KindCode(h.kind) && ReadCallID(p) == h.call
  {
    var p := Encode(h, ctx, body);
    var tail := (if h.hasCtx then Le32((|ctx| % U32_SPAN) as u32) + ctx else []) + body;
    assert p[1..] == Le32(h.call) + tail;
    WordOfLe32(h.call, tail);
  }

  /** A sendable frame is decoded to exactly its own parts. */
  lemma DecodeEncode(h: Header, ctx: Bytes, body: Bytes, maxCtxLen: int)
    requires Sendable(h, ctx, maxCtxLen)
    ensures Decode(Encode(h, ctx, body), maxCtxLen) == Ok(Parsed(h, ctx, body))
  {
    var p := Encode(h, ctx, body);
    EncodedHead(h, ctx, body);
    KindRoundTrip(h.kind);
    var rest := p[HEADER_LEN..];
    if h.hasCtx {
      assert rest == Le32(|ctx| as u32) + (ctx + body);
      WordOfLe32(|ctx| as u32, ctx + body);
      assert rest[CTX_LENGTH_LEN..] == ctx + body;
      assert (ctx + body)[..|ctx|] == ctx && (ctx + body)[|ctx|..] == body;
    } else {
      assert rest == body;
    }
  }

  lemma KindRoundTrip(k: Kind)
    ensures KindOf(KindCode(k)) == k
  {
  }

  /** The frames that the repository's tests spell out, and the first byte of every kind. */
  lemma ByteExamples(call: u32, body: Bytes)
    ensures Encode(Header(Request, 4, false, false), [], Le32(7)) == [0x00, 4, 0, 0, 0, 7, 0, 0, 0]
    ensures Encode(Header(End, 4, false, false), [], []) == [0x04, 4, 0, 0, 0]
    ensures Encode(Header(Cancel, 0xABCDEF01, false, false), [], []) == [0x05, 0x01, 0xEF, 0xCD, 0xAB]
    ensures Encode(Header(Request, call, true, true), [], body)[0] == 0xC0
    ensures Encode(Header(Response, call, true, false), [], body)[0] == 0x81
    ensures Encode(Header(Error, call, false, false), [], body)[0] == 0x02
    ensures Encode(Header(Item, call, true, false), [], body)[0] == 0x83
    ensures Encode(Header(Credit, call, false, false), [], body)[0] == 0x06
  {
  }

  /** The read-back law holds for sendable frames and for no others. */
  lemma RoundTripExactly(h: Header, ctx: Bytes, body: Bytes, maxCtxLen: int)
    ensures Decode(Encode(h, ctx, body), maxCtxLen) == Ok(Parsed(h, ctx, body)) <==> Sendable(h, ctx, maxCtxLen)
  {
    if Sendable(h, ctx, maxCtxLen) {
      DecodeEncode(h, ctx, body, maxCtxLen);
    }
  }

  /** Every accepted payload has one meaning and one spelling: re-encoding what was
      decoded gives the payload again, and what was decoded is sendable. */
  lemma EncodeDecode(payload: Bytes, maxCtxLen: int)
    requires Decode(payload, maxCtxLen).Ok?
    ensures var p := Decode(payload, maxCtxLen).value;
            && Encode(p.header, p.ctx, p.body) == payload
            && Sendable(p.header, p.ctx, maxCtxLen)
  {
    var p := Decode(payload, maxCtxLen).value;
    FirstByteRebuilt(payload[0]);
    Le32OfWord(payload[1..]);
    assert payload == [payload[0]] + payload[1..][..4] + payload[HEADER_LEN..];
    var rest := payload[HEADER_LEN..];
    if p.header.hasCtx {
      Le32OfWord(rest);
      var after := rest[CTX_LENGTH_LEN..];
      assert rest == rest[..4] + after;
      assert after == p.ctx + p.body;
      assert |p.ctx| % U32_SPAN == Word(rest) as int;
    }
  }

  lemma FirstByteRebuilt(first: byte)
    requires ReservedBitsOf(first) == 0 && KindBits(first) <= 6
    ensures forall call: u32 ::
              FirstByte(Header(KindOf(KindBits(first)), call, CompressedFlag(first), CtxFlag(first))) == first
  {
    assert first == 128 * (first / 128) + 64 * (first / 64 % 2) + 8 * (first / 8 % 8) + first % 8;
  }
}
