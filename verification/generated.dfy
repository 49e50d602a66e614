/** The second implementation of the ctx layout: the runtime that fomoxac emits and the
    generated codec of FRpcCtx (examples/demo/generated). */
module Generated {
  import opened Basics
  import opened Layout
  import opened CtxModel
  import opened CtxCodec

  datatype DecodeError = UnexpectedEOF | InvalidUTF8 | LengthOverflow

  datatype Limits = Limits(maxStringLen: int, maxBytesLen: int)

  const UNLIMITED := Limits(U32_MAX, U32_MAX)

  /** The guard on a field of this kind. */
  function Guard(limits: Limits, kind: FieldKind): int {
    if kind.StringField? then limits.maxStringLen else limits.maxBytesLen
  }

  predicate Guards(limits: Limits, kind: FieldKind, v: FieldValue) { v.Blob? ==> |v.bytes| <= Guard(limits, kind) }

  /** Every field that is present keeps within its guard. */
  predicate Keeps(limits: Limits, kinds: seq<FieldKind>, b: Bytes) {
    if kinds == [] || b == [] then true
    else
      match Take(kinds[0], b)
      case Broken => true
      case Took(v, rest) => Guards(limits, kinds[0], v) && Keeps(limits, kinds[1..], rest)
  }

  /** With guards that are not negative, that is a condition on what the block means. */
  lemma {:induction false} KeepsMeans(limits: Limits, kinds: seq<FieldKind>, b: Bytes)
    requires limits.maxStringLen >= 0 && limits.maxBytesLen >= 0 && Fields(kinds, b).Some?
    ensures var values := Fields(kinds, b).value;
            && |values| == |kinds|
            && (Keeps(limits, kinds, b) <==> forall i :: 0 <= i < |kinds| ==> Guards(limits, kinds[i], values[i]))
  {
    if kinds != [] {
      if b == [] {
        ZeroLength(kinds);
        forall i | 0 <= i < |kinds|
          ensures Guards(limits, kinds[i], Zeros(kinds)[i])
        {
          ZeroAt(kinds, i);
        }
      } else {
        var took := Take(kinds[0], b);
        KeepsMeans(limits, kinds[1..], took.rest);
        var rest := Fields(kinds[1..], took.rest).value;
        assert Fields(kinds, b).value == [took.value] + rest;
        assert forall i :: 0 < i < |kinds| ==> kinds[i] == kinds[1..][i - 1] && ([took.value] + rest)[i] == rest[i - 1];
        assert forall i :: 0 <= i < |rest| ==> kinds[1..][i] == kinds[i + 1] && rest[i] == ([took.value] + rest)[i + 1];
      }
    }
  }

  /** No length is above the default guards. */
  lemma {:induction false} UnlimitedKeeps(kinds: seq<FieldKind>, b: Bytes)
    ensures Keeps(UNLIMITED, kinds, b)
  {
    if kinds != [] && b != [] && Take(kinds[0], b).Took? {
      UnlimitedKeeps(kinds[1..], Take(kinds[0], b).rest);
    }
  }

  /** The fields read so far are accounted for, and the rest decides whether all guards
      are kept. */
  ghost predicate Going(limits: Limits, read: seq<FieldValue>, rest: Bytes, block: Bytes) {
    Accounted(read, rest, block) && (Keeps(limits, LAYOUT[|read|..], rest) <==> Keeps(limits, LAYOUT, block))
  }

  /** The block means nothing, or a length in it is above its guard. */
  ghost predicate Refuses(limits: Limits, block: Bytes) { Meaning(block).None? || !Keeps(limits, LAYOUT, block) }

  /** One field further, for a guarding reader. */
  lemma GoOn(limits: Limits, read: seq<FieldValue>, rest: Bytes, block: Bytes)
    requires Going(limits, read, rest, block) && |read| < |LAYOUT|
    ensures var kind := LAYOUT[|read|];
            if rest == [] then Going(limits, read + [Zero(kind)], [], block)
            else
              match Guarded(kind, Guard(limits, kind), rest)
              case Broken => Refuses(limits, block)
              case Took(v, rest') => Going(limits, read + [v], rest', block)
  {
    hide Fields;
    var kinds := LAYOUT[|read|..];
    assert kinds[0] == LAYOUT[|read|] && kinds[1..] == LAYOUT[|read| + 1..];
    ReadOn(read, rest);
  }

  /** What a reader with an allocation guard makes of the field in front: the layout's
      answer, except that a length above the guard is refused unread. */
  function Guarded(kind: FieldKind, limit: int, b: Bytes): Took {
    if !kind.WordField? && |b| >= 4 && Word(b) as int > limit then Broken else Take(kind, b)
  }

  /** `Reader`: every failed read leaves the cursor where it was. */
  class Reader {
    const buf: Bytes
    const limits: Limits
    var pos: nat

    ghost predicate Valid()
      reads this
    {
      pos <= |buf|
    }

    ghost function Rest(): Bytes
      requires Valid()
      reads this
    {
      buf[pos..]
    }

    constructor (buf: Bytes, limits: Limits)
      ensures this.buf == buf && this.limits == limits && Valid() && Rest() == buf
    {
      this.buf, this.limits := buf, limits;
      pos := 0;
    }

    function Remaining(): nat
      requires Valid()
      reads this
    {
      |buf| - pos
    }

    predicate FieldAbsent()
      requires Valid()
      reads this
      ensures FieldAbsent() <==> Rest() == []
    {
      Remaining() == 0
    }

    method take(length: nat) returns (r: Result<Bytes, DecodeError>)
      requires Valid()
      modifies this
      ensures Valid()
      ensures r.Ok? <==> length <= |old(Rest())|
      ensures r.Ok? ==> r.value == old(Rest())[..length] && pos == old(pos) + length
      ensures r.Err? ==> pos == old(pos)
    {
      if length > Remaining() {
        return Err(UnexpectedEOF);
      }
      r := Ok(buf[pos..pos + length]);
      pos := pos + length;
    }

    method takeChecked(length: nat, start: nat) returns (r: Result<Bytes, DecodeError>)
      requires Valid() && start <= pos
      modifies this
      ensures Valid()
      ensures r.Ok? <==> length <= |old(Rest())|
      ensures r.Ok? ==> r.value == old(Rest())[..length] && pos == old(pos) + length
      ensures r.Err? ==> pos == start
    {
      if length > Remaining() {
        pos := start;
        return Err(UnexpectedEOF);
      }
      r := take(length);
    }

    method ReadU32() returns (r: Result<u32, DecodeError>)
      requires Valid()
      modifies this
      ensures Valid()
      ensures match Take(WordField, old(Rest()))
              case Broken => r.Err? && pos == old(pos)
              case Took(v, rest) => r.Ok? && v == Num(r.value) && Rest() == rest && pos == old(pos) + 4
    {
      var bytes := take(4);
      if bytes.Err? {
        return Err(bytes.error);
      }
      r := Ok(Word(bytes.value));
    }

    method readLength(limit: int) returns (r: Result<u32, DecodeError>)
      requires Valid()
      modifies this
      ensures Valid()
      ensures r.Ok? <==> |old(Rest())| >= 4 && Word(old(Rest())) as int <= limit
      ensures r.Ok? ==> r.value == Word(old(Rest())) && pos == old(pos) + 4
      ensures r.Err? ==> pos == old(pos)
    {
      var start := pos;
      var length := ReadU32();
      if length.Err? {
        return Err(length.error);
      }
      if length.value as int > limit {
        pos := start;
        return Err(LengthOverflow);
      }
      r := length;
    }

    method ReadBytes() returns (r: Result<Bytes, DecodeError>)
      requires Valid()
      modifies this
      ensures Valid()
      ensures match Guarded(BytesField, limits.maxBytesLen, old(Rest()))
              case Broken => r.Err? && pos == old(pos)
              case Took(v, rest) => r.Ok? && v == Blob(r.value) && Rest() == rest
    {
      var start := pos;
      var length := readLength(limits.maxBytesLen);
      if length.Err? {
        return Err(length.error);
      }
      assert Rest() == old(Rest())[4..];
      r := takeChecked(length.value as int, start);
    }

    method ReadString() returns (r: Result<Bytes, DecodeError>)
      requires Valid()
      modifies this
      ensures Valid()
      ensures match Guarded(StringField, limits.maxStringLen, old(Rest()))
              case Broken => r.Err? && pos == old(pos)
              case Took(v, rest) => r.Ok? && v == Blob(r.value) && Rest() == rest
    {
      var start := pos;
      var length := readLength(limits.maxStringLen);
      if length.Err? {
        return Err(length.error);
      }
      assert Rest() == old(Rest())[4..];
      r := takeChecked(length.value as int, start);
      assert r.Ok? ==> r.value == old(Rest())[4..4 + length.value as int];
      if r.Ok? && !ValidUtf8(r.value) {
        pos := start;
        r := Err(InvalidUTF8);
      }
    }
  }

  /** `Writer`: appends Fomoxa-encoded values to a growable buffer. */
  class Writer {
    var buf: Bytes

    constructor ()
      ensures buf == []
    {
      buf := [];
    }

    method WriteU32(value: u32)
      modifies this
      ensures buf == old(buf) + Spell(Num(value))
    {
      var tmp := Le32(value);
      buf := buf + tmp;
    }

    method WriteBytes(value: Bytes)
      modifies this
      ensures buf == old(buf) + Spell(Blob(value))
    {
      WriteU32((|value| % U32_SPAN) as u32);
      buf := buf + value;
    }
  }

  /** The generated model (`models.FRpcCtx`): a record the decoder fills in place. */
  class FRpcCtx {
    var DeadlineMs: u32
    var TraceId: Bytes
    var SpanId: Bytes
    var Token: Bytes
    var Tenant: Bytes
    var IdempotencyKey: Bytes
    var InitialCredit: u32

    constructor () {
      DeadlineMs, TraceId, SpanId, Token, Tenant, IdempotencyKey, InitialCredit := 0, [], [], [], [], [], 0;
    }

    function Fields(): Ctx
      reads this
    {
      Ctx(DeadlineMs, TraceId, SpanId, Token, Tenant, IdempotencyKey, InitialCredit)
    }
  }

  /** `FRpcCtxRpcCodec.Encode`: byte for byte what the hand-written codec writes. */
  method EncodeModel(w: Writer, value: FRpcCtx)
    modifies w
    ensures w.buf == old(w.buf) + Encoding(value.Fields())
  {
    ghost var before := w.buf;
    ghost var c := value.Fields();
    w.WriteU32(value.DeadlineMs);
    w.WriteBytes(value.TraceId);
    w.WriteBytes(value.SpanId);
    w.WriteBytes(value.Token);
    w.WriteBytes(value.Tenant);
    w.WriteBytes(value.IdempotencyKey);
    w.WriteU32(value.InitialCredit);
    SpelledInOrder(c);
    RegroupAll(before, Spell(Num(c.deadlineMs)), Spell(Blob(c.traceID)), Spell(Blob(c.spanID)), Spell(Blob(c.token)),
            Spell(Blob(c.tenant)), Spell(Blob(c.idempotencyKey)), Spell(Num(c.initialCredit)));
  }

  lemma RegroupAll(x: Bytes, a: Bytes, b: Bytes, c: Bytes, d: Bytes, e: Bytes, f: Bytes, g: Bytes)
    ensures x + a + b + c + d + e + f + g == x + (a + b + c + d + e + f + g)
  {
  }

  /** The next word field: zero when the stream has ended, else read. */
  method FieldWord(r: Reader, ghost read: seq<FieldValue>, ghost block: Bytes) returns (v: Result<u32, DecodeError>)
    requires r.Valid() && Going(r.limits, read, r.Rest(), block)
    requires |read| < |LAYOUT| && LAYOUT[|read|] == WordField
    modifies r
    ensures r.Valid()
    ensures v.Err? ==> Refuses(r.limits, block)
    ensures v.Ok? ==> Going(r.limits, read + [Num(v.value)], r.Rest(), block)
  {
    hide Going, Refuses;
    GoOn(r.limits, read, r.Rest(), block);
    if r.FieldAbsent() {
      return Ok(0);
    }
    v := r.ReadU32();
  }

  /** The next bytes or string field: empty when the stream has ended, else read. */
  method FieldBlob(r: Reader, text: bool, ghost read: seq<FieldValue>, ghost block: Bytes)
    returns (v: Result<Bytes, DecodeError>)
    requires r.Valid() && Going(r.limits, read, r.Rest(), block)
    requires |read| < |LAYOUT| && LAYOUT[|read|] == if text then StringField else BytesField
    modifies r
    ensures r.Valid()
    ensures v.Err? ==> Refuses(r.limits, block)
    ensures v.Ok? ==> Going(r.limits, read + [Blob(v.value)], r.Rest(), block)
  {
    hide Going, Refuses, Guarded;
    GoOn(r.limits, read, r.Rest(), block);
    if r.FieldAbsent() {
      return Ok([]);
    }
    if text {
      v := r.ReadString();
    } else {
      v := r.ReadBytes();
    }
  }

  /** Fields 0 to 2 of the generated decoder. */
  method DecodeTracing(r: Reader, value: FRpcCtx, ghost block: Bytes) returns (ok: bool, ghost read: seq<FieldValue>)
    requires r.Valid() && Going(r.limits, [], r.Rest(), block)
    modifies r, value
    ensures r.Valid()
    ensures !ok ==> Refuses(r.limits, block)
    ensures ok ==> Going(r.limits, read, r.Rest(), block)
                   && read == [Num(value.DeadlineMs), Blob(value.TraceId), Blob(value.SpanId)]
  {
    hide Going, Refuses;
    read := [];
    var word := FieldWord(r, read, block);
    if word.Err? { return false, read; }
    value.DeadlineMs := word.value;
    read := read + [Num(word.value)];

    var trace := FieldBlob(r, false, read, block);
    if trace.Err? { return false, read; }
    value.TraceId := trace.value;
    read := read + [Blob(trace.value)];

    var span := FieldBlob(r, false, read, block);
    if span.Err? { return false, read; }
    value.SpanId := span.value;
    read := read + [Blob(span.value)];
    ok := true;
  }

  /** Fields 3 to 6 of the generated decoder. */
  method DecodeParty(r: Reader, value: FRpcCtx, ghost from: seq<FieldValue>, ghost block: Bytes)
    returns (ok: bool, ghost read: seq<FieldValue>)
    requires r.Valid() && |from| == 3 && Going(r.limits, from, r.Rest(), block)
    modifies r, value`Token, value`Tenant, value`IdempotencyKey, value`InitialCredit
    ensures r.Valid()
    ensures !ok ==> Refuses(r.limits, block)
    ensures ok ==> Going(r.limits, read, r.Rest(), block)
                   && read == from + [Blob(value.Token), Blob(value.Tenant), Blob(value.IdempotencyKey),
                                      Num(value.InitialCredit)]
  {
    hide Going, Refuses;
    read := from;
    var token := FieldBlob(r, true, read, block);
    if token.Err? { return false, read; }
    value.Token := token.value;
    read := read + [Blob(token.value)];

    var tenant := FieldBlob(r, true, read, block);
    if tenant.Err? { return false, read; }
    value.Tenant := tenant.value;
    read := read + [Blob(tenant.value)];

    var key := FieldBlob(r, false, read, block);
    if key.Err? { return false, read; }
    value.IdempotencyKey := key.value;
    read := read + [Blob(key.value)];

    var credit := FieldWord(r, read, block);
    if credit.Err? { return false, read; }
    value.InitialCredit := credit.value;
    read := read + [Num(credit.value)];
    ok := true;
  }

  /** `FRpcCtxRpcCodec.Decode`: it never stops early, yet accepts exactly the blocks that
      mean something and keep within the reader's guards, and yields what they mean. */
  method DecodeModel(r: Reader, value: FRpcCtx) returns (ok: bool)
    requires r.Valid()
    modifies r, value
    ensures r.Valid()
    ensures ok <==> old(Meaning(r.Rest())).Some? && old(Keeps(r.limits, LAYOUT, r.Rest()))
    ensures ok ==> old(Meaning(r.Rest())) == Some(value.Fields())
  {
    ghost var block := r.Rest();
    Start(block);
    assert LAYOUT[0..] == LAYOUT;
    hide Fields, Keeps;
    ghost var read;
    ok, read := DecodeTracing(r, value, block);
    if !ok { return; }
    ok, read := DecodeParty(r, value, read, block);
    if !ok { return; }
    StopHere(read, r.Rest(), block);
    AllRead(r.limits, r.Rest());
    assert CtxOf(read) == value.Fields();
  }

  lemma AllRead(limits: Limits, rest: Bytes)
    ensures Keeps(limits, LAYOUT[|LAYOUT|..], rest)
  {
  }

  /** The two decoders run side by side on one block, under the default guards. */
  method DecodersAgree(block: Bytes) returns (byHand: Option<Ctx>, generated: Option<Ctx>)
    ensures byHand == generated == Meaning(block)
  {
    byHand := DecodeCtx(block);
    var reader := new Reader(block, UNLIMITED);
    var model := new FRpcCtx();
    UnlimitedKeeps(LAYOUT, block);
    var ok := DecodeModel(reader, model);
    generated := if ok then Some(model.Fields()) else None;
  }
}
