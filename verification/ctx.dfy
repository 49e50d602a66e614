/** The hand-written codec of the ctx block (ctx.go). */
module CtxCodec {
  import opened Basics
  import opened Layout
  import opened BodyIO
  import opened CtxModel

  /** The fields read so far, followed by whatever the layout finds in the rest. */
  function Continue(read: seq<FieldValue>, rest: Bytes): Option<seq<FieldValue>>
    requires |read| <= |LAYOUT|
  {
    Prepend(read, Fields(LAYOUT[|read|..], rest))
  }

  /** One field further: this is the step both decoders take seven times. */
  lemma ReadOn(read: seq<FieldValue>, rest: Bytes)
    requires |read| < |LAYOUT|
    ensures rest == [] ==> Continue(read, rest) == Continue(read + [Zero(LAYOUT[|read|])], [])
    ensures rest != [] ==>
              match Take(LAYOUT[|read|], rest)
              case Broken => Continue(read, rest) == None
              case Took(v, rest') => Continue(read, rest) == Continue(read + [v], rest')
  {
    hide Take;
    var kinds := LAYOUT[|read|..];
    assert kinds[0] == LAYOUT[|read|] && kinds[1..] == LAYOUT[|read| + 1..];
    hide LAYOUT;
    if rest == [] {
      NothingLeft(kinds[1..]);
      assert read + ([Zero(kinds[0])] + Zeros(kinds[1..])) == read + [Zero(kinds[0])] + Zeros(kinds[1..]);
    } else {
      match Take(kinds[0], rest) {
        case Broken =>
        case Took(v, rest') =>
          var tail := Fields(kinds[1..], rest');
          if tail.Some? {
            assert read + ([v] + tail.value) == read + [v] + tail.value;
          }
      }
    }
  }

  lemma NothingLeft(kinds: seq<FieldKind>)
    ensures Fields(kinds, []) == Some(Zeros(kinds))
  {
  }

  /** With nothing left, the remaining fields are zero. */
  lemma {:induction false} Absent(read: seq<FieldValue>)
    requires |read| <= |LAYOUT|
    ensures Continue(read, []) == Some(read + Zeros(LAYOUT[|read|..]))
  {
    NothingLeft(LAYOUT[|read|..]);
  }

  /** Appending zeros changes no field, since an unread field already reads as zero. */
  lemma ZerosUnseen(read: seq<FieldValue>)
    requires |read| <= |LAYOUT|
    ensures CtxOf(read + Zeros(LAYOUT[|read|..])) == CtxOf(read)
  {
    var kinds := LAYOUT[|read|..];
    forall i | 0 <= i < |kinds|
      ensures i < |Zeros(kinds)| && Zeros(kinds)[i] == Zero(kinds[i])
    {
      ZeroAt(kinds, i);
    }
    ZeroLength(kinds);
    var all := read + Zeros(kinds);
    forall i: nat
      ensures WordAt(all, i) == WordAt(read, i) && BlobAt(all, i) == BlobAt(read, i)
    {
      if |read| <= i < |all| {
        assert all[i] == Zeros(kinds)[i - |read|];
      }
    }
  }

  lemma {:induction false} ZeroAt(kinds: seq<FieldKind>, i: nat)
    requires i < |kinds|
    ensures i < |Zeros(kinds)| && Zeros(kinds)[i] == Zero(kinds[i])
  {
    if i > 0 {
      ZeroAt(kinds[1..], i - 1);
    }
  }

  lemma {:induction false} ZeroLength(kinds: seq<FieldKind>)
    ensures |Zeros(kinds)| == |kinds|
  {
    if kinds != [] {
      ZeroLength(kinds[1..]);
    }
  }

  /** `Ctx.Encode` (ctx.go). */
  method Encode(c: Ctx) returns (block: Bytes)
    ensures block == Encoding(c)
  {
    var w := new BodyWriter();
    w.PutU32(c.deadlineMs);
    w.PutBytes(c.traceID);
    w.PutBytes(c.spanID);
    w.PutBytes(c.token);
    w.PutBytes(c.tenant);
    w.PutBytes(c.idempotencyKey);
    w.PutU32(c.initialCredit);
    block := w.buf;
    SpelledInOrder(c);
  }

  /** The recursive spelling, written out field by field. */
  lemma SpelledInOrder(c: Ctx)
    ensures Encoding(c) ==
            Spell(Num(c.deadlineMs)) + Spell(Blob(c.traceID)) + Spell(Blob(c.spanID)) + Spell(Blob(c.token))
            + Spell(Blob(c.tenant)) + Spell(Blob(c.idempotencyKey)) + Spell(Num(c.initialCredit))
  {
    var v := ValuesOf(c);
    SpellingPeel(v, 6);
    SpellingPeel(v, 5);
    SpellingPeel(v, 4);
    SpellingPeel(v, 3);
    SpellingPeel(v, 2);
    SpellingPeel(v, 1);
    SpellingPeel(v, 0);
    assert [] + Spell(v[0]) == Spell(v[0]);
  }

  /** A spelling grows at its end by one field. */
  lemma {:induction false} SpellingPeel(values: seq<FieldValue>, k: nat)
    requires k < |values|
    ensures Spelling(values, k + 1) == Spelling(values, k) + Spell(values[k])
  {
    hide Spell;
    if k == 0 {
      NothingAdded(Spell(values[0]));
    } else {
      SpellingPeel(values[1..], k - 1);
      Regroup(Spell(values[0]), Spelling(values[1..], k - 1), Spell(values[k]));
    }
  }

  /** The fields in `read` have been taken off `block` and `rest` is what is left. */
  ghost predicate Accounted(read: seq<FieldValue>, rest: Bytes, block: Bytes) {
    |read| <= |LAYOUT| && Continue(read, rest) == Fields(LAYOUT, block)
  }

  /** The decoder may stop: it met an error, or the block ended between two fields. */
  ghost predicate Stopped(err: bool, read: seq<FieldValue>, block: Bytes) {
    if err then Meaning(block) == None else Meaning(block) == Some(CtxOf(read))
  }

  lemma StopHere(read: seq<FieldValue>, rest: Bytes, block: Bytes)
    requires Accounted(read, rest, block) && (rest == [] || |read| == |LAYOUT|)
    ensures Stopped(false, read, block)
  {
    Absent(read);
    ZerosUnseen(read);
  }

  /** One word field, read and accounted for. */
  method NextWord(reader: BodyReader, ghost read: seq<FieldValue>, ghost block: Bytes)
    returns (value: u32, present: bool, err: bool)
    requires reader.Valid() && Accounted(read, reader.Rest(), block)
    requires |read| < |LAYOUT| && LAYOUT[|read|] == WordField
    modifies reader
    ensures reader.Valid()
    ensures err || !present ==> Stopped(err, read, block)
    ensures !present && !err ==> value == 0
    ensures present && !err ==> Accounted(read + [Num(value)], reader.Rest(), block)
  {
    ghost var rest := reader.Rest();
    ReadOn(read, rest);
    value, present, err := reader.ReadU32();
    if !present && !err {
      StopHere(read, rest, block);
    }
  }

  /** One bytes or string field, read and accounted for. */
  method NextBlob(reader: BodyReader, text: bool, ghost read: seq<FieldValue>, ghost block: Bytes)
    returns (value: Bytes, present: bool, err: bool)
    requires reader.Valid() && Accounted(read, reader.Rest(), block)
    requires |read| < |LAYOUT| && LAYOUT[|read|] == if text then StringField else BytesField
    modifies reader
    ensures reader.Valid()
    ensures err || !present ==> Stopped(err, read, block)
    ensures !present && !err ==> value == []
    ensures present && !err ==> Accounted(read + [Blob(value)], reader.Rest(), block)
  {
    ghost var rest := reader.Rest();
    ReadOn(read, rest);
    if text {
      value, present, err := reader.ReadString();
    } else {
      value, present, err := reader.ReadBytes();
    }
    if !present && !err {
      StopHere(read, rest, block);
    }
  }

  function Answer(ctx: Ctx, err: bool): Option<Ctx> {
    if err then None else Some(ctx)
  }

  /** Fields 0 to 2 of `DecodeCtx`. */
  method ReadTracing(reader: BodyReader, ghost block: Bytes)
    returns (ctx: Ctx, done: bool, err: bool, ghost read: seq<FieldValue>)
    requires reader.Valid() && Accounted([], reader.Rest(), block)
    modifies reader
    ensures reader.Valid()
    ensures done ==> Answer(ctx, err) == Meaning(block)
    ensures !done ==> |read| == 3 && ctx == CtxOf(read) && Accounted(read, reader.Rest(), block)
  {
    read := [];
    ctx := EMPTY_CTX;

    var deadlineMs, hasDeadlineMs, badDeadlineMs := NextWord(reader, read, block);
    ctx := ctx.(deadlineMs := deadlineMs);
    if badDeadlineMs || !hasDeadlineMs {
      return ctx, true, badDeadlineMs, read;
    }
    read := read + [Num(deadlineMs)];

    var traceID, hasTraceID, badTraceID := NextBlob(reader, false, read, block);
    ctx := ctx.(traceID := traceID);
    if badTraceID || !hasTraceID {
      return ctx, true, badTraceID, read;
    }
    read := read + [Blob(traceID)];

    var spanID, hasSpanID, badSpanID := NextBlob(reader, false, read, block);
    ctx := ctx.(spanID := spanID);
    if badSpanID || !hasSpanID {
      return ctx, true, badSpanID, read;
    }
    read := read + [Blob(spanID)];
    done, err := false, false;
  }

  /** Fields 3 to 5 of `DecodeCtx`. */
  method ReadParty(reader: BodyReader, start: Ctx, ghost from: seq<FieldValue>, ghost block: Bytes)
    returns (ctx: Ctx, done: bool, err: bool, ghost read: seq<FieldValue>)
    requires reader.Valid() && Accounted(from, reader.Rest(), block)
    requires |from| == 3 && start == CtxOf(from)
    modifies reader
    ensures reader.Valid()
    ensures done ==> Answer(ctx, err) == Meaning(block)
    ensures !done ==> |read| == 6 && ctx == CtxOf(read) && Accounted(read, reader.Rest(), block)
  {
    read := from;
    ctx := start;

    var token, hasToken, badToken := NextBlob(reader, true, read, block);
    ctx := ctx.(token := token);
    if badToken || !hasToken {
      return ctx, true, badToken, read;
    }
    read := read + [Blob(token)];

    var tenant, hasTenant, badTenant := NextBlob(reader, true, read, block);
    ctx := ctx.(tenant := tenant);
    if badTenant || !hasTenant {
      return ctx, true, badTenant, read;
    }
    read := read + [Blob(tenant)];

    var idempotencyKey, hasIdempotencyKey, badIdempotencyKey := NextBlob(reader, false, read, block);
    ctx := ctx.(idempotencyKey := idempotencyKey);
    if badIdempotencyKey || !hasIdempotencyKey {
      return ctx, true, badIdempotencyKey, read;
    }
    read := read + [Blob(idempotencyKey)];
    done, err := false, false;
  }

  /** `DecodeCtx` (ctx.go): stops at the first absent field. */
  method DecodeCtx(block: Bytes) returns (r: Option<Ctx>)
    ensures r == Meaning(block)
  {
    var reader := new BodyReader(block);
    Start(block);
    var ctx, done, err;
    ghost var read;
    ctx, done, err, read := ReadTracing(reader, block);
    if done {
      return Answer(ctx, err);
    }
    ctx, done, err, read := ReadParty(reader, ctx, read, block);
    if done {
      return Answer(ctx, err);
    }
    var initialCredit, has, bad := NextWord(reader, read, block);
    ctx := ctx.(initialCredit := initialCredit);
    if has && !bad {
      read := read + [Num(initialCredit)];
      StopHere(read, reader.Rest(), block);
    }
    r := Answer(ctx, bad);
  }

  lemma Start(block: Bytes)
    ensures Continue([], block) == Fields(LAYOUT, block)
  {
    assert LAYOUT[0..] == LAYOUT;
    var all := Fields(LAYOUT, block);
    if all.Some? {
      assert [] + all.value == all.value;
    }
  }

  /** The hand-written codec inverts itself on exactly the ctx values whose strings are
      UTF-8 and whose blobs fit a word, and ignores whatever a newer writer appends. */
  lemma CtxRoundTrip(c: Ctx, extra: Bytes)
    ensures AllSpellable(LAYOUT, ValuesOf(c)) ==> Meaning(Encoding(c) + extra) == Some(c)
    ensures Fields(LAYOUT, Encoding(c)) == Some(ValuesOf(c)) <==> AllSpellable(LAYOUT, ValuesOf(c))
    ensures CtxOf(ValuesOf(c)) == c
  {
    TypedCtx(c);
    ReadBackExactly(LAYOUT, ValuesOf(c));
    if AllSpellable(LAYOUT, ValuesOf(c)) {
      ReadBack(LAYOUT, ValuesOf(c), extra);
    }
  }

  lemma TypedCtx(c: Ctx)
    ensures AllTyped(LAYOUT, ValuesOf(c))
  {
    TypedFrom(c, 7);
    assert LAYOUT[0..] == LAYOUT && ValuesOf(c)[0..] == ValuesOf(c);
  }

  lemma {:induction false} TypedFrom(c: Ctx, n: nat)
    requires n <= 7
    ensures AllTyped(LAYOUT[7 - n..], ValuesOf(c)[7 - n..])
  {
    if n > 0 {
      TypedFrom(c, n - 1);
      assert LAYOUT[7 - n..][1..] == LAYOUT[7 - (n - 1)..];
      assert ValuesOf(c)[7 - n..][1..] == ValuesOf(c)[7 - (n - 1)..];
    }
  }

  /** A block cut between two fields keeps the fields in front of the cut and zeroes the
      rest; a block cut inside a field is refused. */
  lemma CtxCut(c: Ctx, k: nat, n: nat)
    requires AllSpellable(LAYOUT, ValuesOf(c)) && k < |LAYOUT|
    requires n < |Spell(ValuesOf(c)[k])|
    ensures Meaning(Spelling(ValuesOf(c), k) + Spell(ValuesOf(c)[k])[..n])
            == if n == 0 then Some(CtxOf(ValuesOf(c)[..k])) else None
  {
    var values := ValuesOf(c);
    if n == 0 {
      CutBetween(LAYOUT, values, k);
      ZerosUnseen(values[..k]);
      assert Spelling(values, k) + Spell(values[k])[..0] == Spelling(values, k);
    } else {
      CutInside(LAYOUT, values, k, n);
    }
  }
}
