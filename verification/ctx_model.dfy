/** The ctx block of a REQUEST and what it means (ctx.go). Strings are the bytes of the Go
    string; nil and empty slices are one value. */
module CtxModel {
  import opened Basics
  import opened Layout

  datatype Ctx = Ctx(
    deadlineMs: u32,
    traceID: Bytes,
    spanID: Bytes,
    token: Bytes,
    tenant: Bytes,
    idempotencyKey: Bytes,
    initialCredit: u32)
  {
    predicate HasDeadline() { deadlineMs != 0 }

    predicate IsEmpty() {
      deadlineMs == 0 && traceID == [] && spanID == [] && token == [] && tenant == [] && idempotencyKey == []
      && initialCredit == 0
    }
  }

  const EMPTY_CTX := Ctx(0, [], [], [], [], [], 0)

  const LAYOUT: seq<FieldKind> :=
    [WordField, BytesField, BytesField, StringField, StringField, BytesField, WordField]

  function ValuesOf(c: Ctx): (values: seq<FieldValue>)
    ensures |values| == |LAYOUT|
  {
    [Num(c.deadlineMs), Blob(c.traceID), Blob(c.spanID), Blob(c.token), Blob(c.tenant),
     Blob(c.idempotencyKey), Num(c.initialCredit)]
  }

  function WordAt(values: seq<FieldValue>, i: nat): u32 {
    if i < |values| && values[i].Num? then values[i].word else 0
  }

  function BlobAt(values: seq<FieldValue>, i: nat): Bytes {
    if i < |values| && values[i].Blob? then values[i].bytes else []
  }

  function CtxOf(values: seq<FieldValue>): Ctx {
    Ctx(WordAt(values, 0), BlobAt(values, 1), BlobAt(values, 2), BlobAt(values, 3), BlobAt(values, 4),
        BlobAt(values, 5), WordAt(values, 6))
  }

  /** What a ctx block means: its fields by the layout rules. */
  function Meaning(block: Bytes): Option<Ctx> {
    match Fields(LAYOUT, block)
    case None => None
    case Some(values) => Some(CtxOf(values))
  }

  function Encoding(c: Ctx): Bytes { Spelling(ValuesOf(c), |LAYOUT|) }
}
