/** The Fomoxa field layout that both ctx codecs implement: fields in declaration order,
    a word as four little-endian bytes, bytes and strings behind a word that counts
    bytes. Section 9.1 of Fomoxa RFC-0002 lets a reader meet a shorter or a longer
    writer: a stream that stops between two fields means "the rest is absent", a stream
    that stops inside a field is an error, and bytes after the last field are ignored. */
module Layout {
  import opened Basics

  datatype FieldKind = WordField | BytesField | StringField

  datatype FieldValue = Num(word: u32) | Blob(bytes: Bytes)

  datatype Took = Broken | Took(value: FieldValue, rest: Bytes)

  /** UTF-8 as section 4 of RFC 3629 defines it. */
  predicate ValidUtf8(b: Bytes) {
    if b == [] then true
    else
      var width := Utf8Width(b);
      width > 0 && ValidUtf8(b[width..])
  }

  predicate Tail(b: byte) { 0x80 <= b <= 0xBF }

  /** The length of the well-formed character at the front, or 0. */
  function Utf8Width(b: Bytes): (width: nat)
    requires b != []
    ensures width <= |b|
  {
    if b[0] <= 0x7F then 1
    else if 0xC2 <= b[0] <= 0xDF && |b| >= 2 && Tail(b[1]) then 2
    else if 0xE0 <= b[0] <= 0xEF && |b| >= 3 && Tail(b[1]) && Tail(b[2])
            && (b[0] == 0xE0 ==> b[1] >= 0xA0) && (b[0] == 0xED ==> b[1] <= 0x9F) then 3
    else if 0xF0 <= b[0] <= 0xF4 && |b| >= 4 && Tail(b[1]) && Tail(b[2]) && Tail(b[3])
            && (b[0] == 0xF0 ==> b[1] >= 0x90) && (b[0] == 0xF4 ==> b[1] <= 0x8F) then 4
    else 0
  }

  function Zero(kind: FieldKind): FieldValue {
    if kind.WordField? then Num(0) else Blob([])
  }

  function Zeros(kinds: seq<FieldKind>): seq<FieldValue> {
    if kinds == [] then [] else [Zero(kinds[0])] + Zeros(kinds[1..])
  }

  /** A value of the Go type the field has; strings may hold any bytes. */
  predicate Typed(kind: FieldKind, v: FieldValue) { v.Num? <==> kind.WordField? }

  /** A value that its own spelling stands for. */
  predicate Spellable(kind: FieldKind, v: FieldValue) {
    Typed(kind, v) && (v.Blob? ==> |v.bytes| <= U32_MAX && (kind.StringField? ==> ValidUtf8(v.bytes)))
  }

  function Spell(v: FieldValue): (b: Bytes)
    ensures |b| >= 4
  {
    match v
    case Num(word) => Le32(word)
    case Blob(bytes) => Le32((|bytes| % U32_SPAN) as u32) + bytes
  }

  /** Reads one field off the front of a stream that has not ended. */
  function Take(kind: FieldKind, b: Bytes): Took {
    if |b| < 4 then Broken
    else if kind.WordField? then Took(Num(Word(b)), b[4..])
    else
      var length := Word(b) as int;
      if |b| - 4 < length then Broken
      else
        var bytes := b[4..4 + length];
        if kind.StringField? && !ValidUtf8(bytes) then Broken else Took(Blob(bytes), b[4 + length..])
  }

  function Fields(kinds: seq<FieldKind>, b: Bytes): Option<seq<FieldValue>> {
    if kinds == [] then Some([])
    else if b == [] then Some(Zeros(kinds))
    else
      match Take(kinds[0], b)
      case Broken => None
      case Took(v, rest) => Prepend([v], Fields(kinds[1..], rest))
  }

  function Prepend(head: seq<FieldValue>, tail: Option<seq<FieldValue>>): Option<seq<FieldValue>> {
    match tail
    case None => None
    case Some(values) => Some(head + values)
  }

  predicate AllTyped(kinds: seq<FieldKind>, values: seq<FieldValue>) {
    |kinds| == |values| && (kinds != [] ==> Typed(kinds[0], values[0]) && AllTyped(kinds[1..], values[1..]))
  }

  predicate AllSpellable(kinds: seq<FieldKind>, values: seq<FieldValue>) {
    |kinds| == |values| && (kinds != [] ==> Spellable(kinds[0], values[0]) && AllSpellable(kinds[1..], values[1..]))
  }

  /** The spelling of the first k fields. */
  function Spelling(values: seq<FieldValue>, k: nat): Bytes
    requires k <= |values|
  {
    if k == 0 then [] else Spell(values[0]) + Spelling(values[1..], k - 1)
  }

  /** One field is read back, and nothing after it is touched, exactly when its value
      is spellable. */
  lemma TakeSpell(kind: FieldKind, v: FieldValue, rest: Bytes)
    requires Typed(kind, v)
    ensures Take(kind, Spell(v) + rest) == Took(v, rest) <==> Spellable(kind, v)
  {
    var b := Spell(v) + rest;
    match v {
      case Num(word) =>
        WordOfLe32(word, rest);
        assert b[4..] == rest;
      case Blob(bytes) =>
        assert b == Le32((|bytes| % U32_SPAN) as u32) + (bytes + rest);
        WordOfLe32((|bytes| % U32_SPAN) as u32, bytes + rest);
        if |bytes| <= U32_MAX {
          assert b[4..4 + |bytes|] == bytes && b[4 + |bytes|..] == rest;
        } else {
          assert |bytes| % U32_SPAN < |bytes|;
        }
    }
  }

  /** A field cut inside its spelling is broken, whatever its kind. */
  lemma TakeCut(kind: FieldKind, v: FieldValue, n: nat)
    requires Spellable(kind, v) && n < |Spell(v)|
    ensures Take(kind, Spell(v)[..n]) == Broken
  {
    if n >= 4 {
      var part := v.bytes[..n - 4];
      assert Spell(v)[..n] == Le32(|v.bytes| as u32) + part;
      WordOfLe32(|v.bytes| as u32, part);
      assert Word(Spell(v)[..n]) as int == |v.bytes| > n - 4;
    }
  }

  /** Decoding steps over a spellable field in front. */
  lemma StepOver(kinds: seq<FieldKind>, v: FieldValue, rest: Bytes)
    requires kinds != [] && Spellable(kinds[0], v)
    ensures Fields(kinds, Spell(v) + rest) == Prepend([v], Fields(kinds[1..], rest))
  {
    TakeSpell(kinds[0], v, rest);
  }

  /** Forward compatibility: every spelling is read back, and bytes appended by a newer
      writer change nothing. */
  lemma {:induction false} ReadBack(kinds: seq<FieldKind>, values: seq<FieldValue>, extra: Bytes)
    requires AllSpellable(kinds, values)
    ensures Fields(kinds, Spelling(values, |values|) + extra) == Some(values)
  {
    if kinds != [] {
      var rest := Spelling(values[1..], |values| - 1) + extra;
      assert Spelling(values, |values|) + extra == Spell(values[0]) + rest;
      StepOver(kinds, values[0], rest);
      ReadBack(kinds[1..], values[1..], extra);
      assert [values[0]] + values[1..] == values;
    }
  }

  /** The read-back law holds for spellable values and no others: an over-long blob or
      a string that is not UTF-8 does not survive. */
  lemma {:induction false} ReadBackExactly(kinds: seq<FieldKind>, values: seq<FieldValue>)
    requires AllTyped(kinds, values)
    ensures Fields(kinds, Spelling(values, |values|)) == Some(values) <==> AllSpellable(kinds, values)
  {
    var b := Spelling(values, |values|);
    if AllSpellable(kinds, values) {
      ReadBack(kinds, values, []);
      assert b + [] == b;
    } else if Fields(kinds, b) == Some(values) {
      var rest := Spelling(values[1..], |values| - 1);
      var took := Take(kinds[0], Spell(values[0]) + rest);
      var tail := Fields(kinds[1..], took.rest);
      assert [took.value] + tail.value == values;
      assert took.value == values[0] && tail.value == values[1..];
      TakeRest(kinds[0], values[0], rest);
      TakeSpell(kinds[0], values[0], rest);
      ReadBackExactly(kinds[1..], values[1..]);
    }
  }

  /** A field read back with its own value leaves the stream just behind its spelling. */
  lemma TakeRest(kind: FieldKind, v: FieldValue, rest: Bytes)
    requires Typed(kind, v)
    requires var took := Take(kind, Spell(v) + rest); took.Took? && took.value == v
    ensures Take(kind, Spell(v) + rest).rest == rest
  {
    var b := Spell(v) + rest;
    if v.Num? {
      assert b[4..] == rest;
    } else {
      assert b == Le32((|v.bytes| % U32_SPAN) as u32) + (v.bytes + rest);
      WordOfLe32((|v.bytes| % U32_SPAN) as u32, v.bytes + rest);
      assert b[4 + |v.bytes|..] == rest;
    }
  }

  /** Backward compatibility: a stream that stops after its first k fields yields those
      and zero for every field behind them. */
  lemma {:induction false} CutBetween(kinds: seq<FieldKind>, values: seq<FieldValue>, k: nat)
    requires AllSpellable(kinds, values) && k <= |kinds|
    ensures Fields(kinds, Spelling(values, k)) == Some(values[..k] + Zeros(kinds[k..]))
  {
    hide Take, Spell, Spellable, Utf8Width, Zero;
    if k == 0 {
      assert kinds[0..] == kinds;
      assert values[..0] + Zeros(kinds) == Zeros(kinds);
    } else {
      hide Fields, Zeros;
      StepOver(kinds, values[0], Spelling(values[1..], k - 1));
      CutBetween(kinds[1..], values[1..], k - 1);
      assert kinds[1..][k - 1..] == kinds[k..];
      assert [values[0]] + (values[1..][..k - 1] + Zeros(kinds[k..])) == values[..k] + Zeros(kinds[k..]);
    }
  }

  /** A field that cannot be read spoils the whole stream, wherever it stands. */
  lemma {:induction false} BrokenAt(kinds: seq<FieldKind>, values: seq<FieldValue>, k: nat, part: Bytes)
    requires AllSpellable(kinds, values) && k < |kinds|
    requires part != [] && Take(kinds[k], part) == Broken
    ensures Fields(kinds, Spelling(values, k) + part) == None
  {
    if k == 0 {
      assert Spelling(values, 0) + part == part;
    } else {
      var rest := Spelling(values[1..], k - 1) + part;
      BrokenAt(kinds[1..], values[1..], k - 1, part);
      StepOver(kinds, values[0], rest);
      assert Spelling(values, k) + part == Spell(values[0]) + rest;
    }
  }

  /** A stream that stops inside field k, after n of its bytes, is an error. */
  lemma CutInside(kinds: seq<FieldKind>, values: seq<FieldValue>, k: nat, n: nat)
    requires AllSpellable(kinds, values) && k < |kinds|
    requires 0 < n < |Spell(values[k])|
    ensures Fields(kinds, Spelling(values, k) + Spell(values[k])[..n]) == None
  {
    SpellableAt(kinds, values, k);
    TakeCut(kinds[k], values[k], n);
    BrokenAt(kinds, values, k, Spell(values[k])[..n]);
  }

  lemma {:induction false} SpellableAt(kinds: seq<FieldKind>, values: seq<FieldValue>, k: nat)
    requires AllSpellable(kinds, values) && k < |kinds|
    ensures Spellable(kinds[k], values[k])
  {
    if k > 0 {
      SpellableAt(kinds[1..], values[1..], k - 1);
    }
  }
}
