/** Vocabulary shared by every component: fixed-width integers, byte strings,
    instants and the usual wrappers. */
module Basics {

  const U32_MAX: int := 0xFFFF_FFFF
  const U32_SPAN: int := 0x1_0000_0000

  /** A Go `uint32`. Wrap-around is always written out. */
  newtype u32 = x: int | 0 <= x <= 0xFFFF_FFFF

  newtype byte = x: int | 0 <= x < 256

  type Bytes = seq<byte>

  /** A Go `time.Time` or `time.Duration` in nanoseconds. The instant 0 is the zero
      value of `time.Time`, which the program reads as "no instant". */
  type Time = int

  const MILLISECOND: int := 1_000_000

  datatype Option<+T> = None | Some(value: T)

  datatype Result<+T, +E> = Ok(value: T) | Err(error: E)

  function Min(a: int, b: int): int { if a < b then a else b }

  function Max(a: int, b: int): int { if a < b then b else a }

  /** Appending is associative, and appending nothing changes nothing. */
  lemma Regroup<T>(a: seq<T>, b: seq<T>, c: seq<T>)
    ensures a + (b + c) == a + b + c
  {
  }

  lemma NothingAdded<T>(a: seq<T>)
    ensures a + [] == a && [] + a == a
  {
  }

  /** The four bytes of a word, least significant first. */
  function Le32(v: u32): (b: Bytes)
    ensures |b| == 4
  {
    [(v % 256) as byte, (v / 256 % 256) as byte, (v / 65536 % 256) as byte, (v / 16777216) as byte]
  }

  /** The word spelled by the first four bytes. */
  function Word(b: Bytes): u32
    requires |b| >= 4
  {
    var b0, b1, b2, b3 := b[0] as int, b[1] as int, b[2] as int, b[3] as int;
    (b0 + 256 * b1 + 65536 * b2 + 16777216 * b3) as u32
  }

  /** `Word` reads back what `Le32` wrote, whatever follows it. */
  lemma WordOfLe32(v: u32, tail: Bytes)
    ensures Word(Le32(v) + tail) == v
  {
    var b := Le32(v) + tail;
    assert b[..4] == Le32(v);
    assert v / 256 == 256 * (v / 65536) + v / 256 % 256;
    assert v / 65536 == 256 * (v / 16777216) + v / 65536 % 256;
  }

  lemma Digits(b0: int, b1: int, b2: int, b3: int)
    requires 0 <= b0 < 256 && 0 <= b1 < 256 && 0 <= b2 < 256 && 0 <= b3 < 256
    ensures var v := b0 + 256 * b1 + 65536 * b2 + 16777216 * b3;
            v % 256 == b0 && v / 256 % 256 == b1 && v / 65536 % 256 == b2 && v / 16777216 == b3
  {
    var v := b0 + 256 * b1 + 65536 * b2 + 16777216 * b3;
    assert v / 256 == b1 + 256 * (b2 + 256 * b3);
    assert v / 65536 == b2 + 256 * b3;
  }

  /** Four bytes have one spelling: writing the word back gives them again. */
  lemma Le32OfWord(b: Bytes)
    requires |b| >= 4
    ensures Le32(Word(b)) == b[..4]
  {
    Digits(b[0] as int, b[1] as int, b[2] as int, b[3] as int);
  }

  /** `saturatingAdd` (outbox.go): the sum, held at the largest word. */
  function SaturatingAdd(left: u32, right: u32): (sum: u32)
    ensures sum as int <= left as int + right as int
    ensures left <= sum && right <= sum
    ensures left as int + right as int <= U32_MAX ==> sum as int == left as int + right as int
  {
    if left as int + right as int > U32_MAX then U32_MAX as u32 else left + right
  }

  predicate IsLeast(k: u32, keys: set<u32>) {
    k in keys && forall j :: j in keys ==> k <= j
  }

  lemma LeastExists(keys: set<u32>)
    requires keys != {}
    ensures exists k :: IsLeast(k, keys)
  {
    var k :| k in keys;
    var rest := keys - {k};
    if rest == {} {
      assert keys == {k};
      assert IsLeast(k, keys);
    } else {
      LeastExists(rest);
      var m :| IsLeast(m, rest);
      assert forall j :: j in keys ==> j == k || j in rest;
      assert IsLeast(if k < m then k else m, keys);
    }
  }

  /** The keys of a table in ascending order (`sortedKeys` in core.go). */
  function SortedKeys(keys: set<u32>): seq<u32> {
    if keys == {} then []
    else
      LeastExists(keys);
      var least :| IsLeast(least, keys);
      [least] + SortedKeys(keys - {least})
  }

  /** The list holds every key once, in ascending order, and nothing else. */
  lemma {:induction false} SortedKeysSorted(keys: set<u32>)
    ensures forall k :: k in SortedKeys(keys) <==> k in keys
    ensures forall i, j :: 0 <= i < j < |SortedKeys(keys)| ==> SortedKeys(keys)[i] < SortedKeys(keys)[j]
  {
    if keys != {} {
      LeastExists(keys);
      var least :| IsLeast(least, keys);
      var rest := SortedKeys(keys - {least});
      SortedKeysSorted(keys - {least});
      assert SortedKeys(keys) == [least] + rest;
      assert forall i :: 0 <= i < |rest| ==> rest[i] in keys - {least};
    }
  }

  lemma {:induction false} SortedKeysHas(keys: set<u32>, k: u32)
    ensures k in SortedKeys(keys) <==> k in keys
  {
    SortedKeysSorted(keys);
  }
}
