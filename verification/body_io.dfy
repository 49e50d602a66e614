/** The hand-written reader and writer of model bodies (model.go). */
module BodyIO {
  import opened Basics
  import opened Layout

  /** `BodyReader`: a cursor over a byte string. At the end of the string a read answers
      "absent"; inside a field that the string ends in, it answers an error. */
  class BodyReader {
    const bytes: Bytes
    var cursor: nat

    ghost predicate Valid()
      reads this
    {
      cursor <= |bytes|
    }

    ghost function Rest(): Bytes
      requires Valid()
      reads this
    {
      bytes[cursor..]
    }

    constructor (bytes: Bytes)
      ensures this.bytes == bytes && Valid() && Rest() == bytes
    {
      this.bytes := bytes;
      cursor := 0;
    }

    method ReadU32() returns (value: u32, present: bool, err: bool)
      requires Valid()
      modifies this
      ensures Valid()
      ensures old(Rest()) == [] ==> value == 0 && !present && !err && Rest() == []
      ensures old(Rest()) != [] ==>
                match Take(WordField, old(Rest()))
                case Broken => err && cursor == old(cursor)
                case Took(v, rest) => !err && present && v == Num(value) && Rest() == rest
    {
      if cursor >= |bytes| {
        return 0, false, false;
      }
      if |bytes| - cursor < 4 {
        return 0, false, true;
      }
      value := Word(bytes[cursor..]);
      cursor := cursor + 4;
      return value, true, false;
    }

    method ReadBytes() returns (value: Bytes, present: bool, err: bool)
      requires Valid()
      modifies this
      ensures Valid()
      ensures old(Rest()) == [] ==> value == [] && !present && !err && Rest() == []
      ensures old(Rest()) != [] ==>
                match Take(BytesField, old(Rest()))
                case Broken => err
                case Took(v, rest) => !err && present && v == Blob(value) && Rest() == rest
    {
      var length;
      length, present, err := ReadU32();
      if err || !present {
        return [], present, err;
      }
      if |bytes| - cursor < length as int {
        return [], false, true;
      }
      value := bytes[cursor..cursor + length as int];
      cursor := cursor + length as int;
      return value, true, false;
    }

    method ReadString() returns (value: Bytes, present: bool, err: bool)
      requires Valid()
      modifies this
      ensures Valid()
      ensures old(Rest()) == [] ==> value == [] && !present && !err && Rest() == []
      ensures old(Rest()) != [] ==>
                match Take(StringField, old(Rest()))
                case Broken => err
                case Took(v, rest) => !err && present && v == Blob(value) && Rest() == rest
    {
      value, present, err := ReadBytes();
      if err || !present {
        return [], present, err;
      }
      if !ValidUtf8(value) {
        return [], false, true;
      }
    }
  }

  /** `BodyWriter`: appends spelled fields to a buffer. */
  class BodyWriter {
    var buf: Bytes

    constructor ()
      ensures buf == []
    {
      buf := [];
    }

    method PutU32(value: u32)
      modifies this
      ensures buf == old(buf) + Spell(Num(value))
    {
      buf := buf + Le32(value);
    }

    method PutBytes(value: Bytes)
      modifies this
      ensures buf == old(buf) + Spell(Blob(value))
    {
      PutU32((|value| % U32_SPAN) as u32);
      buf := buf + value;
    }
  }
}
