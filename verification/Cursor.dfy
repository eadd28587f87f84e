/** The reading cursor over a copy of the receive buffer (shared/src/cursor.rs). */
module Cursors {
  import opened Datatypes
  import opened Bytes
  import opened Text
  import opened Varint

  // ----- What a read at a position finds -----

  datatype StringRead = StringRead(text: String, next: nat)

  /** The length-prefixed UTF-8 string at `p` and the position after it. */
  function Utf8StringAt(b: seq<byte>, p: nat): (r: Result<StringRead>)
    requires p <= |b|
    ensures r.Ok? ==> p + 1 <= r.value.next <= |b| && |r.value.text| < r.value.next - p
  {
    var length :- VarintAt(b, p);
    var start := p + length.size;
    var size := ToUsize(length.value);
    if |b| - start < size then Err(TooSmall)
    else if ValidUtf8(b[start..start + size]) then Ok(StringRead(b[start..start + size], start + size))
    else Err(NotValidStringEncoding)
  }

  /** The UTF-16 string at `p`, preceded by its number of units, and the position after it. */
  function Utf16StringAt(b: seq<byte>, p: nat): (r: Result<StringRead>)
    requires p <= |b|
    ensures r.Ok? ==> p + 2 <= r.value.next < |b| && r.value.next == p + 2 + 2 * Be16(b, p)
    ensures r.Err? ==> r.error in {TooSmall, NotValidStringEncoding}
  {
    if |b| - p < 2 then Err(TooSmall)
    else
      var n := Be16(b, p);
      // one byte more than the string is required to be there
      if |b| - (p + 2) <= 2 * n then Err(TooSmall)
      else
        match DecodeUtf16(Units(b, p + 2, n))
        case None => Err(NotValidStringEncoding)
        case Some(chars) => Ok(StringRead(Utf8(chars), p + 2 + 2 * n))
  }

  predicate BytesAt(b: seq<byte>, p: nat, expected: seq<byte>) {
    p + |expected| <= |b| && b[p..p + |expected|] == expected
  }

  lemma BytesAtEach(b: seq<byte>, p: nat, expected: seq<byte>)
    ensures BytesAt(b, p, expected)
       <==> p + |expected| <= |b| && forall j :: p <= j < p + |expected| ==> b[j] == expected[j - p]
  {
    if BytesAt(b, p, expected) {
      assert forall j :: p <= j < p + |expected| ==> b[j] == b[p..p + |expected|][j - p];
    }
  }

  // ----- The cursor -----

  class Cursor {
    const buf: seq<byte>
    var pos: nat

    ghost predicate Valid()
      reads this
    {
      pos <= |buf|
    }

    constructor (buf: seq<byte>)
      ensures this.buf == buf && pos == 0 && Valid()
    {
      this.buf := buf;
      pos := 0;
    }

    function Remaining(): (n: nat)
      requires Valid()
      reads this
    {
      |buf| - pos
    }

    method ThrowErrorIfSmaller(size: nat) returns (r: Result<()>)
      requires Valid()
      ensures r == if |buf| - pos < size then Err(TooSmall) else Ok(())
    {
      if Remaining() < size {
        return Err(TooSmall);
      }
      return Ok(());
    }

    method GetU8() returns (v: byte)
      requires Valid() && Remaining() >= 1
      modifies this
      ensures Valid() && pos == old(pos) + 1 && v == buf[old(pos)]
    {
      v := buf[pos];
      pos := pos + 1;
    }

    method GetU16() returns (v: u16)
      requires Valid() && Remaining() >= 2
      modifies this
      ensures Valid() && pos == old(pos) + 2 && v == Be16(buf, old(pos))
    {
      v := Be16(buf, pos);
      pos := pos + 2;
    }

    method GetU32() returns (v: u32)
      requires Valid() && Remaining() >= 4
      modifies this
      ensures Valid() && pos == old(pos) + 4 && v == Be32(buf, old(pos))
    {
      v := Be32(buf, pos);
      pos := pos + 4;
    }

    /** Advances only on success. */
    method GetVarint() returns (r: Result<i32>)
      requires Valid()
      modifies this
      ensures Valid()
      ensures var found := VarintAt(buf, old(pos));
              if found.Ok? then r == Ok(found.value.value) && pos == old(pos) + found.value.size
              else r == Err(found.error) && pos == old(pos)
    {
      var found := Varint.GetVarint(buf, pos);
      if found.Err? {
        return Err(found.error);
      }
      pos := pos + found.value.size;
      return Ok(found.value.value);
    }

    /**
     * Ends just past the string on success and where it began on an encoding error or a
     * bad length; only when bytes are missing does it stay behind the length.
     */
    method GetUtf8String() returns (r: Result<String>)
      requires Valid()
      modifies this
      ensures Valid()
      ensures var found := Utf8StringAt(buf, old(pos));
              if found.Ok? then r == Ok(found.value.text) && pos == found.value.next
              else r == Err(found.error) && (r.error != TooSmall ==> pos == old(pos))
    {
      var startPosition := pos;
      var length :- GetVarint();
      var size := ToUsize(length);
      var _ :- ThrowErrorIfSmaller(size);
      var blob := buf[pos..pos + size];
      pos := pos + size;
      if ValidUtf8(blob) {
        return Ok(blob);
      } else {
        pos := startPosition;
        return Err(NotValidStringEncoding);
      }
    }

    /** Ends just past the string on success and where it began on an encoding error. */
    method GetUtf16String() returns (r: Result<String>)
      requires Valid()
      modifies this
      ensures Valid()
      ensures var found := Utf16StringAt(buf, old(pos));
              if found.Ok? then r == Ok(found.value.text) && pos == found.value.next
              else r == Err(found.error) && (r.error != TooSmall ==> pos == old(pos))
    {
      var start := pos;
      var _ :- ThrowErrorIfSmaller(2);
      var size := GetU16();
      if Remaining() <= size * 2 {
        return Err(TooSmall);
      }
      // the weaker check for size * 2 bytes that follows in the source cannot fail here
      var units: seq<u16> := [];
      for i := 0 to size
        invariant Valid() && pos == start + 2 + 2 * i && start + 2 + 2 * size <= |buf|
        invariant units == Units(buf, start + 2, i)
      {
        var unit := GetU16();
        units := units + [unit];
      }
      match DecodeUtf16(units)
      case Some(chars) =>
        return Ok(Utf8(chars));
      case None =>
        pos := start;
        return Err(NotValidStringEncoding);
    }

    /** Advances past the bytes exactly when they are next in the buffer. */
    method MatchBytes(bytes: seq<byte>) returns (matched: bool)
      requires Valid()
      modifies this
      ensures Valid()
      ensures matched == BytesAt(buf, old(pos), bytes)
      ensures pos == if matched then old(pos) + |bytes| else old(pos)
    {
      if Remaining() < |bytes| {
        return false;
      }
      for i := 0 to |bytes|
        invariant pos == old(pos)
        invariant forall j :: 0 <= j < i ==> buf[pos + j] == bytes[j]
      {
        if buf[pos + i] != bytes[i] {
          assert buf[pos..pos + |bytes|][i] == buf[pos + i];
          return false;
        }
      }
      pos := pos + |bytes|;
      return true;
    }
  }
}
