/** Rust strings as valid UTF-8 (RFC 3629) and their UTF-16 form on the wire (RFC 2781). */
module Text {
  import opened Datatypes
  import opened Bytes

  /** A Unicode scalar value. */
  type Scalar = c: int | 0 <= c < 0xD800 || 0xE000 <= c < 0x11_0000

  // ----- UTF-8 -----

  predicate Continuation(x: byte) {
    0x80 <= x < 0xC0
  }

  /** The length of the well-formed character that starts `s` (section 4 of RFC 3629), or 0. */
  function CharLength(s: seq<byte>): (n: nat)
    ensures n <= |s| && n <= 4
  {
    if |s| >= 1 && s[0] < 0x80 then 1
    else if |s| >= 2 && 0xC2 <= s[0] < 0xE0 && Continuation(s[1]) then 2
    else if |s| >= 3 && 0xE0 <= s[0] < 0xF0 && Continuation(s[1]) && Continuation(s[2])
         && (s[0] == 0xE0 ==> s[1] >= 0xA0) && (s[0] == 0xED ==> s[1] < 0xA0) then 3
    else if |s| >= 4 && 0xF0 <= s[0] < 0xF5 && Continuation(s[1]) && Continuation(s[2]) && Continuation(s[3])
         && (s[0] == 0xF0 ==> s[1] >= 0x90) && (s[0] == 0xF4 ==> s[1] < 0x90) then 4
    else 0
  }

  predicate ValidUtf8(s: seq<byte>) {
    s == [] || (CharLength(s) > 0 && ValidUtf8(s[CharLength(s)..]))
  }

  /** A Rust `String`: bytes that are valid UTF-8. Its `len()` is the number of bytes. */
  type String = s: seq<byte> | ValidUtf8(s) witness []

  /** Section 3 of RFC 3629. */
  function CharUtf8(c: Scalar): (e: seq<byte>)
    ensures 1 <= |e| <= 4
  {
    if c < 0x80 then [c]
    else if c < 0x800 then [0xC0 + c / 0x40, 0x80 + c % 0x40]
    else if c < 0x1_0000 then [0xE0 + c / 0x1000, 0x80 + c / 0x40 % 0x40, 0x80 + c % 0x40]
    else [0xF0 + c / 0x4_0000, 0x80 + c / 0x1000 % 0x40, 0x80 + c / 0x40 % 0x40, 0x80 + c % 0x40]
  }

  lemma CharUtf8Valid(c: Scalar, rest: seq<byte>)
    ensures CharLength(CharUtf8(c) + rest) == |CharUtf8(c)|
  {
    var e := CharUtf8(c);
    assert forall i :: 0 <= i < |e| ==> (e + rest)[i] == e[i];
  }

  function Utf8(chars: seq<Scalar>): String {
    if chars == [] then []
    else
      var rest := Utf8(chars[1..]);
      var s := CharUtf8(chars[0]) + rest;
      CharUtf8Valid(chars[0], rest);
      assert s[CharLength(s)..] == rest;
      s
  }

  /** The six payload bits of a continuation byte. */
  function Six(x: byte): int {
    x as int - 0x80
  }

  /** The scalar value that a sequence of a lead byte with payload `lead` and continuation bytes stands for. */
  function Joined(lead: int, e: seq<byte>): int {
    if e == [] then lead else Joined(lead, e[..|e| - 1]) * 64 + Six(e[|e| - 1])
  }

  /**
   * The bits a character's bytes carry add up to it, six for each continuation byte (section 3 of RFC 3629),
   * and the number of bytes is the least that holds it.
   */
  lemma CharUtf8Bits(c: Scalar)
    ensures var e := CharUtf8(c); forall i :: 0 < i < |e| ==> Continuation(e[i])
    ensures c < 0x80 ==> CharUtf8(c) == [c]
    ensures 0x80 <= c < 0x800 ==>
              var e := CharUtf8(c); |e| == 2 && 0xC0 <= e[0] < 0xE0 && c == Joined(e[0] as int - 0xC0, e[1..])
    ensures 0x800 <= c < 0x1_0000 ==>
              var e := CharUtf8(c); |e| == 3 && 0xE0 <= e[0] < 0xF0 && c == Joined(e[0] as int - 0xE0, e[1..])
    ensures 0x1_0000 <= c ==>
              var e := CharUtf8(c); |e| == 4 && 0xF0 <= e[0] < 0xF8 && c == Joined(e[0] as int - 0xF0, e[1..])
  {
    var e := CharUtf8(c);
    assert c / 0x1000 == c / 0x40 / 0x40 && c / 0x4_0000 == c / 0x40 / 0x40 / 0x40;
    if |e| == 2 {
      JoinedTwo(e[0] as int - 0xC0, e[1]);
      assert e[1..] == [e[1]];
    } else if |e| == 3 {
      JoinedThree(e[0] as int - 0xE0, e[1], e[2]);
      assert e[1..] == [e[1], e[2]];
    } else if |e| == 4 {
      JoinedFour(e[0] as int - 0xF0, e[1], e[2], e[3]);
      assert e[1..] == [e[1], e[2], e[3]];
    }
  }

  lemma JoinedTwo(lead: int, x: byte)
    ensures Joined(lead, [x]) == lead * 64 + Six(x)
  {
    assert [x][..0] == [];
  }

  lemma JoinedThree(lead: int, x: byte, y: byte)
    ensures Joined(lead, [x, y]) == (lead * 64 + Six(x)) * 64 + Six(y)
  {
    assert [x, y][..1] == [x];
    JoinedTwo(lead, x);
  }

  lemma JoinedFour(lead: int, x: byte, y: byte, z: byte)
    ensures Joined(lead, [x, y, z]) == ((lead * 64 + Six(x)) * 64 + Six(y)) * 64 + Six(z)
  {
    assert [x, y, z][..2] == [x, y];
    JoinedThree(lead, x, y);
  }

  /** The character whose bits the first `CharLength(s)` bytes carry. */
  function FirstChar(s: seq<byte>): (c: Scalar)
    requires CharLength(s) > 0
  {
    var n := CharLength(s);
    if n == 1 then s[0]
    else if n == 2 then (s[0] as int - 0xC0) * 64 + Six(s[1])
    else if n == 3 then ((s[0] as int - 0xE0) * 64 + Six(s[1])) * 64 + Six(s[2])
    else (((s[0] as int - 0xF0) * 64 + Six(s[1])) * 64 + Six(s[2])) * 64 + Six(s[3])
  }

  lemma Sixty(high: int, low: int)
    requires 0 <= low < 64
    ensures (high * 64 + low) / 64 == high && (high * 64 + low) % 64 == low
  {
  }

  lemma Quotients(c: nat)
    ensures c / 0x1000 == c / 64 / 64 && c / 0x4_0000 == c / 64 / 64 / 64
  {
  }

  lemma FirstCharEncodes(s: seq<byte>)
    requires CharLength(s) > 0
    ensures CharUtf8(FirstChar(s)) == s[..CharLength(s)]
  {
    var n, c := CharLength(s), FirstChar(s);
    if n == 2 {
      Sixty(s[0] as int - 0xC0, Six(s[1]));
      assert CharUtf8(c) == [s[0], s[1]];
    } else if n == 3 {
      var high := (s[0] as int - 0xE0) * 64 + Six(s[1]);
      Sixty(s[0] as int - 0xE0, Six(s[1]));
      Sixty(high, Six(s[2]));
      Quotients(c);
      assert CharUtf8(c) == [s[0], s[1], s[2]];
    } else if n == 4 {
      FourEncode(s[0], s[1], s[2], s[3]);
      assert CharUtf8(c) == [s[0], s[1], s[2], s[3]];
    }
  }

  lemma FourEncode(w: byte, x: byte, y: byte, z: byte)
    requires CharLength([w, x, y, z]) == 4
    ensures CharUtf8(FirstChar([w, x, y, z])) == [w, x, y, z]
  {
    var c := FirstChar([w, x, y, z]);
    var second := (w as int - 0xF0) * 64 + Six(x);
    var third := second * 64 + Six(y);
    Sixty(w as int - 0xF0, Six(x));
    Sixty(second, Six(y));
    Sixty(third, Six(z));
    Quotients(c);
  }

  function DecodeUtf8(s: String): (chars: seq<Scalar>) {
    if s == [] then [] else [FirstChar(s)] + DecodeUtf8(s[CharLength(s)..])
  }

  lemma {:induction false} DecodedUtf8(s: String)
    ensures Utf8(DecodeUtf8(s)) == s
  {
    hide CharLength, FirstChar, CharUtf8;
    if s != [] {
      var n := CharLength(s);
      DecodedUtf8(s[n..]);
      FirstCharEncodes(s);
      var chars := DecodeUtf8(s);
      assert chars[1..] == DecodeUtf8(s[n..]);
      assert s == s[..n] + s[n..];
    }
  }

  lemma {:induction false} EncodedUtf8(chars: seq<Scalar>)
    ensures DecodeUtf8(Utf8(chars)) == chars
  {
    hide CharLength, FirstChar, CharUtf8;
    if chars != [] {
      var e, rest := CharUtf8(chars[0]), Utf8(chars[1..]);
      var s := Utf8(chars);
      assert s == e + rest;
      CharUtf8Valid(chars[0], rest);
      assert s[..|e|] == e && s[|e|..] == rest;
      FirstCharEncodes(s);
      CharUtf8Injective(FirstChar(s), chars[0]);
      EncodedUtf8(chars[1..]);
      assert chars == [chars[0]] + chars[1..];
    }
  }

  lemma CharUtf8Injective(c: Scalar, d: Scalar)
    requires CharUtf8(c) == CharUtf8(d)
    ensures c == d
  {
    CharUtf8Bits(c);
    CharUtf8Bits(d);
  }

  /** A byte string is valid exactly when it is the encoding of some characters, and of no others then. */
  lemma Utf8Inverts(s: seq<byte>)
    ensures ValidUtf8(s) <==> exists chars: seq<Scalar> :: s == Utf8(chars)
    ensures forall chars: seq<Scalar>, others: seq<Scalar> :: Utf8(chars) == Utf8(others) ==> chars == others
  {
    if ValidUtf8(s) {
      DecodedUtf8(s);
      assert s == Utf8(DecodeUtf8(s));
    }
    forall chars: seq<Scalar>, others: seq<Scalar> | Utf8(chars) == Utf8(others) ensures chars == others {
      EncodedUtf8(chars);
      EncodedUtf8(others);
    }
  }

  /** An ASCII string is its own encoding, in both forms. */
  lemma {:induction false} AsciiIsItself(chars: seq<Scalar>)
    requires Ascii(chars)
    ensures Utf8(chars) == chars && Utf16(chars) == chars
  {
    if chars != [] {
      assert forall i :: 0 <= i < |chars| - 1 ==> chars[1..][i] == chars[i + 1];
      AsciiIsItself(chars[1..]);
      assert chars == [chars[0]] + chars[1..];
    }
  }

  // ----- UTF-16 -----

  /** Section 2.1 of RFC 2781. */
  function CharUtf16(c: Scalar): seq<u16> {
    if c < 0x1_0000 then [c] else [0xD800 + (c - 0x1_0000) / 0x400, 0xDC00 + (c - 0x1_0000) % 0x400]
  }

  /** One unit for characters below 2^16; a surrogate pair carries the rest, ten bits each. */
  lemma CharUtf16Bits(c: Scalar)
    ensures c < 0x1_0000 ==> CharUtf16(c) == [c]
    ensures c >= 0x1_0000 ==>
              var u := CharUtf16(c);
              && |u| == 2 && 0xD800 <= u[0] < 0xDC00 <= u[1] < 0xE000
              && c == 0x1_0000 + (u[0] as int - 0xD800) * 1024 + (u[1] as int - 0xDC00)
  {
  }

  function Utf16(chars: seq<Scalar>): seq<u16> {
    if chars == [] then [] else CharUtf16(chars[0]) + Utf16(chars[1..])
  }

  /** Section 2.2 of RFC 2781: fails on a surrogate that is not part of a pair. */
  function DecodeUtf16(units: seq<u16>): Option<seq<Scalar>> {
    if units == [] then Some([])
    else
      var u := units[0];
      if u < 0xD800 || u >= 0xE000 then
        var rest :- DecodeUtf16(units[1..]);
        Some([u] + rest)
      else if u >= 0xDC00 || |units| < 2 || !(0xDC00 <= units[1] < 0xE000) then None
      else
        var rest :- DecodeUtf16(units[2..]);
        Some([0x1_0000 + (u - 0xD800) * 0x400 + (units[1] - 0xDC00)] + rest)
  }

  /** Decoding accepts exactly the encodings, and returns what was encoded. */
  lemma Utf16Inverts(units: seq<u16>, chars: seq<Scalar>)
    ensures DecodeUtf16(units) == Some(chars) <==> units == Utf16(chars)
  {
    if DecodeUtf16(units) == Some(chars) {
      DecodedIsEncoding(units);
    }
    if units == Utf16(chars) {
      EncodingDecodes(chars);
    }
  }

  lemma {:induction false} EncodingDecodes(chars: seq<Scalar>)
    ensures DecodeUtf16(Utf16(chars)) == Some(chars)
  {
    if chars != [] {
      var c := chars[0];
      var e := CharUtf16(c);
      var units := Utf16(chars);
      EncodingDecodes(chars[1..]);
      assert units[|e|..] == Utf16(chars[1..]);
      assert forall i :: 0 <= i < |e| ==> units[i] == e[i];
      assert chars == [c] + chars[1..];
    }
  }

  lemma Utf16Cons(c: Scalar, rest: seq<Scalar>)
    ensures Utf16([c] + rest) == CharUtf16(c) + Utf16(rest)
  {
    assert ([c] + rest)[1..] == rest;
  }

  /** A surrogate pair is the encoding of the character it decodes to. */
  lemma PairEncodes(u: u16, v: u16)
    requires 0xD800 <= u < 0xDC00 <= v < 0xE000
    ensures CharUtf16(0x1_0000 + (u - 0xD800) * 0x400 + (v - 0xDC00)) == [u, v]
  {
  }

  lemma {:induction false} DecodedIsEncoding(units: seq<u16>)
    requires DecodeUtf16(units).Some?
    ensures units == Utf16(DecodeUtf16(units).value)
  {
    hide Utf16;
    if units == [] {
      NoUnits();
    } else if units[0] < 0xD800 || units[0] >= 0xE000 {
      DecodedIsEncoding(units[1..]);
      Utf16Cons(units[0], DecodeUtf16(units[1..]).value);
      assert units == [units[0]] + units[1..];
    } else {
      var c: Scalar := 0x1_0000 + (units[0] as int - 0xD800) * 0x400 + (units[1] as int - 0xDC00);
      DecodedIsEncoding(units[2..]);
      Utf16Cons(c, DecodeUtf16(units[2..]).value);
      PairEncodes(units[0], units[1]);
      assert units == [units[0], units[1]] + units[2..];
    }
  }

  lemma NoUnits()
    ensures Utf16([]) == []
  {
  }

  predicate Ascii(chars: seq<Scalar>) {
    forall i :: 0 <= i < |chars| ==> chars[i] < 0x80
  }

  /** A string has as many UTF-8 bytes as UTF-16 units exactly when it is ASCII; otherwise it has more. */
  lemma {:induction false} AsciiByLength(chars: seq<Scalar>)
    ensures |Utf8(chars)| >= |Utf16(chars)|
    ensures |Utf8(chars)| == |Utf16(chars)| <==> Ascii(chars)
  {
    if chars != [] {
      AsciiByLength(chars[1..]);
      assert |CharUtf8(chars[0])| == |CharUtf16(chars[0])| <==> chars[0] < 0x80;
      if Ascii(chars[1..]) && chars[0] < 0x80 {
        forall i | 0 <= i < |chars| ensures chars[i] < 0x80 {
          if i > 0 {
            assert chars[1..][i - 1] == chars[i];
          }
        }
      }
      if Ascii(chars) {
        assert forall i :: 0 <= i < |chars| - 1 ==> chars[1..][i] == chars[i + 1];
      }
    }
  }

  // ----- UTF-16 units as big-endian bytes -----

  function Units(b: seq<byte>, p: nat, n: nat): (units: seq<u16>)
    requires p + 2 * n <= |b|
    ensures |units| == n
  {
    seq(n, i requires 0 <= i < n => Be16(b, p + 2 * i))
  }

  function PutUnits(units: seq<u16>): (b: seq<byte>)
    ensures |b| == 2 * |units|
  {
    if units == [] then [] else PutBe16(units[0]) + PutUnits(units[1..])
  }

  lemma {:induction false} UnitsInvert(b: seq<byte>, p: nat, units: seq<u16>)
    requires p + 2 * |units| <= |b| && b[p..p + 2 * |units|] == PutUnits(units)
    ensures Units(b, p, |units|) == units
    decreases |units|
  {
    if units != [] {
      var n := |units|;
      var here := b[p..p + 2 * n];
      assert here[..2] == PutBe16(units[0]) && here[2..] == PutUnits(units[1..]);
      assert b[p..p + 2] == here[..2] && b[p + 2..p + 2 * n] == here[2..];
      Be16Inverts(units[0], b, p);
      UnitsInvert(b, p + 2, units[1..]);
      assert Units(b, p, n) == [Be16(b, p)] + Units(b, p + 2, n - 1);
    }
  }
}
