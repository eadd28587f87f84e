/** Variable-length integers (shared/src/datatypes.rs): LEB128 groups truncated to 32 bits. */
module Varint {
  import opened Datatypes
  import opened Bytes

  // ----- Bitwise operations on non-negative integers -----

  function Pow2(n: nat): nat {
    if n == 0 then 1 else 2 * Pow2(n - 1)
  }

  /** Bitwise or, bit by bit. */
  function BitOr(a: nat, b: nat): nat {
    if a == 0 then b
    else if b == 0 then a
    else (if a % 2 == 1 || b % 2 == 1 then 1 else 0) + 2 * BitOr(a / 2, b / 2)
  }

  /** `x << n` on 32 bits: bits pushed past the top are lost. */
  function ShiftLeft32(x: nat, n: nat): u32 {
    x * Pow2(n) % 0x1_0000_0000
  }

  /** Or-ing a number below 2^n with a multiple of 2^n is addition. */
  lemma {:induction false} BitOrDisjoint(a: nat, high: nat, n: nat)
    requires a < Pow2(n)
    ensures BitOr(a, high * Pow2(n)) == a + high * Pow2(n)
  {
    if n > 0 {
      var half := high * Pow2(n - 1);
      assert high * Pow2(n) == 2 * half;
      BitOrDisjoint(a / 2, high, n - 1);
    }
  }

  // ----- The encoding -----

  function Pow128(n: nat): nat {
    if n == 0 then 1 else 128 * Pow128(n - 1)
  }

  /** The sum of (b_i mod 128) * 128^i over `n` bytes from `start`. */
  function Groups(b: seq<byte>, start: nat, n: nat): nat
    requires start + n <= |b|
  {
    if n == 0 then 0 else Groups(b, start, n - 1) + b[start + n - 1] % 128 * Pow128(n - 1)
  }

  /** The position after the first byte below 128 among the (at most five) bytes from `at`, else `start`. */
  function VarintEnd(b: seq<byte>, start: nat, at: nat): (end: nat)
    ensures end != start ==> at < end <= start + 5 && end <= |b|
    decreases start + 5 - at
  {
    if at >= start + 5 || at >= |b| then start
    else if b[at] < 128 then at + 1
    else VarintEnd(b, start, at + 1)
  }

  datatype Reading = Reading(value: i32, size: nat)

  /** The integer encoded at `start` and the number of bytes it takes. */
  function VarintAt(b: seq<byte>, start: nat): (r: Result<Reading>)
    ensures r.Ok? ==> 1 <= r.value.size <= 5 && start + r.value.size <= |b|
    ensures r.Err? ==> r.error == NotValid
  {
    var end := VarintEnd(b, start, start);
    if end == start then Err(NotValid)
    else Ok(Reading(ToI32(Groups(b, start, end - start) % 0x1_0000_0000), end - start))
  }

  /** The bit-accumulating loop computes the truncated sum. */
  method GetVarint(b: seq<byte>, start: nat) returns (r: Result<Reading>)
    ensures r == VarintAt(b, start)
  {
    var value: u32 := 0;
    var position := 0;
    var size := 0;
    while true
      invariant size <= 5 && (size > 0 ==> start + size <= |b|)
      invariant position == 7 * size
      invariant size == 0 ==> value == 0
      invariant size > 0 ==> value == Groups(b, start, size) % 0x1_0000_0000
      invariant VarintEnd(b, start, start) == VarintEnd(b, start, start + size)
      decreases 5 - size
    {
      if size >= 5 {
        return Err(NotValid);
      }
      if size + start >= |b| {
        return Err(NotValid);
      }
      var current := b[size + start];
      AccumulateGroup(b, start, size);
      value := BitOr(value, ShiftLeft32(current % 128, position));
      position := position + 7;
      size := size + 1;
      if current < 128 {
        return Ok(Reading(ToI32(value), size));
      }
    }
  }

  /** The shift amounts and group weights the loop meets. */
  lemma Powers(size: nat)
    requires size < 5
    ensures Pow2(7 * size) == Pow128(size) == [1, 0x80, 0x4000, 0x20_0000, 0x1000_0000][size]
    ensures Pow128(size + 1) == 128 * Pow128(size)
  {
    assert Pow2(7) == 0x80 && Pow2(14) == 0x4000 && Pow2(21) == 0x20_0000 && Pow2(28) == 0x1000_0000;
    assert Pow128(1) == 0x80 && Pow128(2) == 0x4000 && Pow128(3) == 0x20_0000 && Pow128(4) == 0x1000_0000;
  }

  /** Or-ing a shifted group into the bits below it adds it; the fifth group loses its three top bits. */
  lemma OrGroup(low: nat, group: nat, size: nat)
    requires size < 5 && low < Pow128(size) && group < 128
    ensures low + group * Pow128(size) < Pow128(size + 1)
    ensures BitOr(low, ShiftLeft32(group, 7 * size)) == (low + group * Pow128(size)) % 0x1_0000_0000
  {
    Powers(size);
    var w := Pow128(size);
    var cut := if size < 4 then group else group % 16;
    GroupFits(low, group, size, w);
    assert ShiftLeft32(group, 7 * size) == cut * w;
    BitOrDisjoint(low, cut, 7 * size);
  }

  lemma GroupFits(low: nat, group: nat, size: nat, w: nat)
    requires size < 5 && w == [1, 0x80, 0x4000, 0x20_0000, 0x1000_0000][size] && low < w && group < 128
    ensures low + group * w < 128 * w
    ensures var cut := if size < 4 then group else group % 16;
            group * w % 0x1_0000_0000 == cut * w && (low + group * w) % 0x1_0000_0000 == low + cut * w
  {
    match size {
      case 0 =>
      case 1 =>
      case 2 =>
      case 3 =>
      case 4 =>
    }
  }

  /** Before the fifth group the sum still fits the bits it was shifted into. */
  lemma {:induction false} GroupsBound(b: seq<byte>, start: nat, n: nat)
    requires start + n <= |b| && n <= 5
    ensures Groups(b, start, n) < Pow128(n)
  {
    if n > 0 {
      GroupsBound(b, start, n - 1);
      OrGroup(Groups(b, start, n - 1), b[start + n - 1] % 128, n - 1);
    }
  }

  /** One turn of the loop turns the truncated sum of `size` groups into that of `size + 1`. */
  lemma AccumulateGroup(b: seq<byte>, start: nat, size: nat)
    requires size < 5 && start + size < |b|
    ensures BitOr(Groups(b, start, size) % 0x1_0000_0000, ShiftLeft32(b[start + size] % 128, 7 * size))
         == Groups(b, start, size + 1) % 0x1_0000_0000
  {
    hide BitOr, ShiftLeft32, Pow2, Pow128;
    var low := Groups(b, start, size);
    GroupsBound(b, start, size);
    Powers(size);
    OrGroup(low, b[start + size] % 128, size);
    assert low % 0x1_0000_0000 == low;
  }

  // ----- The canonical encoder and its inverse -----

  /** The shortest LEB128 encoding of an unsigned number. */
  function EncodeUnsigned(u: nat): (b: seq<byte>)
    ensures |b| > 0
  {
    if u < 128 then [u] else [128 + u % 128] + EncodeUnsigned(u / 128)
  }

  function EncodeVarint(x: i32): seq<byte> {
    EncodeUnsigned(OfI32(x))
  }

  /** All bytes but the last carry the continuation bit, and the groups add up to the number. */
  lemma {:induction false} EncodedGroups(u: nat, b: seq<byte>, start: nat, n: nat)
    requires start + |EncodeUnsigned(u)| <= |b|
    requires b[start..start + |EncodeUnsigned(u)|] == EncodeUnsigned(u)
    requires n == |EncodeUnsigned(u)|
    ensures b[start + n - 1] < 128
    ensures forall j :: start <= j < start + n - 1 ==> b[j] >= 128
    ensures Groups(b, start, n) == u
  {
    var e := EncodeUnsigned(u);
    assert b[start] == e[0];
    if u < 128 {
      assert Pow128(0) == 1 && Groups(b, start, 0) == 0;
    } else {
      var tail := EncodeUnsigned(u / 128);
      assert e[1..] == tail;
      assert b[start + 1..start + 1 + |tail|] == b[start..start + |e|][1..];
      EncodedGroups(u / 128, b, start + 1, n - 1);
      GroupsFront(b, start, n);
    }
  }

  /** Splitting off the first group divides the rest by 128. */
  lemma {:induction false} GroupsFront(b: seq<byte>, start: nat, n: nat)
    requires n > 0 && start + n <= |b|
    ensures Groups(b, start, n) == b[start] % 128 + 128 * Groups(b, start + 1, n - 1)
  {
    if n == 1 {
      assert Pow128(0) == 1 && Groups(b, start, 0) == 0;
    } else {
      GroupsFront(b, start, n - 1);
      var group := b[start + n - 1] % 128;
      var weight := Pow128(n - 2);
      assert group * Pow128(n - 1) == 128 * (group * weight);
    }
  }

  lemma {:induction false} EncodedLength(u: nat, n: nat)
    requires u < Pow128(n) && n > 0
    ensures |EncodeUnsigned(u)| <= n
  {
    if u >= 128 {
      EncodedLength(u / 128, n - 1);
    }
  }

  /** The scan stops at the first byte without continuation bit. */
  lemma {:induction false} ScanStops(b: seq<byte>, start: nat, at: nat)
    requires start <= at
    ensures var end := VarintEnd(b, start, at);
            if end != start then b[end - 1] < 128 && forall j :: at <= j < end - 1 ==> b[j] >= 128
            else forall j :: at <= j < start + 5 && j < |b| ==> b[j] >= 128
    decreases start + 5 - at
  {
    if at < start + 5 && at < |b| && b[at] >= 128 {
      ScanStops(b, start, at + 1);
    }
  }

  lemma {:induction false} EndIs(b: seq<byte>, start: nat, at: nat, end: nat)
    requires start <= at < end <= start + 5 && end <= |b| && b[end - 1] < 128
    requires forall j :: at <= j < end - 1 ==> b[j] >= 128
    ensures VarintEnd(b, start, at) == end
    decreases end - at
  {
    if at + 1 < end {
      assert b[at] >= 128;
      EndIs(b, start, at + 1, end);
    }
  }

  /** The encoding of an i32 takes at most five bytes. */
  lemma EncodedLengthOfI32(x: i32)
    ensures 1 <= |EncodeVarint(x)| <= 5
  {
    assert Pow128(5) == 0x8_0000_0000;
    EncodedLength(OfI32(x), 5);
  }

  /** Decoding inverts the canonical encoder at any offset, whatever follows. */
  lemma VarintInverts(before: seq<byte>, x: i32, after: seq<byte>)
    ensures VarintAt(before + EncodeVarint(x) + after, |before|) == Ok(Reading(x, |EncodeVarint(x)|))
  {
    var e := EncodeVarint(x);
    var b := before + e + after;
    assert b[|before|..|before| + |e|] == e;
    EncodedLengthOfI32(x);
    EncodedGroups(OfI32(x), b, |before|, |e|);
    EndIs(b, |before|, |before|, |before| + |e|);
  }

  /** A cut inside the encoding is reported as not valid, never as too small. */
  lemma VarintCut(before: seq<byte>, x: i32, part: nat)
    requires part < |EncodeVarint(x)|
    ensures VarintAt(before + EncodeVarint(x)[..part], |before|) == Err(NotValid)
  {
    var e := EncodeVarint(x);
    EncodedLengthOfI32(x);
    EncodedGroups(OfI32(x), e, 0, |e|);
    var b := before + e[..part];
    forall j | |before| <= j < |b| ensures b[j] >= 128 {
      assert b[j] == e[j - |before|];
    }
    ScanStops(b, |before|, |before|);
  }

  /** The low seven bits of the byte `i` positions after `start`. */
  function Seven(b: seq<byte>, start: nat, i: nat): int
    requires start + i < |b|
  {
    b[start + i] as int % 128
  }

  /**
   * A varint is found exactly when one of the first five bytes has no continuation bit. It ends there, and
   * its value is the groups' sum, least significant first, cut to 32 bits and read as two's complement.
   */
  lemma VarintExact(b: seq<byte>, start: nat)
    ensures VarintAt(b, start).Ok? <==> exists i :: start <= i < start + 5 && i < |b| && b[i] < 128
    ensures VarintAt(b, start).Err? ==> VarintAt(b, start) == Err(NotValid)
    ensures match VarintAt(b, start)
            case Err(_) => true
            case Ok(r) =>
              && 1 <= r.size <= 5 && start + r.size <= |b| && b[start + r.size - 1] < 128
              && (forall i :: start <= i < start + r.size - 1 ==> b[i] >= 128)
              && (r.value as int - SumOf(b, start, r.size)) % 0x1_0000_0000 == 0
  {
    ScanStops(b, start, start);
    var end := VarintEnd(b, start, start);
    if end != start {
      SumIsGroups(b, start, end - start);
      CastsAreModular(0, Groups(b, start, end - start) % 0x1_0000_0000);
      SameModulo(VarintAt(b, start).value.value, Groups(b, start, end - start));
    }
  }

  lemma SameModulo(x: int, u: nat)
    requires (x - u % 0x1_0000_0000) % 0x1_0000_0000 == 0
    ensures (x - u) % 0x1_0000_0000 == 0
  {
    var q := u / 0x1_0000_0000;
    assert x - u == (x - u % 0x1_0000_0000) - q * 0x1_0000_0000;
  }

  /** One to five groups of seven bits. */
  function SumOf(b: seq<byte>, start: nat, size: nat): int
    requires 1 <= size <= 5 && start + size <= |b|
  {
    Seven(b, start, 0)
    + (if size > 1 then Seven(b, start, 1) * 0x80 else 0)
    + (if size > 2 then Seven(b, start, 2) * 0x4000 else 0)
    + (if size > 3 then Seven(b, start, 3) * 0x20_0000 else 0)
    + (if size > 4 then Seven(b, start, 4) * 0x1000_0000 else 0)
  }

  lemma {:induction false} SumIsGroups(b: seq<byte>, start: nat, size: nat)
    requires 1 <= size <= 5 && start + size <= |b|
    ensures SumOf(b, start, size) == Groups(b, start, size)
  {
    Powers(size - 1);
    if size > 1 {
      SumIsGroups(b, start, size - 1);
    }
  }

  /** Bits 4 to 6 of a fifth byte do not reach the result. */
  lemma FifthByteTopBitsIgnored(b: seq<byte>, c: seq<byte>, start: nat)
    requires start + 5 <= |b| && |c| == |b|
    requires forall j :: start <= j < start + 4 ==> b[j] == c[j] && b[j] >= 128
    requires b[start + 4] < 128 && c[start + 4] < 128 && b[start + 4] % 16 == c[start + 4] % 16
    ensures VarintAt(b, start) == VarintAt(c, start) && VarintAt(b, start).Ok? && VarintAt(b, start).value.size == 5
  {
    EndIs(b, start, start, start + 5);
    EndIs(c, start, start, start + 5);
    GroupsAgree(b, c, start, 4);
    FifthGroup(b, start, 4);
    FifthGroup(c, start, 4);
  }

  lemma FifthGroup(b: seq<byte>, start: nat, four: nat)
    requires four == 4 && start + 5 <= |b|
    ensures Groups(b, start, four + 1) % 0x1_0000_0000
         == Groups(b, start, four) + (b[start + four] as int) % 16 * 0x1000_0000
  {
    GroupsBound(b, start, four);
    Powers(four);
    FifthBits(Groups(b, start, four), b[start + four]);
    assert Groups(b, start, four + 1) == Groups(b, start, four) + b[start + four] % 128 * Pow128(four);
  }

  lemma FifthBits(low: nat, x: byte)
    requires low < 0x1000_0000
    ensures (low + (x as int) % 128 * 0x1000_0000) % 0x1_0000_0000 == low + (x as int) % 16 * 0x1000_0000
  {
  }

  /** Reading depends only on the bytes read. */
  lemma {:induction false} GroupsAgree(b: seq<byte>, c: seq<byte>, start: nat, n: nat)
    requires start + n <= |b| && start + n <= |c|
    requires forall j :: start <= j < start + n ==> b[j] == c[j]
    ensures Groups(b, start, n) == Groups(c, start, n)
  {
    if n > 0 {
      GroupsAgree(b, c, start, n - 1);
    }
  }
}
