/** Bytes, machine integers and their fixed-width encodings. */
module Bytes {
  import opened Datatypes

  type byte = x: int | 0 <= x < 0x100
  type u16 = x: int | 0 <= x < 0x1_0000
  type u32 = x: int | 0 <= x < 0x1_0000_0000
  type u64 = x: int | 0 <= x < 0x1_0000_0000_0000_0000
  type i32 = x: int | -0x8000_0000 <= x < 0x8000_0000

  /** `x as u32` for an i32: the two's-complement bit pattern. */
  function OfI32(x: i32): u32 {
    if x < 0 then x + 0x1_0000_0000 else x
  }

  /** The i32 whose two's-complement bit pattern is `u`. */
  function ToI32(u: u32): i32 {
    if u < 0x8000_0000 then u else u - 0x1_0000_0000
  }

  /** `x as usize` for an i32 on a 64-bit machine: sign extension, then reinterpretation. */
  function ToUsize(x: i32): u64 {
    if x < 0 then x + 0x1_0000_0000_0000_0000 else x
  }

  /** All three casts keep the number modulo the width of the target. */
  lemma CastsAreModular(x: i32, u: u32)
    ensures (OfI32(x) as int - x as int) % 0x1_0000_0000 == 0
    ensures (ToI32(u) as int - u as int) % 0x1_0000_0000 == 0
    ensures (ToUsize(x) as int - x as int) % 0x1_0000_0000_0000_0000 == 0
  {
  }

  /** The big-endian u16 at position `p`. */
  function Be16(b: seq<byte>, p: nat): u16
    requires p + 2 <= |b|
  {
    0x100 * (b[p] as int) + b[p + 1]
  }

  /** The big-endian u32 at position `p`. */
  function Be32(b: seq<byte>, p: nat): u32
    requires p + 4 <= |b|
  {
    0x1_0000 * (Be16(b, p) as int) + Be16(b, p + 2)
  }

  function PutBe16(v: u16): (b: seq<byte>)
    ensures |b| == 2
  {
    [v / 0x100, v % 0x100]
  }

  function PutBe32(v: u32): (b: seq<byte>)
    ensures |b| == 4
  {
    PutBe16(v / 0x1_0000) + PutBe16(v % 0x1_0000)
  }

  /** The most significant byte comes first. */
  lemma BigEndian(b: seq<byte>, p: nat)
    requires p + 4 <= |b|
    ensures Be16(b, p) as int == b[p] as int * 256 + b[p + 1] as int
    ensures Be32(b, p) as int
         == b[p] as int * 0x100_0000 + b[p + 1] as int * 0x1_0000 + b[p + 2] as int * 0x100 + b[p + 3] as int
  {
  }

  lemma Be16Inverts(v: u16, b: seq<byte>, p: nat)
    requires p + 2 <= |b| && b[p..p + 2] == PutBe16(v)
    ensures Be16(b, p) == v
  {
    var w := b[p..p + 2];
    assert b[p] == w[0] && b[p + 1] == w[1];
  }

  lemma Be32Inverts(v: u32, b: seq<byte>, p: nat)
    requires p + 4 <= |b| && b[p..p + 4] == PutBe32(v)
    ensures Be32(b, p) == v
  {
    assert b[p..p + 2] == b[p..p + 4][..2] && b[p + 2..p + 4] == b[p..p + 4][2..];
    Be16Inverts(v / 0x1_0000, b, p);
    Be16Inverts(v % 0x1_0000, b, p + 2);
  }

  function Pow256(n: nat): nat {
    if n == 0 then 1 else 0x100 * Pow256(n - 1)
  }

  /** The `n` low bytes of `v`, least significant first. */
  function Le(n: nat, v: nat): (b: seq<byte>)
    ensures |b| == n
  {
    if n == 0 then [] else [v % 0x100] + Le(n - 1, v / 0x100)
  }

  /** The sum of the bytes with the weights 1, 256, 256^2 and so on. */
  function Weighted(b: seq<byte>, n: nat): nat
    requires n <= |b|
  {
    if n == 0 then 0 else Weighted(b, n - 1) + b[n - 1] as int * Pow256(n - 1)
  }

  lemma {:induction false} WeightedFront(b: seq<byte>, n: nat)
    requires 0 < n <= |b|
    ensures Weighted(b, n) == b[0] as int + 256 * Weighted(b[1..], n - 1)
  {
    if n == 1 {
      assert Pow256(0) == 1 && Weighted(b, 0) == 0 && Weighted(b[1..], 0) == 0;
    } else {
      WeightedFront(b, n - 1);
      var x, w := b[n - 1] as int, Pow256(n - 2);
      assert x * Pow256(n - 1) == 256 * (x * w);
    }
  }

  /** The little-endian bytes of a number that fits add up to it. */
  lemma {:induction false} LeAddsUp(n: nat, v: nat)
    requires v < Pow256(n)
    ensures Weighted(Le(n, v), n) == v
  {
    if n > 0 {
      var b := Le(n, v);
      assert b[1..] == Le(n - 1, v / 0x100);
      LeAddsUp(n - 1, v / 0x100);
      WeightedFront(b, n);
    }
  }

  /** Reads `n` little-endian bytes; the result is the number and what follows it. */
  function GetLe(n: nat, b: seq<byte>): (r: Option<(nat, seq<byte>)>)
    ensures r.Some? ==> r.value.0 < Pow256(n)
  {
    if n == 0 then Some((0, b))
    else if b == [] then None
    else
      var (high, rest) :- GetLe(n - 1, b[1..]);
      Some((b[0] + 0x100 * high, rest))
  }

  /** `GetLe` accepts exactly the strings that start with an encoding, and returns what was encoded. */
  lemma {:induction false} GetLeInverts(n: nat, b: seq<byte>, v: nat, rest: seq<byte>)
    ensures GetLe(n, b) == Some((v, rest)) <==> v < Pow256(n) && b == Le(n, v) + rest
  {
    if n == 0 {
      assert [] + rest == rest;
    } else if b != [] {
      var low, high := v % 0x100, v / 0x100;
      GetLeInverts(n - 1, b[1..], high, rest);
      assert v < Pow256(n) <==> high < Pow256(n - 1);
      assert Le(n, v) + rest == [low] + (Le(n - 1, high) + rest);
      assert b == [b[0]] + b[1..];
      assert b == Le(n, v) + rest <==> b[0] == low && b[1..] == Le(n - 1, high) + rest by {
        if b == Le(n, v) + rest {
          assert b[0] == low && b[1..] == Le(n - 1, high) + rest;
        }
      }
    }
  }

  function Flatten(parts: seq<seq<byte>>): seq<byte> {
    if parts == [] then [] else parts[0] + Flatten(parts[1..])
  }

  lemma {:induction false} FlattenAppend(parts: seq<seq<byte>>, last: seq<byte>)
    ensures Flatten(parts + [last]) == Flatten(parts) + last
  {
    if parts == [] {
      assert parts + [last] == [last];
    } else {
      assert (parts + [last])[1..] == parts[1..] + [last];
      FlattenAppend(parts[1..], last);
    }
  }

  /** Flattening keeps the prefix order. */
  lemma {:induction false} FlattenPrefix(a: seq<seq<byte>>, b: seq<seq<byte>>)
    requires a <= b
    ensures Flatten(a) <= Flatten(b)
  {
    if a != [] {
      assert a[1..] <= b[1..];
      FlattenPrefix(a[1..], b[1..]);
    }
  }

  /** Of two prefixes of the same bytes the shorter is a prefix of the longer. */
  lemma PrefixesCompare(a: seq<byte>, b: seq<byte>, whole: seq<byte>)
    requires a <= whole && b <= whole
    ensures if |a| <= |b| then a <= b else b <= a
  {
    assert a == whole[..|a|] && b == whole[..|b|];
  }

  lemma PrefixCancels(front: seq<byte>, a: seq<byte>, b: seq<byte>)
    requires front + a <= front + b
    ensures a <= b
  {
    assert (front + b)[..|front + a|][|front|..] == b[..|a|];
    assert (front + a)[|front|..] == a;
  }
}
