/** The inputs of the tests in shared/src/test.rs, byte for byte, and what must be read from them. */
module Vectors {
  import opened Datatypes
  import opened Bytes
  import opened Text
  import opened Varint
  import opened Minecraft
  import opened Packets
  import opened FirstPacket

  // ----- Varints -----

  lemma VarintVectors()
    ensures VarintAt([0x00], 0) == Ok(Reading(0, 1)) && VarintAt([0x01], 0) == Ok(Reading(1, 1))
    ensures VarintAt([0x7F], 0) == Ok(Reading(127, 1)) && VarintAt([0x80, 0x01], 0) == Ok(Reading(128, 2))
    ensures VarintAt([0xFF, 0xFF, 0xFF, 0xFF, 0x07], 0) == Ok(Reading(2147483647, 5))
    ensures VarintAt([0xFF, 0xFF, 0xFF, 0xFF, 0x0F], 0) == Ok(Reading(-1, 5))
    ensures VarintAt([0x80, 0x80, 0x80, 0x80, 0x08], 0) == Ok(Reading(-2147483648, 5))
  {
    hide VarintAt, SumOf;
    OneByte(0x00);
    OneByte(0x01);
    OneByte(0x7F);
    TwoBytes(0x80, 0x01);
    FiveBytes(0xFF, 0xFF, 0xFF, 0xFF, 0x07, 2147483647);
    FiveBytes(0xFF, 0xFF, 0xFF, 0xFF, 0x0F, -1);
    FiveBytes(0x80, 0x80, 0x80, 0x80, 0x08, -2147483648);
  }

  lemma OneByte(x: byte)
    requires x < 128
    ensures VarintAt([x], 0) == Ok(Reading(x, 1))
  {
    hide VarintAt;
    VarintExact([x], 0);
    assert [x][0] < 128;
    SameNumber(VarintAt([x], 0).value.value, x, SumOf([x], 0, 1));
  }

  lemma TwoBytes(x: byte, y: byte)
    requires x >= 128 > y
    ensures VarintAt([x, y], 0) == Ok(Reading(x as int - 128 + y as int * 128, 2))
  {
    hide VarintAt;
    VarintExact([x, y], 0);
    assert [x, y][1] < 128;
    SameNumber(VarintAt([x, y], 0).value.value, x as int - 128 + y as int * 128, SumOf([x, y], 0, 2));
  }

  lemma FiveBytes(v: byte, w: byte, x: byte, y: byte, z: byte, value: i32)
    requires v >= 128 && w >= 128 && x >= 128 && y >= 128 > z
    requires (value as int - (v as int - 128) - (w as int - 128) * 0x80 - (x as int - 128) * 0x4000
              - (y as int - 128) * 0x20_0000 - z as int * 0x1000_0000) % 0x1_0000_0000 == 0
    ensures VarintAt([v, w, x, y, z], 0) == Ok(Reading(value, 5))
  {
    hide VarintAt, SumOf;
    var b := [v, w, x, y, z];
    VarintExact(b, 0);
    assert b[4] < 128;
    FiveSum(b);
    SameNumber(VarintAt(b, 0).value.value, value, SumOf(b, 0, 5));
  }

  lemma FiveSum(b: seq<byte>)
    requires |b| == 5 && b[0] >= 128 && b[1] >= 128 && b[2] >= 128 && b[3] >= 128 > b[4]
    ensures SumOf(b, 0, 5) == (b[0] as int - 128) + (b[1] as int - 128) * 0x80 + (b[2] as int - 128) * 0x4000
                            + (b[3] as int - 128) * 0x20_0000 + b[4] as int * 0x1000_0000
  {
  }

  lemma SameNumber(x: i32, y: i32, sum: int)
    requires (x as int - sum) % 0x1_0000_0000 == 0 && (y as int - sum) % 0x1_0000_0000 == 0
    ensures x == y
  {
  }

  // ----- Hellos -----

  /** The letters of "localhost". */
  const LOCALHOST: seq<byte> := [108, 111, 99, 97, 108, 104, 111, 115, 116]
  const LONG_NAME: seq<byte> := seq(63, _ => 97)
  const PENNER_QUEEN: seq<byte> := [80, 101, 110, 110, 101, 114, 81, 117, 101, 101, 110]

  const PING_START: seq<byte> := [
    254, 1, 250, 0, 11, 0, 77, 0, 67, 0, 124, 0, 80, 0, 105, 0, 110, 0, 103, 0, 72, 0, 111, 0, 115, 0, 116
  ]

  const CONNECT_START: seq<byte> := [
    2, 73, 0, 11, 0, 80, 0, 101, 0, 110, 0, 110, 0, 101, 0, 114, 0, 81, 0, 117, 0, 101, 0, 101, 0, 110
  ]

  /** ASCII characters as big-endian UTF-16. */
  function Wide(name: seq<byte>): (b: seq<byte>)
    ensures |b| == 2 * |name|
  {
    seq(2 * |name|, i requires 0 <= i < 2 * |name| => if i % 2 == 0 then 0 else name[i / 2])
  }

  const SHORT_PING: seq<byte> := PING_START + [0, 11, 73, 0, 2] + [0, 104, 0, 105] + [0, 0, 99, 221]

  const LONG_PING: seq<byte> := PING_START + [0, 133, 73, 0, 63] + Wide(LONG_NAME) + [0, 0, 99, 221]

  const SHORT_CONNECT: seq<byte> :=
    CONNECT_START + [0, 9] + [0, 108, 0, 111, 0, 99, 0, 97, 0, 108, 0, 104, 0, 111, 0, 115, 0, 116] + [0, 0, 99, 221]

  const LONG_CONNECT: seq<byte> := CONNECT_START + [0, 63] + Wide(LONG_NAME) + [0, 0, 99, 221]

  const MODERN: seq<byte> := [16, 0, 249, 5, 9] + LOCALHOST + [99, 221]

  predicate AsciiBytes(name: seq<byte>) {
    forall i :: 0 <= i < |name| ==> name[i] < 0x80
  }

  lemma {:induction false} WideUnits(name: seq<byte>)
    requires AsciiBytes(name)
    ensures PutUnits(name) == Wide(name)
  {
    if name != [] {
      assert forall i :: 0 <= i < |name| - 1 ==> name[1..][i] == name[i + 1];
      WideUnits(name[1..]);
      assert Wide(name) == [0, name[0]] + Wide(name[1..]);
      assert PutBe16(name[0]) == [0, name[0]];
    }
  }

  /** An ASCII hostname: the same bytes as a Rust string and as UTF-16 units. */
  lemma AsciiName(name: seq<byte>)
    requires AsciiBytes(name)
    ensures ValidUtf8(name) && DecodeUtf16(name) == Some(name) && Utf8(name) == name && Utf16(name) == name
  {
    hide DecodeUtf16, Utf8, Utf16;
    AsciiIsItself(name);
    Utf16Inverts(name, name);
  }

  /** The frame arrives in any pieces and gives a hello that carries its bytes, for the port 25565. */
  ghost predicate Gives(frame: seq<byte>, length: nat, version: i32, hostname: seq<byte>) {
    && |frame| == length < 0x8000_0000 && ValidUtf8(hostname)
    && ReadsFirst(frame, MCHello(MinecraftHelloPacket(length, 0, version, hostname, 25565, frame)))
  }

  lemma Regroup(a: seq<byte>, b: seq<byte>, c: seq<byte>, d: seq<byte>, e: seq<byte>, f: seq<byte>)
    ensures a + b + c + (d + e) + f == a + (b + c + d) + e + f
  {
  }

  lemma Numbers(x: byte)
    ensures PutBe16(x) == [0, x] && PutBe16(25565) == [99, 221] && PutBe32(25565) == [0, 0, 99, 221]
  {
  }

  lemma SameStart()
    ensures OLD_MINECRAFT_START == PING_START
  {
  }

  lemma PingGives(frame: seq<byte>, n: byte, name: seq<byte>)
    requires AsciiBytes(name) && |name| == n < 100
    requires frame == PING_START + [0, 7 + 2 * n, 73, 0, n] + Wide(name) + [0, 0, 99, 221]
    ensures Gives(frame, 36 + 2 * n, 73, name)
  {
    hide ReadsFirst, DecodeUtf16, Utf8, Utf16, PutUnits, Wide, PING_START, OLD_MINECRAFT_START, AsciiBytes, PutBe16,
      PutBe32, ValidUtf8;
    WideUnits(name);
    AsciiName(name);
    SameStart();
    Numbers(n);
    Numbers(7 + 2 * n);
    Regroup(PING_START, [0, 7 + 2 * n], [73], [0, n], Wide(name), [0, 0, 99, 221]);
    assert [0, 7 + 2 * n] + [73] + [0, n] == [0, 7 + 2 * n, 73, 0, n];
    assert frame == PingFrame(7 + 2 * n, 73, name, 25565);
    assert frame[..|frame|] == frame;
    PingReadsFirst(7 + 2 * n, 73, name, 25565);
  }

  lemma ConnectGives(frame: seq<byte>, n: byte, name: seq<byte>)
    requires AsciiBytes(name) && |name| == n < 100
    requires frame == CONNECT_START + [0, n] + Wide(name) + [0, 0, 99, 221]
    ensures Gives(frame, 32 + 2 * n, 73, name)
  {
    hide ReadsFirst, DecodeUtf16, Utf8, Utf16, PutUnits, Wide, PENNER_QUEEN, CONNECT_START, AsciiBytes, PutBe16,
      PutBe32, ValidUtf8;
    SameUser();
    WideUnits(PENNER_QUEEN);
    AsciiName(PENNER_QUEEN);
    WideUnits(name);
    AsciiName(name);
    Numbers(n);
    Numbers(11);
    ConnectRegroup([2, 73], [0, 11], Wide(PENNER_QUEEN), [0, n], Wide(name), [0, 0, 99, 221]);
    assert frame == ConnectFrame(73, PENNER_QUEEN, name, 25565);
    assert frame[..|frame|] == frame;
    ConnectReadsFirst(73, PENNER_QUEEN, name, 25565);
  }

  lemma ConnectRegroup(a: seq<byte>, b: seq<byte>, c: seq<byte>, d: seq<byte>, e: seq<byte>, f: seq<byte>)
    ensures a + (b + c) + (d + e) + f == a + b + c + d + e + f
  {
  }

  lemma SameUser()
    ensures AsciiBytes(PENNER_QUEEN) && |PENNER_QUEEN| == 11
    ensures [2, 73] + [0, 11] + Wide(PENNER_QUEEN) == CONNECT_START
  {
  }

  /** The five hellos of the tests and, in any pieces, what is read from them. */
  lemma HelloVectors()
    ensures Gives(SHORT_PING, 40, 73, [104, 105]) && Gives(LONG_PING, 162, 73, LONG_NAME)
    ensures Gives(SHORT_CONNECT, 50, 73, LOCALHOST) && Gives(LONG_CONNECT, 158, 73, LONG_NAME)
    ensures Gives(MODERN, 16, 761, LOCALHOST)
  {
    hide Gives, Wide, PING_START, CONNECT_START, LOCALHOST;
    WideNames();
    PingGives(SHORT_PING, 2, [104, 105]);
    PingGives(LONG_PING, 63, LONG_NAME);
    ConnectGives(SHORT_CONNECT, 9, LOCALHOST);
    ConnectGives(LONG_CONNECT, 63, LONG_NAME);
    ModernGives();
  }

  lemma WideNames()
    ensures Wide([104, 105]) == [0, 104, 0, 105]
    ensures Wide(LOCALHOST) == [0, 108, 0, 111, 0, 99, 0, 97, 0, 108, 0, 104, 0, 111, 0, 115, 0, 116]
    ensures |LOCALHOST| == 9 && AsciiBytes(LOCALHOST)
  {
  }

  lemma ModernGives()
    ensures Gives(MODERN, 16, 761, LOCALHOST)
  {
    hide ReadsFirst, ValidUtf8, EncodeVarint, PutBe16, LOCALHOST;
    LocalhostIsAscii();
    AsciiName(LOCALHOST);
    ModernVarints();
    Numbers(0);
    assert [16] + [0] + [249, 5] + [9] == [16, 0, 249, 5, 9];
    assert MODERN == ModernFrame(16, 761, LOCALHOST, 25565);
    assert MODERN[..|MODERN|] == MODERN;
    ModernReadsFirst(16, 761, LOCALHOST, 25565);
  }

  lemma LocalhostIsAscii()
    ensures |LOCALHOST| == 9 && AsciiBytes(LOCALHOST)
  {
  }

  lemma ModernVarints()
    ensures EncodeVarint(16) == [16] && EncodeVarint(0) == [0]
    ensures EncodeVarint(761) == [249, 5] && EncodeVarint(9) == [9]
  {
  }
}
