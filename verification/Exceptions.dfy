/**
 * Concrete inputs on which the decoder does not do what it is for. The exact conditions are in
 * FirstPacket, WireSizes and Conservation.
 */
module Exceptions {
  import opened Datatypes
  import opened Bytes
  import opened Text
  import opened Varint
  import opened Cursors
  import opened Minecraft
  import opened Packets
  import opened Bincode
  import opened Frames
  import opened Codec
  import opened Conservation
  import opened Ambiguity
  import opened ServerHandler
  import opened WireSizes
  import opened FirstPacket

  // ----- A hello wrapped in a proxy frame -----

  const WRAPPED: MinecraftHelloPacket := MinecraftHelloPacket(0, 0, 0, [], 0, [])

  /** The fields from the hostname on. */
  lemma WrappedTail(shape: seq<Kind>, fields: seq<Field>)
    requires shape == [Str, Int(4), Vector] && fields == [Blob([]), Num(0), Blob([])]
    ensures AllFit(shape, fields) && |PutFields(shape, fields)| == 20
  {
    Widths();
    var s1, f1 := shape[1..], fields[1..];
    var s2, f2 := s1[1..], f1[1..];
    NoFields(s2[1..], f2[1..]);
    AllFitCons(s2, f2);
    AllFitCons(s1, f1);
    AllFitCons(shape, fields);
    assert PutFields(s2[1..], f2[1..]) == [];
    assert |PutFields(s2, f2)| == 8;
    assert |PutFields(s1, f1)| == 12;
  }

  lemma WrappedBody()
    ensures Sized(MCHello(WRAPPED)) && |Body(MCHello(WRAPPED))| == 40
  {
    Widths();
    var shape, fields := Shape(0), Fields(MCHello(WRAPPED));
    var s1, f1 := shape[1..], fields[1..];
    var s2, f2 := s1[1..], f1[1..];
    WrappedTail(s2[1..], f2[1..]);
    AllFitCons(s2, f2);
    AllFitCons(s1, f1);
    AllFitCons(shape, fields);
    assert |PutFields(s2, f2)| == 24;
    assert |PutFields(s1, f1)| == 28;
  }

  /** The decoder takes the frame for the first packet of a Minecraft connection and hands on none of its bytes. */
  lemma WrappedHelloLosesBytes()
    ensures Sized(MCHello(WRAPPED))
    ensures var b := Frame(MCHello(WRAPPED));
            var r := FeedAll(Reader(Protocol.Unknown, [], [], None), [b]);
            && |b| == 42 && Flatten([b]) == b
            && r == Reader(Protocol.MC(0), [], [MCHello(WRAPPED)], None)
            && Flatten(Payloads(r.packets)) + r.rest == []
  {
    hide Serialize, Drain, DecodeStep, ParseFirst, AnyHello, DecodeProxy;
    WrappedBody();
    var b := Frame(MCHello(WRAPPED));
    WrappedStep(b);
    var start := Reader(Protocol.Unknown, [], [], None);
    assert [] + b == b;
    assert Flatten([b]) == b + Flatten([]) == b;
    DrainWrapped(b);
    assert FeedAll(start, [b]) == FeedAll(Feed(start, b), []) == Feed(start, b);
    assert Payloads([MCHello(WRAPPED)]) == [[]];
    assert Flatten([[]]) == [] + Flatten([]);
  }

  lemma WrappedStep(b: seq<byte>)
    requires Sized(MCHello(WRAPPED)) && |Body(MCHello(WRAPPED))| == 40 && b == Frame(MCHello(WRAPPED))
    ensures DecodeStep(Protocol.Unknown, b) == Next(MCHello(WRAPPED), 42)
  {
    hide Serialize, OldPing, OldConnect, VarintAt, DecodeProxy;
    FrameInverts(MCHello(WRAPPED), []);
    assert b + [] == b;
    assert b[0] == 0 && b[1] == 40;
    ShortVarint(b, 0);
    ShortVarint(b, 1);
    NoLegacyStart(b);
  }

  lemma NoLegacyStart(b: seq<byte>)
    requires InMemory(b) && |b| > 0 && b[0] == 0
    ensures OldPing(b) == Err(NotMatching) && OldConnect(b) == Err(NotMatching)
  {
    BytesAtEach(b, 0, [0xFE, 0x01]);
    BytesAtEach(b, 0, [0x02]);
  }

  lemma DrainWrapped(b: seq<byte>)
    requires InMemory(b) && |b| == 42 && DecodeStep(Protocol.Unknown, b) == Next(MCHello(WRAPPED), 42)
    ensures Drain(Protocol.Unknown, b) == Reader(Protocol.MC(0), [], [MCHello(WRAPPED)], None)
  {
    hide ParseFirst, ParsePacket;
    DrainMinecraft(0, b[42..]);
    assert b[42..] == [];
  }

  // ----- A payload that looks like a legacy connect -----

  /**
   * A complete frame with a payload of 498 bytes, alone in the undecided reader's buffer: it starts
   * like a legacy connect whose username has not arrived yet, so nothing is delivered.
   */
  lemma LonePayloadIsStuck(data: seq<byte>, id: ClientID)
    requires |data| == 498
    ensures var p := DataPacket(id, data);
            && Framed(p) && |Body(p)| == 512 && Misread(p)
            && DecodeStep(Protocol.Unknown, Frame(p)) == Wait
            && DecodeStep(Protocol.Proxy(0), Frame(p)) == Next(p, 514)
  {
    hide PutFields, OldPing, Modern, Utf16StringAt, DecodeProxy;
    DataBody(id, data);
    var p := DataPacket(id, data);
    var b := Frame(p);
    FrameInverts(p, []);
    assert b + [] == b;
    assert b[0] == 2 && b[1] == 0;
    assert Le(4, 10) == [10, 0, 0, 0];
    assert b[2] == 10 && b[3] == 0;
    BytesAtEach(b, 0, [0x02]);
    NotAPing(b);
    NoUsername(b);
  }

  lemma NoUsername(b: seq<byte>)
    requires |b| == 514 && b[2] == 10 && b[3] == 0
    ensures Utf16StringAt(b, 2) == Err(TooSmall)
  {
  }

  // ----- A handshake that looks like a legacy ping -----

  const A: Scalar := 0x61

  /** A handshake of 254 bytes, with a hostname of 246 letters, is never read. */
  lemma LongHandshakeIsLost(port: u16)
    ensures var hostname := Utf8(seq(246, _ => A));
            && |hostname| == 246
            && var frame := ModernFrame(254, 0, hostname, port);
               |frame| == 254 && NeverRead(frame)
  {
    hide EncodeVarint, Utf8, Utf16, NeverRead, ReadsFirst;
    var chars := seq(246, _ => A);
    assert Ascii(chars);
    AsciiByLength(chars);
    AsciiUnits(chars);
    var hostname := Utf8(chars);
    LongVarints();
    assert |PutBe16(port)| == 2;
    assert |ModernFrame(254, 0, hostname, port)| == 254;
    ModernReadsFirst(254, 0, hostname, port);
  }

  /** A handshake as Minecraft sends it, for a hostname of 122 letters: its declared length is 128. */
  lemma RealHandshakeIsLost(port: u16)
    ensures var hostname := Utf8(seq(122, _ => A));
            && |hostname| == 122
            && var frame := ModernFrame(128, 47, hostname, port);
               |frame| == 129 && NeverRead(frame)
  {
    hide EncodeVarint, Utf8, Utf16, NeverRead, ReadsFirst;
    var chars := seq(122, _ => A);
    assert Ascii(chars);
    AsciiByLength(chars);
    AsciiUnits(chars);
    var hostname := Utf8(chars);
    RealVarints();
    assert |PutBe16(port)| == 2;
    assert |ModernFrame(128, 47, hostname, port)| == 129;
    RealHandshake(128, 47, hostname, port);
  }

  lemma RealVarints()
    ensures EncodeVarint(128) == [0x80, 0x01] && EncodeVarint(0) == [0]
    ensures EncodeVarint(47) == [47] && EncodeVarint(122) == [122]
  {
  }

  lemma LongVarints()
    ensures EncodeVarint(254) == [0xFE, 0x01] && EncodeVarint(0) == [0] && EncodeVarint(246) == [0xF6, 0x01]
  {
  }

  lemma {:induction false} AsciiUnits(chars: seq<Scalar>)
    requires Ascii(chars)
    ensures |Utf16(chars)| == |chars|
  {
    if chars != [] {
      assert forall i :: 0 <= i < |chars| - 1 ==> chars[1..][i] == chars[i + 1];
      AsciiUnits(chars[1..]);
    }
  }

  // ----- A hostname outside ASCII -----

  /** A legacy ping for the hostname U+00E9, with its true rest length, is never read. */
  lemma AccentedPingIsLost(version: byte, port: u32)
    ensures Utf16([0xE9]) == [0xE9]
    ensures NeverRead(PingFrame(9, version, [0xE9], port))
  {
    hide NeverRead, ReadsFirst, PingFrame;
    var hostname: seq<Scalar> := [0xE9];
    assert Utf16(hostname[1..]) == [];
    assert Utf16(hostname) == [0xE9];
    assert !Ascii(hostname);
    PingHostname(hostname, version, port);
  }
}
