/**
 * The first packet of a connection arriving in pieces: well-formed Minecraft frames and proxy
 * hellos (shared/src/minecraft.rs, shared/src/socket_packet.rs, shared/src/packet_codec.rs).
 */
module FirstPacket {
  import opened Datatypes
  import opened Bytes
  import opened Text
  import opened Varint
  import opened Cursors
  import opened Minecraft
  import opened Packets
  import opened Bincode
  import opened Frames
  import opened Codec
  import opened Ambiguity

  /** Every strict prefix of the frame is waited for; the frame itself is read whatever follows. */
  ghost predicate ReadsFirst(frame: seq<byte>, p: SocketPacket) {
    && (forall part :: 0 <= part < |frame| && InMemory(frame[..part]) ==>
          DecodeStep(Protocol.Unknown, frame[..part]) == Wait)
    && (forall after :: InMemory(frame + after) ==>
          DecodeStep(Protocol.Unknown, frame + after) == Next(p, |frame|))
  }

  /** The frame never becomes a packet, whatever follows. */
  ghost predicate NeverRead(frame: seq<byte>) {
    forall after :: InMemory(frame + after) ==> !DecodeStep(Protocol.Unknown, frame + after).Next?
  }

  lemma NeverReadIsNotRead(frame: seq<byte>, p: SocketPacket)
    requires NeverRead(frame) && InMemory(frame)
    ensures !ReadsFirst(frame, p)
  {
    hide DecodeStep;
    assert frame + [] == frame;
  }

  // ----- Modern handshakes -----

  /** The handshake up to the port; the declared length is the first field. */
  function ModernFrame(length: i32, version: i32, hostname: String, port: u16): seq<byte>
    requires |hostname| < 0x8000_0000
  {
    EncodeVarint(length) + EncodeVarint(0) + EncodeVarint(version) + EncodeVarint(|hostname|) + hostname + PutBe16(port)
  }

  /** The positions of the fields. */
  datatype Layout = Layout(id: nat, version: nat, size: nat, name: nat, port: nat)

  function ModernLayout(length: i32, version: i32, hostname: String): Layout
    requires |hostname| < 0x8000_0000
  {
    var id := |EncodeVarint(length)|;
    var size := id + 1 + |EncodeVarint(version)|;
    var name := size + |EncodeVarint(|hostname|)|;
    Layout(id, id + 1, size, name, name + |hostname|)
  }

  /** A varint cut anywhere: not valid inside, as encoded after its end. */
  lemma VarintInPrefix(frame: seq<byte>, start: nat, x: i32, b: seq<byte>)
    requires start + |EncodeVarint(x)| <= |frame| && frame[start..start + |EncodeVarint(x)|] == EncodeVarint(x)
    requires start <= |b| && (b <= frame || frame <= b)
    ensures VarintAt(b, start)
         == if |b| < start + |EncodeVarint(x)| then Err(NotValid) else Ok(Reading(x, |EncodeVarint(x)|))
  {
    hide VarintAt;
    var e := EncodeVarint(x);
    if |b| < start + |e| {
      var part := |b| - start;
      assert b[start..] == e[..part] by {
        assert b == frame[..|b|];
      }
      assert b == b[..start] + e[..part];
      VarintCut(b[..start], x, part);
    } else {
      assert b[start..start + |e|] == e;
      assert b == b[..start] + e + b[start + |e|..];
      VarintInverts(b[..start], x, b[start + |e|..]);
    }
  }

  ghost predicate FieldsAt(frame: seq<byte>, at: Layout, length: i32, version: i32, hostname: String, port: u16)
    requires |hostname| < 0x8000_0000
  {
    && |frame| == at.port + 2 && at.id <= 5 && at.version == at.id + 1
    && at.size <= at.version + 5 && at.name <= at.size + 5 && at.port == at.name + |hostname|
    && 0 < at.id < at.version < at.size < at.name
    && BytesAt(frame, 0, EncodeVarint(length)) && |EncodeVarint(length)| == at.id
    && BytesAt(frame, at.id, EncodeVarint(0)) && EncodeVarint(0) == [0]
    && BytesAt(frame, at.version, EncodeVarint(version)) && at.version + |EncodeVarint(version)| == at.size
    && BytesAt(frame, at.size, EncodeVarint(|hostname|)) && at.size + |EncodeVarint(|hostname|)| == at.name
    && BytesAt(frame, at.name, hostname) && BytesAt(frame, at.port, PutBe16(port))
  }

  lemma ZeroIsOneByte()
    ensures EncodeVarint(0) == [0]
  {
  }

  lemma ModernFields(length: i32, version: i32, hostname: String, port: u16)
    requires |hostname| < 0x8000_0000
    ensures FieldsAt(ModernFrame(length, version, hostname, port), ModernLayout(length, version, hostname),
                     length, version, hostname, port)
  {
    hide EncodeVarint, PutBe16, BytesAt;
    EncodedLengthOfI32(length);
    EncodedLengthOfI32(version);
    EncodedLengthOfI32(|hostname|);
    ZeroIsOneByte();
    var e, v, n := EncodeVarint(length), EncodeVarint(version), EncodeVarint(|hostname|);
    var frame := ModernFrame(length, version, hostname, port);
    var f2 := e + [0];
    var f3 := f2 + v;
    var f4 := f3 + n;
    var f5 := f4 + hostname;
    assert frame == f5 + PutBe16(port);
    assert [] + e == e;
    PartAt(frame, [], e);
    PartAt(frame, e, [0]);
    PartAt(frame, f2, v);
    PartAt(frame, f3, n);
    PartAt(frame, f4, hostname);
    PartAt(frame, f5, PutBe16(port));
  }

  lemma PartAt(frame: seq<byte>, before: seq<byte>, part: seq<byte>)
    requires before + part <= frame
    ensures BytesAt(frame, |before|, part)
  {
    assert frame[..|before + part|][|before|..] == part;
  }

  lemma Slice(frame: seq<byte>, b: seq<byte>, p: nat, field: seq<byte>)
    requires BytesAt(frame, p, field) && (b <= frame || frame <= b) && p + |field| <= |b|
    ensures BytesAt(b, p, field)
  {
  }

  /** The modern parser on the frame with anything behind it, and on its prefixes. */
  lemma ModernInPrefix(
      frame: seq<byte>, at: Layout, length: i32, version: i32, hostname: String, port: u16, b: seq<byte>)
    requires |hostname| < 0x8000_0000 && FieldsAt(frame, at, length, version, hostname, port)
    requires length >= 0 && (b <= frame || frame <= b) && InMemory(b)
    ensures frame <= b ==>
              Modern(b) == if length == |frame| then Ok(Hello(b, |frame|, version, hostname, port)) else Err(NotValid)
    ensures |b| < |frame| ==> Modern(b) == if |b| < at.name then Err(NotValid) else Err(TooSmall)
  {
    hide VarintAt, EncodeVarint, ModernBody;
    VarintInPrefix(frame, 0, length, b);
    if |b| >= at.id {
      VarintInPrefix(frame, at.id, 0, b);
      if |b| >= at.version {
        BodyInPrefix(frame, at, length, version, hostname, port, b);
      }
    }
  }

  lemma BodyInPrefix(
      frame: seq<byte>, at: Layout, length: i32, version: i32, hostname: String, port: u16, b: seq<byte>)
    requires |hostname| < 0x8000_0000 && FieldsAt(frame, at, length, version, hostname, port)
    requires length >= 0 && (b <= frame || frame <= b) && InMemory(b) && at.version <= |b|
    ensures frame <= b ==>
              ModernBody(b, at.version, length)
              == if length == |frame| then Ok(Hello(b, |frame|, version, hostname, port)) else Err(NotValid)
    ensures |b| < |frame| ==>
              ModernBody(b, at.version, length) == if |b| < at.name then Err(NotValid) else Err(TooSmall)
  {
    hide VarintAt, EncodeVarint, Utf8StringAt, PutBe16, Be16;
    VarintInPrefix(frame, at.version, version, b);
    if |b| >= at.size {
      HostnameInPrefix(frame, at, length, version, hostname, port, b);
    }
  }

  /** The hostname and the port behind it. */
  lemma HostnameInPrefix(
      frame: seq<byte>, at: Layout, length: i32, version: i32, hostname: String, port: u16, b: seq<byte>)
    requires |hostname| < 0x8000_0000 && FieldsAt(frame, at, length, version, hostname, port)
    requires (b <= frame || frame <= b) && InMemory(b) && at.size <= |b|
    ensures Utf8StringAt(b, at.size)
         == if |b| < at.name then Err(NotValid)
            else if |b| < at.port then Err(TooSmall)
            else Ok(StringRead(hostname, at.port))
    ensures |b| >= at.port + 2 ==> Be16(b, at.port) == port
  {
    hide VarintAt, EncodeVarint;
    VarintInPrefix(frame, at.size, |hostname|, b);
    if |b| >= at.port {
      Slice(frame, b, at.name, hostname);
      if |b| >= at.port + 2 {
        Slice(frame, b, at.port, PutBe16(port));
        Be16Inverts(port, b, at.port);
      }
    }
  }

  /** The first two bytes of the length decide whether another format is suspected. */
  lemma LengthBytes(length: i32, b: seq<byte>)
    requires 6 <= length && |b| >= 2
    requires BytesAt(b, 0, EncodeVarint(length) + [0])
    ensures if length < 128 then b[0] == length && b[1] == 0 else b[0] >= 128
    ensures b[0] == 0xFE && b[1] == 0x01 <==> length == 254
  {
    var e := EncodeVarint(length) + [0];
    BytesAtEach(b, 0, e);
    assert e[0] == b[0] && e[1] == b[1];
    if length >= 128 {
      var tail := EncodeUnsigned(length / 128);
      assert e == [128 + length % 128] + (tail + [0]);
      assert e[1] == tail[0];
      if length < 128 * 128 {
        assert tail == [length / 128];
      }
    }
  }

  /** While the header is incomplete the proxy decoder sees a length that has not arrived. */
  lemma ShortPrefixWaits(frame: seq<byte>, length: i32, b: seq<byte>)
    requires BytesAt(frame, 0, EncodeVarint(length) + [0]) && length == |frame| >= 6
    requires b < frame && (|b| <= 16 || length < 128)
    ensures DecodeProxy(b) == Err(TooSmall)
  {
    hide Deserialize, EncodeVarint;
    LengthBytes(length, frame);
  }

  lemma OtherFormats(frame: seq<byte>, length: i32, b: seq<byte>)
    requires BytesAt(frame, 0, EncodeVarint(length) + [0]) && length == |frame| >= 6 && length != 254
    requires b <= frame || frame <= b
    ensures InMemory(b) ==> OldPing(b) == Err(NotMatching) && OldConnect(b) == Err(NotMatching)
  {
    hide EncodeVarint, Utf16StringAt;
    LengthBytes(length, frame);
    BytesAtEach(b, 0, [0xFE, 0x01]);
    BytesAtEach(b, 0, [0x02]);
    if |b| > 0 {
      assert b[0] == frame[0];
    }
    if |b| > 1 {
      assert b[1] == frame[1];
    }
  }

  lemma ModernStep(length: i32, version: i32, hostname: String, port: u16, b: seq<byte>)
    requires |hostname| < 0x8000_0000 && InMemory(b) && length != 254
    requires var frame := ModernFrame(length, version, hostname, port);
             length == |frame| && (b <= frame || frame <= b)
    ensures var frame := ModernFrame(length, version, hostname, port);
            DecodeStep(Protocol.Unknown, b)
            == if |b| < |frame| then Wait else Next(MCHello(Hello(frame, |frame|, version, hostname, port)), |frame|)
  {
    hide EncodeVarint, Modern, OldPing, OldConnect, DecodeProxy, ModernFrame, ModernLayout;
    var frame := ModernFrame(length, version, hostname, port);
    var at := ModernLayout(length, version, hostname);
    ModernFields(length, version, hostname, port);
    assert BytesAt(frame, 0, EncodeVarint(length) + [0]) by {
      assert frame[0..at.id + 1] == frame[0..at.id] + frame[at.id..at.id + 1];
    }
    OtherFormats(frame, length, b);
    ModernInPrefix(frame, at, length, version, hostname, port, b);
    if |b| < |frame| {
      if |b| < at.name {
        ShortPrefixWaits(frame, length, b);
      }
    } else {
      assert b[..|frame|] == frame[..|frame|];
    }
  }

  /** A frame of 254 bytes starts like a legacy ping: the modern parser never gets to see it. */
  lemma ModernLost(length: i32, version: i32, hostname: String, port: u16, b: seq<byte>)
    requires |hostname| < 0x8000_0000 && InMemory(b) && length == 254
    requires var frame := ModernFrame(length, version, hostname, port);
             length == |frame| && frame <= b
    ensures !DecodeStep(Protocol.Unknown, b).Next?
  {
    var frame := ModernFrame(length, version, hostname, port);
    var at := ModernLayout(length, version, hostname);
    ModernFields(length, version, hostname, port);
    assert EncodeVarint(254) == [0xFE, 0x01];
    assert |hostname| > 0;
    FirstByteNotZero(OfI32(version));
    FirstByteNotZero(|hostname|);
    BytesAtEach(frame, at.version, EncodeVarint(version));
    BytesAtEach(frame, at.size, EncodeVarint(|hostname|));
    BytesAtEach(frame, 0, [0xFE, 0x01]);
    assert at.id == 2 && frame[2] == 0 by {
      BytesAtEach(frame, 2, [0]);
    }
    assert version == 0 ==> EncodeVarint(version) == [0];
    assert frame[3] != 0 || frame[4] != 0;
    assert b[0] == 0xFE && b[1] == 0x01 && b[2] == 0 && (b[3] != 0 || b[4] != 0);
    LostBytes(b);
  }

  lemma FirstByteNotZero(u: nat)
    ensures EncodeUnsigned(u)[0] == 0 <==> u == 0
  {
  }

  lemma LostBytes(b: seq<byte>)
    requires InMemory(b) && |b| >= 34
    requires b[0] == 0xFE && b[1] == 0x01 && b[2] == 0 && (b[3] != 0 || b[4] != 0)
    ensures !DecodeStep(Protocol.Unknown, b).Next?
  {
    hide Utf16StringAt, DecodeProxy;
    BytesAtEach(b, 0, [0xFE, 0x01]);
    BytesAtEach(b, 0, OLD_MINECRAFT_START);
    assert OLD_MINECRAFT_START[2] == 0xFA;
    NoSuchTag(b);
  }

  /** Bytes that do not start with a small tag are no proxy packet. */
  lemma NoSuchTag(b: seq<byte>)
    requires |b| >= 6 && (b[2] >= 14 || b[3] != 0 || b[4] != 0 || b[5] != 0) && Be16(b, 0) >= 4
    ensures DecodeProxy(b).Err?
  {
    hide GetFields, GetField, OfFields, Shape;
    if |b| - 2 >= Be16(b, 0) {
      var body := b[2..2 + Be16(b, 0)];
      assert body[0] == b[2] && body[1] == b[3] && body[2] == b[4] && body[3] == b[5];
      if GetField(Variant(14), body).Some? {
        SmallTag(body);
      }
    }
  }

  lemma SmallTag(b: seq<byte>)
    requires GetField(Variant(14), b).Some?
    ensures |b| >= 4 && b[0] < 14 && b[1] == 0 && b[2] == 0 && b[3] == 0
  {
    hide GetField;
    var tag := GetField(Variant(14), b).value;
    TagInverts(b, tag.item, tag.rest);
    assert Le(3, 0) == [0, 0, 0];
    assert Le(4, tag.item.n) == [tag.item.n, 0, 0, 0];
  }

  /**
   * Modern handshakes of every length arrive in any pieces, except those of exactly 254 bytes,
   * which are never read.
   */
  lemma ModernReadsFirst(length: i32, version: i32, hostname: String, port: u16)
    requires |hostname| < 0x8000_0000 && length == |ModernFrame(length, version, hostname, port)|
    ensures var frame := ModernFrame(length, version, hostname, port);
            && InMemory(frame)
            && (ReadsFirst(frame, MCHello(Hello(frame, |frame|, version, hostname, port))) <==> length != 254)
            && (length == 254 ==> NeverRead(frame))
  {
    hide DecodeStep, ModernFrame;
    var frame := ModernFrame(length, version, hostname, port);
    var p := MCHello(Hello(frame, |frame|, version, hostname, port));
    if length != 254 {
      forall part | 0 <= part < |frame| ensures DecodeStep(Protocol.Unknown, frame[..part]) == Wait {
        ModernStep(length, version, hostname, port, frame[..part]);
      }
      forall after | InMemory(frame + after) ensures DecodeStep(Protocol.Unknown, frame + after) == Next(p, |frame|) {
        ModernStep(length, version, hostname, port, frame + after);
      }
    } else {
      forall after | InMemory(frame + after) ensures !DecodeStep(Protocol.Unknown, frame + after).Next? {
        ModernLost(length, version, hostname, port, frame + after);
      }
      NeverReadIsNotRead(frame, p);
    }
  }

  /**
   * Handshakes as Minecraft sends them: the declared length counts what follows it, a next-state byte
   * behind the port included. They arrive in any pieces if and only if that length is below 128, and are
   * never read otherwise.
   */
  lemma RealHandshake(length: i32, version: i32, hostname: String, port: u16)
    requires |hostname| < 0x8000_0000
    requires length == |ModernFrame(length, version, hostname, port)| - |EncodeVarint(length)| + 1
    requires InMemory(ModernFrame(length, version, hostname, port))
    ensures var frame := ModernFrame(length, version, hostname, port);
            && (ReadsFirst(frame, MCHello(Hello(frame, |frame|, version, hostname, port))) <==> length < 128)
            && (length >= 128 ==> NeverRead(frame))
  {
    hide EncodeVarint, ModernFrame, ReadsFirst, DecodeStep;
    var frame := ModernFrame(length, version, hostname, port);
    var p := MCHello(Hello(frame, |frame|, version, hostname, port));
    ModernFields(length, version, hostname, port);
    SizeOfLength(length);
    if length < 128 {
      ModernReadsFirst(length, version, hostname, port);
    } else {
      forall after | InMemory(frame + after) ensures !DecodeStep(Protocol.Unknown, frame + after).Next? {
        RealLost(length, version, hostname, port, frame + after);
      }
      NeverReadIsNotRead(frame, p);
    }
  }

  lemma RealLost(length: i32, version: i32, hostname: String, port: u16, b: seq<byte>)
    requires |hostname| < 0x8000_0000 && length >= 128
    requires var frame := ModernFrame(length, version, hostname, port);
             length == |frame| - |EncodeVarint(length)| + 1 && frame <= b && InMemory(b)
    ensures !DecodeStep(Protocol.Unknown, b).Next?
  {
    hide EncodeVarint, AnyHello, DecodeProxy, ModernFrame, ModernLayout;
    var frame := ModernFrame(length, version, hostname, port);
    var at := ModernLayout(length, version, hostname);
    ModernFields(length, version, hostname, port);
    HandshakeAccepted(length, version, hostname, port, b);
    LongLength(length, frame, at.id);
    AfterLength(frame, at, length, version, hostname, port);
    assert forall i :: 0 <= i < |frame| ==> b[i] == frame[i];
    NoSuchTag(b);
  }

  /** A declared length from 128 on has two to five bytes and looks like a frame length of at least 32768. */
  lemma LongLength(length: i32, b: seq<byte>, size: nat)
    requires length >= 128 && size == |EncodeVarint(length)| && BytesAt(b, 0, EncodeVarint(length))
    ensures 2 <= size <= 5 && |b| >= size && b[0] >= 128 && (size >= 4 ==> b[2] >= 128)
    ensures size == 2 ==> length < 0x4000
    ensures size == 3 ==> length >= 0x4000
  {
    var tail := EncodeUnsigned(length / 128);
    var e := EncodeVarint(length);
    EncodedLengthOfI32(length);
    BytesAtEach(b, 0, e);
    assert e == [128 + length % 128] + tail;
    if length / 128 >= 128 {
      var last := EncodeUnsigned(length / 128 / 128);
      assert tail == [128 + length / 128 % 128] + last;
      assert e[2] == last[0];
    }
  }

  /** Behind the length there is a zero byte, and not only zero bytes after that. */
  lemma AfterLength(
      frame: seq<byte>, at: Layout, length: i32, version: i32, hostname: String, port: u16)
    requires |hostname| < 0x8000_0000 && FieldsAt(frame, at, length, version, hostname, port) && length >= 128
    requires length == |frame| - at.id + 1
    ensures |frame| > at.id + 3 && frame[at.id] == 0 && (frame[at.id + 1] != 0 || frame[at.id + 2] != 0)
  {
    BytesAtEach(frame, at.id, EncodeVarint(0));
    BytesAtEach(frame, at.version, EncodeVarint(version));
    BytesAtEach(frame, at.size, EncodeVarint(|hostname|));
    FirstByteNotZero(OfI32(version));
    FirstByteNotZero(|hostname|);
    assert version == 0 ==> EncodeVarint(version) == [0];
    assert |hostname| > 0;
  }

  /** The parsers accept such a handshake, whatever follows, if and only if its declared length is below 128. */
  lemma HandshakeAccepted(
      length: i32, version: i32, hostname: String, port: u16, b: seq<byte>)
    requires |hostname| < 0x8000_0000
    requires length == |ModernFrame(length, version, hostname, port)| - |EncodeVarint(length)| + 1
    requires ModernFrame(length, version, hostname, port) <= b && InMemory(b)
    ensures var frame := ModernFrame(length, version, hostname, port);
            && (AnyHello(b).Ok? <==> length < 128)
            && (length < 128 ==> AnyHello(b) == Ok(Hello(b, |frame|, version, hostname, port)))
  {
    hide EncodeVarint, Modern, OldPing, OldConnect, ModernFrame, ModernLayout;
    var frame := ModernFrame(length, version, hostname, port);
    var at := ModernLayout(length, version, hostname);
    ModernFields(length, version, hostname, port);
    SizeOfLength(length);
    HandshakeStart(frame, at, length, version, hostname, port);
    ModernInPrefix(frame, at, length, version, hostname, port, b);
    LengthNotLegacy(frame, length, b);
  }

  lemma HandshakeStart(
      frame: seq<byte>, at: Layout, length: i32, version: i32, hostname: String, port: u16)
    requires |hostname| < 0x8000_0000 && FieldsAt(frame, at, length, version, hostname, port)
    ensures |frame| >= 6 && BytesAt(frame, 0, EncodeVarint(length) + [0])
  {
    hide EncodeVarint;
    assert frame[0..at.id + 1] == frame[0..at.id] + frame[at.id..at.id + 1];
  }

  lemma SizeOfLength(length: i32)
    requires length >= 0
    ensures |EncodeVarint(length)| == 1 <==> length < 128
  {
  }

  /** A frame that starts with its length and a zero byte is no legacy packet. */
  lemma LengthNotLegacy(frame: seq<byte>, length: i32, b: seq<byte>)
    requires BytesAt(frame, 0, EncodeVarint(length) + [0]) && length >= 6 && |frame| >= 6 && frame <= b && InMemory(b)
    ensures OldPing(b).Err? && OldConnect(b) == Err(NotMatching)
    ensures length < 128 ==> OldPing(b) == Err(NotMatching)
  {
    hide EncodeVarint, Utf16StringAt;
    LengthBytes(length, frame);
    BytesAtEach(b, 0, [0xFE, 0x01]);
    BytesAtEach(b, 0, [0x02]);
    assert b[0] == frame[0] && b[1] == frame[1] && b[2] == frame[2];
    if length == 254 {
      ThirdByteZero(frame);
      BytesAtEach(b, 0, OLD_MINECRAFT_START);
      assert OLD_MINECRAFT_START[2] == 0xFA;
    }
  }

  lemma ThirdByteZero(frame: seq<byte>)
    requires BytesAt(frame, 0, EncodeVarint(254) + [0])
    ensures |frame| > 2 && frame[2] == 0
  {
    assert EncodeVarint(254) == [0xFE, 0x01];
    BytesAtEach(frame, 0, EncodeVarint(254) + [0]);
  }

  // ----- UTF-16 strings inside a frame -----

  function PutUtf16(units: seq<u16>): (b: seq<byte>)
    requires |units| < 0x1_0000
    ensures |b| == 2 + 2 * |units|
  {
    PutBe16(|units|) + PutUnits(units)
  }

  lemma SliceParts(frame: seq<byte>, p: nat, e: seq<byte>, f: seq<byte>)
    requires BytesAt(frame, p, e + f)
    ensures BytesAt(frame, p, e) && BytesAt(frame, p + |e|, f)
  {
    assert frame[p..p + |e|] == (e + f)[..|e|];
    assert frame[p + |e|..p + |e| + |f|] == (e + f)[|e|..];
  }

  lemma Be16At(b: seq<byte>, p: nat, v: u16)
    requires BytesAt(b, p, PutBe16(v))
    ensures p + 2 <= |b| && Be16(b, p) == v
  {
    Be16Inverts(v, b, p);
  }

  lemma Be32At(b: seq<byte>, p: nat, v: u32)
    requires BytesAt(b, p, PutBe32(v))
    ensures p + 4 <= |b| && Be32(b, p) == v
  {
    Be32Inverts(v, b, p);
  }

  lemma {:induction false} UnitsAt(b: seq<byte>, p: nat, units: seq<u16>)
    requires BytesAt(b, p, PutUnits(units))
    ensures p + 2 * |units| <= |b| && Units(b, p, |units|) == units
  {
    hide PutUnits;
    UnitsInvert(b, p, units);
  }

  /** A complete string is decoded; until one byte more than the string is there it is waited for. */
  lemma {:induction false} Utf16InPrefix(frame: seq<byte>, p: nat, units: seq<u16>, b: seq<byte>)
    requires |units| < 0x1_0000 && BytesAt(frame, p, PutUtf16(units))
    requires p <= |b| && (b <= frame || frame <= b)
    ensures Utf16StringAt(b, p)
         == if |b| <= p + 2 + 2 * |units| then Err(TooSmall)
            else if DecodeUtf16(units).None? then Err(NotValidStringEncoding)
            else Ok(StringRead(Utf8(DecodeUtf16(units).value), p + 2 + 2 * |units|))
  {
    hide DecodeUtf16, Utf8, PutBe16, PutUnits, Be16, Units, BytesAt;
    SliceParts(frame, p, PutBe16(|units|), PutUnits(units));
    if |b| >= p + 2 {
      Slice(frame, b, p, PutBe16(|units|));
      Be16At(b, p, |units|);
      if |b| > p + 2 + 2 * |units| {
        Slice(frame, b, p + 2, PutUnits(units));
        UnitsAt(b, p + 2, units);
      }
    }
  }

  // ----- Legacy pings -----

  function PingFrame(restLength: u16, version: byte, units: seq<u16>, port: u32): (b: seq<byte>)
    requires |units| < 0x1_0000
    ensures |b| == 36 + 2 * |units|
  {
    OLD_MINECRAFT_START + PutBe16(restLength) + [version] + PutUtf16(units) + PutBe32(port)
  }

  ghost predicate PingAt(frame: seq<byte>, restLength: u16, version: byte, units: seq<u16>, port: u32) {
    && |units| < 0x1_0000 && |frame| == 36 + 2 * |units|
    && BytesAt(frame, 0, [0xFE, 0x01]) && BytesAt(frame, 0, OLD_MINECRAFT_START)
    && BytesAt(frame, 27, PutBe16(restLength)) && frame[29] == version
    && BytesAt(frame, 30, PutUtf16(units)) && BytesAt(frame, 32 + 2 * |units|, PutBe32(port))
  }

  lemma PingFields(restLength: u16, version: byte, units: seq<u16>, port: u32)
    requires |units| < 0x1_0000
    ensures PingAt(PingFrame(restLength, version, units, port), restLength, version, units, port)
  {
    hide PutUtf16, PutBe32, PutBe16;
    var frame := PingFrame(restLength, version, units, port);
    assert BytesAt(frame, 0, OLD_MINECRAFT_START);
    assert [0xFE, 0x01] + OLD_MINECRAFT_START[2..] == OLD_MINECRAFT_START;
    SliceParts(frame, 0, [0xFE, 0x01], OLD_MINECRAFT_START[2..]);
  }

  /** The ping parser on the frame with anything behind it, and on its prefixes. */
  lemma PingInPrefix(
      frame: seq<byte>, restLength: u16, version: byte, units: seq<u16>, port: u32, b: seq<byte>)
    requires PingAt(frame, restLength, version, units, port)
    requires InMemory(b) && 2 <= |b| && (b <= frame || frame <= b)
    ensures var chars := DecodeUtf16(units);
            OldPing(b)
            == if |b| <= 32 + 2 * |units| || |b| < 34 then Err(TooSmall)
               else if chars.None? then Err(NotValidStringEncoding)
               else if restLength != 7 + 2 * |Utf8(chars.value)| then Err(NotValid)
               else if |b| < |frame| then Err(TooSmall)
               else Ok(Hello(b, |frame|, version, Utf8(chars.value), port))
  {
    hide DecodeUtf16, Utf8, Utf16StringAt, PutUtf16, PutBe32, PutBe16, Be32, Be16, BytesAt;
    Slice(frame, b, 0, [0xFE, 0x01]);
    if |b| >= 34 {
      Slice(frame, b, 0, OLD_MINECRAFT_START);
      Slice(frame, b, 27, PutBe16(restLength));
      Be16At(b, 27, restLength);
      Utf16InPrefix(frame, 30, units, b);
      if |b| >= |frame| {
        Slice(frame, b, 32 + 2 * |units|, PutBe32(port));
        Be32At(b, 32 + 2 * |units|, port);
      }
    }
  }

  lemma PingStep(restLength: u16, version: byte, units: seq<u16>, port: u32, b: seq<byte>)
    requires |units| < 0x1_0000 && InMemory(b)
    requires var frame := PingFrame(restLength, version, units, port); b <= frame || frame <= b
    ensures var frame := PingFrame(restLength, version, units, port);
            var chars := DecodeUtf16(units);
            && (chars.Some? && restLength == 7 + 2 * |Utf8(chars.value)| ==>
                  DecodeStep(Protocol.Unknown, b)
                  == if |b| < |frame| then Wait
                     else Next(MCHello(Hello(frame, |frame|, version, Utf8(chars.value), port)), |frame|))
            && (frame <= b && !(chars.Some? && restLength == 7 + 2 * |Utf8(chars.value)|) ==>
                  !DecodeStep(Protocol.Unknown, b).Next?)
  {
    hide DecodeUtf16, Utf8, PingFrame, OldPing, DecodeProxy, PutUtf16, PutBe32;
    var frame := PingFrame(restLength, version, units, port);
    PingFields(restLength, version, units, port);
    BytesAtEach(frame, 0, OLD_MINECRAFT_START);
    assert frame[0] == OLD_MINECRAFT_START[0] && frame[1] == OLD_MINECRAFT_START[1];
    assert frame[2] == OLD_MINECRAFT_START[2];
    if |b| >= 2 {
      PingInPrefix(frame, restLength, version, units, port, b);
      if frame <= b {
        assert b[..|frame|] == frame[..|frame|];
        NoSuchTag(b);
      }
    } else if |b| == 1 {
      assert b[0] == frame[0];
      LoneByte(b);
    }
  }

  lemma LoneByte(b: seq<byte>)
    requires |b| == 1 && b[0] == 0xFE
    ensures DecodeStep(Protocol.Unknown, b) == Wait
  {
    hide VarintAt;
    BytesAtEach(b, 0, [0xFE, 0x01]);
    BytesAtEach(b, 0, [0x02]);
    ShortVarint(b, 0);
  }

  /**
   * A legacy ping arrives in any pieces exactly when its units are valid UTF-16 and the declared
   * rest length is 7 plus twice the UTF-8 length of the hostname; otherwise it is never read.
   */
  lemma PingReadsFirst(restLength: u16, version: byte, units: seq<u16>, port: u32)
    requires |units| < 0x1_0000
    ensures var frame := PingFrame(restLength, version, units, port);
            var chars := DecodeUtf16(units);
            if chars.Some? && restLength == 7 + 2 * |Utf8(chars.value)|
            then ReadsFirst(frame, MCHello(Hello(frame, |frame|, version, Utf8(chars.value), port)))
            else NeverRead(frame)
  {
    hide DecodeStep, PingFrame, DecodeUtf16, Utf8;
    var frame := PingFrame(restLength, version, units, port);
    var chars := DecodeUtf16(units);
    if chars.Some? && restLength == 7 + 2 * |Utf8(chars.value)| {
      forall part | 0 <= part < |frame| ensures DecodeStep(Protocol.Unknown, frame[..part]) == Wait {
        PingStep(restLength, version, units, port, frame[..part]);
      }
      forall after | InMemory(frame + after)
        ensures DecodeStep(Protocol.Unknown, frame + after)
             == Next(MCHello(Hello(frame, |frame|, version, Utf8(chars.value), port)), |frame|)
      {
        PingStep(restLength, version, units, port, frame + after);
      }
    } else {
      forall after | InMemory(frame + after) ensures !DecodeStep(Protocol.Unknown, frame + after).Next? {
        PingStep(restLength, version, units, port, frame + after);
      }
    }
  }

  /** With the true rest length, 7 plus the bytes of the UTF-16 hostname, only ASCII hostnames are accepted. */
  lemma PingHostname(hostname: seq<Scalar>, version: byte, port: u32)
    requires 7 + 2 * |Utf16(hostname)| < 0x1_0000
    ensures var units := Utf16(hostname);
            var frame := PingFrame(7 + 2 * |units|, version, units, port);
            if Ascii(hostname)
            then ReadsFirst(frame, MCHello(Hello(frame, |frame|, version, Utf8(hostname), port)))
            else NeverRead(frame)
  {
    hide ReadsFirst, NeverRead, PingFrame, DecodeUtf16, Utf8, Utf16, Ascii;
    var units := Utf16(hostname);
    Utf16Inverts(units, hostname);
    AsciiByLength(hostname);
    PingReadsFirst(7 + 2 * |units|, version, units, port);
  }

  // ----- Legacy connects -----

  function ConnectFrame(version: byte, username: seq<u16>, hostname: seq<u16>, port: u32): (b: seq<byte>)
    requires |username| < 0x1_0000 && |hostname| < 0x1_0000
    ensures |b| == 10 + 2 * |username| + 2 * |hostname|
  {
    [0x02, version] + PutUtf16(username) + PutUtf16(hostname) + PutBe32(port)
  }

  ghost predicate ConnectAt(frame: seq<byte>, version: byte, username: seq<u16>, hostname: seq<u16>, port: u32) {
    && |username| < 0x1_0000 && |hostname| < 0x1_0000
    && |frame| == 10 + 2 * |username| + 2 * |hostname|
    && frame[0] == 0x02 && BytesAt(frame, 0, [0x02]) && frame[1] == version
    && BytesAt(frame, 2, PutUtf16(username)) && BytesAt(frame, 4 + 2 * |username|, PutUtf16(hostname))
    && BytesAt(frame, 6 + 2 * |username| + 2 * |hostname|, PutBe32(port))
  }

  lemma ConnectFields(version: byte, username: seq<u16>, hostname: seq<u16>, port: u32)
    requires |username| < 0x1_0000 && |hostname| < 0x1_0000
    ensures ConnectAt(ConnectFrame(version, username, hostname, port), version, username, hostname, port)
  {
    hide PutUtf16, PutBe32;
  }

  lemma NotAPing(b: seq<byte>)
    requires InMemory(b) && (b == [] || b[0] != 0xFE)
    ensures OldPing(b) == Err(NotMatching)
  {
    BytesAtEach(b, 0, [0xFE, 0x01]);
  }

  /** The connect parser on the frame with anything behind it, and on its prefixes. */
  lemma ConnectInPrefix(
      frame: seq<byte>, version: byte, username: seq<u16>, hostname: seq<u16>, port: u32, b: seq<byte>)
    requires ConnectAt(frame, version, username, hostname, port)
    requires InMemory(b) && b != [] && (b <= frame || frame <= b)
    ensures var user, host := DecodeUtf16(username), DecodeUtf16(hostname);
            OldConnect(b)
            == if |b| <= 4 + 2 * |username| then Err(TooSmall)
               else if user.None? then Err(NotValidStringEncoding)
               else if |b| <= 6 + 2 * |username| + 2 * |hostname| then Err(TooSmall)
               else if host.None? then Err(NotValidStringEncoding)
               else if |b| < |frame| then Err(TooSmall)
               else Ok(Hello(b, |frame|, version, Utf8(host.value), port))
  {
    hide DecodeUtf16, Utf8, Utf16StringAt, PutUtf16, PutBe32, Be32, BytesAt, OldConnectBody;
    Slice(frame, b, 0, [0x02]);
    if |b| >= 2 {
      Utf16InPrefix(frame, 2, username, b);
      if |b| > 4 + 2 * |username| {
        ConnectBodyInPrefix(frame, version, username, hostname, port, b);
      }
    }
  }

  /** The hostname and the port, behind the username. */
  lemma ConnectBodyInPrefix(
      frame: seq<byte>, version: byte, username: seq<u16>, hostname: seq<u16>, port: u32, b: seq<byte>)
    requires ConnectAt(frame, version, username, hostname, port)
    requires InMemory(b) && 4 + 2 * |username| < |b| && (b <= frame || frame <= b)
    ensures var host := DecodeUtf16(hostname);
            OldConnectBody(b, 4 + 2 * |username|, version)
            == if |b| <= 6 + 2 * |username| + 2 * |hostname| then Err(TooSmall)
               else if host.None? then Err(NotValidStringEncoding)
               else if |b| < |frame| then Err(TooSmall)
               else Ok(Hello(b, |frame|, version, Utf8(host.value), port))
  {
    hide DecodeUtf16, Utf8, Utf16StringAt, PutUtf16, PutBe32, Be32, BytesAt;
    Utf16InPrefix(frame, 4 + 2 * |username|, hostname, b);
    if |b| >= |frame| {
      Slice(frame, b, 6 + 2 * |username| + 2 * |hostname|, PutBe32(port));
      Be32At(b, 6 + 2 * |username| + 2 * |hostname|, port);
    }
  }

  lemma ConnectStep(
      version: byte, username: seq<Scalar>, hostname: seq<Scalar>, port: u32, b: seq<byte>)
    requires |Utf16(username)| < 0x1_0000 && |Utf16(hostname)| < 0x1_0000 && InMemory(b) && b != []
    requires var frame := ConnectFrame(version, Utf16(username), Utf16(hostname), port); b <= frame || frame <= b
    ensures var frame := ConnectFrame(version, Utf16(username), Utf16(hostname), port);
            DecodeStep(Protocol.Unknown, b)
            == if |b| < |frame| then Wait
               else Next(MCHello(Hello(frame, |frame|, version, Utf8(hostname), port)), |frame|)
  {
    hide DecodeUtf16, Utf8, Utf16, ConnectFrame, OldPing, OldConnect, PutUtf16, PutBe32, BytesAt;
    Utf16Inverts(Utf16(username), username);
    Utf16Inverts(Utf16(hostname), hostname);
    var frame := ConnectFrame(version, Utf16(username), Utf16(hostname), port);
    ConnectFields(version, Utf16(username), Utf16(hostname), port);
    assert b[0] == frame[0];
    NotAPing(b);
    ConnectInPrefix(frame, version, Utf16(username), Utf16(hostname), port, b);
    if frame <= b {
      assert b[..|frame|] == frame[..|frame|];
    }
  }

  /** A legacy connect with well-formed strings arrives in any pieces. */
  lemma ConnectReadsFirst(version: byte, username: seq<Scalar>, hostname: seq<Scalar>, port: u32)
    requires |Utf16(username)| < 0x1_0000 && |Utf16(hostname)| < 0x1_0000
    ensures var frame := ConnectFrame(version, Utf16(username), Utf16(hostname), port);
            ReadsFirst(frame, MCHello(Hello(frame, |frame|, version, Utf8(hostname), port)))
  {
    hide DecodeStep, ConnectFrame, Utf16, Utf8;
    var frame := ConnectFrame(version, Utf16(username), Utf16(hostname), port);
    forall part | 0 <= part < |frame| ensures DecodeStep(Protocol.Unknown, frame[..part]) == Wait {
      if part == 0 {
        NothingWaits();
      } else {
        ConnectStep(version, username, hostname, port, frame[..part]);
      }
    }
    forall after | InMemory(frame + after)
      ensures DecodeStep(Protocol.Unknown, frame + after)
           == Next(MCHello(Hello(frame, |frame|, version, Utf8(hostname), port)), |frame|)
    {
      ConnectStep(version, username, hostname, port, frame + after);
    }
  }

  lemma NothingWaits()
    ensures DecodeStep(Protocol.Unknown, []) == Wait
  {
  }

  // ----- Proxy frames -----

  /** Any frame with an unambiguous length, proxy hellos among them, arrives in any pieces. */
  lemma FrameReadsFirst(p: SocketPacket)
    requires Readable(Protocol.Unknown, p) && InMemory(Frame(p))
    ensures ReadsFirst(Frame(p), p)
  {
    hide DecodeStep, Serialize, Unambiguous;
    forall part | 0 <= part < |Frame(p)| ensures DecodeStep(Protocol.Unknown, Frame(p)[..part]) == Wait {
      ReadableCut(Protocol.Unknown, p, part);
    }
    forall after | InMemory(Frame(p) + after)
      ensures DecodeStep(Protocol.Unknown, Frame(p) + after) == Next(p, |Frame(p)|)
    {
      ReadableFrame(Protocol.Unknown, p, after);
    }
  }

  // ----- Any chunking -----

  /** In whatever pieces the frame and what follows arrive, the reader's first packet is the frame's. */
  lemma {:induction false} FirstPacketArrives(r: Reader, frame: seq<byte>, p: SocketPacket, chunks: seq<seq<byte>>)
    requires r.protocol.Unknown? && r.packets == [] && r.failed.None?
    requires ReadsFirst(frame, p) && r.rest < frame <= r.rest + Flatten(chunks)
    requires |r.rest| + |Flatten(chunks)| < 0x8000_0000_0000_0000
    ensures var r' := FeedAll(r, chunks); r'.packets != [] && r'.packets[0] == p
    decreases |chunks|
  {
    hide DecodeStep;
    if chunks != [] {
      var b, later := r.rest + chunks[0], Flatten(chunks[1..]);
      assert r.rest + Flatten(chunks) == b + later;
      PrefixesCompare(b, frame, b + later);
      var r' := Feed(r, chunks[0]);
      if |b| < |frame| {
        assert b == frame[..|b|];
        assert r' == Reader(Protocol.Unknown, b, [], None);
        FirstPacketArrives(r', frame, p, chunks[1..]);
      } else {
        assert b == frame + b[|frame|..];
        assert r'.packets[0] == p;
        PacketsGrow(r', chunks[1..]);
      }
    }
  }

  // ----- Strings that are no UTF-16 -----

  /** The frame is an error as soon as it is complete, whatever follows. */
  ghost predicate FailsFirst(frame: seq<byte>) {
    forall after :: InMemory(frame + after) ==>
      DecodeStep(Protocol.Unknown, frame + after) == Fail(NotValidStringEncoding)
  }

  /** A legacy ping whose hostname is no valid UTF-16 is reported, not waited for. */
  lemma PingEncodingFails(restLength: u16, version: byte, units: seq<u16>, port: u32)
    requires |units| < 0x1_0000 && DecodeUtf16(units).None?
    ensures FailsFirst(PingFrame(restLength, version, units, port))
  {
    hide DecodeUtf16, Utf8, PingFrame, OldPing, DecodeProxy, PutUtf16, PutBe32;
    var frame := PingFrame(restLength, version, units, port);
    PingFields(restLength, version, units, port);
    forall after | InMemory(frame + after)
      ensures DecodeStep(Protocol.Unknown, frame + after) == Fail(NotValidStringEncoding)
    {
      PingInPrefix(frame, restLength, version, units, port, frame + after);
    }
  }

  /** So is a legacy connect in which the username or the hostname is none. */
  lemma ConnectEncodingFails(version: byte, username: seq<u16>, hostname: seq<u16>, port: u32)
    requires |username| < 0x1_0000 && |hostname| < 0x1_0000
    requires DecodeUtf16(username).None? || DecodeUtf16(hostname).None?
    ensures FailsFirst(ConnectFrame(version, username, hostname, port))
  {
    hide DecodeUtf16, Utf8, ConnectFrame, OldConnect, OldPing, DecodeProxy, PutUtf16, PutBe32;
    var frame := ConnectFrame(version, username, hostname, port);
    ConnectFields(version, username, hostname, port);
    forall after | InMemory(frame + after)
      ensures DecodeStep(Protocol.Unknown, frame + after) == Fail(NotValidStringEncoding)
    {
      BytesAtEach(frame, 0, [0x02]);
      assert (frame + after)[0] == frame[0];
      NotAPing(frame + after);
      ConnectInPrefix(frame, version, username, hostname, port, frame + after);
    }
  }
}
