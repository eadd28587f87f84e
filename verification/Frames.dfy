/** Length-prefixed frames and the choice of parser (shared/src/socket_packet.rs). */
module Frames {
  import opened Datatypes
  import opened Bytes
  import opened Minecraft
  import opened Packets
  import opened Bincode

  /** A packet read from the front of a buffer and the number of bytes it took. */
  datatype Taken = Taken(packet: SocketPacket, size: nat)

  function Body(p: SocketPacket): seq<byte>
    requires Sized(p)
  {
    Serialize(p)
  }

  /** The frame `encode` produces; the length is cut to 16 bits. */
  function Frame(p: SocketPacket): (b: seq<byte>)
    requires Sized(p)
    ensures |b| == 2 + |Body(p)|
  {
    PutBe16(|Body(p)| % 0x1_0000) + Body(p)
  }

  method Encode(p: SocketPacket) returns (b: seq<byte>)
    requires Sized(p)
    ensures b == Frame(p)
  {
    var packet := Serialize(p);
    var packetLength: nat := |packet| % 0x1_0000;
    b := PutBe16(packetLength);
    b := b + packet;
  }

  function DecodeProxy(b: seq<byte>): (r: Result<Taken>)
    ensures r.Ok? ==> 2 <= r.value.size <= |b|
    ensures r.Err? ==> r.error in {TooSmall, NotValid}
  {
    if |b| < 2 then Err(TooSmall)
    else
      var length := Be16(b, 0);
      if |b| - 2 < length then Err(TooSmall)
      else
        match Deserialize(b[2..2 + length])
        case None => Err(NotValid)
        case Some(parsed) => Ok(Taken(parsed.item, 2 + length))
  }

  /** A Minecraft hello, or a proxy frame when the buffer is not one. */
  function ParseFirst(b: seq<byte>): (r: Result<Taken>)
    requires InMemory(b)
    ensures r.Ok? ==> 2 <= r.value.size <= |b|
  {
    match AnyHello(b)
    case Ok(h) => HelloIsItsBytes(b); Ok(Taken(MCHello(h), h.length))
    case Err(NotValid) => DecodeProxy(b)
    case Err(NotMatching) => DecodeProxy(b)
    case Err(e) => Err(e)
  }

  /** What is read once the mode is known. */
  function ParsePacket(b: seq<byte>, protocol: Protocol): (r: Result<Taken>)
    requires !protocol.Unknown?
  {
    if protocol.MC? then Ok(Taken(MCData(MinecraftDataPacket(b)), |b|)) else DecodeProxy(b)
  }

  // ----- The methods that consume the buffer -----

  method DecodeProxyFrom(buf: BytesMut) returns (r: Result<SocketPacket>)
    modifies buf
    ensures match DecodeProxy(old(buf.data))
            case Ok(taken) => r == Ok(taken.packet) && buf.data == old(buf.data)[taken.size..]
            case Err(e) => r == Err(e) && buf.data == old(buf.data)
  {
    if |buf.data| < 2 {
      return Err(TooSmall);
    }
    var length: nat := Be16(buf.data, 0);
    if |buf.data| - 2 < length {
      return Err(TooSmall);
    }
    match Deserialize(buf.data[2..2 + length])
    case None =>
      return Err(NotValid);
    case Some(parsed) =>
      buf.Advance(2 + length);
      return Ok(parsed.item);
  }

  method ParseFirstPackage(buf: BytesMut) returns (r: Result<SocketPacket>)
    requires InMemory(buf.data)
    modifies buf
    ensures match ParseFirst(old(buf.data))
            case Ok(taken) => r == Ok(taken.packet) && buf.data == old(buf.data)[taken.size..]
            case Err(e) => r == Err(e) && buf.data == old(buf.data)
  {
    var hello := NewHello(buf);
    match hello
    case Ok(h) =>
      return Ok(MCHello(h));
    case Err(NotValid) =>
      r := DecodeProxyFrom(buf);
    case Err(NotMatching) =>
      r := DecodeProxyFrom(buf);
    case Err(e) =>
      return Err(e);
  }

  method ParsePacketFrom(buf: BytesMut, protocol: Protocol) returns (r: Result<SocketPacket>)
    requires !protocol.Unknown?
    modifies buf
    ensures match ParsePacket(old(buf.data), protocol)
            case Ok(taken) => r == Ok(taken.packet) && buf.data == old(buf.data)[taken.size..]
            case Err(e) => r == Err(e) && buf.data == old(buf.data)
  {
    if protocol.MC? {
      var packet := NewData(buf);
      return Ok(MCData(packet));
    } else {
      r := DecodeProxyFrom(buf);
    }
  }

  // ----- Frames read back -----

  /** Bodies the 16-bit length can describe. */
  ghost predicate Framed(p: SocketPacket) {
    Sized(p) && |Body(p)| < 0x1_0000
  }

  /** A frame followed by anything is read back as the packet it encodes; a cut frame waits. */
  lemma FrameInverts(p: SocketPacket, after: seq<byte>)
    requires Framed(p)
    ensures DecodeProxy(Frame(p) + after) == Ok(Taken(p, |Frame(p)|))
  {
    hide Deserialize, Serialize, PutBe16, Be16;
    var b := Frame(p) + after;
    var n := |Body(p)|;
    assert b[0..2] == PutBe16(n);
    Be16Inverts(n, b, 0);
    assert b[2..2 + n] == Body(p) + [];
    DeserializeInverts(b[2..2 + n], p, []);
  }

  lemma FrameCut(p: SocketPacket, part: nat)
    requires Framed(p) && part < |Frame(p)|
    ensures DecodeProxy(Frame(p)[..part]) == Err(TooSmall)
  {
    if part >= 2 {
      var b := Frame(p)[..part];
      assert b[0..2] == PutBe16(|Body(p)|);
      Be16Inverts(|Body(p)|, b, 0);
    }
  }

  /** Bytes that arrive later do not change a decision already made. */
  lemma DecodeProxyStable(b: seq<byte>, after: seq<byte>)
    requires DecodeProxy(b) != Err(TooSmall)
    ensures DecodeProxy(b + after) == DecodeProxy(b)
  {
    var length := Be16(b, 0);
    assert Be16(b + after, 0) == length;
    assert (b + after)[2..2 + length] == b[2..2 + length];
  }

  /** The bytes taken are a length followed by a serialized packet and ignored trailing bytes. */
  lemma DecodeProxyTakes(b: seq<byte>, packet: SocketPacket, size: nat) returns (ignored: seq<byte>)
    requires DecodeProxy(b) == Ok(Taken(packet, size))
    ensures Sized(packet) && b[2..size] == Serialize(packet) + ignored
  {
    var parsed := Deserialize(b[2..size]).value;
    ignored := parsed.rest;
    DeserializeInverts(b[2..size], packet, ignored);
  }
}
