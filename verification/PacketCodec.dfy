/** The decoder's mode machine and the loop that drives it (shared/src/packet_codec.rs). */
module Codec {
  import opened Datatypes
  import opened Bytes
  import opened Minecraft
  import opened Packets
  import opened Bincode
  import opened Frames

  // ----- One call of `decode` -----

  datatype Decoded =
    | Wait
    | Next(packet: SocketPacket, size: nat)
    | Fail(error: PacketError)

  /** The mode after a first packet: the packet's version, as u32, is kept. */
  function ModeAfter(protocol: Protocol, packet: SocketPacket): Protocol {
    if !protocol.Unknown? then protocol
    else
      match packet
      case ProxyHello(h) => Protocol.Proxy(h.version)
      case MCHello(h) => Protocol.MC(OfI32(h.version))
      case _ => Protocol.Unknown
  }

  function Parse(protocol: Protocol, b: seq<byte>): Result<Taken>
    requires InMemory(b)
  {
    if protocol.Unknown? then ParseFirst(b) else ParsePacket(b, protocol)
  }

  function DecodeStep(protocol: Protocol, b: seq<byte>): (d: Decoded)
    requires InMemory(b)
    ensures d.Next? ==> 0 < d.size <= |b|
  {
    if b == [] then Wait
    else
      match Parse(protocol, b)
      case Ok(taken) => Next(taken.packet, taken.size)
      case Err(TooSmall) => Wait
      case Err(e) => Fail(e)
  }

  class PacketCodec {
    const max_length: nat
    var protocol: Protocol

    constructor (max_length: nat)
      ensures protocol.Unknown? && this.max_length == max_length
    {
      this.max_length := max_length;
      protocol := Protocol.Unknown;
    }

    /**
     * A packet leaves the front of the buffer and may settle the mode;
     * waiting and failing leave buffer and mode as they were.
     */
    method Decode(buf: BytesMut) returns (r: Result<Option<SocketPacket>>)
      requires InMemory(buf.data)
      modifies this, buf
      ensures match DecodeStep(old(protocol), old(buf.data))
              case Wait => r == Ok(None) && protocol == old(protocol) && buf.data == old(buf.data)
              case Fail(e) => r == Err(e) && protocol == old(protocol) && buf.data == old(buf.data)
              case Next(p, size) =>
                && r == Ok(Some(p))
                && protocol == ModeAfter(old(protocol), p)
                && buf.data == old(buf.data)[size..]
    {
      if buf.data == [] {
        return Ok(None);
      }
      var result;
      if protocol.Unknown? {
        result := ParseFirstPackage(buf);
        match result
        case Ok(ProxyHello(pkg)) =>
          protocol := Protocol.Proxy(pkg.version);
        case Ok(MCHello(pkg)) =>
          protocol := Protocol.MC(OfI32(pkg.version));
        case _ =>
          protocol := Protocol.Unknown;
      } else {
        result := ParsePacketFrom(buf, protocol);
      }
      match result
      case Ok(packet) =>
        return Ok(Some(packet));
      case Err(TooSmall) =>
        return Ok(None);
      case Err(e) =>
        return Err(e);
    }

    /** Minecraft packets are written as their raw bytes, everything else as a frame. */
    method Encode(p: SocketPacket, buf: BytesMut)
      requires Writable(p)
      modifies buf
      ensures buf.data == old(buf.data) + Wire(p)
      ensures p.MCData? ==> buf.data == old(buf.data) + p.mc.data
      ensures p.MCHello? ==> buf.data == old(buf.data) + p.hello.data
    {
      var data;
      match p {
        case MCHello(packet) => data := packet.data;
        case MCData(packet) => data := packet.data;
        case UnknownPacket => data := UNKNOWN_PACKET;
        case packet => data := Frames.Encode(packet);
      }
      buf.Put(data);
    }
  }

  /** The text "UnknownPacket" in ASCII. */
  const UNKNOWN_PACKET: seq<byte> := [85, 110, 107, 110, 111, 119, 110, 80, 97, 99, 107, 101, 116]

  /** Only what is framed has to fit the length fields of its encoding. */
  ghost predicate Writable(p: SocketPacket) {
    p.MCHello? || p.MCData? || p.UnknownPacket? || Sized(p)
  }

  function Wire(p: SocketPacket): seq<byte>
    requires Writable(p)
  {
    match p
    case MCHello(packet) => packet.data
    case MCData(packet) => packet.data
    case UnknownPacket => UNKNOWN_PACKET
    case _ => Frame(p)
  }

  /** What is written for a list of packets, one after the other. */
  ghost function Written(ps: seq<SocketPacket>): seq<byte> {
    if ps == [] then [] else (if Writable(ps[0]) then Wire(ps[0]) else []) + Written(ps[1..])
  }

  lemma UnknownIsText(i: nat)
    requires i < |UNKNOWN_PACKET|
    ensures |UNKNOWN_PACKET| == |"UnknownPacket"| && UNKNOWN_PACKET[i] == "UnknownPacket"[i] as int
  {
  }

  // ----- The framed reader: append a chunk, decode until nothing comes -----

  datatype Reader = Reader(protocol: Protocol, rest: seq<byte>, packets: seq<SocketPacket>, failed: Option<PacketError>)

  /** All packets that can be taken from a buffer. */
  function Drain(protocol: Protocol, b: seq<byte>): (r: Reader)
    requires InMemory(b)
    ensures |r.rest| <= |b|
    decreases |b|
  {
    match DecodeStep(protocol, b)
    case Wait => Reader(protocol, b, [], None)
    case Fail(e) => Reader(protocol, b, [], Some(e))
    case Next(p, size) => Prepend([p], Drain(ModeAfter(protocol, p), b[size..]))
  }

  /** The reader with earlier packets put in front. */
  function Prepend(earlier: seq<SocketPacket>, r: Reader): Reader {
    r.(packets := earlier + r.packets)
  }

  lemma PrependTwice(a: seq<SocketPacket>, b: seq<SocketPacket>, r: Reader)
    ensures Prepend(a, Prepend(b, r)) == Prepend(a + b, r)
  {
    assert a + (b + r.packets) == a + b + r.packets;
  }

  /** One more chunk: a failed reader takes nothing any more. */
  function Feed(r: Reader, chunk: seq<byte>): (r': Reader)
    requires InMemory(r.rest + chunk)
    ensures |r'.rest| <= |r.rest| + |chunk|
  {
    if r.failed.Some? then r
    else Prepend(r.packets, Drain(r.protocol, r.rest + chunk))
  }

  function FeedAll(r: Reader, chunks: seq<seq<byte>>): Reader
    requires |r.rest| + |Flatten(chunks)| < 0x8000_0000_0000_0000
    decreases |chunks|
  {
    if chunks == [] then r else FeedAll(Feed(r, chunks[0]), chunks[1..])
  }

  /** After an error nothing more is delivered, and what was delivered is never taken back. */
  lemma {:induction false} FailedStays(r: Reader, chunks: seq<seq<byte>>)
    requires r.failed.Some? && |r.rest| + |Flatten(chunks)| < 0x8000_0000_0000_0000
    ensures FeedAll(r, chunks) == r
    decreases |chunks|
  {
    hide Drain;
    if chunks != [] {
      FailedStays(r, chunks[1..]);
    }
  }

  lemma {:induction false} PacketsGrow(r: Reader, chunks: seq<seq<byte>>)
    requires |r.rest| + |Flatten(chunks)| < 0x8000_0000_0000_0000
    ensures r.packets <= FeedAll(r, chunks).packets
    decreases |chunks|
  {
    hide Drain;
    if chunks != [] {
      PacketsGrow(Feed(r, chunks[0]), chunks[1..]);
    }
  }

  /** A connection's receiving side: its codec, its buffer and the packets delivered so far. */
  class FramedReader {
    const codec: PacketCodec
    const buf: BytesMut
    var packets: seq<SocketPacket>
    var failed: Option<PacketError>

    constructor ()
      ensures Abs() == Reader(Protocol.Unknown, [], [], None)
      ensures fresh(codec) && fresh(buf)
    {
      codec := new PacketCodec(0x2000);
      buf := new BytesMut();
      packets := [];
      failed := None;
    }

    function Abs(): Reader
      reads this, codec, buf
    {
      Reader(codec.protocol, buf.data, packets, failed)
    }

    /** The decoding loop ends because every packet shortens the buffer. */
    method Receive(chunk: seq<byte>)
      requires InMemory(buf.data + chunk)
      modifies this, codec, buf
      ensures Abs() == Feed(old(Abs()), chunk)
    {
      if failed.Some? {
        return;
      }
      buf.Put(chunk);
      ghost var all := Prepend(packets, Drain(codec.protocol, buf.data));
      var more := true;
      while more
        invariant InMemory(buf.data) && (more ==> failed.None?)
        invariant all == if more then Prepend(packets, Drain(codec.protocol, buf.data)) else Abs()
        decreases more, |buf.data|
      {
        ghost var protocol, data := codec.protocol, buf.data;
        var result := codec.Decode(buf);
        match result
        case Ok(Some(packet)) =>
          PrependTwice(packets, [packet], Drain(codec.protocol, buf.data));
          packets := packets + [packet];
        case Ok(None) =>
          assert Drain(protocol, data) == Reader(protocol, data, [], None);
          more := false;
        case Err(e) =>
          assert Drain(protocol, data) == Reader(protocol, data, [], Some(e));
          failed := Some(e);
          more := false;
      }
    }
  }
}
