/**
 * Byte conservation on a Minecraft connection: what the decoder hands on is what it read
 * (shared/src/packet_codec.rs, shared/src/minecraft.rs).
 */
module Conservation {
  import opened Datatypes
  import opened Bytes
  import opened Minecraft
  import opened Packets
  import opened Bincode
  import opened Frames
  import opened Codec

  /** The connection's bytes carried by a packet: the hello's data and every data packet. */
  function Payload(p: SocketPacket): seq<byte> {
    match p
    case MCHello(h) => h.data
    case MCData(d) => d.data
    case _ => []
  }

  function Payloads(ps: seq<SocketPacket>): seq<seq<byte>> {
    seq(|ps|, i requires 0 <= i < |ps| => Payload(ps[i]))
  }

  /** A Minecraft hello followed by data packets only. */
  predicate MinecraftSession(ps: seq<SocketPacket>) {
    ps != [] && ps[0].MCHello? && forall i :: 0 < i < |ps| ==> ps[i].MCData?
  }

  // ----- One packet -----

  /**
   * A decoded packet accounts for the bytes it takes: the whole buffer in Minecraft mode, a hello's own
   * bytes when a Minecraft parser accepts the buffer, and otherwise a frame, which starts with the
   * packet's serialised form.
   */
  lemma TakesExactly(protocol: Protocol, b: seq<byte>, p: SocketPacket, size: nat)
    requires InMemory(b) && DecodeStep(protocol, b) == Next(p, size)
    ensures 0 < size <= |b|
    ensures protocol.MC? ==> p == MCData(MinecraftDataPacket(b)) && size == |b|
    ensures protocol.Unknown? && AnyHello(b).Ok? ==> p.MCHello? && size == p.hello.length && p.hello.data == b[..size]
    ensures protocol.Proxy? || (protocol.Unknown? && AnyHello(b).Err?) ==>
              size == 2 + Be16(b, 0) && Sized(p) && Serialize(p) <= b[2..size]
  {
    hide OldPing, OldConnect, Modern, Deserialize, Serialize;
    if protocol.Proxy? || (protocol.Unknown? && AnyHello(b).Err?) {
      var ignored := DecodeProxyTakes(b, p, size);
    } else if protocol.Unknown? {
      HelloIsItsBytes(b);
    }
  }

  // ----- Minecraft mode -----

  lemma DrainMinecraft(version: int, b: seq<byte>)
    requires InMemory(b)
    ensures Drain(Protocol.MC(version), b)
         == Reader(Protocol.MC(version), [], if b == [] then [] else [MCData(MinecraftDataPacket(b))], None)
  {
    hide ParseFirst, DecodeProxy;
    if b != [] {
      assert b[|b|..] == [];
      assert Drain(Protocol.MC(version), []) == Reader(Protocol.MC(version), [], [], None);
    }
  }

  lemma PayloadsAppend(ps: seq<SocketPacket>, p: SocketPacket)
    ensures Flatten(Payloads(ps + [p])) == Flatten(Payloads(ps)) + Payload(p)
  {
    assert Payloads(ps + [p]) == Payloads(ps) + [Payload(p)];
    FlattenAppend(Payloads(ps), Payload(p));
  }

  /** In Minecraft mode nothing stays behind, nothing fails and the mode stays. */
  lemma {:induction false} FeedMinecraft(r: Reader, chunks: seq<seq<byte>>)
    requires r.protocol.MC? && r.rest == [] && r.failed.None? && MinecraftSession(r.packets)
    requires InMemory(Flatten(chunks))
    ensures var r' := FeedAll(r, chunks);
            && r'.protocol == r.protocol && r'.rest == [] && r'.failed.None?
            && MinecraftSession(r'.packets) && r.packets <= r'.packets
            && Flatten(Payloads(r'.packets)) == Flatten(Payloads(r.packets)) + Flatten(chunks)
    decreases |chunks|
  {
    hide Drain;
    if chunks != [] {
      var c := chunks[0];
      assert [] + c == c;
      DrainMinecraft(r.protocol.version, c);
      if c == [] {
        assert r.packets + [] == r.packets;
      } else {
        PayloadsAppend(r.packets, MCData(MinecraftDataPacket(c)));
      }
      FeedMinecraft(Feed(r, c), chunks[1..]);
    }
  }

  // ----- What is written to a Minecraft connection -----

  predicate MinecraftPacket(p: SocketPacket) {
    p.MCHello? || p.MCData?
  }

  /** Minecraft packets are written as the bytes they carry and nothing else. */
  lemma {:induction false} MinecraftIsWritten(ps: seq<SocketPacket>)
    requires forall i :: 0 <= i < |ps| ==> MinecraftPacket(ps[i])
    ensures Written(ps) == Flatten(Payloads(ps))
  {
    hide Sized;
    if ps != [] {
      assert MinecraftPacket(ps[0]) && Payloads(ps)[1..] == Payloads(ps[1..]);
      MinecraftIsWritten(ps[1..]);
    }
  }

  /**
   * Relaying Minecraft packets: what is written for them, read in any chunking by a reader in Minecraft mode,
   * is handed on as exactly the bytes the packets carried.
   */
  lemma MinecraftRelay(version: int, first: MinecraftHelloPacket, ps: seq<SocketPacket>, chunks: seq<seq<byte>>)
    requires forall i :: 0 <= i < |ps| ==> MinecraftPacket(ps[i])
    requires Flatten(chunks) == Written(ps) && InMemory(Flatten(chunks))
    ensures var r := FeedAll(Reader(Protocol.MC(version), [], [MCHello(first)], None), chunks);
            && r.failed.None? && r.rest == [] && r.protocol == Protocol.MC(version)
            && Flatten(Payloads(r.packets)) == first.data + Flatten(Payloads(ps))
  {
    hide FeedAll, Written, Payloads, Flatten, MinecraftSession;
    var hello := [MCHello(first)];
    MinecraftIsWritten(ps);
    OneHello(first);
    FeedMinecraft(Reader(Protocol.MC(version), [], hello, None), chunks);
  }

  lemma OneHello(first: MinecraftHelloPacket)
    ensures MinecraftSession([MCHello(first)]) && Flatten(Payloads([MCHello(first)])) == first.data
  {
    var hello := [MCHello(first)];
    PayloadsAppend([], MCHello(first));
    assert [] + hello == hello;
    assert Payloads([]) == [];
  }

  // ----- The first packet -----

  /** The buffer the first packet is read from. */
  function FirstBuffer(rest: seq<byte>, chunks: seq<seq<byte>>): Option<seq<byte>>
    requires |rest| + |Flatten(chunks)| < 0x8000_0000_0000_0000
    decreases |chunks|
  {
    if chunks == [] then None
    else
      var b := rest + chunks[0];
      match DecodeStep(Protocol.Unknown, b)
      case Wait => FirstBuffer(b, chunks[1..])
      case Fail(_) => None
      case Next(_, _) => Some(b)
  }

  /** A hello that arrived in a proxy frame took more bytes than it carries. */
  lemma FrameOutweighsHello(b: seq<byte>, h: MinecraftHelloPacket, size: nat)
    requires DecodeProxy(b) == Ok(Taken(MCHello(h), size))
    ensures |h.data| < size
  {
    hide Deserialize, PutFields, Fits, DecodeProxy;
    var ignored := DecodeProxyTakes(b, MCHello(h), size);
    assert Shape(0)[5] == Vector && Fields(MCHello(h))[5] == Blob(h.data);
    FieldInside(Shape(0), Fields(MCHello(h)), 5);
  }

  lemma {:induction false} FieldInside(shape: seq<Kind>, fields: seq<Field>, i: nat)
    requires AllFit(shape, fields) && i < |shape| && Fits(shape[i], fields[i])
    ensures |PutFields(shape, fields)| >= |PutField(shape[i], fields[i])|
    decreases |shape|
  {
    hide Fits, PutField;
    AllFitCons(shape, fields);
    if i > 0 {
      FieldInside(shape[1..], fields[1..], i - 1);
    }
  }

  /** The hello carries the bytes it took exactly when a Minecraft parser read it. */
  lemma HelloCarries(b: seq<byte>, h: MinecraftHelloPacket, size: nat)
    requires InMemory(b) && DecodeStep(Protocol.Unknown, b) == Next(MCHello(h), size)
    ensures if AnyHello(b).Ok? then h.data == b[..size] else |h.data| < size
  {
    hide OldPing, OldConnect, Modern, DecodeProxy;
    if AnyHello(b).Ok? {
      HelloIsItsBytes(b);
    } else {
      FrameOutweighsHello(b, h, size);
    }
  }

  /**
   * Byte conservation: a connection whose first packet is a Minecraft hello hands on exactly the
   * bytes read so far, in order and in any chunking, if and only if a Minecraft parser accepted
   * the buffer of that first packet. (A hello can also come wrapped in a proxy frame.)
   */
  lemma {:induction false} ByteConservation(rest: seq<byte>, chunks: seq<seq<byte>>)
    requires |rest| + |Flatten(chunks)| < 0x8000_0000_0000_0000
    requires var r := FeedAll(Reader(Protocol.Unknown, rest, [], None), chunks);
             r.failed.None? && r.packets != [] && r.packets[0].MCHello?
    ensures var r := FeedAll(Reader(Protocol.Unknown, rest, [], None), chunks);
            var first := FirstBuffer(rest, chunks);
            && first.Some? && InMemory(first.value)
            && r.protocol == Protocol.MC(OfI32(r.packets[0].hello.version)) && MinecraftSession(r.packets)
            && (Flatten(Payloads(r.packets)) + r.rest == rest + Flatten(chunks) <==> AnyHello(first.value).Ok?)
    decreases |chunks|
  {
    hide DecodeStep, AnyHello;
    var start := Reader(Protocol.Unknown, rest, [], None);
    var b, later := rest + chunks[0], Flatten(chunks[1..]);
    assert rest + Flatten(chunks) == b + later;
    var r := Feed(start, chunks[0]);
    match DecodeStep(Protocol.Unknown, b)
    case Wait =>
      assert r == Reader(Protocol.Unknown, b, [], None);
      ByteConservation(b, chunks[1..]);
    case Fail(_) =>
      FailedStays(r, chunks[1..]);
    case Next(p, size) =>
      FirstIs(p, Drain(ModeAfter(Protocol.Unknown, p), b[size..]), chunks[1..]);
      SessionStarts(b, p.hello, size, chunks[1..]);
  }

  lemma FirstIs(p: SocketPacket, r: Reader, chunks: seq<seq<byte>>)
    requires |r.rest| + |Flatten(chunks)| < 0x8000_0000_0000_0000
    ensures var r' := FeedAll(Prepend([], Prepend([p], r)), chunks); r'.packets != [] && r'.packets[0] == p
  {
    hide Drain;
    PacketsGrow(Prepend([], Prepend([p], r)), chunks);
  }

  /** What the decoder hands on of the first packet's buffer. */
  function FirstPackets(b: seq<byte>, h: MinecraftHelloPacket, size: nat): seq<SocketPacket>
    requires size <= |b|
  {
    [MCHello(h)] + if b[size..] == [] then [] else [MCData(MinecraftDataPacket(b[size..]))]
  }

  lemma FirstDrained(b: seq<byte>, h: MinecraftHelloPacket, size: nat)
    requires InMemory(b) && DecodeStep(Protocol.Unknown, b) == Next(MCHello(h), size)
    ensures Drain(Protocol.Unknown, b) == Reader(Protocol.MC(OfI32(h.version)), [], FirstPackets(b, h, size), None)
  {
    hide ParseFirst, ParsePacket;
    DrainMinecraft(OfI32(h.version), b[size..]);
  }

  lemma FirstPayloads(b: seq<byte>, h: MinecraftHelloPacket, size: nat)
    requires size <= |b|
    ensures Flatten(Payloads(FirstPackets(b, h, size))) == h.data + b[size..]
    ensures MinecraftSession(FirstPackets(b, h, size))
  {
    var hello := [MCHello(h)];
    assert [] + hello == hello;
    PayloadsAppend([], MCHello(h));
    if b[size..] == [] {
      assert FirstPackets(b, h, size) == hello;
    } else {
      PayloadsAppend(hello, MCData(MinecraftDataPacket(b[size..])));
    }
  }

  lemma SessionStarts(b: seq<byte>, h: MinecraftHelloPacket, size: nat, chunks: seq<seq<byte>>)
    requires |b| + |Flatten(chunks)| < 0x8000_0000_0000_0000
    requires DecodeStep(Protocol.Unknown, b) == Next(MCHello(h), size)
    ensures var r := FeedAll(Prepend([], Drain(Protocol.Unknown, b)), chunks);
            && r.failed.None? && r.protocol == Protocol.MC(OfI32(h.version)) && r.rest == []
            && MinecraftSession(r.packets)
            && (Flatten(Payloads(r.packets)) + r.rest == b + Flatten(chunks) <==> AnyHello(b).Ok?)
  {
    hide DecodeStep, AnyHello, Drain, FirstPackets, FeedAll;
    HelloCarries(b, h, size);
    FirstDrained(b, h, size);
    FirstPayloads(b, h, size);
    var r := Prepend([], Drain(Protocol.Unknown, b));
    var first, later := FirstPackets(b, h, size), Flatten(chunks);
    assert r.packets == [] + first == first;
    FeedMinecraft(r, chunks);
    assert b == b[..size] + b[size..];
    assert h.data == b[..size] ==> h.data + b[size..] + later + [] == b + later;
  }
}
