/** The frames of every packet, byte by byte (shared/src/socket_packet.rs). */
module Layouts {
  import opened Text
  import opened Bytes
  import opened Minecraft
  import opened Packets
  import opened Bincode
  import opened Frames

  // ----- Little-endian numbers -----

  function Two(v: u16): seq<byte> {
    [v % 0x100, v / 0x100]
  }

  function Four(v: u32): seq<byte> {
    [v % 0x100, v / 0x100 % 0x100, v / 0x1_0000 % 0x100, v / 0x100_0000]
  }

  function Eight(v: u64): seq<byte> {
    [v % 0x100, v / 0x100 % 0x100, v / 0x1_0000 % 0x100, v / 0x100_0000 % 0x100] +
    [v / 0x1_0000_0000 % 0x100, v / 0x100_0000_0000 % 0x100, v / 0x1_0000_0000_0000 % 0x100, v / 0x100_0000_0000_0000]
  }

  lemma LeTwo(v: nat)
    ensures Le(2, v) == [v % 0x100, v / 0x100 % 0x100]
  {
    assert Le(0, v / 0x100 / 0x100) == [];
    assert Le(1, v / 0x100) == [v / 0x100 % 0x100];
  }

  lemma LeFour(v: nat)
    ensures Le(4, v) == [v % 0x100, v / 0x100 % 0x100, v / 0x1_0000 % 0x100, v / 0x100_0000 % 0x100]
  {
    LeTwo(v / 0x100 / 0x100);
    var w := v / 0x100 / 0x100;
    assert Le(3, v / 0x100) == [v / 0x100 % 0x100] + Le(2, w);
    assert Le(4, v) == [v % 0x100] + Le(3, v / 0x100);
    assert w == v / 0x1_0000 && w / 0x100 == v / 0x100_0000;
  }

  lemma LeEight(v: nat)
    ensures Le(8, v) == Le(4, v) + Le(4, v / 0x1_0000_0000)
  {
    hide Le;
    var v1 := v / 0x100;
    var v2 := v1 / 0x100;
    var v3 := v2 / 0x100;
    var v4 := v3 / 0x100;
    LeStep(8, v);
    LeStep(7, v1);
    LeStep(6, v2);
    LeStep(5, v3);
    LeStep(4, v);
    LeStep(3, v1);
    LeStep(2, v2);
    LeStep(1, v3);
    LeNone(v4);
    assert v4 == v / 0x1_0000_0000;
    assert Le(8, v) == [v % 0x100] + ([v1 % 0x100] + ([v2 % 0x100] + ([v3 % 0x100] + Le(4, v4))));
    assert Le(4, v) == [v % 0x100] + ([v1 % 0x100] + ([v2 % 0x100] + ([v3 % 0x100] + [])));
  }

  lemma LeStep(n: nat, v: nat)
    requires n > 0
    ensures Le(n, v) == [v % 0x100] + Le(n - 1, v / 0x100)
  {
  }

  lemma LeNone(v: nat)
    ensures Le(0, v) == []
  {
  }

  lemma EightBytes(v: nat)
    requires v < 0x1_0000_0000_0000_0000
    ensures Le(8, v) == Eight(v)
  {
    hide Le;
    var w := v / 0x1_0000_0000;
    LeEight(v);
    LeFour(v);
    LeFour(w);
    assert w / 0x100 == v / 0x100_0000_0000 && w / 0x1_0000 == v / 0x1_0000_0000_0000;
    assert w / 0x100_0000 == v / 0x100_0000_0000_0000 < 0x100;
  }

  // ----- Bodies -----

  /** The fields fit the shape and are written as these bytes. */
  ghost predicate Puts(shape: seq<Kind>, fields: seq<Field>, b: seq<byte>) {
    AllFit(shape, fields) && PutFields(shape, fields) == b
  }

  lemma PutsNothing()
    ensures Puts([], [], [])
  {
  }

  /** The first field's bytes come first. */
  lemma PutsFirst(k: Kind, f: Field, e: seq<byte>, shape: seq<Kind>, fields: seq<Field>, b: seq<byte>)
    requires Fits(k, f) && PutField(k, f) == e && Puts(shape, fields, b)
    ensures Puts([k] + shape, [f] + fields, e + b)
  {
    hide Fits, PutField;
    AllFitSizes(shape, fields);
    assert ([k] + shape)[1..] == shape && ([f] + fields)[1..] == fields;
    AllFitCons([k] + shape, [f] + fields);
  }

  lemma PutsLast(k: Kind, f: Field, e: seq<byte>)
    requires Fits(k, f) && PutField(k, f) == e
    ensures Puts([k], [f], e)
  {
    hide Fits, PutField, Puts;
    PutsNothing();
    PutsFirst(k, f, e, [], [], []);
    assert [k] + [] == [k] && [f] + [] == [f] && e + [] == e;
  }

  /** A string or a byte vector after its length. */
  function Counted(data: seq<byte>): (b: seq<byte>)
    requires |data| < 0x1_0000_0000_0000_0000
    ensures |b| == 8 + |data|
  {
    Eight(|data|) + data
  }

  lemma TwoField(v: u16)
    ensures Fits(Int(2), Num(v)) && PutField(Int(2), Num(v)) == Two(v)
  {
    Widths();
    LeTwo(v);
  }

  lemma FourField(v: u32)
    ensures Fits(Int(4), Num(v)) && PutField(Int(4), Num(v)) == Four(v)
  {
    Widths();
    LeFour(v);
  }

  lemma EightField(v: u64)
    ensures Fits(Int(8), Num(v)) && PutField(Int(8), Num(v)) == Eight(v)
  {
    Widths();
    EightBytes(v);
  }

  /** The only kind of key there is. */
  lemma KeyKindField()
    ensures Fits(Variant(1), Num(0)) && PutField(Variant(1), Num(0)) == [0, 0, 0, 0]
  {
    Widths();
    LeFour(0);
  }

  lemma CountedField(k: Kind, data: seq<byte>)
    requires |data| < 0x1_0000_0000_0000_0000 && (k.Vector? || (k.Str? && ValidUtf8(data)))
    ensures Fits(k, Blob(data)) && PutField(k, Blob(data)) == Counted(data)
  {
    Widths();
    EightBytes(|data|);
  }

  // ----- Frames -----

  /** The big-endian length in front of a body, cut to 16 bits. */
  function Length(n: nat): seq<byte> {
    [n / 0x100 % 0x100, n % 0x100]
  }

  lemma FrameOfBody(p: SocketPacket, tag: byte, rest: seq<byte>)
    requires Tag(p) == tag && Puts(Shape(Tag(p)), Fields(p), rest)
    ensures Sized(p) && Frame(p) == Length(4 + |rest|) + [tag, 0, 0, 0] + rest
  {
    hide PutFields, Shape, Fields, AllFit, Le;
    LeFour(tag);
    assert Le(4, tag) == [tag, 0, 0, 0];
    LengthBytes(4 + |rest|);
    assert Body(p) == [tag, 0, 0, 0] + rest;
  }

  lemma LengthBytes(n: nat)
    ensures PutBe16(n % 0x1_0000) == Length(n)
  {
    assert n % 0x1_0000 / 0x100 == n / 0x100 % 0x100 && n % 0x1_0000 % 0x100 == n % 0x100;
  }

  lemma NumberFrame(p: SocketPacket, tag: byte, n: u16)
    requires Tag(p) == tag && Shape(Tag(p)) == [Int(2)] && Fields(p) == [Num(n)]
    ensures Sized(p) && Frame(p) == [0, 6, tag, 0, 0, 0, n % 0x100, n / 0x100]
  {
    hide Sized, Frame, Puts, Shape, Fields, Tag;
    TwoField(n);
    PutsLast(Int(2), Num(n), Two(n));
    FrameOfBody(p, tag, Two(n));
  }

  lemma JoinFrame(id: ClientID)
    ensures Sized(ProxyJoin(id)) && Frame(ProxyJoin(id)) == [0, 6, 6, 0, 0, 0, id % 0x100, id / 0x100]
  {
    hide Sized, Frame;
    NumberFrame(ProxyJoin(id), 6, id);
  }

  lemma DisconnectFrame(id: ClientID)
    ensures Sized(ProxyDisconnect(id)) && Frame(ProxyDisconnect(id)) == [0, 6, 7, 0, 0, 0, id % 0x100, id / 0x100]
    ensures Sized(ProxyDisconnectAck(id))
         && Frame(ProxyDisconnectAck(id)) == [0, 6, 8, 0, 0, 0, id % 0x100, id / 0x100]
  {
    hide Sized, Frame;
    NumberFrame(ProxyDisconnect(id), 7, id);
    NumberFrame(ProxyDisconnectAck(id), 8, id);
  }

  lemma PingFrames(time: u16)
    ensures Sized(ProxyPing(time)) && Frame(ProxyPing(time)) == [0, 6, 11, 0, 0, 0, time % 0x100, time / 0x100]
    ensures Sized(ProxyPong(time)) && Frame(ProxyPong(time)) == [0, 6, 12, 0, 0, 0, time % 0x100, time / 0x100]
  {
    hide Sized, Frame;
    NumberFrame(ProxyPing(time), 11, time);
    NumberFrame(ProxyPong(time), 12, time);
  }

  /** The answer to a hello carries a version. */
  lemma HelloResponseFrame(version: u16)
    ensures var p := ProxyHelloResponse(ProxyConnectedResponse(version));
            Sized(p) && Frame(p) == [0, 6, 5, 0, 0, 0, version % 0x100, version / 0x100]
  {
    hide Sized, Frame;
    NumberFrame(ProxyHelloResponse(ProxyConnectedResponse(version)), 5, version);
  }

  lemma DataFrame(id: ClientID, data: seq<byte>)
    requires |data| < 0x1_0000_0000_0000_0000
    ensures var p := ProxyData(ProxyDataPacket(id, MinecraftDataPacket(data)));
            && Sized(p)
            && Frame(p)
               == Length(14 + |data|) + [10, 0, 0, 0] + ([id % 0x100, id / 0x100] + Counted(data))
  {
    hide Sized, Frame, Puts, Fits, PutField, Counted;
    var p := ProxyData(ProxyDataPacket(id, MinecraftDataPacket(data)));
    TwoField(id);
    CountedField(Vector, data);
    PutsLast(Vector, Blob(data), Counted(data));
    PutsFirst(Int(2), Num(id), Two(id), [Vector], [Blob(data)], Counted(data));
    assert Shape(10) == [Int(2)] + [Vector] && Fields(p) == [Num(id)] + [Blob(data)];
    FrameOfBody(p, 10, Two(id) + Counted(data));
  }

  /** Raw Minecraft data, which the tunnel never frames. */
  lemma MCDataFrame(data: seq<byte>)
    requires |data| < 0x1_0000_0000_0000_0000
    ensures var p := MCData(MinecraftDataPacket(data));
            Sized(p) && Frame(p) == Length(12 + |data|) + [1, 0, 0, 0] + Counted(data)
  {
    hide Sized, Frame, Puts, Fits, PutField, Counted;
    CountedField(Vector, data);
    PutsLast(Vector, Blob(data), Counted(data));
    FrameOfBody(MCData(MinecraftDataPacket(data)), 1, Counted(data));
  }

  lemma ErrorFrame(message: String)
    requires |message| < 0x1_0000_0000_0000_0000
    ensures Sized(ProxyError(message))
         && Frame(ProxyError(message)) == Length(12 + |message|) + [9, 0, 0, 0] + Counted(message)
  {
    hide Sized, Frame, Puts, Fits, PutField, Counted;
    CountedField(Str, message);
    PutsLast(Str, Blob(message), Counted(message));
    FrameOfBody(ProxyError(message), 9, Counted(message));
  }

  /** The challenge and its signature, 64 bytes without a length. */
  lemma AuthFrames(block: Block)
    ensures Sized(ProxyAuthRequest(block)) && Frame(ProxyAuthRequest(block)) == [0, 68, 3, 0, 0, 0] + block
    ensures Sized(ProxyAuthResponse(block)) && Frame(ProxyAuthResponse(block)) == [0, 68, 4, 0, 0, 0] + block
  {
    hide Sized, Frame, Puts;
    PutsLast(Array(64), Blob(block), block);
    FrameOfBody(ProxyAuthRequest(block), 3, block);
    FrameOfBody(ProxyAuthResponse(block), 4, block);
    assert Length(68) == [0, 68];
  }

  lemma UnknownFrame()
    ensures Sized(UnknownPacket) && Frame(UnknownPacket) == [0, 4, 13, 0, 0, 0]
  {
    hide Sized, Frame, Puts;
    PutsNothing();
    FrameOfBody(UnknownPacket, 13, []);
  }

  /** A proxy hello: version, hostname, the kind of key and the key. */
  lemma ProxyHelloFrame(h: ProxyHelloPacket)
    requires |h.hostname| < 0x1_0000_0000_0000_0000
    ensures Sized(ProxyHello(h))
    ensures Frame(ProxyHello(h))
         == Length(50 + |h.hostname|) + [2, 0, 0, 0]
            + ([h.version % 0x100, h.version / 0x100] + (Counted(h.hostname) + ([0, 0, 0, 0] + h.auth.key)))
  {
    hide Sized, Frame, Puts, Fits, PutField, Counted;
    var version, name, kind, key := Num(h.version), Blob(h.hostname), Num(0), Blob(h.auth.key);
    KeyKindField();
    CountedField(Str, h.hostname);
    TwoField(h.version);
    KeyField(h.auth.key);
    var b := [0, 0, 0, 0] + h.auth.key;
    PutsLast(Array(32), key, h.auth.key);
    PutsFirst(Variant(1), kind, [0, 0, 0, 0], [Array(32)], [key], h.auth.key);
    PutsFirst(Str, name, Counted(h.hostname), [Variant(1)] + [Array(32)], [kind] + [key], b);
    PutsFirst(Int(2), version, Two(h.version), [Str] + ([Variant(1)] + [Array(32)]), [name] + ([kind] + [key]),
              Counted(h.hostname) + b);
    assert Shape(2) == [Int(2)] + ([Str] + ([Variant(1)] + [Array(32)]));
    assert Fields(ProxyHello(h)) == [version] + ([name] + ([kind] + [key]));
    FrameOfBody(ProxyHello(h), 2, Two(h.version) + (Counted(h.hostname) + b));
  }

  lemma KeyField(key: Key)
    ensures Fits(Array(32), Blob(key)) && PutField(Array(32), Blob(key)) == key
  {
  }

  /** The last three fields of a Minecraft hello. */
  function HelloTail(h: MinecraftHelloPacket): (b: seq<byte>)
    requires |h.hostname| < 0x1_0000_0000_0000_0000 && |h.data| < 0x1_0000_0000_0000_0000
    ensures |b| == 20 + |h.hostname| + |h.data|
  {
    Counted(h.hostname) + (Four(h.port) + Counted(h.data))
  }

  lemma HelloTailPuts(h: MinecraftHelloPacket)
    requires |h.hostname| < 0x1_0000_0000_0000_0000 && |h.data| < 0x1_0000_0000_0000_0000
    ensures Puts([Str] + ([Int(4)] + [Vector]), [Blob(h.hostname)] + ([Num(h.port)] + [Blob(h.data)]), HelloTail(h))
  {
    hide Puts, Fits, PutField, Counted;
    CountedField(Vector, h.data);
    FourField(h.port);
    CountedField(Str, h.hostname);
    var b := Four(h.port) + Counted(h.data);
    PutsLast(Vector, Blob(h.data), Counted(h.data));
    PutsFirst(Int(4), Num(h.port), Four(h.port), [Vector], [Blob(h.data)], Counted(h.data));
    PutsFirst(Str, Blob(h.hostname), Counted(h.hostname), [Int(4)] + [Vector], [Num(h.port)] + [Blob(h.data)], b);
  }

  /** A Minecraft hello: length, id, version, hostname, port and its bytes; signed numbers as two's complement. */
  lemma MCHelloFrame(h: MinecraftHelloPacket)
    requires |h.hostname| < 0x1_0000_0000_0000_0000 && |h.data| < 0x1_0000_0000_0000_0000
    ensures Sized(MCHello(h))
    ensures Frame(MCHello(h))
         == Length(40 + |h.hostname| + |h.data|) + [0, 0, 0, 0]
            + (Eight(h.length) + (Four(OfI32(h.id)) + (Four(OfI32(h.version)) + HelloTail(h))))
  {
    hide Sized, Frame, Puts, Fits, PutField, HelloTail, Eight, Four, OfI32;
    var id, version := OfI32(h.id), OfI32(h.version);
    var s3, f3 := [Str] + ([Int(4)] + [Vector]), [Blob(h.hostname)] + ([Num(h.port)] + [Blob(h.data)]);
    HelloTailPuts(h);
    FourField(id);
    FourField(version);
    EightField(h.length);
    NumberSizes(h.length, id, version);
    PutsFirst(Int(4), Num(version), Four(version), s3, f3, HelloTail(h));
    var s2, f2, b2 := [Int(4)] + s3, [Num(version)] + f3, Four(version) + HelloTail(h);
    PutsFirst(Int(4), Num(id), Four(id), s2, f2, b2);
    var s1, f1, b1 := [Int(4)] + s2, [Num(id)] + f2, Four(id) + b2;
    PutsFirst(Int(8), Num(h.length), Eight(h.length), s1, f1, b1);
    assert Shape(0) == [Int(8)] + s1 && Fields(MCHello(h)) == [Num(h.length)] + f1;
    FrameOfBody(MCHello(h), 0, Eight(h.length) + b1);
  }

  lemma NumberSizes(v: u64, x: u32, y: u32)
    ensures |Eight(v)| == 8 && |Four(x)| == 4 && |Four(y)| == 4
  {
  }
}
