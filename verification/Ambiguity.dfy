/**
 * Proxy frames read in the undecided mode: which frames the Minecraft parsers let through
 * (shared/src/packet_codec.rs, shared/src/socket_packet.rs, shared/src/minecraft.rs).
 */
module Ambiguity {
  import opened Datatypes
  import opened Bytes
  import opened Varint
  import opened Cursors
  import opened Minecraft
  import opened Packets
  import opened Bincode
  import opened Frames
  import opened Codec

  /** Packets the codec writes as frames. */
  predicate AsFrame(p: SocketPacket) {
    !p.MCHello? && !p.MCData? && !p.UnknownPacket?
  }

  /** Frames whose body length does not look like the start of a Minecraft packet. */
  predicate Unambiguous(bodyLength: nat) {
    bodyLength / 0x100 != 2 && bodyLength != 0x600
  }

  // ----- Short variable-length integers -----

  /** A varint that ends within its first three bytes is the sum of its groups. */
  lemma EndedVarint(b: seq<byte>, p: nat, size: nat)
    requires 1 <= size <= 3 && p + size <= |b| && b[p + size - 1] < 128
    requires forall j :: p <= j < p + size - 1 ==> b[j] >= 128
    ensures Groups(b, p, size) < 0x20_0000
    ensures VarintAt(b, p) == Ok(Reading(Groups(b, p, size), size))
  {
    hide VarintEnd;
    EndIs(b, p, p, p + size);
    FirstGroups(b, p, size);
  }

  /** A varint that the buffer cuts within its first two bytes is not valid. */
  lemma CutVarint(b: seq<byte>, p: nat)
    requires p <= |b| <= p + 2 && forall j :: p <= j < |b| ==> b[j] >= 128
    ensures VarintAt(b, p) == Err(NotValid)
  {
    hide VarintEnd;
    ScanStops(b, p, p);
  }

  lemma {:induction false} FirstGroups(b: seq<byte>, p: nat, n: nat)
    requires p + n <= |b| && n <= 3
    ensures n == 1 ==> Groups(b, p, n) == b[p] % 128
    ensures n == 2 ==> Groups(b, p, n) == b[p] % 128 + 128 * ((b[p + 1] as int) % 128)
    ensures n == 3 ==>
              Groups(b, p, n) == b[p] % 128 + 128 * ((b[p + 1] as int) % 128) + 0x4000 * ((b[p + 2] as int) % 128)
  {
    if n > 0 {
      FirstGroups(b, p, n - 1);
      Powers(n - 1);
      assert Groups(b, p, n) == Groups(b, p, n - 1) + b[p + n - 1] % 128 * Pow128(n - 1);
    }
  }

  /** The first three bytes of a varint, as far as the buffer goes. */
  lemma ShortVarint(b: seq<byte>, p: nat)
    requires p <= |b|
    ensures p == |b| ==> VarintAt(b, p) == Err(NotValid)
    ensures p < |b| && b[p] < 128 ==> VarintAt(b, p) == Ok(Reading(b[p], 1))
    ensures p + 1 == |b| && b[p] >= 128 ==> VarintAt(b, p) == Err(NotValid)
    ensures p + 1 < |b| && b[p] >= 128 > b[p + 1] ==>
              VarintAt(b, p) == Ok(Reading(b[p] % 128 + 128 * (b[p + 1] as int), 2))
    ensures p + 2 == |b| && b[p] >= 128 && b[p + 1] >= 128 ==> VarintAt(b, p) == Err(NotValid)
    ensures p + 2 < |b| && b[p] >= 128 && b[p + 1] >= 128 > b[p + 2] ==>
              var value := b[p] % 128 + 128 * ((b[p + 1] as int) % 128) + 0x4000 * (b[p + 2] as int);
              VarintAt(b, p) == Ok(Reading(value, 3))
  {
    hide VarintAt, Groups;
    if p < |b| && b[p] < 128 {
      EndedVarint(b, p, 1);
      FirstGroups(b, p, 1);
    } else if p + 1 < |b| && b[p + 1] < 128 {
      EndedVarint(b, p, 2);
      FirstGroups(b, p, 2);
    } else if p + 2 < |b| && b[p + 2] < 128 {
      EndedVarint(b, p, 3);
      FirstGroups(b, p, 3);
    } else if |b| <= p + 2 {
      CutVarint(b, p);
    }
  }

  // ----- The first bytes of a frame -----

  /** `b` starts like a frame with body length `n` and variant tag `t`, as far as it goes. */
  predicate StartsLike(b: seq<byte>, n: nat, t: nat) {
    && (|b| > 0 ==> b[0] == n / 0x100)
    && (|b| > 1 ==> b[1] == n % 0x100)
    && (|b| > 2 ==> b[2] == t)
    && (|b| > 3 ==> b[3] == 0)
    && (|b| > 4 ==> b[4] == 0)
    && (|b| > 5 ==> b[5] == 0)
  }

  lemma TagBytes(t: nat)
    requires t < 256
    ensures Le(4, t) == [t, 0, 0, 0]
  {
    assert Le(3, 0) == [0, 0, 0];
  }

  lemma FrameStart(p: SocketPacket, b: seq<byte>)
    requires Framed(p) && AsFrame(p) && (b <= Frame(p) || Frame(p) <= b)
    ensures 2 <= Tag(p) <= 12 && |Body(p)| >= 6 && StartsLike(b, |Body(p)|, Tag(p))
  {
    hide Le, PutFields, Shape, Fields, AllFit;
    var f := Frame(p);
    TagBytes(Tag(p));
    FieldsNotEmpty(p);
    assert Body(p)[..4] == Le(4, Tag(p));
    assert f[2..6] == Body(p)[..4];
    assert f[2] == f[2..6][0] && f[3] == f[2..6][1] && f[4] == f[2..6][2] && f[5] == f[2..6][3];
  }

  lemma FieldsNotEmpty(p: SocketPacket)
    requires Sized(p) && AsFrame(p)
    ensures |PutFields(Shape(Tag(p)), Fields(p))| >= 2
  {
    var shape, fields := Shape(Tag(p)), Fields(p);
    assert Fits(shape[0], fields[0]);
    assert |PutField(shape[0], fields[0])| >= 2;
  }

  // ----- What the Minecraft parsers make of it -----

  /** The modern parser never accepts an unambiguous frame, and waits only while the frame is incomplete. */
  lemma ModernRejects(b: seq<byte>, n: nat, t: nat)
    requires InMemory(b) && 6 <= n < 0x1_0000 && 2 <= t <= 12 && StartsLike(b, n, t) && n != 0x600
    ensures Modern(b).Err? && Modern(b).error in {NotValid, NotMatching, TooSmall}
    ensures Modern(b) == Err(TooSmall) ==> |b| < 2 + n
  {
    ShortVarint(b, 0);
    if VarintAt(b, 0).Ok? {
      var length := VarintAt(b, 0).value;
      ShortVarint(b, length.size);
      if length.size == 3 {
        assert length.value >= 0x4000;
      }
      if VarintAt(b, length.size).Ok? && VarintAt(b, length.size).value.value == 0 {
        var at := length.size + VarintAt(b, length.size).value.size;
        assert at == 2 || at == 4;
        EmptyHostname(b, at, length.value);
      }
    }
  }

  /** A one-byte version, an empty hostname and any port end four bytes on. */
  lemma EmptyHostname(b: seq<byte>, at: nat, length: i32)
    requires InMemory(b) && at <= |b| && (at < |b| ==> b[at] < 128) && (at + 1 < |b| ==> b[at + 1] == 0)
    ensures ModernBody(b, at, length)
         == if |b| <= at + 1 then Err(NotValid)
            else if |b| < at + 4 then Err(TooSmall)
            else if at + 4 != ToUsize(length) then Err(NotValid)
            else Ok(Hello(b, at + 4, b[at], [], Be16(b, at + 2)))
  {
    ShortVarint(b, at);
    if at < |b| {
      ShortVarint(b, at + 1);
      if at + 1 < |b| {
        assert b[at + 2..at + 2] == [];
      }
    }
  }

  /** An unambiguous frame is left to the proxy decoder, or waited for. */
  lemma HelloRejects(b: seq<byte>, n: nat, t: nat)
    requires InMemory(b) && 6 <= n < 0x1_0000 && 2 <= t <= 12 && StartsLike(b, n, t) && Unambiguous(n)
    ensures AnyHello(b).Err? && AnyHello(b).error in {NotValid, NotMatching, TooSmall}
    ensures AnyHello(b) == Err(TooSmall) ==> |b| < 2 + n
  {
    ModernRejects(b, n, t);
    BytesAtEach(b, 0, [0xFE, 0x01]);
    BytesAtEach(b, 0, OLD_MINECRAFT_START);
    BytesAtEach(b, 0, [0x02]);
    assert OLD_MINECRAFT_START[2] == 0xFA;
  }

  /** An ambiguous frame is taken for a Minecraft hello or waited for; the proxy decoder never gets a complete one. */
  lemma HelloCaptures(b: seq<byte>, n: nat, t: nat)
    requires InMemory(b) && 6 <= n < 0x1_0000 && 2 <= t <= 12 && StartsLike(b, n, t) && !Unambiguous(n)
    ensures AnyHello(b).Err? && AnyHello(b).error in {NotValid, NotMatching} ==> |b| < 6
  {
    BytesAtEach(b, 0, [0xFE, 0x01]);
    BytesAtEach(b, 0, [0x02]);
    if |b| >= 6 && b[0] != 2 {
      ShortVarint(b, 0);
      ShortVarint(b, 1);
      EmptyHostname(b, 2, 6);
    }
  }

  // ----- Decoding -----

  /** A frame is readable at a point of the stream if the mode at that point lets it through. */
  ghost predicate Readable(protocol: Protocol, p: SocketPacket) {
    && Framed(p)
    && match protocol
       case Proxy(_) => true
       case Unknown => AsFrame(p) && Unambiguous(|Body(p)|)
       case MC(_) => false
  }

  lemma ReadableFrame(protocol: Protocol, p: SocketPacket, after: seq<byte>)
    requires Readable(protocol, p) && InMemory(Frame(p) + after)
    ensures DecodeStep(protocol, Frame(p) + after) == Next(p, |Frame(p)|)
  {
    FrameInverts(p, after);
    if protocol.Unknown? {
      FrameStart(p, Frame(p) + after);
      HelloRejects(Frame(p) + after, |Body(p)|, Tag(p));
    }
  }

  lemma ReadableCut(protocol: Protocol, p: SocketPacket, part: nat)
    requires Readable(protocol, p) && part < |Frame(p)|
    ensures DecodeStep(protocol, Frame(p)[..part]) == Wait
  {
    FrameCut(p, part);
    if protocol.Unknown? {
      FrameStart(p, Frame(p)[..part]);
      HelloRejects(Frame(p)[..part], |Body(p)|, Tag(p));
    }
  }

  /** In the undecided mode an ambiguous frame is never read, whatever part of it or follow-up has arrived. */
  lemma AmbiguousNeverRead(p: SocketPacket, b: seq<byte>)
    requires Framed(p) && AsFrame(p) && !Unambiguous(|Body(p)|)
    requires InMemory(b) && (b <= Frame(p) || Frame(p) <= b)
    ensures DecodeStep(Protocol.Unknown, b).Next? ==> DecodeStep(Protocol.Unknown, b).packet.MCHello?
  {
    FrameStart(p, b);
    HelloCaptures(b, |Body(p)|, Tag(p));
    if |b| < 6 {
      assert b == Frame(p)[..|b|];
      FrameCut(p, |b|);
    }
  }
}
