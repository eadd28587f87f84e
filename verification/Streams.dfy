/**
 * Streams of frames cut into arbitrary chunks: what the framed reader delivers
 * (shared/src/packet_codec.rs, shared/src/socket_packet.rs).
 */
module Streams {
  import opened Datatypes
  import opened Bytes
  import opened Minecraft
  import opened Packets
  import opened Bincode
  import opened Frames
  import opened Codec
  import opened Ambiguity

  ghost predicate AllFramed(ps: seq<SocketPacket>) {
    forall i :: 0 <= i < |ps| ==> Framed(ps[i])
  }

  /** A packet with a field of 2^64 bytes or more, which no memory holds, has no frame. */
  ghost function FrameOf(p: SocketPacket): seq<byte> {
    if Sized(p) then Frame(p) else []
  }

  /** The bytes of the packets' frames, one after the other. */
  ghost function Stream(ps: seq<SocketPacket>): seq<byte> {
    if ps == [] then [] else FrameOf(ps[0]) + Stream(ps[1..])
  }

  function ModeAfterAll(protocol: Protocol, ps: seq<SocketPacket>): Protocol
    decreases |ps|
  {
    if ps == [] then protocol else ModeAfterAll(ModeAfter(protocol, ps[0]), ps[1..])
  }

  /** Every packet is readable in the mode the packets before it lead to. */
  ghost predicate ReadableRun(protocol: Protocol, ps: seq<SocketPacket>)
    decreases |ps|
  {
    ps == [] || (Readable(protocol, ps[0]) && ReadableRun(ModeAfter(protocol, ps[0]), ps[1..]))
  }

  lemma ReadableFrameOf(protocol: Protocol, p: SocketPacket, after: seq<byte>)
    requires Readable(protocol, p) && InMemory(FrameOf(p) + after)
    ensures FrameOf(p) != [] && DecodeStep(protocol, FrameOf(p) + after) == Next(p, |FrameOf(p)|)
  {
    hide DecodeStep, Serialize;
    ReadableFrame(protocol, p, after);
  }

  /** Nothing is read from a cut frame. */
  lemma CutWaits(protocol: Protocol, p: SocketPacket, b: seq<byte>)
    requires Readable(protocol, p) && b <= FrameOf(p) && |b| < |FrameOf(p)| && InMemory(b)
    ensures Drain(protocol, b) == Reader(protocol, b, [], None)
  {
    hide DecodeStep, Serialize;
    assert b == Frame(p)[..|b|];
    ReadableCut(protocol, p, |b|);
  }

  lemma EmptyWaits(protocol: Protocol)
    ensures Drain(protocol, []) == Reader(protocol, [], [], None)
  {
    hide Parse;
  }

  lemma DrainNext(protocol: Protocol, p: SocketPacket, after: seq<byte>)
    requires Readable(protocol, p) && InMemory(FrameOf(p) + after)
    ensures Drain(protocol, FrameOf(p) + after) == Prepend([p], Drain(ModeAfter(protocol, p), after))
  {
    hide DecodeStep, FrameOf, Readable, ModeAfter;
    ReadableFrameOf(protocol, p, after);
    assert (FrameOf(p) + after)[|FrameOf(p)|..] == after;
  }

  // ----- Concatenation -----

  lemma {:induction false} StreamConcat(ps: seq<SocketPacket>, qs: seq<SocketPacket>)
    ensures Stream(ps + qs) == Stream(ps) + Stream(qs)
  {
    hide FrameOf;
    if ps == [] {
      assert ps + qs == qs;
    } else {
      StreamConcat(ps[1..], qs);
      assert (ps + qs)[1..] == ps[1..] + qs;
    }
  }

  lemma StreamOfThree(ps: seq<SocketPacket>, p: SocketPacket, qs: seq<SocketPacket>)
    ensures Stream(ps) + FrameOf(p) <= Stream(ps + [p] + qs)
  {
    hide FrameOf;
    StreamConcat(ps, [p]);
    StreamConcat(ps + [p], qs);
    assert Stream([p]) == FrameOf(p) + [];
  }

  lemma EmptyStream()
    ensures Stream([]) == []
  {
  }

  lemma {:induction false} ModeConcat(protocol: Protocol, ps: seq<SocketPacket>, qs: seq<SocketPacket>)
    ensures ModeAfterAll(protocol, ps + qs) == ModeAfterAll(ModeAfterAll(protocol, ps), qs)
    decreases |ps|
  {
    hide ModeAfter;
    if ps == [] {
      assert ps + qs == qs;
    } else {
      ModeConcat(ModeAfter(protocol, ps[0]), ps[1..], qs);
      assert (ps + qs)[1..] == ps[1..] + qs;
    }
  }

  lemma {:induction false} RunConcat(protocol: Protocol, ps: seq<SocketPacket>, qs: seq<SocketPacket>)
    ensures ReadableRun(protocol, ps + qs)
       <==> ReadableRun(protocol, ps) && ReadableRun(ModeAfterAll(protocol, ps), qs)
    decreases |ps|
  {
    hide ModeAfter, Readable;
    if ps == [] {
      assert ps + qs == qs;
    } else {
      RunConcat(ModeAfter(protocol, ps[0]), ps[1..], qs);
      assert (ps + qs)[1..] == ps[1..] + qs;
    }
  }

  // ----- Reading a readable run -----

  /** What has arrived of a run stops short of its first frame. */
  ghost predicate Partial(rest: seq<byte>, ps: seq<SocketPacket>) {
    if ps == [] then rest == [] else rest <= FrameOf(ps[0]) && |rest| < |FrameOf(ps[0])|
  }

  lemma PartialWaits(protocol: Protocol, ps: seq<SocketPacket>, rest: seq<byte>)
    requires ReadableRun(protocol, ps) && Partial(rest, ps) && InMemory(rest)
    ensures Drain(protocol, rest) == Reader(protocol, rest, [], None)
  {
    hide DecodeStep, FrameOf, Readable;
    if ps == [] {
      EmptyWaits(protocol);
    } else {
      CutWaits(protocol, ps[0], rest);
    }
  }

  /** Draining goes through a readable run and on into what follows. */
  lemma {:induction false} DrainThrough(protocol: Protocol, ps: seq<SocketPacket>, after: seq<byte>)
    requires ReadableRun(protocol, ps) && InMemory(Stream(ps) + after)
    ensures Drain(protocol, Stream(ps) + after) == Prepend(ps, Drain(ModeAfterAll(protocol, ps), after))
    decreases |ps|
  {
    hide DecodeStep, FrameOf, Readable, ModeAfter;
    if ps == [] {
      assert Stream(ps) + after == after;
      assert [] + Drain(protocol, after).packets == Drain(protocol, after).packets;
    } else {
      var p, mode := ps[0], ModeAfter(protocol, ps[0]);
      var b := Stream(ps[1..]) + after;
      assert Stream(ps) + after == FrameOf(p) + b;
      DrainNext(protocol, p, b);
      DrainThrough(mode, ps[1..], after);
      PrependTwice([p], ps[1..], Drain(ModeAfterAll(protocol, ps), after));
      assert [p] + ps[1..] == ps;
    }
  }

  /** A prefix of a stream is some complete frames and a cut one. */
  lemma {:induction false} CutStream(ps: seq<SocketPacket>, b: seq<byte>)
    returns (done: seq<SocketPacket>, left: seq<SocketPacket>, rest: seq<byte>)
    requires b <= Stream(ps)
    ensures ps == done + left && b == Stream(done) + rest && Partial(rest, left)
    decreases |ps|
  {
    hide FrameOf;
    if ps == [] {
      done, left, rest := [], [], [];
    } else if |b| < |FrameOf(ps[0])| {
      done, left, rest := [], ps, b;
      assert b == Stream(ps)[..|b|] == FrameOf(ps[0])[..|b|];
    } else {
      var p := ps[0];
      var after := b[|FrameOf(p)|..];
      assert after <= Stream(ps[1..]);
      assert b == FrameOf(p) + after;
      var done';
      done', left, rest := CutStream(ps[1..], after);
      done := [p] + done';
      assert done[1..] == done';
      assert ps == [p] + ps[1..];
      assert b == Stream(done) + rest;
    }
  }

  /** Draining takes exactly the complete frames and leaves the cut one. */
  lemma DrainRun(
      protocol: Protocol, done: seq<SocketPacket>, left: seq<SocketPacket>, rest: seq<byte>)
    requires ReadableRun(protocol, done + left) && Partial(rest, left) && InMemory(Stream(done) + rest)
    ensures Drain(protocol, Stream(done) + rest) == Reader(ModeAfterAll(protocol, done), rest, done, None)
  {
    hide DecodeStep, FrameOf, Readable, ModeAfter;
    RunConcat(protocol, done, left);
    DrainThrough(protocol, done, rest);
    PartialWaits(ModeAfterAll(protocol, done), left, rest);
    assert done + [] == done;
  }

  lemma DrainChunk(protocol: Protocol, ps: seq<SocketPacket>, b: seq<byte>)
    returns (done: seq<SocketPacket>, left: seq<SocketPacket>, rest: seq<byte>)
    requires ReadableRun(protocol, ps) && b <= Stream(ps) && InMemory(b)
    ensures ps == done + left && b == Stream(done) + rest && Partial(rest, left)
    ensures Stream(ps) == Stream(done) + Stream(left) && ReadableRun(ModeAfterAll(protocol, done), left)
    ensures Drain(protocol, b) == Reader(ModeAfterAll(protocol, done), rest, done, None)
  {
    hide Drain, FrameOf, Readable, ModeAfter, Partial;
    done, left, rest := CutStream(ps, b);
    DrainRun(protocol, done, left, rest);
    StreamConcat(done, left);
    RunConcat(protocol, done, left);
  }

  /**
   * However a readable run is cut into chunks, and wherever it stops, the reader has delivered
   * exactly the packets whose frames are complete, in order, without error.
   */
  lemma {:induction false} FeedRun(r: Reader, chunks: seq<seq<byte>>, ps: seq<SocketPacket>)
    returns (done: seq<SocketPacket>, left: seq<SocketPacket>, rest: seq<byte>)
    requires r.failed.None? && ReadableRun(r.protocol, ps) && Partial(r.rest, ps)
    requires |r.rest| + |Flatten(chunks)| < 0x8000_0000_0000_0000
    requires r.rest + Flatten(chunks) <= Stream(ps)
    ensures ps == done + left && r.rest + Flatten(chunks) == Stream(done) + rest && Partial(rest, left)
    ensures FeedAll(r, chunks) == Reader(ModeAfterAll(r.protocol, done), rest, r.packets + done, None)
    decreases |chunks|
  {
    hide Drain, FrameOf, Readable, ModeAfter, Stream, Partial, ReadableRun;
    if chunks == [] {
      done, left, rest := [], ps, r.rest;
      EmptyStream();
      assert r.packets + [] == r.packets;
      assert r.rest + [] == [] + r.rest;
    } else {
      var b, later := r.rest + chunks[0], Flatten(chunks[1..]);
      assert r.rest + Flatten(chunks) == b + later;
      assert b <= Stream(ps);
      var first, ps', kept := DrainChunk(r.protocol, ps, b);
      assert b + later == Stream(first) + (kept + later);
      PrefixCancels(Stream(first), kept + later, Stream(ps'));
      var more;
      more, left, rest := FeedRun(Feed(r, chunks[0]), chunks[1..], ps');
      done := first + more;
      ModeConcat(r.protocol, first, more);
      StreamConcat(first, more);
      assert r.packets + first + more == r.packets + done;
      assert Stream(first) + (Stream(more) + rest) == Stream(done) + rest;
    }
  }

  /** Everything that was sent arrives once all of it has been fed. */
  lemma FeedWholeRun(r: Reader, chunks: seq<seq<byte>>, ps: seq<SocketPacket>)
    requires r.failed.None? && ReadableRun(r.protocol, ps) && Partial(r.rest, ps)
    requires |r.rest| + |Flatten(chunks)| < 0x8000_0000_0000_0000
    requires r.rest + Flatten(chunks) == Stream(ps)
    ensures FeedAll(r, chunks) == Reader(ModeAfterAll(r.protocol, ps), [], r.packets + ps, None)
  {
    hide Drain, FrameOf, Readable, ModeAfter;
    var done, left, rest := FeedRun(r, chunks, ps);
    StreamConcat(done, left);
    assert rest == Stream(left) by {
      assert (Stream(done) + rest)[|Stream(done)|..] == rest;
      assert (Stream(done) + Stream(left))[|Stream(done)|..] == Stream(left);
    }
    assert left == [];
    assert done == ps;
  }

  // ----- Proxy mode -----

  lemma {:induction false} ProxyRun(version: int, ps: seq<SocketPacket>)
    requires AllFramed(ps)
    ensures ReadableRun(Protocol.Proxy(version), ps)
    ensures ModeAfterAll(Protocol.Proxy(version), ps) == Protocol.Proxy(version)
  {
    hide Framed;
    if ps != [] {
      ProxyRun(version, ps[1..]);
    }
  }

  lemma FrameNotEmpty(ps: seq<SocketPacket>)
    requires AllFramed(ps)
    ensures Partial([], ps)
  {
    hide Serialize;
    if ps != [] {
      assert Framed(ps[0]);
    }
  }

  /** Stream reassembly: in proxy mode any list of packets survives any chunking. */
  lemma StreamReassembly(version: int, ps: seq<SocketPacket>, chunks: seq<seq<byte>>)
    requires AllFramed(ps) && Flatten(chunks) == Stream(ps) && InMemory(Stream(ps))
    ensures FeedAll(Reader(Protocol.Proxy(version), [], [], None), chunks)
         == Reader(Protocol.Proxy(version), [], ps, None)
  {
    hide AllFramed, Drain, FrameOf, Partial;
    ProxyRun(version, ps);
    FrameNotEmpty(ps);
    assert [] + Flatten(chunks) == Flatten(chunks) && [] + ps == ps;
    FeedWholeRun(Reader(Protocol.Proxy(version), [], [], None), chunks, ps);
  }

  /** In proxy mode the way the bytes were cut never shows, whatever the bytes are. */
  ghost predicate SameOutput(r: Reader, r': Reader) {
    && r.packets == r'.packets && r.failed == r'.failed && r.protocol == r'.protocol
    && (r.failed.None? ==> r.rest == r'.rest)
  }

  lemma StepStable(version: int, b: seq<byte>, c: seq<byte>)
    requires InMemory(b + c) && DecodeStep(Protocol.Proxy(version), b) != Wait
    ensures DecodeStep(Protocol.Proxy(version), b + c) == DecodeStep(Protocol.Proxy(version), b)
  {
    hide Deserialize;
    DecodeProxyStable(b, c);
  }

  lemma {:induction false} DrainSplit(version: int, b: seq<byte>, c: seq<byte>)
    requires InMemory(b + c)
    ensures SameOutput(Feed(Drain(Protocol.Proxy(version), b), c), Drain(Protocol.Proxy(version), b + c))
    decreases |b|
  {
    hide DecodeStep;
    var mode := Protocol.Proxy(version);
    match DecodeStep(mode, b)
    case Wait =>
      assert [] + Drain(mode, b + c).packets == Drain(mode, b + c).packets;
    case Fail(_) =>
      StepStable(version, b, c);
    case Next(p, size) =>
      StepStable(version, b, c);
      assert (b + c)[size..] == b[size..] + c;
      DrainSplit(version, b[size..], c);
      var inner := Drain(mode, b[size..]);
      PrependTwice([p], inner.packets, Drain(mode, inner.rest + c));
  }

  lemma {:induction false} FeedSame(r: Reader, r': Reader, chunks: seq<seq<byte>>)
    requires SameOutput(r, r')
    requires |r.rest| + |Flatten(chunks)| < 0x8000_0000_0000_0000
    requires |r'.rest| + |Flatten(chunks)| < 0x8000_0000_0000_0000
    ensures SameOutput(FeedAll(r, chunks), FeedAll(r', chunks))
    decreases |chunks|
  {
    hide Drain;
    if chunks != [] {
      FeedSame(Feed(r, chunks[0]), Feed(r', chunks[0]), chunks[1..]);
    }
  }

  /** Reading `b` and then the chunks is reading everything at once. */
  lemma {:induction false} ProxyChunking(version: int, b: seq<byte>, chunks: seq<seq<byte>>)
    requires |b| + |Flatten(chunks)| < 0x8000_0000_0000_0000
    ensures SameOutput(FeedAll(Drain(Protocol.Proxy(version), b), chunks),
                       Drain(Protocol.Proxy(version), b + Flatten(chunks)))
    decreases |chunks|
  {
    hide Drain;
    var mode := Protocol.Proxy(version);
    if chunks == [] {
      assert b + [] == b;
    } else {
      DrainSplit(version, b, chunks[0]);
      FeedSame(Feed(Drain(mode, b), chunks[0]), Drain(mode, b + chunks[0]), chunks[1..]);
      ProxyChunking(version, b + chunks[0], chunks[1..]);
      assert b + chunks[0] + Flatten(chunks[1..]) == b + Flatten(chunks);
    }
  }

  // ----- Undecided mode -----

  /** Nothing was delivered since `before`, or a Minecraft hello came next. */
  predicate Derailed(before: seq<SocketPacket>, after: seq<SocketPacket>) {
    after == before || (before < after && after[|before|].MCHello?)
  }

  /** A frame that the undecided reader can never deliver. */
  ghost predicate Ambiguous(p: SocketPacket) {
    Framed(p) && AsFrame(p) && !Unambiguous(|Body(p)|)
  }

  lemma AmbiguousStep(p: SocketPacket, b: seq<byte>)
    requires Ambiguous(p) && InMemory(b) && (b <= FrameOf(p) || FrameOf(p) <= b)
    ensures DecodeStep(Protocol.Unknown, b).Next? ==> DecodeStep(Protocol.Unknown, b).packet.MCHello?
    ensures b == [] ==> DecodeStep(Protocol.Unknown, b) == Wait
  {
    hide Parse, Serialize;
    AmbiguousNeverRead(p, b);
  }

  /** Once an ambiguous frame is next, the undecided reader never delivers it, in any chunking. */
  lemma {:induction false} FeedAmbiguous(r: Reader, chunks: seq<seq<byte>>, p: SocketPacket)
    requires r.failed.None? && r.protocol.Unknown? && Ambiguous(p)
    requires |r.rest| + |Flatten(chunks)| < 0x8000_0000_0000_0000
    requires FrameOf(p) <= r.rest + Flatten(chunks)
    ensures Derailed(r.packets, FeedAll(r, chunks).packets)
    decreases |chunks|
  {
    hide DecodeStep, FrameOf, Ambiguous;
    if chunks != [] {
      var b := r.rest + chunks[0];
      assert b + Flatten(chunks[1..]) == r.rest + Flatten(chunks);
      assert b <= FrameOf(p) || FrameOf(p) <= b;
      AmbiguousStep(p, b);
      var r' := Feed(r, chunks[0]);
      match DecodeStep(Protocol.Unknown, b)
      case Wait =>
        assert r' == Reader(Protocol.Unknown, b, r.packets, None) by {
          assert r.packets + [] == r.packets;
        }
        FeedAmbiguous(r', chunks[1..], p);
      case Fail(e) =>
        assert r' == Reader(Protocol.Unknown, b, r.packets, Some(e)) by {
          assert r.packets + [] == r.packets;
        }
        FailedStays(r', chunks[1..]);
      case Next(hello, _) =>
        assert r'.packets[|r.packets|] == hello;
        PacketsGrow(r', chunks[1..]);
    }
  }

  /** A run that meets an ambiguous frame is not delivered past it. */
  lemma {:induction false} FeedUntilAmbiguous(
      r: Reader, chunks: seq<seq<byte>>, good: seq<SocketPacket>, p: SocketPacket)
    requires r.failed.None? && ReadableRun(r.protocol, good) && ModeAfterAll(r.protocol, good).Unknown?
    requires Ambiguous(p) && r.rest <= Stream(good)
    requires |r.rest| + |Flatten(chunks)| < 0x8000_0000_0000_0000
    requires Stream(good) + FrameOf(p) <= r.rest + Flatten(chunks)
    ensures Derailed(r.packets + good, FeedAll(r, chunks).packets)
    decreases |chunks|
  {
    hide Drain, FrameOf, Ambiguous, Readable, ModeAfter;
    if chunks == [] {
      assert r.rest + [] == r.rest;
      AmbiguousNotEmpty(p);
    } else {
      var b, later := r.rest + chunks[0], Flatten(chunks[1..]);
      assert b + later == r.rest + Flatten(chunks);
      var whole := b + later;
      assert Stream(good) <= Stream(good) + FrameOf(p) <= whole;
      PrefixesCompare(b, Stream(good), whole);
      if |b| < |Stream(good)| {
        var done, left, rest := DrainChunk(r.protocol, good, b);
        ModeConcat(r.protocol, done, left);
        assert b + later == Stream(done) + (rest + later);
        assert Stream(good) + FrameOf(p) == Stream(done) + (Stream(left) + FrameOf(p));
        PrefixCancels(Stream(done), Stream(left) + FrameOf(p), rest + later);
        PrefixCancels(Stream(done), rest, Stream(left));
        FeedUntilAmbiguous(Feed(r, chunks[0]), chunks[1..], left, p);
        assert r.packets + done + left == r.packets + good;
      } else {
        assert b == Stream(good) + b[|Stream(good)|..];
        FeedPast(r, chunks, good, p, b[|Stream(good)|..]);
      }
    }
  }

  lemma AmbiguousNotEmpty(p: SocketPacket)
    requires Ambiguous(p)
    ensures FrameOf(p) != []
  {
    hide Serialize;
  }

  lemma {:induction false} FeedPast(
      r: Reader, chunks: seq<seq<byte>>, good: seq<SocketPacket>, p: SocketPacket, after: seq<byte>)
    requires r.failed.None? && ReadableRun(r.protocol, good) && ModeAfterAll(r.protocol, good).Unknown?
    requires |r.rest| + |Flatten(chunks)| < 0x8000_0000_0000_0000
    requires Ambiguous(p) && Stream(good) + FrameOf(p) <= r.rest + Flatten(chunks)
    requires chunks != [] && r.rest + chunks[0] == Stream(good) + after
    ensures Derailed(r.packets + good, FeedAll(r, chunks).packets)
  {
    hide Drain, FrameOf, Ambiguous, Readable, ModeAfter, Stream, ReadableRun;
    var later := Flatten(chunks[1..]);
    var start := Reader(Protocol.Unknown, [], r.packets + good, None);
    var chunks' := [after] + chunks[1..];
    DrainThrough(r.protocol, good, after);
    PrependTwice(r.packets, good, Drain(Protocol.Unknown, after));
    assert [] + after == after;
    assert Feed(r, chunks[0]) == Feed(start, after);
    assert chunks'[0] == after && chunks'[1..] == chunks[1..];
    assert Flatten(chunks') == after + later;
    assert r.rest + (chunks[0] + later) == r.rest + chunks[0] + later;
    assert Stream(good) + (after + later) == Stream(good) + after + later;
    PrefixCancels(Stream(good), FrameOf(p), after + later);
    assert [] + Flatten(chunks') == after + later;
    FeedAmbiguous(start, chunks', p);
  }

  /** The part of a list before the first packet that is not readable. */
  lemma {:induction false} FirstUnreadable(protocol: Protocol, ps: seq<SocketPacket>)
    returns (good: seq<SocketPacket>, p: SocketPacket, more: seq<SocketPacket>)
    requires !ReadableRun(protocol, ps)
    ensures ps == good + [p] + more && ReadableRun(protocol, good)
    ensures !Readable(ModeAfterAll(protocol, good), p)
    decreases |ps|
  {
    hide Readable, ModeAfter;
    if Readable(protocol, ps[0]) {
      var good';
      good', p, more := FirstUnreadable(ModeAfter(protocol, ps[0]), ps[1..]);
      good := [ps[0]] + good';
      assert good[1..] == good';
      assert ps == [ps[0]] + ps[1..];
    } else {
      good, p, more := [], ps[0], ps[1..];
      assert ps == [] + [p] + more;
    }
  }

  lemma {:induction false} FramesNeverMeanMinecraft(protocol: Protocol, ps: seq<SocketPacket>)
    requires !protocol.MC? && forall i :: 0 <= i < |ps| ==> AsFrame(ps[i])
    ensures !ModeAfterAll(protocol, ps).MC?
    decreases |ps|
  {
    if ps != [] {
      assert AsFrame(ps[0]);
      FramesNeverMeanMinecraft(ModeAfter(protocol, ps[0]), ps[1..]);
    }
  }

  /**
   * Disambiguation: the undecided reader delivers a list of frames, in any one chunking, if and
   * only if every frame up to the one that switches to proxy mode has an unambiguous length.
   */
  lemma UndecidedReads(ps: seq<SocketPacket>, chunks: seq<seq<byte>>)
    requires AllFramed(ps) && (forall i :: 0 <= i < |ps| ==> AsFrame(ps[i]))
    requires Flatten(chunks) == Stream(ps) && InMemory(Stream(ps))
    ensures FeedAll(Reader(Protocol.Unknown, [], [], None), chunks).packets == ps
       <==> ReadableRun(Protocol.Unknown, ps)
    ensures ReadableRun(Protocol.Unknown, ps) ==>
              FeedAll(Reader(Protocol.Unknown, [], [], None), chunks)
              == Reader(ModeAfterAll(Protocol.Unknown, ps), [], ps, None)
  {
    hide Drain, FrameOf, Framed, Partial, ModeAfter, FeedAll, Stream, ReadableRun;
    var start := Reader(Protocol.Unknown, [], [], None);
    assert [] + Flatten(chunks) == Flatten(chunks) && [] + ps == ps;
    if ReadableRun(Protocol.Unknown, ps) {
      FrameNotEmpty(ps);
      FeedWholeRun(start, chunks, ps);
    } else {
      var good, p, more := FirstUnreadable(Protocol.Unknown, ps);
      assert p == ps[|good|];
      assert forall i :: 0 <= i < |good| ==> good[i] == ps[i];
      FramesNeverMeanMinecraft(Protocol.Unknown, good);
      StreamOfThree(good, p, more);
      FeedUntilAmbiguous(start, chunks, good, p);
      assert [] + good == good;
    }
  }

  // ----- A connection of the tunnel's client -----

  lemma HelloFirst(h: ProxyHelloPacket, ps: seq<SocketPacket>)
    requires Framed(ProxyHello(h)) && Unambiguous(|Body(ProxyHello(h))|) && AllFramed(ps)
    ensures AllFramed([ProxyHello(h)] + ps) && ReadableRun(Protocol.Unknown, [ProxyHello(h)] + ps)
    ensures ModeAfterAll(Protocol.Unknown, [ProxyHello(h)] + ps) == Protocol.Proxy(h.version)
  {
    hide Framed, Body;
    assert ([ProxyHello(h)] + ps)[1..] == ps;
    ProxyRun(h.version, ps);
  }

  /**
   * The reader that a connection starts with, undecided: after a proxy hello with an unambiguous length it
   * delivers every packet of any length, in any chunking, and stays in proxy mode with the hello's version.
   */
  lemma ProxySession(h: ProxyHelloPacket, ps: seq<SocketPacket>, chunks: seq<seq<byte>>)
    requires Framed(ProxyHello(h)) && Unambiguous(|Body(ProxyHello(h))|) && AllFramed(ps)
    requires Flatten(chunks) == Frame(ProxyHello(h)) + Stream(ps) && InMemory(Flatten(chunks))
    ensures FeedAll(Reader(Protocol.Unknown, [], [], None), chunks)
         == Reader(Protocol.Proxy(h.version), [], [ProxyHello(h)] + ps, None)
  {
    hide Body, Frame, Drain, FeedAll, ReadableRun, Partial, Stream, ModeAfterAll;
    var all := [ProxyHello(h)] + ps;
    HelloFirst(h, ps);
    StreamCons(ProxyHello(h), ps);
    FrameNotEmpty(all);
    assert [] + Flatten(chunks) == Flatten(chunks) && [] + all == all;
    FeedWholeRun(Reader(Protocol.Unknown, [], [], None), chunks, all);
  }

  lemma StreamCons(p: SocketPacket, ps: seq<SocketPacket>)
    requires Sized(p)
    ensures Stream([p] + ps) == Frame(p) + Stream(ps)
  {
    assert ([p] + ps)[1..] == ps;
  }

  // ----- Errors -----

  /** A complete frame whose body does not start with a serialised packet. */
  ghost predicate Malformed(bad: seq<byte>) {
    && |bad| >= 2 && |bad| == 2 + Be16(bad, 0)
    && forall p: SocketPacket :: Sized(p) ==> !(Serialize(p) <= bad[2..])
  }

  lemma MalformedStep(version: int, bad: seq<byte>, after: seq<byte>)
    requires Malformed(bad) && InMemory(bad + after)
    ensures DecodeStep(Protocol.Proxy(version), bad + after) == Fail(NotValid)
  {
    hide Deserialize, Serialize;
    var b := bad + after;
    assert b[2..|bad|] == bad[2..] && Be16(b, 0) == Be16(bad, 0);
    if Deserialize(bad[2..]).Some? {
      var found := Deserialize(bad[2..]).value;
      DeserializeInverts(bad[2..], found.item, found.rest);
      assert false;
    }
  }

  /**
   * In proxy mode a malformed frame is an error: everything in front of it is delivered, whatever follows it
   * is not, in any chunking.
   */
  lemma MalformedStops(
      version: int, ps: seq<SocketPacket>, bad: seq<byte>, after: seq<byte>, chunks: seq<seq<byte>>)
    requires AllFramed(ps) && Malformed(bad)
    requires Flatten(chunks) == Stream(ps) + (bad + after) && InMemory(Flatten(chunks))
    ensures var r := FeedAll(Reader(Protocol.Proxy(version), [], [], None), chunks);
            r.packets == ps && r.failed == Some(NotValid) && r.protocol == Protocol.Proxy(version)
  {
    hide AllFramed, DecodeStep, Malformed, Stream, ReadableRun, ModeAfterAll;
    var mode, b := Protocol.Proxy(version), Flatten(chunks);
    ProxyRun(version, ps);
    DrainThrough(mode, ps, bad + after);
    MalformedStep(version, bad, after);
    assert Drain(mode, bad + after) == Reader(mode, bad + after, [], Some(NotValid));
    assert ps + [] == ps;
    EmptyWaits(mode);
    assert [] + b == b;
    ProxyChunking(version, [], chunks);
  }

  // ----- What the codec writes -----

  /** Packets of the tunnel are written as their frames. */
  lemma {:induction false} FramesAreWritten(ps: seq<SocketPacket>)
    requires forall i :: 0 <= i < |ps| ==> AsFrame(ps[i])
    ensures Written(ps) == Stream(ps)
  {
    hide Frame, Sized;
    if ps != [] {
      assert AsFrame(ps[0]);
      FramesAreWritten(ps[1..]);
    }
  }
}
