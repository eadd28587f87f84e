/**
 * The wires of the tunnel, packets and bytes: what a run puts on them follows a grammar, is taken off in the
 * same order, and is read back by the other side, except for the payloads the client's reader misreads or
 * that do not fit a frame.
 */
module WireSizes {
  import opened Datatypes
  import opened Bytes
  import opened Minecraft
  import opened Packets
  import opened Bincode
  import opened Frames
  import opened Codec
  import opened Ambiguity
  import opened Layouts
  import opened Streams
  import opened Distributors
  import opened ServerHandler
  import opened ClientHandler
  import opened Endpoints
  import opened Tunnels
  import opened Origins

  // ----- Bodies -----

  lemma DataBody(id: ClientID, data: seq<byte>)
    requires |data| < 0x1_0000_0000_0000_0000
    ensures Sized(DataPacket(id, data)) && |Body(DataPacket(id, data))| == 14 + |data|
  {
    Widths();
    var shape, fields := [Int(2), Vector], [Num(id), Blob(data)];
    AllFitCons(shape, fields);
    AllFitCons(shape[1..], fields[1..]);
    NoFields(shape[1..][1..], fields[1..][1..]);
    assert Shape(10) == shape && Fields(DataPacket(id, data)) == fields;
    TwoFields(shape, fields);
  }

  lemma TwoFields(shape: seq<Kind>, fields: seq<Field>)
    requires AllFit(shape, fields) && |shape| == 2 && shape[0] == Int(2) && shape[1].Vector?
    ensures fields[1].Blob? && |PutFields(shape, fields)| == 10 + |fields[1].bytes|
  {
    AllFitSizes(shape, fields);
    AllFitCons(shape, fields);
    AllFitCons(shape[1..], fields[1..]);
    assert PutFields(shape[1..][1..], fields[1..][1..]) == [];
  }

  lemma NumberBody(p: SocketPacket)
    requires p.ProxyJoin? || p.ProxyDisconnect? || p.ProxyPing? || p.ProxyPong? || p.ProxyHelloResponse?
    ensures Sized(p) && |Body(p)| == 6
  {
    Widths();
    var shape, fields := Shape(Tag(p)), Fields(p);
    AllFitCons(shape, fields);
    NoFields(shape[1..], fields[1..]);
    assert PutFields(shape[1..], fields[1..]) == [];
  }

  // ----- What is put on the wires of the tunnel -----

  /** The local server is read 1024 bytes at a time. */
  predicate UpPacket(p: SocketPacket) {
    (p.ProxyData? && |p.proxyData.packet.data| <= 1024) || p.ProxyDisconnect? || p.ProxyPing?
  }

  predicate DownPacket(p: SocketPacket) {
    p.ProxyJoin? || p.ProxyData? || p.ProxyDisconnect? || p.ProxyPong?
  }

  /** What an event puts on the wire to the server. */
  function NewUp(s: Tunnel, e: Event): seq<SocketPacket>
    requires Enabled(s, e)
  {
    match e
    case ClientTakes => var r := OnMessage(s.links, s.replies[0].message); if r.running then r.sends else []
    case ClientPings(time) => [ProxyPing(time)]
    case _ => []
  }

  /** What an event takes off the wire to the server. */
  function OldUp(s: Tunnel, e: Event): seq<SocketPacket>
    requires Enabled(s, e)
  {
    if e.ServerReads? then [s.up[0].packet] else []
  }

  function NewDown(s: Tunnel, e: Event): seq<SocketPacket>
    requires Enabled(s, e)
  {
    match e
    case ServerTakes => var r := OnInbox(s.table, s.inbox[0].message); if r.running then r.sends else []
    case ServerReads => OnPacket(s.table, s.up[0].packet).sends
    case _ => []
  }

  /** A packet that stops the client is not taken. */
  function OldDown(s: Tunnel, e: Event): seq<SocketPacket>
    requires Enabled(s, e)
  {
    if e.ClientReads? && OnProxyPacket(s.links, s.down[0].packet, |s.locals|, Closed(s.locals)).running
    then [s.down[0].packet] else []
  }

  /** Everything put on the wire to the server in a run. */
  function SentUp(s: Tunnel, events: seq<Event>): seq<SocketPacket>
    requires Possible(s, events)
    decreases |events|
  {
    if events == [] then [] else NewUp(s, events[0]) + SentUp(Step(s, events[0]), events[1..])
  }

  /** Everything the server read in a run. */
  function TakenUp(s: Tunnel, events: seq<Event>): seq<SocketPacket>
    requires Possible(s, events)
    decreases |events|
  {
    if events == [] then [] else OldUp(s, events[0]) + TakenUp(Step(s, events[0]), events[1..])
  }

  function SentDown(s: Tunnel, events: seq<Event>): seq<SocketPacket>
    requires Possible(s, events)
    decreases |events|
  {
    if events == [] then [] else NewDown(s, events[0]) + SentDown(Step(s, events[0]), events[1..])
  }

  function TakenDown(s: Tunnel, events: seq<Event>): seq<SocketPacket>
    requires Possible(s, events)
    decreases |events|
  {
    if events == [] then [] else OldDown(s, events[0]) + TakenDown(Step(s, events[0]), events[1..])
  }

  function PacketsOn(wire: seq<WireItem>): (ps: seq<SocketPacket>)
    ensures |ps| == |wire| && forall i :: 0 <= i < |wire| ==> ps[i] == wire[i].packet
  {
    seq(|wire|, i requires 0 <= i < |wire| => wire[i].packet)
  }

  // ----- First in, first out -----

  /** An event takes packets from the front of a wire and puts packets at its end. */
  ghost predicate Fifo(s: Tunnel, s': Tunnel, e: Event)
    requires Enabled(s, e)
  {
    && PacketsOn(s.up) + NewUp(s, e) == OldUp(s, e) + PacketsOn(s'.up)
    && PacketsOn(s.down) + NewDown(s, e) == OldDown(s, e) + PacketsOn(s'.down)
  }

  lemma SameWires(s: Tunnel, s': Tunnel, e: Event)
    requires Enabled(s, e) && s'.up == s.up && s'.down == s.down
    requires NewUp(s, e) == [] && OldUp(s, e) == [] && NewDown(s, e) == [] && OldDown(s, e) == []
    ensures Fifo(s, s', e)
  {
  }

  lemma PacketsAppend(wire: seq<WireItem>, ps: seq<SocketPacket>, gen: nat)
    ensures PacketsOn(wire + Tagged(ps, gen)) == PacketsOn(wire) + ps
  {
  }

  lemma PacketsFirst(wire: seq<WireItem>)
    requires wire != []
    ensures PacketsOn(wire) == [wire[0].packet] + PacketsOn(wire[1..])
  {
  }

  lemma ServerTakesFifo(s: Tunnel)
    requires Enabled(s, ServerTakes)
    ensures Fifo(s, ServerTakesStep(s), ServerTakes)
  {
    hide PacketsOn, Tagged, OnInbox, Recorded, Subject;
    var m := s.inbox[0].message;
    var r, subject := OnInbox(s.table, m), Subject(s.table, m);
    var gen := if subject.Some? then subject.value else 0;
    PacketsAppend(s.down, r.sends, gen);
    if subject.Some? && gen < |s.visitors| {
      RecordedKeepsWires(s, m, gen);
    }
  }

  lemma RecordedKeepsWires(s: Tunnel, m: ClientToProxy, g: nat)
    requires g < |s.visitors|
    ensures var s' := Recorded(s, m, g); s'.up == s.up && s'.down == s.down && s'.replies == s.replies
  {
    hide FirstFree;
  }

  lemma ServerReadsFifo(s: Tunnel)
    requires Enabled(s, ServerReads)
    ensures Fifo(s, ServerReadsStep(s), ServerReads)
  {
    hide PacketsOn, Tagged, OnPacket;
    PacketsAppend(s.down, OnPacket(s.table, s.up[0].packet).sends, 0);
    PacketsFirst(s.up);
  }

  lemma ClientTakesFifo(s: Tunnel)
    requires Enabled(s, ClientTakes)
    ensures Fifo(s, ClientTakesStep(s), ClientTakes)
  {
    hide PacketsOn, Tagged, OnMessage;
    PacketsAppend(s.up, OnMessage(s.links, s.replies[0].message).sends, s.replies[0].gen);
  }

  lemma ClientReadsFifo(s: Tunnel)
    requires Enabled(s, ClientReads)
    ensures Fifo(s, ClientReadsStep(s), ClientReads)
  {
    hide PacketsOn, OnProxyPacket;
    PacketsFirst(s.down);
  }

  lemma ConnectionsKeepWires(s: Tunnel, e: Event)
    requires Enabled(s, e) && (e.Connects? || e.ConnectFails? || e.LocalServer? || e.LocalReceive?)
    ensures Step(s, e).up == s.up && Step(s, e).down == s.down
    ensures Step(s, e).table == s.table && Step(s, e).serverUp == s.serverUp
    ensures RepliesShort(s) ==> RepliesShort(Step(s, e))
  {
    hide ReplyAll, LeaveLocal, RepliesShort;
    match e
    case Connects(_) =>
      SameReplies(s, Step(s, e));
    case ConnectFails(k, error) =>
      var turn := OnConnectError(RUNNING, error);
      RepliesKeepWires(s, k, turn.messages);
      LeavesKeepWires(ReplyAll(s, k, turn.messages), k, turn.task);
    case LocalServer(k, read) =>
      var turn := OnRead(s.locals[k].id, RUNNING, read, s.clientUp);
      RepliesKeepWires(s, k, turn.messages);
      LeavesKeepWires(s, k, turn.task);
    case LocalReceive(k, writable) =>
      LeavesKeepWires(s, k, Task(s.locals[k].rx != [], true));
      SameReplies(s, s.(locals := Step(s, e).locals));
  }

  ghost predicate RepliesShort(s: Tunnel) {
    forall i :: 0 <= i < |s.replies| && s.replies[i].message.FromConnection? ==> |s.replies[i].message.data| <= 1024
  }

  lemma SameReplies(s: Tunnel, s': Tunnel)
    requires s'.replies == s.replies
    ensures RepliesShort(s) <==> RepliesShort(s')
  {
  }

  lemma {:induction false} RepliesKeepWires(s: Tunnel, k: nat, ms: seq<ConnectionMessage>)
    requires k < |s.locals|
    requires forall i :: 0 <= i < |ms| && ms[i].FromConnection? ==> |ms[i].data| <= 1024
    ensures ReplyAll(s, k, ms).up == s.up && ReplyAll(s, k, ms).down == s.down
    ensures ReplyAll(s, k, ms).table == s.table && ReplyAll(s, k, ms).serverUp == s.serverUp
    ensures RepliesShort(s) ==> RepliesShort(ReplyAll(s, k, ms))
    decreases |ms|
  {
    if ms != [] {
      RepliesKeepWires(Reply(s, k, ms[0]), k, ms[1..]);
    }
  }

  lemma LeavesKeepWires(s: Tunnel, k: nat, t: Task)
    requires k < |s.locals|
    ensures LeaveLocal(s, k, t).up == s.up && LeaveLocal(s, k, t).down == s.down
    ensures LeaveLocal(s, k, t).table == s.table && LeaveLocal(s, k, t).serverUp == s.serverUp
    ensures RepliesShort(s) ==> RepliesShort(LeaveLocal(s, k, t))
  {
    hide ReplyAll;
    RepliesKeepWires(s.(locals := s.locals[k := s.locals[k].(live := false)]), k, OnConnectionDrop(s.locals[k].id, t));
  }

  lemma EventFifo(s: Tunnel, e: Event)
    requires Enabled(s, e)
    ensures Fifo(s, Step(s, e), e)
  {
    hide Fifo, ServerTakesStep, ServerReadsStep, ClientTakesStep, ClientReadsStep, ArriveStep, GreetStep,
      VisitorSocketStep, VisitorReceiveStep, ConnectFailsStep, LocalServerStep, LocalReceiveStep, SameGotten;
    match e
    case ServerTakes => ServerTakesFifo(s);
    case ServerReads => ServerReadsFifo(s);
    case ClientTakes => ClientTakesFifo(s);
    case ClientReads => ClientReadsFifo(s);
    case ClientPings(time) => PingFifo(s, time);
    case ServerStops => SameWires(s, Step(s, e), e);
    case ClientStops => SameWires(s, Step(s, e), e);
    case Connects(_) => ConnectionsKeepWires(s, e); SameWires(s, Step(s, e), e);
    case ConnectFails(_, _) => ConnectionsKeepWires(s, e); SameWires(s, Step(s, e), e);
    case LocalServer(_, _) => ConnectionsKeepWires(s, e); SameWires(s, Step(s, e), e);
    case LocalReceive(_, _) => ConnectionsKeepWires(s, e); SameWires(s, Step(s, e), e);
    case _ => VisitorEventsKeep(s, e); SameWires(s, Step(s, e), e);
  }

  lemma PingFifo(s: Tunnel, time: u16)
    requires Enabled(s, ClientPings(time))
    ensures Fifo(s, Step(s, ClientPings(time)), ClientPings(time))
  {
    hide PacketsOn;
    assert Tagged([ProxyPing(time)], 0) == [WireItem(ProxyPing(time), 0)];
    PacketsAppend(s.up, [ProxyPing(time)], 0);
  }

  /** Both wires are first in, first out: what was sent is what was taken, then what is still on the way. */
  lemma {:induction false} WireHistory(s: Tunnel, events: seq<Event>)
    requires Possible(s, events)
    ensures PacketsOn(s.up) + SentUp(s, events) == TakenUp(s, events) + PacketsOn(Run(s, events).up)
    ensures PacketsOn(s.down) + SentDown(s, events) == TakenDown(s, events) + PacketsOn(Run(s, events).down)
    decreases |events|
  {
    hide Enabled, Step, PacketsOn, NewUp, OldUp, NewDown, OldDown;
    if events != [] {
      var e, next, others := events[0], Step(s, events[0]), events[1..];
      EventFifo(s, e);
      WireHistory(next, others);
      Chain(PacketsOn(s.up), NewUp(s, e), SentUp(next, others), OldUp(s, e), PacketsOn(next.up),
            TakenUp(next, others), PacketsOn(Run(next, others).up));
      Chain(PacketsOn(s.down), NewDown(s, e), SentDown(next, others), OldDown(s, e), PacketsOn(next.down),
            TakenDown(next, others), PacketsOn(Run(next, others).down));
    }
  }

  lemma Chain<T>(w: seq<T>, n: seq<T>, ns: seq<T>, o: seq<T>, w': seq<T>, os: seq<T>, w'': seq<T>)
    requires w + n == o + w' && w' + ns == os + w''
    ensures w + (n + ns) == (o + os) + w''
  {
    assert w + (n + ns) == (w + n) + ns == (o + w') + ns == o + (w' + ns) == o + (os + w'');
  }

  // ----- What is sent for an id -----

  /** What the server's loop makes of an event, if it has a part in it. */
  function ServerPart(s: Tunnel, e: Event): Option<ServerEvent>
    requires Enabled(s, e)
  {
    match e
    case ServerTakes => Some(FromInbox(s.inbox[0].message))
    case ServerReads => Some(FromWire(s.up[0].packet))
    case _ => None
  }

  /** An event sends what the server's loop sends for it, and changes the table as that does. */
  lemma ServerActs(s: Tunnel, e: Event)
    requires Enabled(s, e)
    ensures match ServerPart(s, e)
            case Some(part) =>
              var r := React(s.table, part);
              && s.serverUp && NewDown(s, e) == (if r.running then r.sends else [])
              && (Step(s, e).serverUp ==> r.running && Step(s, e).table == r.table)
            case None => NewDown(s, e) == [] && (Step(s, e).serverUp ==> s.serverUp && Step(s, e).table == s.table)
  {
    hide ArriveStep, GreetStep, VisitorSocketStep, VisitorReceiveStep, ConnectFailsStep, LocalServerStep,
      LocalReceiveStep, SameGotten, RepliesShort, OnProxyPacket, OnInbox, OnPacket, Recorded;
    match e
    case ServerTakes => TakesTable(s);
    case ServerReads => AlwaysGoesOn(s.table, s.up[0].packet);
    case Connects(_) => ConnectionsKeepWires(s, e);
    case ConnectFails(_, _) => ConnectionsKeepWires(s, e);
    case LocalServer(_, _) => ConnectionsKeepWires(s, e);
    case LocalReceive(_, _) => ConnectionsKeepWires(s, e);
    case Arrive(_, _) => VisitorEventsKeep(s, e);
    case Greet(_) => VisitorEventsKeep(s, e);
    case VisitorSocket(_, _) => VisitorEventsKeep(s, e);
    case VisitorReceive(_, _) => VisitorEventsKeep(s, e);
    case _ =>
  }

  lemma AlwaysGoesOn(t: Table, p: SocketPacket)
    ensures OnPacket(t, p).running
  {
    hide LookupId, RemovingId;
  }

  lemma TakesTable(s: Tunnel)
    requires Enabled(s, ServerTakes)
    ensures var r, s' := OnInbox(s.table, s.inbox[0].message), ServerTakesStep(s);
            s'.serverUp ==> r.running && s'.table == r.table
  {
    hide OnInbox, Recorded;
  }

  /** In every run, what the server sends for an id has the form (Join Data* Disconnect?)*. */
  lemma TunnelGrammar(events: seq<Event>, id: ClientID)
    requires Possible(START, events)
    ensures Grammar(id, false, SentDown(START, events))
  {
    hide Possible, SentDown, Grammar;
    GrammarRun(START, events, id, false);
  }

  lemma {:induction false} GrammarRun(s: Tunnel, events: seq<Event>, id: ClientID, open: bool)
    requires Possible(s, events) && (s.serverUp ==> Owned(s.table) && (id in s.table.clients_id ==> open))
    ensures Grammar(id, open, SentDown(s, events))
    decreases |events|
  {
    hide Enabled, Step, NewDown, React, OpenAfter, Owned, ServerPart;
    if events != [] {
      var e, next, others := events[0], Step(s, events[0]), events[1..];
      var sends := NewDown(s, e);
      ServerActs(s, e);
      if ServerPart(s, e).Some? {
        OwnedStays(s.table, ServerPart(s, e).value);
        OneSend(s.table, ServerPart(s, e).value, id, open);
      }
      GrammarRun(next, others, id, if sends == [] then open else OpenAfter(id, open, sends[0]));
      if sends == [] {
        assert SentDown(s, events) == SentDown(next, others);
      } else {
        GrammarCons(id, open, sends[0], SentDown(next, others));
      }
    }
  }

  // ----- Sizes in every run -----

  lemma ShortStep(s: Tunnel, e: Event)
    requires RepliesShort(s) && Enabled(s, e)
    ensures RepliesShort(Step(s, e))
    ensures forall i :: 0 <= i < |NewUp(s, e)| ==> UpPacket(NewUp(s, e)[i])
  {
    hide ArriveStep, GreetStep, VisitorSocketStep, VisitorReceiveStep, ServerTakesStep, ServerReadsStep,
      ConnectFailsStep, LocalServerStep, LocalReceiveStep, SameGotten, RepliesShort, OnProxyPacket;
    match e
    case ClientTakes => ShortTakes(s);
    case ClientReads => ShortReads(s);
    case ClientStops => ShortHalts(s);
    case ClientPings(_) => SameReplies(s, Step(s, e));
    case ServerStops => SameReplies(s, Step(s, e));
    case ServerTakes => ServerKeepsReplies(s, e); SameReplies(s, Step(s, e));
    case ServerReads => ServerKeepsReplies(s, e); SameReplies(s, Step(s, e));
    case Connects(_) => ConnectionsKeepWires(s, e);
    case ConnectFails(_, _) => ConnectionsKeepWires(s, e);
    case LocalServer(_, _) => ConnectionsKeepWires(s, e);
    case LocalReceive(_, _) => ConnectionsKeepWires(s, e);
    case _ => VisitorEventsKeep(s, e); SameReplies(s, Step(s, e));
  }

  lemma ServerKeepsReplies(s: Tunnel, e: Event)
    requires Enabled(s, e) && (e.ServerTakes? || e.ServerReads?)
    ensures Step(s, e).replies == s.replies
  {
    hide OnInbox, OnPacket, FirstFree;
  }

  lemma ShortHalts(s: Tunnel)
    ensures RepliesShort(HaltClient(s))
  {
  }

  lemma ShortReads(s: Tunnel)
    requires RepliesShort(s) && Enabled(s, ClientReads)
    ensures RepliesShort(ClientReadsStep(s))
  {
    hide OnProxyPacket;
  }

  lemma ShortTakes(s: Tunnel)
    requires RepliesShort(s) && Enabled(s, ClientTakes)
    ensures RepliesShort(ClientTakesStep(s))
    ensures forall i :: 0 <= i < |NewUp(s, ClientTakes)| ==> UpPacket(NewUp(s, ClientTakes)[i])
  {
  }

  lemma {:induction false} UpPackets(s: Tunnel, events: seq<Event>)
    requires RepliesShort(s) && Possible(s, events)
    ensures forall i :: 0 <= i < |SentUp(s, events)| ==> UpPacket(SentUp(s, events)[i])
    decreases |events|
  {
    hide Enabled, Step, NewUp, RepliesShort, UpPacket;
    if events != [] {
      ShortStep(s, events[0]);
      UpPackets(Step(s, events[0]), events[1..]);
    }
  }

  lemma NewDownPackets(s: Tunnel, e: Event)
    requires Enabled(s, e)
    ensures forall i :: 0 <= i < |NewDown(s, e)| ==> DownPacket(NewDown(s, e)[i])
  {
    hide FirstFree;
  }

  lemma {:induction false} DownPackets(s: Tunnel, events: seq<Event>)
    requires Possible(s, events)
    ensures forall i :: 0 <= i < |SentDown(s, events)| ==> DownPacket(SentDown(s, events)[i])
    decreases |events|
  {
    hide Enabled, Step, NewDown, DownPacket;
    if events != [] {
      NewDownPackets(s, events[0]);
      DownPackets(Step(s, events[0]), events[1..]);
    }
  }

  lemma UpFramed(p: SocketPacket)
    requires UpPacket(p)
    ensures Framed(p) && |Body(p)| <= 1038
  {
    hide Sized, Body;
    match p {
      case ProxyData(d) => DataBody(d.client_id, d.packet.data);
      case _ => NumberBody(p);
    }
  }

  // ----- Bytes and packets -----

  /** What a reader that was fed some bytes of a stream has delivered, and what it still holds. */
  ghost predicate ReadsAlong(r: Reader, fed: seq<byte>, ps: seq<SocketPacket>) {
    && r.failed.None? && r.packets <= ps
    && fed == Stream(r.packets) + r.rest && Partial(r.rest, ps[|r.packets|..])
    && (fed == Stream(ps) ==> r.packets == ps && r.rest == [])
  }

  lemma AlongRun(r: Reader, chunks: seq<seq<byte>>, ps: seq<SocketPacket>)
    requires r.failed.None? && r.packets == [] && r.rest == [] && ReadableRun(r.protocol, ps) && Partial([], ps)
    requires |Flatten(chunks)| < 0x8000_0000_0000_0000 && Flatten(chunks) <= Stream(ps)
    ensures ReadsAlong(FeedAll(r, chunks), Flatten(chunks), ps)
  {
    hide FeedAll, Stream, ReadableRun, Partial, ModeAfterAll;
    assert [] + Flatten(chunks) == Flatten(chunks);
    var done, left, rest := FeedRun(r, chunks, ps);
    assert [] + done == done;
    assert ps[|done|..] == left;
    if Flatten(chunks) == Stream(ps) {
      FeedWholeRun(r, chunks, ps);
      assert [] + ps == ps;
    }
  }

  /**
   * In every run, however the bytes of everything the client sent so far arrive, its hello first and whatever
   * it sent to authenticate itself: the server's reader, which starts undecided, has delivered exactly the
   * packets that are complete, in the order they were sent, and holds the part of the next one. Every frame of
   * the tunnel fits its length field.
   */
  lemma UpstreamWire(events: seq<Event>, h: ProxyHelloPacket, greeting: seq<SocketPacket>, chunks: seq<seq<byte>>)
    requires Possible(START, events)
    requires Framed(ProxyHello(h)) && Unambiguous(|Body(ProxyHello(h))|) && AllFramed(greeting)
    ensures var ps := SentUp(START, events);
            var all := [ProxyHello(h)] + (greeting + ps);
            && (forall i :: 0 <= i < |ps| ==> Framed(ps[i]) && |Body(ps[i])| <= 1038)
            && (Flatten(chunks) <= Stream(all) && InMemory(Stream(all)) ==>
                  ReadsAlong(FeedAll(Reader(Protocol.Unknown, [], [], None), chunks), Flatten(chunks), all))
  {
    hide Possible, SentUp, Sized, Body, FeedAll, Stream, ReadsAlong, Partial, ReadableRun, UpPacket;
    UpPackets(START, events);
    var ps := SentUp(START, events);
    forall i | 0 <= i < |ps| ensures Framed(ps[i]) && |Body(ps[i])| <= 1038 {
      UpFramed(ps[i]);
    }
    var all := [ProxyHello(h)] + (greeting + ps);
    if Flatten(chunks) <= Stream(all) && InMemory(Stream(all)) {
      HelloFirst(h, greeting + ps);
      FrameNotEmpty(all);
      AlongRun(Reader(Protocol.Unknown, [], [], None), chunks, all);
    }
  }

  /** Payloads whose frame the undecided reader takes for a Minecraft packet. */
  predicate Misread(p: SocketPacket) {
    p.ProxyData? && (498 <= |p.proxyData.packet.data| <= 753 || |p.proxyData.packet.data| == 1522)
  }

  /** Larger payloads do not fit a frame. */
  predicate FitsFrame(p: SocketPacket) {
    p.ProxyData? ==> |p.proxyData.packet.data| <= 65521
  }

  /** What the server sends before the tunnel is open. */
  predicate Greets(p: SocketPacket) {
    p.ProxyAuthRequest? || p.ProxyHelloResponse?
  }

  lemma DownReadable(p: SocketPacket)
    requires (DownPacket(p) || Greets(p)) && FitsFrame(p)
    ensures Framed(p) && AsFrame(p) && (Readable(Protocol.Unknown, p) <==> !Misread(p))
    ensures Misread(p) ==> Ambiguous(p)
  {
    hide Sized, Body;
    match p {
      case ProxyData(d) => DataBody(d.client_id, d.packet.data);
      case ProxyAuthRequest(challenge) => AuthFrames(challenge);
      case _ => NumberBody(p);
    }
  }

  /** Without a proxy hello among them the reader stays undecided, and each packet counts for itself. */
  lemma {:induction false} UndecidedRun(ps: seq<SocketPacket>)
    requires forall i :: 0 <= i < |ps| ==> DownPacket(ps[i]) || Greets(ps[i])
    ensures ReadableRun(Protocol.Unknown, ps) <==> forall i :: 0 <= i < |ps| ==> Readable(Protocol.Unknown, ps[i])
    ensures ModeAfterAll(Protocol.Unknown, ps) == Protocol.Unknown
  {
    hide Readable;
    if ps != [] {
      assert ModeAfter(Protocol.Unknown, ps[0]) == Protocol.Unknown by {
        assert DownPacket(ps[0]) || Greets(ps[0]);
      }
      UndecidedRun(ps[1..]);
      assert forall i :: 0 < i < |ps| ==> ps[i] == ps[1..][i - 1];
    }
  }

  lemma AllReadable(ps: seq<SocketPacket>)
    requires forall i :: 0 <= i < |ps| ==> (DownPacket(ps[i]) || Greets(ps[i])) && FitsFrame(ps[i])
    ensures AllFramed(ps) && (forall i :: 0 <= i < |ps| ==> AsFrame(ps[i]))
    ensures ReadableRun(Protocol.Unknown, ps) <==> forall i :: 0 <= i < |ps| ==> !Misread(ps[i])
    ensures ModeAfterAll(Protocol.Unknown, ps) == Protocol.Unknown
  {
    hide Sized, Body, Readable, Misread, FitsFrame, DownPacket, Greets, ReadableRun, AsFrame, Framed, ModeAfterAll;
    forall i | 0 <= i < |ps|
      ensures Framed(ps[i]) && AsFrame(ps[i]) && (Readable(Protocol.Unknown, ps[i]) <==> !Misread(ps[i]))
    {
      DownReadable(ps[i]);
    }
    UndecidedRun(ps);
  }

  /** A packet that the undecided reader delivers. */
  predicate Passes(p: SocketPacket) {
    FitsFrame(p) && !Misread(p)
  }

  // ----- Payloads that do not fit -----

  /** No decoder ever reads a payload that does not fit a frame. */
  lemma DecodedFits(protocol: Protocol, b: seq<byte>)
    requires InMemory(b)
    ensures match DecodeStep(protocol, b) case Next(p, _) => FitsFrame(p) case _ => true
  {
    hide AnyHello, Deserialize, Sized, Serialize;
    var d := DecodeStep(protocol, b);
    if d.Next? && d.packet.ProxyData? {
      assert DecodeProxy(b) == Ok(Taken(d.packet, d.size));
      var ignored := DecodeProxyTakes(b, d.packet, d.size);
      DataFits(d.packet);
      DataBody(d.packet.proxyData.client_id, d.packet.proxyData.packet.data);
      assert d.packet == DataPacket(d.packet.proxyData.client_id, d.packet.proxyData.packet.data);
      assert |Serialize(d.packet)| <= d.size - 2 <= 65535;
    }
  }

  lemma DataFits(p: SocketPacket)
    requires p.ProxyData? && Sized(p)
    ensures |p.proxyData.packet.data| < 0x1_0000_0000_0000_0000
  {
    var shape, fields := Shape(Tag(p)), Fields(p);
    AllFitCons(shape, fields);
    AllFitCons(shape[1..], fields[1..]);
  }

  predicate AllFitFrames(ps: seq<SocketPacket>) {
    forall i :: 0 <= i < |ps| ==> FitsFrame(ps[i])
  }

  lemma {:induction false} DrainFits(protocol: Protocol, b: seq<byte>)
    requires InMemory(b)
    ensures AllFitFrames(Drain(protocol, b).packets)
    decreases |b|
  {
    hide DecodeStep, FitsFrame;
    DecodedFits(protocol, b);
    match DecodeStep(protocol, b)
    case Next(p, size) => DrainFits(ModeAfter(protocol, p), b[size..]);
    case _ =>
  }

  lemma ChunkFits(r: Reader, chunk: seq<byte>)
    requires InMemory(r.rest + chunk) && AllFitFrames(r.packets)
    ensures AllFitFrames(Feed(r, chunk).packets)
  {
    hide Drain, FitsFrame;
    if r.failed.None? {
      DrainFits(r.protocol, r.rest + chunk);
    }
  }

  lemma {:induction false} FeedFits(r: Reader, chunks: seq<seq<byte>>)
    requires |r.rest| + |Flatten(chunks)| < 0x8000_0000_0000_0000 && AllFitFrames(r.packets)
    ensures AllFitFrames(FeedAll(r, chunks).packets)
    decreases |chunks|
  {
    hide Feed, AllFitFrames;
    if chunks != [] {
      ChunkFits(r, chunks[0]);
      FeedFits(Feed(r, chunks[0]), chunks[1..]);
    }
  }

  /**
   * What the undecided reader makes of the bytes: up to packet `n` it delivers what was sent; once a misread
   * packet `n` has arrived it never delivers that, but nothing more or a Minecraft hello; a payload that does
   * not fit a frame it never delivers; and with all bytes it has delivered everything if and only if every
   * packet passes.
   */
  ghost predicate Undecided(ps: seq<SocketPacket>, n: nat, fed: seq<byte>, r: Reader)
    requires n <= |ps|
  {
    && (fed <= Stream(ps[..n]) ==> ReadsAlong(r, fed, ps[..n]))
    && (n < |ps| && Misread(ps[n]) && Stream(ps[..n]) + FrameOf(ps[n]) <= fed ==> Derailed(ps[..n], r.packets))
    && AllFitFrames(r.packets)
    && (fed == Stream(ps) ==> (r.packets == ps <==> forall i :: 0 <= i < |ps| ==> Passes(ps[i])))
  }

  lemma UndecidedReader(ps: seq<SocketPacket>, n: nat, chunks: seq<seq<byte>>)
    requires |Flatten(chunks)| < 0x8000_0000_0000_0000 && InMemory(Stream(ps)) && n <= |ps|
    requires forall i :: 0 <= i < |ps| ==> DownPacket(ps[i]) || Greets(ps[i])
    requires forall i :: 0 <= i < n ==> Passes(ps[i])
    ensures Undecided(ps, n, Flatten(chunks), FeedAll(Reader(Protocol.Unknown, [], [], None), chunks))
  {
    hide Sized, Body, FeedAll, Stream, ReadsAlong, Partial, ReadableRun, DownPacket, Greets, FitsFrame, Misread,
      Derailed, ModeAfterAll, Framed, AsFrame, Ambiguous, FrameOf;
    var start, fed := Reader(Protocol.Unknown, [], [], None), Flatten(chunks);
    AllReadable(ps[..n]);
    if fed <= Stream(ps[..n]) {
      FrameNotEmpty(ps[..n]);
      AlongRun(start, chunks, ps[..n]);
    }
    if n < |ps| && Misread(ps[n]) && Stream(ps[..n]) + FrameOf(ps[n]) <= fed {
      MisreadFits(ps[n]);
      DownReadable(ps[n]);
      Derails(start, chunks, ps[..n], ps[n]);
    }
    FeedFits(start, chunks);
    if fed == Stream(ps) && AllFitFrames(ps) {
      AllReadable(ps);
      UndecidedReads(ps, chunks);
    }
  }

  lemma MisreadFits(p: SocketPacket)
    requires Misread(p)
    ensures FitsFrame(p)
  {
  }

  /** Everything the server has sent: what opens the tunnel, and then what the tunnel carries. */
  function AllSentDown(greeting: seq<SocketPacket>, events: seq<Event>): seq<SocketPacket>
    requires Possible(START, events)
  {
    greeting + SentDown(START, events)
  }

  /**
   * In every run, however the bytes of everything the server sent so far arrive: the client, whose reader
   * stays undecided, delivers what was sent up to the first packet with a payload of 498 to 753, of 1522 or of
   * more than 65521 bytes, and never that packet.
   */
  lemma DownstreamWire(greeting: seq<SocketPacket>, events: seq<Event>, n: nat, chunks: seq<seq<byte>>)
    requires Possible(START, events) && |Flatten(chunks)| < 0x8000_0000_0000_0000
    requires forall i :: 0 <= i < |greeting| ==> Greets(greeting[i])
    requires InMemory(Stream(AllSentDown(greeting, events))) && n <= |AllSentDown(greeting, events)|
    requires forall i :: 0 <= i < n ==> Passes(AllSentDown(greeting, events)[i])
    ensures Undecided(AllSentDown(greeting, events), n, Flatten(chunks),
                      FeedAll(Reader(Protocol.Unknown, [], [], None), chunks))
  {
    hide Possible, SentDown, FeedAll, Stream, DownPacket, Greets, Passes, Undecided;
    DownPackets(START, events);
    UndecidedReader(AllSentDown(greeting, events), n, chunks);
  }

  lemma Derails(r: Reader, chunks: seq<seq<byte>>, good: seq<SocketPacket>, p: SocketPacket)
    requires r == Reader(Protocol.Unknown, [], [], None) && ReadableRun(Protocol.Unknown, good)
    requires ModeAfterAll(Protocol.Unknown, good) == Protocol.Unknown && Ambiguous(p)
    requires |Flatten(chunks)| < 0x8000_0000_0000_0000 && Stream(good) + FrameOf(p) <= Flatten(chunks)
    ensures Derailed(good, FeedAll(r, chunks).packets)
  {
    hide FeedAll, Stream, ReadableRun, ModeAfterAll, Derailed;
    assert [] + Flatten(chunks) == Flatten(chunks) && [] + good == good;
    FeedUntilAmbiguous(r, chunks, good, p);
  }
}
