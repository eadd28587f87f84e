/**
 * From socket to socket: the bytes written to the local server are bytes read from the Minecraft
 * client, and the bytes written to the Minecraft client are bytes read from the local server.
 */
module EndToEnd {
  import opened Datatypes
  import opened Bytes
  import opened Minecraft
  import opened Packets
  import opened Codec
  import opened Conservation
  import opened Distributors
  import opened ServerHandler
  import opened ClientHandler
  import opened Endpoints
  import opened Lanes
  import opened Tunnels
  import opened Invariants
  import opened Isolation
  import opened QuietRuns
  import opened QuietReuse

  // ----- What a Minecraft client's task took from its socket -----

  function SocketData(events: seq<Event>, g: nat): seq<Payload>
    decreases |events|
  {
    if events == [] then []
    else EventData(events[0], g) + SocketData(events[1..], g)
  }

  function EventData(e: Event, g: nat): seq<Payload> {
    match e
    case VisitorSocket(v, Data(data)) => if v == g then [data] else []
    case _ => []
  }

  /** The hello that is still to be queued. */
  function Due(v: Visitor): seq<Payload> {
    if v.greeted then [] else [v.hello]
  }

  /** While the server runs, everything taken from the socket is queued, the hello first. */
  lemma PostsQueue(s: Tunnel, g: nat, ms: seq<ClientToProxy>, h: nat)
    requires g < |s.visitors| && h < |s.visitors|
    requires |ms| <= 1
    ensures var s' := PostAll(s, g, ms);
            && s'.serverUp == s.serverUp && |s'.visitors| == |s.visitors|
            && s'.visitors[h].hello == s.visitors[h].hello && s'.visitors[h].greeted == s.visitors[h].greeted
            && s'.visitors[h].queued == s.visitors[h].queued +
                 if s.serverUp && h == g && ms != [] && ms[0].Packet? then [ms[0].data] else []
  {
    if ms != [] {
      assert ms[1..] == [];
    }
  }

  lemma SocketQueues(s: Tunnel, e: Event, g: nat)
    requires e.VisitorSocket? && Enabled(s, e) && g < |s.visitors|
    ensures Queueing(s, Step(s, e), e, g)
  {
    hide PostAll;
    var v := e.visitor;
    var turn := OnSocket(s.visitors[v].addr, RUNNING, e.found, s.serverUp);
    if turn.task.ended {
      var gone := s.(visitors := s.visitors[v := s.visitors[v].(live := false)]);
      PostsQueue(gone, v, OnDrop(s.visitors[v].addr, turn.task), g);
    } else {
      PostsQueue(s, v, turn.messages, g);
    }
  }

  ghost predicate Queueing(s: Tunnel, s': Tunnel, e: Event, g: nat)
    requires g < |s.visitors|
  {
    && g < |s'.visitors|
    && s'.visitors[g].hello == s.visitors[g].hello
    && (s'.serverUp ==> s.serverUp)
    && (if s.serverUp
        then s'.visitors[g].queued + Due(s'.visitors[g]) == s.visitors[g].queued + Due(s.visitors[g]) + EventData(e, g)
        else s'.visitors[g].queued == s.visitors[g].queued)
  }

  lemma LeaveQueues(s: Tunnel, v: nat, t: Task, g: nat)
    requires v < |s.visitors| && g < |s.visitors|
    ensures var s' := Leave(s, v, t);
            && |s'.visitors| == |s.visitors| && s'.serverUp == s.serverUp
            && s'.visitors[g].hello == s.visitors[g].hello && s'.visitors[g].greeted == s.visitors[g].greeted
            && s'.visitors[g].queued == s.visitors[g].queued
  {
    hide PostAll;
    PostsQueue(s.(visitors := s.visitors[v := s.visitors[v].(live := false)]), v, OnDrop(s.visitors[v].addr, t), g);
  }

  lemma ReceiveQueues(s: Tunnel, e: Event, g: nat)
    requires e.VisitorReceive? && Enabled(s, e) && g < |s.visitors|
    ensures Queueing(s, Step(s, e), e, g)
  {
    hide Leave;
    var v := e.visitor;
    LeaveQueues(s, v, Task(s.visitors[v].rx != [], true), g);
  }

  lemma GreetQueues(s: Tunnel, e: Event, g: nat)
    requires (e.Greet? || e.Arrive?) && Enabled(s, e) && g < |s.visitors|
    ensures Queueing(s, Step(s, e), e, g)
  {
  }

  lemma RecordedQueues(s: Tunnel, m: ClientToProxy, h: nat, g: nat)
    requires h < |s.visitors| && g < |s.visitors|
    ensures var s' := Recorded(s, m, h);
            && |s'.visitors| == |s.visitors| && s'.serverUp == s.serverUp
            && s'.visitors[g].hello == s.visitors[g].hello && s'.visitors[g].greeted == s.visitors[g].greeted
            && s'.visitors[g].queued == s.visitors[g].queued
  {
    hide FirstFree;
  }

  lemma ServerTakesQueues(s: Tunnel, g: nat)
    requires Enabled(s, ServerTakes) && g < |s.visitors|
    ensures Queueing(s, ServerTakesStep(s), ServerTakes, g)
  {
    hide OnInbox, Recorded, Subject, Tagged;
    var m := s.inbox[0].message;
    var subject := Subject(s.table, m);
    if subject.Some? && subject.value < |s.visitors| {
      RecordedQueues(s, m, subject.value, g);
    }
  }

  lemma ServerReadsQueues(s: Tunnel, g: nat)
    requires Enabled(s, ServerReads) && g < |s.visitors|
    ensures Queueing(s, ServerReadsStep(s), ServerReads, g)
  {
    hide RemovingId, Tagged;
  }

  lemma ServerStopsQueues(s: Tunnel, g: nat)
    requires g < |s.visitors| && s.serverUp
    ensures Queueing(s, HaltServer(s), ServerStops, g)
  {
  }

  lemma {:induction false} ReplyKeepsVisitors(s: Tunnel, k: nat, ms: seq<ConnectionMessage>)
    requires k < |s.locals|
    ensures ReplyAll(s, k, ms).visitors == s.visitors && ReplyAll(s, k, ms).serverUp == s.serverUp
    decreases |ms|
  {
    if ms != [] {
      ReplyKeepsVisitors(Reply(s, k, ms[0]), k, ms[1..]);
    }
  }

  lemma ClientQueues(s: Tunnel, e: Event, g: nat)
    requires Enabled(s, e) && g < |s.visitors|
    requires e.ClientTakes? || e.ClientReads? || e.ClientPings? || e.ClientStops?
    ensures Queueing(s, Step(s, e), e, g)
  {
  }

  lemma LeaveKeepsVisitors(s: Tunnel, k: nat, t: Task)
    requires k < |s.locals|
    ensures LeaveLocal(s, k, t).visitors == s.visitors && LeaveLocal(s, k, t).serverUp == s.serverUp
  {
    hide ReplyAll;
    var gone := s.(locals := s.locals[k := s.locals[k].(live := false)]);
    ReplyKeepsVisitors(gone, k, OnConnectionDrop(s.locals[k].id, t));
  }

  lemma LocalQueues(s: Tunnel, e: Event, g: nat)
    requires Enabled(s, e) && g < |s.visitors|
    requires e.Connects? || e.ConnectFails? || e.LocalServer? || e.LocalReceive?
    ensures Queueing(s, Step(s, e), e, g)
  {
    hide ReplyAll, LeaveLocal;
    match e
    case Connects(_) =>
    case ConnectFails(k, error) =>
      var turn := OnConnectError(RUNNING, error);
      ReplyKeepsVisitors(s, k, turn.messages);
      LeaveKeepsVisitors(ReplyAll(s, k, turn.messages), k, turn.task);
    case LocalServer(k, read) =>
      var turn := OnRead(s.locals[k].id, RUNNING, read, s.clientUp);
      ReplyKeepsVisitors(s, k, turn.messages);
      LeaveKeepsVisitors(s, k, turn.task);
    case LocalReceive(k, writable) =>
      LeaveKeepsVisitors(s, k, Task(s.locals[k].rx != [], true));
  }

  lemma EventQueues(s: Tunnel, e: Event, g: nat)
    requires Enabled(s, e) && g < |s.visitors|
    ensures Queueing(s, Step(s, e), e, g)
  {
    hide Queueing, ArriveStep, GreetStep, VisitorSocketStep, VisitorReceiveStep, ServerTakesStep, ServerReadsStep,
      ClientTakesStep, ClientReadsStep, ConnectFailsStep, LocalServerStep, LocalReceiveStep;
    match e
    case VisitorSocket(_, _) => SocketQueues(s, e, g);
    case VisitorReceive(_, _) => ReceiveQueues(s, e, g);
    case Greet(_) => GreetQueues(s, e, g);
    case Arrive(_, _) => GreetQueues(s, e, g);
    case ServerTakes => ServerTakesQueues(s, g);
    case ServerReads => ServerReadsQueues(s, g);
    case ServerStops => ServerStopsQueues(s, g);
    case ClientTakes => ClientQueues(s, e, g);
    case ClientReads => ClientQueues(s, e, g);
    case ClientPings(_) => ClientQueues(s, e, g);
    case ClientStops => ClientQueues(s, e, g);
    case _ => LocalQueues(s, e, g);
  }

  /** Visitors only come by arriving. */
  lemma NewVisitor(s: Tunnel, e: Event, g: nat)
    requires Enabled(s, e) && |s.visitors| <= g
    ensures EventData(e, g) == []
    ensures g < |Step(s, e).visitors| ==>
              && Step(s, e).serverUp
              && Step(s, e).visitors[g].queued == [] && !Step(s, e).visitors[g].greeted
  {
    if e.Arrive? {
    } else {
      SameCountOfVisitors(s, e);
    }
  }

  lemma {:induction false} PostsCount(s: Tunnel, g: nat, ms: seq<ClientToProxy>)
    requires g < |s.visitors|
    ensures |PostAll(s, g, ms).visitors| == |s.visitors|
    decreases |ms|
  {
    if ms != [] {
      PostsCount(Post(s, g, ms[0]), g, ms[1..]);
    }
  }

  lemma SameCountOfVisitors(s: Tunnel, e: Event)
    requires Enabled(s, e) && !e.Arrive?
    ensures |Step(s, e).visitors| == |s.visitors|
  {
    hide PostAll, ReplyAll, FirstFree, LeaveLocal;
    match e
    case VisitorSocket(v, found) =>
      var turn := OnSocket(s.visitors[v].addr, RUNNING, found, s.serverUp);
      var gone := s.(visitors := s.visitors[v := s.visitors[v].(live := false)]);
      PostsCount(gone, v, OnDrop(s.visitors[v].addr, turn.task));
      PostsCount(s, v, turn.messages);
    case VisitorReceive(v, writable) =>
      var gone := s.(visitors := s.visitors[v := s.visitors[v].(live := false)]);
      PostsCount(gone, v, OnDrop(s.visitors[v].addr, Task(s.visitors[v].rx != [], true)));
    case ConnectFails(k, error) =>
      var turn := OnConnectError(RUNNING, error);
      ReplyKeepsVisitors(s, k, turn.messages);
      LeaveKeepsVisitors(ReplyAll(s, k, turn.messages), k, turn.task);
    case LocalServer(k, read) =>
      var turn := OnRead(s.locals[k].id, RUNNING, read, s.clientUp);
      ReplyKeepsVisitors(s, k, turn.messages);
      LeaveKeepsVisitors(s, k, turn.task);
    case LocalReceive(k, writable) =>
      LeaveKeepsVisitors(s, k, Task(s.locals[k].rx != [], true));
    case _ =>
  }

  /** What a Minecraft client queued in a run are payloads its task took from the socket, the hello first. */
  lemma {:induction false} QueuedRun(s: Tunnel, events: seq<Event>, g: nat)
    requires Possible(s, events) && g < |Run(s, events).visitors|
    ensures var v := Run(s, events).visitors[g];
            if g < |s.visitors|
            then v.hello == s.visitors[g].hello
              && if s.serverUp then v.queued <= s.visitors[g].queued + Due(s.visitors[g]) + SocketData(events, g)
                 else v.queued == s.visitors[g].queued
            else v.queued <= [v.hello] + SocketData(events, g)
    decreases |events|
  {
    hide Enabled, Step, EventData;
    if events != [] {
      var e, next := events[0], Step(s, events[0]);
      QueuedRun(next, events[1..], g);
      if g < |s.visitors| {
        EventQueues(s, e, g);
        Associate(s.visitors[g].queued + Due(s.visitors[g]), EventData(e, g), SocketData(events[1..], g));
      } else {
        NewVisitor(s, e, g);
        assert [] + SocketData(events[1..], g) == SocketData(events[1..], g);
      }
    }
  }

  // ----- Theorems -----

  /** What a reader made of the chunks: no error, and a first packet that a Minecraft parser accepted. */
  ghost predicate Session(chunks: seq<seq<byte>>, r: Reader) {
    && |Flatten(chunks)| < 0x8000_0000_0000_0000
    && r == FeedAll(Reader(Protocol.Unknown, [], [], None), chunks)
    && r.failed.None? && r.packets != [] && r.packets[0].MCHello?
    && var first := FirstBuffer([], chunks);
       first.Some? && InMemory(first.value) && AnyHello(first.value).Ok?
  }

  /** The task of a Minecraft client takes from its socket what the decoder delivers, the hello first. */
  predicate TakenFrom(s: Tunnel, events: seq<Event>, g: nat, r: Reader) {
    g < |s.visitors| ==> [s.visitors[g].hello] + SocketData(events, g) <= Payloads(r.packets)
  }

  /**
   * End-to-end transparency towards the local server: in every run, however ids are reused, if a
   * Minecraft client's task takes from its socket what its decoder delivers, and a Minecraft parser
   * accepted its first packet, then the bytes written to the local server are a prefix of the bytes
   * read from that Minecraft client, the hello's first, for every chunking of them.
   */
  lemma BytesReachTheLocalServer(events: seq<Event>, k: nat, chunks: seq<seq<byte>>, r: Reader)
    requires Possible(START, events) && k < |Run(START, events).locals|
    requires Session(chunks, r) && TakenFrom(Run(START, events), events, Run(START, events).locals[k].gen, r)
    ensures Flatten(Run(START, events).locals[k].written) <= Flatten(chunks)
  {
    hide Run, Possible, FeedAll, SocketData, FirstBuffer, AnyHello;
    var s := Run(START, events);
    var g := s.locals[k].gen;
    DownstreamIsolation(events, k);
    QueuedRun(START, events, g);
    var v := s.visitors[g];
    assert s.locals[k].written <= Received(s.locals[k]) <= v.forwarded <= v.queued <= Payloads(r.packets);
    FlattenPrefix(s.locals[k].written, Payloads(r.packets));
    ByteConservation([], chunks);
    assert [] + Flatten(chunks) == Flatten(chunks);
  }

  /** What the codec writes to a Minecraft client's socket for the payloads its task took from its channel. */
  ghost function SocketBytes(written: seq<Payload>): seq<byte> {
    Written(DataPackets(written))
  }

  function DataPackets(written: seq<Payload>): seq<SocketPacket> {
    seq(|written|, i requires 0 <= i < |written| => MCData(MinecraftDataPacket(written[i])))
  }

  lemma SocketBytesAre(written: seq<Payload>)
    ensures SocketBytes(written) == Flatten(written)
  {
    hide Payloads, Written;
    MinecraftIsWritten(DataPackets(written));
    SamePayloads(written);
  }

  lemma SamePayloads(written: seq<Payload>)
    ensures Payloads(DataPackets(written)) == written
  {
  }

  /**
   * End-to-end transparency towards the Minecraft client, in every run that is quiet for payloads: the bytes
   * the codec writes to its socket are a prefix of the bytes the connection of its own generation read from
   * the local server.
   */
  lemma BytesReachTheMinecraftClient(events: seq<Event>, k: nat)
    requires Possible(START, events) && QuietRun(PayloadsOnly, START, events) && k < |Run(START, events).locals|
    ensures var s := Run(START, events);
            var l := s.locals[k];
            && l.gen < |s.visitors| && Flatten(s.visitors[l.gen].written) <= Flatten(l.produced)
            && SocketBytes(s.visitors[l.gen].written) <= Flatten(l.produced)
  {
    hide Run, Possible, QuietRun, SocketBytes, Isolated;
    var s := Run(START, events);
    var g := s.locals[k].gen;
    DownstreamIsolation(events, k);
    UpstreamIsolation(events);
    ItsOwn(s, k);
    var written, produced := s.visitors[g].written, s.locals[k].produced;
    FlattenPrefix(written, produced);
    SocketBytesAre(written);
  }

  lemma ItsOwn(s: Tunnel, k: nat)
    requires Isolated(s) && k < |s.locals| && s.locals[k].gen < |s.visitors|
    ensures s.visitors[s.locals[k].gen].written <= s.locals[k].produced
  {
    var g := s.locals[k].gen;
    assert HasConnection(s.locals, g);
    assert s.visitors[g].written <= Gotten(s.visitors[g]);
  }
}
