/**
 * The whole tunnel as a step system: Minecraft clients, the server's event loop, the two packet
 * streams, the client's event loop and the local connections. Each branch of a select! is one step.
 *
 * A generation is the number of a Minecraft client, which is also the identity of its channel.
 * Messages are tagged with the generation they belong to; no handler ever sees the tag.
 */
module Tunnels {
  import opened Datatypes
  import opened Bytes
  import opened Packets
  import opened Distributors
  import opened ServerHandler
  import opened ClientHandler
  import opened Endpoints
  import opened Lanes

  // ----- State -----

  /** A Minecraft client connected to the server. */
  datatype Visitor = Visitor(
    addr: SocketAddr,
    live: bool,
    greeted: bool,            // the hello's bytes have been queued
    hello: Payload,
    rx: seq<Payload>,         // its channel
    written: seq<Payload>,    // what it got
    queued: seq<Payload>,     // history: what it put in the inbox
    forwarded: seq<Payload>,  // history: what the server forwarded for it
    id: Option<ClientID>)     // history: the id it was given

  /** A connection to the local Minecraft server. */
  datatype Local = Local(
    id: ClientID,
    gen: nat,                 // history: the generation of the join that spawned it
    connected: bool,
    live: bool,
    rx: seq<Payload>,         // its channel
    written: seq<Payload>,    // what the local server got
    produced: seq<Payload>)   // history: what it put in the client's queue

  datatype InboxItem = InboxItem(message: ClientToProxy, gen: nat)
  datatype WireItem = WireItem(packet: SocketPacket, gen: nat)
  datatype ReplyItem = ReplyItem(message: ConnectionMessage, gen: nat)

  datatype Tunnel = Tunnel(
    serverUp: bool,
    table: Table,
    inbox: seq<InboxItem>,
    down: seq<WireItem>,
    up: seq<WireItem>,
    clientUp: bool,
    links: Links,
    replies: seq<ReplyItem>,
    visitors: seq<Visitor>,
    locals: seq<Local>,
    lastGen: View)            // history: the generation that last got each id

  const START: Tunnel := Tunnel(true, EMPTY, [], [], [], true, map[], [], [], [], map[])

  // ----- Events -----

  datatype Event =
    | Arrive(addr: SocketAddr, hello: Payload)
    | Greet(visitor: nat)
    | VisitorSocket(visitor: nat, found: FromSocket)
    | VisitorReceive(visitor: nat, writable: bool)
    | ServerTakes
    | ServerReads
    | ServerStops
    | ClientTakes
    | ClientReads
    | ClientPings(time: u16)
    | ClientStops
    | Connects(local: nat)
    | ConnectFails(local: nat, error: string)
    | LocalServer(local: nat, read: FromServer)
    | LocalReceive(local: nat, writable: bool)

  /** All senders into a visitor's channel are gone. */
  predicate TxGone(s: Tunnel, g: nat) {
    !s.serverUp ||
    (&& (forall a :: a in s.table.clients_addr ==> s.table.clients_addr[a].tx != g)
     && (forall i :: 0 <= i < |s.inbox| && s.inbox[i].message.AddMinecraftClient? ==> s.inbox[i].message.tx != g))
  }

  /** The sender into a local connection's channel is gone. */
  predicate LinkGone(s: Tunnel, k: nat) {
    forall id :: id in s.links ==> s.links[id] != k
  }

  /** At most one live client uses a socket address. */
  predicate AddressFree(s: Tunnel, addr: SocketAddr) {
    forall g :: 0 <= g < |s.visitors| && s.visitors[g].live ==> s.visitors[g].addr != addr
  }

  predicate Enabled(s: Tunnel, e: Event) {
    match e
    case Arrive(addr, _) => s.serverUp && AddressFree(s, addr)
    case Greet(g) => g < |s.visitors| && s.visitors[g].live && !s.visitors[g].greeted
    case VisitorSocket(g, _) => g < |s.visitors| && s.visitors[g].live && s.visitors[g].greeted
    case VisitorReceive(g, _) =>
      g < |s.visitors| && s.visitors[g].live && s.visitors[g].greeted && (s.visitors[g].rx != [] || TxGone(s, g))
    case ServerTakes => s.serverUp && s.inbox != []
    case ServerReads => s.serverUp && s.up != []
    case ServerStops => s.serverUp
    case ClientTakes => s.clientUp && s.replies != []
    case ClientReads => s.clientUp && s.down != []
    case ClientPings(_) => s.clientUp
    case ClientStops => s.clientUp
    case Connects(k) => k < |s.locals| && s.locals[k].live && !s.locals[k].connected
    case ConnectFails(k, _) => k < |s.locals| && s.locals[k].live && !s.locals[k].connected
    case LocalServer(k, read) =>
      k < |s.locals| && s.locals[k].live && s.locals[k].connected && (read.Read? ==> |read.data| <= 1024)
    case LocalReceive(k, _) =>
      k < |s.locals| && s.locals[k].live && s.locals[k].connected && (s.locals[k].rx != [] || LinkGone(s, k))
  }

  // ----- Visitors -----

  /** A visitor sends to the server's inbox; once the server is gone sending has no effect. */
  function Post(s: Tunnel, g: nat, m: ClientToProxy): Tunnel
    requires g < |s.visitors|
  {
    if !s.serverUp then s
    else
      var v := s.visitors[g];
      s.(inbox := s.inbox + [InboxItem(m, g)],
         visitors := s.visitors[g := if m.Packet? then v.(queued := v.queued + [m.data]) else v])
  }

  function PostAll(s: Tunnel, g: nat, ms: seq<ClientToProxy>): Tunnel
    requires g < |s.visitors|
    decreases |ms|
  {
    if ms == [] then s else PostAll(Post(s, g, ms[0]), g, ms[1..])
  }

  /** A visitor's task ends and is dropped. */
  function Leave(s: Tunnel, g: nat, t: Task): Tunnel
    requires g < |s.visitors|
  {
    PostAll(s.(visitors := s.visitors[g := s.visitors[g].(live := false)]), g, OnDrop(s.visitors[g].addr, t))
  }

  function ArriveStep(s: Tunnel, addr: SocketAddr, hello: Payload): Tunnel {
    var g := |s.visitors|;
    s.(visitors := s.visitors + [Visitor(addr, true, false, hello, [], [], [], [], None)],
       inbox := s.inbox + [InboxItem(AddMinecraftClient(addr, g), g)])
  }

  /** Without a server the visitor's constructor fails and there is no task to drop. */
  function GreetStep(s: Tunnel, g: nat): Tunnel
    requires g < |s.visitors|
  {
    var v := s.visitors[g];
    if s.serverUp
    then Post(s.(visitors := s.visitors[g := v.(greeted := true)]), g, Packet(v.addr, v.hello))
    else s.(visitors := s.visitors[g := v.(live := false)])
  }

  function VisitorSocketStep(s: Tunnel, g: nat, found: FromSocket): Tunnel
    requires g < |s.visitors|
  {
    var turn := OnSocket(s.visitors[g].addr, RUNNING, found, s.serverUp);
    if turn.task.ended then Leave(s, g, turn.task) else PostAll(s, g, turn.messages)
  }

  /** A payload that cannot be written is lost with the channel. */
  function VisitorReceiveStep(s: Tunnel, g: nat, writable: bool): Tunnel
    requires g < |s.visitors|
  {
    var v := s.visitors[g];
    var turn: Turn<ClientToProxy> := OnReceive(RUNNING, if v.rx == [] then None else Some(v.rx[0]), writable);
    if turn.task.ended then Leave(s, g, turn.task)
    else
      var rest := if v.rx == [] then [] else v.rx[1..];
      s.(visitors := s.visitors[g := v.(rx := rest, written := v.written + turn.written)])
  }

  // ----- The server's loop -----

  function HaltServer(s: Tunnel): Tunnel {
    s.(serverUp := false, inbox := [])
  }

  function Tagged(ps: seq<SocketPacket>, gen: nat): seq<WireItem> {
    seq(|ps|, i requires 0 <= i < |ps| => WireItem(ps[i], gen))
  }

  /** The visitor a message is about. */
  function Subject(t: Table, m: ClientToProxy): Option<nat> {
    match m
    case AddMinecraftClient(_, tx) => Some(tx)
    case Packet(addr, _) => (match LookupAddr(t, addr) case Some(client) => Some(client.tx) case None => None)
    case RemoveMinecraftClient(addr) =>
      (match LookupAddr(t, addr) case Some(client) => Some(client.tx) case None => None)
    case Close => None
  }

  /** The histories a taken message extends. */
  function Recorded(s: Tunnel, m: ClientToProxy, g: nat): Tunnel
    requires g < |s.visitors|
  {
    var v := s.visitors[g];
    match m
    case AddMinecraftClient(addr, tx) =>
      (match Inserting(s.table, addr, tx)
       case Some((_, client)) =>
         s.(visitors := s.visitors[g := v.(id := Some(client.id))], lastGen := s.lastGen[client.id := g])
       case None => s)
    case Packet(_, data) => s.(visitors := s.visitors[g := v.(forwarded := v.forwarded + [data])])
    case _ => s
  }

  function ServerTakesStep(s: Tunnel): Tunnel
    requires s.inbox != []
  {
    var m := s.inbox[0].message;
    var r := OnInbox(s.table, m);
    if !r.running then HaltServer(s)
    else
      match Subject(s.table, m)
      case Some(g) =>
        var s' := if g < |s.visitors| then Recorded(s, m, g) else s;
        s'.(inbox := s.inbox[1..], table := r.table, down := s.down + Tagged(r.sends, g))
      case None => s.(inbox := s.inbox[1..], table := r.table, down := s.down + Tagged(r.sends, 0))
  }

  /** A payload for a visitor whose receiver is gone is dropped. */
  function Deliver(s: Tunnel, d: Delivery): Tunnel {
    if d.tx < |s.visitors| && s.visitors[d.tx].live
    then s.(visitors := s.visitors[d.tx := s.visitors[d.tx].(rx := s.visitors[d.tx].rx + [d.data])])
    else s
  }

  function ServerReadsStep(s: Tunnel): Tunnel
    requires s.up != []
  {
    var r := OnPacket(s.table, s.up[0].packet);
    var s' := s.(up := s.up[1..], table := r.table, down := s.down + Tagged(r.sends, 0));
    match r.delivery case Some(d) => Deliver(s', d) case None => s'
  }

  // ----- The client's loop -----

  function HaltClient(s: Tunnel): Tunnel {
    s.(clientUp := false, links := map[], replies := [])
  }

  function ClientTakesStep(s: Tunnel): Tunnel
    requires s.replies != []
  {
    var r := OnMessage(s.links, s.replies[0].message);
    if !r.running then HaltClient(s)
    else s.(replies := s.replies[1..], links := r.links, up := s.up + Tagged(r.sends, s.replies[0].gen))
  }

  /** The channels whose connection has ended. */
  function Closed(ls: seq<Local>): set<Channel> {
    set k: nat | k < |ls| && !ls[k].live
  }

  function Forward(s: Tunnel, d: Delivery): Tunnel {
    if d.tx < |s.locals|
    then s.(locals := s.locals[d.tx := s.locals[d.tx].(rx := s.locals[d.tx].rx + [d.data])])
    else s
  }

  function ClientReadsStep(s: Tunnel): Tunnel
    requires s.down != []
  {
    var r := OnProxyPacket(s.links, s.down[0].packet, |s.locals|, Closed(s.locals));
    if !r.running then HaltClient(s)
    else
      var s' := s.(down := s.down[1..], links := r.links);
      match r.spawned
      case Some(id) => s'.(locals := s.locals + [Local(id, s.down[0].gen, false, true, [], [], [])])
      case None => match r.forward case Some(d) => Forward(s', d) case None => s'
  }

  // ----- Local connections -----

  function Reply(s: Tunnel, k: nat, m: ConnectionMessage): (s': Tunnel)
    requires k < |s.locals|
    ensures |s'.locals| == |s.locals|
  {
    if !s.clientUp then s
    else
      var l := s.locals[k];
      s.(replies := s.replies + [ReplyItem(m, l.gen)],
         locals := s.locals[k := if m.FromConnection? then l.(produced := l.produced + [m.data]) else l])
  }

  function ReplyAll(s: Tunnel, k: nat, ms: seq<ConnectionMessage>): (s': Tunnel)
    requires k < |s.locals|
    ensures |s'.locals| == |s.locals|
    decreases |ms|
  {
    if ms == [] then s else ReplyAll(Reply(s, k, ms[0]), k, ms[1..])
  }

  function LeaveLocal(s: Tunnel, k: nat, t: Task): Tunnel
    requires k < |s.locals|
  {
    ReplyAll(s.(locals := s.locals[k := s.locals[k].(live := false)]), k, OnConnectionDrop(s.locals[k].id, t))
  }

  function ConnectFailsStep(s: Tunnel, k: nat, error: string): Tunnel
    requires k < |s.locals|
  {
    var turn := OnConnectError(RUNNING, error);
    LeaveLocal(ReplyAll(s, k, turn.messages), k, turn.task)
  }

  function LocalServerStep(s: Tunnel, k: nat, read: FromServer): Tunnel
    requires k < |s.locals|
  {
    var turn := OnRead(s.locals[k].id, RUNNING, read, s.clientUp);
    if turn.task.ended then LeaveLocal(s, k, turn.task) else ReplyAll(s, k, turn.messages)
  }

  function LocalReceiveStep(s: Tunnel, k: nat, writable: bool): Tunnel
    requires k < |s.locals|
  {
    var l := s.locals[k];
    var turn: Turn<ConnectionMessage> := OnReceive(RUNNING, if l.rx == [] then None else Some(l.rx[0]), writable);
    if turn.task.ended then LeaveLocal(s, k, turn.task)
    else
      var rest := if l.rx == [] then [] else l.rx[1..];
      s.(locals := s.locals[k := l.(rx := rest, written := l.written + turn.written)])
  }

  // ----- Runs -----

  function Step(s: Tunnel, e: Event): Tunnel
    requires Enabled(s, e)
  {
    match e
    case Arrive(addr, hello) => ArriveStep(s, addr, hello)
    case Greet(g) => GreetStep(s, g)
    case VisitorSocket(g, found) => VisitorSocketStep(s, g, found)
    case VisitorReceive(g, writable) => VisitorReceiveStep(s, g, writable)
    case ServerTakes => ServerTakesStep(s)
    case ServerReads => ServerReadsStep(s)
    case ServerStops => HaltServer(s)
    case ClientTakes => ClientTakesStep(s)
    case ClientReads => ClientReadsStep(s)
    case ClientPings(time) => s.(up := s.up + [WireItem(ProxyPing(time), 0)])
    case ClientStops => HaltClient(s)
    case Connects(k) => s.(locals := s.locals[k := s.locals[k].(connected := true)])
    case ConnectFails(k, error) => ConnectFailsStep(s, k, error)
    case LocalServer(k, read) => LocalServerStep(s, k, read)
    case LocalReceive(k, writable) => LocalReceiveStep(s, k, writable)
  }

  /** A run: every event is enabled when it happens. */
  predicate Possible(s: Tunnel, events: seq<Event>)
    decreases |events|
  {
    events == [] || (Enabled(s, events[0]) && Possible(Step(s, events[0]), events[1..]))
  }

  function Run(s: Tunnel, events: seq<Event>): Tunnel
    requires Possible(s, events)
    decreases |events|
  {
    if events == [] then s else Run(Step(s, events[0]), events[1..])
  }

  // ----- The lanes -----

  function InboxMark(i: InboxItem): Mark {
    match i.message
    case AddMinecraftClient(addr, _) => Open(addr, i.gen)
    case Packet(addr, data) => Use(addr, i.gen, data)
    case RemoveMinecraftClient(addr) => Shut(addr, i.gen)
    case Close => Blank
  }

  function WireMark(i: WireItem): Mark {
    match i.packet
    case ProxyJoin(id) => Open(id, i.gen)
    case ProxyData(d) => Use(d.client_id, i.gen, d.packet.data)
    case ProxyDisconnect(id) => Shut(id, i.gen)
    case _ => Blank
  }

  function ReplyMark(i: ReplyItem): Mark {
    match i.message
    case FromConnection(id, data) => Use(id, i.gen, data)
    case RemoveConnection(id) => Shut(id, i.gen)
    case Death(_) => Blank
  }

  function InboxLane(q: seq<InboxItem>): (lane: Lane)
    ensures |lane| == |q| && forall i :: 0 <= i < |q| ==> lane[i] == InboxMark(q[i])
  {
    seq(|q|, i requires 0 <= i < |q| => InboxMark(q[i]))
  }

  function WireLane(q: seq<WireItem>): (lane: Lane)
    ensures |lane| == |q| && forall i :: 0 <= i < |q| ==> lane[i] == WireMark(q[i])
  {
    seq(|q|, i requires 0 <= i < |q| => WireMark(q[i]))
  }

  function ReplyLane(q: seq<ReplyItem>): (lane: Lane)
    ensures |lane| == |q| && forall i :: 0 <= i < |q| ==> lane[i] == ReplyMark(q[i])
  {
    seq(|q|, i requires 0 <= i < |q| => ReplyMark(q[i]))
  }

  function Received(l: Local): seq<Payload> {
    l.written + l.rx
  }

  function Gotten(v: Visitor): seq<Payload> {
    v.written + v.rx
  }
}
