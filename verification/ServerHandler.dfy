/** The server's half of the tunnel (server/src/proxy_handler.rs). */
module ServerHandler {
  import opened Datatypes
  import opened Bytes
  import opened Minecraft
  import opened Packets
  import opened Distributors

  type Payload = seq<byte>

  /** What Minecraft clients put in the server's inbox. */
  datatype ClientToProxy =
    | Packet(addr: SocketAddr, data: Payload)
    | AddMinecraftClient(addr: SocketAddr, tx: Channel)
    | RemoveMinecraftClient(addr: SocketAddr)
    | Close

  datatype Delivery = Delivery(tx: Channel, data: Payload)

  /** The effect of one branch of the event loop. */
  datatype Reaction = Reaction(table: Table, sends: seq<SocketPacket>, delivery: Option<Delivery>, running: bool)

  function DataPacket(id: ClientID, data: Payload): SocketPacket {
    ProxyData(ProxyDataPacket(id, MinecraftDataPacket(data)))
  }

  function OnInbox(t: Table, m: ClientToProxy): Reaction {
    match m
    case Close => Reaction(t, [], None, false)
    case AddMinecraftClient(addr, tx) =>
      (match Inserting(t, addr, tx)
       case Some((t', client)) => Reaction(t', [ProxyJoin(client.id)], None, true)
       case None => Reaction(t, [], None, false))
    case Packet(addr, data) =>
      (match LookupAddr(t, addr)
       case Some(client) => Reaction(t, [DataPacket(client.id, data)], None, true)
       case None => Reaction(t, [], None, false))
    case RemoveMinecraftClient(addr) =>
      (match LookupAddr(t, addr)
       case Some(client) => Reaction(RemovingAddr(t, addr), [ProxyDisconnect(client.id)], None, true)
       case None => Reaction(RemovingAddr(t, addr), [], None, true))
  }

  function OnPacket(t: Table, p: SocketPacket): Reaction {
    match p
    case ProxyDisconnect(id) => Reaction(RemovingId(t, id), [], None, true)
    case ProxyData(d) =>
      (match LookupId(t, d.client_id)
       case Some(client) => Reaction(t, [], Some(Delivery(client.tx, d.packet.data)), true)
       case None => Reaction(t, [], None, true))
    case ProxyPing(time) => Reaction(t, [ProxyPong(time)], None, true)
    case _ => Reaction(t, [], None, true)
  }

  /** The event loop's state: its table, what it wrote to the wire and to the clients' channels. */
  class ProxyClient {
    const distributor: Distribiutor
    var sent: seq<SocketPacket>
    var delivered: seq<Delivery>

    constructor ()
      ensures fresh(distributor) && distributor.Contents() == EMPTY && sent == [] && delivered == []
    {
      distributor := new Distribiutor();
      sent := [];
      delivered := [];
    }

    method Send(p: SocketPacket)
      modifies this`sent
      ensures sent == old(sent) + [p]
    {
      sent := sent + [p];
    }

    /** One message of the inbox; `running` tells whether the loop goes on. */
    method HandleMessage(m: ClientToProxy) returns (running: bool)
      modifies this, distributor
      ensures var r := OnInbox(old(distributor.Contents()), m);
              && running == r.running && distributor.Contents() == r.table
              && sent == old(sent) + r.sends && delivered == old(delivered)
    {
      match m
      case Close =>
        return false;
      case AddMinecraftClient(addr, tx) =>
        var client := distributor.Insert(addr, tx);
        if client.None? {
          return false;
        }
        Send(ProxyJoin(client.value.id));
        return true;
      case Packet(addr, data) =>
        var client := distributor.GetByAddr(addr);
        if client.None? {
          return false;
        }
        Send(DataPacket(client.value.id, data));
        return true;
      case RemoveMinecraftClient(addr) =>
        var client := distributor.GetByAddr(addr);
        if client.Some? {
          Send(ProxyDisconnect(client.value.id));
        }
        distributor.RemoveByAddr(addr);
        return true;
    }

    /** One packet from the proxy client. */
    method HandlePacket(p: SocketPacket)
      modifies this, distributor
      ensures var r := OnPacket(old(distributor.Contents()), p);
              && distributor.Contents() == r.table && sent == old(sent) + r.sends
              && delivered == old(delivered) + match r.delivery { case Some(d) => [d] case None => [] }
    {
      match p {
        case ProxyDisconnect(id) =>
          distributor.RemoveById(id);
        case ProxyData(packet) =>
          var client := distributor.GetById(packet.client_id);
          if client.Some? {
            delivered := delivered + [Delivery(client.value.tx, packet.packet.data)];
          }
        case ProxyPing(time) =>
          Send(ProxyPong(time));
        case _ =>
      }
    }
  }

  // ----- Per-id wire grammar -----

  datatype ServerEvent = FromInbox(message: ClientToProxy) | FromWire(packet: SocketPacket)

  function React(t: Table, e: ServerEvent): Reaction {
    match e
    case FromInbox(m) => OnInbox(t, m)
    case FromWire(p) => OnPacket(t, p)
  }

  /** Everything the loop sends until it stops or runs out of events. */
  function Sends(t: Table, events: seq<ServerEvent>): seq<SocketPacket>
    decreases |events|
  {
    if events == [] then []
    else
      var r := React(t, events[0]);
      r.sends + if r.running then Sends(r.table, events[1..]) else []
  }

  /** `open` tells whether a join for the id was sent that no disconnect followed. */
  predicate Grammar(id: ClientID, open: bool, ps: seq<SocketPacket>)
    decreases |ps|
  {
    if ps == [] then true
    else
      match ps[0]
      case ProxyJoin(i) => Grammar(id, open || i == id, ps[1..])
      case ProxyData(d) => (d.client_id == id ==> open) && Grammar(id, open, ps[1..])
      case ProxyDisconnect(i) => (i == id ==> open) && Grammar(id, open && i != id, ps[1..])
      case _ => Grammar(id, open, ps[1..])
  }

  /** Registered clients own their id, even when an address is added twice. */
  ghost predicate Owned(t: Table) {
    forall a :: a in t.clients_addr ==>
      t.clients_addr[a].id in t.clients_id && t.clients_id[t.clients_addr[a].id] == a
  }

  lemma OwnedStays(t: Table, e: ServerEvent)
    requires Owned(t)
    ensures Owned(React(t, e).table)
  {
  }

  /** Whether a join for the id is open after a packet was sent. */
  predicate OpenAfter(id: ClientID, open: bool, p: SocketPacket) {
    match p
    case ProxyJoin(i) => open || i == id
    case ProxyDisconnect(i) => open && i != id
    case _ => open
  }

  /** Each event sends at most one packet, which the grammar allows at this point. */
  lemma OneSend(t: Table, e: ServerEvent, id: ClientID, open: bool)
    requires Owned(t) && (id in t.clients_id ==> open)
    ensures var r := React(t, e);
            && (id in r.table.clients_id ==> if r.sends == [] then open else OpenAfter(id, open, r.sends[0]))
            && (r.sends == [] || (r.sends == [r.sends[0]] &&
                  match r.sends[0]
                  case ProxyData(d) => d.client_id == id ==> open
                  case ProxyDisconnect(i) => i == id ==> open
                  case _ => true))
  {
    hide FirstFree;
  }

  lemma GrammarCons(id: ClientID, open: bool, p: SocketPacket, ps: seq<SocketPacket>)
    requires match p
             case ProxyData(d) => d.client_id == id ==> open
             case ProxyDisconnect(i) => i == id ==> open
             case _ => true
    requires Grammar(id, OpenAfter(id, open, p), ps)
    ensures Grammar(id, open, [p] + ps)
  {
    assert ([p] + ps)[1..] == ps;
  }

  /**
   * In every run, whatever arrives, the packets sent for an id form (Join Data* Disconnect?)*:
   * data and disconnects only follow a join that no disconnect has ended.
   */
  lemma {:induction false} WireGrammar(t: Table, events: seq<ServerEvent>, id: ClientID, open: bool)
    requires Owned(t) && (id in t.clients_id ==> open)
    ensures Grammar(id, open, Sends(t, events))
    decreases |events|
  {
    hide React, OpenAfter, Owned;
    if events != [] {
      var r := React(t, events[0]);
      OwnedStays(t, events[0]);
      OneSend(t, events[0], id, open);
      var more := if r.running then Sends(r.table, events[1..]) else [];
      var open' := if r.sends == [] then open else OpenAfter(id, open, r.sends[0]);
      if r.running {
        WireGrammar(r.table, events[1..], id, open');
      }
      if r.sends == [] {
        assert Sends(t, events) == more;
      } else {
        GrammarCons(id, open, r.sends[0], more);
      }
    }
  }
}
