/** The client's half of the tunnel (client/src/client.rs). */
module ClientHandler {
  import opened Datatypes
  import opened Packets
  import opened Distributors
  import opened ServerHandler

  /** What local connections send to the client's event loop. */
  datatype ConnectionMessage =
    | FromConnection(id: ClientID, data: Payload)
    | RemoveConnection(id: ClientID)
    | Death(error: string)

  type Links = map<ClientID, Channel>

  datatype ClientReaction = ClientReaction(
    links: Links, sends: seq<SocketPacket>, spawned: Option<ClientID>, forward: Option<Delivery>, running: bool)

  function OnMessage(links: Links, m: ConnectionMessage): ClientReaction {
    match m
    case FromConnection(id, data) => ClientReaction(links, [DataPacket(id, data)], None, None, true)
    case RemoveConnection(id) => ClientReaction(links - {id}, [ProxyDisconnect(id)], None, None, true)
    case Death(_) => ClientReaction(links, [], None, None, false)
  }

  /** `next` is the channel of a new connection; sending into a `closed` channel forgets it. */
  function OnProxyPacket(links: Links, p: SocketPacket, next: Channel, closed: set<Channel>): ClientReaction {
    match p
    case ProxyJoin(id) => ClientReaction(links[id := next], [], Some(id), None, true)
    case ProxyData(d) =>
      if d.client_id !in links then ClientReaction(links, [], None, None, false)
      else if links[d.client_id] in closed then ClientReaction(links - {d.client_id}, [], None, None, true)
      else ClientReaction(links, [], None, Some(Delivery(links[d.client_id], d.packet.data)), true)
    case ProxyDisconnect(id) => ClientReaction(links - {id}, [], None, None, true)
    case ProxyPong(_) => ClientReaction(links, [], None, None, true)
    case _ => ClientReaction(links, [], None, None, false)
  }

  class State {
    var connections: Links

    constructor ()
      ensures connections == map[]
    {
      connections := map[];
    }

    method AddConnection(id: ClientID, tx: Channel)
      modifies this
      ensures connections == old(connections)[id := tx]
    {
      connections := connections[id := tx];
    }

    method RemoveConnection(id: ClientID)
      modifies this
      ensures connections == old(connections) - {id}
    {
      connections := connections - {id};
    }

    /** Fails for an unknown id; a closed channel is forgotten without an error. */
    method SendTo(id: ClientID, data: Payload, closed: set<Channel>) returns (found: bool, sent: Option<Delivery>)
      modifies this
      ensures found == (id in old(connections))
      ensures sent == if found && old(connections)[id] !in closed then Some(Delivery(old(connections)[id], data))
                      else None
      ensures connections == if found && old(connections)[id] in closed then old(connections) - {id}
                             else old(connections)
    {
      if id !in connections {
        return false, None;
      }
      if connections[id] in closed {
        connections := connections - {id};
        return true, None;
      }
      return true, Some(Delivery(connections[id], data));
    }
  }

  class Client {
    const state: State
    var sent: seq<SocketPacket>
    var forwarded: seq<Delivery>
    var spawned: seq<ClientID>

    constructor ()
      ensures fresh(state) && state.connections == map[] && sent == [] && forwarded == [] && spawned == []
    {
      state := new State();
      sent := [];
      forwarded := [];
      spawned := [];
    }

    /** One message of a local connection; `running` tells whether the loop goes on. */
    method HandleMessage(m: ConnectionMessage) returns (running: bool)
      modifies this, state
      ensures var r := OnMessage(old(state.connections), m);
              && running == r.running && state.connections == r.links && sent == old(sent) + r.sends
              && forwarded == old(forwarded) && spawned == old(spawned)
    {
      match m
      case FromConnection(id, data) =>
        sent := sent + [DataPacket(id, data)];
        return true;
      case RemoveConnection(id) =>
        sent := sent + [ProxyDisconnect(id)];
        state.RemoveConnection(id);
        return true;
      case Death(_) =>
        return false;
    }

    /** One packet of the proxy. */
    method HandlePacket(p: SocketPacket, next: Channel, closed: set<Channel>) returns (running: bool)
      modifies this, state
      ensures var r := OnProxyPacket(old(state.connections), p, next, closed);
              && running == r.running && state.connections == r.links && sent == old(sent) + r.sends
              && forwarded == old(forwarded) + (match r.forward { case Some(d) => [d] case None => [] })
              && spawned == old(spawned) + match r.spawned { case Some(id) => [id] case None => [] }
    {
      match p
      case ProxyJoin(id) =>
        state.AddConnection(id, next);
        spawned := spawned + [id];
        return true;
      case ProxyData(d) =>
        var found, delivery := state.SendTo(d.client_id, d.packet.data, closed);
        if delivery.Some? {
          forwarded := forwarded + [delivery.value];
        }
        return found;
      case ProxyDisconnect(id) =>
        state.RemoveConnection(id);
        return true;
      case ProxyPong(_) =>
        return true;
      case _ =>
        return false;
    }
  }
}
