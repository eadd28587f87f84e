/**
 * What the two event loops do, case by case: every turn as its effect on table, ids, wires and channels, when
 * exactly a loop stops, and that every ping is answered.
 */
module LoopSteps {
  import opened Datatypes
  import opened Bytes
  import opened Minecraft
  import opened Packets
  import opened Distributors
  import opened ServerHandler
  import opened Tunnels
  import opened Isolation
  import opened WireSizes

  // ----- The server's inbox -----

  predicate AllTaken(t: Table) {
    forall id: ClientID :: id <= 255 ==> id in t.clients_id
  }

  predicate LeastFree(t: Table, id: ClientID) {
    id <= 255 && id !in t.clients_id && forall j: ClientID :: j < id ==> j in t.clients_id
  }

  /** A new client gets the least free id, which is joined; without a free id the loop stops. */
  lemma ServerAddsClient(s: Tunnel, id: ClientID)
    requires Enabled(s, ServerTakes) && s.inbox[0].message.AddMinecraftClient?
    ensures var addr, tx := s.inbox[0].message.addr, s.inbox[0].message.tx;
            var s' := Step(s, ServerTakes);
            && (AllTaken(s.table) ==> s' == s.(serverUp := false, inbox := []))
            && (LeastFree(s.table, id) ==>
                  && s'.serverUp && s'.inbox == s.inbox[1..]
                  && s'.table == Table(s.table.clients_addr[addr := MinecraftClient(tx, id)],
                                       s.table.clients_id[id := addr])
                  && s'.down == s.down + [WireItem(ProxyJoin(id), tx)])
  {
    var found := FirstFree(s.table.clients_id.Keys, 0);
    hide FirstFree;
    if LeastFree(s.table, id) {
      assert found == Some(id);
    }
    if AllTaken(s.table) {
      assert found == None;
    }
    WireGrows(s.down, ProxyJoin(id), s.inbox[0].message.tx);
  }

  /** A payload goes out under its client's id; from an address that is not registered it stops the loop. */
  lemma ServerForwardsPayload(s: Tunnel)
    requires Enabled(s, ServerTakes) && s.inbox[0].message.Packet?
    ensures var addr, data := s.inbox[0].message.addr, s.inbox[0].message.data;
            var s' := Step(s, ServerTakes);
            if addr in s.table.clients_addr
            then
              var client := s.table.clients_addr[addr];
              && s'.serverUp && s'.inbox == s.inbox[1..] && s'.table == s.table
              && s'.down
                 == s.down + [WireItem(ProxyData(ProxyDataPacket(client.id, MinecraftDataPacket(data))), client.tx)]
            else s' == s.(serverUp := false, inbox := [])
  {
    var addr, data := s.inbox[0].message.addr, s.inbox[0].message.data;
    if addr in s.table.clients_addr {
      var client := s.table.clients_addr[addr];
      WireGrows(s.down, DataPacket(client.id, data), client.tx);
    }
  }

  /** A removal disconnects its client's id and frees it; for an address that is not registered nothing happens. */
  lemma ServerRemovesClient(s: Tunnel)
    requires Enabled(s, ServerTakes) && s.inbox[0].message.RemoveMinecraftClient?
    ensures var addr := s.inbox[0].message.addr;
            var s' := Step(s, ServerTakes);
            if addr in s.table.clients_addr
            then
              var client := s.table.clients_addr[addr];
              s' == s.(inbox := s.inbox[1..],
                       table := Table(s.table.clients_addr - {addr}, s.table.clients_id - {client.id}),
                       down := s.down + [WireItem(ProxyDisconnect(client.id), client.tx)])
            else s' == s.(inbox := s.inbox[1..])
  {
    var addr := s.inbox[0].message.addr;
    if addr in s.table.clients_addr {
      var client := s.table.clients_addr[addr];
      WireGrows(s.down, ProxyDisconnect(client.id), client.tx);
    } else {
      WireGrows(s.down, UnknownPacket, 0);
    }
  }

  /** What the server's loop is told to stop on: a payload it cannot place, or a client too many. */
  lemma ServerStopsExactly(s: Tunnel)
    requires Enabled(s, ServerTakes) || Enabled(s, ServerReads)
    ensures Enabled(s, ServerReads) ==> Step(s, ServerReads).serverUp
    ensures Enabled(s, ServerTakes) ==>
              (!Step(s, ServerTakes).serverUp <==>
                 match s.inbox[0].message
                 case AddMinecraftClient(_, _) => AllTaken(s.table)
                 case Packet(addr, _) => addr !in s.table.clients_addr
                 case RemoveMinecraftClient(_) => false
                 case Close => true)
  {
    hide FirstFree;
    var found := FirstFree(s.table.clients_id.Keys, 0);
    assert found.None? <==> AllTaken(s.table);
  }

  // ----- Packets from the client -----

  /** A payload reaches the client of its id, if that is still there; one for an unknown id is dropped. */
  lemma ServerReadsPayload(s: Tunnel)
    requires Enabled(s, ServerReads) && s.up[0].packet.ProxyData?
    ensures var d := s.up[0].packet.proxyData;
            var s' := Step(s, ServerReads);
            if d.client_id in s.table.clients_id && s.table.clients_id[d.client_id] in s.table.clients_addr
            then
              var tx := s.table.clients_addr[s.table.clients_id[d.client_id]].tx;
              s' == s.(up := s.up[1..],
                       visitors :=
                         if tx < |s.visitors| && s.visitors[tx].live
                         then s.visitors[tx := s.visitors[tx].(rx := s.visitors[tx].rx + [d.packet.data])]
                         else s.visitors)
            else s' == s.(up := s.up[1..])
  {
    WireGrows(s.down, UnknownPacket, 0);
  }

  /** A disconnect frees the id and sends nothing, a ping is answered, and everything else is passed over. */
  lemma ServerReadsOthers(s: Tunnel)
    requires Enabled(s, ServerReads) && !s.up[0].packet.ProxyData?
    ensures var s' := Step(s, ServerReads);
            match s.up[0].packet
            case ProxyDisconnect(id) =>
              s' == s.(up := s.up[1..],
                       table := if id in s.table.clients_id
                                then Table(s.table.clients_addr - {s.table.clients_id[id]}, s.table.clients_id - {id})
                                else s.table)
            case ProxyPing(time) => s' == s.(up := s.up[1..], down := s.down + [WireItem(ProxyPong(time), 0)])
            case _ => s' == s.(up := s.up[1..])
  {
    var p := s.up[0].packet;
    WireGrows(s.down, if p.ProxyPing? then ProxyPong(p.ping) else p, 0);
  }

  // ----- The client's queue -----

  /** A payload goes out under its id, a removal as a disconnect that also forgets the id, and a death stops. */
  lemma ClientTakesReply(s: Tunnel)
    requires Enabled(s, ClientTakes)
    ensures var i := s.replies[0];
            var s' := Step(s, ClientTakes);
            match i.message
            case FromConnection(id, data) =>
              s' == s.(replies := s.replies[1..],
                       up := s.up + [WireItem(ProxyData(ProxyDataPacket(id, MinecraftDataPacket(data))), i.gen)])
            case RemoveConnection(id) =>
              s' == s.(replies := s.replies[1..], links := s.links - {id},
                       up := s.up + [WireItem(ProxyDisconnect(id), i.gen)])
            case Death(_) => s' == s.(clientUp := false, links := map[], replies := [])
  {
    var i := s.replies[0];
    match i.message
    case FromConnection(id, data) => WireGrows(s.up, DataPacket(id, data), i.gen);
    case RemoveConnection(id) => WireGrows(s.up, ProxyDisconnect(id), i.gen);
    case Death(_) =>
  }

  // ----- Packets from the server -----

  /** A join opens a connection, whatever its id led to before; a disconnect forgets the id. */
  lemma ClientReadsControl(s: Tunnel)
    requires Enabled(s, ClientReads)
    ensures var i := s.down[0];
            var s' := Step(s, ClientReads);
            && (i.packet.ProxyJoin? ==>
                  var id := i.packet.joined;
                  s' == s.(down := s.down[1..], links := s.links[id := |s.locals|],
                           locals := s.locals + [Local(id, i.gen, false, true, [], [], [])]))
            && (i.packet.ProxyDisconnect? ==>
                  s' == s.(down := s.down[1..], links := s.links - {i.packet.disconnected}))
            && (i.packet.ProxyPong? ==> s' == s.(down := s.down[1..]))
  {
  }

  /**
   * A payload goes to the connection of its id; if that has ended the id is forgotten, and if there is none
   * the client stops, as it does on any packet it does not expect.
   */
  lemma ClientReadsPayload(s: Tunnel)
    requires Enabled(s, ClientReads)
    requires var p := s.down[0].packet; !p.ProxyJoin? && !p.ProxyDisconnect? && !p.ProxyPong?
    requires forall id :: id in s.links ==> s.links[id] < |s.locals|
    ensures var p := s.down[0].packet;
            var s' := Step(s, ClientReads);
            if p.ProxyData? && p.proxyData.client_id in s.links
            then
              var id, data := p.proxyData.client_id, p.proxyData.packet.data;
              var l := s.locals[s.links[id]];
              s' == if l.live
                    then s.(down := s.down[1..], locals := s.locals[s.links[id] := l.(rx := l.rx + [data])])
                    else s.(down := s.down[1..], links := s.links - {id})
            else s' == s.(clientUp := false, links := map[], replies := [])
  {
  }

  /** What stops the client's loop: a payload for an id it does not know and packets it does not expect. */
  lemma ClientStopsExactly(s: Tunnel)
    requires Enabled(s, ClientTakes) || Enabled(s, ClientReads)
    ensures Enabled(s, ClientTakes) ==> (!Step(s, ClientTakes).clientUp <==> s.replies[0].message.Death?)
    ensures Enabled(s, ClientReads) ==>
              (!Step(s, ClientReads).clientUp <==>
                 match s.down[0].packet
                 case ProxyJoin(_) => false
                 case ProxyData(d) => d.client_id !in s.links
                 case ProxyDisconnect(_) => false
                 case ProxyPong(_) => false
                 case _ => true)
  {
  }

  // ----- Pings -----

  function Pings(ps: seq<SocketPacket>): seq<u16> {
    if ps == [] then [] else (if ps[0].ProxyPing? then [ps[0].ping] else []) + Pings(ps[1..])
  }

  function Pongs(ps: seq<SocketPacket>): seq<u16> {
    if ps == [] then [] else (if ps[0].ProxyPong? then [ps[0].pong] else []) + Pongs(ps[1..])
  }

  lemma PingsCons(p: SocketPacket, ps: seq<SocketPacket>)
    ensures Pings([p] + ps) == (if p.ProxyPing? then [p.ping] else []) + Pings(ps)
    ensures Pongs([p] + ps) == (if p.ProxyPong? then [p.pong] else []) + Pongs(ps)
  {
    assert ([p] + ps)[1..] == ps;
  }

  /** An event reads at most one packet from the client and sends at most one to it. */
  lemma OneEach(s: Tunnel, e: Event)
    requires Enabled(s, e)
    ensures |OldUp(s, e)| <= 1 && |NewDown(s, e)| <= 1
    ensures if OldUp(s, e) != [] && OldUp(s, e)[0].ProxyPing?
            then NewDown(s, e) == [ProxyPong(OldUp(s, e)[0].ping)]
            else NewDown(s, e) == [] || !NewDown(s, e)[0].ProxyPong?
  {
    hide FirstFree;
  }

  /** In every run, the pongs the server sends are the pings it reads, in order and with their times. */
  lemma {:induction false} PingsAreAnswered(s: Tunnel, events: seq<Event>)
    requires Possible(s, events)
    ensures Pongs(SentDown(s, events)) == Pings(TakenUp(s, events))
    decreases |events|
  {
    hide Enabled, Step, NewDown, OldUp, Pings, Pongs;
    if events == [] {
      NoPings();
    } else {
      var e, next, others := events[0], Step(s, events[0]), events[1..];
      var sent, taken := NewDown(s, e), OldUp(s, e);
      OneEach(s, e);
      PingsAreAnswered(next, others);
      if sent != [] {
        assert sent == [sent[0]];
        PingsCons(sent[0], SentDown(next, others));
      } else {
        assert sent + SentDown(next, others) == SentDown(next, others);
      }
      if taken != [] {
        assert taken == [taken[0]];
        PingsCons(taken[0], TakenUp(next, others));
      } else {
        assert taken + TakenUp(next, others) == TakenUp(next, others);
      }
    }
  }

  lemma NoPings()
    ensures Pings([]) == [] && Pongs([]) == []
  {
  }
}
