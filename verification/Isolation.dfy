/**
 * Every event keeps the invariant, and what follows for the direction from the server to the
 * client: a local connection gets exactly what was forwarded for its own Minecraft client.
 */
module Isolation {
  import opened Datatypes
  import opened Packets
  import opened Distributors
  import opened ServerHandler
  import opened ClientHandler
  import opened Endpoints
  import opened Lanes
  import opened Tunnels
  import opened Invariants

  // ----- Pieces -----

  /** Visitors change without taking an address or forwarding what they did not queue. */
  ghost predicate SafeChange(v: Visitor, w: Visitor) {
    && w.addr == v.addr && (w.live ==> v.live)
    && w.forwarded <= w.queued && (w.id.None? ==> w.forwarded == [])
  }

  lemma VisitorChanges(vs: seq<Visitor>, g: nat, w: Visitor)
    requires VisitorsOk(vs) && g < |vs| && SafeChange(vs[g], w)
    ensures VisitorsOk(vs[g := w])
  {
  }

  lemma WireGrows(down: seq<WireItem>, p: SocketPacket, gen: nat)
    ensures WireLane(down + Tagged([p], gen)) == WireLane(down) + [WireMark(WireItem(p, gen))]
    ensures Tagged([p], gen) == [WireItem(p, gen)]
    ensures down + Tagged([], gen) == down
  {
  }

  lemma OwnersJoin(t: Table, view: View, addr: SocketAddr, g: nat)
    requires Bijective(t) && OwnersAgree(t, view) && addr !in t.clients_addr && Inserting(t, addr, g).Some?
    ensures var (t', client) := Inserting(t, addr, g).value; OwnersAgree(t', view[client.id as nat := g])
  {
    OperationRefines(t, Add(addr, g));
    Inserted(t, addr, g);
  }

  /** Fewer addresses or fewer ids never make the sides disagree. */
  lemma OwnersFewer(t: Table, t': Table, view: View, fewer: View)
    requires OwnersAgree(t, view) && Within(fewer, view)
    requires forall a :: a in t'.clients_addr ==> a in t.clients_addr && t'.clients_addr[a] == t.clients_addr[a]
    ensures OwnersAgree(t', fewer)
  {
  }

  // ----- Visitors -----

  lemma Arrives(s: Tunnel, addr: SocketAddr, hello: Payload)
    requires Inv(s) && Enabled(s, Arrive(addr, hello))
    ensures Inv(ArriveStep(s, addr, hello))
  {
    hide ServerOk, ClientOk, OwnersAgree, Final, Consistent, UsesOf, TableView, LinkView;
    var g := |s.visitors|;
    var v := Visitor(addr, true, false, hello, [], [], [], [], None);
    ServerArrives(s.table, InboxLane(s.inbox), s.visitors, v);
    ClientFrame(s.links, WireLane(s.down), s.visitors, s.visitors + [v], s.locals);
    assert InboxLane(s.inbox + [InboxItem(AddMinecraftClient(addr, g), g)]) == InboxLane(s.inbox) + [Open(addr, g)];
  }

  lemma PostsPacket(s: Tunnel, g: nat, data: Payload)
    requires Inv(s) && g < |s.visitors| && s.visitors[g].live
    ensures Inv(Post(s, g, Packet(s.visitors[g].addr, data)))
  {
    hide ServerOk, ClientOk, OwnersAgree, Final, Consistent, UsesOf, TableView, LinkView, VisitorsOk;
    var v := s.visitors[g];
    var m := Packet(v.addr, data);
    if s.serverUp {
      var w := v.(queued := v.queued + [data]);
      ServerPosts(s.table, InboxLane(s.inbox), s.visitors, g, data);
      ClientFrame(s.links, WireLane(s.down), s.visitors, s.visitors[g := w], s.locals);
      Queues(s.visitors, g, data);
      assert InboxLane(s.inbox + [InboxItem(m, g)]) == InboxLane(s.inbox) + [Use(v.addr, g, data)];
    }
  }

  lemma Queues(vs: seq<Visitor>, g: nat, data: Payload)
    requires VisitorsOk(vs) && g < |vs|
    ensures VisitorsOk(vs[g := vs[g].(queued := vs[g].queued + [data])])
  {
    VisitorChanges(vs, g, vs[g].(queued := vs[g].queued + [data]));
  }

  /** A visitor that ends by itself says so. */
  lemma LeavesLoudly(s: Tunnel, g: nat)
    requires Inv(s) && g < |s.visitors| && s.visitors[g].live
    ensures Inv(Leave(s, g, Task(true, true)))
  {
    hide ServerOk, ClientOk, OwnersAgree, Final, Consistent, UsesOf, TableView, LinkView, VisitorsOk;
    var v := s.visitors[g];
    var vs := s.visitors[g := v.(live := false)];
    var m := RemoveMinecraftClient(v.addr);
    var gone := s.(visitors := vs);
    assert OnDrop(v.addr, Task(true, true)) == [m];
    assert PostAll(gone, g, [m]) == PostAll(Post(gone, g, m), g, []) == Post(gone, g, m);
    Ends(s.visitors, g);
    ClientFrame(s.links, WireLane(s.down), s.visitors, vs, s.locals);
    if s.serverUp {
      ServerLeaves(s.table, InboxLane(s.inbox), s.visitors, g);
      assert InboxLane(s.inbox + [InboxItem(m, g)]) == InboxLane(s.inbox) + [Shut(v.addr, g)];
      assert Post(gone, g, m).visitors == vs;
    }
  }

  lemma Ends(vs: seq<Visitor>, g: nat)
    requires VisitorsOk(vs) && g < |vs|
    ensures VisitorsOk(vs[g := vs[g].(live := false)])
  {
    VisitorChanges(vs, g, vs[g].(live := false));
  }

  /** A visitor that nobody can reach ends without a word. */
  lemma LeavesSilently(s: Tunnel, g: nat)
    requires Inv(s) && g < |s.visitors| && TxGone(s, g)
    ensures Inv(Leave(s, g, Task(false, true)))
    ensures !s.serverUp ==> Inv(s.(visitors := s.visitors[g := s.visitors[g].(live := false)]))
  {
    hide ServerOk, ClientOk, OwnersAgree, Final, Consistent, UsesOf, TableView, LinkView, VisitorsOk;
    var vs := s.visitors[g := s.visitors[g].(live := false)];
    Ends(s.visitors, g);
    ClientFrame(s.links, WireLane(s.down), s.visitors, vs, s.locals);
    if s.serverUp {
      forall i | 0 <= i < |InboxLane(s.inbox)| && InboxLane(s.inbox)[i].Open? ensures InboxLane(s.inbox)[i].gen != g {
        assert OwnChannel(s.inbox[i]);
      }
      ServerForgot(s.table, InboxLane(s.inbox), s.visitors, g);
    }
  }

  /** What a visitor does with its channel and its socket concerns nobody else. */
  lemma VisitorsMove(s: Tunnel, ws: seq<Visitor>)
    requires Inv(s) && SameVisitors(s.visitors, ws)
    ensures Inv(s.(visitors := ws))
  {
    hide ServerOk, ClientOk, OwnersAgree, Final, Consistent, UsesOf, TableView, LinkView;
    ClientFrame(s.links, WireLane(s.down), s.visitors, ws, s.locals);
    if s.serverUp {
      ServerFrame(s.table, InboxLane(s.inbox), s.visitors, ws);
    }
  }

  lemma Greets(s: Tunnel, g: nat)
    requires Inv(s) && Enabled(s, Greet(g))
    ensures Inv(GreetStep(s, g))
  {
    hide Inv;
    var v := s.visitors[g];
    if s.serverUp {
      var greeted := s.(visitors := s.visitors[g := v.(greeted := true)]);
      VisitorsMove(s, greeted.visitors);
      PostsPacket(greeted, g, v.hello);
    } else {
      LeavesSilently(s, g);
    }
  }

  lemma SocketTurns(s: Tunnel, g: nat, found: FromSocket)
    requires Inv(s) && Enabled(s, VisitorSocket(g, found))
    ensures Inv(VisitorSocketStep(s, g, found))
  {
    hide Inv;
    var addr := s.visitors[g].addr;
    var turn := OnSocket(addr, RUNNING, found, s.serverUp);
    if turn.task.ended {
      LeavesLoudly(s, g);
    } else if found.Data? {
      var m := Packet(addr, found.data);
      assert PostAll(s, g, [m]) == PostAll(Post(s, g, m), g, []) == Post(s, g, m);
      PostsPacket(s, g, found.data);
    } else {
      assert PostAll(s, g, []) == s;
    }
  }

  lemma ReceiveTurns(s: Tunnel, g: nat, writable: bool)
    requires Inv(s) && Enabled(s, VisitorReceive(g, writable))
    ensures Inv(VisitorReceiveStep(s, g, writable))
  {
    hide Inv;
    var v := s.visitors[g];
    if v.rx == [] {
      LeavesSilently(s, g);
    } else if writable {
      VisitorsMove(s, s.visitors[g := v.(rx := v.rx[1..], written := v.written + [v.rx[0]])]);
    } else {
      LeavesLoudly(s, g);
    }
  }

  // ----- The server's loop -----

  lemma InboxShrinks(q: seq<InboxItem>)
    requires q != []
    ensures InboxLane(q)[0] == InboxMark(q[0]) && InboxLane(q)[1..] == InboxLane(q[1..])
  {
  }

  lemma WireShrinks(q: seq<WireItem>)
    requires q != []
    ensures WireLane(q)[0] == WireMark(q[0]) && WireLane(q)[1..] == WireLane(q[1..])
  {
  }

  lemma Identified(vs: seq<Visitor>, g: nat, id: ClientID)
    requires VisitorsOk(vs) && g < |vs|
    ensures VisitorsOk(vs[g := vs[g].(id := Some(id))])
  {
    VisitorChanges(vs, g, vs[g].(id := Some(id)));
  }

  lemma ServerTakesJoin(s: Tunnel)
    requires Inv(s) && s.serverUp && s.inbox != [] && s.inbox[0].message.AddMinecraftClient?
    requires OnInbox(s.table, s.inbox[0].message).running
    ensures s.inbox[0].message.addr !in s.table.clients_addr
    ensures Inv(ServerTakesStep(s))
  {
    hide InboxTagged, DownTagged, LocalsOk, LinksOk, NothingLost, HoldersLive, OwnersAgree, Final, Consistent,
      UsesOf, TableView, LinkView, VisitorsOk, Bijective, FirstFree, Inserting;
    var addr, g := s.inbox[0].message.addr, s.inbox[0].gen;
    var lane, view := WireLane(s.down), LinkView(s.links, s.locals);
    assert OwnChannel(s.inbox[0]);
    InboxShrinks(s.inbox);
    TaggedHead(s);
    ServerAdds(s.table, InboxLane(s.inbox), s.visitors);
    OwnersJoin(s.table, Final(view, lane), addr, g);
    var (t', client) := Inserting(s.table, addr, g).value;
    ClientJoined(s.links, lane, s.visitors, s.locals, g, client.id);
    AppendMark(AllMessages, view, lane, Open(client.id, g));
    Identified(s.visitors, g, client.id);
    WireGrows(s.down, ProxyJoin(client.id), g);
  }

  /** The next message is tagged with a visitor, who is not yet known when it is announced. */
  lemma TaggedHead(s: Tunnel)
    requires Inv(s) && s.serverUp && s.inbox != []
    ensures s.inbox[0].gen < |s.visitors|
    ensures s.inbox[0].message.AddMinecraftClient? ==> s.visitors[s.inbox[0].gen].id.None?
  {
    hide ServerOk, ClientOk, OwnersAgree, Final, Consistent, UsesOf, TableView, LinkView, VisitorsOk;
    assert OwnChannel(s.inbox[0]);
    InboxShrinks(s.inbox);
    TaggedFirst(s.table, InboxLane(s.inbox), s.visitors);
  }

  lemma TaggedFirst(t: Table, lane: Lane, vs: seq<Visitor>)
    requires ServerOk(t, lane, vs) && lane != [] && !lane[0].Blank?
    ensures lane[0].gen < |vs| && (lane[0].Open? ==> vs[lane[0].gen].id.None?)
  {
    hide TableOk, HoldersLive, NothingLost, Final, Consistent, TableView;
  }

  /** Registered addresses lead to visitors that know their id. */
  lemma Registered(s: Tunnel, a: SocketAddr)
    requires Inv(s) && s.serverUp && a in s.table.clients_addr
    ensures var client := s.table.clients_addr[a];
            client.tx < |s.visitors| && s.visitors[client.tx].id == Some(client.id)
  {
    hide ClientOk, OwnersAgree, Final, Consistent, UsesOf, TableView, LinkView, VisitorsOk, InboxTagged,
      HoldersLive, NothingLost, Bijective;
  }

  lemma OwnerOf(t: Table, view: View, a: SocketAddr)
    requires OwnersAgree(t, view) && a in t.clients_addr
    ensures var client := t.clients_addr[a]; client.id as nat in view ==> view[client.id as nat] == client.tx
  {
  }

  lemma Forwarded(t: Table, lane: Lane, vs: seq<Visitor>, g: nat, data: Payload)
    requires VisitorsOk(vs) && g < |vs| && vs[g].id.Some?
    requires ServerOk(t, lane, vs[g := vs[g].(forwarded := vs[g].forwarded + [data])])
    ensures VisitorsOk(vs[g := vs[g].(forwarded := vs[g].forwarded + [data])])
  {
    hide TableOk, InboxTagged, HoldersLive, Final, Consistent, UsesOf, TableView;
    var w := vs[g].(forwarded := vs[g].forwarded + [data]);
    assert w == vs[g := w][g] && w.queued == w.forwarded + UsesOf(lane, g);
    VisitorChanges(vs, g, w);
  }

  lemma ServerTakesPacket(s: Tunnel)
    requires Inv(s) && s.serverUp && s.inbox != [] && s.inbox[0].message.Packet?
    requires OnInbox(s.table, s.inbox[0].message).running
    ensures Inv(ServerTakesStep(s))
  {
    hide ServerOk, ClientOk, OwnersAgree, Final, Consistent, UsesOf, TableView, LinkView, VisitorsOk;
    var addr, data, g := s.inbox[0].message.addr, s.inbox[0].message.data, s.inbox[0].gen;
    var lane, view := WireLane(s.down), LinkView(s.links, s.locals);
    var client := s.table.clients_addr[addr];
    InboxShrinks(s.inbox);
    Registered(s, addr);
    OwnerOf(s.table, Final(view, lane), addr);
    ServerForwards(s.table, InboxLane(s.inbox), s.visitors);
    Forwarded(s.table, InboxLane(s.inbox[1..]), s.visitors, g, data);
    ClientSent(s.links, lane, s.visitors, s.locals, g, client.id, data);
    AppendMark(AllMessages, view, lane, Use(client.id, g, data));
    WireGrows(s.down, DataPacket(client.id, data), g);
  }

  lemma ServerTakesRemove(s: Tunnel)
    requires Inv(s) && s.serverUp && s.inbox != [] && s.inbox[0].message.RemoveMinecraftClient?
    ensures Inv(ServerTakesStep(s))
  {
    hide ServerOk, ClientOk, OwnersAgree, Final, Consistent, UsesOf, TableView, LinkView, VisitorsOk;
    var addr, g := s.inbox[0].message.addr, s.inbox[0].gen;
    var lane, view := WireLane(s.down), LinkView(s.links, s.locals);
    var t' := RemovingAddr(s.table, addr);
    InboxShrinks(s.inbox);
    ServerRemoves(s.table, InboxLane(s.inbox), s.visitors);
    if addr in s.table.clients_addr {
      var client := s.table.clients_addr[addr];
      Registered(s, addr);
      OwnerOf(s.table, Final(view, lane), addr);
      ClientParted(s.links, lane, s.visitors, s.locals, g, client.id);
      AppendMark(AllMessages, view, lane, Shut(client.id, g));
      OwnersFewer(s.table, t', Final(view, lane), Final(view, lane + [Shut(client.id, g)]));
      WireGrows(s.down, ProxyDisconnect(client.id), g);
    } else {
      OwnersFewer(s.table, t', Final(view, lane), Final(view, lane));
      WireGrows(s.down, UnknownPacket, 0);
    }
  }

  lemma ServerTurns(s: Tunnel)
    requires Inv(s) && Enabled(s, ServerTakes)
    ensures Inv(ServerTakesStep(s))
  {
    hide ServerOk, ClientOk, OwnersAgree, Final, Consistent, UsesOf, TableView, LinkView, VisitorsOk, FirstFree;
    if OnInbox(s.table, s.inbox[0].message).running {
      assert OwnChannel(s.inbox[0]);
      match s.inbox[0].message
      case AddMinecraftClient(_, _) => ServerTakesJoin(s);
      case Packet(_, _) => ServerTakesPacket(s);
      case RemoveMinecraftClient(_) => ServerTakesRemove(s);
    }
  }

  lemma ServerHears(s: Tunnel)
    requires Inv(s) && Enabled(s, ServerReads)
    ensures Inv(ServerReadsStep(s))
  {
    hide ServerOk, ClientOk, OwnersAgree, Final, Consistent, UsesOf, TableView, LinkView, VisitorsOk;
    var p := s.up[0].packet;
    var r := OnPacket(s.table, p);
    var lane, view := WireLane(s.down), LinkView(s.links, s.locals);
    WireGrows(s.down, if r.sends == [] then p else r.sends[0], 0);
    match p {
      case ProxyDisconnect(id) =>
        ServerFrees(s.table, InboxLane(s.inbox), s.visitors, id);
        OwnersFewer(s.table, r.table, Final(view, lane), Final(view, lane));
      case ProxyPing(time) =>
        assert r.sends == [ProxyPong(time)];
        ClientBlank(s.links, lane, s.visitors, s.locals);
        AppendMark(AllMessages, view, lane, Blank);
      case ProxyData(_) =>
        var s' := s.(up := s.up[1..]);
        assert Inv(s');
        if r.delivery.Some? {
          VisitorsMove(s', Deliver(s', r.delivery.value).visitors);
        }
      case _ =>
    }
  }

  lemma ServerEnds(s: Tunnel)
    requires Inv(s)
    ensures Inv(HaltServer(s))
  {
    hide ServerOk, ClientOk, OwnersAgree, Final, Consistent, UsesOf, TableView, LinkView, VisitorsOk;
  }

  // ----- The client's loop -----

  lemma ClientForgetsLinks(s: Tunnel, fewer: Links)
    requires Inv(s)
    requires forall id :: id in fewer ==> id in s.links && s.links[id] == fewer[id]
    ensures Inv(s.(links := fewer))
  {
    hide ServerOk, ClientOk, OwnersAgree, Final, Consistent, UsesOf, TableView, LinkView, VisitorsOk;
    var lane := WireLane(s.down);
    ClientForgets(s.links, fewer, lane, s.visitors, s.locals);
    if s.serverUp {
      OwnersFewer(s.table, s.table, Final(LinkView(s.links, s.locals), lane), Final(LinkView(fewer, s.locals), lane));
    }
  }

  lemma ClientEnds(s: Tunnel)
    requires Inv(s)
    ensures Inv(HaltClient(s))
  {
    hide ServerOk, ClientOk, OwnersAgree, Final, Consistent, UsesOf, TableView, LinkView, VisitorsOk;
    ClientForgetsLinks(s, map[]);
  }

  lemma ClientTurns(s: Tunnel)
    requires Inv(s) && Enabled(s, ClientTakes)
    ensures Inv(ClientTakesStep(s))
  {
    hide ServerOk, ClientOk, OwnersAgree, Final, Consistent, UsesOf, TableView, LinkView, VisitorsOk;
    match s.replies[0].message
    case FromConnection(_, _) =>
    case RemoveConnection(id) => ClientForgetsLinks(s, s.links - {id});
    case Death(_) => ClientEnds(s);
  }

  lemma ClientHearsJoin(s: Tunnel)
    requires Inv(s) && s.down != [] && s.down[0].packet.ProxyJoin?
    ensures Inv(ClientReadsStep(s))
  {
    hide ServerOk, ClientOk, OwnersAgree, Consistent, UsesOf, TableView, LinkView, VisitorsOk;
    var id := s.down[0].packet.joined;
    var l := Local(id, s.down[0].gen, false, true, [], [], []);
    WireShrinks(s.down);
    ClientOpens(s.links, WireLane(s.down), s.visitors, s.locals, id, l);
  }

  lemma ClientHearsData(s: Tunnel)
    requires Inv(s) && s.down != [] && s.down[0].packet.ProxyData?
    ensures Inv(ClientReadsStep(s))
  {
    hide ServerOk, ClientOk, OwnersAgree, Consistent, UsesOf, TableView, LinkView, VisitorsOk;
    var id, data := s.down[0].packet.proxyData.client_id, s.down[0].packet.proxyData.packet.data;
    var lane, view := WireLane(s.down), LinkView(s.links, s.locals);
    WireShrinks(s.down);
    if id !in s.links {
      ClientEnds(s);
    } else if s.links[id] in Closed(s.locals) {
      ClientMisses(s.links, lane, s.visitors, s.locals, id);
      if s.serverUp {
        OwnersFewer(s.table, s.table, Final(view, lane), Final(LinkView(s.links - {id}, s.locals), lane[1..]));
      }
    } else {
      var k := s.links[id];
      LinkKnown(s, id);
      var l := s.locals[k].(rx := s.locals[k].rx + [data]);
      ClientDelivers(s.links, lane, s.visitors, s.locals, id, l);
    }
  }

  lemma LinkKnown(s: Tunnel, id: ClientID)
    requires Inv(s) && id in s.links
    ensures s.links[id] < |s.locals| && s.locals[s.links[id]].id == id
  {
    hide ServerOk, OwnersAgree, Consistent, Final, UsesOf, TableView, LinkView, VisitorsOk, DownTagged, LocalsOk;
  }

  lemma ClientHearsDisconnect(s: Tunnel)
    requires Inv(s) && s.down != [] && s.down[0].packet.ProxyDisconnect?
    ensures Inv(ClientReadsStep(s))
  {
    hide ServerOk, ClientOk, OwnersAgree, Consistent, UsesOf, TableView, LinkView, VisitorsOk;
    WireShrinks(s.down);
    ClientShuts(s.links, WireLane(s.down), s.visitors, s.locals, s.down[0].packet.disconnected);
  }

  lemma ClientHears(s: Tunnel)
    requires Inv(s) && Enabled(s, ClientReads)
    ensures Inv(ClientReadsStep(s))
  {
    hide ServerOk, ClientOk, OwnersAgree, Final, Consistent, UsesOf, TableView, LinkView, VisitorsOk;
    match s.down[0].packet
    case ProxyJoin(_) => ClientHearsJoin(s);
    case ProxyData(_) => ClientHearsData(s);
    case ProxyDisconnect(_) => ClientHearsDisconnect(s);
    case ProxyPong(_) =>
      WireShrinks(s.down);
      ClientSkips(s.links, WireLane(s.down), s.visitors, s.locals);
    case _ => ClientEnds(s);
  }

  // ----- Local connections -----

  /** What a connection does with its channel, its socket and the client's queue keeps what it received. */
  lemma LocalsMove(s: Tunnel, s': Tunnel)
    requires Inv(s) && SameReceived(s.locals, s'.locals)
    requires s' == s.(locals := s'.locals, replies := s'.replies)
    ensures Inv(s')
  {
    hide ServerOk, ClientOk, OwnersAgree, Final, Consistent, UsesOf, TableView, LinkView, VisitorsOk;
    ClientLocals(s.links, WireLane(s.down), s.visitors, s.locals, s'.locals);
  }

  lemma {:induction false} Replies(s: Tunnel, k: nat, ms: seq<ConnectionMessage>)
    requires Inv(s) && k < |s.locals|
    ensures Inv(ReplyAll(s, k, ms))
    decreases |ms|
  {
    hide Inv;
    if ms != [] {
      LocalsMove(s, Reply(s, k, ms[0]));
      Replies(Reply(s, k, ms[0]), k, ms[1..]);
    }
  }

  lemma LocalLeaves(s: Tunnel, k: nat, t: Task)
    requires Inv(s) && k < |s.locals|
    ensures Inv(LeaveLocal(s, k, t))
  {
    hide Inv;
    var gone := s.(locals := s.locals[k := s.locals[k].(live := false)]);
    LocalsMove(s, gone);
    Replies(gone, k, OnConnectionDrop(s.locals[k].id, t));
  }

  lemma ConnectFailsTurns(s: Tunnel, k: nat, error: string)
    requires Inv(s) && Enabled(s, ConnectFails(k, error))
    ensures Inv(ConnectFailsStep(s, k, error))
  {
    hide Inv, ReplyAll, LeaveLocal;
    var turn := OnConnectError(RUNNING, error);
    Replies(s, k, turn.messages);
    LocalLeaves(ReplyAll(s, k, turn.messages), k, turn.task);
  }

  lemma LocalServerTurns(s: Tunnel, k: nat, read: FromServer)
    requires Inv(s) && Enabled(s, LocalServer(k, read))
    ensures Inv(LocalServerStep(s, k, read))
  {
    hide Inv, ReplyAll, LeaveLocal;
    var turn := OnRead(s.locals[k].id, RUNNING, read, s.clientUp);
    LocalLeaves(s, k, turn.task);
    Replies(s, k, turn.messages);
  }

  lemma LocalReceiveTurns(s: Tunnel, k: nat, writable: bool)
    requires Inv(s) && Enabled(s, LocalReceive(k, writable))
    ensures Inv(LocalReceiveStep(s, k, writable))
  {
    hide Inv, LeaveLocal;
    var l := s.locals[k];
    LocalLeaves(s, k, Task(l.rx != [], true));
    if l.rx != [] && writable {
      LocalsMove(s, LocalReceiveStep(s, k, writable));
    }
  }

  lemma ConnectsTurns(s: Tunnel, k: nat)
    requires Inv(s) && Enabled(s, Connects(k))
    ensures Inv(Step(s, Connects(k)))
  {
    hide Inv;
    LocalsMove(s, Step(s, Connects(k)));
  }

  // ----- Every run -----

  lemma InvStep(s: Tunnel, e: Event)
    requires Inv(s) && Enabled(s, e)
    ensures Inv(Step(s, e))
  {
    hide Inv, ArriveStep, GreetStep, VisitorSocketStep, VisitorReceiveStep, ServerTakesStep, ServerReadsStep,
      ClientTakesStep, ClientReadsStep, ConnectFailsStep, LocalServerStep, LocalReceiveStep;
    match e
    case Arrive(addr, hello) => Arrives(s, addr, hello);
    case Greet(g) => Greets(s, g);
    case VisitorSocket(g, found) => SocketTurns(s, g, found);
    case VisitorReceive(g, writable) => ReceiveTurns(s, g, writable);
    case ServerTakes => ServerTurns(s);
    case ServerReads => ServerHears(s);
    case ServerStops => ServerEnds(s);
    case ClientTakes => ClientTurns(s);
    case ClientReads => ClientHears(s);
    case ClientPings(time) => UpIsFree(s, s.up + [WireItem(ProxyPing(time), 0)]);
    case ClientStops => ClientEnds(s);
    case Connects(k) => ConnectsTurns(s, k);
    case ConnectFails(k, error) => ConnectFailsTurns(s, k, error);
    case LocalServer(k, read) => LocalServerTurns(s, k, read);
    case LocalReceive(k, writable) => LocalReceiveTurns(s, k, writable);
  }

  lemma UpIsFree(s: Tunnel, up: seq<WireItem>)
    requires Inv(s)
    ensures Inv(s.(up := up))
  {
    hide ServerOk, ClientOk, OwnersAgree, Final, Consistent, UsesOf, TableView, LinkView, VisitorsOk;
  }

  lemma {:induction false} InvRun(s: Tunnel, events: seq<Event>)
    requires Inv(s) && Possible(s, events)
    ensures Inv(Run(s, events))
    decreases |events|
  {
    hide Inv, Enabled, Step;
    if events != [] {
      InvStep(s, events[0]);
      InvRun(Step(s, events[0]), events[1..]);
    }
  }

  // ----- Theorems -----

  /**
   * Isolation and order from the server to the client, in every run, however ids are reused: what a
   * local connection wrote to the local server, followed by what waits in its channel, is a prefix of
   * what the server forwarded for the connection's own Minecraft client, which is in turn a prefix of
   * what that client queued. No two connections belong to the same Minecraft client.
   */
  lemma DownstreamIsolation(events: seq<Event>, k: nat)
    requires Possible(START, events) && k < |Run(START, events).locals|
    ensures var s := Run(START, events);
            && s.locals[k].gen < |s.visitors|
            && Received(s.locals[k]) <= s.visitors[s.locals[k].gen].forwarded <= s.visitors[s.locals[k].gen].queued
            && (forall m :: 0 <= m < |s.locals| && m != k ==> s.locals[m].gen != s.locals[k].gen)
            && s.visitors[s.locals[k].gen].id == Some(s.locals[k].id)
  {
    hide Run, Possible, TableOk, InboxTagged, HoldersLive, NothingLost, DownTagged, LinksOk, OwnersAgree, Final,
      Consistent, UsesOf, TableView, LinkView;
    StartOk(START);
    InvRun(START, events);
  }

  /** The server only ever registers addresses that are not registered, so its table stays a bijection. */
  lemma OnlyAbsentAddresses(events: seq<Event>)
    requires Possible(START, events)
    ensures var s := Run(START, events);
            s.serverUp ==>
              && Bijective(s.table) && |s.table.clients_addr| <= 256
              && (s.inbox != [] && s.inbox[0].message.AddMinecraftClient? ==>
                    s.inbox[0].message.addr !in s.table.clients_addr)
  {
    hide Run, Possible, ServerOk, ClientOk, OwnersAgree, Final, Consistent, UsesOf, TableView, LinkView, VisitorsOk,
      Bijective;
    StartOk(START);
    InvRun(START, events);
    var s := Run(START, events);
    if s.serverUp {
      TableBijective(s);
      FullAt256(s.table, 0, 0);
      if s.inbox != [] && s.inbox[0].message.AddMinecraftClient? {
        AddressAbsent(s);
      }
    }
  }

  lemma AddressAbsent(s: Tunnel)
    requires Inv(s) && s.serverUp && s.inbox != [] && s.inbox[0].message.AddMinecraftClient?
    ensures s.inbox[0].message.addr !in s.table.clients_addr
  {
    hide ServerOk, ClientOk, OwnersAgree, Final, Consistent, UsesOf, TableView, LinkView, VisitorsOk, Bijective;
    InboxShrinks(s.inbox);
    ServerAdds(s.table, InboxLane(s.inbox), s.visitors);
  }

  /** The visitor a removal comes from is registered exactly when its address is, and then under its own channel. */
  lemma RemovalIsOwn(s: Tunnel)
    requires Inv(s) && s.serverUp && s.inbox != [] && s.inbox[0].message.RemoveMinecraftClient?
    ensures var addr, g, t := s.inbox[0].message.addr, s.inbox[0].gen, s.table;
            && (addr in t.clients_addr ==> t.clients_addr[addr].tx == g)
            && (forall a :: a in t.clients_addr && t.clients_addr[a].tx == g ==> a == addr)
  {
    hide ClientOk, OwnersAgree, Final, Consistent, UsesOf, TableView, LinkView, VisitorsOk, HoldersLive,
      NothingLost, Bijective;
    InboxShrinks(s.inbox);
    ServerRemoves(s.table, InboxLane(s.inbox), s.visitors);
    assert InboxLane(s.inbox)[0] == InboxMark(s.inbox[0]);
  }

  /**
   * Removals in every run, however late they are taken and whoever has got the address or the id since:
   * while the client the removal comes from is registered, exactly its own entry goes and exactly one
   * disconnect, for its id, is sent; once it is not, the removal does nothing at all.
   */
  lemma LateRemoval(events: seq<Event>)
    requires Possible(START, events)
    requires var s := Run(START, events); s.serverUp && s.inbox != [] && s.inbox[0].message.RemoveMinecraftClient?
    ensures var s := Run(START, events);
            var addr, g := s.inbox[0].message.addr, s.inbox[0].gen;
            var s' := Step(s, ServerTakes);
            if addr in s.table.clients_addr
            then
              var client := s.table.clients_addr[addr];
              && client.tx == g && Bijective(s.table)
              && s'.down == s.down + [WireItem(ProxyDisconnect(client.id), g)]
              && s'.table == Table(s.table.clients_addr - {addr}, s.table.clients_id - {client.id})
            else
              && (forall a :: a in s.table.clients_addr ==> s.table.clients_addr[a].tx != g)
              && s' == s.(inbox := s.inbox[1..])
  {
    hide Run, Possible, Inv, Bijective;
    StartOk(START);
    InvRun(START, events);
    var s := Run(START, events);
    RemovalIsOwn(s);
    TableBijective(s);
    var addr := s.inbox[0].message.addr;
    if addr in s.table.clients_addr {
      WireGrows(s.down, ProxyDisconnect(s.table.clients_addr[addr].id), s.inbox[0].gen);
    } else {
      WireGrows(s.down, UnknownPacket, 0);
    }
  }

  lemma TableBijective(s: Tunnel)
    requires Inv(s) && s.serverUp
    ensures Bijective(s.table)
  {
    hide ClientOk, OwnersAgree, Final, Consistent, UsesOf, TableView, LinkView, VisitorsOk, InboxTagged,
      HoldersLive, NothingLost, Bijective;
  }

  /** A linked client's payloads are exactly received, on the way down or still in the inbox. */
  lemma DownstreamConservation(events: seq<Event>, id: ClientID)
    requires Possible(START, events)
    requires var s := Run(START, events); s.serverUp && id in s.links
    ensures var s := Run(START, events);
            var k := s.links[id];
            && k < |s.locals| && s.locals[k].gen < |s.visitors|
            && var g := s.locals[k].gen;
               s.visitors[g].queued ==
                 Received(s.locals[k]) + UsesOf(WireLane(s.down), g) + UsesOf(InboxLane(s.inbox), g)
  {
    hide Run, Possible, TableOk, InboxTagged, HoldersLive, DownTagged, LocalsOk, OwnersAgree, Final, Consistent,
      UsesOf, TableView, LinkView, VisitorsOk;
    StartOk(START);
    InvRun(START, events);
  }
}
