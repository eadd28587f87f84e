/**
 * Quiet runs, in which an id is only given out again once no message of a former holder can be taken for the
 * new holder's, and what every event of such a run keeps in the direction from the client to the server.
 */
module QuietRuns {
  import opened Datatypes
  import opened Bytes
  import opened Packets
  import opened Distributors
  import opened ServerHandler
  import opened ClientHandler
  import opened Endpoints
  import opened Lanes
  import opened Tunnels
  import opened Invariants
  import opened Isolation
  import opened Origins
  import opened Arrivals
  import opened Holders

  // ----- Quiet runs -----

  /** An id that leads to a Minecraft client is quiet when it is given out. */
  predicate QuietEvent(care: Care, s: Tunnel, e: Event) {
    && e.ServerTakes? && s.inbox != [] && s.inbox[0].message.AddMinecraftClient?
    && Reaches(care, s.visitors, s.inbox[0].message.tx) ==>
      match FirstFree(s.table.clients_id.Keys, 0)
      case Some(id) => IdQuiet(care, s, id)
      case None => true
  }

  predicate QuietRun(care: Care, s: Tunnel, events: seq<Event>)
    requires Possible(s, events)
    decreases |events|
  {
    events == [] || (QuietEvent(care, s, events[0]) && QuietRun(care, Step(s, events[0]), events[1..]))
  }

  // ----- The invariant -----

  /** A visitor only ever got what the connection of its own generation produced. */
  ghost predicate Delivered(vs: seq<Visitor>, ls: seq<Local>) {
    && (forall k :: 0 <= k < |ls| && ls[k].gen < |vs| ==> Gotten(vs[ls[k].gen]) <= ls[k].produced)
    && (forall g :: 0 <= g < |vs| && !HasConnection(ls, g) ==> Gotten(vs[g]) == [])
  }

  ghost predicate IsRegistered(t: Table, g: nat) {
    exists a :: a in t.clients_addr && t.clients_addr[a].tx == g
  }

  /** For a registered visitor what is on the way follows what it got; nothing is missing while the client runs. */
  ghost predicate Coming(t: Table, up: Lane, replies: Lane, vs: seq<Visitor>, ls: seq<Local>, exact: bool) {
    forall k :: 0 <= k < |ls| && ls[k].gen < |vs| && IsRegistered(t, ls[k].gen) && vs[ls[k].gen].live ==>
      var all := Gotten(vs[ls[k].gen]) + UsesOf(up, ls[k].gen) + UsesOf(replies, ls[k].gen);
      all <= ls[k].produced && (exact ==> all == ls[k].produced)
  }

  ghost predicate Quiet(care: Care, s: Tunnel) {
    && Tags(care, s)
    && Delivered(s.visitors, s.locals)
    && (s.serverUp ==> Coming(s.table, WireLane(s.up), ReplyLane(s.replies), s.visitors, s.locals, s.clientUp))
  }

  lemma QuietStart(care: Care, s: Tunnel)
    requires s == START
    ensures Quiet(care, s)
  {
    hide Tags;
    TagsStart(care, s);
    QuietStartParts(s.table, WireLane(s.up), ReplyLane(s.replies), s.visitors, s.locals);
  }

  lemma QuietStartParts(t: Table, up: Lane, replies: Lane, vs: seq<Visitor>, ls: seq<Local>)
    requires vs == [] && ls == []
    ensures Delivered(vs, ls) && Coming(t, up, replies, vs, ls, true)
  {
    hide UsesOf, HasConnection, IsRegistered, Gotten;
  }

  // ----- Visitors -----

  lemma QuietVisitors(care: Care, s: Tunnel, s': Tunnel)
    requires Inv(s) && Quiet(care, s) && SameGotten(s.visitors, s'.visitors)
    requires s' == s.(visitors := s'.visitors, inbox := s'.inbox)
    ensures Quiet(care, s')
  {
    hide Final, LinkView, UsesOf, Gotten, HasConnection, IsRegistered, Tags, Coming, Delivered, ServerOk, DownTagged,
      LinksOk, VisitorsOk, OwnersAgree, Consistent;
    TagsVisitors(care, s, s');
    if s.serverUp {
      ComingStays(s.table, WireLane(s.up), ReplyLane(s.replies), s.visitors, s'.visitors, s.locals, s.clientUp);
    }
    DeliveredStays(s.visitors, s'.visitors, s.locals);
  }

  lemma ComingStays(
      t: Table, up: Lane, replies: Lane, vs: seq<Visitor>, ws: seq<Visitor>, ls: seq<Local>, exact: bool)
    requires Coming(t, up, replies, vs, ls, exact) && LocalsOk(ls, vs) && SameGotten(vs, ws)
    ensures Coming(t, up, replies, ws, ls, exact)
  {
    hide UsesOf, Gotten, IsRegistered;
  }

  lemma DeliveredStays(vs: seq<Visitor>, ws: seq<Visitor>, ls: seq<Local>)
    requires Delivered(vs, ls) && LocalsOk(ls, vs) && SameGotten(vs, ws)
    ensures Delivered(ws, ls)
  {
    hide Gotten, HasConnection;
  }

  // ----- The server's loop -----

  /** A generation that is not yet announced has no connection. */
  lemma NotYetConnected(s: Tunnel, g: nat)
    requires Inv(s) && g < |s.visitors| && s.visitors[g].id.None?
    ensures !HasConnection(s.locals, g)
  {
    hide ServerOk, Final, LinkView, Consistent, DownTagged, LinksOk, OwnersAgree, VisitorsOk;
  }

  lemma ComingJoined(
      t: Table, t': Table, up: Lane, replies: Lane, vs: seq<Visitor>, ls: seq<Local>, exact: bool, g: nat,
      id: ClientID)
    requires Coming(t, up, replies, vs, ls, exact) && g < |vs| && !HasConnection(ls, g)
    requires forall a :: a in t'.clients_addr ==>
               (a in t.clients_addr && t'.clients_addr[a] == t.clients_addr[a]) || t'.clients_addr[a].tx == g
    ensures Coming(t', up, replies, vs[g := vs[g].(id := Some(id))], ls, exact)
  {
    hide UsesOf;
    var ws := vs[g := vs[g].(id := Some(id))];
    forall k | 0 <= k < |ls| && ls[k].gen < |vs| && IsRegistered(t', ls[k].gen) && vs[ls[k].gen].live
      ensures IsRegistered(t, ls[k].gen) && ws[ls[k].gen] == vs[ls[k].gen]
    {
      assert ls[k].gen != g;
      var a :| a in t'.clients_addr && t'.clients_addr[a].tx == ls[k].gen;
      assert a in t.clients_addr;
    }
  }

  lemma DeliveredIdentified(vs: seq<Visitor>, ls: seq<Local>, g: nat, id: ClientID)
    requires Delivered(vs, ls) && g < |vs|
    ensures Delivered(vs[g := vs[g].(id := Some(id))], ls)
  {
    hide HasConnection;
  }

  lemma QuietTakesJoin(care: Care, s: Tunnel)
    requires Inv(s) && Sourced(s) && Quiet(care, s)
    requires s.serverUp && s.inbox != [] && s.inbox[0].message.AddMinecraftClient?
    requires OnInbox(s.table, s.inbox[0].message).running && QuietEvent(care, s, ServerTakes)
    ensures Quiet(care, ServerTakesStep(s))
  {
    hide Final, LinkView, UsesOf, Gotten, HasConnection, IsRegistered, Tags, Coming, Delivered, ServerOk, ClientOk,
      VisitorsOk, OwnersAgree, Consistent, IdQuiet, Bijective, FirstFree, Sourced;
    var addr, g := s.inbox[0].message.addr, s.inbox[0].gen;
    var s' := ServerTakesStep(s);
    var (t', client) := Inserting(s.table, addr, g).value;
    var id := client.id;
    assert OwnChannel(s.inbox[0]);
    TaggedHead(s);
    NotYetConnected(s, g);
    TableBijective(s);
    AddressAbsent(s);
    Inserted(s.table, addr, g);
    assert Reaches(care, s.visitors, g) ==> IdQuiet(care, s, id);
    assert s'.visitors == s.visitors[g := s.visitors[g].(id := Some(id))];
    TagsJoined(care, s, s', addr, id, g);
    ComingJoined(s.table, t', WireLane(s.up), ReplyLane(s.replies), s.visitors, s.locals, s.clientUp, g, id);
    DeliveredIdentified(s.visitors, s.locals, g, id);
  }

  lemma ComingFewer(
      t: Table, t': Table, up: Lane, replies: Lane, vs: seq<Visitor>, ls: seq<Local>, exact: bool)
    requires Coming(t, up, replies, vs, ls, exact)
    requires forall a :: a in t'.clients_addr ==> a in t.clients_addr && t'.clients_addr[a] == t.clients_addr[a]
    ensures Coming(t', up, replies, vs, ls, exact)
  {
    hide UsesOf, Gotten;
    forall g | IsRegistered(t', g) ensures IsRegistered(t, g) {
      var a :| a in t'.clients_addr && t'.clients_addr[a].tx == g;
      assert a in t.clients_addr;
    }
  }

  lemma QuietTakesPacket(care: Care, s: Tunnel)
    requires Inv(s) && Quiet(care, s) && s.serverUp && s.inbox != [] && s.inbox[0].message.Packet?
    requires s.inbox[0].message.addr in s.table.clients_addr
    ensures Quiet(care, ServerTakesStep(s))
  {
    hide Final, LinkView, UsesOf, Gotten, HasConnection, IsRegistered, Tags, Coming, Delivered, DownTagged, LinksOk,
      TableOk, InboxTagged, HoldersLive, NothingLost, VisitorsOk, OwnersAgree, Consistent, HolderView, SameGotten;
    var addr, data, g := s.inbox[0].message.addr, s.inbox[0].message.data, s.inbox[0].gen;
    var client := s.table.clients_addr[addr];
    Registered(s, addr);
    var g' := client.tx;
    var w := s.visitors[g'].(forwarded := s.visitors[g'].forwarded + [data]);
    var ws := s.visitors[g' := w];
    WireGrows(s.down, DataPacket(client.id, data), g');
    GottenKept(s.visitors, g', w);
    ComingStays(s.table, WireLane(s.up), ReplyLane(s.replies), s.visitors, ws, s.locals, s.clientUp);
    DeliveredStays(s.visitors, ws, s.locals);
    SameHolders(care, s.table, s.visitors, g', w);
    TagsSent(care, s, ServerTakesStep(s), WireItem(DataPacket(client.id, data), g'));
  }

  lemma GottenKept(vs: seq<Visitor>, g: nat, w: Visitor)
    requires g < |vs| && w.rx == vs[g].rx && w.written == vs[g].written && w.live == vs[g].live
    ensures SameGotten(vs, vs[g := w])
  {
  }

  lemma QuietTakesRemove(care: Care, s: Tunnel)
    requires Inv(s) && Quiet(care, s) && s.serverUp && s.inbox != [] && s.inbox[0].message.RemoveMinecraftClient?
    ensures Quiet(care, ServerTakesStep(s))
  {
    hide Final, LinkView, UsesOf, Gotten, HasConnection, IsRegistered, Tags, Coming, Delivered, ServerOk, ClientOk,
      VisitorsOk, OwnersAgree, Consistent;
    var addr := s.inbox[0].message.addr;
    var t' := RemovingAddr(s.table, addr);
    if addr in s.table.clients_addr {
      var client := s.table.clients_addr[addr];
      TableBijective(s);
      ComingFewer(s.table, t', WireLane(s.up), ReplyLane(s.replies), s.visitors, s.locals, s.clientUp);
      HoldersParted(care, s.table, s.visitors, addr);
      WireGrows(s.down, ProxyDisconnect(client.id), client.tx);
      TagsSent(care, s, ServerTakesStep(s), WireItem(ProxyDisconnect(client.id), client.tx));
    } else {
      WireGrows(s.down, UnknownPacket, 0);
      TagsShrink(care, s, ServerTakesStep(s));
    }
  }

  // ----- Packets that reach the server -----

  lemma ComingHeard(t: Table, up: Lane, replies: Lane, vs: seq<Visitor>, ls: seq<Local>, exact: bool)
    requires Coming(t, up, replies, vs, ls, exact) && up != [] && !up[0].Use?
    ensures Coming(t, up[1..], replies, vs, ls, exact)
  {
    hide UsesOf, Gotten, IsRegistered;
    UsesTail(up);
    assert forall g :: UsesOf(up, g) == UsesOf(up[1..], g);
  }

  /** The payload at the head of the wire goes to the visitor of its generation, if that is registered and alive. */
  lemma ComingDelivered(
      t: Table, up: Lane, replies: Lane, vs: seq<Visitor>, ls: seq<Local>, exact: bool)
    requires Coming(t, up, replies, vs, ls, exact) && up != [] && up[0].Use? && up[0].gen < |vs|
    ensures var v := vs[up[0].gen];
            Coming(t, up[1..], replies, vs[up[0].gen := v.(rx := v.rx + [up[0].data])], ls, exact)
    ensures !IsRegistered(t, up[0].gen) || !vs[up[0].gen].live ==> Coming(t, up[1..], replies, vs, ls, exact)
  {
    hide UsesOf, IsRegistered;
    UsesTail(up);
  }

  lemma DeliveredMore(
      t: Table, up: Lane, replies: Lane, vs: seq<Visitor>, ls: seq<Local>, exact: bool)
    requires Delivered(vs, ls) && Coming(t, up, replies, vs, ls, exact) && up != [] && up[0].Use? && up[0].gen < |vs|
    requires IsRegistered(t, up[0].gen) && vs[up[0].gen].live && HasConnection(ls, up[0].gen)
    ensures var v := vs[up[0].gen]; Delivered(vs[up[0].gen := v.(rx := v.rx + [up[0].data])], ls)
  {
    hide UsesOf, IsRegistered;
    UsesTail(up);
  }

  /** If the payload at the head of the wire reaches a visitor, that is the one of its generation. */
  lemma HeadOwner(care: Care, s: Tunnel)
    requires Inv(s) && Sourced(s) && Tags(care, s) && s.serverUp && s.up != [] && s.up[0].packet.ProxyData?
    ensures s.up[0].gen < |s.visitors| && HasConnection(s.locals, s.up[0].gen)
    ensures match OnPacket(s.table, s.up[0].packet).delivery
            case Some(d) =>
              && d.tx < |s.visitors| && IsRegistered(s.table, d.tx)
              && (s.visitors[d.tx].live || IsRegistered(s.table, s.up[0].gen) ==> d.tx == s.up[0].gen)
            case None => !IsRegistered(s.table, s.up[0].gen)
  {
    hide Inv, Sourced, Tags, TableOk, IsRegistered, LookupId, HolderView, HasConnection;
    var id, g := s.up[0].packet.proxyData.client_id, s.up[0].gen;
    HeadSource(s);
    HeadAgrees(care, s);
    RegisteredHolder(s.table, s.visitors, g, id);
    HolderAt(care, s.table, s.visitors, id);
  }

  /** A message comes from a connection of its generation, which has had that id. */
  lemma HeadSource(s: Tunnel)
    requires Inv(s) && Sourced(s) && s.serverUp && s.up != [] && s.up[0].packet.ProxyData?
    ensures s.up[0].gen < |s.visitors| && HasConnection(s.locals, s.up[0].gen) && TableOk(s.table, s.visitors)
    ensures s.visitors[s.up[0].gen].id == Some(s.up[0].packet.proxyData.client_id)
  {
    hide Final, LinkView, UsesOf, DownTagged, LinksOk, InboxTagged, HoldersLive, NothingLost, VisitorsOk,
      OwnersAgree, TableOk, Consistent;
    var id, g := s.up[0].packet.proxyData.client_id, s.up[0].gen;
    WireShrinks(s.up);
    assert WireLane(s.up)[0] == WireMark(s.up[0]);
    var k :| 0 <= k < |s.locals| && s.locals[k].id == id && s.locals[k].gen == g;
  }

  lemma RegisteredHolder(t: Table, vs: seq<Visitor>, g: nat, id: ClientID)
    requires TableOk(t, vs) && g < |vs| && vs[g].id == Some(id)
    ensures IsRegistered(t, g) ==> LookupId(t, id).Some? && LookupId(t, id).value.tx == g
    ensures var c := LookupId(t, id); c.Some? ==> id in t.clients_id && c.value.tx < |vs| && IsRegistered(t, c.value.tx)
  {
    if IsRegistered(t, g) {
      var a :| a in t.clients_addr && t.clients_addr[a].tx == g;
      assert t.clients_addr[a].id == id;
    }
    if LookupId(t, id).Some? {
      assert t.clients_id[id] in t.clients_addr;
    }
  }

  lemma QuietHearsData(care: Care, s: Tunnel)
    requires Inv(s) && Sourced(s) && Quiet(care, s) && s.serverUp && s.up != [] && s.up[0].packet.ProxyData?
    ensures Quiet(care, ServerReadsStep(s))
  {
    hide Final, LinkView, UsesOf, Gotten, HasConnection, IsRegistered, Tags, Coming, Delivered, ServerOk, ClientOk,
      VisitorsOk, OwnersAgree, Consistent, HolderView, Ahead, Sourced;
    var up, replies := WireLane(s.up), ReplyLane(s.replies);
    HeadOwner(care, s);
    WireShrinks(s.up);
    WireGrows(s.down, s.up[0].packet, 0);
    ComingDelivered(s.table, up, replies, s.visitors, s.locals, s.clientUp);
    var r, s' := OnPacket(s.table, s.up[0].packet), ServerReadsStep(s);
    AheadHeard(s, s');
    if r.delivery.Some? && s.visitors[r.delivery.value.tx].live {
      var g := s.up[0].gen;
      DeliveredMore(s.table, up, replies, s.visitors, s.locals, s.clientUp);
      SameHolders(care, s.table, s.visitors, g, s'.visitors[g]);
    }
    TagsHeard(care, s, s');
  }

  lemma QuietHearsDisconnect(care: Care, s: Tunnel)
    requires Inv(s) && Quiet(care, s) && s.serverUp && s.up != [] && s.up[0].packet.ProxyDisconnect?
    ensures Quiet(care, ServerReadsStep(s))
  {
    hide Final, LinkView, UsesOf, Gotten, HasConnection, IsRegistered, Tags, Coming, Delivered, ServerOk, ClientOk,
      VisitorsOk, OwnersAgree, Consistent;
    var up, replies := WireLane(s.up), ReplyLane(s.replies);
    var t' := RemovingId(s.table, s.up[0].packet.disconnected);
    TableBijective(s);
    WireShrinks(s.up);
    WireGrows(s.down, s.up[0].packet, 0);
    ComingHeard(s.table, up, replies, s.visitors, s.locals, s.clientUp);
    ComingFewer(s.table, t', up[1..], replies, s.visitors, s.locals, s.clientUp);
    HoldersFreed(care, s.table, s.visitors, s.up[0].packet.disconnected);
    AheadHeard(s, ServerReadsStep(s));
    TagsHeard(care, s, ServerReadsStep(s));
  }

  lemma QuietHearsOther(care: Care, s: Tunnel)
    requires Inv(s) && Sourced(s) && Quiet(care, s) && s.serverUp && s.up != []
    requires !s.up[0].packet.ProxyDisconnect? && !s.up[0].packet.ProxyData?
    ensures Quiet(care, ServerReadsStep(s))
  {
    hide Final, LinkView, UsesOf, Gotten, HasConnection, IsRegistered, Tags, Coming, Delivered, ServerOk, ClientOk,
      VisitorsOk, OwnersAgree, Consistent, HolderView, Ahead, RemovingId, LookupId, IdQuiet, Sourced;
    var up, replies := WireLane(s.up), ReplyLane(s.replies);
    var p := s.up[0].packet;
    WireShrinks(s.up);
    WireGrows(s.down, if p.ProxyPing? then ProxyPong(p.ping) else p, 0);
    ComingHeard(s.table, up, replies, s.visitors, s.locals, s.clientUp);
    AheadHeard(s, ServerReadsStep(s));
    assert !p.ProxyJoin? by { NothingOpens(s); }
    if p.ProxyPing? {
      assert ServerReadsStep(s).down == s.down + [WireItem(ProxyPong(p.ping), 0)];
    }
    TagsHeard(care, s, ServerReadsStep(s));
  }

  // ----- The client's loop -----

  /** A reply moves from the client's queue to the wire. */
  lemma ComingMoves(t: Table, up: Lane, replies: Lane, vs: seq<Visitor>, ls: seq<Local>, exact: bool)
    requires Coming(t, up, replies, vs, ls, exact) && replies != []
    ensures Coming(t, up + [replies[0]], replies[1..], vs, ls, exact)
  {
    hide UsesOf, Gotten, IsRegistered;
    UsesTail(replies);
    forall g ensures UsesOf(up + [replies[0]], g) + UsesOf(replies[1..], g) == UsesOf(up, g) + UsesOf(replies, g) {
      AppendUses(up, replies[0], g);
    }
    forall k | 0 <= k < |ls| && ls[k].gen < |vs|
      ensures Gotten(vs[ls[k].gen]) + UsesOf(up + [replies[0]], ls[k].gen) + UsesOf(replies[1..], ls[k].gen)
           == Gotten(vs[ls[k].gen]) + UsesOf(up, ls[k].gen) + UsesOf(replies, ls[k].gen)
    {
      var g := ls[k].gen;
      Associate(Gotten(vs[g]), UsesOf(up + [replies[0]], g), UsesOf(replies[1..], g));
      Associate(Gotten(vs[g]), UsesOf(up, g), UsesOf(replies, g));
    }
  }

  lemma Associate<T>(a: seq<T>, b: seq<T>, c: seq<T>)
    ensures (a + b) + c == a + (b + c)
  {
  }

  lemma QuietTakesReply(care: Care, s: Tunnel)
    requires Inv(s) && Quiet(care, s) && s.clientUp && s.replies != [] && s.replies[0].message.FromConnection?
    ensures Quiet(care, ClientTakesStep(s))
  {
    hide Final, LinkView, UsesOf, Gotten, HasConnection, IsRegistered, Tags, Hopeful, Coming, Delivered, ServerOk,
      ClientOk, VisitorsOk, OwnersAgree, Consistent;
    var m := s.replies[0].message;
    var p := DataPacket(m.id, m.data);
    var up, replies := WireLane(s.up), ReplyLane(s.replies);
    TagsMove(care, s, s.links, p);
    ReplyShrinks(s.replies);
    WireGrows(s.up, p, s.replies[0].gen);
    if s.serverUp {
      ComingMoves(s.table, up, replies, s.visitors, s.locals, true);
    }
  }

  lemma QuietTakesRemoval(care: Care, s: Tunnel)
    requires Inv(s) && Quiet(care, s) && s.clientUp && s.replies != [] && s.replies[0].message.RemoveConnection?
    ensures Quiet(care, ClientTakesStep(s))
  {
    hide Final, LinkView, UsesOf, Gotten, HasConnection, IsRegistered, Tags, Hopeful, Coming, Delivered, ServerOk,
      ClientOk, VisitorsOk, OwnersAgree, Consistent;
    var id := s.replies[0].message.id;
    var p := ProxyDisconnect(id);
    TagsMove(care, s, s.links - {id}, p);
    ReplyShrinks(s.replies);
    WireGrows(s.up, p, s.replies[0].gen);
    if s.serverUp {
      ComingMoves(s.table, WireLane(s.up), ReplyLane(s.replies), s.visitors, s.locals, true);
    }
  }

  lemma ComingHalts(t: Table, up: Lane, replies: Lane, vs: seq<Visitor>, ls: seq<Local>, exact: bool)
    requires Coming(t, up, replies, vs, ls, exact)
    ensures Coming(t, up, [], vs, ls, false)
  {
    hide Gotten, IsRegistered;
  }

  lemma QuietHalts(care: Care, s: Tunnel)
    requires Inv(s) && Quiet(care, s)
    ensures Quiet(care, HaltClient(s))
  {
    hide Final, LinkView, UsesOf, Gotten, HasConnection, IsRegistered, Tags, Coming,
      Delivered, ServerOk, ClientOk, VisitorsOk, OwnersAgree, Consistent;
    if s.serverUp {
      ComingHalts(s.table, WireLane(s.up), ReplyLane(s.replies), s.visitors, s.locals, s.clientUp);
    }
    TagsHalts(care, s);
    assert ReplyLane([]) == [];
  }

  lemma QuietServerHalts(care: Care, s: Tunnel)
    requires Quiet(care, s)
    ensures Quiet(care, HaltServer(s))
  {
    hide Final, LinkView, UsesOf, Gotten, HasConnection, IsRegistered, Ready, Coming, Delivered;
  }

  lemma QuietPings(care: Care, s: Tunnel, time: u16)
    requires Quiet(care, s) && s.clientUp
    ensures Quiet(care, s.(up := s.up + [WireItem(ProxyPing(time), 0)]))
  {
    hide Final, LinkView, UsesOf, Gotten, HasConnection, IsRegistered, Tags, Coming, Delivered;
    var up := WireLane(s.up);
    WireGrows(s.up, ProxyPing(time), 0);
    assert Tagged([ProxyPing(time)], 0) == [WireItem(ProxyPing(time), 0)];
    TagsPings(care, s, time);
    if s.serverUp {
      ComingBlank(s.table, up, ReplyLane(s.replies), s.visitors, s.locals, s.clientUp);
    }
  }

  lemma ComingBlank(t: Table, up: Lane, replies: Lane, vs: seq<Visitor>, ls: seq<Local>, exact: bool)
    requires Coming(t, up, replies, vs, ls, exact)
    ensures Coming(t, up + [Blank], replies, vs, ls, exact)
  {
    hide UsesOf, Gotten, IsRegistered;
    AppendQuiet(up, Blank);
  }

  // ----- Packets that reach the client -----

  /** A new connection has produced nothing yet, and nothing of its generation reached the server. */
  lemma DeliveredOpens(vs: seq<Visitor>, ls: seq<Local>, l: Local)
    requires Delivered(vs, ls) && !HasConnection(ls, l.gen) && l.produced == []
    ensures Delivered(vs, ls + [l])
    ensures l.gen < |vs| ==> Gotten(vs[l.gen]) == []
  {
    hide Gotten;
    forall g | HasConnection(ls, g) ensures HasConnection(ls + [l], g) {
      var k :| 0 <= k < |ls| && ls[k].gen == g;
      assert (ls + [l])[k].gen == g;
    }
    assert (ls + [l])[|ls|] == l;
  }

  lemma ComingOpens(
      t: Table, up: Lane, replies: Lane, vs: seq<Visitor>, ls: seq<Local>, exact: bool, l: Local)
    requires Coming(t, up, replies, vs, ls, exact) && l.produced == []
    requires l.gen < |vs| && Gotten(vs[l.gen]) == [] && UsesOf(up, l.gen) == [] && UsesOf(replies, l.gen) == []
    ensures Coming(t, up, replies, vs, ls + [l], exact)
  {
    hide UsesOf, Gotten, IsRegistered;
  }

  /** The generation of a join on the way down has no connection yet. */
  lemma JoinIsNew(s: Tunnel)
    requires Inv(s) && s.down != [] && s.down[0].packet.ProxyJoin?
    ensures s.down[0].gen < |s.visitors| && !HasConnection(s.locals, s.down[0].gen)
  {
    hide Final, LinkView, UsesOf, Consistent, ServerOk, LinksOk, LocalsOk, OwnersAgree, VisitorsOk;
    WireShrinks(s.down);
    assert WireLane(s.down)[0].Open?;
  }

  lemma QuietHearsJoin(care: Care, s: Tunnel)
    requires Inv(s) && Sourced(s) && Quiet(care, s) && s.clientUp && s.down != [] && s.down[0].packet.ProxyJoin?
    ensures Quiet(care, ClientReadsStep(s))
  {
    hide Final, LinkView, UsesOf, Gotten, HasConnection, IsRegistered, Tags, Coming, Delivered, Sources, ServerOk,
      ClientOk, VisitorsOk, OwnersAgree, Consistent;
    var id, gen := s.down[0].packet.joined, s.down[0].gen;
    var l := Local(id, gen, false, true, [], [], []);
    var up, replies := WireLane(s.up), ReplyLane(s.replies);
    WireShrinks(s.down);
    JoinIsNew(s);
    NothingFrom(up, s.locals, gen);
    NothingFrom(replies, s.locals, gen);
    TagsHearsJoin(care, s);
    DeliveredOpens(s.visitors, s.locals, l);
    if s.serverUp {
      ComingOpens(s.table, up, replies, s.visitors, s.locals, true, l);
    }
  }

  /** Connections move on or end without producing anything. */
  ghost predicate SameProduced(ls: seq<Local>, ms: seq<Local>) {
    && |ls| == |ms|
    && forall k :: 0 <= k < |ls| ==>
         && ms[k].id == ls[k].id && ms[k].gen == ls[k].gen
         && ms[k].produced == ls[k].produced && (ms[k].live ==> ls[k].live)
  }

  lemma PartsProduced(vs: seq<Visitor>, ls: seq<Local>, ms: seq<Local>)
    requires SameProduced(ls, ms) && Delivered(vs, ls)
    ensures Delivered(vs, ms) && Closed(ls) <= Closed(ms)
  {
    hide UsesOf, Gotten;
    forall g | HasConnection(ls, g) ensures HasConnection(ms, g) {
      var k :| 0 <= k < |ls| && ls[k].gen == g;
      assert ms[k].gen == g;
    }
  }

  lemma ComingProduced(
      t: Table, up: Lane, replies: Lane, vs: seq<Visitor>, ls: seq<Local>, ms: seq<Local>, exact: bool)
    requires SameProduced(ls, ms) && Coming(t, up, replies, vs, ls, exact)
    ensures Coming(t, up, replies, vs, ms, exact)
  {
    hide UsesOf, Gotten, IsRegistered;
  }

  lemma QuietLocals(care: Care, s: Tunnel, ms: seq<Local>)
    requires Quiet(care, s) && SameProduced(s.locals, ms)
    ensures Quiet(care, s.(locals := ms))
  {
    hide Final, LinkView, UsesOf, Gotten, HasConnection, IsRegistered, Tags, Coming, Delivered;
    var up, replies := WireLane(s.up), ReplyLane(s.replies);
    PartsProduced(s.visitors, s.locals, ms);
    TagsLocals(care, s, ms);
    if s.serverUp {
      ComingProduced(s.table, up, replies, s.visitors, s.locals, ms, s.clientUp);
    }
  }

  /** A connection whose socket or channel moves. */
  lemma QuietLocal(care: Care, s: Tunnel, k: nat, l: Local)
    requires Quiet(care, s) && k < |s.locals|
    requires var o := s.locals[k]; l.id == o.id && l.gen == o.gen && l.produced == o.produced && (l.live ==> o.live)
    ensures Quiet(care, s.(locals := s.locals[k := l]))
  {
    hide Quiet;
    QuietLocals(care, s, s.locals[k := l]);
  }

  /** A packet that opens nothing is taken while the connections stay. */
  lemma QuietSkips(care: Care, s: Tunnel)
    requires Quiet(care, s) && s.clientUp && s.down != [] && !s.down[0].packet.ProxyJoin? && ClientReadsStep(s).clientUp
    ensures Quiet(care, s.(down := s.down[1..], links := ClientReadsStep(s).links))
  {
    hide Final, LinkView, UsesOf, Gotten, HasConnection, IsRegistered, Tags, Coming, Delivered, OnProxyPacket,
      ClientReadsStep;
    TagsSkips(care, s);
  }

  lemma QuietHearsPayload(care: Care, s: Tunnel)
    requires Inv(s) && Quiet(care, s) && s.clientUp && s.down != [] && s.down[0].packet.ProxyData?
    ensures Quiet(care, ClientReadsStep(s))
  {
    hide Quiet, ServerOk, DownTagged, LocalsOk, LinksOk, VisitorsOk, OwnersAgree, Consistent, Final, LinkView, UsesOf;
    var d := s.down[0].packet.proxyData;
    var id := d.client_id;
    if id !in s.links {
      QuietHalts(care, s);
    } else if s.links[id] in Closed(s.locals) {
      QuietSkips(care, s);
    } else {
      var k := s.links[id];
      LinkKnown(s, id);
      QuietSkips(care, s);
      var s' := s.(down := s.down[1..]);
      QuietLocal(care, s', k, s'.locals[k].(rx := s'.locals[k].rx + [d.packet.data]));
    }
  }

  lemma QuietHears(care: Care, s: Tunnel)
    requires Inv(s) && Sourced(s) && Quiet(care, s) && Enabled(s, ClientReads)
    ensures Quiet(care, ClientReadsStep(s))
  {
    hide Inv, Sourced, Quiet;
    match s.down[0].packet
    case ProxyJoin(_) => QuietHearsJoin(care, s);
    case ProxyData(_) => QuietHearsPayload(care, s);
    case ProxyDisconnect(_) => QuietSkips(care, s);
    case ProxyPong(_) => QuietSkips(care, s);
    case _ => QuietHalts(care, s);
  }

  // ----- Local connections -----

  lemma ComingProduces(
      t: Table, up: Lane, replies: Lane, vs: seq<Visitor>, ls: seq<Local>, k: nat, data: Payload)
    requires Coming(t, up, replies, vs, ls, true) && k < |ls| && LocalsOk(ls, vs)
    ensures var ms := ls[k := ls[k].(produced := ls[k].produced + [data])];
            Coming(t, up, replies + [Use(ls[k].id, ls[k].gen, data)], vs, ms, true)
  {
    hide UsesOf, Gotten, IsRegistered, Received;
    var m := Use(ls[k].id, ls[k].gen, data);
    var ms := ls[k := ls[k].(produced := ls[k].produced + [data])];
    forall g ensures UsesOf(replies + [m], g) == UsesOf(replies, g) + if g == ls[k].gen then [data] else [] {
      AppendUses(replies, m, g);
    }
    forall i | 0 <= i < |ms| && ms[i].gen < |vs| && IsRegistered(t, ms[i].gen) && vs[ms[i].gen].live
      ensures Gotten(vs[ms[i].gen]) + UsesOf(up, ms[i].gen) + UsesOf(replies + [m], ms[i].gen) == ms[i].produced
    {
      assert Gotten(vs[ls[i].gen]) + UsesOf(up, ls[i].gen) + UsesOf(replies, ls[i].gen) == ls[i].produced;
      if i != k {
        assert ls[i].gen != ls[k].gen;
      }
    }
  }

  lemma DeliveredProduces(vs: seq<Visitor>, ls: seq<Local>, k: nat, data: Payload)
    requires Delivered(vs, ls) && k < |ls|
    ensures Delivered(vs, ls[k := ls[k].(produced := ls[k].produced + [data])])
  {
    hide Gotten;
    var ms := ls[k := ls[k].(produced := ls[k].produced + [data])];
    forall g | HasConnection(ls, g) ensures HasConnection(ms, g) {
      var i :| 0 <= i < |ls| && ls[i].gen == g;
      assert ms[i].gen == g;
    }
  }

  lemma QuietProduces(care: Care, s: Tunnel, k: nat, data: Payload)
    requires Inv(s) && Quiet(care, s) && k < |s.locals| && s.locals[k].live && s.clientUp
    ensures Quiet(care, Reply(s, k, FromConnection(s.locals[k].id, data)))
  {
    hide Final, LinkView, UsesOf, Gotten, HasConnection, IsRegistered, Tags, Hopeful, Coming, Delivered, ServerOk,
      DownTagged, LinksOk, LocalsOk, VisitorsOk, OwnersAgree, Consistent;
    var l := s.locals[k];
    var l' := l.(produced := l.produced + [data]);
    var i := ReplyItem(FromConnection(l.id, data), l.gen);
    ReplyGrows(s.replies, i);
    if s.serverUp && Hopeful(s) {
      LiveAgrees(care, s, k);
    }
    LiveStays(s.locals, k, l', LastHolders(care, s));
    TagsReply(care, s, Reply(s, k, i.message), i);
    DeliveredProduces(s.visitors, s.locals, k, data);
    if s.serverUp {
      ComingProduces(s.table, WireLane(s.up), ReplyLane(s.replies), s.visitors, s.locals, k, data);
    }
  }

  lemma ComingReplies(
      t: Table, up: Lane, replies: Lane, vs: seq<Visitor>, ls: seq<Local>, exact: bool, m: Mark)
    requires Coming(t, up, replies, vs, ls, exact) && !m.Use?
    ensures Coming(t, up, replies + [m], vs, ls, exact)
  {
    hide UsesOf, Gotten, IsRegistered;
    AppendQuiet(replies, m);
  }

  /** A message without a payload joins the client's queue. */
  lemma QuietReplies(care: Care, s: Tunnel, m: ConnectionMessage, gen: nat)
    requires Quiet(care, s) && s.clientUp && !m.FromConnection?
    requires s.serverUp && Hopeful(s) && m.RemoveConnection? ==> Agrees(care, LastHolders(care, s), Shut(m.id, gen))
    ensures Quiet(care, s.(replies := s.replies + [ReplyItem(m, gen)]))
  {
    hide Final, LinkView, UsesOf, Gotten, HasConnection, IsRegistered, Tags, Hopeful, Coming, Delivered;
    var i := ReplyItem(m, gen);
    ReplyGrows(s.replies, i);
    TagsReply(care, s, s.(replies := s.replies + [i]), i);
    if s.serverUp {
      ComingReplies(s.table, WireLane(s.up), ReplyLane(s.replies), s.visitors, s.locals, true, ReplyMark(i));
    }
  }

  /** A connection that ends by itself tells the client. */
  lemma QuietLeaves(care: Care, s: Tunnel, k: nat)
    requires Quiet(care, s) && k < |s.locals| && s.locals[k].live
    ensures Quiet(care, LeaveLocal(s, k, Task(true, true)))
  {
    hide Quiet, Tags, Hopeful;
    var l := s.locals[k];
    var m := RemoveConnection(l.id);
    var gone := s.(locals := s.locals[k := l.(live := false)]);
    assert OnConnectionDrop(l.id, Task(true, true)) == [m];
    assert ReplyAll(gone, k, [m]) == ReplyAll(Reply(gone, k, m), k, []) == Reply(gone, k, m);
    if s.clientUp {
      TagsOf(care, s);
      if s.serverUp && Hopeful(s) {
        LiveAgrees(care, s, k);
      }
      var told := s.(replies := s.replies + [ReplyItem(m, l.gen)]);
      QuietReplies(care, s, m, l.gen);
      QuietLocal(care, told, k, l.(live := false));
      assert Reply(gone, k, m).locals == gone.locals;
    } else {
      QuietLocal(care, s, k, l.(live := false));
    }
  }

  lemma TagsOf(care: Care, s: Tunnel)
    requires Quiet(care, s)
    ensures Tags(care, s)
  {
    hide Tags, Delivered, Coming;
  }

  lemma QuietConnectFails(care: Care, s: Tunnel, k: nat, error: string)
    requires Quiet(care, s) && Enabled(s, ConnectFails(k, error))
    ensures Quiet(care, ConnectFailsStep(s, k, error))
  {
    hide Quiet, LeaveLocal;
    var m := Death(error);
    assert ReplyAll(s, k, [m]) == ReplyAll(Reply(s, k, m), k, []) == Reply(s, k, m);
    if s.clientUp {
      QuietReplies(care, s, m, s.locals[k].gen);
      assert Reply(s, k, m).locals == s.locals;
      assert Reply(s, k, m) == s.(replies := s.replies + [ReplyItem(m, s.locals[k].gen)]);
    }
    QuietLeaves(care, Reply(s, k, m), k);
  }

  lemma QuietReads(care: Care, s: Tunnel, k: nat, read: FromServer)
    requires Inv(s) && Quiet(care, s) && Enabled(s, LocalServer(k, read))
    ensures Quiet(care, LocalServerStep(s, k, read))
  {
    hide Inv, Quiet, LeaveLocal;
    var turn := OnRead(s.locals[k].id, RUNNING, read, s.clientUp);
    if turn.task.ended {
      QuietLeaves(care, s, k);
    } else {
      var m := FromConnection(s.locals[k].id, read.data);
      assert ReplyAll(s, k, [m]) == ReplyAll(Reply(s, k, m), k, []) == Reply(s, k, m);
      QuietProduces(care, s, k, read.data);
    }
  }

  lemma QuietReceives(care: Care, s: Tunnel, k: nat, writable: bool)
    requires Quiet(care, s) && Enabled(s, LocalReceive(k, writable))
    ensures Quiet(care, LocalReceiveStep(s, k, writable))
  {
    hide Quiet, Reply;
    var l := s.locals[k];
    if l.rx != [] && writable {
      QuietLocal(care, s, k, l.(rx := l.rx[1..], written := l.written + [l.rx[0]]));
    } else if l.rx != [] {
      QuietLeaves(care, s, k);
    } else {
      QuietLocal(care, s, k, l.(live := false));
    }
  }

  // ----- Every quiet run -----

  lemma QuietServerTakes(care: Care, s: Tunnel)
    requires Inv(s) && Sourced(s) && Quiet(care, s) && Enabled(s, ServerTakes) && QuietEvent(care, s, ServerTakes)
    ensures Quiet(care, ServerTakesStep(s))
  {
    hide Quiet, ServerOk, ClientOk, OwnersAgree, Final, TableView, LinkView, VisitorsOk, FirstFree, IdQuiet,
      Sourced;
    var m := s.inbox[0].message;
    if !OnInbox(s.table, m).running {
      QuietServerHalts(care, s);
    } else {
      assert OwnChannel(s.inbox[0]);
      match m
      case AddMinecraftClient(_, _) => QuietTakesJoin(care, s);
      case Packet(_, _) => QuietTakesPacket(care, s);
      case RemoveMinecraftClient(_) => QuietTakesRemove(care, s);
    }
  }

  lemma QuietServerReads(care: Care, s: Tunnel)
    requires Inv(s) && Sourced(s) && Quiet(care, s) && Enabled(s, ServerReads)
    ensures Quiet(care, ServerReadsStep(s))
  {
    hide Quiet, Inv, Sourced;
    match s.up[0].packet
    case ProxyData(_) => QuietHearsData(care, s);
    case ProxyDisconnect(_) => QuietHearsDisconnect(care, s);
    case _ => QuietHearsOther(care, s);
  }

  lemma QuietClientTakes(care: Care, s: Tunnel)
    requires Inv(s) && Sourced(s) && Quiet(care, s) && Enabled(s, ClientTakes)
    ensures Quiet(care, ClientTakesStep(s))
  {
    hide Quiet, Inv, Sourced;
    match s.replies[0].message
    case FromConnection(_, _) => QuietTakesReply(care, s);
    case RemoveConnection(_) => QuietTakesRemoval(care, s);
    case Death(_) => QuietHalts(care, s);
  }

  lemma QuietStep(care: Care, s: Tunnel, e: Event)
    requires Inv(s) && Sourced(s) && Quiet(care, s) && Enabled(s, e) && QuietEvent(care, s, e)
    ensures Quiet(care, Step(s, e))
  {
    hide Inv, Quiet, Sourced, ArriveStep, GreetStep, VisitorSocketStep, VisitorReceiveStep, ServerTakesStep,
      ServerReadsStep, ClientTakesStep, ClientReadsStep, ConnectFailsStep, LocalServerStep, LocalReceiveStep,
      IdQuiet, FirstFree, SameGotten;
    match e
    case ServerTakes => QuietServerTakes(care, s);
    case ServerReads => QuietServerReads(care, s);
    case ServerStops => QuietServerHalts(care, s);
    case ClientTakes => QuietClientTakes(care, s);
    case ClientReads => QuietHears(care, s);
    case ClientPings(time) => QuietPings(care, s, time);
    case ClientStops => QuietHalts(care, s);
    case Connects(k) => QuietLocal(care, s, k, s.locals[k].(connected := true));
    case ConnectFails(k, error) => QuietConnectFails(care, s, k, error);
    case LocalServer(k, read) => QuietReads(care, s, k, read);
    case LocalReceive(k, writable) => QuietReceives(care, s, k, writable);
    case _ =>
      VisitorEventsKeep(s, e);
      QuietVisitors(care, s, Step(s, e));
  }

  lemma {:induction false} QuietInvRun(care: Care, s: Tunnel, events: seq<Event>)
    requires Inv(s) && Sourced(s) && Quiet(care, s) && Possible(s, events) && QuietRun(care, s, events)
    ensures Inv(Run(s, events)) && Sourced(Run(s, events)) && Quiet(care, Run(s, events))
    decreases |events|
  {
    hide Inv, Sourced, Quiet, Enabled, Step, QuietEvent;
    if events != [] {
      QuietStep(care, s, events[0]);
      InvStep(s, events[0]);
      SourcedStep(s, events[0]);
      QuietInvRun(care, Step(s, events[0]), events[1..]);
    }
  }
}
