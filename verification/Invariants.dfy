/**
 * What every run of the tunnel keeps: the invariant of the server's half (its table and its inbox)
 * and of the client's half (its connections and the packets on the way down).
 */
module Invariants {
  import opened Datatypes
  import opened Packets
  import opened Distributors
  import opened ClientHandler
  import opened Lanes
  import opened Tunnels

  // ----- The invariant -----

  /** Who holds each socket address at the server. */
  function TableView(t: Table): View {
    map a | a in t.clients_addr :: t.clients_addr[a].tx
  }

  /** Whose connection each id leads to at the client. */
  function LinkView(links: Links, ls: seq<Local>): View {
    map id | id in links && links[id] < |ls| :: ls[links[id]].gen
  }

  ghost predicate VisitorsOk(vs: seq<Visitor>) {
    && (forall g, h :: 0 <= g < h < |vs| && vs[g].live && vs[h].live ==> vs[g].addr != vs[h].addr)
    && (forall g :: 0 <= g < |vs| ==> vs[g].forwarded <= vs[g].queued)
    && (forall g :: 0 <= g < |vs| && vs[g].id.None? ==> vs[g].forwarded == [])
  }

  ghost predicate TableOk(t: Table, vs: seq<Visitor>) {
    && Bijective(t)
    && (forall a :: a in t.clients_addr ==>
          && t.clients_addr[a].tx < |vs|
          && vs[t.clients_addr[a].tx].addr == a
          && vs[t.clients_addr[a].tx].id == Some(t.clients_addr[a].id))
  }

  /** An announcement carries the channel of the visitor it comes from. */
  ghost predicate OwnChannel(i: InboxItem) {
    match i.message
    case AddMinecraftClient(_, tx) => tx == i.gen
    case Close => false
    case _ => true
  }

  /** Every message comes from the visitor it is tagged with, who is announced at most once. */
  ghost predicate InboxTagged(lane: Lane, vs: seq<Visitor>) {
    && (forall i :: 0 <= i < |lane| && !lane[i].Blank? ==>
          lane[i].gen < |vs| && vs[lane[i].gen].addr == lane[i].key && (lane[i].Open? ==> vs[lane[i].gen].id.None?))
    && (forall i, j :: 0 <= i < j < |lane| && lane[i].Open? && lane[j].Open? ==> lane[i].gen != lane[j].gen)
  }

  /** Whoever holds an address once the inbox is empty is alive. */
  ghost predicate HoldersLive(view: View, vs: seq<Visitor>) {
    forall a :: a in view ==> view[a] < |vs| && vs[view[a]].live && vs[view[a]].addr == a
  }

  /** What a visitor queued was forwarded or is still in the inbox. */
  ghost predicate NothingLost(lane: Lane, vs: seq<Visitor>) {
    forall g :: 0 <= g < |vs| ==> vs[g].queued == vs[g].forwarded + UsesOf(lane, g)
  }

  ghost predicate ServerOk(t: Table, lane: Lane, vs: seq<Visitor>) {
    && TableOk(t, vs)
    && InboxTagged(lane, vs)
    && Consistent(FreshKeys, TableView(t), lane)
    && HoldersLive(Final(TableView(t), lane), vs)
    && NothingLost(lane, vs)
  }

  /** Every packet on the way down is for the id of its generation; a join on the way has no connection yet. */
  ghost predicate DownTagged(lane: Lane, vs: seq<Visitor>, ls: seq<Local>) {
    && (forall i :: 0 <= i < |lane| && !lane[i].Blank? ==>
          lane[i].gen < |vs| && vs[lane[i].gen].id == Some(lane[i].key))
    && (forall i, j :: 0 <= i < j < |lane| && lane[i].Open? && lane[j].Open? ==> lane[i].gen != lane[j].gen)
    && (forall i, k :: 0 <= i < |lane| && 0 <= k < |ls| && lane[i].Open? ==> ls[k].gen != lane[i].gen)
    && (forall i :: 0 <= i < |lane| && lane[i].Open? ==> UsesOf(lane, lane[i].gen) == vs[lane[i].gen].forwarded)
  }

  ghost predicate LocalsOk(ls: seq<Local>, vs: seq<Visitor>) {
    && (forall k :: 0 <= k < |ls| ==> ls[k].gen < |vs| && vs[ls[k].gen].id == Some(ls[k].id))
    && (forall k, m :: 0 <= k < m < |ls| ==> ls[k].gen != ls[m].gen)
    && (forall k :: 0 <= k < |ls| ==> Received(ls[k]) <= vs[ls[k].gen].forwarded)
  }

  /** A linked connection has everything forwarded for it except what is still on the way. */
  ghost predicate LinksOk(links: Links, ls: seq<Local>, lane: Lane, vs: seq<Visitor>) {
    forall id :: id in links ==>
      && links[id] < |ls| && ls[links[id]].id == id
      && ls[links[id]].gen < |vs|
      && Received(ls[links[id]]) + UsesOf(lane, ls[links[id]].gen) == vs[ls[links[id]].gen].forwarded
  }

  ghost predicate ClientOk(links: Links, lane: Lane, vs: seq<Visitor>, ls: seq<Local>) {
    && DownTagged(lane, vs, ls)
    && LocalsOk(ls, vs)
    && LinksOk(links, ls, lane, vs)
    && Consistent(AllMessages, LinkView(links, ls), lane)
  }

  /** Server and client agree on whose id it is, once the packets on the way have arrived. */
  ghost predicate OwnersAgree(t: Table, view: View) {
    forall a :: a in t.clients_addr && t.clients_addr[a].id in view ==>
      view[t.clients_addr[a].id] == t.clients_addr[a].tx
  }

  ghost predicate Inv(s: Tunnel) {
    && VisitorsOk(s.visitors)
    && (forall i :: 0 <= i < |s.inbox| ==> OwnChannel(s.inbox[i]))
    && (s.serverUp ==>
          && ServerOk(s.table, InboxLane(s.inbox), s.visitors)
          && OwnersAgree(s.table, Final(LinkView(s.links, s.locals), WireLane(s.down))))
    && ClientOk(s.links, WireLane(s.down), s.visitors, s.locals)
  }

  lemma StartOk(s: Tunnel)
    requires s == START
    ensures Inv(s)
  {
    hide Consistent, Final, UsesOf, VisitorsOk, TableOk, InboxTagged, HoldersLive, NothingLost, DownTagged,
      LocalsOk, LinksOk;
    var inbox, down := InboxLane(s.inbox), WireLane(s.down);
    Empty(FreshKeys, TableView(s.table), inbox);
    Empty(AllMessages, LinkView(s.links, s.locals), down);
    NothingHappened(s.table, inbox, s.visitors);
    NothingLinked(s.links, down, s.visitors, s.locals);
  }

  lemma NothingHappened(t: Table, lane: Lane, vs: seq<Visitor>)
    requires t == EMPTY && |lane| == 0 && |vs| == 0
    ensures VisitorsOk(vs) && TableOk(t, vs) && InboxTagged(lane, vs)
    ensures NothingLost(lane, vs) && HoldersLive(TableView(t), vs)
  {
  }

  lemma NothingLinked(links: Links, lane: Lane, vs: seq<Visitor>, ls: seq<Local>)
    requires links == map[] && |lane| == 0 && |ls| == 0
    ensures DownTagged(lane, vs, ls) && LocalsOk(ls, vs) && LinksOk(links, ls, lane, vs)
  {
  }

  lemma Empty(care: Care, view: View, q: Lane)
    requires q == []
    ensures Consistent(care, view, q) && Final(view, q) == view
  {
  }

  // ----- The head of a lane -----

  lemma Head(care: Care, view: View, q: Lane)
    requires q != [] && Consistent(care, view, q)
    ensures Agrees(care, view, q[0]) && Consistent(care, After(view, q[0]), q[1..])
    ensures Final(view, q) == Final(After(view, q[0]), q[1..])
    ensures forall g :: UsesOf(q, g) == (if q[0].Use? && q[0].gen == g then [q[0].data] else []) + UsesOf(q[1..], g)
  {
  }

  // ----- The server's half -----

  /** Changes that the server's half does not see. */
  ghost predicate SameVisitors(vs: seq<Visitor>, ws: seq<Visitor>) {
    && |vs| == |ws|
    && forall g :: 0 <= g < |vs| ==>
         && vs[g].addr == ws[g].addr && vs[g].live == ws[g].live && vs[g].id == ws[g].id
         && vs[g].queued == ws[g].queued && vs[g].forwarded == ws[g].forwarded
  }

  lemma ServerFrame(t: Table, lane: Lane, vs: seq<Visitor>, ws: seq<Visitor>)
    requires ServerOk(t, lane, vs) && SameVisitors(vs, ws)
    ensures ServerOk(t, lane, ws)
  {
  }

  lemma ServerArrives(t: Table, lane: Lane, vs: seq<Visitor>, v: Visitor)
    requires ServerOk(t, lane, vs)
    requires v.live && v.id.None? && v.queued == [] && v.forwarded == []
    requires forall g :: 0 <= g < |vs| && vs[g].live ==> vs[g].addr != v.addr
    ensures ServerOk(t, lane + [Open(v.addr, |vs|)], vs + [v])
  {
    hide Consistent, Final, UsesOf, Bijective;
    var m := Open(v.addr, |vs|);
    AppendMark(FreshKeys, TableView(t), lane, m);
    forall g ensures UsesOf(lane + [m], g) == UsesOf(lane, g) {
      AppendUses(lane, m, g);
    }
    NoUses(lane, |vs|);
  }

  /** Whoever holds the address of a live visitor is that visitor. */
  lemma HolderOf(view: View, vs: seq<Visitor>, g: nat)
    requires VisitorsOk(vs) && HoldersLive(view, vs) && g < |vs| && vs[g].live
    ensures vs[g].addr in view ==> view[vs[g].addr] == g
  {
    if vs[g].addr in view {
      var h := view[vs[g].addr];
      assert !(h < g) && !(g < h);
    }
  }

  lemma ServerPosts(t: Table, lane: Lane, vs: seq<Visitor>, g: nat, data: Payload)
    requires VisitorsOk(vs) && ServerOk(t, lane, vs) && g < |vs| && vs[g].live
    ensures ServerOk(t, lane + [Use(vs[g].addr, g, data)], vs[g := vs[g].(queued := vs[g].queued + [data])])
  {
    hide Consistent, Final, UsesOf, Bijective;
    var m := Use(vs[g].addr, g, data);
    HolderOf(Final(TableView(t), lane), vs, g);
    AppendMark(FreshKeys, TableView(t), lane, m);
    forall h ensures UsesOf(lane + [m], h) == UsesOf(lane, h) + if h == g then [data] else [] {
      AppendUses(lane, m, h);
    }
  }

  lemma ServerLeaves(t: Table, lane: Lane, vs: seq<Visitor>, g: nat)
    requires VisitorsOk(vs) && ServerOk(t, lane, vs) && g < |vs| && vs[g].live
    ensures ServerOk(t, lane + [Shut(vs[g].addr, g)], vs[g := vs[g].(live := false)])
  {
    hide Consistent, Final, UsesOf, Bijective;
    var m := Shut(vs[g].addr, g);
    HolderOf(Final(TableView(t), lane), vs, g);
    AppendMark(FreshKeys, TableView(t), lane, m);
    forall h ensures UsesOf(lane + [m], h) == UsesOf(lane, h) {
      AppendUses(lane, m, h);
    }
  }

  /** A visitor that nobody can reach any more holds no address. */
  lemma ServerForgot(t: Table, lane: Lane, vs: seq<Visitor>, g: nat)
    requires ServerOk(t, lane, vs) && g < |vs|
    requires forall a :: a in t.clients_addr ==> t.clients_addr[a].tx != g
    requires forall i :: 0 <= i < |lane| && lane[i].Open? ==> lane[i].gen != g
    ensures ServerOk(t, lane, vs[g := vs[g].(live := false)])
  {
    hide Consistent, Final, UsesOf, Bijective;
    var final := Final(TableView(t), lane);
    forall a | a in final ensures final[a] != g {
      FinalSource(TableView(t), lane, a);
    }
  }

  lemma ServerAdds(t: Table, lane: Lane, vs: seq<Visitor>)
    requires VisitorsOk(vs) && ServerOk(t, lane, vs) && lane != [] && lane[0].Open?
    ensures lane[0].key !in t.clients_addr
    ensures match Inserting(t, lane[0].key, lane[0].gen)
            case Some((t', client)) =>
              ServerOk(t', lane[1..], vs[lane[0].gen := vs[lane[0].gen].(id := Some(client.id))])
            case None => true
  {
    hide Consistent, Final, UsesOf, Bijective, Inserting, VisitorsOk, TableOk;
    Head(FreshKeys, TableView(t), lane);
    Inserted(t, lane[0].key, lane[0].gen);
    if Inserting(t, lane[0].key, lane[0].gen).Some? {
      TableAdds(t, vs, lane[0].key, lane[0].gen);
    }
  }

  lemma TableAdds(t: Table, vs: seq<Visitor>, addr: SocketAddr, g: nat)
    requires TableOk(t, vs) && addr !in t.clients_addr
    requires g < |vs| && vs[g].addr == addr && vs[g].id.None?
    requires Inserting(t, addr, g).Some?
    ensures var (t', client) := Inserting(t, addr, g).value;
            TableOk(t', vs[g := vs[g].(id := Some(client.id))]) && TableView(t') == TableView(t)[addr := g]
  {
    hide Bijective, Inserting;
    OperationRefines(t, Add(addr, g));
    Inserted(t, addr, g);
  }

  lemma Inserted(t: Table, addr: SocketAddr, tx: Channel)
    ensures match Inserting(t, addr, tx)
            case Some((t', client)) =>
              && client.tx == tx
              && t'.clients_addr == t.clients_addr[addr := client] && t'.clients_id == t.clients_id[client.id := addr]
            case None => true
  {
  }

  lemma ServerForwards(t: Table, lane: Lane, vs: seq<Visitor>)
    requires ServerOk(t, lane, vs) && lane != [] && lane[0].Use? && lane[0].key in t.clients_addr
    ensures t.clients_addr[lane[0].key].tx == lane[0].gen
    ensures var v := vs[lane[0].gen];
            ServerOk(t, lane[1..], vs[lane[0].gen := v.(forwarded := v.forwarded + [lane[0].data])])
  {
    hide Consistent, Final, UsesOf, Bijective;
    Head(FreshKeys, TableView(t), lane);
  }

  lemma ServerRemoves(t: Table, lane: Lane, vs: seq<Visitor>)
    requires ServerOk(t, lane, vs) && lane != [] && lane[0].Shut?
    ensures lane[0].key in t.clients_addr ==> t.clients_addr[lane[0].key].tx == lane[0].gen
    ensures ServerOk(RemovingAddr(t, lane[0].key), lane[1..], vs)
  {
    hide Consistent, Final, UsesOf, TableOk, TableView, RemovingAddr;
    Head(FreshKeys, TableView(t), lane);
    ViewAt(t, lane[0].key);
    TableRemoves(t, vs, lane[0].key);
  }

  lemma ViewAt(t: Table, a: SocketAddr)
    ensures a in TableView(t) <==> a in t.clients_addr
    ensures a in t.clients_addr ==> TableView(t)[a] == t.clients_addr[a].tx
  {
  }

  lemma TableRemoves(t: Table, vs: seq<Visitor>, addr: SocketAddr)
    requires TableOk(t, vs)
    ensures TableOk(RemovingAddr(t, addr), vs) && TableView(RemovingAddr(t, addr)) == TableView(t) - {addr}
  {
    hide Bijective;
    OperationRefines(t, DropAddr(addr));
  }

  lemma ServerFrees(t: Table, lane: Lane, vs: seq<Visitor>, id: ClientID)
    requires ServerOk(t, lane, vs)
    ensures ServerOk(RemovingId(t, id), lane, vs)
  {
    hide Consistent, Final, UsesOf, Bijective;
    OperationRefines(t, DropId(id));
    var t' := RemovingId(t, id);
    Shrink(FreshKeys, TableView(t'), TableView(t), lane);
  }

  // ----- The client's half -----

  /** Visitors keep their id and what was forwarded for them. */
  ghost predicate SameForwarded(vs: seq<Visitor>, ws: seq<Visitor>) {
    && |vs| <= |ws|
    && forall g :: 0 <= g < |vs| ==> vs[g].id == ws[g].id && vs[g].forwarded == ws[g].forwarded
  }

  lemma ClientFrame(links: Links, lane: Lane, vs: seq<Visitor>, ws: seq<Visitor>, ls: seq<Local>)
    requires ClientOk(links, lane, vs, ls) && SameForwarded(vs, ws)
    ensures ClientOk(links, lane, ws, ls)
  {
    hide Consistent, Final, UsesOf, Received;
  }

  ghost predicate SameReceived(ls: seq<Local>, ms: seq<Local>) {
    && |ls| == |ms|
    && forall k :: 0 <= k < |ls| ==>
         ls[k].id == ms[k].id && ls[k].gen == ms[k].gen && Received(ls[k]) == Received(ms[k])
  }

  lemma ClientLocals(links: Links, lane: Lane, vs: seq<Visitor>, ls: seq<Local>, ms: seq<Local>)
    requires ClientOk(links, lane, vs, ls) && SameReceived(ls, ms)
    ensures ClientOk(links, lane, vs, ms) && LinkView(links, ms) == LinkView(links, ls)
  {
    hide Consistent, Final, UsesOf, Received;
    assert LinkView(links, ms) == LinkView(links, ls);
  }

  lemma ViewOpens(links: Links, ls: seq<Local>, id: ClientID, l: Local)
    requires forall i :: i in links ==> links[i] < |ls|
    ensures LinkView(links[id := |ls|], ls + [l]) == LinkView(links, ls)[id as nat := l.gen]
  {
  }

  lemma ViewStays(links: Links, ls: seq<Local>, k: nat, l: Local)
    requires k < |ls| && l.gen == ls[k].gen
    ensures LinkView(links, ls[k := l]) == LinkView(links, ls)
  {
  }

  lemma ViewForgets(links: Links, fewer: Links, ls: seq<Local>)
    requires forall id :: id in fewer ==> id in links && links[id] == fewer[id]
    ensures Within(LinkView(fewer, ls), LinkView(links, ls))
  {
  }

  lemma ViewOf(links: Links, ls: seq<Local>, id: ClientID)
    requires id in links && links[id] < |ls|
    ensures id as nat in LinkView(links, ls) && LinkView(links, ls)[id as nat] == ls[links[id]].gen
  {
  }

  /** A mark that carries no payload leaves every generation's payloads alone. */
  lemma AppendQuiet(lane: Lane, m: Mark)
    requires !m.Use?
    ensures forall g :: UsesOf(lane + [m], g) == UsesOf(lane, g)
  {
    forall g ensures UsesOf(lane + [m], g) == UsesOf(lane, g) {
      AppendUses(lane, m, g);
    }
  }

  lemma ClientJoined(
      links: Links, lane: Lane, vs: seq<Visitor>, ls: seq<Local>, g: nat, id: ClientID)
    requires VisitorsOk(vs) && ClientOk(links, lane, vs, ls) && g < |vs| && vs[g].id.None?
    ensures ClientOk(links, lane + [Open(id, g)], vs[g := vs[g].(id := Some(id))], ls)
  {
    hide Consistent, Final, UsesOf, Received, LinkView, DownTagged;
    var m := Open(id, g);
    AppendMark(AllMessages, LinkView(links, ls), lane, m);
    AppendQuiet(lane, m);
    JoinTagged(lane, vs, ls, g, id);
  }

  lemma JoinTagged(lane: Lane, vs: seq<Visitor>, ls: seq<Local>, g: nat, id: ClientID)
    requires VisitorsOk(vs) && DownTagged(lane, vs, ls) && LocalsOk(ls, vs) && g < |vs| && vs[g].id.None?
    ensures DownTagged(lane + [Open(id, g)], vs[g := vs[g].(id := Some(id))], ls)
  {
    hide UsesOf, Received;
    AppendQuiet(lane, Open(id, g));
    NoUses(lane, g);
  }

  lemma ClientSent(
      links: Links, lane: Lane, vs: seq<Visitor>, ls: seq<Local>, g: nat, id: ClientID, data: Payload)
    requires ClientOk(links, lane, vs, ls) && g < |vs| && vs[g].id == Some(id)
    requires id as nat in Final(LinkView(links, ls), lane) ==> Final(LinkView(links, ls), lane)[id as nat] == g
    ensures ClientOk(links, lane + [Use(id, g, data)], vs[g := vs[g].(forwarded := vs[g].forwarded + [data])], ls)
  {
    hide Consistent, Final, UsesOf, Received, LinkView;
    var m := Use(id, g, data);
    AppendMark(AllMessages, LinkView(links, ls), lane, m);
    forall h ensures UsesOf(lane + [m], h) == UsesOf(lane, h) + if h == g then [data] else [] {
      AppendUses(lane, m, h);
    }
  }

  lemma ClientParted(
      links: Links, lane: Lane, vs: seq<Visitor>, ls: seq<Local>, g: nat, id: ClientID)
    requires ClientOk(links, lane, vs, ls) && g < |vs| && vs[g].id == Some(id)
    requires id as nat in Final(LinkView(links, ls), lane) ==> Final(LinkView(links, ls), lane)[id as nat] == g
    ensures ClientOk(links, lane + [Shut(id, g)], vs, ls)
  {
    hide Consistent, Final, UsesOf, Received, LinkView;
    AppendMark(AllMessages, LinkView(links, ls), lane, Shut(id, g));
    AppendQuiet(lane, Shut(id, g));
  }

  lemma ClientBlank(links: Links, lane: Lane, vs: seq<Visitor>, ls: seq<Local>)
    requires ClientOk(links, lane, vs, ls)
    ensures ClientOk(links, lane + [Blank], vs, ls)
  {
    hide Consistent, Final, UsesOf, Received, LinkView;
    AppendMark(AllMessages, LinkView(links, ls), lane, Blank);
    AppendQuiet(lane, Blank);
  }

  /** Connections may be forgotten at any time. */
  lemma ClientForgets(links: Links, fewer: Links, lane: Lane, vs: seq<Visitor>, ls: seq<Local>)
    requires ClientOk(links, lane, vs, ls)
    requires forall id :: id in fewer ==> id in links && links[id] == fewer[id]
    ensures ClientOk(fewer, lane, vs, ls)
    ensures Within(Final(LinkView(fewer, ls), lane), Final(LinkView(links, ls), lane))
  {
    hide Consistent, Final, UsesOf, Received, LinkView;
    ViewForgets(links, fewer, ls);
    Shrink(AllMessages, LinkView(fewer, ls), LinkView(links, ls), lane);
  }

  ghost predicate HasConnection(ls: seq<Local>, gen: nat) {
    exists k :: 0 <= k < |ls| && ls[k].gen == gen
  }

  /** Taking a packet keeps the tags, given that payloads taken have a connection. */
  lemma TailTagged(lane: Lane, vs: seq<Visitor>, ls: seq<Local>)
    requires DownTagged(lane, vs, ls) && lane != []
    requires lane[0].Use? ==> HasConnection(ls, lane[0].gen)
    ensures DownTagged(lane[1..], vs, ls)
    ensures lane[0].Open? ==> UsesOf(lane[1..], lane[0].gen) == vs[lane[0].gen].forwarded
    ensures lane[0].Open? ==> forall i :: 0 <= i < |lane[1..]| && lane[1..][i].Open? ==> lane[1..][i].gen != lane[0].gen
  {
    hide UsesOf;
    UsesTail(lane);
  }

  /** The join reaches the client: the new connection is the newest generation's. */
  lemma ClientOpens(
      links: Links, lane: Lane, vs: seq<Visitor>, ls: seq<Local>, id: ClientID, l: Local)
    requires ClientOk(links, lane, vs, ls) && lane != []
    requires lane[0] == Open(id, l.gen) && l.id == id && Received(l) == []
    ensures ClientOk(links[id := |ls|], lane[1..], vs, ls + [l])
    ensures LinkView(links[id := |ls|], ls + [l]) == After(LinkView(links, ls), lane[0])
  {
    hide Consistent, Final, UsesOf, Received, DownTagged, LocalsOk, LinkView;
    LinkOpens(links, lane, vs, ls, id, l);
    ViewOpens(links, ls, id, l);
    LocalOpens(lane, vs, ls, l);
    Head(AllMessages, LinkView(links, ls), lane);
  }

  lemma LocalOpens(lane: Lane, vs: seq<Visitor>, ls: seq<Local>, l: Local)
    requires DownTagged(lane, vs, ls) && LocalsOk(ls, vs) && lane != []
    requires lane[0] == Open(l.id, l.gen) && Received(l) == []
    ensures DownTagged(lane[1..], vs, ls + [l]) && LocalsOk(ls + [l], vs)
  {
    hide UsesOf, Received;
    TailTagged(lane, vs, ls);
    assert lane[0].gen < |vs| && vs[l.gen].id == Some(l.id);
  }

  lemma LinkOpens(links: Links, lane: Lane, vs: seq<Visitor>, ls: seq<Local>, id: ClientID, l: Local)
    requires LinksOk(links, ls, lane, vs) && DownTagged(lane, vs, ls) && lane != []
    requires lane[0] == Open(id, l.gen) && l.id == id && Received(l) == []
    ensures LinksOk(links[id := |ls|], ls + [l], lane[1..], vs)
  {
    hide UsesOf, Received;
    UsesTail(lane);
    TailTagged(lane, vs, ls);
    assert forall g :: UsesOf(lane, g) == UsesOf(lane[1..], g);
  }

  lemma RenewLocal(lane: Lane, vs: seq<Visitor>, ls: seq<Local>, k: nat, l: Local)
    requires DownTagged(lane, vs, ls) && k < |ls| && l.gen == ls[k].gen
    ensures DownTagged(lane, vs, ls[k := l])
  {
    hide UsesOf;
  }

  /** A payload reaches the connection of its own generation. */
  lemma ClientDelivers(
      links: Links, lane: Lane, vs: seq<Visitor>, ls: seq<Local>, id: ClientID, l: Local)
    requires ClientOk(links, lane, vs, ls) && lane != [] && lane[0].Use? && lane[0].key == id as nat && id in links
    requires var k := links[id];
             k < |ls| ==> l.id == ls[k].id && l.gen == ls[k].gen && Received(l) == Received(ls[k]) + [lane[0].data]
    ensures links[id] < |ls| && ls[links[id]].gen == lane[0].gen
    ensures ClientOk(links, lane[1..], vs, ls[links[id] := l])
    ensures LinkView(links, ls[links[id] := l]) == LinkView(links, ls)
  {
    hide Consistent, Final, UsesOf, Received, LinkView, DownTagged;
    Head(AllMessages, LinkView(links, ls), lane);
    ViewOf(links, ls, id);
    ViewStays(links, ls, links[id], l);
    assert HasConnection(ls, ls[links[id]].gen);
    TailTagged(lane, vs, ls);
    RenewLocal(lane[1..], vs, ls, links[id], l);
    assert Received(l) + UsesOf(lane[1..], l.gen) == vs[l.gen].forwarded;
  }

  /** A payload for a connection that has ended makes the client forget it. */
  lemma ClientMisses(links: Links, lane: Lane, vs: seq<Visitor>, ls: seq<Local>, id: ClientID)
    requires ClientOk(links, lane, vs, ls) && lane != [] && lane[0].Use? && lane[0].key == id as nat && id in links
    ensures ClientOk(links - {id}, lane[1..], vs, ls)
    ensures Within(Final(LinkView(links - {id}, ls), lane[1..]), Final(LinkView(links, ls), lane))
  {
    hide Consistent, Final, UsesOf, Received, LinkView, DownTagged;
    Head(AllMessages, LinkView(links, ls), lane);
    ViewOf(links, ls, id);
    assert HasConnection(ls, ls[links[id]].gen);
    ViewForgets(links, links - {id}, ls);
    Shrink(AllMessages, LinkView(links - {id}, ls), LinkView(links, ls), lane[1..]);
    TailTagged(lane, vs, ls);
  }

  lemma ClientShuts(links: Links, lane: Lane, vs: seq<Visitor>, ls: seq<Local>, id: ClientID)
    requires ClientOk(links, lane, vs, ls) && lane != [] && lane[0].Shut? && lane[0].key == id as nat
    ensures ClientOk(links - {id}, lane[1..], vs, ls)
    ensures LinkView(links - {id}, ls) == After(LinkView(links, ls), lane[0])
  {
    hide Consistent, Final, UsesOf, Received, DownTagged, LocalsOk, LinkView, LinksOk;
    Head(AllMessages, LinkView(links, ls), lane);
    ViewShuts(links, ls, id, lane[0]);
    TailTagged(lane, vs, ls);
    LinkShuts(links, lane, vs, ls, id);
  }

  lemma ViewShuts(links: Links, ls: seq<Local>, id: ClientID, m: Mark)
    requires m.Shut? && m.key == id as nat
    ensures LinkView(links - {id}, ls) == After(LinkView(links, ls), m)
  {
  }

  lemma LinkShuts(links: Links, lane: Lane, vs: seq<Visitor>, ls: seq<Local>, id: ClientID)
    requires LinksOk(links, ls, lane, vs) && lane != [] && !lane[0].Use?
    ensures LinksOk(links - {id}, ls, lane[1..], vs)
  {
    hide UsesOf, Received;
    UsesTail(lane);
    assert forall g :: UsesOf(lane, g) == UsesOf(lane[1..], g);
  }

  lemma ClientSkips(links: Links, lane: Lane, vs: seq<Visitor>, ls: seq<Local>)
    requires ClientOk(links, lane, vs, ls) && lane != [] && lane[0].Blank?
    ensures ClientOk(links, lane[1..], vs, ls)
    ensures Final(LinkView(links, ls), lane[1..]) == Final(LinkView(links, ls), lane)
  {
    hide Consistent, Final, UsesOf, Received;
    Head(AllMessages, LinkView(links, ls), lane);
  }
}
