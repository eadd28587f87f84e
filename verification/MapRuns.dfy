/**
 * Settled runs, in which an id is only given out again once no removal of it by a former holder can still
 * arrive, and what every event of such a run keeps: the ids of both sides differ only by what is on the
 * way between them.
 */
module MapRuns {
  import opened Bytes
  import opened Packets
  import opened Distributors
  import opened ServerHandler
  import opened ClientHandler
  import opened Endpoints
  import opened Lanes
  import opened Tunnels
  import opened Invariants
  import opened Isolation
  import opened Origins
  import opened Arrivals
  import opened Holders
  import opened QuietRuns

  // ----- Settled runs -----

  predicate Shuts(lane: Lane, id: nat) {
    exists i :: 0 <= i < |lane| && lane[i].Shut? && lane[i].key == id
  }

  /**
   * Unless something on the way will stop the client, no former holder can have the id removed any more:
   * no removal is under way, no live connection can ask for one, and no join can start such a connection.
   */
  predicate Settled(s: Tunnel, id: ClientID) {
    Steady(s) ==>
      && !Shuts(WireLane(s.up), id) && !Shuts(ReplyLane(s.replies), id)
      && (forall k :: 0 <= k < |s.locals| && s.locals[k].live ==> s.locals[k].id != id)
      && NoJoin(WireLane(s.down), id)
  }

  predicate SettledEvent(s: Tunnel, e: Event) {
    e.ServerTakes? && s.inbox != [] && s.inbox[0].message.AddMinecraftClient? ==>
      match FirstFree(s.table.clients_id.Keys, 0)
      case Some(id) => Settled(s, id)
      case None => true
  }

  predicate SettledRun(s: Tunnel, events: seq<Event>)
    requires Possible(s, events)
    decreases |events|
  {
    events == [] || (SettledEvent(s, events[0]) && SettledRun(Step(s, events[0]), events[1..]))
  }

  /** An id that is quiet for all messages is settled, so every run that is quiet for them is a settled one. */
  lemma QuietIsSettled(s: Tunnel, id: ClientID)
    requires IdQuiet(AllMessages, s, id)
    ensures Settled(s, id)
  {
    hide ReadLength, SendLength, Closed, NoJoin, Spared;
    if Steady(s) {
      assert Sendable(s.replies) == s.replies;
      SparedAll(AllMessages, Ahead(s), id);
      var up, replies := WireLane(s.up), ReplyLane(s.replies);
      assert forall i :: 0 <= i < |up| ==> up[i] == Ahead(s)[i];
      assert forall i :: 0 <= i < |replies| ==> replies[i] == Ahead(s)[|up| + i];
    }
  }

  lemma {:induction false} QuietRunIsSettled(s: Tunnel, events: seq<Event>)
    requires Possible(s, events) && QuietRun(AllMessages, s, events)
    ensures SettledRun(s, events)
    decreases |events|
  {
    hide Enabled, Step, IdQuiet, Settled, FirstFree;
    if events != [] {
      var r := FirstFree(s.table.clients_id.Keys, 0);
      if r.Some? && IdQuiet(AllMessages, s, r.value) {
        QuietIsSettled(s, r.value);
      }
      QuietRunIsSettled(Step(s, events[0]), events[1..]);
    }
  }

  // ----- The invariant -----

  ghost predicate Alive(ls: seq<Local>, last: View) {
    forall k :: 0 <= k < |ls| && ls[k].live ==> ls[k].id in last && last[ls[k].id] == ls[k].gen
  }

  ghost predicate Pending(lane: Lane, last: View) {
    forall i :: 0 <= i < |lane| && lane[i].Open? ==> lane[i].key in last && last[lane[i].key] == lane[i].gen
  }

  /** The ids of both sides differ only by what is on the way. */
  ghost predicate Known(t: Table, final: View, up: Lane, replies: Lane) {
    && (forall id :: id in t.clients_id ==> id in final || Shuts(replies, id) || Shuts(up, id))
    && (forall id: ClientID :: id in final ==> id in t.clients_id)
    && (forall i :: 0 <= i < |up| && up[i].Shut? ==> up[i].key !in final)
  }

  /** A linked connection that has ended has told the client. */
  ghost predicate DeadLinks(links: Links, ls: seq<Local>, replies: Lane) {
    forall id :: id in links && links[id] < |ls| && !ls[links[id]].live ==> Shuts(replies, id)
  }

  /** Every removal is of an id that its own generation got last. */
  ghost predicate ShutsCurrent(lane: Lane, last: View) {
    forall i :: 0 <= i < |lane| && lane[i].Shut? ==> lane[i].key in last && last[lane[i].key] == lane[i].gen
  }

  ghost predicate Maps(s: Tunnel) {
    && ShutsCurrent(WireLane(s.up), s.lastGen) && ShutsCurrent(ReplyLane(s.replies), s.lastGen)
    && Alive(s.locals, s.lastGen) && Pending(WireLane(s.down), s.lastGen)
    && DeadLinks(s.links, s.locals, ReplyLane(s.replies))
    && (s.serverUp ==>
          Known(s.table, Final(LinkView(s.links, s.locals), WireLane(s.down)), WireLane(s.up), ReplyLane(s.replies)))
  }

  ghost predicate MapsOk(s: Tunnel) {
    Steady(s) ==> Maps(s)
  }

  lemma MapsStart(s: Tunnel)
    requires s == START
    ensures MapsOk(s)
  {
    hide ReadLength, SendLength, Closed;
    assert WireLane([]) == [] && ReplyLane([]) == [];
    MapsStartParts(s.table, WireLane(s.up), ReplyLane(s.replies), s.locals, s.lastGen, s.links,
                   Final(LinkView(s.links, s.locals), WireLane(s.down)));
  }

  lemma MapsStartParts(
      t: Table, up: Lane, replies: Lane, ls: seq<Local>, last: View, links: Links, final: View)
    requires t == EMPTY && up == [] && replies == [] && ls == []
    requires last == map[] && links == map[] && final == map[]
    ensures ShutsCurrent(up, last) && ShutsCurrent(replies, last) && Alive(ls, last) && Pending(up, last)
    ensures Known(t, final, up, replies) && DeadLinks(links, ls, replies)
  {
    hide Shuts;
  }

  // ----- Removals -----

  lemma ShutsCurrentGrows(lane: Lane, m: Mark, last: View)
    requires ShutsCurrent(lane, last)
    requires m.Shut? ==> m.key in last && last[m.key] == m.gen
    ensures ShutsCurrent(lane + [m], last)
  {
  }

  lemma ShutsCurrentShrinks(lane: Lane, last: View)
    requires ShutsCurrent(lane, last) && lane != []
    ensures ShutsCurrent(lane[1..], last)
    ensures lane[0].Shut? ==> lane[0].key in last && last[lane[0].key] == lane[0].gen
  {
  }

  lemma ShutsCurrentAssigned(lane: Lane, last: View, id: nat, g: nat)
    requires ShutsCurrent(lane, last) && !Shuts(lane, id)
    ensures ShutsCurrent(lane, last[id := g])
  {
  }

  lemma ShutsGrow(lane: Lane, m: Mark)
    ensures forall id :: Shuts(lane, id) ==> Shuts(lane + [m], id)
    ensures m.Shut? ==> Shuts(lane + [m], m.key)
  {
    forall id | Shuts(lane, id) ensures Shuts(lane + [m], id) {
      var i :| 0 <= i < |lane| && lane[i].Shut? && lane[i].key == id;
      assert (lane + [m])[i] == lane[i];
    }
    assert (lane + [m])[|lane|] == m;
  }

  lemma ShutsTail(lane: Lane, id: nat)
    requires Shuts(lane, id) && !(lane[0].Shut? && lane[0].key == id)
    ensures Shuts(lane[1..], id)
  {
    var i :| 0 <= i < |lane| && lane[i].Shut? && lane[i].key == id;
    assert lane[1..][i - 1] == lane[i];
  }

  // ----- The server's loop -----

  lemma KnownJoined(t: Table, t': Table, final: View, up: Lane, replies: Lane, id: ClientID, g: nat)
    requires Known(t, final, up, replies) && !Shuts(up, id) && t'.clients_id.Keys == t.clients_id.Keys + {id}
    ensures Known(t', final[id as nat := g], up, replies)
  {
    assert forall i :: 0 <= i < |up| && up[i].Shut? ==> up[i].key != id as nat;
  }

  /** Assigning an id that nothing removes any more. */
  lemma AssignedParts(s: Tunnel, id: ClientID, g: nat)
    requires Maps(s) && Steady(s) && Settled(s, id)
    ensures var last := s.lastGen[id as nat := g];
            && ShutsCurrent(WireLane(s.up), last) && ShutsCurrent(ReplyLane(s.replies), last)
            && Alive(s.locals, last) && Pending(WireLane(s.down), last)
  {
    hide Shuts, ShutsCurrent, DeadLinks, Known, Final, LinkView, ReadLength, SendLength, Closed;
    ShutsCurrentAssigned(WireLane(s.up), s.lastGen, id, g);
    ShutsCurrentAssigned(ReplyLane(s.replies), s.lastGen, id, g);
  }

  lemma PendingWith(q: seq<WireItem>, x: WireItem, last: View)
    requires Pending(WireLane(q), last)
    requires x.packet.ProxyJoin? ==> var m := WireMark(x); m.key in last && last[m.key] == m.gen
    ensures Pending(WireLane(q + [x]), last)
  {
    assert WireLane(q + [x]) == WireLane(q) + [WireMark(x)];
  }

  lemma MapsTakesJoin(s: Tunnel)
    requires Inv(s) && MapsOk(s) && s.serverUp && s.inbox != [] && s.inbox[0].message.AddMinecraftClient?
    requires OnInbox(s.table, s.inbox[0].message).running && SettledEvent(s, ServerTakes)
    ensures MapsOk(ServerTakesStep(s))
  {
    hide ShutsCurrent, Alive, Pending, DeadLinks, Known, Final, LinkView, ReadLength, SendLength, Closed, Shuts,
      Settled, ServerOk, ClientOk, VisitorsOk, OwnersAgree, Consistent, UsesOf, TableView, Bijective, FirstFree;
    var addr, g := s.inbox[0].message.addr, s.inbox[0].gen;
    var s' := ServerTakesStep(s);
    var (t', client) := Inserting(s.table, addr, g).value;
    var id := client.id;
    var lane, view := WireLane(s.down), LinkView(s.links, s.locals);
    assert OwnChannel(s.inbox[0]);
    TaggedHead(s);
    Inserted(s.table, addr, g);
    WireGrows(s.down, ProxyJoin(id), g);
    SteadySent(s, s', WireItem(ProxyJoin(id), g));
    if Steady(s') {
      assert Settled(s, id);
      AssignedParts(s, id, g);
      PendingWith(s.down, WireItem(ProxyJoin(id), g), s'.lastGen);
      AppendMark(AllMessages, view, lane, Open(id, g));
      NotRemoved(s, id);
      KnownJoined(s.table, t', Final(view, lane), WireLane(s.up), ReplyLane(s.replies), id, g);
    }
  }

  lemma NotRemoved(s: Tunnel, id: ClientID)
    requires Steady(s) && Settled(s, id)
    ensures !Shuts(WireLane(s.up), id)
  {
  }

  lemma MapsTakesPacket(s: Tunnel)
    requires MapsOk(s) && s.serverUp && s.inbox != [] && s.inbox[0].message.Packet?
    requires s.inbox[0].message.addr in s.table.clients_addr
    ensures MapsOk(ServerTakesStep(s))
  {
    hide ShutsCurrent, Alive, Pending, DeadLinks, Known, Final, LinkView, ReadLength, SendLength, Closed, Shuts;
    var client, data := s.table.clients_addr[s.inbox[0].message.addr], s.inbox[0].message.data;
    var x := WireItem(DataPacket(client.id, data), client.tx);
    WireGrows(s.down, x.packet, client.tx);
    SteadySent(s, ServerTakesStep(s), x);
    AppendMark(AllMessages, LinkView(s.links, s.locals), WireLane(s.down), WireMark(x));
    if Steady(s) {
      PendingWith(s.down, x, s.lastGen);
    }
  }

  lemma KnownRemoved(t: Table, t': Table, final: View, up: Lane, replies: Lane, id: ClientID)
    requires Known(t, final, up, replies) && t'.clients_id.Keys == t.clients_id.Keys - {id}
    ensures Known(t', final - {id as nat}, up, replies)
    ensures id as nat !in final ==> Known(t', final, up, replies)
  {
    hide Shuts;
  }

  lemma MapsTakesRemove(s: Tunnel)
    requires Inv(s) && MapsOk(s) && s.serverUp && s.inbox != [] && s.inbox[0].message.RemoveMinecraftClient?
    ensures MapsOk(ServerTakesStep(s))
  {
    hide ShutsCurrent, Alive, Pending, DeadLinks, Known, Final, LinkView, ReadLength, SendLength, Closed, Shuts,
      ServerOk, ClientOk, VisitorsOk, OwnersAgree, Consistent, UsesOf, TableView;
    var addr := s.inbox[0].message.addr;
    var t' := RemovingAddr(s.table, addr);
    if addr in s.table.clients_addr {
      var client := s.table.clients_addr[addr];
      var x := WireItem(ProxyDisconnect(client.id), client.tx);
      var lane, view := WireLane(s.down), LinkView(s.links, s.locals);
      TableBijective(s);
      WireGrows(s.down, x.packet, client.tx);
      SteadySent(s, ServerTakesStep(s), x);
      AppendMark(AllMessages, view, lane, WireMark(x));
      if Steady(s) {
        PendingWith(s.down, x, s.lastGen);
        KnownRemoved(s.table, t', Final(view, lane), WireLane(s.up), ReplyLane(s.replies), client.id);
      }
    } else {
      WireGrows(s.down, UnknownPacket, 0);
    }
  }

  // ----- Packets that reach the server -----

  lemma KnownHeard(t: Table, final: View, up: Lane, replies: Lane)
    requires Known(t, final, up, replies) && up != [] && !up[0].Shut?
    ensures Known(t, final, up[1..], replies)
  {
    forall id | Shuts(up, id) ensures Shuts(up[1..], id) {
      ShutsTail(up, id);
    }
  }

  /** A disconnect that reaches the server is for an id the client has already forgotten. */
  lemma KnownFreed(t: Table, t': Table, final: View, up: Lane, replies: Lane)
    requires Known(t, final, up, replies) && up != [] && up[0].Shut?
    requires forall id: ClientID :: id in t'.clients_id <==> id in t.clients_id && id as nat != up[0].key
    ensures Known(t', final, up[1..], replies)
  {
    forall id | Shuts(up, id) && id != up[0].key ensures Shuts(up[1..], id) {
      ShutsTail(up, id);
    }
  }

  lemma MapsHearsData(s: Tunnel)
    requires MapsOk(s) && s.serverUp && s.up != [] && s.up[0].packet.ProxyData?
    ensures MapsOk(ServerReadsStep(s))
  {
    hide ShutsCurrent, Alive, Pending, DeadLinks, Known, Final, LinkView, ReadLength, SendLength, Closed, Shuts;
    WireShrinks(s.up);
    WireGrows(s.down, s.up[0].packet, 0);
    if Steady(s) {
      ShutsCurrentShrinks(WireLane(s.up), s.lastGen);
      KnownHeard(s.table, Final(LinkView(s.links, s.locals), WireLane(s.down)), WireLane(s.up), ReplyLane(s.replies));
    }
  }

  lemma MapsHearsDisconnect(s: Tunnel)
    requires Inv(s) && MapsOk(s) && s.serverUp && s.up != [] && s.up[0].packet.ProxyDisconnect?
    ensures MapsOk(ServerReadsStep(s))
  {
    hide ShutsCurrent, Alive, Pending, DeadLinks, Known, Final, LinkView, ReadLength, SendLength, Closed, Shuts,
      ServerOk, ClientOk, VisitorsOk, OwnersAgree, Consistent, UsesOf, TableView;
    var t' := RemovingId(s.table, s.up[0].packet.disconnected);
    TableBijective(s);
    WireShrinks(s.up);
    WireGrows(s.down, s.up[0].packet, 0);
    if Steady(s) {
      ShutsCurrentShrinks(WireLane(s.up), s.lastGen);
      var final := Final(LinkView(s.links, s.locals), WireLane(s.down));
      KnownFreed(s.table, t', final, WireLane(s.up), ReplyLane(s.replies));
    }
  }

  lemma MapsHearsOther(s: Tunnel)
    requires MapsOk(s) && s.serverUp && s.up != []
    requires !s.up[0].packet.ProxyDisconnect? && !s.up[0].packet.ProxyData?
    ensures MapsOk(ServerReadsStep(s))
  {
    hide ShutsCurrent, Alive, Pending, DeadLinks, Known, Final, LinkView, ReadLength, SendLength, Closed, Shuts;
    var p, lane := s.up[0].packet, WireLane(s.down);
    var x := WireItem(if p.ProxyPing? then ProxyPong(p.ping) else p, 0);
    WireShrinks(s.up);
    WireGrows(s.down, x.packet, 0);
    if p.ProxyPing? {
      SteadySent(s, ServerReadsStep(s), x);
      AppendMark(AllMessages, LinkView(s.links, s.locals), lane, Blank);
    }
    if Steady(s) {
      if p.ProxyPing? {
        PendingWith(s.down, x, s.lastGen);
      }
      ShutsCurrentShrinks(WireLane(s.up), s.lastGen);
      KnownHeard(s.table, Final(LinkView(s.links, s.locals), lane), WireLane(s.up), ReplyLane(s.replies));
    }
  }

  // ----- The client's loop -----

  lemma KnownMoves(t: Table, final: View, up: Lane, replies: Lane)
    requires Known(t, final, up, replies) && replies != [] && !replies[0].Shut?
    ensures Known(t, final, up + [replies[0]], replies[1..])
  {
    forall id | Shuts(replies, id) ensures Shuts(replies[1..], id) {
      ShutsTail(replies, id);
    }
    ShutsGrow(up, replies[0]);
  }

  /** The client forgets an id and tells the server. */
  lemma KnownParts(t: Table, final: View, final': View, up: Lane, replies: Lane)
    requires Known(t, final, up, replies) && replies != [] && replies[0].Shut?
    requires replies[0].key !in final' && Within(final', final)
    requires forall k :: k in final && k != replies[0].key ==> k in final'
    ensures Known(t, final', up + [replies[0]], replies[1..])
  {
    ShutsGrow(up, replies[0]);
    forall id | Shuts(replies, id) && id != replies[0].key ensures Shuts(replies[1..], id) {
      ShutsTail(replies, id);
    }
  }

  /** Nothing on the way down opens an id that a connection holds. */
  lemma NoPendingJoin(s: Tunnel, id: nat, gen: nat)
    requires Inv(s) && Pending(WireLane(s.down), s.lastGen)
    requires FromLocal(s.locals, id, gen) && id in s.lastGen && s.lastGen[id] == gen
    ensures forall g :: !Opens(WireLane(s.down), id, g)
  {
    hide Final, LinkView, UsesOf, Consistent, ServerOk, LinksOk, LocalsOk, OwnersAgree, VisitorsOk;
    var lane := WireLane(s.down);
    forall g ensures !Opens(lane, id, g) {
    }
  }

  /** Forgetting one link changes what becomes of that id only. */
  lemma FinalForgets(links: Links, ls: seq<Local>, lane: Lane, id: ClientID)
    ensures var final, final' := Final(LinkView(links, ls), lane), Final(LinkView(links - {id}, ls), lane);
            && (forall k :: k in final && k != id as nat ==> k in final')
            && ((forall g :: !Opens(lane, id, g)) ==> id as nat !in final')
  {
    hide Final, Opens;
    var view, view' := LinkView(links, ls), LinkView(links - {id}, ls);
    forall k | k in Final(view, lane) && k != id as nat ensures k in Final(view', lane) {
      FinalLocal(view, view', lane, k);
    }
    if id as nat in Final(view', lane) {
      FinalSource(view', lane, id);
    }
  }

  lemma DeadLinksShrink(links: Links, ls: seq<Local>, replies: Lane, id: ClientID)
    requires DeadLinks(links, ls, replies) && replies != [] && (replies[0].Shut? ==> replies[0].key == id as nat)
    ensures DeadLinks(links - {id}, ls, replies[1..])
    ensures !replies[0].Shut? ==> DeadLinks(links, ls, replies[1..])
  {
    forall k | Shuts(replies, k) && (replies[0].Shut? ==> k != id as nat) ensures Shuts(replies[1..], k) {
      var i :| 0 <= i < |replies| && replies[i].Shut? && replies[i].key == k;
      assert replies[1..][i - 1] == replies[i];
    }
  }

  lemma MapsTakesReply(s: Tunnel)
    requires MapsOk(s) && s.clientUp && s.replies != [] && s.replies[0].message.FromConnection?
    ensures MapsOk(ClientTakesStep(s))
  {
    hide ShutsCurrent, Alive, Pending, DeadLinks, Known, Final, LinkView, ReadLength, Closed, Shuts;
    var s', m := ClientTakesStep(s), s.replies[0].message;
    var up, replies := WireLane(s.up), ReplyLane(s.replies);
    ReplyShrinks(s.replies);
    WireGrows(s.up, DataPacket(m.id, m.data), s.replies[0].gen);
    SteadyLess(s, s');
    if Steady(s) {
      ShutsCurrentShrinks(replies, s.lastGen);
      ShutsCurrentGrows(up, replies[0], s.lastGen);
      DeadLinksShrink(s.links, s.locals, replies, 0);
      if s.serverUp {
        KnownMoves(s.table, Final(LinkView(s.links, s.locals), WireLane(s.down)), up, replies);
      }
    }
  }

  lemma MapsTakesRemoval(s: Tunnel)
    requires Inv(s) && Sourced(s) && MapsOk(s)
    requires s.clientUp && s.replies != [] && s.replies[0].message.RemoveConnection?
    ensures MapsOk(ClientTakesStep(s))
  {
    hide ShutsCurrent, Alive, Pending, DeadLinks, Known, Final, LinkView, ReadLength, Closed, Shuts, Sources, Opens,
      FromLocal, ServerOk, DownTagged, LinksOk, LocalsOk, VisitorsOk, OwnersAgree, Consistent, UsesOf;
    var id := s.replies[0].message.id;
    var up, replies, lane := WireLane(s.up), ReplyLane(s.replies), WireLane(s.down);
    ReplyShrinks(s.replies);
    WireGrows(s.up, ProxyDisconnect(id), s.replies[0].gen);
    SteadyLess(s, ClientTakesStep(s));
    if Steady(s) {
      SourcesShrink(replies, s.locals);
      ShutsCurrentShrinks(replies, s.lastGen);
      ShutsCurrentGrows(up, replies[0], s.lastGen);
      DeadLinksShrink(s.links, s.locals, replies, id);
      if s.serverUp {
        NoPendingJoin(s, id, s.replies[0].gen);
        FinalForgets(s.links, s.locals, lane, id);
        ClientForgets(s.links, s.links - {id}, lane, s.visitors, s.locals);
        var final, final' := Final(LinkView(s.links, s.locals), lane), Final(LinkView(s.links - {id}, s.locals), lane);
        KnownParts(s.table, final, final', up, replies);
      }
    }
  }

  lemma KnownBlank(t: Table, final: View, up: Lane, replies: Lane)
    requires Known(t, final, up, replies)
    ensures Known(t, final, up + [Blank], replies)
  {
    hide Shuts;
    ShutsGrow(up, Blank);
  }

  lemma MapsPings(s: Tunnel, time: u16)
    requires MapsOk(s)
    ensures MapsOk(s.(up := s.up + [WireItem(ProxyPing(time), 0)]))
  {
    hide ShutsCurrent, Alive, Pending, DeadLinks, Known, Final, LinkView, ReadLength, SendLength, Closed, Shuts;
    var up := WireLane(s.up);
    WireGrows(s.up, ProxyPing(time), 0);
    if Steady(s) {
      ShutsCurrentGrows(up, Blank, s.lastGen);
      if s.serverUp {
        KnownBlank(s.table, Final(LinkView(s.links, s.locals), WireLane(s.down)), up, ReplyLane(s.replies));
      }
    }
  }

  // ----- Packets that reach the client -----

  lemma DeadLinksOpen(links: Links, ls: seq<Local>, replies: Lane, id: ClientID, l: Local)
    requires DeadLinks(links, ls, replies) && l.live && forall i :: i in links ==> links[i] < |ls|
    ensures DeadLinks(links[id := |ls|], ls + [l], replies)
  {
    hide Shuts;
  }

  lemma DeadLinksFewer(links: Links, ls: seq<Local>, replies: Lane, id: ClientID)
    requires DeadLinks(links, ls, replies)
    ensures DeadLinks(links - {id}, ls, replies)
    ensures id in links && links[id] < |ls| && !ls[links[id]].live ==> Shuts(replies, id)
  {
    hide Shuts;
  }

  lemma KnownMissed(t: Table, final: View, final': View, up: Lane, replies: Lane, id: nat)
    requires Known(t, final, up, replies) && Within(final', final) && Shuts(replies, id)
    requires forall k :: k in final && k != id ==> k in final'
    ensures Known(t, final', up, replies)
  {
    hide Shuts;
  }

  /** Taking a payload and forgetting its link changes what becomes of that id only. */
  lemma FinalMisses(links: Links, ls: seq<Local>, lane: Lane, id: ClientID)
    requires lane != [] && lane[0].Use?
    ensures var final, final' := Final(LinkView(links, ls), lane), Final(LinkView(links - {id}, ls), lane[1..]);
            forall k :: k in final && k != id as nat ==> k in final'
    ensures Final(LinkView(links, ls), lane[1..]) == Final(LinkView(links, ls), lane)
  {
    FinalForgets(links, ls, lane[1..], id);
  }

  lemma LinksInRange(s: Tunnel)
    requires Inv(s)
    ensures forall id :: id in s.links ==> s.links[id] < |s.locals|
  {
    forall id | id in s.links ensures s.links[id] < |s.locals| {
      LinkKnown(s, id);
    }
  }

  lemma AliveJoins(ls: seq<Local>, last: View, l: Local)
    requires Alive(ls, last) && l.id in last && last[l.id] == l.gen
    ensures Alive(ls + [l], last)
  {
  }

  lemma PendingTail(q: seq<WireItem>, last: View)
    requires q != [] && Pending(WireLane(q), last)
    ensures Pending(WireLane(q[1..]), last)
    ensures q[0].packet.ProxyJoin? ==> var m := WireMark(q[0]); m.key in last && last[m.key] == m.gen
  {
    WireShrinks(q);
  }

  lemma MapsHearsJoin(s: Tunnel)
    requires Inv(s) && MapsOk(s) && s.clientUp && s.down != [] && s.down[0].packet.ProxyJoin?
    ensures MapsOk(ClientReadsStep(s))
  {
    hide ShutsCurrent, Alive, Pending, DeadLinks, Known, Final, LinkView, ReadLength, SendLength, Closed, Shuts,
      ServerOk, DownTagged, LinksOk, LocalsOk, VisitorsOk, OwnersAgree, Consistent, UsesOf;
    var id := s.down[0].packet.joined;
    var l := Local(id, s.down[0].gen, false, true, [], [], []);
    WireShrinks(s.down);
    SteadyRead(s);
    if Steady(s) {
      PendingTail(s.down, s.lastGen);
      AliveJoins(s.locals, s.lastGen, l);
      LinksInRange(s);
      DeadLinksOpen(s.links, s.locals, ReplyLane(s.replies), id, l);
      ClientOpens(s.links, WireLane(s.down), s.visitors, s.locals, id, l);
      Head(AllMessages, LinkView(s.links, s.locals), WireLane(s.down));
    }
  }

  /** A packet that opens nothing is taken while the connections stay. */
  lemma MapsSkips(s: Tunnel)
    requires MapsOk(s) && s.clientUp && s.down != [] && !s.down[0].packet.ProxyJoin? && ClientReadsStep(s).clientUp
    requires Steady(s) ==> DeadLinks(ClientReadsStep(s).links, s.locals, ReplyLane(s.replies))
    requires s.serverUp && Steady(s) ==>
               var final := Final(LinkView(ClientReadsStep(s).links, s.locals), WireLane(s.down[1..]));
               Known(s.table, final, WireLane(s.up), ReplyLane(s.replies))
    ensures MapsOk(s.(down := s.down[1..], links := ClientReadsStep(s).links))
  {
    hide ShutsCurrent, Alive, Pending, DeadLinks, Known, Final, LinkView, ReadLength, SendLength, Closed, Shuts,
      OnProxyPacket, ClientReadsStep;
    SteadyRead(s);
    if Steady(s) {
      PendingTail(s.down, s.lastGen);
    }
  }

  lemma MapsMisses(s: Tunnel, id: ClientID)
    requires Inv(s) && MapsOk(s) && s.clientUp && s.down != [] && s.down[0].packet.ProxyData?
    requires s.down[0].packet.proxyData.client_id == id && id in s.links
    requires s.links[id] < |s.locals| && !s.locals[s.links[id]].live
    ensures MapsOk(ClientReadsStep(s))
  {
    hide ShutsCurrent, Alive, Pending, DeadLinks, Known, Final, LinkView, ReadLength, SendLength, Shuts, Steady,
      ServerOk, DownTagged, LinksOk, LocalsOk, VisitorsOk, OwnersAgree, Consistent, UsesOf;
    var up, replies, lane := WireLane(s.up), ReplyLane(s.replies), WireLane(s.down);
    WireShrinks(s.down);
    FinalMisses(s.links, s.locals, lane, id);
    ClientMisses(s.links, lane, s.visitors, s.locals, id);
    if Steady(s) {
      DeadLinksFewer(s.links, s.locals, replies, id);
      if s.serverUp {
        var final := Final(LinkView(s.links, s.locals), lane);
        KnownMissed(s.table, final, Final(LinkView(s.links - {id}, s.locals), lane[1..]), up, replies, id);
      }
    }
    MapsSkips(s);
  }

  /** Taking a packet that changes no link. */
  lemma MapsStays(s: Tunnel)
    requires MapsOk(s) && s.clientUp && s.down != [] && !s.down[0].packet.ProxyJoin?
    requires ClientReadsStep(s).clientUp && ClientReadsStep(s).links == s.links
    requires Final(LinkView(s.links, s.locals), WireLane(s.down))
          == Final(LinkView(s.links, s.locals), WireLane(s.down[1..]))
    ensures MapsOk(s.(down := s.down[1..]))
  {
    hide ShutsCurrent, Alive, Pending, DeadLinks, Known, Final, LinkView, Steady, ClientReadsStep;
    MapsSkips(s);
  }

  lemma MapsHearsParting(s: Tunnel)
    requires Inv(s) && MapsOk(s) && s.clientUp && s.down != [] && s.down[0].packet.ProxyDisconnect?
    ensures MapsOk(ClientReadsStep(s))
  {
    hide ShutsCurrent, Alive, Pending, DeadLinks, Known, Final, LinkView, Steady, ServerOk, DownTagged, LinksOk,
      LocalsOk, VisitorsOk, OwnersAgree, Consistent, UsesOf;
    var id := s.down[0].packet.disconnected;
    WireShrinks(s.down);
    ClientShuts(s.links, WireLane(s.down), s.visitors, s.locals, id);
    Head(AllMessages, LinkView(s.links, s.locals), WireLane(s.down));
    if Steady(s) {
      DeadLinksFewer(s.links, s.locals, ReplyLane(s.replies), id);
    }
    MapsSkips(s);
  }

  /** A stopped client promises nothing. */
  lemma MapsHalts(s: Tunnel)
    requires !s.clientUp
    ensures MapsOk(s)
  {
    hide Maps;
  }

  lemma MapsHearsPayload(s: Tunnel)
    requires Inv(s) && MapsOk(s) && s.clientUp && s.down != [] && s.down[0].packet.ProxyData?
    ensures MapsOk(ClientReadsStep(s))
  {
    hide MapsOk, Final, LinkView, ServerOk, DownTagged, LocalsOk, LinksOk, VisitorsOk, OwnersAgree, Consistent,
      UsesOf;
    var d := s.down[0].packet.proxyData;
    var id := d.client_id;
    WireShrinks(s.down);
    if id !in s.links {
      MapsHalts(ClientReadsStep(s));
    } else if s.links[id] in Closed(s.locals) {
      MapsMisses(s, id);
    } else {
      var k := s.links[id];
      LinkKnown(s, id);
      FinalMisses(s.links, s.locals, WireLane(s.down), id);
      MapsStays(s);
      var s' := s.(down := s.down[1..]);
      MapsLocal(s', k, s'.locals[k].(rx := s'.locals[k].rx + [d.packet.data]));
    }
  }

  lemma MapsHears(s: Tunnel)
    requires Inv(s) && MapsOk(s) && Enabled(s, ClientReads)
    ensures MapsOk(ClientReadsStep(s))
  {
    hide MapsOk, Final, LinkView, ServerOk, ClientOk, VisitorsOk, OwnersAgree, Consistent, UsesOf;
    match s.down[0].packet
    case ProxyJoin(_) => MapsHearsJoin(s);
    case ProxyData(_) => MapsHearsPayload(s);
    case ProxyDisconnect(_) => MapsHearsParting(s);
    case ProxyPong(_) =>
      WireShrinks(s.down);
      ClientSkips(s.links, WireLane(s.down), s.visitors, s.locals);
      MapsStays(s);
    case _ => MapsHalts(ClientReadsStep(s));
  }

  // ----- Local connections -----

  /** Connections whose socket, channel or life moves. */
  lemma MapsLocals(s: Tunnel, ms: seq<Local>)
    requires MapsOk(s) && |ms| == |s.locals|
    requires forall k :: 0 <= k < |ms| ==>
               ms[k].id == s.locals[k].id && ms[k].gen == s.locals[k].gen && (ms[k].live ==> s.locals[k].live)
    requires Steady(s) ==> DeadLinks(s.links, ms, ReplyLane(s.replies))
    ensures MapsOk(s.(locals := ms))
  {
    hide ShutsCurrent, Pending, DeadLinks, Known, Final, LinkView, ReadLength, SendLength, Shuts;
    ViewSame(s.links, s.locals, ms);
    SteadyLess(s, s.(locals := ms));
  }

  lemma ViewSame(links: Links, ls: seq<Local>, ms: seq<Local>)
    requires |ms| == |ls| && forall k :: 0 <= k < |ms| ==> ms[k].gen == ls[k].gen
    ensures LinkView(links, ms) == LinkView(links, ls)
  {
  }

  lemma DeadLinksSame(links: Links, ls: seq<Local>, replies: Lane, k: nat, l: Local)
    requires DeadLinks(links, ls, replies) && k < |ls| && l.live == ls[k].live
    ensures DeadLinks(links, ls[k := l], replies)
  {
    hide Shuts;
  }

  lemma MapsLocal(s: Tunnel, k: nat, l: Local)
    requires MapsOk(s) && k < |s.locals|
    requires var o := s.locals[k]; l.id == o.id && l.gen == o.gen && l.live == o.live
    ensures MapsOk(s.(locals := s.locals[k := l]))
  {
    hide ShutsCurrent, Alive, Pending, DeadLinks, Known, Final, LinkView, ReadLength, SendLength, Closed, Shuts,
      Steady;
    if Steady(s) {
      DeadLinksSame(s.links, s.locals, ReplyLane(s.replies), k, l);
    }
    MapsLocals(s, s.locals[k := l]);
  }

  lemma KnownReplies(t: Table, final: View, up: Lane, replies: Lane, m: Mark)
    requires Known(t, final, up, replies)
    ensures Known(t, final, up, replies + [m])
  {
    hide Shuts;
    ShutsGrow(replies, m);
  }

  lemma DeadLinksGrow(links: Links, ls: seq<Local>, replies: Lane, m: Mark)
    requires DeadLinks(links, ls, replies)
    ensures DeadLinks(links, ls, replies + [m])
  {
    hide Shuts;
    ShutsGrow(replies, m);
  }

  /** One more reply. */
  lemma MapsReplies(s: Tunnel, i: ReplyItem)
    requires MapsOk(s) && s.clientUp
    requires Steady(s) && i.message.RemoveConnection? ==>
               i.message.id in s.lastGen && s.lastGen[i.message.id] == i.gen
    ensures MapsOk(s.(replies := s.replies + [i]))
  {
    hide ShutsCurrent, Alive, Pending, DeadLinks, Known, Final, LinkView, ReadLength, SendLength, Closed, Shuts;
    var s' := s.(replies := s.replies + [i]);
    SendAppends(s.replies, i);
    SteadyLess(s, s');
    ReplyGrows(s.replies, i);
    if Steady(s) {
      ShutsCurrentGrows(ReplyLane(s.replies), ReplyMark(i), s.lastGen);
      DeadLinksGrow(s.links, s.locals, ReplyLane(s.replies), ReplyMark(i));
      if s.serverUp {
        var final := Final(LinkView(s.links, s.locals), WireLane(s.down));
        KnownReplies(s.table, final, WireLane(s.up), ReplyLane(s.replies), ReplyMark(i));
      }
    }
  }

  lemma MapsProduces(s: Tunnel, k: nat, m: ConnectionMessage)
    requires MapsOk(s) && k < |s.locals| && !m.RemoveConnection?
    ensures MapsOk(Reply(s, k, m))
  {
    hide MapsOk;
    if s.clientUp {
      var l := s.locals[k];
      var l' := if m.FromConnection? then l.(produced := l.produced + [m.data]) else l;
      MapsReplies(s, ReplyItem(m, l.gen));
      MapsLocal(s.(replies := s.replies + [ReplyItem(m, l.gen)]), k, l');
    }
  }

  /** A connection may end once the client has forgotten it or will be told. */
  lemma DeadLinksEnd(s: Tunnel, k: nat)
    requires Inv(s) && DeadLinks(s.links, s.locals, ReplyLane(s.replies)) && k < |s.locals|
    requires LinkGone(s, k) || Shuts(ReplyLane(s.replies), s.locals[k].id)
    ensures DeadLinks(s.links, s.locals[k := s.locals[k].(live := false)], ReplyLane(s.replies))
  {
    hide Shuts, Inv;
    forall id | id in s.links && s.links[id] == k ensures s.locals[k].id == id {
      LinkKnown(s, id);
    }
  }

  lemma MapsEnds(s: Tunnel, k: nat)
    requires Inv(s) && MapsOk(s) && k < |s.locals|
    requires LinkGone(s, k) || Shuts(ReplyLane(s.replies), s.locals[k].id)
    ensures MapsOk(s.(locals := s.locals[k := s.locals[k].(live := false)]))
  {
    hide Inv, ShutsCurrent, Alive, Pending, DeadLinks, Known, Final, LinkView, Shuts, Steady, LinkGone;
    if Steady(s) {
      DeadLinksEnd(s, k);
    }
    MapsLocals(s, s.locals[k := s.locals[k].(live := false)]);
  }

  lemma AliveNow(s: Tunnel, k: nat)
    requires Maps(s) && k < |s.locals| && s.locals[k].live
    ensures var l := s.locals[k]; l.id in s.lastGen && s.lastGen[l.id] == l.gen
  {
    hide ShutsCurrent, Pending, DeadLinks, Known, Final, LinkView;
  }

  /** A connection that ends by itself tells the client. */
  lemma MapsLeaves(s: Tunnel, k: nat)
    requires Inv(s) && MapsOk(s) && k < |s.locals| && s.locals[k].live
    ensures MapsOk(LeaveLocal(s, k, Task(true, true)))
  {
    hide Inv, Maps, Shuts, Steady;
    var l := s.locals[k];
    var m := RemoveConnection(l.id);
    var gone := s.(locals := s.locals[k := l.(live := false)]);
    assert OnConnectionDrop(l.id, Task(true, true)) == [m];
    assert ReplyAll(gone, k, [m]) == ReplyAll(Reply(gone, k, m), k, []) == Reply(gone, k, m);
    if s.clientUp {
      if Steady(s) {
        AliveNow(s, k);
      }
      var told := s.(replies := s.replies + [ReplyItem(m, l.gen)]);
      MapsReplies(s, ReplyItem(m, l.gen));
      ReplyGrows(s.replies, ReplyItem(m, l.gen));
      ShutsGrow(ReplyLane(s.replies), Shut(l.id, l.gen));
      RepliesAreFree(s, told.replies);
      MapsEnds(told, k);
      assert Reply(gone, k, m).locals == gone.locals;
    } else {
      MapsHalts(Reply(gone, k, m));
    }
  }

  lemma RepliesAreFree(s: Tunnel, replies: seq<ReplyItem>)
    requires Inv(s)
    ensures Inv(s.(replies := replies))
  {
    hide ServerOk, ClientOk, OwnersAgree, Final, Consistent, UsesOf, TableView, LinkView, VisitorsOk;
  }

  lemma MapsConnections(s: Tunnel, e: Event)
    requires Inv(s) && MapsOk(s) && Enabled(s, e)
    requires e.Connects? || e.ConnectFails? || e.LocalServer? || e.LocalReceive?
    ensures MapsOk(Step(s, e))
  {
    hide Inv, MapsOk, LeaveLocal, Reply;
    match e
    case Connects(k) =>
      MapsLocal(s, k, s.locals[k].(connected := true));
    case ConnectFails(k, error) =>
      var m := Death(error);
      assert ReplyAll(s, k, [m]) == ReplyAll(Reply(s, k, m), k, []) == Reply(s, k, m);
      MapsProduces(s, k, m);
      Replies(s, k, [m]);
      DeathChangesNothing(s, k, error);
      MapsLeaves(Reply(s, k, m), k);
    case LocalServer(k, read) =>
      var turn := OnRead(s.locals[k].id, RUNNING, read, s.clientUp);
      if turn.task.ended {
        MapsLeaves(s, k);
      } else {
        var m := FromConnection(s.locals[k].id, read.data);
        assert ReplyAll(s, k, [m]) == ReplyAll(Reply(s, k, m), k, []) == Reply(s, k, m);
        MapsProduces(s, k, m);
      }
    case LocalReceive(k, writable) =>
      var l := s.locals[k];
      if l.rx != [] && writable {
        MapsLocal(s, k, l.(rx := l.rx[1..], written := l.written + [l.rx[0]]));
      } else if l.rx != [] {
        MapsLeaves(s, k);
      } else {
        SilentEnd(s, k);
        MapsEnds(s, k);
      }
  }

  lemma SilentEnd(s: Tunnel, k: nat)
    requires k < |s.locals|
    ensures LeaveLocal(s, k, Task(false, true)) == s.(locals := s.locals[k := s.locals[k].(live := false)])
  {
  }

  lemma DeathChangesNothing(s: Tunnel, k: nat, error: string)
    requires k < |s.locals|
    ensures Reply(s, k, Death(error)).locals == s.locals
  {
  }

  // ----- Every settled run -----

  lemma MapsServerTakes(s: Tunnel)
    requires Inv(s) && MapsOk(s) && Enabled(s, ServerTakes) && SettledEvent(s, ServerTakes)
    ensures MapsOk(ServerTakesStep(s))
  {
    hide MapsOk, ServerOk, ClientOk, OwnersAgree, Final, TableView, LinkView, VisitorsOk, FirstFree, Settled;
    if !OnInbox(s.table, s.inbox[0].message).running {
      MapsServerHalts(s);
    } else {
      assert OwnChannel(s.inbox[0]);
      match s.inbox[0].message
      case AddMinecraftClient(_, _) => MapsTakesJoin(s);
      case Packet(_, _) => MapsTakesPacket(s);
      case RemoveMinecraftClient(_) => MapsTakesRemove(s);
    }
  }

  lemma MapsServerHalts(s: Tunnel)
    requires MapsOk(s)
    ensures MapsOk(HaltServer(s))
  {
    hide ShutsCurrent, Alive, Pending, DeadLinks, Known, Final, LinkView, ReadLength, SendLength, Closed;
  }

  lemma MapsVisitors(s: Tunnel, s': Tunnel)
    requires MapsOk(s) && s' == s.(visitors := s'.visitors, inbox := s'.inbox)
    ensures MapsOk(s')
  {
    hide ShutsCurrent, Alive, Pending, DeadLinks, Known, Final, LinkView, ReadLength, SendLength, Closed;
  }

  lemma MapsServerReads(s: Tunnel)
    requires Inv(s) && MapsOk(s) && Enabled(s, ServerReads)
    ensures MapsOk(ServerReadsStep(s))
  {
    hide MapsOk, Inv;
    match s.up[0].packet
    case ProxyData(_) => MapsHearsData(s);
    case ProxyDisconnect(_) => MapsHearsDisconnect(s);
    case _ => MapsHearsOther(s);
  }

  lemma MapsClientTakes(s: Tunnel)
    requires Inv(s) && Sourced(s) && MapsOk(s) && Enabled(s, ClientTakes)
    ensures MapsOk(ClientTakesStep(s))
  {
    hide MapsOk, Inv, Sourced;
    match s.replies[0].message
    case FromConnection(_, _) => MapsTakesReply(s);
    case RemoveConnection(_) => MapsTakesRemoval(s);
    case Death(_) => MapsHalts(ClientTakesStep(s));
  }

  lemma MapsStep(s: Tunnel, e: Event)
    requires Inv(s) && Sourced(s) && MapsOk(s) && Enabled(s, e) && SettledEvent(s, e)
    ensures MapsOk(Step(s, e))
  {
    hide Inv, MapsOk, Sourced, ArriveStep, GreetStep, VisitorSocketStep, VisitorReceiveStep, ServerTakesStep,
      ServerReadsStep, ClientTakesStep, ClientReadsStep, ConnectFailsStep, LocalServerStep, LocalReceiveStep,
      Settled, FirstFree, SameGotten;
    match e
    case ServerTakes => MapsServerTakes(s);
    case ServerReads => MapsServerReads(s);
    case ServerStops => MapsServerHalts(s);
    case ClientTakes => MapsClientTakes(s);
    case ClientReads => MapsHears(s);
    case ClientPings(time) => MapsPings(s, time);
    case ClientStops => MapsHalts(Step(s, e));
    case Connects(_) => MapsConnections(s, e);
    case ConnectFails(_, _) => MapsConnections(s, e);
    case LocalServer(_, _) => MapsConnections(s, e);
    case LocalReceive(_, _) => MapsConnections(s, e);
    case _ =>
      VisitorEventsKeep(s, e);
      MapsVisitors(s, Step(s, e));
  }

  lemma {:induction false} MapsRun(s: Tunnel, events: seq<Event>)
    requires Inv(s) && Sourced(s) && MapsOk(s) && Possible(s, events) && SettledRun(s, events)
    ensures Inv(Run(s, events)) && Sourced(Run(s, events)) && MapsOk(Run(s, events))
    decreases |events|
  {
    hide Inv, Sourced, MapsOk, Enabled, Step, SettledEvent;
    if events != [] {
      MapsStep(s, events[0]);
      InvStep(s, events[0]);
      SourcedStep(s, events[0]);
      MapsRun(Step(s, events[0]), events[1..]);
    }
  }
}
