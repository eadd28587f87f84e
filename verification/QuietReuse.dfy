/**
 * The direction from the client to the server. The server frees ids without waiting for the client, so
 * isolation is a theorem about quiet runs, and agreement on the ids one about settled runs.
 */
module QuietReuse {
  import opened Packets
  import opened Distributors
  import opened ClientHandler
  import opened Lanes
  import opened Tunnels
  import opened Invariants
  import opened Origins
  import opened Arrivals
  import opened Holders
  import opened QuietRuns
  import opened MapRuns

  /**
   * Isolation and order from the client to the server: what a Minecraft client got is a prefix of what the
   * connection of its own generation produced; without such a connection it got nothing.
   */
  ghost predicate Isolated(s: Tunnel) {
    forall g :: 0 <= g < |s.visitors| ==>
      if HasConnection(s.locals, g)
      then forall k :: 0 <= k < |s.locals| && s.locals[k].gen == g ==> Gotten(s.visitors[g]) <= s.locals[k].produced
      else Gotten(s.visitors[g]) == []
  }

  lemma UpstreamIsolation(events: seq<Event>)
    requires Possible(START, events) && QuietRun(PayloadsOnly, START, events)
    ensures Isolated(Run(START, events))
  {
    hide Run, Possible, QuietRun, Inv, Sourced, Quiet, Isolated;
    StartOk(START);
    SourcedStart(START);
    QuietStart(PayloadsOnly, START);
    QuietInvRun(PayloadsOnly, START, events);
    QuietIsolates(PayloadsOnly, Run(START, events));
  }

  lemma QuietIsolates(care: Care, s: Tunnel)
    requires Quiet(care, s)
    ensures Isolated(s)
  {
    hide Tags, Coming, Gotten, HasConnection;
  }

  /** Nothing is lost while both sides run and the Minecraft client is registered: what is missing is on its way. */
  lemma UpstreamConservation(events: seq<Event>, k: nat)
    requires Possible(START, events) && QuietRun(PayloadsOnly, START, events)
    requires var s := Run(START, events);
             && s.serverUp && s.clientUp && k < |s.locals| && s.locals[k].gen < |s.visitors|
             && IsRegistered(s.table, s.locals[k].gen) && s.visitors[s.locals[k].gen].live
    ensures var s := Run(START, events);
            var g := s.locals[k].gen;
            Gotten(s.visitors[g]) + UsesOf(WireLane(s.up), g) + UsesOf(ReplyLane(s.replies), g) == s.locals[k].produced
  {
    hide Run, Possible, QuietRun, Inv, Sourced, Tags, Delivered, Gotten, UsesOf, IsRegistered;
    StartOk(START);
    SourcedStart(START);
    QuietStart(PayloadsOnly, START);
    QuietInvRun(PayloadsOnly, START, events);
  }

  /** The client has a connection for exactly the ids the server has given out. */
  predicate Agree(s: Tunnel) {
    s.links.Keys == s.table.clients_id.Keys
  }

  /** Both sides run and nothing is on the way between them. */
  predicate Idle(s: Tunnel) {
    s.serverUp && s.clientUp && s.down == [] && s.up == [] && s.replies == []
  }

  /** Map agreement, in every settled run, and so in every quiet one: the idle sides agree on the ids. */
  lemma MapAgreement(events: seq<Event>)
    requires Possible(START, events) && SettledRun(START, events) && Idle(Run(START, events))
    ensures Agree(Run(START, events))
  {
    hide Run, Possible, SettledRun, Inv, Sourced, MapsOk, Agree;
    StartOk(START);
    SourcedStart(START);
    MapsStart(START);
    MapsRun(START, events);
    IdleAgree(Run(START, events));
  }

  lemma IdleAgree(s: Tunnel)
    requires Inv(s) && MapsOk(s) && Idle(s)
    ensures Agree(s)
  {
    hide Inv, ShutsCurrent, Alive, Pending, DeadLinks, Known, Final, LinkView;
    assert WireLane(s.down) == [] && WireLane(s.up) == [] && ReplyLane(s.replies) == [];
    assert Readable(s) == [] && Steady(s);
    LinksInRange(s);
    KeysAgree(s.table, s.links, s.locals, WireLane(s.down), WireLane(s.up), ReplyLane(s.replies));
  }

  lemma KeysAgree(t: Table, links: Links, ls: seq<Local>, down: Lane, up: Lane, replies: Lane)
    requires down == [] && up == [] && replies == []
    requires Known(t, Final(LinkView(links, ls), down), up, replies)
    requires forall id :: id in links ==> links[id] < |ls|
    ensures links.Keys == t.clients_id.Keys
  {
    assert Final(LinkView(links, ls), down) == LinkView(links, ls);
    forall id: ClientID ensures id in links <==> id in t.clients_id {
      assert id in links <==> id as nat in LinkView(links, ls);
    }
  }
}
