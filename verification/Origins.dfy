/**
 * Where the messages on their way to the server come from: in every run each of them was sent by a
 * local connection and is tagged with that connection's generation.
 */
module Origins {
  import opened Bytes
  import opened Packets
  import opened Distributors
  import opened ServerHandler
  import opened ClientHandler
  import opened Endpoints
  import opened Lanes
  import opened Tunnels
  import opened Invariants
  import opened Isolation

  predicate FromLocal(ls: seq<Local>, id: nat, gen: nat) {
    exists k :: 0 <= k < |ls| && ls[k].id as nat == id && ls[k].gen == gen
  }

  /** Every message of a lane comes from a connection; none of them opens an id. */
  ghost predicate Sources(lane: Lane, ls: seq<Local>) {
    forall i :: 0 <= i < |lane| && !lane[i].Blank? ==> !lane[i].Open? && FromLocal(ls, lane[i].key, lane[i].gen)
  }

  ghost predicate Sourced(s: Tunnel) {
    && Sources(WireLane(s.up), s.locals)
    && Sources(ReplyLane(s.replies), s.locals)
    && (!s.clientUp ==> s.replies == [] && s.links == map[])
  }

  lemma SourcesGrow(lane: Lane, m: Mark, ls: seq<Local>)
    requires Sources(lane, ls)
    requires m.Blank? || (!m.Open? && FromLocal(ls, m.key, m.gen))
    ensures Sources(lane + [m], ls)
  {
    hide FromLocal;
  }

  lemma SourcesShrink(lane: Lane, ls: seq<Local>)
    requires Sources(lane, ls) && lane != []
    ensures Sources(lane[1..], ls)
    ensures !lane[0].Blank? ==> !lane[0].Open? && FromLocal(ls, lane[0].key, lane[0].gen)
  {
    hide FromLocal;
  }

  /** Connections keep their id and generation; new ones may come. */
  ghost predicate Extends(ls: seq<Local>, ms: seq<Local>) {
    |ls| <= |ms| && forall k :: 0 <= k < |ls| ==> ms[k].id == ls[k].id && ms[k].gen == ls[k].gen
  }

  lemma SourcesExtend(lane: Lane, ls: seq<Local>, ms: seq<Local>)
    requires Sources(lane, ls) && Extends(ls, ms)
    ensures Sources(lane, ms)
  {
    forall i | 0 <= i < |lane| && !lane[i].Blank? ensures FromLocal(ms, lane[i].key, lane[i].gen) {
      var k :| 0 <= k < |ls| && ls[k].id as nat == lane[i].key && ls[k].gen == lane[i].gen;
      assert ms[k].id as nat == lane[i].key && ms[k].gen == lane[i].gen;
    }
  }

  /** A generation without a connection has sent nothing. */
  lemma NothingFrom(lane: Lane, ls: seq<Local>, gen: nat)
    requires Sources(lane, ls) && !HasConnection(ls, gen)
    ensures forall i :: 0 <= i < |lane| && !lane[i].Blank? ==> lane[i].gen != gen
    ensures UsesOf(lane, gen) == []
  {
    hide UsesOf;
    forall i | 0 <= i < |lane| && !lane[i].Blank? ensures lane[i].gen != gen {
      var k :| 0 <= k < |ls| && ls[k].id as nat == lane[i].key && ls[k].gen == lane[i].gen;
    }
    NoUses(lane, gen);
  }

  lemma ReplyShrinks(q: seq<ReplyItem>)
    requires q != []
    ensures ReplyLane(q)[0] == ReplyMark(q[0]) && ReplyLane(q)[1..] == ReplyLane(q[1..])
  {
  }

  lemma ReplyGrows(q: seq<ReplyItem>, i: ReplyItem)
    ensures ReplyLane(q + [i]) == ReplyLane(q) + [ReplyMark(i)]
  {
  }

  // ----- Visitors -----

  /** Visitors may come and end, but what they got stays. */
  ghost predicate SameGotten(vs: seq<Visitor>, ws: seq<Visitor>) {
    && |vs| <= |ws|
    && (forall g :: 0 <= g < |vs| ==> Gotten(ws[g]) == Gotten(vs[g]) && (ws[g].live ==> vs[g].live))
    && (forall g :: |vs| <= g < |ws| ==> Gotten(ws[g]) == [])
  }

  lemma {:induction false} PostsKeep(s: Tunnel, g: nat, ms: seq<ClientToProxy>)
    requires g < |s.visitors|
    ensures var s' := PostAll(s, g, ms);
            SameGotten(s.visitors, s'.visitors) && s' == s.(visitors := s'.visitors, inbox := s'.inbox)
    decreases |ms|
  {
    if ms != [] {
      PostsKeep(Post(s, g, ms[0]), g, ms[1..]);
    }
  }

  lemma LeaveKeeps(s: Tunnel, g: nat, t: Task)
    requires g < |s.visitors|
    ensures var s' := Leave(s, g, t);
            SameGotten(s.visitors, s'.visitors) && s' == s.(visitors := s'.visitors, inbox := s'.inbox)
  {
    hide PostAll;
    PostsKeep(s.(visitors := s.visitors[g := s.visitors[g].(live := false)]), g, OnDrop(s.visitors[g].addr, t));
  }

  lemma ReceiveKeeps(s: Tunnel, g: nat, writable: bool)
    requires Enabled(s, VisitorReceive(g, writable))
    ensures var s' := VisitorReceiveStep(s, g, writable);
            SameGotten(s.visitors, s'.visitors) && s' == s.(visitors := s'.visitors, inbox := s'.inbox)
  {
    hide PostAll, Leave;
    var rx := s.visitors[g].rx;
    if rx == [] {
      LeaveKeeps(s, g, Task(false, true));
    } else if !writable {
      LeaveKeeps(s, g, Task(true, true));
    } else {
      assert rx == [rx[0]] + rx[1..];
    }
  }

  lemma SocketKeeps(s: Tunnel, g: nat, found: FromSocket)
    requires Enabled(s, VisitorSocket(g, found))
    ensures var s' := VisitorSocketStep(s, g, found);
            SameGotten(s.visitors, s'.visitors) && s' == s.(visitors := s'.visitors, inbox := s'.inbox)
  {
    hide PostAll, Leave, SameGotten;
    var turn := OnSocket(s.visitors[g].addr, RUNNING, found, s.serverUp);
    if turn.task.ended {
      LeaveKeeps(s, g, turn.task);
    } else {
      PostsKeep(s, g, turn.messages);
    }
  }

  lemma VisitorEventsKeep(s: Tunnel, e: Event)
    requires Enabled(s, e)
    requires e.Arrive? || e.Greet? || e.VisitorSocket? || e.VisitorReceive?
    ensures var s' := Step(s, e);
            SameGotten(s.visitors, s'.visitors) && s' == s.(visitors := s'.visitors, inbox := s'.inbox)
  {
    hide VisitorSocketStep, VisitorReceiveStep;
    match e
    case VisitorSocket(g, found) => SocketKeeps(s, g, found);
    case VisitorReceive(g, writable) => ReceiveKeeps(s, g, writable);
    case _ =>
  }

  // ----- Every event -----

  lemma HaltKeepsSources(s: Tunnel)
    requires Sourced(s)
    ensures Sourced(HaltClient(s))
  {
    assert ReplyLane([]) == [];
  }

  lemma LoopsKeepSources(s: Tunnel, e: Event)
    requires Sourced(s) && Enabled(s, e)
    requires e.ServerTakes? || e.ServerReads? || e.ServerStops? || e.ClientStops?
    ensures Sourced(Step(s, e))
  {
    hide FromLocal, FirstFree, Sources;
    HaltKeepsSources(s);
    if e.ServerReads? {
      WireShrinks(s.up);
      SourcesShrink(WireLane(s.up), s.locals);
    }
  }

  lemma ClientTakesKeepsSources(s: Tunnel)
    requires Sourced(s) && Enabled(s, ClientTakes)
    ensures Sourced(ClientTakesStep(s))
  {
    hide FromLocal, Sources;
    HaltKeepsSources(s);
    var m := s.replies[0].message;
    var r := OnMessage(s.links, m);
    ReplyShrinks(s.replies);
    SourcesShrink(ReplyLane(s.replies), s.locals);
    if r.running {
      assert |r.sends| == 1 && WireMark(WireItem(r.sends[0], s.replies[0].gen)) == ReplyMark(s.replies[0]);
      assert r.sends == [r.sends[0]];
      WireGrows(s.up, r.sends[0], s.replies[0].gen);
      SourcesGrow(WireLane(s.up), ReplyMark(s.replies[0]), s.locals);
    }
  }

  lemma ClientReadsKeepsSources(s: Tunnel)
    requires Sourced(s) && Enabled(s, ClientReads)
    ensures Sourced(ClientReadsStep(s))
  {
    hide FromLocal, Sources;
    HaltKeepsSources(s);
    var s' := ClientReadsStep(s);
    if s'.clientUp {
      SourcesExtend(WireLane(s.up), s.locals, s'.locals);
      SourcesExtend(ReplyLane(s.replies), s.locals, s'.locals);
    }
  }

  lemma PingKeepsSources(s: Tunnel, time: u16)
    requires Sourced(s)
    ensures Sourced(s.(up := s.up + [WireItem(ProxyPing(time), 0)]))
  {
    hide FromLocal, Sources;
    WireGrows(s.up, ProxyPing(time), 0);
    assert Tagged([ProxyPing(time)], 0) == [WireItem(ProxyPing(time), 0)];
    SourcesGrow(WireLane(s.up), Blank, s.locals);
  }

  /** Messages of a connection carry its own id. */
  predicate OwnId(m: ConnectionMessage, id: ClientID) {
    !m.Death? ==> m.id == id
  }

  lemma ReplyKeepsSources(s: Tunnel, k: nat, m: ConnectionMessage)
    requires Sourced(s) && k < |s.locals| && OwnId(m, s.locals[k].id)
    ensures Sourced(Reply(s, k, m)) && Extends(s.locals, Reply(s, k, m).locals)
  {
    hide Sources;
    var s' := Reply(s, k, m);
    if s.clientUp {
      var l := s.locals[k];
      assert FromLocal(s.locals, l.id, l.gen);
      ReplyGrows(s.replies, ReplyItem(m, l.gen));
      SourcesGrow(ReplyLane(s.replies), ReplyMark(ReplyItem(m, l.gen)), s.locals);
      SourcesExtend(WireLane(s.up), s.locals, s'.locals);
      SourcesExtend(ReplyLane(s'.replies), s.locals, s'.locals);
    }
  }

  lemma {:induction false} RepliesKeepSources(s: Tunnel, k: nat, ms: seq<ConnectionMessage>)
    requires Sourced(s) && k < |s.locals|
    requires forall i :: 0 <= i < |ms| ==> OwnId(ms[i], s.locals[k].id)
    ensures Sourced(ReplyAll(s, k, ms)) && Extends(s.locals, ReplyAll(s, k, ms).locals)
    decreases |ms|
  {
    hide Sourced, Reply;
    if ms != [] {
      ReplyKeepsSources(s, k, ms[0]);
      RepliesKeepSources(Reply(s, k, ms[0]), k, ms[1..]);
    }
  }

  lemma LocalsKeepSources(s: Tunnel, ms: seq<Local>)
    requires Sourced(s) && Extends(s.locals, ms)
    ensures Sourced(s.(locals := ms))
  {
    hide Sources, Extends;
    SourcesExtend(WireLane(s.up), s.locals, ms);
    SourcesExtend(ReplyLane(s.replies), s.locals, ms);
  }

  lemma LeaveKeepsSources(s: Tunnel, k: nat, t: Task)
    requires Sourced(s) && k < |s.locals|
    ensures Sourced(LeaveLocal(s, k, t))
  {
    hide Sourced, ReplyAll;
    var gone := s.(locals := s.locals[k := s.locals[k].(live := false)]);
    LocalsKeepSources(s, gone.locals);
    RepliesKeepSources(gone, k, OnConnectionDrop(s.locals[k].id, t));
  }

  lemma ConnectionsKeepSources(s: Tunnel, e: Event)
    requires Sourced(s) && Enabled(s, e)
    requires e.Connects? || e.ConnectFails? || e.LocalServer? || e.LocalReceive?
    ensures Sourced(Step(s, e))
  {
    hide Sourced, ReplyAll, LeaveLocal;
    match e
    case Connects(k) =>
      LocalsKeepSources(s, Step(s, e).locals);
    case ConnectFails(k, error) =>
      var turn := OnConnectError(RUNNING, error);
      RepliesKeepSources(s, k, turn.messages);
      LeaveKeepsSources(ReplyAll(s, k, turn.messages), k, turn.task);
    case LocalServer(k, read) =>
      var turn := OnRead(s.locals[k].id, RUNNING, read, s.clientUp);
      RepliesKeepSources(s, k, turn.messages);
      LeaveKeepsSources(s, k, turn.task);
    case LocalReceive(k, writable) =>
      var l := s.locals[k];
      if l.rx != [] && writable {
        LocalsKeepSources(s, Step(s, e).locals);
      } else {
        LeaveKeepsSources(s, k, Task(l.rx != [], true));
      }
  }

  lemma SourcedStep(s: Tunnel, e: Event)
    requires Sourced(s) && Enabled(s, e)
    ensures Sourced(Step(s, e))
  {
    hide Sources, ArriveStep, GreetStep, VisitorSocketStep, VisitorReceiveStep, ServerTakesStep, ServerReadsStep,
      ClientTakesStep, ClientReadsStep, ConnectFailsStep, LocalServerStep, LocalReceiveStep, SameGotten;
    match e
    case ServerTakes => LoopsKeepSources(s, e);
    case ServerReads => LoopsKeepSources(s, e);
    case ServerStops => LoopsKeepSources(s, e);
    case ClientStops => LoopsKeepSources(s, e);
    case ClientTakes => ClientTakesKeepsSources(s);
    case ClientReads => ClientReadsKeepsSources(s);
    case ClientPings(time) => PingKeepsSources(s, time);
    case Connects(_) => ConnectionsKeepSources(s, e);
    case ConnectFails(_, _) => ConnectionsKeepSources(s, e);
    case LocalServer(_, _) => ConnectionsKeepSources(s, e);
    case LocalReceive(_, _) => ConnectionsKeepSources(s, e);
    case _ => VisitorEventsKeep(s, e);
  }

  lemma SourcedStart(s: Tunnel)
    requires s == START
    ensures Sourced(s)
  {
    assert WireLane([]) == [] && ReplyLane([]) == [];
  }

  lemma {:induction false} SourcedRun(s: Tunnel, events: seq<Event>)
    requires Sourced(s) && Possible(s, events)
    ensures Sourced(Run(s, events))
    decreases |events|
  {
    hide Sourced, Enabled, Step;
    if events != [] {
      SourcedStep(s, events[0]);
      SourcedRun(Step(s, events[0]), events[1..]);
    }
  }
}
