/**
 * Exactly when the sides will agree on the ids: if and only if the id that is given out is settled.
 * Otherwise the run can go on until both sides are idle and disagree.
 */
module StaleRemovals {
  import opened Packets
  import opened Distributors
  import opened ServerHandler
  import opened ClientHandler
  import opened Endpoints
  import opened Lanes
  import opened Tunnels
  import opened Invariants
  import opened Isolation
  import opened Origins
  import opened Arrivals
  import opened Holders
  import opened MapRuns
  import opened QuietReuse
  import opened StaleReuse

  lemma {:induction false} NothingSettled(s: Tunnel, events: seq<Event>)
    requires Possible(s, events) && GivesNothingOut(events)
    ensures SettledRun(s, events)
    decreases |events|
  {
    hide Enabled, Step, Settled;
    if events != [] {
      NothingSettled(Step(s, events[0]), events[1..]);
    }
  }

  /** Runs in a row that give nothing out. */
  lemma Continue(s: Tunnel, a: seq<Event>, b: seq<Event>)
    requires Possible(s, a) && Possible(Run(s, a), b) && GivesNothingOut(a) && GivesNothingOut(b)
    ensures Possible(s, a + b) && Run(s, a + b) == Run(Run(s, a), b) && GivesNothingOut(a + b)
  {
    RunConcat(s, a, b);
  }

  // ----- The client's connection ends -----

  /** A live connection connects, if it has not yet, and finds the local server's stream at its end. */
  lemma EndConnection(s: Tunnel, k: nat) returns (events: seq<Event>)
    requires s.clientUp && k < |s.locals| && s.locals[k].live
    ensures Possible(s, events) && GivesNothingOut(events)
    ensures var s' := Run(s, events);
            && s'.clientUp && s'.serverUp == s.serverUp && s'.table == s.table && s'.up == s.up && s'.down == s.down
            && s'.replies == s.replies + [ReplyItem(RemoveConnection(s.locals[k].id), s.locals[k].gen)]
  {
    var read := LocalServer(k, Read([]));
    if s.locals[k].connected {
      EndOne(s, k);
      RunOne(s, read);
      events := [read];
    } else {
      var s' := Step(s, Connects(k));
      RunOne(s, Connects(k));
      EndOne(s', k);
      RunOne(s', read);
      RunConcat(s, [Connects(k)], [read]);
      events := [Connects(k)] + [read];
    }
  }

  lemma EndOne(s: Tunnel, k: nat)
    requires s.clientUp && k < |s.locals| && s.locals[k].live && s.locals[k].connected
    ensures var e := LocalServer(k, Read([]));
            && Enabled(s, e)
            && var s' := Step(s, e);
               && s'.clientUp && s'.serverUp == s.serverUp && s'.table == s.table && s'.up == s.up && s'.down == s.down
               && s'.replies == s.replies + [ReplyItem(RemoveConnection(s.locals[k].id), s.locals[k].gen)]
  {
    var l := s.locals[k];
    var m := RemoveConnection(l.id);
    var gone := s.(locals := s.locals[k := l.(live := false)]);
    assert OnConnectionDrop(l.id, Task(true, true)) == [m];
    assert ReplyAll(gone, k, [m]) == ReplyAll(Reply(gone, k, m), k, []) == Reply(gone, k, m);
  }

  // ----- Draining -----

  predicate AllPongs(q: seq<WireItem>) {
    forall i :: 0 <= i < |q| ==> q[i].packet.ProxyPong?
  }

  /** The server reads everything: ids with a removal among it are gone, and only pongs are answered. */
  lemma {:induction false} ReadAllUp(s: Tunnel) returns (pongs: seq<WireItem>)
    requires s.serverUp
    ensures AllPongs(pongs)
    ensures var events := Repeat(ServerReads, |s.up|);
            && Possible(s, events)
            && var s' := Run(s, events);
               && s'.serverUp && s'.up == [] && s'.down == s.down + pongs
               && s'.clientUp == s.clientUp && s'.replies == s.replies
               && (forall id: ClientID :: id in s'.table.clients_id ==> id in s.table.clients_id)
               && (forall id: ClientID :: Shuts(WireLane(s.up), id) ==> id !in s'.table.clients_id)
    decreases |s.up|
  {
    hide Possible, Run, Repeat, Shuts, ServerReadsStep;
    if s.up == [] {
      RepeatNever(s, ServerReads);
      pongs := [];
      NoShuts(WireLane(s.up));
      assert s.down + pongs == s.down;
    } else {
      var next := Step(s, ServerReads);
      var first := ReadOneUp(s);
      var others := ReadAllUp(next);
      RepeatMore(s, ServerReads, |s.up|);
      pongs := first + others;
      assert s.down + pongs == s.down + first + others;
      WireShrinks(s.up);
      var p := s.up[0].packet;
      forall id: ClientID | Shuts(WireLane(s.up), id) && !(p.ProxyDisconnect? && p.disconnected == id)
        ensures Shuts(WireLane(next.up), id)
      {
        ShutsTail(WireLane(s.up), id);
      }
    }
  }

  lemma NoShuts(lane: Lane)
    requires lane == []
    ensures forall id :: !Shuts(lane, id)
  {
  }

  lemma ReadOneUp(s: Tunnel) returns (pongs: seq<WireItem>)
    requires s.serverUp && s.up != []
    ensures AllPongs(pongs)
    ensures var s' := ServerReadsStep(s);
            && s'.serverUp && s'.up == s.up[1..] && s'.down == s.down + pongs
            && s'.clientUp == s.clientUp && s'.replies == s.replies
            && (forall id: ClientID :: id in s'.table.clients_id ==> id in s.table.clients_id)
            && (s.up[0].packet.ProxyDisconnect? ==> s.up[0].packet.disconnected !in s'.table.clients_id)
  {
    pongs := Tagged(OnPacket(s.table, s.up[0].packet).sends, 0);
  }

  /** The client reads pongs. */
  lemma {:induction false} ReadPongs(s: Tunnel)
    requires s.clientUp && AllPongs(s.down)
    ensures var events := Repeat(ClientReads, |s.down|);
            Possible(s, events) && Run(s, events) == s.(down := [])
    decreases |s.down|
  {
    if s.down != [] {
      var next := Step(s, ClientReads);
      assert next == s.(down := s.down[1..]);
      assert Repeat(ClientReads, |s.down|)[1..] == Repeat(ClientReads, |s.down| - 1);
      ReadPongs(next);
    }
  }

  /**
   * With a removal of the id on its way, the new holder's join the last packet on the way down and
   * everything readable: the sides become idle, and only the client knows the id.
   */
  lemma Drain(s: Tunnel, id: ClientID, g: nat) returns (more: seq<Event>)
    requires s.serverUp && Hopeful(s) && s.down == [WireItem(ProxyJoin(id), g)]
    requires Shuts(WireLane(s.up), id) || Shuts(ReplyLane(s.replies), id)
    ensures Possible(s, more) && GivesNothingOut(more)
    ensures Idle(Run(s, more)) && !Agree(Run(s, more))
  {
    hide Run, Possible, Repeat, Shuts, SendLength;
    var takes := Repeat(ClientTakes, |s.replies|);
    TakeReplies(s, |s.replies|);
    assert s.replies[..|s.replies|] == s.replies;
    var s1 := Run(s, takes);
    ShutsJoin(WireLane(s.up), ReplyLane(s.replies));
    var hears := Repeat(ServerReads, |s1.up|);
    var pongs := ReadAllUp(s1);
    var s2 := Run(s1, hears);
    var join := Step(s2, ClientReads);
    JoinAndPongs(s2, id, g, pongs);
    RunOne(s2, ClientReads);
    var rest := Repeat(ClientReads, |join.down|);
    ReadPongs(join);
    Continue(s2, [ClientReads], rest);
    Continue(s1, hears, [ClientReads] + rest);
    Continue(s, takes, hears + ([ClientReads] + rest));
    more := takes + (hears + ([ClientReads] + rest));
    assert id in Run(s, more).links && id !in Run(s, more).table.clients_id;
  }

  lemma JoinAndPongs(s: Tunnel, id: ClientID, g: nat, pongs: seq<WireItem>)
    requires s.clientUp && s.down == [WireItem(ProxyJoin(id), g)] + pongs
    ensures Enabled(s, ClientReads)
    ensures var s' := Step(s, ClientReads);
            && s'.clientUp && s'.serverUp == s.serverUp && s'.table == s.table
            && s'.up == s.up && s'.replies == s.replies && s'.down == pongs && id in s'.links
  {
  }

  lemma ShutsJoin(a: Lane, b: Lane)
    ensures forall id :: Shuts(a, id) || Shuts(b, id) ==> Shuts(a + b, id)
  {
    forall id | Shuts(a, id) || Shuts(b, id) ensures Shuts(a + b, id) {
      if Shuts(a, id) {
        var i :| 0 <= i < |a| && a[i].Shut? && a[i].key == id;
        assert (a + b)[i] == a[i];
      } else {
        var i :| 0 <= i < |b| && b[i].Shut? && b[i].key == id;
        assert (a + b)[|a| + i] == b[i];
      }
    }
  }

  // ----- Giving an id out -----

  /** A removal of the id is on its way, or a live connection of a former holder can still ask for one. */
  lemma DisagreeAfter(s: Tunnel, id: ClientID, g: nat) returns (more: seq<Event>)
    requires s.serverUp && Hopeful(s) && s.down == [WireItem(ProxyJoin(id), g)]
    requires Shuts(WireLane(s.up), id) || Shuts(ReplyLane(s.replies), id) || HasLive(s.locals, id)
    ensures Possible(s, more) && GivesNothingOut(more)
    ensures Idle(Run(s, more)) && !Agree(Run(s, more))
  {
    hide Run, Possible, Shuts, SendLength, Agree, Idle;
    if Shuts(WireLane(s.up), id) || Shuts(ReplyLane(s.replies), id) {
      more := Drain(s, id, g);
    } else {
      var k :| 0 <= k < |s.locals| && s.locals[k].live && s.locals[k].id == id;
      var ends := EndConnection(s, k);
      var s' := Run(s, ends);
      var i := ReplyItem(RemoveConnection(id), s.locals[k].gen);
      SendAppends(s.replies, i);
      ReplyGrows(s.replies, i);
      ShutsGrow(ReplyLane(s.replies), ReplyMark(i));
      var rest := Drain(s', id, g);
      Continue(s, ends, rest);
      more := ends + rest;
    }
  }

  lemma UnsettledState(s: Tunnel) returns (more: seq<Event>)
    requires Inv(s) && Sourced(s) && GivesOut(s) && !Settled(s, GivenId(s))
    ensures var s' := Step(s, ServerTakes);
            Possible(s', more) && SettledRun(s', more) && Idle(Run(s', more)) && !Agree(Run(s', more))
  {
    hide Inv, Sourced, Step, Run, Possible, SettledRun, GivenId, Bijective, HasConnection, OnInbox, SendLength,
      ReadLength, Closed, Shuts, Agree, Idle;
    var s', id, g := Step(s, ServerTakes), GivenId(s), s.inbox[0].gen;
    Given(AllMessages, s);
    ReadAppends(s.links, |s.locals|, Closed(s.locals), s.down, WireItem(ProxyJoin(id), g));
    var first := Repeat(ClientReads, |s.down|);
    ReadDown(s', |s.down|);
    var t := Run(s', first);
    assert t.down == [WireItem(ProxyJoin(id), g)];
    if !Shuts(WireLane(s.up), id) && !Shuts(ReplyLane(s.replies), id) {
      LiveOrJoining(s, t, id);
    }
    var rest := DisagreeAfter(t, id, g);
    Continue(s', first, rest);
    more := first + rest;
    NothingSettled(s', more);
  }

  lemma LiveOrJoining(s: Tunnel, t: Tunnel, id: ClientID)
    requires (exists k :: 0 <= k < |s.locals| && s.locals[k].live && s.locals[k].id == id)
          || !NoJoin(WireLane(s.down), id)
    requires forall i :: HasLive(s.locals, i) ==> HasLive(t.locals, i)
    requires forall j :: 0 <= j < |s.down| && s.down[j].packet.ProxyJoin? ==> HasLive(t.locals, s.down[j].packet.joined)
    ensures HasLive(t.locals, id)
  {
    hide HasLive;
    if k :| 0 <= k < |s.locals| && s.locals[k].live && s.locals[k].id == id {
      LiveIs(s.locals, k);
    } else {
      var j :| 0 <= j < |s.down| && WireLane(s.down)[j].Open? && WireLane(s.down)[j].key == id as nat;
      assert WireLane(s.down)[j] == WireMark(s.down[j]);
    }
  }

  lemma LiveIs(ls: seq<Local>, k: nat)
    requires k < |ls| && ls[k].live
    ensures HasLive(ls, ls[k].id)
  {
  }

  /**
   * The exact condition for map agreement, for every settled run up to now: giving the id out is safe, in
   * the sense that in every settled continuation the idle sides agree, if and only if the id is settled.
   */
  lemma SettledIsExact(events: seq<Event>)
    requires Possible(START, events) && SettledRun(START, events) && GivesOut(Run(START, events))
    ensures var s := Run(START, events);
            var s' := Step(s, ServerTakes);
            Settled(s, GivenId(s)) <==>
            forall more :: Possible(s', more) && SettledRun(s', more) && Idle(Run(s', more)) ==> Agree(Run(s', more))
  {
    hide Run, Possible, SettledRun, Inv, Sourced, MapsOk, Settled, Agree, Idle, Step, FirstFree;
    StartOk(START);
    SourcedStart(START);
    MapsStart(START);
    MapsRun(START, events);
    var s := Run(START, events);
    var s' := Step(s, ServerTakes);
    if Settled(s, GivenId(s)) {
      InvStep(s, ServerTakes);
      SourcedStep(s, ServerTakes);
      MapsStep(s, ServerTakes);
      forall more | Possible(s', more) && SettledRun(s', more) && Idle(Run(s', more)) ensures Agree(Run(s', more)) {
        MapsRun(s', more);
        IdleAgree(Run(s', more));
      }
    } else {
      var more := UnsettledState(s);
    }
  }

  /** In every reachable state, giving out an id that is not settled can end with idle sides that disagree. */
  lemma UnsettledDisagree(events: seq<Event>) returns (more: seq<Event>)
    requires Possible(START, events)
    requires var s := Run(START, events); GivesOut(s) && !Settled(s, GivenId(s))
    ensures var s' := Step(Run(START, events), ServerTakes);
            Possible(s', more) && SettledRun(s', more) && Idle(Run(s', more)) && !Agree(Run(s', more))
  {
    hide Run, Possible, SettledRun, Inv, Sourced, Settled, Agree, Idle, Step, FirstFree;
    StartOk(START);
    SourcedStart(START);
    InvRun(START, events);
    SourcedRun(START, events);
    more := UnsettledState(Run(START, events));
  }
}
