/**
 * Concrete runs in which an id is given out while a join of its former holder is still on the way to the
 * client: a payload reaches the wrong Minecraft client, and the idle sides disagree on the ids.
 */
module StaleRuns {
  import opened Datatypes
  import opened Packets
  import opened Distributors
  import opened ServerHandler
  import opened ClientHandler
  import opened Endpoints
  import opened Lanes
  import opened Tunnels
  import opened Invariants
  import opened Arrivals
  import opened Holders
  import opened MapRuns
  import opened QuietReuse
  import opened StaleReuse

  lemma RunMore(s: Tunnel, events: seq<Event>, e: Event)
    requires Possible(s, events) && Enabled(Run(s, events), e)
    ensures Possible(s, events + [e]) && Run(s, events + [e]) == Step(Run(s, events), e)
  {
    hide Enabled, Step, Possible, Run;
    RunOne(Run(s, events), e);
    RunConcat(s, events, [e]);
  }

  // ----- A run in which a payload reaches the wrong Minecraft client -----

  const BYTES: Payload := [7]

  /** A Minecraft client arrives and leaves before the tunnel's client has read anything. */
  const LEAVING: seq<Event> :=
    [Arrive(0, []), ServerTakes, Greet(0), VisitorSocket(0, EndOfStream), ServerTakes, ServerTakes]

  /** Another one gets the same id; only then the first join is read, and its connection produces a payload. */
  const STALE: seq<Event> :=
    [Arrive(1, []), ServerTakes, ClientReads, Connects(0), LocalServer(0, Read(BYTES)), ClientTakes, ServerReads]

  const DOWN: seq<WireItem> :=
    [WireItem(ProxyJoin(0), 0), WireItem(DataPacket(0, []), 0), WireItem(ProxyDisconnect(0), 0)]

  const LEFT: Tunnel := Tunnel(true, EMPTY, [], DOWN, [], true, map[], [],
                               [Visitor(0, false, true, [], [], [], [[]], [[]], Some(0))], [], map[0 := 0])

  /** The states the two halves of the run go through. */
  function Leaving(n: nat): Tunnel
    requires n <= 6
  {
    var none := Visitor(0, true, false, [], [], [], [], [], None);
    if n == 0 then START
    else if n == 1 then START.(visitors := [none], inbox := [InboxItem(AddMinecraftClient(0, 0), 0)])
    else
      var v := none.(id := Some(0));
      var joined := START.(visitors := [v], table := Table(map[0 := MinecraftClient(0, 0)], map[0 := 0]),
                           down := DOWN[..1], lastGen := map[0 := 0]);
      var hello := InboxItem(Packet(0, []), 0);
      var remove := InboxItem(RemoveMinecraftClient(0), 0);
      var w := v.(greeted := true, queued := [[]]);
      if n == 2 then joined
      else if n == 3 then joined.(visitors := [w], inbox := [hello])
      else if n == 4 then joined.(visitors := [w.(live := false)], inbox := [hello, remove])
      else if n == 5 then
        joined.(visitors := [w.(live := false, forwarded := [[]])], inbox := [remove], down := DOWN[..2])
      else LEFT
  }

  function Stale(n: nat): Tunnel
    requires n <= 7
  {
    var none := Visitor(1, true, false, [], [], [], [], [], None);
    if n == 0 then LEFT
    else if n == 1 then LEFT.(visitors := LEFT.visitors + [none], inbox := [InboxItem(AddMinecraftClient(1, 1), 1)])
    else
      var v := none.(id := Some(0));
      var again := LEFT.(visitors := LEFT.visitors + [v], table := Table(map[1 := MinecraftClient(1, 0)], map[0 := 1]),
                         down := DOWN + [WireItem(ProxyJoin(0), 1)], lastGen := map[0 := 1]);
      var l := Local(0, 0, false, true, [], [], []);
      var read := again.(down := DOWN[1..] + [WireItem(ProxyJoin(0), 1)], links := map[0 := 0], locals := [l]);
      if n == 2 then again
      else if n == 3 then read
      else if n == 4 then read.(locals := [l.(connected := true)])
      else
        var produced := read.(locals := [l.(connected := true, produced := [BYTES])]);
        if n == 5 then produced.(replies := [ReplyItem(FromConnection(0, BYTES), 0)])
        else if n == 6 then produced.(up := [WireItem(DataPacket(0, BYTES), 0)])
        else produced.(visitors := LEFT.visitors + [v.(rx := [BYTES])])
  }

  lemma LeavingSteps(n: nat)
    requires n < 2
    ensures Enabled(Leaving(n), LEAVING[n]) && Step(Leaving(n), LEAVING[n]) == Leaving(n + 1)
  {
    var s', t := Step(Leaving(n), LEAVING[n]), Leaving(n + 1);
    assert s'.inbox == t.inbox && s'.visitors == t.visitors && s'.down == t.down && s'.table == t.table;
  }

  lemma GreetsStep(n: nat)
    requires n == 2
    ensures Enabled(Leaving(n), LEAVING[n]) && Step(Leaving(n), LEAVING[n]) == Leaving(n + 1)
  {
    var s', t := Step(Leaving(n), LEAVING[n]), Leaving(n + 1);
    var nothing: Payload := [];
    assert [] + [nothing] == [nothing];
    assert s'.inbox == t.inbox && s'.visitors == t.visitors;
  }

  lemma LeavesStep(n: nat)
    requires n == 3
    ensures Enabled(Leaving(n), LEAVING[n]) && Step(Leaving(n), LEAVING[n]) == Leaving(n + 1)
  {
    var s, t := Leaving(n), Leaving(n + 1);
    var s' := Step(s, LEAVING[n]);
    var m := RemoveMinecraftClient(0);
    var gone := s.(visitors := s.visitors[0 := s.visitors[0].(live := false)]);
    assert PostAll(gone, 0, [m]) == PostAll(Post(gone, 0, m), 0, []) == Post(gone, 0, m);
    assert s'.inbox == t.inbox && s'.visitors == t.visitors;
  }

  lemma LeftSteps(n: nat)
    requires 4 <= n < 6
    ensures Enabled(Leaving(n), LEAVING[n]) && Step(Leaving(n), LEAVING[n]) == Leaving(n + 1)
  {
    var s', t := Step(Leaving(n), LEAVING[n]), Leaving(n + 1);
    var nothing: Payload := [];
    assert [] + [nothing] == [nothing];
    assert s'.inbox == t.inbox && s'.visitors == t.visitors && s'.down == t.down && s'.table == t.table;
  }

  lemma StaleAssigned(n: nat)
    requires n < 2
    ensures Enabled(Stale(n), STALE[n]) && Step(Stale(n), STALE[n]) == Stale(n + 1)
  {
    var s', t := Step(Stale(n), STALE[n]), Stale(n + 1);
    assert s'.visitors == t.visitors && s'.down == t.down && s'.table == t.table;
  }

  lemma StaleConnects(n: nat)
    requires 2 <= n < 4
    ensures Enabled(Stale(n), STALE[n]) && Step(Stale(n), STALE[n]) == Stale(n + 1)
  {
    var s', t := Step(Stale(n), STALE[n]), Stale(n + 1);
    assert s'.down == t.down && s'.locals == t.locals;
  }

  lemma StaleProduces(n: nat)
    requires n == 4
    ensures Enabled(Stale(n), STALE[n]) && Step(Stale(n), STALE[n]) == Stale(n + 1)
  {
    var s, t := Stale(n), Stale(n + 1);
    var s' := Step(s, STALE[n]);
    var m := FromConnection(0, BYTES);
    assert [] + [BYTES] == [BYTES];
    assert ReplyAll(s, 0, [m]) == ReplyAll(Reply(s, 0, m), 0, []) == Reply(s, 0, m);
    assert s'.locals == t.locals && s'.replies == t.replies;
  }

  lemma StaleSends(n: nat)
    requires n == 5
    ensures Enabled(Stale(n), STALE[n]) && Step(Stale(n), STALE[n]) == Stale(n + 1)
  {
    var s', t := Step(Stale(n), STALE[n]), Stale(n + 1);
    assert s'.replies == t.replies && s'.up == t.up;
  }

  lemma StaleArrives(n: nat)
    requires n == 6
    ensures Enabled(Stale(n), STALE[n]) && Step(Stale(n), STALE[n]) == Stale(n + 1)
  {
    var s', t := Step(Stale(n), STALE[n]), Stale(n + 1);
    assert [] + [BYTES] == [BYTES];
    assert s'.visitors == t.visitors && s'.up == t.up && s'.down == t.down;
  }

  lemma NothingLeft()
    ensures Leaving(0) == START && Stale(0) == LEFT && Leaving(6) == LEFT && Parting(0) == Stale(2)
  {
  }

  lemma {:induction false} LeavingRun(n: nat)
    requires n <= 6
    ensures Possible(START, LEAVING[..n]) && Run(START, LEAVING[..n]) == Leaving(n)
  {
    hide Enabled, Step, Leaving;
    if n == 0 {
      assert LEAVING[..0] == [];
      NothingLeft();
    } else {
      LeavingRun(n - 1);
      if n <= 2 {
        LeavingSteps(n - 1);
      } else if n == 3 {
        GreetsStep(n - 1);
      } else if n == 4 {
        LeavesStep(n - 1);
      } else {
        LeftSteps(n - 1);
      }
      RunMore(START, LEAVING[..n - 1], LEAVING[n - 1]);
      assert LEAVING[..n] == LEAVING[..n - 1] + [LEAVING[n - 1]];
    }
  }

  lemma {:induction false} StaleRun(n: nat)
    requires n <= 7
    ensures Possible(START, LEAVING + STALE[..n]) && Run(START, LEAVING + STALE[..n]) == Stale(n)
  {
    hide Enabled, Step, Leaving, Stale;
    NothingLeft();
    if n == 0 {
      LeavingRun(6);
      assert LEAVING + STALE[..0] == LEAVING[..6];
    } else {
      StaleRun(n - 1);
      if n <= 2 {
        StaleAssigned(n - 1);
      } else if n <= 4 {
        StaleConnects(n - 1);
      } else if n == 5 {
        StaleProduces(n - 1);
      } else if n == 6 {
        StaleSends(n - 1);
      } else {
        StaleArrives(n - 1);
      }
      RunMore(START, LEAVING + STALE[..n - 1], STALE[n - 1]);
      assert LEAVING + STALE[..n] == LEAVING + STALE[..n - 1] + [STALE[n - 1]];
    }
  }

  /** Everything that makes an id quiet, except that a join for it may still be on the way down. */
  predicate QuietButForJoins(s: Tunnel, id: ClientID) {
    && NoKey(WireLane(s.up), id)
    && NoKey(ReplyLane(s.replies), id)
    && (forall k :: 0 <= k < |s.locals| && s.locals[k].live ==> s.locals[k].id != id)
  }

  /**
   * A run in which no message of the former holder is on its way to the server and no connection of it
   * exists when its id is given out again, and still the new holder gets the former holder's payload:
   * the former holder's join was on the way down.
   */
  lemma PendingJoinsMatter()
    ensures var events := LEAVING + STALE;
            && Possible(START, events)
            && var s := Run(START, events);
               && |s.visitors| == 2 && s.visitors[1].rx == [BYTES]
               && |s.locals| == 1 && s.locals[0].gen == 0 && s.locals[0].produced == [BYTES]
               && !HasConnection(s.locals, 1)
    ensures var before := LEAVING + STALE[..1];
            && Possible(START, before)
            && var s := Run(START, before);
               && GivesOut(s) && STALE[1] == ServerTakes && GivenId(s) == 0
               && QuietButForJoins(s, 0) && !IdQuiet(PayloadsOnly, s, 0)
  {
    hide Run, Possible, FirstFree, Stale, IdQuiet, QuietButForJoins, GivesOut, HasConnection;
    StaleRun(1);
    StaleRun(7);
    assert STALE[..7] == STALE;
    FinalStates();
    BeforeGiving();
  }

  lemma FinalStates()
    ensures var s := Stale(7);
            && |s.visitors| == 2 && s.visitors[1].rx == [BYTES]
            && |s.locals| == 1 && s.locals[0].gen == 0 && s.locals[0].produced == [BYTES]
            && !HasConnection(s.locals, 1)
  {
  }

  lemma BeforeGiving()
    ensures var s := Stale(1);
            GivesOut(s) && GivenId(s) == 0 && QuietButForJoins(s, 0) && !IdQuiet(PayloadsOnly, s, 0)
  {
    var s := Stale(1);
    assert FirstFree(s.table.clients_id.Keys, 0) == Some(0);
    assert Readable(s)[0] == DOWN[0];
    assert WireLane(Readable(s))[0] == Open(0, 0);
  }

  // ----- A run after which the idle sides disagree -----

  /**
   * After the id was given out again, the former holder's connection is made, finds its stream at the end,
   * and has the new holder's id removed at the server, while the new holder's join still reaches the client.
   */
  const PARTING: seq<Event> :=
    [ClientReads, ClientReads, Connects(0), LocalServer(0, Read([]))] +
    [ClientTakes, ServerReads, ClientReads, ClientReads]

  function Parting(n: nat): Tunnel
    requires n <= 8
  {
    var again := Stale(2);
    var rejoin := WireItem(ProxyJoin(0), 1);
    var l := Local(0, 0, false, true, [], [], []);
    if n == 0 then again
    else if n == 1 then again.(down := DOWN[1..] + [rejoin], links := map[0 := 0], locals := [l])
    else
      var heard := again.(down := DOWN[2..] + [rejoin], links := map[0 := 0]);
      if n == 2 then heard.(locals := [l.(rx := [[]])])
      else if n == 3 then heard.(locals := [l.(rx := [[]], connected := true)])
      else
        var ended := heard.(locals := [l.(rx := [[]], connected := true, live := false)]);
        if n == 4 then ended.(replies := [ReplyItem(RemoveConnection(0), 0)])
        else if n == 5 then ended.(links := map[], up := [WireItem(ProxyDisconnect(0), 0)])
        else
          var removed := ended.(links := map[], table := EMPTY);
          if n == 6 then removed
          else if n == 7 then removed.(down := [rejoin])
          else
            var second := Local(0, 1, false, true, [], [], []);
            removed.(down := [], links := map[0 := 1], locals := removed.locals + [second])
  }

  lemma PartingJoins(n: nat)
    requires n == 0
    ensures Enabled(Parting(n), PARTING[n]) && Step(Parting(n), PARTING[n]) == Parting(n + 1)
  {
    var s', t := Step(Parting(n), PARTING[n]), Parting(n + 1);
    assert s'.down == t.down && s'.locals == t.locals;
  }

  lemma PartingHears(n: nat)
    requires n == 1
    ensures Enabled(Parting(n), PARTING[n]) && Step(Parting(n), PARTING[n]) == Parting(n + 1)
  {
    var s', t := Step(Parting(n), PARTING[n]), Parting(n + 1);
    var nothing: Payload := [];
    assert [] + [nothing] == [nothing];
    assert s'.down == t.down && s'.locals == t.locals;
  }

  lemma PartingEnds(n: nat)
    requires 2 <= n < 4
    ensures Enabled(Parting(n), PARTING[n]) && Step(Parting(n), PARTING[n]) == Parting(n + 1)
  {
    var s, t := Parting(n), Parting(n + 1);
    var s' := Step(s, PARTING[n]);
    var m := RemoveConnection(0);
    var gone := s.(locals := s.locals[0 := s.locals[0].(live := false)]);
    assert OnConnectionDrop(0, Task(true, true)) == [m];
    assert ReplyAll(gone, 0, [m]) == ReplyAll(Reply(gone, 0, m), 0, []) == Reply(gone, 0, m);
    assert s'.locals == t.locals && s'.replies == t.replies;
  }

  lemma PartingTells(n: nat)
    requires n == 4
    ensures Enabled(Parting(n), PARTING[n]) && Step(Parting(n), PARTING[n]) == Parting(n + 1)
  {
    var s', t := Step(Parting(n), PARTING[n]), Parting(n + 1);
    assert s'.links == t.links && s'.replies == t.replies && s'.up == t.up && s'.down == t.down && s'.table == t.table;
  }

  lemma PartingRemoves(n: nat)
    requires n == 5
    ensures Enabled(Parting(n), PARTING[n]) && Step(Parting(n), PARTING[n]) == Parting(n + 1)
  {
    var s', t := Step(Parting(n), PARTING[n]), Parting(n + 1);
    assert s'.links == t.links && s'.replies == t.replies && s'.up == t.up && s'.down == t.down && s'.table == t.table;
  }

  lemma PartingForgets(n: nat)
    requires n == 6
    ensures Enabled(Parting(n), PARTING[n]) && Step(Parting(n), PARTING[n]) == Parting(n + 1)
  {
    var s', t := Step(Parting(n), PARTING[n]), Parting(n + 1);
    assert s'.links == t.links && s'.down == t.down && s'.locals == t.locals;
  }

  lemma PartingRejoins(n: nat)
    requires n == 7
    ensures Enabled(Parting(n), PARTING[n]) && Step(Parting(n), PARTING[n]) == Parting(n + 1)
  {
    var s', t := Step(Parting(n), PARTING[n]), Parting(n + 1);
    assert s'.links == t.links && s'.down == t.down && s'.locals == t.locals;
  }

  lemma {:induction false} PartingRun(n: nat)
    requires n <= 8
    ensures Possible(START, LEAVING + STALE[..2] + PARTING[..n])
    ensures Run(START, LEAVING + STALE[..2] + PARTING[..n]) == Parting(n)
  {
    hide Enabled, Step, Stale, Parting;
    var before := LEAVING + STALE[..2];
    NothingLeft();
    if n == 0 {
      StaleRun(2);
      assert before + PARTING[..0] == before;
    } else {
      PartingRun(n - 1);
      if n == 1 {
        PartingJoins(n - 1);
      } else if n == 2 {
        PartingHears(n - 1);
      } else if n <= 4 {
        PartingEnds(n - 1);
      } else if n == 5 {
        PartingTells(n - 1);
      } else if n == 6 {
        PartingRemoves(n - 1);
      } else if n == 7 {
        PartingForgets(n - 1);
      } else {
        PartingRejoins(n - 1);
      }
      RunMore(START, before + PARTING[..n - 1], PARTING[n - 1]);
      assert before + PARTING[..n] == before + PARTING[..n - 1] + [PARTING[n - 1]];
    }
  }

  /** Both sides run, nothing is on the way, the client has a connection for id 0 and the server no client. */
  lemma IdleSidesDisagree()
    ensures var events := LEAVING + STALE[..2] + PARTING;
            && Possible(START, events)
            && var s := Run(START, events);
               && Idle(s) && s.inbox == []
               && s.links.Keys == {0} && s.table.clients_id.Keys == {} && !Agree(s)
    ensures var before := LEAVING + STALE[..1];
            && Possible(START, before)
            && GivesOut(Run(START, before)) && GivenId(Run(START, before)) == 0 && !Settled(Run(START, before), 0)
  {
    hide Run, Possible, FirstFree, Stale, Parting, Settled, GivesOut, IdQuiet, QuietButForJoins;
    PartingRun(8);
    assert PARTING[..8] == PARTING;
    LastParting();
    StaleRun(1);
    BeforeGiving();
    NotSettled();
  }

  lemma LastParting()
    ensures var s := Parting(8); Idle(s) && s.inbox == [] && s.links.Keys == {0} && s.table.clients_id.Keys == {}
  {
  }

  lemma NotSettled()
    ensures !Settled(Stale(1), 0)
  {
    var s := Stale(1);
    assert WireLane(s.down)[0] == Open(0, 0);
    var q := s.down;
    assert q[1..] == [DOWN[1], DOWN[2]] && q[1..][1..] == [DOWN[2]] && q[1..][1..][1..] == [];
    assert Readable(s) == s.down;
  }
}
