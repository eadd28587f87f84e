/**
 * Exactly when an id may be given out again: if and only if it is quiet. Otherwise the run can go on so
 * that a message of a former holder is taken for the new holder's.
 */
module StaleReuse {
  import opened Datatypes
  import opened Packets
  import opened Distributors
  import opened ServerHandler
  import opened ClientHandler
  import opened Endpoints
  import opened Lanes
  import opened Tunnels
  import opened Invariants
  import opened Isolation
  import opened Origins
  import opened Arrivals
  import opened Holders
  import opened QuietRuns
  import opened QuietReuse

  // ----- Messages taken for someone else's -----

  predicate About(p: SocketPacket, id: ClientID) {
    (p.ProxyData? && p.proxyData.client_id == id) || (p.ProxyDisconnect? && p.disconnected == id)
  }

  /** The Minecraft client the server takes a message for. */
  function TakenFor(t: Table, p: SocketPacket): Option<MinecraftClient> {
    match p
    case ProxyData(d) => LookupId(t, d.client_id)
    case ProxyDisconnect(id) => LookupId(t, id)
    case _ => None
  }

  /**
   * The server takes the next message on the wire for someone else's than the generation it comes from. Where
   * only payloads matter, it is a payload that reaches a Minecraft client which is still there.
   */
  predicate Misled(care: Care, s: Tunnel) {
    && s.serverUp && s.up != [] && (care.PayloadsOnly? ==> s.up[0].packet.ProxyData?)
    && var c := TakenFor(s.table, s.up[0].packet);
       c.Some? && c.value.tx != s.up[0].gen && Reaches(care, s.visitors, c.value.tx)
  }

  /** A misled server delivers the payload to the wrong client, or takes the id away from it. */
  lemma MisledActs(care: Care, s: Tunnel)
    requires Misled(care, s) && Bijective(s.table)
    ensures var p, c := s.up[0].packet, TakenFor(s.table, s.up[0].packet).value;
            var s' := Step(s, ServerReads);
            && c.tx != s.up[0].gen && LookupId(s.table, c.id) == Some(c)
            && match p
               case ProxyData(d) =>
                 c.tx < |s.visitors| && s.visitors[c.tx].live ==>
                   s'.visitors[c.tx].rx == s.visitors[c.tx].rx + [d.packet.data]
               case _ => LookupId(s'.table, c.id) == None
  {
    hide FirstFree;
    var c := TakenFor(s.table, s.up[0].packet);
    HolderRegistered(s.table, c.value.id);
  }

  /** In a quiet run the server is never misled. */
  lemma NeverMisled(care: Care, s: Tunnel)
    requires Inv(s) && Quiet(care, s)
    ensures !Misled(care, s)
  {
    hide ServerOk, ClientOk, Final, LinkView, UsesOf, Gotten, HasConnection, IsRegistered, Ready, Coming, Delivered,
      VisitorsOk, OwnersAgree, Ahead;
    if s.serverUp && s.up != [] {
      HeadAgrees(care, s);
    }
  }

  lemma HolderRegistered(t: Table, id: ClientID)
    requires Bijective(t) && LookupId(t, id).Some?
    ensures LookupId(t, id).value.id == id
    ensures exists a :: a in t.clients_addr && t.clients_addr[a] == LookupId(t, id).value
  {
  }

  // ----- Runs -----

  function Repeat(e: Event, n: nat): (events: seq<Event>)
    ensures |events| == n && forall i :: 0 <= i < n ==> events[i] == e
  {
    if n == 0 then [] else [e] + Repeat(e, n - 1)
  }

  lemma {:induction false} RunConcat(s: Tunnel, a: seq<Event>, b: seq<Event>)
    requires Possible(s, a) && Possible(Run(s, a), b)
    ensures Possible(s, a + b) && Run(s, a + b) == Run(Run(s, a), b)
    decreases |a|
  {
    hide Enabled, Step;
    if a == [] {
      assert a + b == b;
    } else {
      assert (a + b)[0] == a[0] && (a + b)[1..] == a[1..] + b;
      RunConcat(Step(s, a[0]), a[1..], b);
    }
  }

  /** The same event once more in front. */
  lemma RepeatMore(s: Tunnel, e: Event, n: nat)
    requires n > 0 && Enabled(s, e) && Possible(Step(s, e), Repeat(e, n - 1))
    ensures Possible(s, Repeat(e, n)) && Run(s, Repeat(e, n)) == Run(Step(s, e), Repeat(e, n - 1))
  {
    hide Enabled, Step;
    assert Repeat(e, n)[1..] == Repeat(e, n - 1);
  }

  lemma RepeatNever(s: Tunnel, e: Event)
    ensures Possible(s, Repeat(e, 0)) && Run(s, Repeat(e, 0)) == s
  {
    hide Enabled, Step;
  }

  lemma RunOne(s: Tunnel, e: Event)
    requires Enabled(s, e)
    ensures Possible(s, [e]) && Run(s, [e]) == Step(s, e)
  {
    hide Enabled, Step;
    assert [e][1..] == [];
  }

  predicate GivesNothingOut(events: seq<Event>) {
    forall i :: 0 <= i < |events| ==> !events[i].ServerTakes?
  }

  lemma {:induction false} NothingGivenOut(care: Care, s: Tunnel, events: seq<Event>)
    requires Possible(s, events) && GivesNothingOut(events)
    ensures QuietRun(care, s, events)
    decreases |events|
  {
    hide Enabled, Step, IdQuiet;
    if events != [] {
      NothingGivenOut(care, Step(s, events[0]), events[1..]);
    }
  }

  // ----- A message on the wire -----

  /** Messages about other ids change nothing for an id. */
  lemma OthersRead(t: Table, p: SocketPacket, id: ClientID)
    requires Bijective(t) && id in t.clients_id && !About(p, id)
    ensures var t' := OnPacket(t, p).table; Bijective(t') && id in t'.clients_id && LookupId(t', id) == LookupId(t, id)
  {
    if p.ProxyDisconnect? {
      OperationRefines(t, DropId(p.disconnected));
    }
  }

  ghost predicate SameLives(vs: seq<Visitor>, ws: seq<Visitor>) {
    |ws| == |vs| && forall g :: 0 <= g < |vs| ==> ws[g].live == vs[g].live
  }

  /** The server reads one message that is not about an id, whose holder stays the same. */
  lemma ReadPast(s: Tunnel, id: ClientID)
    requires s.serverUp && s.up != [] && Bijective(s.table) && id in s.table.clients_id && !About(s.up[0].packet, id)
    ensures var s' := ServerReadsStep(s);
            && s'.serverUp && s'.up == s.up[1..] && Bijective(s'.table)
            && id in s'.table.clients_id && LookupId(s'.table, id) == LookupId(s.table, id)
            && s'.locals == s.locals && SameLives(s.visitors, s'.visitors)
  {
    hide Bijective, LookupId, OnPacket;
    OthersRead(s.table, s.up[0].packet, id);
  }

  /** The server reads up to the first message about an id. */
  lemma {:induction false} ReadUpTo(s: Tunnel, id: ClientID, n: nat)
    requires s.serverUp && Bijective(s.table) && id in s.table.clients_id && n <= |s.up|
    requires forall j :: 0 <= j < n ==> !About(s.up[j].packet, id)
    ensures Possible(s, Repeat(ServerReads, n))
    ensures var s' := Run(s, Repeat(ServerReads, n));
            && s'.serverUp && s'.up == s.up[n..] && Bijective(s'.table)
            && id in s'.table.clients_id && LookupId(s'.table, id) == LookupId(s.table, id)
            && s'.locals == s.locals && SameLives(s.visitors, s'.visitors)
    decreases n
  {
    hide Bijective, LookupId, Possible, Run, Repeat, About, ServerReadsStep;
    if n == 0 {
      RepeatNever(s, ServerReads);
    } else {
      ReadPast(s, id);
      ReadUpTo(Step(s, ServerReads), id, n - 1);
      RepeatMore(s, ServerReads, n);
    }
  }

  /**
   * In every reachable state: if an id is given out while a message about it is on the wire to the
   * server, that message is taken for the new holder's. Its payload is delivered to the new holder; its
   * disconnect takes the id away from the new holder.
   */
  lemma StaleMessageIsTaken(s: Tunnel, i: nat)
    requires Inv(s) && GivesOut(s)
    requires i < |s.up| && About(s.up[i].packet, GivenId(s))
    requires forall j :: 0 <= j < i ==> !About(s.up[j].packet, GivenId(s))
    ensures var given := Step(s, ServerTakes);
            && Possible(given, Repeat(ServerReads, i))
            && var t := Run(given, Repeat(ServerReads, i)).table;
               && Run(given, Repeat(ServerReads, i)).up == s.up[i..]
               && match s.up[i].packet
                  case ProxyData(d) =>
                    OnPacket(t, s.up[i].packet).delivery == Some(Delivery(s.inbox[0].message.tx, d.packet.data))
                  case _ => GivenId(s) in t.clients_id && GivenId(s) !in OnPacket(t, s.up[i].packet).table.clients_id
  {
    hide Inv, Bijective, FirstFree, Run, Possible;
    var addr, tx := s.inbox[0].message.addr, s.inbox[0].message.tx;
    var given := Step(s, ServerTakes);
    InvStep(s, ServerTakes);
    TableBijective(given);
    Inserted(s.table, addr, tx);
    assert LookupId(given.table, GivenId(s)) == Some(MinecraftClient(tx, GivenId(s)));
    assert given.up == s.up;
    ReadUpTo(given, GivenId(s), i);
  }

  /** A generation that holds an id and has no connection yet, so that no message about the id is its own. */
  ghost predicate Newcomer(care: Care, s: Tunnel, id: ClientID, g: nat) {
    && s.serverUp && Bijective(s.table) && id in s.table.clients_id
    && LookupId(s.table, id) == Some(MinecraftClient(g, id)) && Reaches(care, s.visitors, g)
    && !HasConnection(s.locals, g) && Sourced(s)
  }

  /** The server takes the next message for one of a newcomer. */
  ghost predicate MisledAbout(care: Care, s: Tunnel, g: nat) {
    Misled(care, s) && TakenFor(s.table, s.up[0].packet).value.tx == g && !HasConnection(s.locals, g)
  }

  lemma WireMisleads(care: Care, s: Tunnel, id: ClientID, g: nat) returns (more: seq<Event>)
    requires Newcomer(care, s, id, g) && !Spared(care, WireLane(s.up), id)
    ensures Possible(s, more) && MisledAbout(care, Run(s, more), g) && GivesNothingOut(more)
  {
    hide Run, Possible, Repeat, UsesOf, LookupId, Bijective, HasConnection, FromLocal, Spared;
    var i := FirstTaken(care, WireLane(s.up), id);
    assert forall j :: 0 <= j < i ==> WireLane(s.up)[..i][j] == WireMark(s.up[j]);
    more := Repeat(ServerReads, i);
    ReadUpTo(s, id, i);
    NothingFrom(WireLane(s.up), s.locals, g);
    assert WireLane(s.up)[i] == WireMark(s.up[i]);
    var s' := Run(s, more);
    assert s'.up[0] == s.up[i];
  }

  // ----- A reply that is still sent -----

  /** The client takes replies that are not behind a death. */
  lemma {:induction false} TakeReplies(s: Tunnel, n: nat)
    requires s.clientUp && n <= SendLength(s.replies)
    ensures Possible(s, Repeat(ClientTakes, n))
    ensures var s' := Run(s, Repeat(ClientTakes, n));
            && s'.clientUp && s'.replies == s.replies[n..] && s'.down == s.down && s'.visitors == s.visitors
            && WireLane(s'.up) == WireLane(s.up) + ReplyLane(s.replies[..n])
            && s'.serverUp == s.serverUp && s'.table == s.table && s'.locals == s.locals
    decreases n
  {
    hide Possible, Run, Repeat, SendLength, ClientTakesStep, ReplyMark, WireMark, WireLane, ReplyLane;
    if n == 0 {
      RepeatNever(s, ClientTakes);
      NoReplies(s.replies, WireLane(s.up));
    } else {
      var next := Step(s, ClientTakes);
      TakeOne(s);
      TakeReplies(next, n - 1);
      RepeatMore(s, ClientTakes, n);
      FirstReplies(s.replies, n);
      Regroup(WireLane(s.up), [ReplyMark(s.replies[0])], ReplyLane(next.replies[..n - 1]));
    }
  }

  lemma NoReplies(q: seq<ReplyItem>, lane: Lane)
    ensures q[0..] == q && lane + ReplyLane(q[..0]) == lane
  {
    assert ReplyLane(q[..0]) == [];
  }

  lemma Regroup<T>(a: seq<T>, b: seq<T>, c: seq<T>)
    ensures (a + b) + c == a + (b + c)
  {
  }

  lemma FirstReplies(q: seq<ReplyItem>, n: nat)
    requires 0 < n <= |q|
    ensures ReplyLane(q[..n]) == [ReplyMark(q[0])] + ReplyLane(q[1..][..n - 1]) && q[n..] == q[1..][n - 1..]
  {
    assert q[..n] == [q[0]] + q[1..][..n - 1];
  }

  lemma TakeOne(s: Tunnel)
    requires s.clientUp && s.replies != [] && SendLength(s.replies) > 0
    ensures var s' := ClientTakesStep(s);
            && s'.clientUp && s'.replies == s.replies[1..] && SendLength(s.replies) == 1 + SendLength(s'.replies)
            && s'.down == s.down && s'.visitors == s.visitors
            && WireLane(s'.up) == WireLane(s.up) + [ReplyMark(s.replies[0])]
            && s'.serverUp == s.serverUp && s'.table == s.table && s'.locals == s.locals
  {
    var r := OnMessage(s.links, s.replies[0].message);
    assert r.sends == [r.sends[0]];
    WireGrows(s.up, r.sends[0], s.replies[0].gen);
  }

  /** Something ahead is taken for the newcomer's once all replies that can be sent are on the wire. */
  lemma AheadMisleads(care: Care, s: Tunnel, id: ClientID, g: nat) returns (more: seq<Event>)
    requires Newcomer(care, s, id, g) && !Spared(care, Ahead(s), id)
    ensures Possible(s, more) && MisledAbout(care, Run(s, more), g) && GivesNothingOut(more)
  {
    hide Run, Possible, Misled, LookupId, Bijective, HasConnection, Sources, Spared, Reaches;
    if s.clientUp {
      var takes := Repeat(ClientTakes, SendLength(s.replies));
      TakeReplies(s, SendLength(s.replies));
      SourcedRun(s, takes);
      var rest := WireMisleads(care, Run(s, takes), id, g);
      RunConcat(s, takes, rest);
      more := takes + rest;
    } else {
      assert Sendable(s.replies) == [] && Ahead(s) == WireLane(s.up);
      more := WireMisleads(care, s, id, g);
    }
  }

  // ----- A live connection -----

  const ANYTHING: Payload := [0]

  /** The connection connects, if it has not yet, and reads a byte from the local server. */
  lemma Produce(s: Tunnel, k: nat) returns (events: seq<Event>)
    requires s.clientUp && k < |s.locals| && s.locals[k].live
    ensures Possible(s, events) && GivesNothingOut(events)
    ensures var s' := Run(s, events);
            && s'.clientUp && s'.serverUp == s.serverUp && s'.table == s.table && Extends(s'.locals, s.locals)
            && s'.visitors == s.visitors && s'.up == s.up
            && s'.replies == s.replies + [ReplyItem(FromConnection(s.locals[k].id, ANYTHING), s.locals[k].gen)]
  {
    var read := LocalServer(k, Read(ANYTHING));
    if s.locals[k].connected {
      ProduceOne(s, k);
      RunOne(s, read);
      events := [read];
    } else {
      var s' := Step(s, Connects(k));
      RunOne(s, Connects(k));
      ProduceOne(s', k);
      RunOne(s', read);
      RunConcat(s, [Connects(k)], [read]);
      events := [Connects(k)] + [read];
    }
  }

  lemma ProduceOne(s: Tunnel, k: nat)
    requires s.clientUp && k < |s.locals| && s.locals[k].live && s.locals[k].connected
    ensures var e := LocalServer(k, Read(ANYTHING));
            && Enabled(s, e)
            && var s' := Step(s, e);
               && s'.clientUp && s'.serverUp == s.serverUp && s'.table == s.table && Extends(s'.locals, s.locals)
               && s'.visitors == s.visitors && s'.up == s.up
               && s'.replies == s.replies + [ReplyItem(FromConnection(s.locals[k].id, ANYTHING), s.locals[k].gen)]
  {
    var m := FromConnection(s.locals[k].id, ANYTHING);
    assert ReplyAll(s, k, [m]) == ReplyAll(Reply(s, k, m), k, []) == Reply(s, k, m);
  }

  lemma SameConnections(ls: seq<Local>, ms: seq<Local>, g: nat)
    requires Extends(ms, ls) && !HasConnection(ls, g)
    ensures !HasConnection(ms, g)
  {
    forall k | 0 <= k < |ms| ensures ms[k].gen != g {
      assert ls[k].gen == ms[k].gen;
    }
  }

  lemma LocalMisleads(care: Care, s: Tunnel, id: ClientID, g: nat, k: nat)
    returns (more: seq<Event>)
    requires Newcomer(care, s, id, g) && NoKey(Ahead(s), id)
    requires Hopeful(s) && k < |s.locals| && s.locals[k].live && s.locals[k].id == id
    ensures Possible(s, more) && MisledAbout(care, Run(s, more), g) && GivesNothingOut(more)
  {
    hide Run, Possible, Misled, LookupId, Bijective, HasConnection, Sources, Extends, SendLength, Reaches, Ahead,
      NoKey, Spared;
    var events := Produce(s, k);
    SourcedRun(s, events);
    var s' := Run(s, events);
    SameConnections(s.locals, s'.locals, g);
    var i := ReplyItem(FromConnection(id, ANYTHING), s.locals[k].gen);
    AheadReplies(s, s', i);
    NotSpared(care, Ahead(s), ReplyMark(i));
    var rest := AheadMisleads(care, s', id, g);
    RunConcat(s, events, rest);
    more := events + rest;
  }

  // ----- A join that is still read -----

  predicate HasLive(ls: seq<Local>, id: ClientID) {
    exists k :: 0 <= k < |ls| && ls[k].live && ls[k].id == id
  }

  /** The client reads packets in front of the first one that stops it; every join leaves a live connection. */
  lemma {:induction false} ReadDown(s: Tunnel, n: nat)
    requires s.clientUp && n <= ReadLength(s.links, |s.locals|, Closed(s.locals), s.down)
    ensures Possible(s, Repeat(ClientReads, n))
    ensures var s' := Run(s, Repeat(ClientReads, n));
            && s'.clientUp && s'.serverUp == s.serverUp && s'.table == s.table && s'.up == s.up
            && s'.replies == s.replies && s'.down == s.down[n..] && s'.visitors == s.visitors
            && (forall id :: HasLive(s.locals, id) ==> HasLive(s'.locals, id))
            && (forall j :: 0 <= j < n && s.down[j].packet.ProxyJoin? ==> HasLive(s'.locals, s.down[j].packet.joined))
    decreases n
  {
    hide Possible, Run, Repeat, Closed, ReadLength, ClientReadsStep, HasLive;
    if n == 0 {
      RepeatNever(s, ClientReads);
    } else {
      var next := Step(s, ClientReads);
      ReadOne(s);
      ReadDown(next, n - 1);
      RepeatMore(s, ClientReads, n);
      assert forall j :: 0 < j < n ==> s.down[j] == next.down[j - 1];
    }
  }

  lemma ReadOne(s: Tunnel)
    requires s.clientUp && s.down != [] && ReadLength(s.links, |s.locals|, Closed(s.locals), s.down) > 0
    ensures var s' := ClientReadsStep(s);
            && s'.clientUp && s'.serverUp == s.serverUp && s'.table == s.table && s'.up == s.up
            && s'.replies == s.replies && s'.down == s.down[1..] && s'.visitors == s.visitors
            && ReadLength(s.links, |s.locals|, Closed(s.locals), s.down)
               == 1 + ReadLength(s'.links, |s'.locals|, Closed(s'.locals), s'.down)
            && (forall id :: HasLive(s.locals, id) ==> HasLive(s'.locals, id))
            && (s.down[0].packet.ProxyJoin? ==> HasLive(s'.locals, s.down[0].packet.joined))
  {
    var s' := ClientReadsStep(s);
    ReadHead(s);
    forall id | HasLive(s.locals, id) ensures HasLive(s'.locals, id) {
      var k :| 0 <= k < |s.locals| && s.locals[k].live && s.locals[k].id == id;
      assert s'.locals[k].live && s'.locals[k].id == id;
    }
    if s.down[0].packet.ProxyJoin? {
      var l := s'.locals[|s.locals|];
      assert l.live && l.id == s.down[0].packet.joined;
    }
  }

  lemma NotYetJoined(s: Tunnel, i: nat, g: nat)
    requires Inv(s) && i < |s.down| && s.down[i].packet.ProxyJoin? && s.down[i].gen == g
    ensures !HasConnection(s.locals, g)
  {
    hide Final, LinkView, UsesOf, Consistent, ServerOk, LinksOk, LocalsOk, OwnersAgree, VisitorsOk;
    assert WireLane(s.down)[i] == WireMark(s.down[i]);
  }

  lemma JoinMisleads(care: Care, s: Tunnel, id: ClientID, g: nat, j: nat, i: nat)
    returns (more: seq<Event>)
    requires Inv(s) && Newcomer(care, s, id, g) && NoKey(Ahead(s), id) && Hopeful(s)
    requires j < ReadLength(s.links, |s.locals|, Closed(s.locals), s.down)
    requires s.down[j].packet.ProxyJoin? && s.down[j].packet.joined == id
    requires j < i < |s.down| && s.down[i].packet.ProxyJoin? && s.down[i].gen == g
    ensures Possible(s, more) && MisledAbout(care, Run(s, more), g) && GivesNothingOut(more)
  {
    hide Inv, Run, Possible, Misled, LookupId, Bijective, HasConnection, Sources, SendLength, ReadLength, Closed,
      Reaches, NoKey;
    var hears := Repeat(ClientReads, j + 1);
    ReadDown(s, j + 1);
    SourcedRun(s, hears);
    InvRun(s, hears);
    var s' := Run(s, hears);
    assert s'.down[i - j - 1] == s.down[i];
    NotYetJoined(s', i - j - 1, g);
    assert HasLive(s'.locals, id);
    var k :| 0 <= k < |s'.locals| && s'.locals[k].live && s'.locals[k].id == id;
    var rest := LocalMisleads(care, s', id, g, k);
    RunConcat(s, hears, rest);
    more := hears + rest;
  }

  // ----- Giving an id out -----

  /** The server is about to give an id out. */
  predicate GivesOut(s: Tunnel) {
    && s.serverUp && s.inbox != [] && s.inbox[0].message.AddMinecraftClient?
    && OnInbox(s.table, s.inbox[0].message).running
  }

  function GivenId(s: Tunnel): ClientID
    requires GivesOut(s)
  {
    Inserting(s.table, s.inbox[0].message.addr, s.inbox[0].message.tx).value.1.id
  }

  lemma Given(care: Care, s: Tunnel)
    requires GivesOut(s) && Reaches(care, s.visitors, s.inbox[0].gen) && Inv(s) && Sourced(s)
    ensures var s', id, g := Step(s, ServerTakes), GivenId(s), s.inbox[0].gen;
            && Inv(s') && Newcomer(care, s', id, g)
            && s'.up == s.up && s'.replies == s.replies && s'.clientUp == s.clientUp
            && s'.links == s.links && s'.locals == s.locals
            && s'.down == s.down + [WireItem(ProxyJoin(id), g)]
  {
    hide Inv, Sourced, Step, GivenId, Bijective, HasConnection, LookupId, Reaches;
    var g := s.inbox[0].gen;
    InvStep(s, ServerTakes);
    SourcedStep(s, ServerTakes);
    TaggedHead(s);
    NotYetConnected(s, g);
    OwnHead(s);
    GivenStep(s);
    TableBijective(Step(s, ServerTakes));
    StillReached(care, s.visitors, Step(s, ServerTakes).visitors, g);
  }

  lemma GivenStep(s: Tunnel)
    requires GivesOut(s) && s.inbox[0].message.tx == s.inbox[0].gen < |s.visitors|
    ensures var s', id, g := Step(s, ServerTakes), GivenId(s), s.inbox[0].gen;
            && s'.serverUp && id in s'.table.clients_id && LookupId(s'.table, id) == Some(MinecraftClient(g, id))
            && s'.up == s.up && s'.replies == s.replies && s'.clientUp == s.clientUp
            && s'.links == s.links && s'.locals == s.locals && SameLives(s.visitors, s'.visitors)
            && s'.down == s.down + [WireItem(ProxyJoin(id), g)]
  {
    hide FirstFree;
    Inserted(s.table, s.inbox[0].message.addr, s.inbox[0].gen);
    WireGrows(s.down, ProxyJoin(GivenId(s)), s.inbox[0].gen);
  }

  lemma StillReached(care: Care, vs: seq<Visitor>, ws: seq<Visitor>, g: nat)
    requires SameLives(vs, ws) && Reaches(care, vs, g)
    ensures Reaches(care, ws, g)
  {
  }

  lemma UnquietState(care: Care, s: Tunnel) returns (more: seq<Event>)
    requires Inv(s) && Sourced(s) && Enabled(s, ServerTakes) && !QuietEvent(care, s, ServerTakes)
    ensures var s' := Step(s, ServerTakes);
            && Possible(s', more) && GivesNothingOut(more) && QuietRun(care, s', more)
            && MisledAbout(care, Run(s', more), s.inbox[0].gen)
  {
    hide Inv, Sourced, Step, Run, Possible, QuietRun, MisledAbout, Newcomer, SendLength, ReadLength, Closed, Reaches,
      NoKey, Spared, FirstFree, Ahead;
    var s', id, g := Step(s, ServerTakes), GivenId(s), s.inbox[0].gen;
    assert s.inbox[0].message.tx == g by { OwnHead(s); }
    Given(care, s);
    assert Ahead(s') == Ahead(s) by { SameAhead(s, s'); }
    if !Spared(care, Ahead(s), id) {
      more := AheadMisleads(care, s', id, g);
    } else if k :| 0 <= k < |s.locals| && s.locals[k].live && s.locals[k].id == id {
      more := LocalMisleads(care, s', id, g, k);
    } else {
      var j :| 0 <= j < |Readable(s)| && WireLane(Readable(s))[j].Open? && WireLane(Readable(s))[j].key == id as nat;
      ReadAppends(s.links, |s.locals|, Closed(s.locals), s.down, WireItem(ProxyJoin(id), g));
      assert WireLane(Readable(s))[j] == WireMark(s.down[j]);
      more := JoinMisleads(care, s', id, g, j, |s.down|);
    }
    NothingGivenOut(care, s', more);
  }

  lemma OwnHead(s: Tunnel)
    requires Inv(s) && s.inbox != [] && s.inbox[0].message.AddMinecraftClient?
    ensures s.inbox[0].message.tx == s.inbox[0].gen
  {
    hide ServerOk, ClientOk, OwnersAgree, Final, VisitorsOk, LinkView;
    assert OwnChannel(s.inbox[0]);
  }

  lemma SameAhead(s: Tunnel, s': Tunnel)
    requires s'.up == s.up && s'.replies == s.replies
    ensures Ahead(s') == Ahead(s)
  {
    hide SendLength;
  }

  /**
   * In every reachable state, if the id that is given out is not quiet, the run can go on, giving out quiet
   * ids only, so that a message of a former holder is taken for the new holder's.
   */
  lemma UnquietMisleads(care: Care, events: seq<Event>) returns (more: seq<Event>)
    requires Possible(START, events)
    requires var s := Run(START, events); Enabled(s, ServerTakes) && !QuietEvent(care, s, ServerTakes)
    ensures var s' := Step(Run(START, events), ServerTakes);
            Possible(s', more) && QuietRun(care, s', more) && Misled(care, Run(s', more))
  {
    hide Run, Possible, QuietRun, Inv, Sourced, QuietEvent, Misled, Step, HasConnection;
    StartOk(START);
    SourcedStart(START);
    InvRun(START, events);
    SourcedRun(START, events);
    more := UnquietState(care, Run(START, events));
  }

  /** In no quiet run is the server ever misled. */
  lemma QuietNeverMisled(care: Care, events: seq<Event>)
    requires Possible(START, events) && QuietRun(care, START, events)
    ensures !Misled(care, Run(START, events))
  {
    hide Run, Possible, QuietRun, Inv, Sourced, Quiet, Misled;
    StartOk(START);
    SourcedStart(START);
    QuietStart(care, START);
    QuietInvRun(care, START, events);
    NeverMisled(care, Run(START, events));
  }

  /** What a quiet run may rely on after one more quiet turn of the server. */
  lemma QuietOn(care: Care, events: seq<Event>)
    requires Possible(START, events) && QuietRun(care, START, events) && Enabled(Run(START, events), ServerTakes)
    ensures var s := Run(START, events);
            && Inv(s) && Sourced(s)
            && (QuietEvent(care, s, ServerTakes) ==>
                  var s' := Step(s, ServerTakes); Inv(s') && Sourced(s') && Quiet(care, s'))
  {
    hide Run, Possible, QuietRun, Inv, Sourced, Quiet, QuietEvent, Step;
    StartOk(START);
    SourcedStart(START);
    QuietStart(care, START);
    QuietInvRun(care, START, events);
    var s := Run(START, events);
    if QuietEvent(care, s, ServerTakes) {
      InvStep(s, ServerTakes);
      SourcedStep(s, ServerTakes);
      QuietStep(care, s, ServerTakes);
    }
  }

  /**
   * The exact condition, for every quiet run up to now: the server's turn is safe, in the sense that no quiet
   * continuation ever misleads the server, if and only if an id that it gives out is quiet.
   */
  lemma QuietIsExact(care: Care, events: seq<Event>)
    requires Possible(START, events) && QuietRun(care, START, events) && Enabled(Run(START, events), ServerTakes)
    ensures var s := Run(START, events);
            var s' := Step(s, ServerTakes);
            QuietEvent(care, s, ServerTakes) <==>
            forall more :: Possible(s', more) && QuietRun(care, s', more) ==> !Misled(care, Run(s', more))
  {
    hide Run, Possible, QuietRun, Inv, Sourced, Quiet, QuietEvent, Misled, Step, HasConnection;
    QuietOn(care, events);
    var s := Run(START, events);
    var s' := Step(s, ServerTakes);
    if QuietEvent(care, s, ServerTakes) {
      forall more | Possible(s', more) && QuietRun(care, s', more) ensures !Misled(care, Run(s', more)) {
        QuietInvRun(care, s', more);
        NeverMisled(care, Run(s', more));
      }
    } else {
      var more := UnquietState(care, s);
    }
  }

  /** A payload that is taken for a newcomer's breaks isolation. */
  lemma NotIsolated(s: Tunnel, g: nat)
    requires MisledAbout(PayloadsOnly, s, g)
    ensures !Isolated(Step(s, ServerReads))
  {
    hide LookupId, HasConnection;
    var s' := Step(s, ServerReads);
    assert s'.visitors[g].rx == s.visitors[g].rx + [s.up[0].packet.proxyData.packet.data];
    assert !HasConnection(s'.locals, g);
  }

  /**
   * The exact condition for isolation towards the server, for every run that is quiet for payloads up to now:
   * the server's turn is safe, in the sense that isolation holds in every quiet continuation, if and only if an
   * id that it gives out to a Minecraft client that is still there is quiet.
   */
  lemma IsolationIsExact(events: seq<Event>)
    requires Possible(START, events) && QuietRun(PayloadsOnly, START, events)
    requires Enabled(Run(START, events), ServerTakes)
    ensures var s := Run(START, events);
            var s' := Step(s, ServerTakes);
            QuietEvent(PayloadsOnly, s, ServerTakes) <==>
            forall more :: Possible(s', more) && QuietRun(PayloadsOnly, s', more) ==> Isolated(Run(s', more))
  {
    hide Run, Possible, QuietRun, Inv, Sourced, Quiet, QuietEvent, Misled, Step, HasConnection, Isolated;
    QuietOn(PayloadsOnly, events);
    var s := Run(START, events);
    var s' := Step(s, ServerTakes);
    if QuietEvent(PayloadsOnly, s, ServerTakes) {
      forall more | Possible(s', more) && QuietRun(PayloadsOnly, s', more) ensures Isolated(Run(s', more)) {
        QuietInvRun(PayloadsOnly, s', more);
        QuietIsolates(PayloadsOnly, Run(s', more));
      }
    } else {
      var more := IsolationBreaks(s);
    }
  }

  lemma IsolationBreaks(s: Tunnel) returns (more: seq<Event>)
    requires Inv(s) && Sourced(s) && Enabled(s, ServerTakes) && !QuietEvent(PayloadsOnly, s, ServerTakes)
    ensures var s' := Step(s, ServerTakes);
            Possible(s', more) && QuietRun(PayloadsOnly, s', more) && !Isolated(Run(s', more))
  {
    hide Run, Possible, QuietRun, Inv, Sourced, QuietEvent, TakenFor, Step, HasConnection, Isolated;
    var s' := Step(s, ServerTakes);
    var before := UnquietState(PayloadsOnly, s);
    var last := Run(s', before);
    NotIsolated(last, s.inbox[0].gen);
    RunOne(last, ServerReads);
    RunConcat(s', before, [ServerReads]);
    more := before + [ServerReads];
    NothingGivenOut(PayloadsOnly, s', more);
  }

  /** Where all messages matter more must be quiet than where only payloads do. */
  lemma {:induction false} QuietForAll(care: Care, s: Tunnel, events: seq<Event>)
    requires Possible(s, events) && QuietRun(AllMessages, s, events)
    ensures QuietRun(care, s, events)
    decreases |events|
  {
    hide Enabled, Step, Ahead, Spared, FirstFree, Hopeful, Readable, NoJoin;
    if events != [] {
      forall id: ClientID | IdQuiet(AllMessages, s, id) ensures IdQuiet(care, s, id) {
        SparedAll(AllMessages, Ahead(s), id);
        SparedNone(care, Ahead(s), id);
      }
      QuietForAll(care, Step(s, events[0]), events[1..]);
    }
  }
}
