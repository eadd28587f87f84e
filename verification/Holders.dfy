/**
 * Who will hold each id once everything on its way to the server has arrived, and when an id can be given
 * out without a former holder's messages being taken for the new holder's.
 */
module Holders {
  import opened Datatypes
  import opened Bytes
  import opened Packets
  import opened Distributors
  import opened ClientHandler
  import opened Lanes
  import opened Tunnels
  import opened Invariants
  import opened Isolation
  import opened Origins
  import opened Arrivals

  // ----- Holders -----

  /** Everything the server can still get from the client, in order. */
  function Ahead(s: Tunnel): Lane {
    WireLane(s.up) + ReplyLane(Sendable(s.replies))
  }

  /** A payload only reaches a Minecraft client that is still there. */
  predicate Reaches(care: Care, vs: seq<Visitor>, g: nat) {
    care.PayloadsOnly? ==> g < |vs| && vs[g].live
  }

  /** The Minecraft client each id leads to, as far as messages about it reach that client. */
  function HolderView(care: Care, t: Table, vs: seq<Visitor>): View {
    map id | id in t.clients_id && LookupId(t, id).Some? && Reaches(care, vs, LookupId(t, id).value.tx)
      :: LookupId(t, id).value.tx
  }

  function HoldersOf(care: Care, s: Tunnel): View {
    HolderView(care, s.table, s.visitors)
  }

  /** The holders once everything ahead has arrived. */
  function LastHolders(care: Care, s: Tunnel): View {
    Final(HoldersOf(care, s), Ahead(s))
  }

  predicate NoJoin(lane: Lane, id: nat) {
    forall i :: 0 <= i < |lane| && lane[i].Open? ==> lane[i].key != id
  }

  /**
   * No message of a former holder can be taken for a new holder's. The first message about the id that is on
   * its way, if there is one, is a disconnect, which takes the id away again, and does no harm where only
   * payloads matter. If there is none and no death will stop the client first, no live connection can send
   * one and no join that the client can still read can start one.
   */
  predicate IdQuiet(care: Care, s: Tunnel, id: ClientID) {
    && Spared(care, Ahead(s), id)
    && (NoKey(Ahead(s), id) && Hopeful(s) ==>
          && (forall k :: 0 <= k < |s.locals| && s.locals[k].live ==> s.locals[k].id != id)
          && NoJoin(WireLane(Readable(s)), id))
  }

  // ----- The invariant -----

  ghost predicate LiveAgree(ls: seq<Local>, view: View) {
    forall k :: 0 <= k < |ls| && ls[k].live && ls[k].id in view ==> view[ls[k].id] == ls[k].gen
  }

  ghost predicate JoinsAgree(lane: Lane, view: View) {
    forall i :: 0 <= i < |lane| && lane[i].Open? && lane[i].key in view ==> view[lane[i].key] == lane[i].gen
  }

  /** Whoever can still produce messages about an id holds it, or nobody does. */
  ghost predicate Ready(s: Tunnel, view: View) {
    Hopeful(s) ==> LiveAgree(s.locals, view) && JoinsAgree(WireLane(Readable(s)), view)
  }

  ghost predicate Tags(care: Care, s: Tunnel) {
    s.serverUp ==> Consistent(care, HoldersOf(care, s), Ahead(s)) && Ready(s, LastHolders(care, s))
  }

  lemma TagsStart(care: Care, s: Tunnel)
    requires s == START
    ensures Tags(care, s)
  {
    assert Ahead(s) == [] && HoldersOf(care, s) == map[];
  }

  // ----- What can still be produced -----

  lemma ReadyFewer(s: Tunnel, small: View, large: View)
    requires Within(small, large) && Ready(s, large)
    ensures Ready(s, small)
  {
    hide Closed, ReadLength, SendLength;
  }

  lemma JoinsPrefix(q: seq<WireItem>, p: seq<WireItem>, view: View)
    requires p <= q && JoinsAgree(WireLane(q), view)
    ensures JoinsAgree(WireLane(p), view)
  {
    assert forall i :: 0 <= i < |p| ==> WireLane(p)[i] == WireLane(q)[i];
  }

  lemma JoinsMore(q: seq<WireItem>, x: WireItem, view: View)
    requires JoinsAgree(WireLane(q), view)
    requires x.packet.ProxyJoin? && x.packet.joined as nat in view ==> view[x.packet.joined as nat] == x.gen
    ensures JoinsAgree(WireLane(q + [x]), view)
  {
    assert WireLane(q + [x]) == WireLane(q) + [WireMark(x)];
  }

  /** One more packet on the way down. */
  lemma ReadySent(s: Tunnel, s': Tunnel, x: WireItem, view: View)
    requires Ready(s, view)
    requires s'.links == s.links && s'.locals == s.locals && s'.clientUp == s.clientUp && s'.replies == s.replies
    requires s'.down == s.down + [x]
    requires x.packet.ProxyJoin? && x.packet.joined as nat in view ==> view[x.packet.joined as nat] == x.gen
    ensures Ready(s', view)
  {
    hide ReadLength, JoinsAgree, SendLength, Closed;
    SteadySent(s, s', x);
    if Hopeful(s) {
      JoinsMore(Readable(s), x, view);
      JoinsPrefix(Readable(s) + [x], Readable(s'), view);
    }
  }

  /** Fewer links or fewer live connections. */
  lemma ReadyLess(s: Tunnel, s': Tunnel, view: View)
    requires Ready(s, view)
    requires Hopeful(s') ==> Hopeful(s)
    requires forall id :: id in s'.links ==> id in s.links && s.links[id] == s'.links[id]
    requires |s'.locals| == |s.locals| && Closed(s.locals) <= Closed(s'.locals)
    requires LiveAgree(s.locals, view) ==> LiveAgree(s'.locals, view)
    requires s'.down == s.down
    ensures Ready(s', view)
  {
    hide ReadLength, JoinsAgree, LiveAgree, SendLength, Closed;
    SteadyLess(s, s');
    if Hopeful(s) {
      JoinsPrefix(Readable(s), Readable(s'), view);
    }
  }

  /** The client reads one packet; a join leaves a connection that may produce messages. */
  lemma ReadyRead(s: Tunnel, view: View)
    requires s.clientUp && s.down != [] && ClientReadsStep(s).clientUp && Ready(s, view)
    ensures var s' := ClientReadsStep(s); Hopeful(s') ==> JoinsAgree(WireLane(Readable(s')), view) && Hopeful(s)
    ensures !s.down[0].packet.ProxyJoin? ==>
              Ready(s.(down := s.down[1..], links := ClientReadsStep(s).links), view)
    ensures Hopeful(s) && s.down[0].packet.ProxyJoin? && s.down[0].packet.joined as nat in view ==>
              view[s.down[0].packet.joined as nat] == s.down[0].gen
  {
    hide ReadLength, SendLength, Closed, OnProxyPacket, ClientReadsStep, LiveAgree;
    SteadyRead(s);
    ReadKeeps(s);
    var more := Readable(ClientReadsStep(s));
    WireShrinks(Readable(s));
    assert Readable(s)[1..] == more;
    if !s.down[0].packet.ProxyJoin? {
      var s' := s.(down := s.down[1..], links := ClientReadsStep(s).links);
      assert Readable(s)[1..] == Readable(s');
    }
  }

  // ----- Steps of the server -----

  /** Ids are freed or their holders leave, and nothing new can be produced. */
  lemma TagsShrink(care: Care, s: Tunnel, s': Tunnel)
    requires Tags(care, s) && (s'.serverUp ==> s.serverUp) && Ahead(s') == Ahead(s)
    requires s'.serverUp ==> Within(HoldersOf(care, s'), HoldersOf(care, s))
    requires s'.serverUp && Ready(s, LastHolders(care, s)) ==> Ready(s', LastHolders(care, s))
    ensures Tags(care, s')
  {
    hide Ready, Ahead, HolderView;
    if s'.serverUp {
      Shrink(care, HoldersOf(care, s'), HoldersOf(care, s), Ahead(s));
      ReadyFewer(s', LastHolders(care, s'), LastHolders(care, s));
    }
  }

  lemma FewerHolders(care: Care, t: Table, t': Table, vs: seq<Visitor>, ws: seq<Visitor>)
    requires forall id :: LookupId(t', id).Some? ==> LookupId(t, id) == LookupId(t', id)
    requires forall id :: LookupId(t', id).Some? && Reaches(care, ws, LookupId(t', id).value.tx) ==>
               Reaches(care, vs, LookupId(t', id).value.tx)
    ensures Within(HolderView(care, t', ws), HolderView(care, t, vs))
  {
    hide Reaches;
    forall id: ClientID | id in HolderView(care, t', ws)
      ensures id in HolderView(care, t, vs) && HolderView(care, t, vs)[id] == HolderView(care, t', ws)[id]
    {
      assert LookupId(t', id).Some?;
    }
  }

  lemma HolderAt(care: Care, t: Table, vs: seq<Visitor>, id: ClientID)
    ensures var view, c := HolderView(care, t, vs), LookupId(t, id);
            && (id as nat in view <==> id in t.clients_id && c.Some? && Reaches(care, vs, c.value.tx))
            && (id as nat in view ==> view[id as nat] == c.value.tx)
            && (c.Some? && Reaches(care, vs, c.value.tx) ==> id as nat in view)
  {
  }

  /** Payloads reach whoever they reached, whatever else changes about the visitors. */
  lemma SameHolders(care: Care, t: Table, vs: seq<Visitor>, g: nat, v: Visitor)
    requires g < |vs| && v.live == vs[g].live
    ensures HolderView(care, t, vs[g := v]) == HolderView(care, t, vs)
  {
    assert forall h :: Reaches(care, vs[g := v], h) <==> Reaches(care, vs, h);
  }

  lemma TagsVisitors(care: Care, s: Tunnel, s': Tunnel)
    requires Inv(s) && Tags(care, s) && SameGotten(s.visitors, s'.visitors)
    requires s' == s.(visitors := s'.visitors, inbox := s'.inbox)
    ensures Tags(care, s')
  {
    hide ClientOk, OwnersAgree, Final, Consistent, UsesOf, TableView, LinkView, VisitorsOk, InboxTagged,
      HoldersLive, NothingLost, Gotten, Bijective, Closed, ReadLength, SendLength, HolderView, LiveAgree, JoinsAgree;
    if s.serverUp {
      forall id | LookupId(s.table, id).Some? && Reaches(care, s'.visitors, LookupId(s.table, id).value.tx)
        ensures Reaches(care, s.visitors, LookupId(s.table, id).value.tx)
      {
        assert s.table.clients_id[id] in s.table.clients_addr;
      }
      FewerHolders(care, s.table, s.table, s.visitors, s'.visitors);
    }
    TagsShrink(care, s, s');
  }

  /** The server sends a packet that opens nothing; whom the ids lead to is the same or fewer. */
  lemma TagsSent(care: Care, s: Tunnel, s': Tunnel, x: WireItem)
    requires Tags(care, s) && s.serverUp && s'.serverUp && !x.packet.ProxyJoin?
    requires s' == s.(visitors := s'.visitors, inbox := s'.inbox, table := s'.table, down := s.down + [x])
    requires Within(HoldersOf(care, s'), HoldersOf(care, s))
    ensures Tags(care, s')
  {
    hide HolderView, Ready, Within;
    ReadySent(s, s', x, LastHolders(care, s));
    TagsShrink(care, s, s');
  }

  /** A client is removed by its address. */
  lemma HoldersParted(care: Care, t: Table, vs: seq<Visitor>, addr: SocketAddr)
    requires Bijective(t)
    ensures Within(HolderView(care, RemovingAddr(t, addr), vs), HolderView(care, t, vs))
  {
    hide Reaches;
    FewerHolders(care, t, RemovingAddr(t, addr), vs, vs);
  }

  /** The first message ahead reaches the server. */
  lemma TagsHeard(care: Care, s: Tunnel, s': Tunnel)
    requires Tags(care, s) && s.serverUp && s'.serverUp && Ahead(s) != [] && Ahead(s') == Ahead(s)[1..]
    requires HoldersOf(care, s') == After(HoldersOf(care, s), Ahead(s)[0])
    requires s'.links == s.links && s'.locals == s.locals && s'.clientUp == s.clientUp && s'.replies == s.replies
    requires s'.down == s.down || exists x: WireItem :: !x.packet.ProxyJoin? && s'.down == s.down + [x]
    ensures Tags(care, s') && Agrees(care, HoldersOf(care, s), Ahead(s)[0])
  {
    hide LiveAgree, JoinsAgree, ReadLength, SendLength, Closed, Ahead, HolderView;
    Head(care, HoldersOf(care, s), Ahead(s));
    if x: WireItem :| !x.packet.ProxyJoin? && s'.down == s.down + [x] {
      ReadySent(s, s', x, LastHolders(care, s));
    }
  }

  lemma AheadHeard(s: Tunnel, s': Tunnel)
    requires s.up != [] && s'.up == s.up[1..] && s'.replies == s.replies
    ensures Ahead(s) != [] && Ahead(s)[0] == WireMark(s.up[0]) && Ahead(s') == Ahead(s)[1..]
  {
    WireShrinks(s.up);
  }

  lemma HeadAgrees(care: Care, s: Tunnel)
    requires Tags(care, s) && s.serverUp && s.up != []
    ensures Agrees(care, HoldersOf(care, s), WireMark(s.up[0]))
  {
    hide Ready, Ahead, HolderView;
    AheadHeard(s, s.(up := s.up[1..]));
  }

  /** A key that is taken away leads nowhere any more. */
  lemma HoldersFreed(care: Care, t: Table, vs: seq<Visitor>, id: ClientID)
    requires Bijective(t)
    ensures HolderView(care, RemovingId(t, id), vs) == HolderView(care, t, vs) - {id as nat}
  {
    hide Reaches;
    var t' := RemovingId(t, id);
    forall j: ClientID ensures LookupId(t', j) == if j == id then None else LookupId(t, j) {
    }
  }

  lemma NothingOpens(s: Tunnel)
    requires Sourced(s)
    ensures NoOpens(Ahead(s))
  {
    hide FromLocal, SendLength;
    assert forall i :: 0 <= i < |Sendable(s.replies)| ==> ReplyLane(Sendable(s.replies))[i] == ReplyMark(s.replies[i]);
  }

  lemma HoldersJoined(
      care: Care, t: Table, t': Table, vs: seq<Visitor>, addr: SocketAddr, id: ClientID, g: nat)
    requires Bijective(t) && Inserting(t, addr, g) == Some((t', MinecraftClient(g, id)))
    requires addr !in t.clients_addr
    ensures var view := HolderView(care, t, vs);
            && id as nat !in view
            && HolderView(care, t', vs) == if Reaches(care, vs, g) then view[id as nat := g] else view
  {
    hide Reaches, FirstFree;
    Inserted(t, addr, g);
    forall j: ClientID ensures LookupId(t', j) == if j == id then Some(MinecraftClient(g, id)) else LookupId(t, j) {
    }
  }

  /** An id is given out. */
  lemma TagsJoined(care: Care, s: Tunnel, s': Tunnel, addr: SocketAddr, id: ClientID, g: nat)
    requires Sourced(s) && Tags(care, s) && s.serverUp && (Reaches(care, s.visitors, g) ==> IdQuiet(care, s, id))
    requires Bijective(s.table) && addr !in s.table.clients_addr
    requires Inserting(s.table, addr, g) == Some((s'.table, MinecraftClient(g, id)))
    requires s' == s.(visitors := s'.visitors, inbox := s'.inbox, table := s'.table,
                      down := s.down + Tagged([ProxyJoin(id)], g), lastGen := s'.lastGen)
    requires g < |s.visitors| && exists v: Visitor :: v.live == s.visitors[g].live && s'.visitors == s.visitors[g := v]
    ensures Tags(care, s')
  {
    hide FirstFree, ReadLength, SendLength, Closed, Bijective, HolderView, Sourced, Reaches, Inserting;
    var v: Visitor :| v.live == s.visitors[g].live && s'.visitors == s.visitors[g := v];
    var view, last := HoldersOf(care, s), LastHolders(care, s);
    SameHolders(care, s'.table, s.visitors, g, v);
    HoldersJoined(care, s.table, s'.table, s.visitors, addr, id, g);
    NothingOpens(s);
    NeverHeld(view, Ahead(s), id);
    if Reaches(care, s.visitors, g) {
      HandOut(care, view, Ahead(s), id, g);
      if NoKey(Ahead(s), id) {
        ReadyGiven(s, last, id, g);
      }
    }
    WireGrows(s.down, ProxyJoin(id), g);
    assert Ahead(s') == Ahead(s);
    ReadySent(s, s', WireItem(ProxyJoin(id), g), LastHolders(care, s'));
  }

  lemma ReadyGiven(s: Tunnel, view: View, id: ClientID, g: nat)
    requires Ready(s, view)
    requires Hopeful(s) ==>
               && (forall k :: 0 <= k < |s.locals| && s.locals[k].live ==> s.locals[k].id != id)
               && NoJoin(WireLane(Readable(s)), id)
    ensures Ready(s, view[id as nat := g])
  {
    hide Closed, ReadLength, SendLength;
  }

  // ----- Steps of the client -----

  lemma TagsHalts(care: Care, s: Tunnel)
    requires Tags(care, s)
    ensures Tags(care, HaltClient(s))
  {
    hide HolderView;
    var s' := HaltClient(s);
    assert Sendable([]) == [] && ReplyLane([]) == [];
    Concat(care, HoldersOf(care, s), WireLane(s.up), ReplyLane(Sendable(s.replies)));
    assert Ahead(s') == WireLane(s.up);
  }

  lemma TagsPings(care: Care, s: Tunnel, time: u16)
    requires Tags(care, s)
    ensures Tags(care, s.(up := s.up + [WireItem(ProxyPing(time), 0)]))
  {
    hide HolderView, Closed, ReadLength, SendLength, LiveAgree, JoinsAgree;
    var s' := s.(up := s.up + [WireItem(ProxyPing(time), 0)]);
    var view, up, replies := HoldersOf(care, s), WireLane(s.up), ReplyLane(Sendable(s.replies));
    assert Tagged([ProxyPing(time)], 0) == [WireItem(ProxyPing(time), 0)];
    WireGrows(s.up, ProxyPing(time), 0);
    Concat(care, view, up, replies);
    Concat(care, view, up + [Blank], replies);
    AppendMark(care, view, up, Blank);
  }

  /** A reply goes to the wire, which changes nothing about what is ahead; the client may forget links. */
  lemma TagsMove(care: Care, s: Tunnel, links: Links, p: SocketPacket)
    requires Tags(care, s) && s.clientUp && s.replies != [] && !s.replies[0].message.Death?
    requires WireMark(WireItem(p, s.replies[0].gen)) == ReplyMark(s.replies[0])
    requires forall id :: id in links ==> id in s.links && s.links[id] == links[id]
    ensures var s' := s.(replies := s.replies[1..], links := links, up := s.up + Tagged([p], s.replies[0].gen));
            Tags(care, s')
  {
    hide HolderView, ReadLength, SendLength, Closed, LiveAgree, JoinsAgree, Ready;
    var s' := s.(replies := s.replies[1..], links := links, up := s.up + Tagged([p], s.replies[0].gen));
    AheadMoves(s, s', p);
    if s.serverUp {
      ReadyLess(s, s', LastHolders(care, s));
    }
    TagsShrink(care, s, s');
  }

  lemma SendableTail(q: seq<ReplyItem>)
    requires q != [] && !q[0].message.Death?
    ensures SendLength(q) == 1 + SendLength(q[1..])
    ensures ReplyLane(Sendable(q)) == [ReplyMark(q[0])] + ReplyLane(Sendable(q[1..]))
  {
    assert Sendable(q) == [q[0]] + Sendable(q[1..]);
  }

  lemma AheadMoves(s: Tunnel, s': Tunnel, p: SocketPacket)
    requires s.replies != [] && !s.replies[0].message.Death?
    requires WireMark(WireItem(p, s.replies[0].gen)) == ReplyMark(s.replies[0])
    requires s'.replies == s.replies[1..] && s'.up == s.up + Tagged([p], s.replies[0].gen) && s'.clientUp == s.clientUp
    ensures Ahead(s') == Ahead(s) && (Hopeful(s') ==> Hopeful(s))
  {
    hide SendLength;
    SendableTail(s.replies);
    WireGrows(s.up, p, s.replies[0].gen);
  }

  /** A new reply counts only if no death is in front of it. */
  lemma AheadReplies(s: Tunnel, s': Tunnel, i: ReplyItem)
    requires s'.up == s.up && s'.replies == s.replies + [i] && s'.clientUp == s.clientUp && s.clientUp
    ensures Ahead(s') == if Hopeful(s) && !i.message.Death? then Ahead(s) + [ReplyMark(i)] else Ahead(s)
    ensures Hopeful(s') ==> Hopeful(s)
  {
    SendAppends(s.replies, i);
    if Hopeful(s) && !i.message.Death? {
      assert Sendable(s.replies) == s.replies && Sendable(s'.replies) == s'.replies;
      ReplyGrows(s.replies, i);
    } else {
      assert Sendable(s'.replies) == Sendable(s.replies);
    }
  }

  lemma TagsReply(care: Care, s: Tunnel, s': Tunnel, i: ReplyItem)
    requires Tags(care, s) && s.clientUp && s' == s.(locals := s'.locals, replies := s.replies + [i])
    requires |s'.locals| == |s.locals| && Closed(s'.locals) == Closed(s.locals)
    requires s.serverUp && LiveAgree(s.locals, LastHolders(care, s)) ==> LiveAgree(s'.locals, LastHolders(care, s))
    requires s.serverUp && Hopeful(s) && !i.message.Death? ==>
               Agrees(care, LastHolders(care, s), ReplyMark(i))
    ensures Tags(care, s')
  {
    hide HolderView, ReadLength, SendLength, Closed, LiveAgree, JoinsAgree, Ready, Ahead, Hopeful;
    AheadReplies(s, s', i);
    if s.serverUp {
      ReadyLess(s, s', LastHolders(care, s));
      AppendMark(care, HoldersOf(care, s), Ahead(s), ReplyMark(i));
      ReadyFewer(s', LastHolders(care, s'), LastHolders(care, s));
    }
  }

  lemma LiveAgrees(care: Care, s: Tunnel, k: nat)
    requires Tags(care, s) && s.serverUp && Hopeful(s) && k < |s.locals| && s.locals[k].live
    ensures var l := s.locals[k]; l.id as nat in LastHolders(care, s) ==> LastHolders(care, s)[l.id as nat] == l.gen
  {
    hide HolderView, JoinsAgree, ReadLength, SendLength, Closed;
  }

  lemma LiveJoins(ls: seq<Local>, view: View, l: Local)
    requires LiveAgree(ls, view) && (l.id as nat in view ==> view[l.id as nat] == l.gen)
    ensures LiveAgree(ls + [l], view)
  {
  }

  lemma LiveStays(ls: seq<Local>, k: nat, l: Local, view: View)
    requires k < |ls| && l.id == ls[k].id && l.gen == ls[k].gen && l.live == ls[k].live
    ensures Closed(ls[k := l]) == Closed(ls)
    ensures LiveAgree(ls, view) ==> LiveAgree(ls[k := l], view)
  {
  }

  lemma TagsLocals(care: Care, s: Tunnel, ms: seq<Local>)
    requires Tags(care, s) && |ms| == |s.locals| && Closed(s.locals) <= Closed(ms)
    requires forall k :: 0 <= k < |ms| ==>
               ms[k].id == s.locals[k].id && ms[k].gen == s.locals[k].gen && (ms[k].live ==> s.locals[k].live)
    ensures Tags(care, s.(locals := ms))
  {
    hide HolderView, ReadLength, SendLength, Closed, JoinsAgree, Ready;
    var s' := s.(locals := ms);
    if s.serverUp {
      ReadyLess(s, s', LastHolders(care, s));
    }
    TagsShrink(care, s, s');
  }

  /** A packet that opens nothing is taken while the connections stay. */
  lemma TagsSkips(care: Care, s: Tunnel)
    requires Tags(care, s) && s.clientUp && s.down != [] && !s.down[0].packet.ProxyJoin?
    requires ClientReadsStep(s).clientUp
    ensures Tags(care, s.(down := s.down[1..], links := ClientReadsStep(s).links))
  {
    hide HolderView, Ready, ClientReadsStep;
    var s' := s.(down := s.down[1..], links := ClientReadsStep(s).links);
    if s.serverUp {
      ReadyRead(s, LastHolders(care, s));
    }
    TagsShrink(care, s, s');
  }

  lemma TagsHearsJoin(care: Care, s: Tunnel)
    requires Tags(care, s) && s.clientUp && s.down != [] && s.down[0].packet.ProxyJoin?
    ensures Tags(care, ClientReadsStep(s))
  {
    hide HolderView, LiveAgree, JoinsAgree, ReadLength, SendLength, Closed;
    var l := Local(s.down[0].packet.joined, s.down[0].gen, false, true, [], [], []);
    if s.serverUp {
      ReadyRead(s, LastHolders(care, s));
      if Hopeful(s) {
        LiveJoins(s.locals, LastHolders(care, s), l);
      }
    }
    TagsShrink(care, s, ClientReadsStep(s));
  }
}
