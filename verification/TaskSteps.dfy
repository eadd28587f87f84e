/**
 * What the tasks of the Minecraft clients and of the local connections do, case by case: every step of a task
 * as the whole new state, and how a task ends, over whole runs.
 */
module TaskSteps {
  import opened Datatypes
  import opened Distributors
  import opened ServerHandler
  import opened ClientHandler
  import opened Endpoints
  import opened Lanes
  import opened Tunnels
  import opened Invariants
  import opened Isolation
  import opened Origins
  import opened StaleReuse

  // ----- Local connections -----

  /** The client's queue with these messages of connection `k` at its end; a stopped client hears nothing. */
  function Heard(s: Tunnel, k: nat, ms: seq<ConnectionMessage>): seq<ReplyItem>
    requires k < |s.locals|
  {
    if s.clientUp then s.replies + seq(|ms|, i requires 0 <= i < |ms| => ReplyItem(ms[i], s.locals[k].gen))
    else s.replies
  }

  /**
   * A payload from the channel is written; if it cannot be, the connection ends and has its id removed. At
   * the end of the channel it ends without a message to the client's loop.
   */
  lemma LocalReceives(s: Tunnel, k: nat, writable: bool)
    requires Enabled(s, LocalReceive(k, writable))
    ensures var l := s.locals[k];
            var s' := Step(s, LocalReceive(k, writable));
            && (l.rx == [] ==> s' == s.(locals := s.locals[k := l.(live := false)]))
            && (l.rx != [] && writable ==>
                  s' == s.(locals := s.locals[k := l.(rx := l.rx[1..], written := l.written + [l.rx[0]])]))
            && (l.rx != [] && !writable ==>
                  s' == s.(locals := s.locals[k := l.(live := false)],
                           replies := Heard(s, k, [RemoveConnection(l.id)])))
  {
    var l := s.locals[k];
    if l.rx != [] && !writable {
      LocalQuits(s, k);
    }
  }

  /** A connection that ends by itself has its id removed. */
  lemma LocalQuits(s: Tunnel, k: nat)
    requires k < |s.locals|
    ensures var l := s.locals[k];
            LeaveLocal(s, k, Task(true, true))
            == s.(locals := s.locals[k := l.(live := false)], replies := Heard(s, k, [RemoveConnection(l.id)]))
  {
    var l := s.locals[k];
    var m := RemoveConnection(l.id);
    var gone := s.(locals := s.locals[k := l.(live := false)]);
    assert OnConnectionDrop(l.id, Task(true, true)) == [m];
    assert ReplyAll(gone, k, [m]) == ReplyAll(Reply(gone, k, m), k, []) == Reply(gone, k, m);
    assert gone.locals[k := gone.locals[k]] == gone.locals;
  }

  /**
   * Bytes read from the local server are queued under the connection's id. At the end of the stream, on an
   * error, and once the client has stopped, the connection ends by itself.
   */
  lemma LocalReads(s: Tunnel, k: nat, read: FromServer)
    requires Enabled(s, LocalServer(k, read))
    ensures var l := s.locals[k];
            var s' := Step(s, LocalServer(k, read));
            if s.clientUp && read.Read? && read.data != []
            then s' == s.(locals := s.locals[k := l.(produced := l.produced + [read.data])],
                          replies := Heard(s, k, [FromConnection(l.id, read.data)]))
            else s' == s.(locals := s.locals[k := l.(live := false)],
                          replies := Heard(s, k, [RemoveConnection(l.id)]))
  {
    var l := s.locals[k];
    if s.clientUp && read.Read? && read.data != [] {
      var m := FromConnection(l.id, read.data);
      assert ReplyAll(s, k, [m]) == ReplyAll(Reply(s, k, m), k, []) == Reply(s, k, m);
    } else {
      LocalQuits(s, k);
    }
  }

  /** A connection that cannot be made reports its death and is removed. */
  lemma LocalFails(s: Tunnel, k: nat, error: string)
    requires Enabled(s, ConnectFails(k, error))
    ensures var l := s.locals[k];
            Step(s, ConnectFails(k, error))
            == s.(locals := s.locals[k := l.(live := false)],
                  replies := Heard(s, k, [Death(error), RemoveConnection(l.id)]))
  {
    var m := Death(error);
    assert ReplyAll(s, k, [m]) == ReplyAll(Reply(s, k, m), k, []) == Reply(s, k, m);
    assert s.locals[k := s.locals[k]] == s.locals;
    LocalQuits(Reply(s, k, m), k);
  }

  // ----- Minecraft clients -----

  /** The server's inbox with these messages of visitor `g` at its end; a stopped server takes nothing. */
  function Told(s: Tunnel, g: nat, ms: seq<ClientToProxy>): seq<InboxItem> {
    if s.serverUp then s.inbox + seq(|ms|, i requires 0 <= i < |ms| => InboxItem(ms[i], g)) else s.inbox
  }

  lemma VisitorQuits(s: Tunnel, g: nat)
    requires g < |s.visitors|
    ensures var v := s.visitors[g];
            Leave(s, g, Task(true, true))
            == s.(visitors := s.visitors[g := v.(live := false)], inbox := Told(s, g, [RemoveMinecraftClient(v.addr)]))
  {
    var v := s.visitors[g];
    var m := RemoveMinecraftClient(v.addr);
    var gone := s.(visitors := s.visitors[g := v.(live := false)]);
    assert OnDrop(v.addr, Task(true, true)) == [m];
    assert PostAll(gone, g, [m]) == PostAll(Post(gone, g, m), g, []) == Post(gone, g, m);
    assert gone.visitors[g := gone.visitors[g]] == gone.visitors;
  }

  /** As for a local connection, with the removal of the address. */
  lemma VisitorReceives(s: Tunnel, g: nat, writable: bool)
    requires Enabled(s, VisitorReceive(g, writable))
    ensures var v := s.visitors[g];
            var s' := Step(s, VisitorReceive(g, writable));
            && (v.rx == [] ==> s' == s.(visitors := s.visitors[g := v.(live := false)]))
            && (v.rx != [] && writable ==>
                  s' == s.(visitors := s.visitors[g := v.(rx := v.rx[1..], written := v.written + [v.rx[0]])]))
            && (v.rx != [] && !writable ==>
                  s' == s.(visitors := s.visitors[g := v.(live := false)],
                           inbox := Told(s, g, [RemoveMinecraftClient(v.addr)])))
  {
    var v := s.visitors[g];
    if v.rx != [] && !writable {
      VisitorQuits(s, g);
    }
  }

  /**
   * Data from the socket is queued under the client's address, other packets are passed over. At the end of
   * the stream, on a decoder's error, and with data that no server takes any more, the task ends by itself.
   */
  lemma VisitorReads(s: Tunnel, g: nat, found: FromSocket)
    requires Enabled(s, VisitorSocket(g, found))
    ensures var v := s.visitors[g];
            var s' := Step(s, VisitorSocket(g, found));
            match found
            case OtherPacket => s' == s
            case Data(data) =>
              s' == if s.serverUp
                    then s.(visitors := s.visitors[g := v.(queued := v.queued + [data])],
                            inbox := Told(s, g, [Packet(v.addr, data)]))
                    else s.(visitors := s.visitors[g := v.(live := false)])
            case _ =>
              s' == s.(visitors := s.visitors[g := v.(live := false)],
                       inbox := Told(s, g, [RemoveMinecraftClient(v.addr)]))
  {
    var v := s.visitors[g];
    match found
    case OtherPacket =>
    case Data(data) =>
      if s.serverUp {
        var m := Packet(v.addr, data);
        assert PostAll(s, g, [m]) == PostAll(Post(s, g, m), g, []) == Post(s, g, m);
      } else {
        VisitorQuits(s, g);
      }
    case _ => VisitorQuits(s, g);
  }

  /** A Minecraft client announces itself, and then queues the bytes of its hello. */
  lemma VisitorGreets(s: Tunnel, addr: SocketAddr, hello: Payload, g: nat)
    ensures Enabled(s, Arrive(addr, hello)) ==>
              var s' := Step(s, Arrive(addr, hello));
              s' == s.(visitors := s.visitors + [Visitor(addr, true, false, hello, [], [], [], [], None)],
                       inbox := s.inbox + [InboxItem(AddMinecraftClient(addr, |s.visitors|), |s.visitors|)])
    ensures Enabled(s, Greet(g)) ==>
              var v := s.visitors[g];
              Step(s, Greet(g))
              == if s.serverUp
                 then s.(visitors := s.visitors[g := v.(greeted := true, queued := v.queued + [v.hello])],
                         inbox := Told(s, g, [Packet(v.addr, v.hello)]))
                 else s.(visitors := s.visitors[g := v.(live := false)])
  {
  }

  // ----- Draining a channel that was closed -----

  /** Once the client has let go of a connection, it writes what it still holds and ends without a message. */
  lemma {:induction false} LocalDrains(s: Tunnel, k: nat)
    requires k < |s.locals| && s.locals[k].live && s.locals[k].connected && LinkGone(s, k)
    ensures var l := s.locals[k];
            var events := Repeat(LocalReceive(k, true), |l.rx| + 1);
            && Possible(s, events)
            && Run(s, events)
               == s.(locals := s.locals[k := l.(live := false, rx := [], written := l.written + l.rx)])
    decreases |s.locals[k].rx|
  {
    hide Step, Run, Possible, Repeat;
    var l, e := s.locals[k], LocalReceive(k, true);
    LocalReceives(s, k, true);
    var next := Step(s, e);
    if l.rx == [] {
      RepeatNever(next, e);
      assert l.written + [] == l.written;
    } else {
      LocalDrains(next, k);
      assert l.written + [l.rx[0]] + l.rx[1..] == l.written + l.rx;
      var m := l.(live := false, rx := [], written := l.written + l.rx);
      assert next.locals[k := m] == s.locals[k := m];
    }
    RepeatMore(s, e, |l.rx| + 1);
  }

  /** So does a Minecraft client whose senders are all gone. */
  lemma {:induction false} VisitorDrains(s: Tunnel, g: nat)
    requires g < |s.visitors| && s.visitors[g].live && s.visitors[g].greeted && TxGone(s, g)
    ensures var v := s.visitors[g];
            var events := Repeat(VisitorReceive(g, true), |v.rx| + 1);
            && Possible(s, events)
            && Run(s, events)
               == s.(visitors := s.visitors[g := v.(live := false, rx := [], written := v.written + v.rx)])
    decreases |s.visitors[g].rx|
  {
    hide Step, Run, Possible, Repeat;
    var v, e := s.visitors[g], VisitorReceive(g, true);
    VisitorReceives(s, g, true);
    var next := Step(s, e);
    if v.rx == [] {
      RepeatNever(next, e);
      assert v.written + [] == v.written;
    } else {
      VisitorDrains(next, g);
      assert v.written + [v.rx[0]] + v.rx[1..] == v.written + v.rx;
      var w := v.(live := false, rx := [], written := v.written + v.rx);
      assert next.visitors[g := w] == s.visitors[g := w];
    }
    RepeatMore(s, e, |v.rx| + 1);
  }

  // ----- Tasks that have ended -----

  /** The queued messages of one generation, in order. */
  function RepliesOf(q: seq<ReplyItem>, gen: nat): seq<ConnectionMessage> {
    if q == [] then [] else (if q[0].gen == gen then [q[0].message] else []) + RepliesOf(q[1..], gen)
  }

  lemma {:induction false} RepliesOfAppend(q: seq<ReplyItem>, r: seq<ReplyItem>, gen: nat)
    ensures RepliesOf(q + r, gen) == RepliesOf(q, gen) + RepliesOf(r, gen)
  {
    if q == [] {
      assert q + r == r;
    } else {
      var first := if q[0].gen == gen then [q[0].message] else [];
      assert (q + r)[1..] == q[1..] + r;
      RepliesOfAppend(q[1..], r, gen);
      assert RepliesOf(q + r, gen) == first + RepliesOf(q[1..] + r, gen);
      assert first + (RepliesOf(q[1..], gen) + RepliesOf(r, gen)) == RepliesOf(q, gen) + RepliesOf(r, gen);
    }
  }

  lemma {:induction false} RepliesOfOthers(q: seq<ReplyItem>, gen: nat)
    requires forall i :: 0 <= i < |q| ==> q[i].gen != gen
    ensures RepliesOf(q, gen) == []
  {
    if q != [] {
      assert forall i :: 0 <= i < |q| - 1 ==> q[1..][i] == q[i + 1];
      RepliesOfOthers(q[1..], gen);
    }
  }

  predicate Suffix<T(==)>(b: seq<T>, a: seq<T>) {
    |b| <= |a| && b == a[|a| - |b|..]
  }

  lemma SuffixTrans<T>(c: seq<T>, b: seq<T>, a: seq<T>)
    requires Suffix(c, b) && Suffix(b, a)
    ensures Suffix(c, a)
  {
  }

  /** Nothing about connection `k` changes but that its messages are taken from the queue. */
  ghost predicate Silent(s: Tunnel, s': Tunnel, k: nat)
    requires k < |s.locals|
  {
    && k < |s'.locals| && s'.locals[k] == s.locals[k]
    && Suffix(RepliesOf(s'.replies, s.locals[k].gen), RepliesOf(s.replies, s.locals[k].gen))
  }

  lemma OthersHeard(s: Tunnel, k: nat, j: nat, ms: seq<ConnectionMessage>)
    requires k < |s.locals| && j < |s.locals| && s.locals[k].gen != s.locals[j].gen
    ensures RepliesOf(Heard(s, j, ms), s.locals[k].gen) == RepliesOf(s.replies, s.locals[k].gen)
  {
    if s.clientUp {
      var r := seq(|ms|, i requires 0 <= i < |ms| => ReplyItem(ms[i], s.locals[j].gen));
      RepliesOfAppend(s.replies, r, s.locals[k].gen);
      RepliesOfOthers(r, s.locals[k].gen);
    }
  }

  lemma OtherGeneration(s: Tunnel, k: nat, j: nat)
    requires Inv(s) && k < |s.locals| && j < |s.locals| && j != k
    ensures s.locals[k].gen != s.locals[j].gen
  {
    hide ServerOk, VisitorsOk, OwnersAgree, DownTagged, LinksOk, Consistent, Final, LinkView, Received;
  }

  lemma EndedLocal(s: Tunnel, e: Event, k: nat)
    requires Inv(s) && Enabled(s, e) && k < |s.locals| && !s.locals[k].live
    requires e.Connects? || e.ConnectFails? || e.LocalServer? || e.LocalReceive?
    ensures Silent(s, Step(s, e), k)
  {
    hide Inv, Heard, RepliesOf, Step;
    var j := e.local;
    OtherGeneration(s, k, j);
    var id := s.locals[j].id;
    OthersHeard(s, k, j, [RemoveConnection(id)]);
    match e
    case Connects(_) => ConnectsOnly(s, j);
    case ConnectFails(_, error) =>
      LocalFails(s, j, error);
      OthersHeard(s, k, j, [Death(error), RemoveConnection(id)]);
    case LocalServer(_, read) =>
      LocalReads(s, j, read);
      if read.Read? {
        OthersHeard(s, k, j, [FromConnection(id, read.data)]);
      }
    case LocalReceive(_, writable) => LocalReceives(s, j, writable);
  }

  lemma ConnectsOnly(s: Tunnel, k: nat)
    requires Enabled(s, Connects(k))
    ensures Step(s, Connects(k)) == s.(locals := s.locals[k := s.locals[k].(connected := true)])
  {
  }

  lemma SameReplyEnds(s: Tunnel, s': Tunnel, k: nat)
    requires k < |s.locals| && k < |s'.locals| && s'.locals[k] == s.locals[k]
    requires s'.replies == s.replies || s'.replies == [] || (s.replies != [] && s'.replies == s.replies[1..])
    ensures Silent(s, s', k)
  {
  }

  lemma LoopsKeepEnded(s: Tunnel, e: Event, k: nat)
    requires Enabled(s, e) && k < |s.locals| && !s.locals[k].live
    requires e.ServerTakes? || e.ServerReads? || e.ServerStops? || e.ClientTakes? || e.ClientReads? || e.ClientPings?
          || e.ClientStops?
    ensures Silent(s, Step(s, e), k)
  {
    hide OnInbox, Recorded, Subject, Tagged, RepliesOf, RemovingId, LookupId;
    var s' := Step(s, e);
    if e.ServerTakes? {
      TakesKeepsLocals(s);
    }
    SameReplyEnds(s, s', k);
  }

  lemma TakesKeepsLocals(s: Tunnel)
    requires Enabled(s, ServerTakes)
    ensures ServerTakesStep(s).locals == s.locals && ServerTakesStep(s).replies == s.replies
  {
    hide OnInbox, FirstFree;
  }

  lemma EndedStays(s: Tunnel, e: Event, k: nat)
    requires Inv(s) && Enabled(s, e) && k < |s.locals| && !s.locals[k].live
    ensures Silent(s, Step(s, e), k)
  {
    hide Inv, RepliesOf, Step, SameGotten;
    if e.Connects? || e.ConnectFails? || e.LocalServer? || e.LocalReceive? {
      EndedLocal(s, e, k);
    } else if e.Arrive? || e.Greet? || e.VisitorSocket? || e.VisitorReceive? {
      VisitorEventsKeep(s, e);
      SameReplyEnds(s, Step(s, e), k);
    } else {
      LoopsKeepEnded(s, e, k);
    }
  }

  /** A connection that has ended never changes again and never adds a message. */
  lemma {:induction false} EndedIsSilent(s: Tunnel, events: seq<Event>, k: nat)
    requires Inv(s) && Possible(s, events) && k < |s.locals| && !s.locals[k].live
    ensures Silent(s, Run(s, events), k)
    decreases |events|
  {
    hide Inv, Enabled, Step, RepliesOf;
    if events != [] {
      var next := Step(s, events[0]);
      EndedStays(s, events[0], k);
      InvStep(s, events[0]);
      EndedIsSilent(next, events[1..], k);
      var gen := s.locals[k].gen;
      SuffixTrans(RepliesOf(Run(next, events[1..]).replies, gen), RepliesOf(next.replies, gen),
                  RepliesOf(s.replies, gen));
    }
  }

  /**
   * In every run, a connection whose channel was closed by the client's loop and is empty ends with its next
   * turn, and from then on, whatever happens, it never changes and never adds a message to the queue.
   */
  lemma ClosedChannelEnds(events: seq<Event>, k: nat, writable: bool, more: seq<Event>)
    requires Possible(START, events) && Enabled(Run(START, events), LocalReceive(k, writable))
    requires Run(START, events).locals[k].rx == []
    requires Possible(Step(Run(START, events), LocalReceive(k, writable)), more)
    ensures var s := Run(START, events);
            var s' := Run(Step(s, LocalReceive(k, writable)), more);
            && k < |s'.locals| && s'.locals[k] == s.locals[k].(live := false)
            && Suffix(RepliesOf(s'.replies, s.locals[k].gen), RepliesOf(s.replies, s.locals[k].gen))
  {
    hide Run, Possible, Inv, Step, RepliesOf;
    var s := Run(START, events);
    StartOk(START);
    InvRun(START, events);
    LocalReceives(s, k, writable);
    InvStep(s, LocalReceive(k, writable));
    EndedIsSilent(Step(s, LocalReceive(k, writable)), more, k);
  }

  // ----- Minecraft clients that have ended -----

  /** The queued messages of one Minecraft client, in order. */
  function InboxOf(q: seq<InboxItem>, g: nat): seq<ClientToProxy> {
    if q == [] then [] else (if q[0].gen == g then [q[0].message] else []) + InboxOf(q[1..], g)
  }

  lemma {:induction false} InboxOfAppend(q: seq<InboxItem>, i: InboxItem, g: nat)
    requires i.gen != g
    ensures InboxOf(q + [i], g) == InboxOf(q, g)
  {
    if q == [] {
      assert (q + [i])[1..] == [];
    } else {
      assert (q + [i])[1..] == q[1..] + [i];
      InboxOfAppend(q[1..], i, g);
    }
  }

  /** A client that has ended gets and queues nothing more; its messages are only taken. */
  ghost predicate Gone(s: Tunnel, s': Tunnel, g: nat)
    requires g < |s.visitors|
  {
    && g < |s'.visitors| && !s'.visitors[g].live
    && s'.visitors[g].rx == s.visitors[g].rx && s'.visitors[g].written == s.visitors[g].written
    && s'.visitors[g].queued == s.visitors[g].queued
    && Suffix(InboxOf(s'.inbox, g), InboxOf(s.inbox, g))
  }

  lemma OthersTold(s: Tunnel, g: nat, h: nat, m: ClientToProxy)
    requires g != h
    ensures InboxOf(Told(s, h, [m]), g) == InboxOf(s.inbox, g)
  {
    if s.serverUp {
      InboxOfAppend(s.inbox, InboxItem(m, h), g);
      assert Told(s, h, [m]) == s.inbox + [InboxItem(m, h)];
    }
  }

  lemma SameInboxStays(s: Tunnel, s': Tunnel, g: nat)
    requires g < |s.visitors| && !s.visitors[g].live && g < |s'.visitors|
    requires var v, w := s.visitors[g], s'.visitors[g];
             !w.live && w.rx == v.rx && w.written == v.written && w.queued == v.queued
    requires s'.inbox == s.inbox || s'.inbox == [] || (s.inbox != [] && s'.inbox == s.inbox[1..])
    ensures Gone(s, s', g)
  {
  }

  lemma GoneVisitor(s: Tunnel, e: Event, g: nat)
    requires Enabled(s, e) && g < |s.visitors| && !s.visitors[g].live
    requires e.Arrive? || e.Greet? || e.VisitorSocket? || e.VisitorReceive?
    ensures Gone(s, Step(s, e), g)
  {
    hide InboxOf, Told, Step;
    match e
    case Arrive(addr, hello) =>
      VisitorGreets(s, addr, hello, 0);
      InboxOfAppend(s.inbox, InboxItem(AddMinecraftClient(addr, |s.visitors|), |s.visitors|), g);
    case Greet(h) =>
      VisitorGreets(s, 0, [], h);
      OthersTold(s, g, h, Packet(s.visitors[h].addr, s.visitors[h].hello));
    case VisitorSocket(h, found) =>
      VisitorReads(s, h, found);
      OthersTold(s, g, h, RemoveMinecraftClient(s.visitors[h].addr));
      if found.Data? {
        OthersTold(s, g, h, Packet(s.visitors[h].addr, found.data));
      }
    case VisitorReceive(h, writable) =>
      VisitorReceives(s, h, writable);
      OthersTold(s, g, h, RemoveMinecraftClient(s.visitors[h].addr));
  }

  lemma TakesKeepsGone(s: Tunnel, g: nat)
    requires Enabled(s, ServerTakes) && g < |s.visitors| && !s.visitors[g].live
    ensures Gone(s, ServerTakesStep(s), g)
  {
    hide OnInbox, Subject, Tagged, InboxOf, Recorded;
    var subject := Subject(s.table, s.inbox[0].message);
    if subject.Some? && subject.value < |s.visitors| {
      RecordedKeepsGone(s, s.inbox[0].message, subject.value, g);
    }
    SameInboxStays(s, ServerTakesStep(s), g);
  }

  lemma RecordedKeepsGone(s: Tunnel, m: ClientToProxy, h: nat, g: nat)
    requires h < |s.visitors| && g < |s.visitors|
    ensures |Recorded(s, m, h).visitors| == |s.visitors|
    ensures var v, w := s.visitors[g], Recorded(s, m, h).visitors[g];
            w.live == v.live && w.rx == v.rx && w.written == v.written && w.queued == v.queued
  {
    hide FirstFree;
  }

  lemma ReadsKeepsGone(s: Tunnel, g: nat)
    requires Enabled(s, ServerReads) && g < |s.visitors| && !s.visitors[g].live
    ensures Gone(s, ServerReadsStep(s), g)
  {
    hide RemovingId, LookupId, Tagged, InboxOf;
    SameInboxStays(s, ServerReadsStep(s), g);
  }

  lemma ClientKeepsVisitors(s: Tunnel, e: Event)
    requires Enabled(s, e)
    requires e.ClientTakes? || e.ClientReads? || e.ClientPings? || e.ClientStops? || e.Connects? || e.ConnectFails?
          || e.LocalServer? || e.LocalReceive?
    ensures Step(s, e).visitors == s.visitors && Step(s, e).inbox == s.inbox
  {
    hide OnProxyPacket, OnMessage, Heard;
    match e
    case Connects(k) => ConnectsOnly(s, k);
    case ConnectFails(k, error) => LocalFails(s, k, error);
    case LocalServer(k, read) => LocalReads(s, k, read);
    case LocalReceive(k, writable) => LocalReceives(s, k, writable);
    case _ =>
  }

  lemma GoneStays(s: Tunnel, e: Event, g: nat)
    requires Enabled(s, e) && g < |s.visitors| && !s.visitors[g].live
    ensures Gone(s, Step(s, e), g)
  {
    hide InboxOf, ServerTakesStep, ServerReadsStep, ArriveStep, GreetStep, VisitorSocketStep, VisitorReceiveStep,
      ClientTakesStep, ClientReadsStep, ConnectFailsStep, LocalServerStep, LocalReceiveStep, Gone;
    match e
    case ServerTakes => TakesKeepsGone(s, g);
    case ServerReads => ReadsKeepsGone(s, g);
    case ServerStops => SameInboxStays(s, Step(s, e), g);
    case Arrive(_, _) => GoneVisitor(s, e, g);
    case Greet(_) => GoneVisitor(s, e, g);
    case VisitorSocket(_, _) => GoneVisitor(s, e, g);
    case VisitorReceive(_, _) => GoneVisitor(s, e, g);
    case _ =>
      ClientKeepsVisitors(s, e);
      SameInboxStays(s, Step(s, e), g);
  }

  /** A Minecraft client that has ended gets nothing more and never adds a message. */
  lemma {:induction false} GoneIsSilent(s: Tunnel, events: seq<Event>, g: nat)
    requires Possible(s, events) && g < |s.visitors| && !s.visitors[g].live
    ensures Gone(s, Run(s, events), g)
    decreases |events|
  {
    hide Enabled, Step, InboxOf;
    if events != [] {
      var next := Step(s, events[0]);
      GoneStays(s, events[0], g);
      GoneIsSilent(next, events[1..], g);
      SuffixTrans(InboxOf(Run(next, events[1..]).inbox, g), InboxOf(next.inbox, g), InboxOf(s.inbox, g));
    }
  }

  /**
   * In every run, a Minecraft client whose senders are gone and whose channel is empty ends with its next turn
   * without asking for its removal, and from then on, whatever happens, it gets and queues nothing.
   */
  lemma ClosedVisitorEnds(events: seq<Event>, g: nat, writable: bool, more: seq<Event>)
    requires Possible(START, events) && Enabled(Run(START, events), VisitorReceive(g, writable))
    requires Run(START, events).visitors[g].rx == []
    requires Possible(Step(Run(START, events), VisitorReceive(g, writable)), more)
    ensures var s := Run(START, events);
            && Step(s, VisitorReceive(g, writable)) == s.(visitors := s.visitors[g := s.visitors[g].(live := false)])
            && Gone(s, Run(Step(s, VisitorReceive(g, writable)), more), g)
  {
    hide Run, Possible, Step, InboxOf;
    var s := Run(START, events);
    VisitorReceives(s, g, writable);
    GoneIsSilent(Step(s, VisitorReceive(g, writable)), more, g);
  }
}
