/**
 * How much of what is queued for the client's event loop it can still take: the replies before the
 * first death, and the packets before the first one that stops it.
 */
module Arrivals {
  import opened Distributors
  import opened ClientHandler
  import opened Tunnels

  // ----- Replies -----

  /** How many replies the client can take before a death stops it. */
  function SendLength(q: seq<ReplyItem>): (n: nat)
    ensures n <= |q|
    ensures forall i :: 0 <= i < n ==> !q[i].message.Death?
    ensures n < |q| ==> q[n].message.Death?
  {
    if q == [] || q[0].message.Death? then 0 else 1 + SendLength(q[1..])
  }

  /** The replies that can still reach the wire. */
  function Sendable(q: seq<ReplyItem>): seq<ReplyItem> {
    q[..SendLength(q)]
  }

  lemma {:induction false} SendAppends(q: seq<ReplyItem>, i: ReplyItem)
    ensures SendLength(q + [i]) == if SendLength(q) < |q| || i.message.Death? then SendLength(q) else |q| + 1
  {
    if q != [] && !q[0].message.Death? {
      assert (q + [i])[1..] == q[1..] + [i];
      SendAppends(q[1..], i);
    } else if q == [] {
      assert (q + [i])[1..] == [];
    }
  }

  // ----- Packets -----

  /** How many packets the client can read in a row before one stops it. */
  function ReadLength(links: Links, next: Channel, closed: set<Channel>, q: seq<WireItem>): (n: nat)
    ensures n <= |q|
    decreases |q|
  {
    if q == [] then 0
    else
      var r := OnProxyPacket(links, q[0].packet, next, closed);
      if !r.running then 0
      else 1 + ReadLength(r.links, if r.spawned.Some? then next + 1 else next, closed, q[1..])
  }

  /** The packets on the way down that the client can still read. */
  function Readable(s: Tunnel): seq<WireItem> {
    s.down[..ReadLength(s.links, |s.locals|, Closed(s.locals), s.down)]
  }

  lemma {:induction false} ReadAppends(links: Links, next: Channel, closed: set<Channel>, q: seq<WireItem>, i: WireItem)
    ensures var n, n' := ReadLength(links, next, closed, q), ReadLength(links, next, closed, q + [i]);
            if n < |q| then n' == n else |q| <= n' <= |q| + 1
    decreases |q|
  {
    if q != [] {
      var r := OnProxyPacket(links, q[0].packet, next, closed);
      assert (q + [i])[0] == q[0] && (q + [i])[1..] == q[1..] + [i];
      if r.running {
        ReadAppends(r.links, if r.spawned.Some? then next + 1 else next, closed, q[1..], i);
      }
    }
  }

  /** With fewer links or more connections ended the client never reads further. */
  lemma {:induction false} ReadFewer(
      links: Links, fewer: Links, next: Channel, closed: set<Channel>, more: set<Channel>, q: seq<WireItem>)
    requires closed <= more
    requires forall id :: id in fewer ==> id in links && links[id] == fewer[id]
    ensures ReadLength(fewer, next, more, q) <= ReadLength(links, next, closed, q)
    decreases |q|
  {
    if q != [] {
      var r, r' := OnProxyPacket(links, q[0].packet, next, closed), OnProxyPacket(fewer, q[0].packet, next, more);
      if r'.running {
        ReadFewer(r.links, r'.links, if r.spawned.Some? then next + 1 else next, closed, more, q[1..]);
      }
    }
  }

  /** Reading one packet takes one off what can be read. */
  lemma ReadHead(s: Tunnel)
    requires s.clientUp && s.down != [] && ClientReadsStep(s).clientUp
    ensures var s' := ClientReadsStep(s);
            && Closed(s'.locals) == Closed(s.locals) && s'.down == s.down[1..]
            && ReadLength(s.links, |s.locals|, Closed(s.locals), s.down)
               == 1 + ReadLength(s'.links, |s'.locals|, Closed(s'.locals), s'.down)
  {
    var r := OnProxyPacket(s.links, s.down[0].packet, |s.locals|, Closed(s.locals));
    var s' := ClientReadsStep(s);
    assert Closed(s'.locals) == Closed(s.locals);
    assert |s'.locals| == if r.spawned.Some? then |s.locals| + 1 else |s.locals|;
  }

  // ----- Clients that will not stop -----

  /** The client will take everything its connections tell it: no death is among the replies. */
  predicate Hopeful(s: Tunnel) {
    s.clientUp && SendLength(s.replies) == |s.replies|
  }

  /** Nothing on the way to the client will stop it. */
  predicate Steady(s: Tunnel) {
    Hopeful(s) && Readable(s) == s.down
  }

  lemma SteadySent(s: Tunnel, s': Tunnel, x: WireItem)
    requires s'.links == s.links && s'.locals == s.locals && s'.clientUp == s.clientUp && s'.replies == s.replies
    requires s'.down == s.down + [x]
    ensures Hopeful(s') <==> Hopeful(s)
    ensures Readable(s') <= Readable(s) + [x]
    ensures Steady(s') ==> Steady(s)
  {
    hide ReadLength, SendLength, Closed;
    ReadAppends(s.links, |s.locals|, Closed(s.locals), s.down, x);
  }

  lemma SteadyLess(s: Tunnel, s': Tunnel)
    requires Hopeful(s') ==> Hopeful(s)
    requires forall id :: id in s'.links ==> id in s.links && s.links[id] == s'.links[id]
    requires |s'.locals| == |s.locals| && Closed(s.locals) <= Closed(s'.locals)
    requires s'.down == s.down
    ensures Readable(s') <= Readable(s)
    ensures Steady(s') ==> Steady(s)
  {
    hide ReadLength, SendLength, Closed;
    ReadFewer(s.links, s'.links, |s.locals|, Closed(s.locals), Closed(s'.locals), s.down);
  }

  /** The client reads one packet; `links` and `down` are what matters of the new state. */
  lemma SteadyRead(s: Tunnel)
    requires s.clientUp && s.down != [] && ClientReadsStep(s).clientUp
    ensures var s' := ClientReadsStep(s);
            Readable(s) == [s.down[0]] + Readable(s') && (Hopeful(s') <==> Hopeful(s)) && (Steady(s') ==> Steady(s))
    ensures !s.down[0].packet.ProxyJoin? ==>
              var s' := s.(down := s.down[1..], links := ClientReadsStep(s).links);
              Readable(s) == [s.down[0]] + Readable(s') && (Steady(s') ==> Steady(s))
  {
    hide ReadLength, SendLength, Closed, OnProxyPacket, ClientReadsStep;
    ReadHead(s);
    ReadKeeps(s);
  }

  lemma ReadKeeps(s: Tunnel)
    requires s.clientUp && s.down != [] && ClientReadsStep(s).clientUp
    ensures ClientReadsStep(s).replies == s.replies && ClientReadsStep(s).lastGen == s.lastGen
    ensures !s.down[0].packet.ProxyJoin? ==> |ClientReadsStep(s).locals| == |s.locals|
  {
  }
}
