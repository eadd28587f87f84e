/** The server's table of Minecraft clients of one tunnel (server/src/proxy_handler.rs). */
module Distributors {
  import opened Datatypes
  import opened Packets

  const MAXIMUM_CLIENTS: ClientID := 255

  /** Socket addresses are only compared. */
  type SocketAddr = nat

  /** The identity of a channel: two senders with the same number feed the same receiver. */
  type Channel = nat

  datatype MinecraftClient = MinecraftClient(tx: Channel, id: ClientID)

  /** The contents of the two maps. */
  datatype Table = Table(clients_addr: map<SocketAddr, MinecraftClient>, clients_id: map<ClientID, SocketAddr>)

  const EMPTY: Table := Table(map[], map[])

  /** The least id from `id` up to the maximum that is not in use. */
  function FirstFree(used: set<ClientID>, id: nat): (r: Option<ClientID>)
    requires id <= 256
    ensures match r
            case Some(free) => id <= free <= 255 && free !in used && forall j: ClientID :: id <= j < free ==> j in used
            case None => forall j: ClientID :: id <= j <= 255 ==> j in used
    decreases 256 - id
  {
    if id > MAXIMUM_CLIENTS then None
    else if id !in used then Some(id)
    else FirstFree(used, id + 1)
  }

  function Inserting(t: Table, addr: SocketAddr, tx: Channel): Option<(Table, MinecraftClient)> {
    match FirstFree(t.clients_id.Keys, 0)
    case None => None
    case Some(id) =>
      var client := MinecraftClient(tx, id);
      Some((Table(t.clients_addr[addr := client], t.clients_id[id := addr]), client))
  }

  function RemovingAddr(t: Table, addr: SocketAddr): Table {
    if addr in t.clients_addr
    then Table(t.clients_addr - {addr}, t.clients_id - {t.clients_addr[addr].id})
    else t
  }

  function RemovingId(t: Table, id: ClientID): Table {
    if id in t.clients_id
    then Table(t.clients_addr - {t.clients_id[id]}, t.clients_id - {id})
    else t
  }

  function LookupAddr(t: Table, addr: SocketAddr): Option<MinecraftClient> {
    if addr in t.clients_addr then Some(t.clients_addr[addr]) else None
  }

  function LookupId(t: Table, id: ClientID): Option<MinecraftClient> {
    if id in t.clients_id then LookupAddr(t, t.clients_id[id]) else None
  }

  class Distribiutor {
    var clients_addr: map<SocketAddr, MinecraftClient>
    var clients_id: map<ClientID, SocketAddr>

    constructor ()
      ensures Contents() == EMPTY
    {
      clients_addr := map[];
      clients_id := map[];
    }

    function Contents(): Table
      reads this
    {
      Table(clients_addr, clients_id)
    }

    /** Takes the least free id; when there is none nothing changes. */
    method Insert(addr: SocketAddr, tx: Channel) returns (r: Option<MinecraftClient>)
      modifies this
      ensures match r
              case Some(client) =>
                && client.tx == tx && client.id <= 255 && client.id !in old(clients_id)
                && (forall j: ClientID :: j < client.id ==> j in old(clients_id))
                && clients_addr == old(clients_addr)[addr := client]
                && clients_id == old(clients_id)[client.id := addr]
              case None =>
                && (forall j: ClientID :: j <= 255 ==> j in old(clients_id))
                && Contents() == old(Contents())
      ensures match Inserting(old(Contents()), addr, tx)
              case Some((t, client)) => r == Some(client) && Contents() == t
              case None => r == None && Contents() == old(Contents())
    {
      var id: Option<ClientID> := None;
      for idFound := 0 to 256
        invariant id.None? && Contents() == old(Contents())
        invariant forall j: ClientID :: j < idFound ==> j in clients_id
        invariant FirstFree(clients_id.Keys, 0) == FirstFree(clients_id.Keys, idFound)
      {
        if idFound !in clients_id {
          id := Some(idFound);
          break;
        }
      }
      if id.None? {
        return None;
      }
      clients_id := clients_id[id.value := addr];
      var client := MinecraftClient(tx, id.value);
      clients_addr := clients_addr[addr := client];
      return Some(client);
    }

    method RemoveByAddr(addr: SocketAddr)
      modifies this
      ensures Contents() == RemovingAddr(old(Contents()), addr)
    {
      if addr in clients_addr {
        clients_id := clients_id - {clients_addr[addr].id};
      }
      clients_addr := clients_addr - {addr};
    }

    method RemoveById(id: ClientID)
      modifies this
      ensures Contents() == RemovingId(old(Contents()), id)
    {
      if id in clients_id {
        clients_addr := clients_addr - {clients_id[id]};
      }
      clients_id := clients_id - {id};
    }

    method GetByAddr(addr: SocketAddr) returns (r: Option<MinecraftClient>)
      ensures r == LookupAddr(Contents(), addr)
    {
      return if addr in clients_addr then Some(clients_addr[addr]) else None;
    }

    method GetById(id: ClientID) returns (r: Option<MinecraftClient>)
      ensures r == LookupId(Contents(), id)
    {
      if id in clients_id && clients_id[id] in clients_addr {
        return Some(clients_addr[clients_id[id]]);
      }
      return None;
    }
  }

  // ----- One partial bijection -----

  datatype Entry = Entry(id: ClientID, addr: SocketAddr, tx: Channel)

  /** The two maps are inverse to each other and ids stay within the limit. */
  ghost predicate Bijective(t: Table) {
    && (forall a :: a in t.clients_addr ==>
          t.clients_addr[a].id in t.clients_id && t.clients_id[t.clients_addr[a].id] == a)
    && (forall i :: i in t.clients_id ==>
          i <= 255 && t.clients_id[i] in t.clients_addr && t.clients_addr[t.clients_id[i]].id == i)
  }

  ghost function Entries(t: Table): set<Entry> {
    set a | a in t.clients_addr :: Entry(t.clients_addr[a].id, a, t.clients_addr[a].tx)
  }

  ghost predicate PartialBijection(es: set<Entry>) {
    forall e, e' :: e in es && e' in es && (e.id == e'.id || e.addr == e'.addr) ==> e == e'
  }

  lemma EntryOf(t: Table, e: Entry)
    requires Bijective(t)
    ensures e in Entries(t) <==> e.addr in t.clients_addr && t.clients_addr[e.addr] == MinecraftClient(e.tx, e.id)
    ensures e in Entries(t) ==> e.id in t.clients_id && t.clients_id[e.id] == e.addr
  {
  }

  /** Both lookups read the same relation, which is a partial bijection. */
  lemma LookupsAgree(t: Table, id: ClientID, addr: SocketAddr, tx: Channel)
    requires Bijective(t)
    ensures LookupAddr(t, addr) == Some(MinecraftClient(tx, id)) <==> Entry(id, addr, tx) in Entries(t)
    ensures LookupId(t, id) == Some(MinecraftClient(tx, id)) && t.clients_id[id] == addr
       <==> Entry(id, addr, tx) in Entries(t)
    ensures LookupId(t, id).Some? ==> LookupId(t, id).value.id == id
    ensures PartialBijection(Entries(t))
  {
    EntryOf(t, Entry(id, addr, tx));
    forall e, e' | e in Entries(t) && e' in Entries(t) && (e.id == e'.id || e.addr == e'.addr) ensures e == e' {
      EntryOf(t, e);
      EntryOf(t, e');
    }
  }

  ghost function IdsOf(es: set<Entry>): set<ClientID> {
    set e | e in es :: e.id
  }

  lemma IdsAreKeys(t: Table)
    requires Bijective(t)
    ensures IdsOf(Entries(t)) == t.clients_id.Keys
  {
    forall i | i in t.clients_id ensures i in IdsOf(Entries(t)) {
      var e := Entry(i, t.clients_id[i], t.clients_addr[t.clients_id[i]].tx);
      assert e in Entries(t);
    }
  }

  // ----- Counting -----

  function FirstIds(n: nat): (s: set<ClientID>)
    requires n <= 256
    ensures forall i: ClientID :: i in s <==> i < n
    ensures |s| == n
  {
    if n == 0 then {} else FirstIds(n - 1) + {n - 1}
  }

  /** A finite set inside another one has at most as many elements, and as many only if it is all of it. */
  lemma {:induction false} SubsetCount<T>(a: set<T>, b: set<T>)
    requires a <= b
    ensures |a| <= |b| && (|a| == |b| <==> a == b)
  {
    if a != {} {
      var x :| x in a;
      SubsetCount(a - {x}, b - {x});
    }
  }

  /** As many ids as addresses. */
  lemma {:induction false} SameCount(t: Table)
    requires Bijective(t)
    ensures |t.clients_id| == |t.clients_addr|
    decreases |t.clients_addr|
  {
    if t.clients_addr.Keys != {} {
      var a :| a in t.clients_addr;
      var smaller := RemovingAddr(t, a);
      var i := t.clients_addr[a].id;
      assert t.clients_addr.Keys == smaller.clients_addr.Keys + {a};
      assert t.clients_id.Keys == smaller.clients_id.Keys + {i};
      assert |t.clients_addr.Keys| == |smaller.clients_addr.Keys| + 1;
      assert |t.clients_id.Keys| == |smaller.clients_id.Keys| + 1;
      SameCount(smaller);
    } else {
      assert t.clients_id.Keys == {};
    }
  }

  lemma AllIds(ids: set<ClientID>)
    requires forall i :: i in ids ==> i <= 255
    ensures |ids| <= 256 && (|ids| == 256 <==> forall j: ClientID :: j <= 255 ==> j in ids)
  {
    hide FirstIds;
    var all := FirstIds(256);
    assert ids <= all;
    SubsetCount(ids, all);
  }

  /**
   * At most 256 clients are registered at a time, and inserting fails exactly when there are 256
   * live addresses.
   */
  lemma FullAt256(t: Table, addr: SocketAddr, tx: Channel)
    requires Bijective(t)
    ensures |t.clients_addr| == |t.clients_id| <= 256
    ensures Inserting(t, addr, tx).None? <==> |t.clients_addr| == 256
  {
    hide FirstFree;
    SameCount(t);
    AllIds(t.clients_id.Keys);
  }

  // ----- Every sequence of operations -----

  datatype Operation =
    | Add(addr: SocketAddr, tx: Channel)
    | DropAddr(addr: SocketAddr)
    | DropId(id: ClientID)

  /** A failed insert leaves the table alone. */
  function Apply(t: Table, op: Operation): Table {
    match op
    case Add(addr, tx) =>
      (match Inserting(t, addr, tx)
       case Some((t', _)) => t'
       case None => t)
    case DropAddr(addr) => RemovingAddr(t, addr)
    case DropId(id) => RemovingId(t, id)
  }

  /** The same operation on the relation. */
  ghost function ApplyAbstract(es: set<Entry>, op: Operation): set<Entry> {
    match op
    case Add(addr, tx) =>
      (match FirstFree(IdsOf(es), 0)
       case Some(id) => es + {Entry(id, addr, tx)}
       case None => es)
    case DropAddr(addr) => set e | e in es && e.addr != addr
    case DropId(id) => set e | e in es && e.id != id
  }

  /** Only addresses that are not registered are added. */
  predicate Admissible(t: Table, op: Operation) {
    op.Add? ==> op.addr !in t.clients_addr
  }

  lemma OperationRefines(t: Table, op: Operation)
    requires Bijective(t) && Admissible(t, op)
    ensures Bijective(Apply(t, op))
    ensures Entries(Apply(t, op)) == ApplyAbstract(Entries(t), op)
  {
    var t' := Apply(t, op);
    IdsAreKeys(t);
    assert Bijective(t');
    forall e ensures e in Entries(t') <==> e in ApplyAbstract(Entries(t), op) {
      EntryOf(t, e);
      EntryOf(t', e);
    }
  }

  ghost predicate AllAdmissible(t: Table, ops: seq<Operation>)
    decreases |ops|
  {
    ops == [] || (Admissible(t, ops[0]) && AllAdmissible(Apply(t, ops[0]), ops[1..]))
  }

  function ApplyAll(t: Table, ops: seq<Operation>): Table
    decreases |ops|
  {
    if ops == [] then t else ApplyAll(Apply(t, ops[0]), ops[1..])
  }

  ghost function ApplyAllAbstract(es: set<Entry>, ops: seq<Operation>): set<Entry>
    decreases |ops|
  {
    if ops == [] then es else ApplyAllAbstract(ApplyAbstract(es, ops[0]), ops[1..])
  }

  /** Every sequence of operations on a bijective table refines the same sequence on one partial bijection. */
  lemma {:induction false} DistributorRefines(t: Table, ops: seq<Operation>)
    requires Bijective(t) && AllAdmissible(t, ops)
    ensures Bijective(ApplyAll(t, ops)) && Entries(ApplyAll(t, ops)) == ApplyAllAbstract(Entries(t), ops)
    decreases |ops|
  {
    if ops != [] {
      OperationRefines(t, ops[0]);
      DistributorRefines(Apply(t, ops[0]), ops[1..]);
    }
  }
}
