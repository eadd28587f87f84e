/**
 * Bincode 1.3 with its default options: u32 little-endian variant tags in declaration order,
 * fixed-width little-endian integers, u64 lengths before strings and byte vectors, arrays as their
 * bare elements, bytes after the value ignored. The derived implementations are given by the
 * shape of each packet's fields.
 */
module Bincode {
  import opened Datatypes
  import opened Bytes
  import opened Text
  import opened Minecraft
  import opened Packets

  // ----- Single fields -----

  datatype Kind = Int(width: nat) | Variant(count: nat) | Array(size: nat) | Vector | Str

  datatype Field = Num(n: nat) | Blob(bytes: seq<byte>)

  datatype Parsed<T> = Parsed(item: T, rest: seq<byte>)

  ghost predicate Fits(k: Kind, f: Field) {
    match k
    case Int(width) => f.Num? && f.n < Pow256(width)
    case Variant(count) => f.Num? && f.n < count && f.n < Pow256(4)
    case Array(size) => f.Blob? && |f.bytes| == size
    case Vector => f.Blob? && |f.bytes| < Pow256(8)
    case Str => f.Blob? && |f.bytes| < Pow256(8) && ValidUtf8(f.bytes)
  }

  function PutField(k: Kind, f: Field): seq<byte>
    requires Fits(k, f)
  {
    match k
    case Int(width) => Le(width, f.n)
    case Variant(_) => Le(4, f.n)
    case Array(_) => f.bytes
    case _ => Le(8, |f.bytes|) + f.bytes
  }

  function GetNumber(width: nat, b: seq<byte>): (r: Option<Parsed<Field>>)
    ensures r.Some? ==> r.value.item.Num? && r.value.item.n < Pow256(width)
  {
    var found :- GetLe(width, b);
    Some(Parsed(Num(found.0), found.1))
  }

  /** Exactly `n` bytes. */
  function GetArray(n: nat, b: seq<byte>): Option<Parsed<Field>> {
    if |b| < n then None else Some(Parsed(Blob(b[..n]), b[n..]))
  }

  function GetVector(b: seq<byte>): Option<Parsed<Field>> {
    var length :- GetNumber(8, b);
    GetArray(length.item.n, length.rest)
  }

  function GetField(k: Kind, b: seq<byte>): Option<Parsed<Field>> {
    match k
    case Int(width) => GetNumber(width, b)
    case Variant(count) =>
      var tag :- GetNumber(4, b);
      if tag.item.n < count then Some(tag) else None
    case Array(size) => GetArray(size, b)
    case Vector => GetVector(b)
    case Str =>
      var text :- GetVector(b);
      if text.item.Blob? && ValidUtf8(text.item.bytes) then Some(text) else None
  }

  lemma NumberInverts(width: nat, b: seq<byte>, n: nat, rest: seq<byte>)
    ensures GetNumber(width, b) == Some(Parsed(Num(n), rest)) <==> n < Pow256(width) && b == Le(width, n) + rest
  {
    GetLeInverts(width, b, n, rest);
  }

  lemma VectorInverts(b: seq<byte>, bytes: seq<byte>, rest: seq<byte>)
    ensures GetVector(b) == Some(Parsed(Blob(bytes), rest))
       <==> |bytes| < Pow256(8) && b == Le(8, |bytes|) + bytes + rest
  {
    assert Le(8, |bytes|) + bytes + rest == Le(8, |bytes|) + (bytes + rest);
    NumberInverts(8, b, |bytes|, bytes + rest);
    if GetVector(b) == Some(Parsed(Blob(bytes), rest)) {
      var length := GetNumber(8, b).value;
      assert length.rest == bytes + rest && length.item == Num(|bytes|);
    }
    if GetNumber(8, b) == Some(Parsed(Num(|bytes|), bytes + rest)) {
      assert (bytes + rest)[..|bytes|] == bytes && (bytes + rest)[|bytes|..] == rest;
    }
  }

  lemma ArrayInverts(n: nat, b: seq<byte>, bytes: seq<byte>, rest: seq<byte>)
    ensures GetArray(n, b) == Some(Parsed(Blob(bytes), rest)) <==> |bytes| == n && b == bytes + rest
  {
    if |b| >= n {
      assert b == b[..n] + b[n..];
    }
    if |bytes| == n && b == bytes + rest {
      assert b[..n] == bytes && b[n..] == rest;
    }
  }

  /** Reading a field accepts exactly what writing one produces, and returns what was written. */
  lemma FieldInverts(k: Kind, b: seq<byte>, f: Field, rest: seq<byte>)
    ensures GetField(k, b) == Some(Parsed(f, rest)) <==> Fits(k, f) && b == PutField(k, f) + rest
  {
    match k
    case Int(width) =>
      if f.Num? {
        NumberInverts(width, b, f.n, rest);
      }
    case Variant(_) =>
      if f.Num? {
        NumberInverts(4, b, f.n, rest);
      }
    case Array(size) =>
      if f.Blob? {
        ArrayInverts(size, b, f.bytes, rest);
      }
    case _ =>
      if f.Blob? {
        VectorInverts(b, f.bytes, rest);
      }
      assert GetVector(b).Some? ==> GetVector(b).value.item.Blob?;
  }

  // ----- Sequences of fields -----

  ghost predicate AllFit(shape: seq<Kind>, fields: seq<Field>) {
    |shape| == |fields| && forall i :: 0 <= i < |shape| ==> Fits(shape[i], fields[i])
  }

  lemma NoFields(shape: seq<Kind>, fields: seq<Field>)
    requires shape == [] && fields == []
    ensures AllFit(shape, fields)
  {
  }

  lemma AllFitSizes(shape: seq<Kind>, fields: seq<Field>)
    requires AllFit(shape, fields)
    ensures |shape| == |fields|
  {
  }

  lemma AllFitCons(shape: seq<Kind>, fields: seq<Field>)
    requires |shape| == |fields| > 0
    ensures AllFit(shape, fields) <==> Fits(shape[0], fields[0]) && AllFit(shape[1..], fields[1..])
  {
    hide Fits;
    if Fits(shape[0], fields[0]) && AllFit(shape[1..], fields[1..]) {
      assert forall i :: 0 < i < |shape| ==> shape[i] == shape[1..][i - 1] && fields[i] == fields[1..][i - 1];
    }
  }

  function PutFields(shape: seq<Kind>, fields: seq<Field>): seq<byte>
    requires AllFit(shape, fields)
  {
    if shape == [] then [] else PutField(shape[0], fields[0]) + PutFields(shape[1..], fields[1..])
  }

  function GetFields(shape: seq<Kind>, b: seq<byte>): Option<Parsed<seq<Field>>> {
    if shape == [] then Some(Parsed([], b))
    else
      var first :- GetField(shape[0], b);
      var others :- GetFields(shape[1..], first.rest);
      Some(Parsed([first.item] + others.item, others.rest))
  }

  lemma FieldsInvert(shape: seq<Kind>, b: seq<byte>, fields: seq<Field>, rest: seq<byte>)
    ensures GetFields(shape, b) == Some(Parsed(fields, rest))
       <==> AllFit(shape, fields) && b == PutFields(shape, fields) + rest
    decreases |shape|
  {
    if GetFields(shape, b) == Some(Parsed(fields, rest)) {
      FieldsRead(shape, b, fields, rest);
    }
    if AllFit(shape, fields) && b == PutFields(shape, fields) + rest {
      FieldsWritten(shape, fields, rest);
    }
  }

  lemma {:induction false} FieldsRead(shape: seq<Kind>, b: seq<byte>, fields: seq<Field>, rest: seq<byte>)
    requires GetFields(shape, b) == Some(Parsed(fields, rest))
    ensures AllFit(shape, fields) && b == PutFields(shape, fields) + rest
    decreases |shape|
  {
    hide GetField, PutField, Fits, AllFit;
    if shape == [] {
      assert AllFit(shape, fields) by {
        NoFields(shape, fields);
      }
      assert b == [] + rest;
    } else {
      var first := GetField(shape[0], b).value;
      assert fields[0] == first.item;
      var others := GetFields(shape[1..], first.rest).value;
      assert fields[1..] == others.item;
      FieldInverts(shape[0], b, fields[0], first.rest);
      FieldsRead(shape[1..], first.rest, fields[1..], rest);
      AllFitSizes(shape[1..], fields[1..]);
      AllFitCons(shape, fields);
    }
  }

  lemma {:induction false} FieldsWritten(shape: seq<Kind>, fields: seq<Field>, rest: seq<byte>)
    requires AllFit(shape, fields)
    ensures GetFields(shape, PutFields(shape, fields) + rest) == Some(Parsed(fields, rest))
    decreases |shape|
  {
    hide GetField, PutField, Fits, AllFit;
    AllFitSizes(shape, fields);
    var b := PutFields(shape, fields) + rest;
    if shape == [] {
      assert b == rest;
    } else {
      AllFitCons(shape, fields);
      var after := PutFields(shape[1..], fields[1..]) + rest;
      assert b == PutField(shape[0], fields[0]) + after;
      FieldInverts(shape[0], b, fields[0], after);
      FieldsWritten(shape[1..], fields[1..], rest);
      assert fields == [fields[0]] + fields[1..];
    }
  }

  // ----- Packets -----

  function Tag(p: SocketPacket): (tag: nat)
    ensures tag < 14
  {
    match p
    case MCHello(_) => 0
    case MCData(_) => 1
    case ProxyHello(_) => 2
    case ProxyAuthRequest(_) => 3
    case ProxyAuthResponse(_) => 4
    case ProxyHelloResponse(_) => 5
    case ProxyJoin(_) => 6
    case ProxyDisconnect(_) => 7
    case ProxyDisconnectAck(_) => 8
    case ProxyError(_) => 9
    case ProxyData(_) => 10
    case ProxyPing(_) => 11
    case ProxyPong(_) => 12
    case UnknownPacket => 13
  }

  function Shape(tag: nat): seq<Kind>
    requires tag < 14
  {
    match tag
    case 0 => [Int(8), Int(4), Int(4), Str, Int(4), Vector]
    case 1 => [Vector]
    case 2 => [Int(2), Str, Variant(1), Array(32)]
    case 3 => [Array(64)]
    case 4 => [Array(64)]
    case 9 => [Str]
    case 10 => [Int(2), Vector]
    case 13 => []
    case _ => [Int(2)]
  }

  function Fields(p: SocketPacket): seq<Field> {
    match p
    case MCHello(h) =>
      [Num(h.length), Num(OfI32(h.id)), Num(OfI32(h.version)), Blob(h.hostname), Num(h.port), Blob(h.data)]
    case MCData(d) => [Blob(d.data)]
    case ProxyHello(h) => [Num(h.version), Blob(h.hostname), Num(0), Blob(h.auth.key)]
    case ProxyAuthRequest(challenge) => [Blob(challenge)]
    case ProxyAuthResponse(signature) => [Blob(signature)]
    case ProxyHelloResponse(response) => [Num(response.version)]
    case ProxyJoin(id) => [Num(id)]
    case ProxyDisconnect(id) => [Num(id)]
    case ProxyDisconnectAck(id) => [Num(id)]
    case ProxyError(message) => [Blob(message)]
    case ProxyData(d) => [Num(d.client_id), Blob(d.packet.data)]
    case ProxyPing(time) => [Num(time)]
    case ProxyPong(time) => [Num(time)]
    case UnknownPacket => []
  }

  /** Strings and vectors are shorter than 2^64 bytes, as everything in memory is. */
  ghost predicate Sized(p: SocketPacket) {
    AllFit(Shape(Tag(p)), Fields(p))
  }

  function OfFields(tag: nat, f: seq<Field>): SocketPacket
    requires tag < 14 && AllFit(Shape(tag), f)
  {
    Widths();
    match tag
    case 0 =>
      FieldsOfHello(f);
      MCHello(MinecraftHelloPacket(f[0].n, ToI32(f[1].n), ToI32(f[2].n), f[3].bytes, f[4].n, f[5].bytes))
    case 1 => assert Fits(Vector, f[0]); MCData(MinecraftDataPacket(f[0].bytes))
    case 2 =>
      assert Fits(Int(2), f[0]) && Fits(Str, f[1]) && Fits(Array(32), f[3]);
      ProxyHello(ProxyHelloPacket(f[0].n, f[1].bytes, PublicKey(f[3].bytes)))
    case 3 => assert Fits(Array(64), f[0]); ProxyAuthRequest(f[0].bytes)
    case 4 => assert Fits(Array(64), f[0]); ProxyAuthResponse(f[0].bytes)
    case 5 => assert Fits(Int(2), f[0]); ProxyHelloResponse(ProxyConnectedResponse(f[0].n))
    case 6 => assert Fits(Int(2), f[0]); ProxyJoin(f[0].n)
    case 7 => assert Fits(Int(2), f[0]); ProxyDisconnect(f[0].n)
    case 8 => assert Fits(Int(2), f[0]); ProxyDisconnectAck(f[0].n)
    case 9 => assert Fits(Str, f[0]); ProxyError(f[0].bytes)
    case 10 =>
      assert Fits(Int(2), f[0]) && Fits(Vector, f[1]);
      ProxyData(ProxyDataPacket(f[0].n, MinecraftDataPacket(f[1].bytes)))
    case 11 => assert Fits(Int(2), f[0]); ProxyPing(f[0].n)
    case 12 => assert Fits(Int(2), f[0]); ProxyPong(f[0].n)
    case 13 => UnknownPacket
  }

  lemma Widths()
    ensures Pow256(2) == 0x1_0000 && Pow256(4) == 0x1_0000_0000 && Pow256(8) == 0x1_0000_0000_0000_0000
  {
  }

  lemma FieldsOfHello(f: seq<Field>)
    requires AllFit(Shape(0), f)
    ensures |f| == 6 && f[0].Num? && f[0].n < 0x1_0000_0000_0000_0000
    ensures f[1].Num? && f[2].Num? && f[4].Num?
    ensures f[1].n < 0x1_0000_0000 && f[2].n < 0x1_0000_0000 && f[4].n < 0x1_0000_0000
    ensures f[3].Blob? && ValidUtf8(f[3].bytes) && f[5].Blob?
  {
    Widths();
    assert Fits(Int(8), f[0]) && Fits(Int(4), f[1]) && Fits(Int(4), f[2]);
    assert Fits(Str, f[3]) && Fits(Int(4), f[4]) && Fits(Vector, f[5]);
  }

  function Serialize(p: SocketPacket): seq<byte>
    requires Sized(p)
  {
    Le(4, Tag(p)) + PutFields(Shape(Tag(p)), Fields(p))
  }

  function Deserialize(b: seq<byte>): Option<Parsed<SocketPacket>> {
    var tag :- GetField(Variant(14), b);
    if tag.item.Blob? || tag.item.n >= 14 then None
    else
      var fields :- GetFields(Shape(tag.item.n), tag.rest);
      FieldsInvert(Shape(tag.item.n), tag.rest, fields.item, fields.rest);
      Some(Parsed(OfFields(tag.item.n, fields.item), fields.rest))
  }

  /** The fields of a packet determine it, and every fitting list of fields is some packet's. */
  lemma FieldsOfPacket(p: SocketPacket)
    requires Sized(p)
    ensures OfFields(Tag(p), Fields(p)) == p
  {
  }

  lemma PacketOfFields(tag: nat, f: seq<Field>)
    requires tag < 14 && AllFit(Shape(tag), f)
    ensures Tag(OfFields(tag, f)) == tag && Fields(OfFields(tag, f)) == f
  {
    if tag == 0 {
      FieldsOfHello(f);
    } else if tag == 2 {
      assert Fits(Variant(1), f[2]);
    }
    assert forall i :: 0 <= i < |f| ==> Fits(Shape(tag)[i], f[i]);
  }

  lemma TagInverts(b: seq<byte>, f: Field, rest: seq<byte>)
    ensures GetField(Variant(14), b) == Some(Parsed(f, rest)) <==> f.Num? && f.n < 14 && b == Le(4, f.n) + rest
  {
    Widths();
    FieldInverts(Variant(14), b, f, rest);
  }

  /** Deserializing accepts exactly the strings that start with a serialized packet, and returns that packet. */
  lemma DeserializeInverts(b: seq<byte>, p: SocketPacket, rest: seq<byte>)
    ensures Deserialize(b) == Some(Parsed(p, rest)) <==> Sized(p) && b == Serialize(p) + rest
  {
    hide Fields, Shape, OfFields, AllFit, PutFields, GetFields, GetField, Tag;
    if Deserialize(b) == Some(Parsed(p, rest)) {
      var tag := GetField(Variant(14), b).value;
      TagInverts(b, tag.item, tag.rest);
      var shape := Shape(tag.item.n);
      var fields := GetFields(shape, tag.rest).value;
      FieldsInvert(shape, tag.rest, fields.item, fields.rest);
      PacketOfFields(tag.item.n, fields.item);
      assert Le(4, Tag(p)) + (PutFields(shape, Fields(p)) + rest) == Serialize(p) + rest;
    }
    if Sized(p) && b == Serialize(p) + rest {
      var after := PutFields(Shape(Tag(p)), Fields(p)) + rest;
      assert b == Le(4, Tag(p)) + after;
      TagInverts(b, Num(Tag(p)), after);
      FieldsInvert(Shape(Tag(p)), after, Fields(p), rest);
      FieldsOfPacket(p);
    }
  }
}
