/** The three Minecraft first packets (shared/src/minecraft.rs). */
module Minecraft {
  import opened Datatypes
  import opened Bytes
  import opened Text
  import opened Varint
  import opened Cursors

  /** The kick packet and its plugin message, followed by the channel "MC|PingHost" in UTF-16. */
  const OLD_MINECRAFT_START: seq<byte> := [0xFE, 0x01] + ([0xFA] + PING_HOST)

  const PING_HOST: seq<byte> := [
    0x00, 0x0B, 0x00, 0x4D, 0x00, 0x43, 0x00, 0x7C, 0x00, 0x50, 0x00, 0x69, 0x00, 0x6E, 0x00, 0x67,
    0x00, 0x48, 0x00, 0x6F, 0x00, 0x73, 0x00, 0x74
  ]

  datatype MinecraftHelloPacket = MinecraftHelloPacket(
    length: u64, id: i32, version: i32, hostname: String, port: u32, data: seq<byte>)

  datatype MinecraftDataPacket = MinecraftDataPacket(data: seq<byte>)

  /** The receive buffer; the front is consumed in place. */
  class BytesMut {
    var data: seq<byte>

    constructor ()
      ensures data == []
    {
      data := [];
    }

    method SplitTo(n: nat) returns (front: seq<byte>)
      requires n <= |data|
      modifies this
      ensures front == old(data)[..n] && data == old(data)[n..]
    {
      front := data[..n];
      data := data[n..];
    }

    method Advance(n: nat)
      requires n <= |data|
      modifies this
      ensures data == old(data)[n..]
    {
      data := data[n..];
    }

    method Put(bytes: seq<byte>)
      modifies this
      ensures data == old(data) + bytes
    {
      data := data + bytes;
    }
  }

  // ----- What each parser finds at the front of a buffer -----

  /** A buffer fits in memory: positions are usize. */
  predicate InMemory(b: seq<byte>) {
    |b| < 0x8000_0000_0000_0000
  }

  function Hello(b: seq<byte>, length: nat, version: i32, hostname: String, port: u32): (h: MinecraftHelloPacket)
    requires length <= |b| && InMemory(b)
  {
    MinecraftHelloPacket(length, 0, version, hostname, port, b[..length])
  }

  function OldPing(b: seq<byte>): (r: Result<MinecraftHelloPacket>)
    requires InMemory(b)
  {
    if !BytesAt(b, 0, [0xFE, 0x01]) then Err(NotMatching)
    else if |b| < 34 then Err(TooSmall)
    else if !BytesAt(b, 0, OLD_MINECRAFT_START) then Err(NotValid)
    else
      var hostname :- Utf16StringAt(b, 30);
      if 7 + 2 * |hostname.text| != Be16(b, 27) then Err(NotValid)
      else if |b| < hostname.next + 4 then Err(TooSmall)
      else Ok(Hello(b, hostname.next + 4, b[29], hostname.text, Be32(b, hostname.next)))
  }

  function OldConnect(b: seq<byte>): (r: Result<MinecraftHelloPacket>)
    requires InMemory(b)
  {
    if !BytesAt(b, 0, [0x02]) then Err(NotMatching)
    else if |b| < 2 then Err(TooSmall)
    else
      var username :- Utf16StringAt(b, 2);
      OldConnectBody(b, username.next, b[1])
  }

  /** Hostname and port at `p`. */
  function OldConnectBody(b: seq<byte>, p: nat, version: i32): (r: Result<MinecraftHelloPacket>)
    requires InMemory(b) && p <= |b|
  {
    var hostname :- Utf16StringAt(b, p);
    if |b| < hostname.next + 4 then Err(TooSmall)
    else Ok(Hello(b, hostname.next + 4, version, hostname.text, Be32(b, hostname.next)))
  }

  function Modern(b: seq<byte>): (r: Result<MinecraftHelloPacket>)
    requires InMemory(b)
  {
    var length :- VarintAt(b, 0);
    var id :- VarintAt(b, length.size);
    if id.value != 0 then Err(NotMatching) else ModernBody(b, length.size + id.size, length.value)
  }

  /** Version, hostname and port at `p`; the declared length counts from the very first byte. */
  function ModernBody(b: seq<byte>, p: nat, length: i32): (r: Result<MinecraftHelloPacket>)
    requires InMemory(b) && p <= |b|
  {
    var version :- VarintAt(b, p);
    var hostname :- Utf8StringAt(b, p + version.size);
    if |b| < hostname.next + 2 then Err(TooSmall)
    else if hostname.next + 2 != ToUsize(length) then Err(NotValid)
    else Ok(Hello(b, hostname.next + 2, version.value, hostname.text, Be16(b, hostname.next)))
  }

  /** The first parser that recognises the buffer decides. */
  function AnyHello(b: seq<byte>): (r: Result<MinecraftHelloPacket>)
    requires InMemory(b)
  {
    var ping := OldPing(b);
    if ping != Err(NotMatching) then ping
    else
      var connect := OldConnect(b);
      if connect != Err(NotMatching) then connect else Modern(b)
  }

  /** A hello carries exactly the bytes it was read from, and they are not empty. */
  lemma HelloIsItsBytes(b: seq<byte>)
    requires InMemory(b) && AnyHello(b).Ok?
    ensures var h := AnyHello(b).value;
            6 <= h.length == |h.data| <= |b| && h.data == b[..h.length] && h.id == 0
  {
  }

  // ----- The parsers -----

  method OldPingPkg(buf: BytesMut) returns (r: Result<MinecraftHelloPacket>)
    requires InMemory(buf.data)
    modifies buf
    ensures r == OldPing(old(buf.data))
    ensures buf.data == if r.Ok? then old(buf.data)[r.value.length..] else old(buf.data)
  {
    var cursor := new Cursor(buf.data);
    var matched := cursor.MatchBytes([0xFE, 0x01]);
    if !matched {
      return Err(NotMatching);
    }
    var _ :- cursor.ThrowErrorIfSmaller(32);
    matched := cursor.MatchBytes(OLD_MINECRAFT_START[cursor.pos..]);
    StartInTwoSteps(buf.data);
    if !matched {
      return Err(NotValid);
    }
    var restData := cursor.GetU16();
    var version := cursor.GetU8();
    var hostname :- cursor.GetUtf16String();
    if 7 + |hostname| * 2 != restData {
      return Err(NotValid);
    }
    var _ :- cursor.ThrowErrorIfSmaller(4);
    var port := cursor.GetU32();
    var data := buf.SplitTo(cursor.pos);
    return Ok(MinecraftHelloPacket(cursor.pos, 0, version, hostname, port, data));
  }

  /** Matching the first two bytes and then the rest matches the whole start sequence. */
  lemma StartInTwoSteps(b: seq<byte>)
    requires |b| >= 34 && BytesAt(b, 0, [0xFE, 0x01])
    ensures BytesAt(b, 2, OLD_MINECRAFT_START[2..]) <==> BytesAt(b, 0, OLD_MINECRAFT_START)
  {
    assert b[0..27] == b[0..2] + b[2..27];
    assert OLD_MINECRAFT_START == [0xFE, 0x01] + OLD_MINECRAFT_START[2..];
    if BytesAt(b, 0, OLD_MINECRAFT_START) {
      assert b[2..27] == b[0..27][2..];
    }
  }

  method OldConnectPkg(buf: BytesMut) returns (r: Result<MinecraftHelloPacket>)
    requires InMemory(buf.data)
    modifies buf
    ensures r == OldConnect(old(buf.data))
    ensures buf.data == if r.Ok? then old(buf.data)[r.value.length..] else old(buf.data)
  {
    var cursor := new Cursor(buf.data);
    var matched := cursor.MatchBytes([0x02]);
    if !matched {
      return Err(NotMatching);
    }
    var _ :- cursor.ThrowErrorIfSmaller(1);
    var version := cursor.GetU8();
    var _ :- cursor.GetUtf16String();
    r := OldConnectPkgBody(buf, cursor, version);
  }

  /** The rest of `OldConnectPkg`, from the hostname on. */
  method OldConnectPkgBody(buf: BytesMut, cursor: Cursor, version: i32) returns (r: Result<MinecraftHelloPacket>)
    requires InMemory(buf.data) && cursor.Valid() && cursor.buf == buf.data
    modifies buf, cursor
    ensures r == OldConnectBody(old(buf.data), old(cursor.pos), version)
    ensures buf.data == if r.Ok? then old(buf.data)[r.value.length..] else old(buf.data)
  {
    var hostname :- cursor.GetUtf16String();
    var _ :- cursor.ThrowErrorIfSmaller(4);
    var port := cursor.GetU32();
    var data := buf.SplitTo(cursor.pos);
    return Ok(MinecraftHelloPacket(cursor.pos, 0, version, hostname, port, data));
  }

  method NewPkg(buf: BytesMut) returns (r: Result<MinecraftHelloPacket>)
    requires InMemory(buf.data)
    modifies buf
    ensures r == Modern(old(buf.data))
    ensures buf.data == if r.Ok? then old(buf.data)[r.value.length..] else old(buf.data)
  {
    hide VarintAt, ModernBody;
    var cursor := new Cursor(buf.data);
    var pkgLength :- cursor.GetVarint();
    var pkgId :- cursor.GetVarint();
    if pkgId != 0 {
      return Err(NotMatching);
    }
    r := NewPkgBody(buf, cursor, pkgLength);
  }

  /** The rest of `NewPkg`, from the version on. */
  method NewPkgBody(buf: BytesMut, cursor: Cursor, pkgLength: i32) returns (r: Result<MinecraftHelloPacket>)
    requires InMemory(buf.data) && cursor.Valid() && cursor.buf == buf.data
    modifies buf, cursor
    ensures r == ModernBody(old(buf.data), old(cursor.pos), pkgLength)
    ensures buf.data == if r.Ok? then old(buf.data)[r.value.length..] else old(buf.data)
  {
    hide VarintAt, Utf8StringAt, Be16;
    var version :- cursor.GetVarint();
    var hostname :- cursor.GetUtf8String();
    var _ :- cursor.ThrowErrorIfSmaller(2);
    var port := cursor.GetU16();
    if cursor.pos != ToUsize(pkgLength) {
      return Err(NotValid);
    }
    var data := buf.SplitTo(cursor.pos);
    return Ok(MinecraftHelloPacket(cursor.pos, 0, version, hostname, port, data));
  }

  method NewHello(buf: BytesMut) returns (r: Result<MinecraftHelloPacket>)
    requires InMemory(buf.data)
    modifies buf
    ensures r == AnyHello(old(buf.data))
    ensures buf.data == if r.Ok? then old(buf.data)[r.value.length..] else old(buf.data)
  {
    r := OldPingPkg(buf);
    if r != Err(NotMatching) {
      return;
    }
    r := OldConnectPkg(buf);
    if r != Err(NotMatching) {
      return;
    }
    r := NewPkg(buf);
  }

  /** In Minecraft mode the whole buffer is one data packet. */
  method NewData(buf: BytesMut) returns (r: MinecraftDataPacket)
    modifies buf
    ensures r.data == old(buf.data) && buf.data == []
  {
    var data := buf.SplitTo(|buf.data|);
    return MinecraftDataPacket(data);
  }
}
