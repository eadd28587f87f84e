# Craftip: the tunnel protocol and its codec

Craftip lets a Minecraft server behind a NAT be reached through a public proxy. A Minecraft client
connects to the proxy *server*; the server multiplexes all Minecraft clients of one hostname onto a
single TCP stream to the *client* program next to the Minecraft server; the client demultiplexes the
stream to one local connection per Minecraft client. This project models both halves and proves what
they do together.

**The codec** (`Bytes`, `Varint`, `Text`, `Cursor`, `Minecraft`, `Bincode`, `Packets`, `Frames`,
`PacketCodec`). One stateful decoder reads everything. It has to recognise four formats of a first
packet (legacy ping, legacy connect, modern handshake, length-prefixed bincode frame) while the bytes
are still arriving, and then stays in Minecraft or proxy mode. The cursor, the buffer, the decoder and
the framed reader are classes and loops as in the source; each method is proved equal to a function of
the buffer, and the theorems are about these functions: `Layouts` (every frame byte by byte), `Streams`
(reassembly, chunking, disambiguation, whole connections), `FirstPacket` (first packets in pieces),
`Conservation` (no byte is lost), `Exceptions` (concrete inputs of the decoder on which a property fails),
`Vectors` (the inputs of the repository's own tests).

**The tunnel** (`Distributor`, `ServerHandler`, `ClientHandler`, `Endpoints`, `Tunnel`). The two event
loops, the tasks of the Minecraft clients and of the local connections are classes whose methods are
proved equal to step functions. `Tunnel` composes these functions into a system of steps, one per
branch of a `select!`, over the server's inbox, the two packet streams, the client's queue and every
connection's channel; an error return is a step to a stopped handler. Every message carries, for the
proofs only, the generation (the number of the Minecraft client) it belongs to. `Lanes` is the theory of
FIFO lanes whose messages open, use and shut reusable keys. `TaskSteps` and `LoopSteps` state every turn of a
task and of a loop as its whole effect, how tasks end and what stops a loop. `Invariants` and `Isolation` treat the
direction to the client and the server's table. In the direction to the server, `Origins` says where every
message comes from, `Arrivals` what the client can still take and `Holders` who will hold each id once all that has
arrived; `QuietRuns` and `MapRuns` prove the invariants behind isolation and behind agreement on the ids,
`QuietReuse` draws the conclusions, `StaleReuse` and `StaleRemovals` prove that their conditions are exact, and
`StaleRuns` holds two concrete runs.

**Both together.** `EndToEnd` joins codec and tunnel from socket to socket; `WireSizes` follows the bytes of
everything a run puts on the two wires of the tunnel into the other side's reader.

A Minecraft client's address is used by at most one live client at a time; this is the only assumption
about the environment, and it is the guard of the arrival step.

## What the proofs found

- The server frees an id without waiting for the client, so a payload can reach the wrong Minecraft
  client, or a disconnect remove it. Whether an id may be given out is decided by whether it is *quiet*
  (`Holders.IdQuiet`). The messages ahead are those on the wire and the replies in front of a death. The id is
  quiet if the first message ahead about it is a disconnect, which takes the id away again before any stale
  payload; or if there is none and, unless a death will stop the client first, no live connection has the id and
  no join for it is among the packets the client can still read. Isolation holds in every run in which the ids
  given out to Minecraft clients that are still there are quiet (`QuietReuse.UpstreamIsolation`), and the
  condition is exact: after such a run, the next id may be given out if and only if it is quiet or its new
  holder is already gone (`StaleReuse.IsolationIsExact`).
- A stale disconnect does not break isolation but takes the id away from its new holder. Where that matters
  too, nothing ahead may be about the id. The same theorems hold with this stronger condition:
  `StaleReuse.QuietIsExact` is the if-and-only-if for the server taking any message for someone else's, and
  `StaleReuse.UnquietMisleads` gives, from every reachable state in which an id that is not quiet is given out, a
  continuation in which it does. In `StaleRuns.PendingJoinsMatter` only a join on its way down is left of the
  former holder, and a payload still reaches the wrong client. Isolation towards the client needs no condition.
- For the same reason the two sides can end up with different ids for good: `StaleRuns.IdleSidesDisagree` is a
  run after which nothing is on the way, the client has a connection for id 0 and the server no client. Here
  the condition is that the id given out is *settled* (`MapRuns.Settled`): unless something on the way will
  stop the client, no removal of it is under way, no live connection has it and no join for it is on its way
  down. Payloads do no harm here. `QuietReuse.MapAgreement` proves agreement in every
  settled run, and `StaleRemovals.SettledIsExact` that the condition is exact.
- The client's decoder stays undecided for good, because its first packet is no hello. It delivers a frame
  if and only if the body length is neither 512 to 767 nor 1536 (`Streams.UndecidedReads`); for the
  tunnel's data packets these are payloads of 498 to 753 and of 1522 bytes. A payload of more than 65521 bytes
  does not fit the 16-bit length and is never delivered either (`WireSizes.DownstreamWire`).
- A modern handshake whose declared length equals its length is read in any pieces if and only if
  that length is not 254, which starts like a legacy ping (`FirstPacket.ModernReadsFirst`). With the framing of
  the 16-byte example in `shared/src/test.rs:109-121`, where the length does not count itself but counts the
  next-state byte, a handshake is read if and only if its declared length is below 128
  (`FirstPacket.RealHandshake`); the next-state byte then stays in the buffer. `Exceptions.RealHandshakeIsLost` is
  one for a hostname of 122 letters that is never read.
- A legacy ping with its true rest length is read if and only if its hostname is ASCII
  (`FirstPacket.PingHostname`).
- A hello may also come wrapped in a proxy frame; its bytes are then lost. Bytes are conserved if and only
  if a Minecraft parser accepted the first packet's buffer (`Conservation.ByteConservation`).
- The comment at `shared/src/cursor.rs:27` promises the size of the string as well; the code returns
  the string only, and so does the model.

## Model

| member | source | states |
|---|---|---|
| Varint.GetVarint | shared/src/datatypes.rs:19-42 | the bit-accumulating loop returns the two's-complement value of the sum of the 7-bit groups modulo 2^32 and the number of bytes up to the first one below 128, at most five, and is not valid when the input ends or a sixth byte would be needed |
| Varint.VarintExact | shared/src/datatypes.rs:19-42 | a varint is found if and only if one of the first five bytes has no continuation bit; it ends there, and its value is congruent modulo 2^32 to the sum of its groups with the weights 1, 2^7, 2^14, 2^21 and 2^28 |
| Varint.VarintInverts | shared/src/datatypes.rs:19-42 | for every i32 the canonical encoding is read back at any offset with anything behind it, consuming exactly its own bytes |
| Varint.VarintCut | shared/src/datatypes.rs:26-31 | an encoding cut anywhere is reported as not valid, never as too small |
| Varint.FifthByteTopBitsIgnored | shared/src/datatypes.rs:34-38 | bits 4 to 6 of a fifth byte do not influence the result |
| Varint.EncodedLengthOfI32 | shared/src/test.rs:134-170 | canonical encodings of an i32 take one to five bytes |
| Vectors.VarintVectors | shared/src/test.rs:134-170 | the seven encodings of the test are read as its values and sizes |
| Bytes.CastsAreModular | shared/src/minecraft.rs:138 | the casts between i32, u32 and usize keep the number modulo the target's width |
| Bytes.BigEndian | shared/src/cursor.rs:52-72 | two and four bytes are read with the most significant one first |
| Text.Utf16Inverts | shared/src/cursor.rs:61-71 | UTF-16 decoding (section 2.2 of RFC 2781) accepts exactly the encodings of scalar sequences and returns what was encoded |
| Text.CharUtf16Bits | shared/src/cursor.rs:61-71 | a surrogate pair carries ten bits each of the character less 2^16, and every other character is its own unit (section 2.1 of RFC 2781) |
| Text.CharUtf8Bits | shared/src/cursor.rs:63 | the payload bits of a character's bytes, six for each continuation byte, are its value, and its length is the least possible (section 3 of RFC 3629) |
| Text.Utf8Inverts | shared/src/cursor.rs:28-43 | a byte string is a valid Rust string if and only if it is the encoding of some characters, which are unique |
| Text.AsciiIsItself | shared/src/cursor.rs:52-72 | an ASCII hostname comes out as the same letters it was sent as |
| Text.AsciiByLength | shared/src/minecraft.rs:88 | a string has as many UTF-8 bytes (section 3 of RFC 3629) as UTF-16 units exactly when it is ASCII, and otherwise more |
| Cursors.Cursor.GetVarint | shared/src/cursor.rs:22-26 | the position advances exactly past a valid varint and stays otherwise |
| Cursors.Cursor.GetUtf8String | shared/src/cursor.rs:28-43 | success leaves the position right behind the string; an encoding error restores the start; negative lengths never leave the buffer |
| Cursors.Cursor.GetUtf16String | shared/src/cursor.rs:52-72 | one byte must follow the units; success leaves the position behind the string; an encoding error restores the start |
| Cursors.Cursor.MatchBytes | shared/src/cursor.rs:74-85 | the loop matches exactly when all bytes are there and equal, and only then advances |
| Minecraft.OldPingPkg | shared/src/minecraft.rs:71-102 | the legacy ping parser returns its specification's result; the buffer loses the hello's bytes on success and nothing otherwise |
| Minecraft.OldConnectPkg | shared/src/minecraft.rs:103-125 | the same for the legacy connect parser |
| Minecraft.NewPkg | shared/src/minecraft.rs:127-150 | the same for the modern parser, for every byte sequence, with every index in range |
| Minecraft.NewHello | shared/src/minecraft.rs:45-69 | the parsers are tried in order and only a mismatch goes on to the next |
| Minecraft.NewData | shared/src/minecraft.rs:36-42 | a data packet is the whole buffer, which is then empty |
| Minecraft.HelloIsItsBytes | shared/src/minecraft.rs:94-101 | a hello's length is the length of its data, which are exactly the bytes taken from the front, at least six |
| Vectors.HelloVectors | shared/src/test.rs:19-125 | the five hellos of the test are read in any pieces, with anything behind them, as the length, version, hostname, port 25565 and data the test expects |
| Bincode.FieldInverts | shared/src/socket_packet.rs:96-100 | every kind of field is read back exactly from its own encoding, whatever follows |
| Bincode.FieldsInvert | shared/src/socket_packet.rs:96-100 | so is every list of fields, in order |
| Bincode.PacketOfFields | shared/src/socket_packet.rs:20-39 | every list of fields that fits a variant's shape is the field list of a packet of that variant |
| Bincode.DeserializeInverts | shared/src/socket_packet.rs:78-100 | deserializing yields a packet and a rest if and only if the input is that packet's serialised form followed by the rest |
| Bytes.LeAddsUp | shared/src/socket_packet.rs:78 | the bytes of a little-endian number of any width add up to it with the weights 256^i |
| Layouts.JoinFrame | shared/src/socket_packet.rs:76-87 | a join is the bytes 0, 6, the tag 6 in four bytes and the id, least significant byte first |
| Layouts.DisconnectFrame | shared/src/socket_packet.rs:76-87 | a disconnect has the tag 7 and an acknowledgement 8, and otherwise the bytes of a join |
| Layouts.PingFrames | shared/src/socket_packet.rs:76-87 | a ping has the tag 11 and a pong 12, followed by the time |
| Layouts.HelloResponseFrame | shared/src/socket_packet.rs:76-87 | the answer to a hello has the tag 5, followed by the version |
| Layouts.DataFrame | shared/src/socket_packet.rs:76-87 | a data packet is 14 plus the payload's length in big-endian order, the tag 10, the id, the length in eight little-endian bytes and the payload |
| Layouts.MCDataFrame | shared/src/socket_packet.rs:76-87 | Minecraft data in a frame is the tag 1, the length and the data |
| Layouts.ErrorFrame | shared/src/socket_packet.rs:76-87 | an error is the tag 9, the length and the text |
| Layouts.AuthFrames | shared/src/socket_packet.rs:24-27 | a challenge is 0, 68, the tag 3 and its 64 bytes, and a signature the same with the tag 4 |
| Layouts.UnknownFrame | shared/src/socket_packet.rs:38 | the unknown packet's frame is its length and the tag 13 |
| Layouts.ProxyHelloFrame | shared/src/socket_packet.rs:76-87 | a proxy hello is the tag 2, the version, the hostname after its length, four zero bytes for the kind of key and the 32 bytes of the key |
| Layouts.MCHelloFrame | shared/src/socket_packet.rs:76-87 | a Minecraft hello in a frame is the tag 0, its length, id, version, hostname, port and data, numbers little-endian and signed ones as two's complement |
| Frames.Encode | shared/src/socket_packet.rs:76-87 | a frame is the body's length modulo 65536 in big-endian order and the body |
| Frames.FrameInverts | shared/src/socket_packet.rs:76-105 | a frame with a body of at most 65535 bytes is read back, taking exactly its own bytes, whatever follows |
| Frames.FrameCut | shared/src/socket_packet.rs:93-95 | a frame cut anywhere is too small |
| Frames.DecodeProxyFrom | shared/src/socket_packet.rs:91-104 | a frame leaves the buffer only when its packet was read |
| Frames.DecodeProxyStable | shared/src/socket_packet.rs:91-104 | a decision made on a buffer is not changed by bytes that arrive later |
| Frames.DecodeProxyTakes | shared/src/socket_packet.rs:96-103 | the bytes taken are a serialised packet and ignored trailing bytes |
| Frames.ParseFirstPackage | shared/src/socket_packet.rs:108-115 | a hello if a Minecraft parser accepts, a frame if it says not valid or not matching, and any other error as it is |
| Frames.ParsePacketFrom | shared/src/socket_packet.rs:117-128 | in Minecraft mode the whole buffer is one data packet, in proxy mode a frame is read |
| Codec.PacketCodec.Decode | shared/src/packet_codec.rs:54-89 | waiting and failing leave buffer and mode unchanged; a packet leaves the front of the buffer and a hello settles an undecided mode |
| Codec.PacketCodec.Encode | shared/src/packet_codec.rs:115-130 | Minecraft packets are written as the bytes they carry and all others as frames, behind what was already there |
| Codec.UnknownIsText | shared/src/packet_codec.rs:119-122 | the unknown packet is written as its name in ASCII |
| Streams.FramesAreWritten | shared/src/packet_codec.rs:115-130 | what is written for a list of the tunnel's packets is their frames, one after the other |
| Conservation.MinecraftIsWritten | shared/src/packet_codec.rs:115-130 | what is written for a list of Minecraft packets is exactly the bytes they carry |
| Conservation.MinecraftRelay | shared/src/packet_codec.rs:54-89 | what is written for a list of Minecraft packets is handed on byte for byte by a reader in Minecraft mode, in any chunking |
| Codec.FramedReader.Receive | shared/src/packet_codec.rs:54-89 | appending a chunk and decoding until nothing comes terminates and yields all packets that can be taken |
| Streams.StreamReassembly | shared/src/packet_codec.rs:54-89 | for every list of packets with bodies of at most 65535 bytes and every chunking of their frames, the proxy-mode reader delivers exactly that list and ends with an empty buffer |
| Streams.FeedRun | shared/src/packet_codec.rs:54-89 | after any prefix of a readable stream the reader has delivered exactly the packets that are complete and keeps the part of the next one |
| Streams.ProxyChunking | shared/src/packet_codec.rs:54-89 | for arbitrary bytes the output of the proxy-mode reader does not depend on where they were cut |
| Streams.UndecidedReads | shared/src/packet_codec.rs:64-80 | the undecided reader delivers a list of frames in any chunking if and only if every frame up to a proxy hello has a body length outside 512 to 767 and other than 1536, and then ends empty in the mode the list leads to |
| Streams.ProxySession | shared/src/packet_codec.rs:62-82 | a reader that starts undecided, given a proxy hello with an unambiguous length and any packets with bodies of at most 65535 bytes in any chunking, delivers them all and ends in proxy mode with the hello's version |
| Streams.MalformedStops | shared/src/socket_packet.rs:96-100 | in proxy mode a complete frame that holds no packet is an error: all packets in front of it are delivered and nothing behind it, in any chunking |
| Ambiguity.HelloRejects | shared/src/socket_packet.rs:108-115 | on the start of a frame with an unambiguous length no Minecraft parser succeeds, and none waits once the frame is complete |
| Ambiguity.AmbiguousNeverRead | shared/src/minecraft.rs:103-113 | a frame with an ambiguous length is never delivered by the undecided reader, whatever part of it or whatever follows has arrived |
| FirstPacket.ModernReadsFirst | shared/src/minecraft.rs:127-150 | a well-formed handshake, of any length, is waited for at every strict prefix and read with anything behind it if and only if it is not 254 bytes long; otherwise it is never read |
| FirstPacket.RealHandshake | shared/src/minecraft.rs:127-150 | a handshake whose declared length does not count itself but counts a next-state byte behind the port is waited for at every strict prefix and read with anything behind it if and only if the declared length is below 128; otherwise it is never read |
| FirstPacket.PingReadsFirst | shared/src/minecraft.rs:71-102 | a legacy ping is read in any pieces if its units are valid UTF-16 and its rest length is 7 plus twice the UTF-8 length of the hostname, and otherwise never |
| FirstPacket.PingHostname | shared/src/minecraft.rs:82-92 | with the true rest length exactly the ASCII hostnames are accepted |
| FirstPacket.ConnectReadsFirst | shared/src/minecraft.rs:103-125 | a legacy connect with valid strings is read in any pieces |
| FirstPacket.PingEncodingFails | shared/src/cursor.rs:61-71 | a legacy ping whose hostname is no valid UTF-16 is an encoding error, whatever follows |
| FirstPacket.ConnectEncodingFails | shared/src/cursor.rs:61-71 | so is a legacy connect whose username or hostname is none |
| FirstPacket.FrameReadsFirst | shared/src/packet_codec.rs:64-70 | a proxy hello, like every frame with an unambiguous length, is read in any pieces and its suffix is kept |
| FirstPacket.FirstPacketArrives | shared/src/packet_codec.rs:62-88 | in whatever chunks such a first packet and what follows it arrive, it is the first packet delivered |
| Conservation.TakesExactly | shared/src/packet_codec.rs:83-88 | a decoded packet accounts for the bytes it takes: the whole buffer, the hello's own bytes, or a length and a body that starts with the packet's serialised form |
| Conservation.ByteConservation | shared/src/packet_codec.rs:62-82 | in an error-free run whose first packet is a hello the mode stays, only data packets follow, and the payloads handed on and the rest are exactly the bytes read if and only if a Minecraft parser accepted the first buffer |
| Exceptions.WrappedHelloLosesBytes | shared/src/socket_packet.rs:108-115 | a concrete hello in a frame of 42 bytes of which the decoder hands on none |
| Exceptions.LonePayloadIsStuck | shared/src/minecraft.rs:103-113 | a complete data frame with a payload of 498 bytes is not delivered by the undecided reader but is by the one in proxy mode |
| Exceptions.LongHandshakeIsLost | shared/src/minecraft.rs:71-81 | a concrete handshake of 254 bytes that is never read |
| Exceptions.RealHandshakeIsLost | shared/src/minecraft.rs:139-141 | a concrete handshake with a declared length of 128 that is never read |
| Exceptions.AccentedPingIsLost | shared/src/minecraft.rs:88-90 | a concrete legacy ping with a hostname outside ASCII that is never read |
| Distributors.FirstFree | server/src/proxy_handler.rs:41-50 | the least free id up to 255, and none exactly when all are in use |
| Distributors.Distribiutor.Insert | server/src/proxy_handler.rs:36-55 | the search loop takes the least free id and enters it in both maps; without a free id nothing changes |
| Distributors.Distribiutor.RemoveByAddr | server/src/proxy_handler.rs:56-61 | both entries of a registered address go, others stay |
| Distributors.Distribiutor.RemoveById | server/src/proxy_handler.rs:62-67 | both entries of an id go, others stay |
| Distributors.Distribiutor.GetByAddr | server/src/proxy_handler.rs:68-70 | the client registered under the address |
| Distributors.Distribiutor.GetById | server/src/proxy_handler.rs:71-76 | the client registered under the id's address |
| Distributors.LookupsAgree | server/src/proxy_handler.rs:68-76 | both lookups read the same relation of id, address and channel, which is a partial bijection |
| Distributors.FullAt256 | server/src/proxy_handler.rs:41-50 | at most 256 clients are registered, and inserting fails exactly when 256 addresses are |
| Distributors.DistributorRefines | server/src/proxy_handler.rs:35-77 | every sequence of inserts of absent addresses and removals keeps the maps mutually inverse and refines the same sequence on one partial bijection |
| ServerHandler.ProxyClient.HandleMessage | server/src/proxy_handler.rs:114-144 | the effect of each inbox message on table and wire, and when the loop stops |
| ServerHandler.ProxyClient.HandlePacket | server/src/proxy_handler.rs:146-171 | the effect of each packet on table, wire and channels |
| ServerHandler.WireGrammar | server/src/proxy_handler.rs:111-180 | whatever messages and packets arrive, what is sent for an id is (Join Data* Disconnect?)* |
| ClientHandler.State.AddConnection | client/src/client.rs:42-48 | the id leads to the new channel, whatever it led to before |
| ClientHandler.State.RemoveConnection | client/src/client.rs:49-55 | the id leads nowhere, other ids stay |
| ClientHandler.State.SendTo | client/src/client.rs:56-65 | fails exactly for an unknown id; a closed channel is forgotten without an error |
| ClientHandler.Client.HandleMessage | client/src/client.rs:153-167 | the effect of each message of a local connection on connections and wire, and when the loop stops |
| ClientHandler.Client.HandlePacket | client/src/client.rs:169-203 | the effect of each packet on connections and channels, and when the loop stops |
| Endpoints.MCClient.constructor | server/src/client_handler.rs:26-62 | the announcement and the hello's bytes are queued first, in this order |
| Endpoints.MCClient.Receive | server/src/client_handler.rs:67-78 | a payload is written; the end of the channel silences the task's removal message |
| Endpoints.MCClient.Socket | server/src/client_handler.rs:79-96 | data packets are queued; errors, the end of the stream and a closed inbox end the task |
| Endpoints.MCClient.Drop | server/src/client_handler.rs:103-112 | the removal is queued unless the channel had ended |
| Endpoints.ClientConnection.Receive | client/src/connection_handler.rs:46-60 | a payload is written to the local server; the end of the channel silences the connection's removal message |
| Endpoints.ClientConnection.Server | client/src/connection_handler.rs:61-81 | what is read is queued under the connection's id; errors, the end of the stream and a closed queue end the task |
| Endpoints.ClientConnection.ConnectFailed | client/src/connection_handler.rs:41-43 | a failed connect reports a death and ends the task |
| Endpoints.ClientConnection.Drop | client/src/connection_handler.rs:100-109 | the removal is queued unless the channel had ended |
| TaskSteps.LocalReceives | client/src/connection_handler.rs:46-60 | a payload is written; one that cannot be written ends the connection, which has its id removed; the end of the channel ends it without any message; nothing else changes |
| TaskSteps.LocalReads | client/src/connection_handler.rs:61-81 | bytes read are queued under the connection's id; at the end of the stream, on an error and without a client it ends and has its id removed; nothing else changes |
| TaskSteps.LocalFails | client/src/client.rs:177-183 | a connection that cannot be made queues its death and then its removal |
| TaskSteps.VisitorReceives | server/src/client_handler.rs:67-78 | a payload is written; one that cannot be written ends the task, which queues its removal; the end of the channel ends it without any message; nothing else changes |
| TaskSteps.VisitorReads | server/src/client_handler.rs:79-96 | data is queued under the address and other packets are passed over; the end of the stream, an error and a closed inbox end the task, which queues its removal |
| TaskSteps.VisitorGreets | server/src/client_handler.rs:26-62 | a Minecraft client queues its announcement and then its hello's bytes |
| TaskSteps.LocalDrains | client/src/connection_handler.rs:46-60 | a connection the client has let go of writes everything it still holds, in order, and ends without a message |
| TaskSteps.VisitorDrains | server/src/client_handler.rs:67-78 | so does a Minecraft client whose senders are gone |
| TaskSteps.ClosedChannelEnds | client/src/connection_handler.rs:55-58 | in every run, a connection that ended on its closed channel never changes and never adds a message again, whatever happens |
| TaskSteps.ClosedVisitorEnds | server/src/client_handler.rs:72-76 | in every run, a Minecraft client that ended on its closed channel gets nothing and queues nothing again, whatever happens |
| LoopSteps.ServerAddsClient | server/src/proxy_handler.rs:127-130 | the least free id up to 255 is entered for the new client and joined; without one the loop stops |
| LoopSteps.ServerForwardsPayload | server/src/proxy_handler.rs:131-136 | a payload is sent under the id of its address; from an unknown address it stops the loop |
| LoopSteps.ServerRemovesClient | server/src/proxy_handler.rs:137-142 | a registered client is disconnected and both its entries go; otherwise nothing happens |
| LoopSteps.ServerReadsPayload | server/src/proxy_handler.rs:155-162 | a payload is put in the channel of the client of its id and nothing else changes |
| LoopSteps.ServerReadsOthers | server/src/proxy_handler.rs:151-169 | a disconnect removes both entries of its id, a ping is answered with its time, anything else changes nothing |
| LoopSteps.ServerStopsExactly | server/src/proxy_handler.rs:112-144 | a turn of the server's loop stops it if and only if it takes a payload from an unknown address, a client for whom no id is free, or the order to close |
| LoopSteps.ClientTakesReply | client/src/client.rs:153-167 | a payload is sent under its id, a removal is sent as a disconnect and forgets the id, and a death stops the client |
| LoopSteps.ClientReadsControl | client/src/client.rs:173-195 | a join opens a connection under its id, a disconnect forgets the id, and a pong changes nothing |
| LoopSteps.ClientReadsPayload | client/src/client.rs:184-196 | a payload is put in the channel of the connection of its id; an ended connection is forgotten; an unknown id and an unexpected packet stop the client |
| LoopSteps.ClientStopsExactly | client/src/client.rs:153-203 | a turn of the client's loop stops it if and only if it takes a death, a payload for an unknown id or a packet it does not expect |
| LoopSteps.PingsAreAnswered | server/src/proxy_handler.rs:163-165 | in every run the pongs the server sends are the pings it reads, in order and with their times |
| Isolation.InvStep | server/src/proxy_handler.rs:112-180 | every step of the tunnel keeps the invariant that relates inbox, table, packets on the way, connections and generations |
| Isolation.DownstreamIsolation | client/src/client.rs:173-190 | in every run, however ids are reused, what a local connection received is a prefix of what the server forwarded for that connection's own Minecraft client, in order, and that is a prefix of what the client queued; no two connections share a Minecraft client |
| Isolation.DownstreamConservation | server/src/proxy_handler.rs:127-142 | for a connection the client can reach, everything its Minecraft client queued is received, on the way down or in the inbox, in this order |
| Isolation.OnlyAbsentAddresses | server/src/proxy_handler.rs:127-130 | in every run the server registers only addresses that are not registered, so the table stays a bijection with at most 256 entries |
| Isolation.RemovalIsOwn | server/src/client_handler.rs:103-112 | in every state of the invariant, the address of a removal in the inbox is registered exactly when the Minecraft client that sent it is, and then under its own channel |
| Isolation.LateRemoval | server/src/proxy_handler.rs:137-142 | in every run, however late a removal is taken and whoever has got the address or the id since: it takes exactly its sender's own entry and sends one disconnect for its id, or, if its sender is no longer registered, changes nothing but the inbox |
| Origins.SourcedStep | client/src/connection_handler.rs:46-81 | every step keeps that every reply and every packet on the wire to the server comes from a connection with its id and generation, and that a stopped client has neither replies nor ids |
| QuietRuns.QuietStep | client/src/client.rs:142-212 | every quiet step keeps the invariant of the direction to the server, both where only payloads and where all messages about an id matter |
| QuietReuse.UpstreamIsolation | server/src/proxy_handler.rs:155-162 | in every run that is quiet for payloads, what any Minecraft client got is a prefix of what the connection of its own generation produced, and nothing without such a connection; StaleReuse.IsolationIsExact says that the condition on the id given out is exact |
| QuietReuse.UpstreamConservation | client/src/client.rs:153-158 | in every run that is quiet for payloads, while both sides run and the Minecraft client is registered, what it got, the wire and the client's queue hold exactly what its connection produced, in this order |
| StaleReuse.StaleMessageIsTaken | server/src/proxy_handler.rs:151-162 | in every reachable state, a message about an id that is on the wire when the id is given out is taken for the new holder's |
| StaleReuse.MisledActs | server/src/proxy_handler.rs:151-162 | a server that takes a message for someone else's puts its payload into the channel of that other Minecraft client, if that is still there, or takes the id away from it |
| StaleReuse.UnquietMisleads | server/src/proxy_handler.rs:41-55 | from every reachable state in which an id that is not quiet is given out, the run can go on, giving out quiet ids only, until a message of a former holder is taken for the new holder's |
| StaleReuse.QuietNeverMisled | server/src/proxy_handler.rs:151-162 | in no quiet run is a message, or where only payloads matter a payload, taken for someone else's |
| StaleReuse.QuietIsExact | server/src/proxy_handler.rs:41-55 | after every quiet run, an id given out next is quiet if and only if in no quiet continuation a message, or where only payloads matter a payload, is taken for someone else's |
| StaleReuse.IsolationIsExact | server/src/proxy_handler.rs:155-162 | after every run that is quiet for payloads, an id given out next to a Minecraft client that is still there is quiet if and only if isolation holds in every quiet continuation |
| StaleReuse.QuietForAll | server/src/proxy_handler.rs:41-55 | a run that is quiet for all messages is quiet for payloads |
| StaleRuns.PendingJoinsMatter | client/src/client.rs:173-183 | a run in which a payload reaches the wrong Minecraft client although only a join for its id was still on the way |
| MapRuns.MapsStep | client/src/client.rs:142-212 | every settled step keeps that the ids of the two sides differ only by what is on the way between them |
| MapRuns.QuietRunIsSettled | server/src/proxy_handler.rs:41-55 | every run that is quiet for all messages is a settled one |
| QuietReuse.MapAgreement | client/src/client.rs:153-190 | in every settled run, whenever both sides run and nothing is between them, the client's ids are exactly the server's |
| StaleRemovals.UnsettledDisagree | client/src/client.rs:159-166 | from every reachable state in which an id that is not settled is given out, the run can go on, giving out settled ids only, until both sides run, nothing is between them and their ids differ |
| StaleRemovals.SettledIsExact | client/src/client.rs:153-190 | after every settled run, the id given out next is settled if and only if in every settled continuation the sides agree whenever nothing is between them |
| StaleRuns.IdleSidesDisagree | client/src/client.rs:173-183 | a run, with an id given out that is not settled, after which nothing is on the way, the client has a connection for id 0 and the server no client |
| EndToEnd.QueuedRun | server/src/client_handler.rs:39-85 | what a Minecraft client queued in a run are the payloads its task took from the socket, the hello first |
| EndToEnd.BytesReachTheLocalServer | client/src/connection_handler.rs:46-54 | in every run the bytes written to the local server are a prefix of the bytes read from that connection's Minecraft client, for every chunking and every interleaving with other clients |
| EndToEnd.BytesReachTheMinecraftClient | server/src/client_handler.rs:67-71 | in every run that is quiet for payloads, the bytes the codec writes to a Minecraft client's socket are a prefix of the bytes its own connection read from the local server |
| WireSizes.WireHistory | server/src/proxy_handler.rs:111-180 | in every run both wires are first in, first out: what was sent is what the other side took followed by what is still on the way |
| WireSizes.TunnelGrammar | server/src/proxy_handler.rs:111-180 | in every run of the tunnel, what the server sends for an id is (Join Data* Disconnect?)* |
| WireSizes.UpstreamWire | client/src/connection_handler.rs:40-75 | in every run every packet the tunnel sends to the server fits its frame, and of the bytes of the proxy hello, whatever authenticates the client and everything the tunnel ever sent, whatever part has arrived, in whatever chunks, the server's reader, which starts undecided, has delivered exactly the packets that are complete and holds the start of the next one |
| WireSizes.DownstreamWire | client/src/client.rs:169-190 | in every run, for the bytes of the challenge, the answer to the hello and everything ever sent, in whatever chunks: until the first payload of 498 to 753, of 1522 or of more than 65521 bytes arrives, the client's undecided reader has delivered exactly the packets that are complete; once one of 498 to 753 or 1522 bytes has arrived, nothing or a Minecraft hello is delivered in its place; one of more than 65521 bytes is never delivered; with all bytes everything is delivered if and only if there is no such payload |

## Left out

- ModernReadsFirst: of the handshakes whose declared length differs from the position after the port, only those framed as in `RealHandshake` have a theorem of their own; the others are covered by the contract of `Minecraft.NewPkg`.
- Encode: the codec's two other encoders append raw bytes unchanged; only the one for packets is modelled.
- Decode: `max_length` is stored but never compared, as in the source, where the comparison is commented out.
- GetUtf16String: the unit iterator is read to its end; that the source may stop at the first bad unit is not visible, because an error restores the position.
- NewPkg: positions and lengths are those of a 64-bit machine, where a negative length becomes a very large one.
- UI, backend controller, updater, statistics and logging.
- The authentication exchange, keys and base36 hostnames: challenges and signatures are opaque bytes.
- The register that maps hostnames to tunnels: one tunnel is modelled; several handlers under one hostname are not.
- Liveness: an unknown id at the client and an unknown address at the server stop the handler, as in the source; that tunnels survive is not claimed.
- Timers and the arithmetic of pings: a timeout is a stop step, a ping is a step that can happen at any time.
- A failing socket write in an event loop is a stop step that can happen at any time; the packet of a failed write is not followed further.
- `ClientToProxy::Close` is handled by the server's loop, but no step of the tunnel sends it, because no code does.
- The tokio runtime: channels are unbounded FIFO queues, and a closed channel is one whose senders, or whose receiver, are gone.
- The connected-clients count, which `send_to` does not update when it forgets a connection.
