/** The packets of the tunnel protocol (shared/src/socket_packet.rs, shared/src/proxy.rs). */
module Packets {
  import opened Bytes
  import opened Text
  import opened Minecraft

  type Key = s: seq<byte> | |s| == 32 witness seq(32, _ => 0)
  type Block = s: seq<byte> | |s| == 64 witness seq(64, _ => 0)
  type ClientID = u16

  datatype ProxyAuthenticator = PublicKey(key: Key)

  datatype ProxyHelloPacket = ProxyHelloPacket(version: u16, hostname: String, auth: ProxyAuthenticator)

  datatype ProxyConnectedResponse = ProxyConnectedResponse(version: u16)

  datatype ProxyDataPacket = ProxyDataPacket(client_id: ClientID, packet: MinecraftDataPacket)

  datatype SocketPacket =
    | MCHello(hello: MinecraftHelloPacket)
    | MCData(mc: MinecraftDataPacket)
    | ProxyHello(proxyHello: ProxyHelloPacket)
    | ProxyAuthRequest(challenge: Block)
    | ProxyAuthResponse(signature: Block)
    | ProxyHelloResponse(response: ProxyConnectedResponse)
    | ProxyJoin(joined: ClientID)
    | ProxyDisconnect(disconnected: ClientID)
    | ProxyDisconnectAck(acknowledged: ClientID)
    | ProxyError(message: String)
    | ProxyData(proxyData: ProxyDataPacket)
    | ProxyPing(ping: u16)
    | ProxyPong(pong: u16)
    | UnknownPacket
}
