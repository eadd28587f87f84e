/**
 * The two ends of a relayed connection: the server's task for a Minecraft client
 * (server/src/client_handler.rs) and the client's task for a local connection
 * (client/src/connection_handler.rs). Both tell their event loop when they end by themselves,
 * and stay silent when their channel was closed by the loop.
 */
module Endpoints {
  import opened Datatypes
  import opened Packets
  import opened Distributors
  import opened ServerHandler
  import opened ClientHandler

  /** A task's flags; it is dropped once it has ended. */
  datatype Task = Task(need_for_close: bool, ended: bool)

  const RUNNING: Task := Task(true, false)

  /** What one branch of a task's loop does: messages to its event loop and bytes to its socket. */
  datatype Turn<M> = Turn(task: Task, messages: seq<M>, written: seq<Payload>)

  /** A payload from the event loop, or the end of the channel. */
  function OnReceive<M>(t: Task, received: Option<Payload>, writable: bool): Turn<M> {
    match received
    case Some(data) => if writable then Turn(t, [], [data]) else Turn(t.(ended := true), [], [])
    case None => Turn(Task(false, true), [], [])
  }

  // ----- The server's task -----

  /** What the socket's decoder yields. */
  datatype FromSocket = Data(data: Payload) | DecodeError | EndOfStream | OtherPacket

  function OnSocket(addr: SocketAddr, t: Task, f: FromSocket, proxyOpen: bool): Turn<ClientToProxy> {
    match f
    case Data(data) => if proxyOpen then Turn(t, [Packet(addr, data)], []) else Turn(t.(ended := true), [], [])
    case OtherPacket => Turn(t, [], [])
    case _ => Turn(t.(ended := true), [], [])
  }

  function OnDrop(addr: SocketAddr, t: Task): seq<ClientToProxy> {
    if t.need_for_close then [RemoveMinecraftClient(addr)] else []
  }

  class MCClient {
    const addr: SocketAddr
    var need_for_close: bool
    var ended: bool
    var toProxy: seq<ClientToProxy>
    var written: seq<Payload>

    /** Announces itself and forwards the hello's bytes before anything else. */
    constructor (addr: SocketAddr, tx: Channel, hello: Payload)
      ensures this.addr == addr && Flags() == RUNNING && written == []
      ensures toProxy == [AddMinecraftClient(addr, tx), Packet(addr, hello)]
    {
      this.addr := addr;
      need_for_close := true;
      ended := false;
      toProxy := [AddMinecraftClient(addr, tx)] + [Packet(addr, hello)];
      written := [];
    }

    function Flags(): Task
      reads this
    {
      Task(need_for_close, ended)
    }

    method Receive(received: Option<Payload>, writable: bool)
      modifies this
      ensures var turn: Turn<ClientToProxy> := OnReceive(old(Flags()), received, writable);
              && Flags() == turn.task && toProxy == old(toProxy) + turn.messages
              && written == old(written) + turn.written
    {
      match received {
        case Some(data) =>
          if writable {
            written := written + [data];
          } else {
            ended := true;
          }
        case None =>
          need_for_close := false;
          ended := true;
      }
    }

    method Socket(f: FromSocket, proxyOpen: bool)
      modifies this
      ensures var turn := OnSocket(addr, old(Flags()), f, proxyOpen);
              && Flags() == turn.task && toProxy == old(toProxy) + turn.messages
              && written == old(written) + turn.written
    {
      match f {
        case Data(data) =>
          if proxyOpen {
            toProxy := toProxy + [Packet(addr, data)];
          } else {
            ended := true;
          }
        case DecodeError => ended := true;
        case EndOfStream => ended := true;
        case OtherPacket =>
      }
    }

    method Drop()
      modifies this
      ensures toProxy == old(toProxy) + OnDrop(addr, old(Flags())) && Flags() == old(Flags()) && written == old(written)
    {
      if need_for_close {
        toProxy := toProxy + [RemoveMinecraftClient(addr)];
      }
    }
  }

  // ----- The client's task -----

  /** The outcome of reading the local server: at most 1024 bytes, none at the end of the stream. */
  datatype FromServer = Read(data: Payload) | ReadError

  function OnRead(id: ClientID, t: Task, f: FromServer, proxyOpen: bool): Turn<ConnectionMessage> {
    if f.Read? && f.data != [] && proxyOpen then Turn(t, [FromConnection(id, f.data)], [])
    else Turn(t.(ended := true), [], [])
  }

  /** The local server could not be reached. */
  function OnConnectError(t: Task, error: string): Turn<ConnectionMessage> {
    Turn(t.(ended := true), [Death(error)], [])
  }

  function OnConnectionDrop(id: ClientID, t: Task): seq<ConnectionMessage> {
    if t.need_for_close then [RemoveConnection(id)] else []
  }

  class ClientConnection {
    const client_id: ClientID
    var need_for_close: bool
    var ended: bool
    var toProxy: seq<ConnectionMessage>
    var written: seq<Payload>

    constructor (id: ClientID)
      ensures client_id == id && Flags() == RUNNING && toProxy == [] && written == []
    {
      client_id := id;
      need_for_close := true;
      ended := false;
      toProxy := [];
      written := [];
    }

    function Flags(): Task
      reads this
    {
      Task(need_for_close, ended)
    }

    method Receive(received: Option<Payload>, writable: bool)
      modifies this
      ensures var turn: Turn<ConnectionMessage> := OnReceive(old(Flags()), received, writable);
              && Flags() == turn.task && toProxy == old(toProxy) + turn.messages
              && written == old(written) + turn.written
    {
      match received {
        case Some(data) =>
          if writable {
            written := written + [data];
          } else {
            ended := true;
          }
        case None =>
          need_for_close := false;
          ended := true;
      }
    }

    /** A task that breaks out of its loop keeps the flag it was created with. */
    method Server(f: FromServer, proxyOpen: bool)
      requires need_for_close
      modifies this
      ensures var turn := OnRead(client_id, old(Flags()), f, proxyOpen);
              && Flags() == turn.task && toProxy == old(toProxy) + turn.messages
              && written == old(written) + turn.written
    {
      if f.ReadError? || f.data == [] {
        ended := true;
        need_for_close := true;
        return;
      }
      if proxyOpen {
        toProxy := toProxy + [FromConnection(client_id, f.data)];
      } else {
        ended := true;
        need_for_close := true;
      }
    }

    method ConnectFailed(error: string)
      modifies this
      ensures var turn := OnConnectError(old(Flags()), error);
              && Flags() == turn.task && toProxy == old(toProxy) + turn.messages
              && written == old(written) + turn.written
    {
      ended := true;
      toProxy := toProxy + [Death(error)];
    }

    method Drop()
      modifies this
      ensures toProxy == old(toProxy) + OnConnectionDrop(client_id, old(Flags()))
      ensures Flags() == old(Flags()) && written == old(written)
    {
      if need_for_close {
        toProxy := toProxy + [RemoveConnection(client_id)];
      }
    }
  }
}
