/**
 * The transport side: the underlying WebSocket (an opaque library object,
 * reduced to what it is asked to do), the `GhostTextConnection` wrapper
 * around it, and the two pure decisions taken by `listen`: the discovery
 * handshake response and which server errors are tolerated.
 */
module Server {
  import opened Protocol

  /**
   * The library socket.  Only the calls the wrapper makes on it are
   * recorded: how often `close()` was called and every message sent.
   */
  class WebSocket {
    var closeCalls: nat
    var transmitted: seq<Outgoing>

    constructor ()
      ensures closeCalls == 0 && transmitted == []
    {
      closeCalls := 0;
      transmitted := [];
    }

    method Close()
      modifies this
      ensures closeCalls == old(closeCalls) + 1
      ensures transmitted == old(transmitted)
    {
      closeCalls := closeCalls + 1;
    }

    method Send(m: Outgoing)
      modifies this
      ensures transmitted == old(transmitted) + [m]
      ensures closeCalls == old(closeCalls)
    {
      transmitted := transmitted + [m];
    }
  }

  /** The events a connection emits to its listeners. */
  datatype ConnEvent = Data(message: Message) | Closed

  /**
   * The abstract state of one connection: whether it still holds its
   * socket, the calls made on that socket, and the events emitted so far.
   */
  datatype ConnState = ConnState(
    socketSet: bool,
    closeCalls: nat,
    transmitted: seq<Outgoing>,
    emitted: seq<ConnEvent>)

  /** The state right after construction around a socket. */
  function Opened(closeCalls: nat, transmitted: seq<Outgoing>): ConnState
  {
    ConnState(true, closeCalls, transmitted, [])
  }

  /** `close()`: drop the socket, then close it; nothing once dropped. */
  function AfterClose(c: ConnState): ConnState
  {
    if c.socketSet then c.(socketSet := false, closeCalls := c.closeCalls + 1) else c
  }

  /** `send(text)`: transmit the fixed outbound shape, only while the socket is held. */
  function AfterSend(c: ConnState, text: string): ConnState
  {
    if c.socketSet then c.(transmitted := c.transmitted + [OutgoingMessage(text)]) else c
  }

  /** The socket's `message` handler: one `data` event per message. */
  function AfterMessage(c: ConnState, m: Message): ConnState
  {
    c.(emitted := c.emitted + [Data(m)])
  }

  /** The socket's `close` handler: `close()` first, then one `close` event. */
  function AfterSocketClose(c: ConnState): ConnState
  {
    var d := AfterClose(c);
    d.(emitted := d.emitted + [Closed])
  }

  /** A run of inbound socket messages, in arrival order. */
  function AfterMessages(c: ConnState, ms: seq<Message>): ConnState
    decreases |ms|
  {
    if ms == [] then c else AfterMessages(AfterMessage(c, ms[0]), ms[1..])
  }

  /** The `data` events a list of messages turns into, one each, in order. */
  function DataEvents(ms: seq<Message>): (r: seq<ConnEvent>)
    ensures |r| == |ms|
    ensures forall i :: 0 <= i < |ms| ==> r[i] == Data(ms[i])
  {
    seq(|ms|, i requires 0 <= i < |ms| => Data(ms[i]))
  }

  lemma CloseIdempotent(c: ConnState)
    ensures AfterClose(AfterClose(c)) == AfterClose(c)
    ensures !AfterClose(c).socketSet
    ensures AfterClose(c).closeCalls == c.closeCalls + (if c.socketSet then 1 else 0)
    ensures AfterClose(c).transmitted == c.transmitted && AfterClose(c).emitted == c.emitted
  {
  }

  lemma SendAfterCloseIsNoOp(c: ConnState, text: string)
    ensures AfterSend(AfterClose(c), text) == AfterClose(c)
  {
  }

  lemma SendTransmitsOnce(c: ConnState, text: string)
    requires c.socketSet
    ensures AfterSend(c, text).transmitted == c.transmitted + [Outgoing("", text, "", [])]
    ensures AfterSend(c, text).socketSet && AfterSend(c, text).closeCalls == c.closeCalls
  {
  }

  /**
   * Whatever the state, a socket close leaves the socket dropped, emits
   * `close` once more, and calls the library `close()` at most once over
   * the connection's whole life, however often the close path runs.
   */
  lemma SocketClosedOnce(c: ConnState)
    ensures !AfterSocketClose(c).socketSet
    ensures AfterSocketClose(c).emitted == c.emitted + [Closed]
    ensures AfterSocketClose(AfterSocketClose(c)).closeCalls == AfterSocketClose(c).closeCalls
    ensures c.socketSet ==> AfterSocketClose(c).closeCalls == c.closeCalls + 1
  {
  }

  /** Each inbound message yields exactly one `data` event, in arrival order. */
  lemma {:induction false} MessagesInOrder(c: ConnState, ms: seq<Message>)
    ensures AfterMessages(c, ms).emitted == c.emitted + DataEvents(ms)
    ensures AfterMessages(c, ms).socketSet == c.socketSet
    ensures AfterMessages(c, ms).transmitted == c.transmitted
    decreases |ms|
  {
    if ms != [] {
      MessagesInOrder(AfterMessage(c, ms[0]), ms[1..]);
      assert DataEvents(ms) == [Data(ms[0])] + DataEvents(ms[1..]);
    }
  }

  /**
   * The wrapper around one socket.  `socket` is the source's nullable
   * field; `ws` remembers which socket it was, so that what happens to
   * that socket after the field is cleared can still be stated.
   * `emitted` lists the events handed to the connection's listeners.
   */
  class GhostTextConnection {
    var socket: WebSocket?
    ghost const ws: WebSocket
    var emitted: seq<ConnEvent>

    ghost predicate Valid()
      reads this
    {
      socket == null || socket == ws
    }

    ghost function Model(): ConnState
      reads this, ws
    {
      ConnState(socket != null, ws.closeCalls, ws.transmitted, emitted)
    }

    /** Wires the socket's `message` and `close` handlers and keeps the socket. */
    constructor (socket: WebSocket)
      ensures Valid() && ws == socket
      ensures Model() == Opened(socket.closeCalls, socket.transmitted)
    {
      this.socket := socket;
      ws := socket;
      emitted := [];
    }

    method Close()
      requires Valid()
      modifies this, ws
      ensures Valid()
      ensures Model() == AfterClose(old(Model()))
    {
      if socket != null {
        var c := socket;
        socket := null;
        c.Close();
      }
    }

    method Send(text: string)
      requires Valid()
      modifies ws
      ensures Model() == AfterSend(old(Model()), text)
    {
      if socket != null {
        socket.Send(OutgoingMessage(text));
      }
    }

    /** The socket's `message` handler. */
    method OnSocketMessage(data: Message)
      modifies this
      ensures socket == old(socket)
      ensures Model() == AfterMessage(old(Model()), data)
    {
      emitted := emitted + [Data(data)];
    }

    /** The socket's `close` handler. */
    method OnSocketClose()
      requires Valid()
      modifies this, ws
      ensures Valid()
      ensures Model() == AfterSocketClose(old(Model()))
    {
      Close();
      emitted := emitted + [Closed];
    }
  }

  /** What `wsServer.address()` returns: a pipe path or a bound TCP port. */
  datatype Address = PipeAddress(path: string) | PortAddress(port: int)

  datatype ResponseBody =
    | ErrorBody(error: string)
    | Advertisement(protocolVersion: int, webSocketPort: int)

  datatype Response = Response(status: int, contentType: string, body: ResponseBody)

  const ContentType: string := "application/json"

  /**
   * The discovery handshake: 500 with an error record when the socket
   * server is bound to a pipe, else 200 advertising protocol version 1
   * and the bound port.
   */
  function HandshakeResponse(addr: Address): (r: Response)
    ensures r.contentType == ContentType
    ensures r.status == 200 || r.status == 500
    ensures r.status == 200 <==> addr.PortAddress?
    ensures r.status == 200 <==> r.body.Advertisement?
    ensures addr.PortAddress? ==> r.body == Advertisement(1, addr.port)
    ensures addr.PipeAddress? ==> r.body == ErrorBody("uanble listen port")
  {
    match addr
    case PipeAddress(_) => Response(500, ContentType, ErrorBody("uanble listen port"))
    case PortAddress(p) => Response(200, ContentType, Advertisement(1, p))
  }

  /** The fields of a Node.js system error that the error handler reads. */
  datatype ServerError = ServerError(code: string, syscall: string, message: string)

  datatype ErrorAction = Logged(line: string) | Rethrown(error: ServerError)

  /**
   * The HTTP server's `error` handler: an address already in use while
   * listening is logged; every other error is thrown on.
   */
  function OnServerError(err: ServerError): (r: ErrorAction)
    ensures r.Logged? <==> err.code == "EADDRINUSE" && err.syscall == "listen"
    ensures r.Logged? ==> r.line == err.message
    ensures r.Rethrown? ==> r.error == err
  {
    if err.code == "EADDRINUSE" && err.syscall == "listen" then Logged(err.message) else Rethrown(err)
  }
}
