/**
 * The RPC server of the GUI test framework: it listens for one client,
 * hands every request to the executor registered for its command, and sends
 * responses and notifications as a header followed by the serialized struct.
 */
module RPCServer {
  import opened Common
  import opened TestFrameworkAPI
  import opened RPCCommon

  /** Drivers::SocketServer::ServerEvent. */
  datatype ServerEvent = ClientConnected | ClientDisconnected | ClientDataRecv

  /** What the server asked of its socket server; the answers are parameters. */
  datatype SocketCall = StartCall(port: U16, maxClients: nat) | StopCall | WriteCall(data: seq<Byte>)

  class Server {
    /** m_executors, with None for the empty entries operator[] inserts. */
    var executors: map<Byte, Option<HandlerId>>
    /** The executors called, in order, with the payloads they were given. */
    var calls: seq<Call>
    /** The socket server's calls, in order. */
    var socket: seq<SocketCall>

    /** The server owns a socket server in payload-header mode and listens to it. */
    constructor()
      ensures executors == map[] && calls == [] && socket == []
    {
      executors := map[];
      calls := [];
      socket := [];
    }

    /** start(port): listens for at most one client; the socket server's answer is the result. */
    method Start(port: U16, accepted: bool) returns (ok: bool)
      modifies this
      ensures socket == old(socket) + [StartCall(port, 1)] && ok == accepted
      ensures executors == old(executors) && calls == old(calls)
    {
      socket := socket + [StartCall(port, 1)];
      ok := accepted;
    }

    method Stop()
      modifies this
      ensures socket == old(socket) + [StopCall]
      ensures executors == old(executors) && calls == old(calls)
    {
      socket := socket + [StopCall];
    }

    /** The buffer respond and notify build and write: two header bytes pushed, then the struct serialized. */
    method Send(t: MessageType, m: Message, written: bool) returns (ok: bool)
      modifies this
      ensures socket == old(socket) + [WriteCall(Frame(t, m))] && ok == written
      ensures executors == old(executors) && calls == old(calls)
    {
      var buffer: seq<Byte> := [];
      buffer := buffer + [TypeByte(t)];
      buffer := buffer + [m.cmd];
      assert buffer == Header(t, m.cmd);
      buffer := SerializeMessage(buffer, m);
      socket := socket + [WriteCall(buffer)];
      ok := written;
    }

    /** respond(response): a RequestResponse message; the socket server's write result is the result. */
    method Respond(response: Message, written: bool) returns (ok: bool)
      modifies this
      ensures socket == old(socket) + [WriteCall(Frame(RequestResponse, response))] && ok == written
      ensures executors == old(executors) && calls == old(calls)
    {
      ok := Send(RequestResponse, response, written);
    }

    /** notify(notification): a Notification message; the socket server's write result is the result. */
    method Notify(notification: Message, written: bool) returns (ok: bool)
      modifies this
      ensures socket == old(socket) + [WriteCall(Frame(Notification, notification))] && ok == written
      ensures executors == old(executors) && calls == old(calls)
    {
      ok := Send(Notification, notification, written);
    }

    /** addCommandExecutor: the executor replaces whatever the command had. */
    method AddCommandExecutor(command: Byte, executor: HandlerId)
      modifies this
      ensures executors == old(executors)[command := Some(executor)]
      ensures calls == old(calls) && socket == old(socket)
    {
      executors := executors[command := Some(executor)];
    }

    /** removeCommandExecutor: the command has no entry any more. */
    method RemoveCommandExecutor(command: Byte)
      modifies this
      ensures executors == old(executors) - {command}
      ensures !Registered(executors, command)
      ensures calls == old(calls) && socket == old(socket)
    {
      executors := executors - {command};
    }

    /**
     * onServerEvent: data from the client goes to the executor of the
     * command in its second byte, without the header; without an executor
     * nothing is called. Empty data, connections and disconnections are only
     * logged. The data must hold the header, since the command byte is read
     * after checking only that the data is not empty.
     */
    method OnServerEvent(clientId: int, event: ServerEvent, data: seq<Byte>)
      requires event == ClientDataRecv && |data| > 0 ==> |data| >= HEADER_SIZE
      modifies this
      ensures socket == old(socket)
      ensures event != ClientDataRecv || |data| == 0 ==> executors == old(executors) && calls == old(calls)
      ensures event == ClientDataRecv && |data| > 0 ==>
        executors == Touched(old(executors), data[COMMAND_BYTE_OFFSET]) && calls == old(calls) + Dispatched(old(executors), data)
    {
      if event == ClientDataRecv && |data| > 0 {
        var command := data[COMMAND_BYTE_OFFSET];
        executors := Touched(executors, command);
        var executor := executors[command];
        if executor.Some? {
          calls := calls + [Call(executor.value, data[HEADER_SIZE..])];
        }
      }
    }
  }

  /**
   * A request framed by the client reaches the executor of its command as
   * the serialized struct, which converts back to the request.
   */
  lemma RequestReachesExecutor(request: Message, executors: map<Byte, Option<HandlerId>>)
    requires Storable(request) && Registered(executors, request.cmd)
    ensures var calls := Dispatched(executors, Frame(Request, request));
      && calls == [Call(executors[request.cmd].value, EncodeMessage(request))]
      && Convert(KindOf(request), calls[0].payload) == Some(request)
  {
    FrameRoundTrip(Request, request);
  }
}
