/**
 * The RPC client of the GUI tests: it latches the first response of an
 * ongoing transaction into its buffer and hands notifications to the
 * handler registered for their command.
 */
module RPCClient {
  import opened Common
  import opened TestFrameworkAPI
  import opened RPCCommon
  import SocketClient

  /** What the client asked of its socket client; the answers are parameters. */
  datatype SocketCall = ConnectCall(address: string, port: U16) | DisconnectCall

  class Client {
    /** m_buffer: the request being built, or the payload of the response latched. */
    var buffer: seq<Byte>
    var lastEvent: SocketClient.ClientEvent
    /** m_event_ready: a response was latched for the current transaction. */
    var eventReady: bool
    var transactionOngoing: bool
    /** m_ntf_handlers, with None for the empty entries operator[] inserts. */
    var handlers: map<Byte, Option<HandlerId>>
    /** The notification handlers called, in order, with the payloads they were given. */
    var calls: seq<Call>
    var socket: seq<SocketCall>

    /** The client owns a socket client in payload-header mode and listens to it. */
    constructor()
      ensures buffer == [] && lastEvent == SocketClient.ServerDisconnected && !eventReady && !transactionOngoing
      ensures handlers == map[] && calls == [] && socket == []
    {
      buffer := [];
      lastEvent := SocketClient.ServerDisconnected;
      eventReady := false;
      transactionOngoing := false;
      handlers := map[];
      calls := [];
      socket := [];
    }

    /** connect: the socket client's answer is the result. */
    method Connect(address: string, port: U16, connected: bool) returns (ok: bool)
      modifies this
      ensures socket == old(socket) + [ConnectCall(address, port)] && ok == connected
      ensures buffer == old(buffer) && eventReady == old(eventReady) && handlers == old(handlers) && calls == old(calls)
    {
      socket := socket + [ConnectCall(address, port)];
      ok := connected;
    }

    method Disconnect()
      modifies this
      ensures socket == old(socket) + [DisconnectCall]
      ensures buffer == old(buffer) && eventReady == old(eventReady) && handlers == old(handlers) && calls == old(calls)
    {
      socket := socket + [DisconnectCall];
    }

    /** addNotificationHandler: the handler replaces whatever the command had. */
    method AddNotificationHandler(command: Byte, handler: HandlerId)
      modifies this
      ensures handlers == old(handlers)[command := Some(handler)]
      ensures buffer == old(buffer) && eventReady == old(eventReady) && calls == old(calls)
    {
      handlers := handlers[command := Some(handler)];
    }

    /** removeNotificationHandler: the command has no entry any more. */
    method RemoveNotificationHandler(command: Byte)
      modifies this
      ensures handlers == old(handlers) - {command}
      ensures !Registered(handlers, command)
      ensures buffer == old(buffer) && eventReady == old(eventReady) && calls == old(calls)
    {
      handlers := handlers - {command};
    }

    /** prepareHeader: the buffer is emptied and holds the header. */
    method PrepareHeader(t: MessageType, command: Byte)
      modifies this
      ensures buffer == Header(t, command)
      ensures eventReady == old(eventReady) && transactionOngoing == old(transactionOngoing)
      ensures handlers == old(handlers) && calls == old(calls)
    {
      buffer := [];
      buffer := buffer + [TypeByte(t)];
      buffer := buffer + [command];
    }

    /** The data is the awaited response: a transaction is on, nothing latched yet, and the type is RequestResponse. */
    predicate Awaited(data: seq<Byte>)
      reads this
      requires |data| >= 1
    {
      transactionOngoing && !eventReady && data[TYPE_BYTE_OFFSET] == TypeByte(RequestResponse)
    }

    /**
     * onClientEvent: a disconnection is ignored. Received data that is the
     * awaited response is latched without its header; otherwise a
     * notification goes, without its header, to the handler of its command,
     * and anything else is dropped. The type byte is read without a check,
     * and the command byte and the payload whenever the data is used.
     */
    method OnClientEvent(event: SocketClient.ClientEvent, data: seq<Byte>)
      requires event == SocketClient.ServerDataRecv ==> |data| >= 1
      requires event == SocketClient.ServerDataRecv && (Awaited(data) || data[TYPE_BYTE_OFFSET] == TypeByte(Notification)) ==>
        |data| >= HEADER_SIZE
      modifies this
      ensures socket == old(socket) && transactionOngoing == old(transactionOngoing)
      ensures event == SocketClient.ServerDisconnected ==> unchanged(this)
      ensures event == SocketClient.ServerDataRecv && old(Awaited(data)) ==>
        && buffer == data[HEADER_SIZE..] && lastEvent == SocketClient.ServerDataRecv && eventReady
        && handlers == old(handlers) && calls == old(calls)
      ensures event == SocketClient.ServerDataRecv && !old(Awaited(data)) ==>
        buffer == old(buffer) && lastEvent == old(lastEvent) && eventReady == old(eventReady)
      ensures event == SocketClient.ServerDataRecv && !old(Awaited(data)) && data[TYPE_BYTE_OFFSET] == TypeByte(Notification) ==>
        handlers == Touched(old(handlers), data[COMMAND_BYTE_OFFSET]) && calls == old(calls) + Dispatched(old(handlers), data)
      ensures event == SocketClient.ServerDataRecv && !old(Awaited(data)) && data[TYPE_BYTE_OFFSET] != TypeByte(Notification) ==>
        handlers == old(handlers) && calls == old(calls)
    {
      if event == SocketClient.ServerDataRecv {
        if transactionOngoing && !eventReady && data[TYPE_BYTE_OFFSET] == TypeByte(RequestResponse) {
          buffer := data[HEADER_SIZE..];
          lastEvent := event;
          eventReady := true;
        } else if data[TYPE_BYTE_OFFSET] == TypeByte(Notification) {
          var command := data[COMMAND_BYTE_OFFSET];
          handlers := Touched(handlers, command);
          var handler := handlers[command];
          if handler.Some? {
            calls := calls + [Call(handler.value, data[HEADER_SIZE..])];
          }
        }
      }
    }
  }

  /**
   * A response the server sent is latched as the serialized reply, which
   * converts back to the reply.
   */
  lemma ResponseLatched(reply: Message)
    requires Storable(reply)
    ensures var data := Frame(RequestResponse, reply);
      && data[TYPE_BYTE_OFFSET] == TypeByte(RequestResponse)
      && Convert(KindOf(reply), data[HEADER_SIZE..]) == Some(reply)
  {
    FrameRoundTrip(RequestResponse, reply);
  }

  /**
   * A notification the server sent reaches the handler of its command as the
   * serialized struct, which converts back to the notification.
   */
  lemma NotificationDelivered(notification: Message, handlers: map<Byte, Option<HandlerId>>)
    requires Storable(notification) && Registered(handlers, notification.cmd)
    ensures var data := Frame(Notification, notification);
      && data[TYPE_BYTE_OFFSET] == TypeByte(Notification)
      && Dispatched(handlers, data) == [Call(handlers[notification.cmd].value, EncodeMessage(notification))]
      && Convert(KindOf(notification), Dispatched(handlers, data)[0].payload) == Some(notification)
  {
    FrameRoundTrip(Notification, notification);
  }
}
