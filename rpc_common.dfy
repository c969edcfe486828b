/**
 * What the RPC client and server of the GUI tests share: the message types,
 * the two-byte header in front of every serialized message, convert (a
 * default struct deserialized from a payload) and result, a reply with a
 * flag saying whether the transaction produced it.
 */
module RPCCommon {
  import opened Common
  import opened TestFrameworkAPI

  datatype MessageType = Request | RequestResponse | Notification

  /** The message type's value on the wire. */
  function TypeByte(t: MessageType): (r: Byte)
    ensures r < 3
    ensures t == Request <==> r == 0
    ensures t == RequestResponse <==> r == 1
  {
    match t
    case Request => 0
    case RequestResponse => 1
    case Notification => 2
  }

  const HEADER_SIZE: nat := 2
  const TYPE_BYTE_OFFSET: nat := 0
  const COMMAND_BYTE_OFFSET: nat := 1
  /** Milliseconds the client waits for a response; the wait is not part of this model. */
  const SOCKET_TRANSACTION_TIMEOUT: nat := 1500

  /** The header: the message type, then the command. */
  function Header(t: MessageType, command: Byte): (r: seq<Byte>)
    ensures |r| == HEADER_SIZE && r[TYPE_BYTE_OFFSET] == TypeByte(t) && r[COMMAND_BYTE_OFFSET] == command
  {
    [TypeByte(t), command]
  }

  /** A whole message: the header for the struct's command, then the serialized struct. */
  function Frame(t: MessageType, m: Message): (r: seq<Byte>)
    ensures |r| >= HEADER_SIZE + 1 && r[..HEADER_SIZE] == Header(t, m.cmd) && r[HEADER_SIZE..] == EncodeMessage(m)
  {
    CommandFirst(m);
    Header(t, m.cmd) + EncodeMessage(m)
  }

  /**
   * convert<T>(data): a value-initialised T deserialized from the payload;
   * None when the payload ends before a field.
   */
  function Convert(k: Kind, data: seq<Byte>): (r: Option<Message>)
    ensures r.Some? ==> KindOf(r.value) == k && |data| >= 1 && r.value.cmd == data[0]
  {
    Decode(data, Default(k))
  }

  /** The payload of a frame converts back to the message framed, whatever the message type. */
  lemma FrameRoundTrip(t: MessageType, m: Message)
    requires Storable(m)
    ensures Convert(KindOf(m), Frame(t, m)[HEADER_SIZE..]) == Some(m)
  {
    assert EncodeMessage(m) + [] == EncodeMessage(m);
    MessageRoundTrip(m, Default(KindOf(m)), []);
  }

  /** result<T>: the reply, valid only when the transaction succeeded, and that flag. */
  datatype Outcome = Outcome(reply: Message, isReady: bool)
  {
    predicate Ready()
    {
      isReady
    }
  }

  /** result(reply): a transaction that produced its reply. */
  function FromReply(reply: Message): (r: Outcome)
    ensures r.Ready() && r.reply == reply
  {
    Outcome(reply, true)
  }

  /** result(): no reply; the reply held is a value-initialised struct. */
  function NotReady(k: Kind): (r: Outcome)
    ensures !r.Ready() && r.reply == Default(k)
  {
    Outcome(Default(k), false)
  }

  /** result(b): the flag as given and a value-initialised reply. */
  function FromFlag(k: Kind, ready: bool): (r: Outcome)
    ensures r.Ready() == ready && r.reply == Default(k)
  {
    Outcome(Default(k), ready)
  }

  /**
   * A handler registered for a command, by identity; the maps of the client
   * and the server hold None where operator[] inserted an empty
   * std::function for a command nobody registered.
   */
  type HandlerId = nat

  /** A call of a registered handler with the payload it was given. */
  datatype Call = Call(handler: HandlerId, payload: seq<Byte>)

  /** A handler is registered for the command: an entry that is not empty. */
  predicate Registered(handlers: map<Byte, Option<HandlerId>>, command: Byte)
  {
    command in handlers && handlers[command].Some?
  }

  /**
   * handlers[command] as operator[] reads it: an absent command gains an
   * empty entry, and who is registered does not change.
   */
  function Touched(handlers: map<Byte, Option<HandlerId>>, command: Byte): (r: map<Byte, Option<HandlerId>>)
    ensures command in r && r.Keys == handlers.Keys + {command}
    ensures forall c :: Registered(r, c) <==> Registered(handlers, c)
    ensures forall c :: c in handlers ==> r[c] == handlers[c]
  {
    if command in handlers then handlers else handlers[command := None]
  }

  /**
   * The call received data causes: the handler registered for its command
   * byte, given the data after the header; nobody when no handler is.
   */
  function Dispatched(handlers: map<Byte, Option<HandlerId>>, data: seq<Byte>): (r: seq<Call>)
    requires |data| >= HEADER_SIZE
    ensures |r| <= 1
    ensures |r| == 1 <==> Registered(handlers, data[COMMAND_BYTE_OFFSET])
    ensures |r| == 1 ==> r[0].payload == data[HEADER_SIZE..]
  {
    var command := data[COMMAND_BYTE_OFFSET];
    if Registered(handlers, command) then [Call(handlers[command].value, data[HEADER_SIZE..])] else []
  }
}
