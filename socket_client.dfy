/**
 * SocketClient: a TCP client with a receiving thread. The model keeps the
 * connection state, the socket descriptor, the receive buffer with its index
 * and the listener list. Every system call (socket, setsockopt, inet_pton,
 * connect, send, recv) is replaced by its result, passed in as an input.
 */
module SocketClient {
  import opened Common
  import opened Serialize
  import opened Framing
  import SocketWrite
  import SocketHeader
  import Listeners

  datatype State = Idle | Connecting | Connected | Disconnecting | Closing

  datatype ClientEvent = ServerDisconnected | ServerDataRecv

  /** One notifyListeners(ev, data, size) call. */
  datatype Notification = Notification(event: ClientEvent, data: seq<Byte>, size: nat)

  /** A registered ClientListener pointer; None is a null pointer. */
  type ListenerId = nat

  /** One notification per frame, carrying the frame and its length. */
  function FrameEvents(frames: seq<seq<Byte>>): (evs: seq<Notification>)
    ensures |evs| == |frames|
    ensures forall i :: 0 <= i < |frames| ==> evs[i].event == ServerDataRecv && evs[i].data == frames[i] && evs[i].size == |frames[i]|
  {
    seq(|frames|, i requires 0 <= i < |frames| => Notification(ServerDataRecv, frames[i], |frames[i]|))
  }

  const DISCONNECTED_EVENT := Notification(ServerDisconnected, [], 0)

  class Client {
    const mode: SocketWrite.DataMode
    var state: State
    var sockFd: int
    var ipAddress: string
    var port: U16
    var recvBuffer: array<Byte>
    var recvIdx: nat
    var listeners: seq<Option<ListenerId>>

    /** The receive buffer invariant: the index stays inside the buffer, which in delimiter mode is 4096 bytes long. */
    ghost predicate Valid()
      reads this
    {
      recvIdx <= recvBuffer.Length &&
      (mode == SocketWrite.NewLineDelimiter ==> recvBuffer.Length == SOCKET_MAX_PAYLOAD_LENGTH)
    }

    /** The received bytes still waiting for a delimiter. */
    ghost function Pending(): seq<Byte>
      reads this, recvBuffer
      requires Valid()
    {
      recvBuffer[..recvIdx]
    }

    constructor(mode: SocketWrite.DataMode)
      ensures Valid()
      ensures this.mode == mode && state == Idle && sockFd == -1
      ensures recvBuffer.Length == SOCKET_MAX_PAYLOAD_LENGTH && recvIdx == 0 && listeners == []
    {
      this.mode := mode;
      state := Idle;
      sockFd := -1;
      ipAddress := "";
      port := 0;
      recvBuffer := new Byte[SOCKET_MAX_PAYLOAD_LENGTH](_ => 0);
      recvIdx := 0;
      listeners := [];
    }

    /** isConnected: a connection is being set up or is up. */
    predicate IsConnected()
      reads this
    {
      state == Connecting || state == Connected
    }

    /**
     * connect(ip, port). The inputs are the results of socket(), setsockopt(),
     * inet_pton() and connect(), and whether the receiving thread picked up the
     * new connection within the 500 ms wait.
     */
    method Connect(ip: string, p: U16, socketFd: int, sockoptOk: bool, ptonOk: bool, connectOk: bool, threadStarted: bool)
      returns (result: bool)
      modifies this
      ensures result <==> !old(IsConnected()) && socketFd >= 0 && sockoptOk && ptonOk && connectOk && threadStarted
      ensures old(IsConnected()) ==>
        state == old(state) && sockFd == old(sockFd) && ipAddress == old(ipAddress) && port == old(port)
      ensures !old(IsConnected()) ==> ipAddress == ip && port == p
      ensures !old(IsConnected()) && socketFd >= 0 && !(sockoptOk && ptonOk && connectOk) ==> sockFd == -1 && state == old(state)
      ensures !old(IsConnected()) && socketFd < 0 ==> sockFd == socketFd && state == old(state)
      ensures !old(IsConnected()) && socketFd >= 0 && sockoptOk && ptonOk && connectOk ==>
        sockFd == socketFd && state == (if threadStarted then Connected else Connecting)
      ensures listeners == old(listeners) && recvBuffer == old(recvBuffer) && recvIdx == old(recvIdx)
    {
      result := false;
      if !IsConnected() {
        ipAddress, port := ip, p;
        sockFd := socketFd;
        if sockFd >= 0 {
          if sockoptOk && ptonOk && connectOk {
            state := Connecting;
            if threadStarted {
              state := Connected;
              result := true;
            }
          } else {
            sockFd := -1;
          }
        }
      }
    }

    /** disconnect: asks the receiving thread to stop reading; a client that is not connected is left alone. */
    method Disconnect()
      modifies this
      ensures state == (if old(IsConnected()) then Disconnecting else old(state))
      ensures sockFd == old(sockFd) && listeners == old(listeners) && recvBuffer == old(recvBuffer) && recvIdx == old(recvIdx)
    {
      if IsConnected() {
        state := Disconnecting;
      }
    }

    /** The receiving thread waking up: a connecting client becomes connected and reading starts. */
    method ThreadWakeUp() returns (isStarted: bool)
      modifies this
      ensures isStarted <==> old(state) == Connecting
      ensures state == (if isStarted then Connected else old(state))
      ensures sockFd == old(sockFd) && listeners == old(listeners) && recvBuffer == old(recvBuffer) && recvIdx == old(recvIdx)
    {
      isStarted := state == Connecting;
      if isStarted {
        state := Connected;
      }
    }

    /** The receiving thread once reading has ended: the socket is closed and the client is idle again. */
    method ReadingEnded()
      modifies this
      ensures state == Idle && sockFd == -1
      ensures listeners == old(listeners) && recvBuffer == old(recvBuffer) && recvIdx == old(recvIdx)
    {
      state := Idle;
      sockFd := -1;
    }

    /** addListener: appended, null and duplicates included. */
    method AddListener(l: Option<ListenerId>)
      modifies this
      ensures listeners == old(listeners) + [l]
      ensures Listeners.NonNull(listeners) == Listeners.NonNull(old(listeners)) + (if l.Some? then [l.value] else [])
      ensures state == old(state) && sockFd == old(sockFd) && recvBuffer == old(recvBuffer) && recvIdx == old(recvIdx)
    {
      Listeners.NonNullAppend(listeners, l);
      listeners := listeners + [l];
    }

    /** removeListener: only the first occurrence goes. */
    method RemoveListener(l: Option<ListenerId>)
      modifies this
      ensures listeners == Listeners.RemoveFirst(old(listeners), l)
      ensures state == old(state) && sockFd == old(sockFd) && recvBuffer == old(recvBuffer) && recvIdx == old(recvIdx)
    {
      listeners := Listeners.RemoveFirst(listeners, l);
    }

    /** notifyListeners: the notification goes to every non-null listener, in registration order. */
    method NotifyListeners(n: Notification) returns (deliveries: seq<(ListenerId, Notification)>)
      ensures |deliveries| == |Listeners.NonNull(listeners)|
      ensures forall i :: 0 <= i < |deliveries| ==> deliveries[i] == (Listeners.NonNull(listeners)[i], n)
    {
      deliveries := Listeners.Deliver(listeners, n);
    }

    /** write(data, size) in this client's mode, through the send loop as written: true whenever the whole buffer was sent, and also after some partial sends. */
    method Write(data: seq<Byte>, size: nat, cap: nat -> int) returns (result: bool, wire: seq<Byte>)
      requires size <= |data|
      ensures |SocketWrite.WriteBuffer(mode, data, size)| > SOCKET_MAX_PAYLOAD_LENGTH ==> !result && wire == []
      ensures |SocketWrite.WriteBuffer(mode, data, size)| <= SOCKET_MAX_PAYLOAD_LENGTH ==>
        var total := |SocketWrite.WriteBuffer(mode, data, size)|;
        (result, |wire|) == SocketWrite.SendLoopAsWritten(total, cap, 0, 0, total)
      ensures |wire| <= |SocketWrite.WriteBuffer(mode, data, size)| && wire == SocketWrite.WriteBuffer(mode, data, size)[..|wire|]
      ensures wire == SocketWrite.WriteBuffer(mode, data, size) ==> result
    {
      result, wire := SocketWrite.Write(mode, data, size, cap);
    }

    /**
     * One pass of startDelimiterMode's loop. The recv() result r cannot exceed
     * the room asked for. The returned notifications are the ones raised, in
     * order; closed reports that the loop ends.
     */
    method DelimiterStep(r: RecvResult) returns (events: seq<Notification>, closed: bool)
      requires Valid() && mode == SocketWrite.NewLineDelimiter
      requires r.Received? ==> |r.data| <= SOCKET_MAX_PAYLOAD_LENGTH - StoreAt(recvBuffer.Length, recvIdx)
      modifies this, recvBuffer
      ensures Valid() && recvBuffer == old(recvBuffer)
      ensures closed <==> r == Received([])
      ensures closed ==> events == [DISCONNECTED_EVENT]
      ensures r.Received? && r.data != [] ==>
        events == FrameEvents(FrameList(old(recvBuffer[..StoreAt(recvBuffer.Length, recvIdx)]) + r.data)) &&
        Pending() == Retained(old(recvBuffer[..StoreAt(recvBuffer.Length, recvIdx)]) + r.data)
      ensures r == Failed ==> events == [] && Pending() == old(recvBuffer[..StoreAt(recvBuffer.Length, recvIdx)])
      ensures old(recvIdx) == recvBuffer.Length && r.Received? && r.data != [] ==>
        events == FrameEvents(FrameList(r.data)) && Pending() == Retained(r.data)
      ensures state == old(state) && sockFd == old(sockFd) && listeners == old(listeners)
    {
      if r.Received? && recvIdx == recvBuffer.Length {
        assert recvBuffer[..StoreAt(recvBuffer.Length, recvIdx)] + r.data == r.data;
      }
      var frames, n;
      frames, n, closed := ReceiveStep(recvBuffer, recvIdx, r);
      recvIdx := n;
      events := FrameEvents(frames);
      if closed {
        events := [DISCONNECTED_EVENT];
      }
    }

    /**
     * One pass of startHeaderMode's loop: a 4-byte header read, then, if it
     * was complete, a read of the announced payload into a buffer resized to
     * that length. The payload is reported when recv()'s result, cast to
     * uint32_t, equals the announced length.
     */
    method HeaderStep(header: RecvResult, payload: RecvResult) returns (events: seq<Notification>, closed: bool)
      requires header.Received? ==> |header.data| <= SocketHeader.HEADER_SIZE
      requires header.Count() == SocketHeader.HEADER_SIZE && payload.Received? ==> |payload.data| <= ReadU32(header.data, 0)
      modifies this
      ensures header.Count() != SocketHeader.HEADER_SIZE ==>
        recvBuffer == old(recvBuffer) && closed == (header.Count() == 0) &&
        events == (if closed then [DISCONNECTED_EVENT] else [])
      ensures header.Count() == SocketHeader.HEADER_SIZE ==>
        recvBuffer.Length == ReadU32(header.data, 0) &&
        (payload.Received? ==> recvBuffer[..|payload.data|] == payload.data)
      ensures header.Count() == SocketHeader.HEADER_SIZE && ToU32(payload.Count()) == ReadU32(header.data, 0) ==>
        !closed && events == [Notification(ServerDataRecv, recvBuffer[..], ReadU32(header.data, 0))]
      ensures header.Count() == SocketHeader.HEADER_SIZE && payload.Received? && |payload.data| == ReadU32(header.data, 0) ==>
        events == [Notification(ServerDataRecv, payload.data, |payload.data|)]
      ensures header.Count() == SocketHeader.HEADER_SIZE && ToU32(payload.Count()) != ReadU32(header.data, 0) ==>
        closed == (payload.Count() == 0) && events == (if closed then [DISCONNECTED_EVENT] else [])
      ensures state == old(state) && sockFd == old(sockFd) && listeners == old(listeners) && recvIdx == old(recvIdx)
    {
      events, closed := [], false;
      if header.Count() == SocketHeader.HEADER_SIZE {
        var size := SocketHeader.DecodeMessageLength(header.data);
        recvBuffer := new Byte[size](_ => 0);
        if payload.Received? {
          Deposit(recvBuffer, 0, payload.data);
          assert |payload.data| == size ==> recvBuffer[..] == recvBuffer[..|payload.data|];
        }
        if ToU32(payload.Count()) == size {
          events := [Notification(ServerDataRecv, recvBuffer[..], size)];
        } else if payload.Count() == 0 {
          events, closed := [DISCONNECTED_EVENT], true;
        }
      } else if header.Count() == 0 {
        events, closed := [DISCONNECTED_EVENT], true;
      }
    }
  }
}
