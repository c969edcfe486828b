/**
 * ClientHandler: the socket server's per-client reader. It owns a fixed
 * 4096-byte receive buffer, never resized, and reports to a single listener,
 * which may be null. recv() and send() results are inputs.
 */
module ClientHandler {
  import opened Common
  import opened Serialize
  import opened Framing
  import SocketWrite
  import SocketHeader
  import Text

  datatype ClientEvent = ClientDisconnected | DataReceived

  /** One onClientEvent(client_id, ev, data, size) call. */
  datatype Notification = Notification(clientId: int, event: ClientEvent, data: seq<Byte>, size: nat)

  /** A ClientHandlerListener pointer; None is a null pointer. */
  type ListenerId = nat

  /** getThreadName: "CLIENT" followed by the decimal client id. */
  function ThreadName(clientId: int): (name: string)
    ensures |name| > 6 && name[..6] == "CLIENT"
    ensures Text.ParseDecimalPrefix(name[6..]) == Some(clientId)
  {
    var name := "CLIENT" + Text.IntToDecimal(clientId);
    assert name[6..] == Text.IntToDecimal(clientId);
    Text.DecimalRoundTrip(clientId);
    name
  }

  class Handler {
    const clientId: int
    const mode: SocketWrite.DataMode
    const listener: Option<ListenerId>
    const recvBuffer: array<Byte>
    var recvIdx: nat

    ghost predicate Valid()
      reads this
    {
      recvBuffer.Length == SOCKET_MAX_PAYLOAD_LENGTH && recvIdx <= recvBuffer.Length
    }

    /** The received bytes still waiting for a delimiter. */
    ghost function Pending(): seq<Byte>
      reads this, recvBuffer
      requires Valid()
    {
      recvBuffer[..recvIdx]
    }

    constructor(clientId: int, mode: SocketWrite.DataMode, listener: Option<ListenerId>)
      ensures Valid() && recvIdx == 0
      ensures this.clientId == clientId && this.mode == mode && this.listener == listener
    {
      this.clientId := clientId;
      this.mode := mode;
      this.listener := listener;
      recvBuffer := new Byte[SOCKET_MAX_PAYLOAD_LENGTH](_ => 0);
      recvIdx := 0;
    }

    /** getClientID: the id the handler was created with. */
    function GetClientID(): (id: int)
      reads this
      ensures id == clientId
    {
      clientId
    }

    /** What reaches the listener: everything when one is set, nothing for a null listener. */
    function Heard(events: seq<Notification>): (r: seq<Notification>)
      reads this
      ensures listener.None? ==> r == []
      ensures listener.Some? ==> r == events
    {
      if listener.Some? then events else []
    }

    /** One DATA_RECEIVED notification per frame. */
    function FrameEvents(frames: seq<seq<Byte>>): (evs: seq<Notification>)
      reads this
      ensures |evs| == |frames|
      ensures forall i :: 0 <= i < |frames| ==> evs[i] == Notification(clientId, DataReceived, frames[i], |frames[i]|)
    {
      seq(|frames|, i requires 0 <= i < |frames| => Notification(clientId, DataReceived, frames[i], |frames[i]|))
    }

    /** write(data, size): the same buffer layout and send loop, as written, as the socket client. */
    method Write(data: seq<Byte>, size: nat, cap: nat -> int) returns (result: bool, wire: seq<Byte>)
      requires size <= |data|
      ensures |SocketWrite.WriteBuffer(mode, data, size)| > SOCKET_MAX_PAYLOAD_LENGTH ==> !result && wire == []
      ensures |SocketWrite.WriteBuffer(mode, data, size)| <= SOCKET_MAX_PAYLOAD_LENGTH ==>
        var total := |SocketWrite.WriteBuffer(mode, data, size)|;
        (result, |wire|) == SocketWrite.SendLoopAsWritten(total, cap, 0, 0, total)
      ensures |wire| <= |SocketWrite.WriteBuffer(mode, data, size)| && wire == SocketWrite.WriteBuffer(mode, data, size)[..|wire|]
      ensures wire == SocketWrite.WriteBuffer(mode, data, size) ==> result
    {
      result, wire := SocketWrite.Write(mode, data, size, cap);
    }

    /**
     * One pass of startDelimiterMode's loop: wrap a full buffer, store the
     * received bytes and report every complete line. closed reports a recv()
     * of 0, after which the loop ends.
     */
    method DelimiterStep(r: RecvResult) returns (heard: seq<Notification>, closed: bool)
      requires Valid()
      requires r.Received? ==> |r.data| <= SOCKET_MAX_PAYLOAD_LENGTH - StoreAt(recvBuffer.Length, recvIdx)
      modifies this, recvBuffer
      ensures Valid()
      ensures closed <==> r == Received([])
      ensures closed ==> heard == Heard([Notification(clientId, ClientDisconnected, [], 0)])
      ensures r.Received? && r.data != [] ==>
        heard == Heard(FrameEvents(FrameList(old(recvBuffer[..StoreAt(recvBuffer.Length, recvIdx)]) + r.data))) &&
        Pending() == Retained(old(recvBuffer[..StoreAt(recvBuffer.Length, recvIdx)]) + r.data)
      ensures old(recvIdx) == recvBuffer.Length && r.Received? && r.data != [] ==>
        heard == Heard(FrameEvents(FrameList(r.data))) && Pending() == Retained(r.data)
      ensures r == Failed ==> heard == [] && Pending() == old(recvBuffer[..StoreAt(recvBuffer.Length, recvIdx)])
    {
      if r.Received? && recvIdx == recvBuffer.Length {
        assert recvBuffer[..StoreAt(recvBuffer.Length, recvIdx)] + r.data == r.data;
      }
      var frames, n;
      frames, n, closed := ReceiveStep(recvBuffer, recvIdx, r);
      recvIdx := n;
      heard := Heard(FrameEvents(frames));
      if closed {
        heard := Heard([Notification(clientId, ClientDisconnected, [], 0)]);
      }
    }

    /**
     * One pass of startHeaderMode's loop. The payload is read into the fixed
     * buffer for as many bytes as the header announces, with no check against
     * the buffer's size; bytes that would land past the buffer are reported as
     * overflow, leaving the buffer as it was. Otherwise the notification
     * carries the whole buffer together with the announced length; the count
     * is compared as uint32_t, so a failed read (-1) matches an announced
     * 0xFFFFFFFF.
     */
    method HeaderStep(header: RecvResult, payload: RecvResult) returns (heard: seq<Notification>, closed: bool, overflow: bool)
      requires Valid()
      requires header.Received? ==> |header.data| <= SocketHeader.HEADER_SIZE
      requires header.Count() == SocketHeader.HEADER_SIZE && payload.Received? ==> |payload.data| <= ReadU32(header.data, 0)
      modifies recvBuffer
      ensures Valid()
      ensures overflow <==> header.Count() == SocketHeader.HEADER_SIZE && payload.Received? && |payload.data| > recvBuffer.Length
      ensures overflow ==> recvBuffer[..] == old(recvBuffer[..]) && !closed && heard == []
      ensures header.Count() != SocketHeader.HEADER_SIZE ==>
        recvBuffer[..] == old(recvBuffer[..]) && closed == (header.Count() == 0) &&
        heard == (if closed then Heard([Notification(clientId, ClientDisconnected, [], 0)]) else [])
      ensures !overflow && header.Count() == SocketHeader.HEADER_SIZE && payload.Received? ==>
        recvBuffer[..|payload.data|] == payload.data
      ensures !overflow && header.Count() == SocketHeader.HEADER_SIZE && ToU32(payload.Count()) == ReadU32(header.data, 0) ==>
        !closed && heard == Heard([Notification(clientId, DataReceived, recvBuffer[..], ReadU32(header.data, 0))])
      ensures !overflow && header.Count() == SocketHeader.HEADER_SIZE && ToU32(payload.Count()) != ReadU32(header.data, 0) ==>
        closed == (payload.Count() == 0) &&
        heard == (if closed then Heard([Notification(clientId, ClientDisconnected, [], 0)]) else [])
    {
      heard, closed, overflow := [], false, false;
      if header.Count() == SocketHeader.HEADER_SIZE {
        var size := SocketHeader.DecodeMessageLength(header.data);
        if payload.Received? && |payload.data| > recvBuffer.Length {
          overflow := true;
          return;
        }
        if payload.Received? {
          Deposit(recvBuffer, 0, payload.data);
        }
        if ToU32(payload.Count()) == size {
          heard := Heard([Notification(clientId, DataReceived, recvBuffer[..], size)]);
        } else if payload.Count() == 0 {
          heard, closed := Heard([Notification(clientId, ClientDisconnected, [], 0)]), true;
        }
      } else if header.Count() == 0 {
        heard, closed := Heard([Notification(clientId, ClientDisconnected, [], 0)]), true;
      }
    }
  }
}
