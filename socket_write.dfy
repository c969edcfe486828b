/**
 * The write path shared by the socket client and the server's client handler:
 * the write buffer (an optional 4-byte length header, then the payload) and the
 * loop that hands it to send() until nothing is left or a send fails.
 *
 * send() is an input: cap(k) is what the socket accepts on the k-th call of a
 * write, a value <= 0 standing for a failing call; a call asked for len bytes
 * returns at most len.
 */
module SocketWrite {
  import opened Common
  import opened Serialize
  import SocketHeader
  import Framing

  datatype DataMode = NewLineDelimiter | PayloadHeader

  /** m_write_buffer after write(data, size) filled it: the header in header mode, then data[0..size). */
  function WriteBuffer(mode: DataMode, data: seq<Byte>, size: nat): seq<Byte>
    requires size <= |data|
  {
    (if mode == PayloadHeader then EncodeU32(ToU32(size)) else []) + data[..size]
  }

  /** The receiving side's view: a header-mode buffer announces the payload length and carries the payload after it. */
  lemma WriteBufferLayout(mode: DataMode, data: seq<Byte>, size: nat)
    requires size <= |data|
    ensures mode == NewLineDelimiter ==> WriteBuffer(mode, data, size) == data[..size]
    ensures mode == PayloadHeader ==>
      |WriteBuffer(mode, data, size)| == SocketHeader.HEADER_SIZE + size &&
      ReadU32(WriteBuffer(mode, data, size), 0) == ToU32(size) &&
      WriteBuffer(mode, data, size)[SocketHeader.HEADER_SIZE..] == data[..size]
  {
    if mode == PayloadHeader {
      SocketHeader.HeaderRoundTrip(ToU32(size), data[..size]);
    }
  }

  /** What send() returns when asked for len bytes while the socket takes cap of them. */
  function SendResult(cap: int, len: nat): (r: int)
    ensures r <= len
    ensures cap > 0 && len > 0 ==> 0 < r
  {
    if cap <= 0 then cap else if cap < len then cap else len
  }

  /**
   * The send loop as written: after each send the remaining count drops by the
   * cumulative number of bytes written so far, not by the bytes of this call.
   * The result is (result, bytes handed to send()).
   */
  function SendLoopAsWritten(total: nat, cap: nat -> int, k: nat, written: nat, remaining: int): (bool, nat)
    requires remaining <= total - written
    decreases if remaining > 0 then remaining else 0
  {
    if remaining <= 0 then (true, written)
    else
      var current := SendResult(cap(k), remaining);
      if current <= 0 then (false, written)
      else SendLoopAsWritten(total, cap, k + 1, written + current, remaining - (written + current))
  }

  /** The send loop as intended: the remaining count drops by what this call sent. */
  function SendLoop(total: nat, cap: nat -> int, k: nat, written: nat): (bool, nat)
    requires written <= total
    decreases total - written
  {
    if written == total then (true, written)
    else
      var current := SendResult(cap(k), total - written);
      if current <= 0 then (false, written)
      else SendLoop(total, cap, k + 1, written + current)
  }

  /** The intended loop reports success exactly when every byte was sent, and never sends past the end. */
  lemma {:induction false} SendLoopComplete(total: nat, cap: nat -> int, k: nat, written: nat)
    requires written <= total
    ensures SendLoop(total, cap, k, written).1 <= total
    ensures SendLoop(total, cap, k, written).0 <==> SendLoop(total, cap, k, written).1 == total
    decreases total - written
  {
    if written < total {
      var current := SendResult(cap(k), total - written);
      if current > 0 {
        SendLoopComplete(total, cap, k + 1, written + current);
      }
    }
  }

  /** The as-written loop never sends past the end of the buffer either. */
  lemma {:induction false} SendLoopAsWrittenBounded(total: nat, cap: nat -> int, k: nat, written: nat, remaining: int)
    requires written <= total && remaining <= total - written
    ensures written <= SendLoopAsWritten(total, cap, k, written, remaining).1 <= total
    decreases if remaining > 0 then remaining else 0
  {
    if remaining > 0 {
      var current := SendResult(cap(k), remaining);
      if current > 0 {
        SendLoopAsWrittenBounded(total, cap, k + 1, written + current, remaining - (written + current));
      }
    }
  }

  /**
   * The as-written loop still reports success whenever every byte went out: a
   * failing send can only end it while bytes remain. The converse fails
   * (PartialSendsReportSuccess).
   */
  lemma {:induction false} SendLoopAsWrittenAllSent(total: nat, cap: nat -> int, k: nat, written: nat, remaining: int)
    requires written <= total && remaining <= total - written
    ensures SendLoopAsWritten(total, cap, k, written, remaining).1 == total ==> SendLoopAsWritten(total, cap, k, written, remaining).0
    decreases if remaining > 0 then remaining else 0
  {
    if remaining > 0 {
      var current := SendResult(cap(k), remaining);
      if current > 0 {
        SendLoopAsWrittenAllSent(total, cap, k + 1, written + current, remaining - (written + current));
      }
    }
  }

  /**
   * Three partial sends of a 10-byte buffer (3, 3, then 1 byte) end the loop
   * as written with success after only 7 bytes; the intended loop goes on and
   * sends all 10.
   */
  lemma PartialSendsReportSuccess()
    ensures SendLoopAsWritten(10, k => if k < 2 then 3 else 1, 0, 0, 10) == (true, 7)
    ensures SendLoop(10, k => if k < 2 then 3 else 1, 0, 0) == (true, 10)
  {
    var cap: nat -> int := k => if k < 2 then 3 else 1;
    assert SendLoopAsWritten(10, cap, 2, 6, 1) == (true, 7);
    assert SendLoopAsWritten(10, cap, 1, 3, 7) == (true, 7);
    assert SendLoop(10, cap, 6, 9) == (true, 10);
    assert SendLoop(10, cap, 2, 6) == (true, 10);
  }

  /** The send loop of write() as written; wire is what reached send(). */
  method SendAllAsWritten(buffer: seq<Byte>, cap: nat -> int) returns (result: bool, wire: seq<Byte>)
    ensures (result, |wire|) == SendLoopAsWritten(|buffer|, cap, 0, 0, |buffer|)
    ensures |wire| <= |buffer| && wire == buffer[..|wire|]
  {
    var remaining: int := |buffer|;
    var written: nat := 0;
    var k: nat := 0;
    result, wire := true, [];
    while remaining > 0
      invariant written <= |buffer| && remaining <= |buffer| - written
      invariant wire == buffer[..written]
      invariant SendLoopAsWritten(|buffer|, cap, 0, 0, |buffer|) == SendLoopAsWritten(|buffer|, cap, k, written, remaining)
      decreases remaining
    {
      var current := SendResult(cap(k), remaining);
      k := k + 1;
      if current > 0 {
        wire := wire + buffer[written..written + current];
        written := written + current;
      } else {
        result := false;
        break;
      }
      remaining := remaining - written;
    }
  }

  /** The send loop with the remaining count reduced by each call's own result. */
  method SendAll(buffer: seq<Byte>, cap: nat -> int) returns (result: bool, wire: seq<Byte>)
    ensures (result, |wire|) == SendLoop(|buffer|, cap, 0, 0)
    ensures |wire| <= |buffer| && wire == buffer[..|wire|]
    ensures result <==> wire == buffer
  {
    var written: nat := 0;
    var k: nat := 0;
    result, wire := true, [];
    while written < |buffer|
      invariant written <= |buffer|
      invariant wire == buffer[..written]
      invariant SendLoop(|buffer|, cap, 0, 0) == SendLoop(|buffer|, cap, k, written)
      decreases |buffer| - written
    {
      var current := SendResult(cap(k), |buffer| - written);
      k := k + 1;
      if current > 0 {
        wire := wire + buffer[written..written + current];
        written := written + current;
      } else {
        result := false;
        break;
      }
    }
    SendLoopComplete(|buffer|, cap, 0, 0);
  }

  /**
   * write(data, size): build the buffer; a buffer longer than
   * SOCKET_MAX_PAYLOAD_LENGTH is refused without sending; otherwise the send
   * loop as written hands it to send(). The result is true whenever the whole
   * buffer went out, and also after some partial sends.
   */
  method Write(mode: DataMode, data: seq<Byte>, size: nat, cap: nat -> int) returns (result: bool, wire: seq<Byte>)
    requires size <= |data|
    ensures |WriteBuffer(mode, data, size)| > Framing.SOCKET_MAX_PAYLOAD_LENGTH ==> !result && wire == []
    ensures |WriteBuffer(mode, data, size)| <= Framing.SOCKET_MAX_PAYLOAD_LENGTH ==>
      var total := |WriteBuffer(mode, data, size)|;
      (result, |wire|) == SendLoopAsWritten(total, cap, 0, 0, total)
    ensures |wire| <= |WriteBuffer(mode, data, size)| && wire == WriteBuffer(mode, data, size)[..|wire|]
    ensures wire == WriteBuffer(mode, data, size) ==> result
  {
    var buffer := WriteBuffer(mode, data, size);
    result, wire := false, [];
    if |buffer| <= Framing.SOCKET_MAX_PAYLOAD_LENGTH {
      result, wire := SendAllAsWritten(buffer, cap);
      SendLoopAsWrittenAllSent(|buffer|, cap, 0, 0, |buffer|);
    }
  }
}
