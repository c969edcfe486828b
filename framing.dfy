/**
 * Newline framing of a fixed receive buffer, shared by the socket client, the
 * socket server's client handler and the serial driver. Received bytes are
 * appended at the buffer index; then, while the filled part holds a '\n', the
 * prefix up to and including it is handed on as one frame and the rest is
 * copied to the front of the buffer.
 */
module Framing {
  import opened Common

  const DELIMITER: Byte := 0x0A
  const SOCKET_MAX_PAYLOAD_LENGTH: nat := 4096

  /** What one recv() call returned: the bytes it stored (none when the peer closed), or -1. */
  datatype RecvResult = Received(data: seq<Byte>) | Failed
  {
    /** The return value of recv(). */
    function Count(): (n: int)
      ensures n == 0 <==> this == Received([])
      ensures n < 0 <==> this == Failed
    {
      match this
      case Received(d) => |d|
      case Failed => -1
    }
  }

  /** The position of the first delimiter in s, or |s| when there is none (std::find). */
  function FindDelimiter(s: seq<Byte>): (i: nat)
    ensures i <= |s|
    ensures i < |s| ==> s[i] == DELIMITER
    ensures forall j :: 0 <= j < i ==> s[j] != DELIMITER
  {
    if s == [] then 0
    else if s[0] == DELIMITER then 0
    else 1 + FindDelimiter(s[1..])
  }

  predicate NoDelimiter(s: seq<Byte>)
  {
    forall j :: 0 <= j < |s| ==> s[j] != DELIMITER
  }

  /** A frame: bytes ending with the delimiter, which occurs nowhere else in it. */
  predicate IsFrame(f: seq<Byte>)
  {
    |f| > 0 && f[|f| - 1] == DELIMITER && NoDelimiter(f[..|f| - 1])
  }

  function Concat(fs: seq<seq<Byte>>): seq<Byte>
  {
    if fs == [] then [] else fs[0] + Concat(fs[1..])
  }

  /** The frames cut from pending bytes, in order. */
  function FrameList(pending: seq<Byte>): seq<seq<Byte>>
    decreases |pending|
  {
    var i := FindDelimiter(pending);
    if i == |pending| then [] else [pending[..i + 1]] + FrameList(pending[i + 1..])
  }

  /** The bytes left over once every frame has been cut. */
  function Retained(pending: seq<Byte>): seq<Byte>
    decreases |pending|
  {
    var i := FindDelimiter(pending);
    if i == |pending| then pending else Retained(pending[i + 1..])
  }

  /**
   * The frames and the retained bytes together are exactly the pending bytes;
   * every frame is delimiter-terminated, and no delimiter is retained.
   */
  lemma {:induction false} FramesSound(pending: seq<Byte>)
    ensures Concat(FrameList(pending)) + Retained(pending) == pending
    ensures forall k :: 0 <= k < |FrameList(pending)| ==> IsFrame(FrameList(pending)[k])
    ensures NoDelimiter(Retained(pending))
    decreases |pending|
  {
    var i := FindDelimiter(pending);
    if i < |pending| {
      var f := pending[..i + 1];
      var rest := pending[i + 1..];
      assert f[..|f| - 1] == pending[..i];
      assert IsFrame(f);
      assert pending == f + rest;
      FramesSound(rest);
      FirstFrame(f, rest);
      var fs := FrameList(pending);
      assert fs[1..] == FrameList(rest);
      forall k | 0 <= k < |fs|
        ensures IsFrame(fs[k])
      {
        if k > 0 {
          assert fs[k] == FrameList(rest)[k - 1];
        }
      }
    }
  }

  /** A frame at the front of the pending bytes is the first one cut. */
  lemma FirstFrame(f: seq<Byte>, t: seq<Byte>)
    requires IsFrame(f)
    ensures FrameList(f + t) == [f] + FrameList(t)
    ensures Retained(f + t) == Retained(t)
  {
    var s := f + t;
    assert FindDelimiter(s) == |f| - 1 by {
      assert s[|f| - 1] == DELIMITER;
      forall j | 0 <= j < |f| - 1 ensures s[j] != DELIMITER {
        assert s[j] == f[..|f| - 1][j];
      }
    }
    assert s[..|f|] == f;
    assert s[|f|..] == t;
  }

  /** Conversely, any split into frames followed by delimiter-free bytes is the one FrameList and Retained compute. */
  lemma {:induction false} FramesUnique(fs: seq<seq<Byte>>, rest: seq<Byte>)
    requires forall k :: 0 <= k < |fs| ==> IsFrame(fs[k])
    requires NoDelimiter(rest)
    ensures FrameList(Concat(fs) + rest) == fs && Retained(Concat(fs) + rest) == rest
    decreases |fs|
  {
    if fs == [] {
      assert Concat(fs) + rest == rest;
      assert FindDelimiter(rest) == |rest|;
    } else {
      var f := fs[0];
      assert forall k :: 0 <= k < |fs[1..]| ==> IsFrame(fs[1..][k]) by {
        forall k | 0 <= k < |fs[1..]| ensures IsFrame(fs[1..][k]) {
          assert fs[1..][k] == fs[k + 1];
        }
      }
      FramesUnique(fs[1..], rest);
      ConcatFront(fs, rest);
      FirstFrame(f, Concat(fs[1..]) + rest);
      SplitFront(fs);
    }
  }

  /** The first frame and the concatenation of the others make up the whole. */
  lemma ConcatFront(fs: seq<seq<Byte>>, rest: seq<Byte>)
    requires fs != []
    ensures Concat(fs) + rest == fs[0] + (Concat(fs[1..]) + rest)
  {
  }

  lemma SplitFront<T>(s: seq<T>)
    requires s != []
    ensures [s[0]] + s[1..] == s
  {
  }

  /** std::find over the filled part buf[0..n). */
  method Find(buf: array<Byte>, n: nat) returns (p: nat)
    requires n <= buf.Length
    ensures p == FindDelimiter(buf[..n])
  {
    p := 0;
    while p < n && buf[p] != DELIMITER
      invariant p <= n
      invariant forall j :: 0 <= j < p ==> buf[j] != DELIMITER
    {
      p := p + 1;
    }
    ghost var s := buf[..n];
    assert forall j :: 0 <= j < p ==> s[j] != DELIMITER;
    assert p < n ==> s[p] == DELIMITER;
  }

  /** std::copy(buf + from, buf + n, buf): the bytes in [from, n) move to the front. */
  method ShiftDown(buf: array<Byte>, from: nat, n: nat)
    requires 0 < from <= n <= buf.Length
    modifies buf
    ensures buf[..n - from] == old(buf[from..n])
    ensures buf[n - from..] == old(buf[n - from..])
  {
    var k := 0;
    while k < n - from
      invariant 0 <= k <= n - from
      invariant forall j :: 0 <= j < k ==> buf[j] == old(buf[from + j])
      invariant forall j :: k <= j < buf.Length ==> buf[j] == old(buf[j])
    {
      buf[k] := buf[from + k];
      k := k + 1;
    }
  }

  /**
   * The inner do-while loop: frames are cut from buf[0..idx) until no delimiter
   * is left; the retained bytes end at the front of the buffer.
   */
  method ExtractFrames(buf: array<Byte>, idx: nat) returns (frames: seq<seq<Byte>>, n: nat)
    requires idx <= buf.Length
    modifies buf
    ensures n <= idx
    ensures frames == FrameList(old(buf[..idx]))
    ensures buf[..n] == Retained(old(buf[..idx]))
  {
    ghost var pending := buf[..idx];
    frames := [];
    n := idx;
    while true
      invariant n <= idx
      invariant FrameList(pending) == frames + FrameList(buf[..n])
      invariant Retained(pending) == Retained(buf[..n])
      decreases n
    {
      var found, frame, m := CutFrame(buf, n);
      if !found {
        break;
      }
      frames := frames + [frame];
      n := m;
    }
  }

  /** One round of the do-while loop: find the delimiter; if there is one, hand on the frame and shift the rest. */
  method CutFrame(buf: array<Byte>, n: nat) returns (found: bool, frame: seq<Byte>, m: nat)
    requires n <= buf.Length
    modifies buf
    ensures m <= n && (found ==> m < n)
    ensures found ==> FrameList(old(buf[..n])) == [frame] + FrameList(buf[..m])
    ensures Retained(old(buf[..n])) == Retained(buf[..m])
    ensures !found ==> FrameList(old(buf[..n])) == [] && m == n && Retained(buf[..m]) == buf[..m]
  {
    var p := Find(buf, n);
    found, frame, m := p < n, [], n;
    if found {
      ghost var s := buf[..n];
      frame := buf[..p + 1];
      assert frame == s[..p + 1];
      ShiftDown(buf, p + 1, n);
      m := n - (p + 1);
      assert buf[..m] == s[p + 1..];
    }
  }

  /** recv() storing its bytes at position at of the buffer. */
  method Deposit(buf: array<Byte>, at: nat, data: seq<Byte>)
    requires at + |data| <= buf.Length
    modifies buf
    ensures buf[..at] == old(buf[..at])
    ensures buf[at..at + |data|] == data
  {
    var k := 0;
    while k < |data|
      invariant 0 <= k <= |data|
      invariant forall j :: 0 <= j < at ==> buf[j] == old(buf[j])
      invariant forall j :: 0 <= j < k ==> buf[at + j] == data[j]
    {
      buf[at + k] := data[k];
      k := k + 1;
    }
  }

  /** Where the next recv() stores: a full buffer starts over at 0, dropping its bytes. */
  function StoreAt(size: nat, idx: nat): (at: nat)
    requires idx <= size
    ensures at < size || size == 0
    ensures idx < size ==> at == idx
  {
    if idx == size then 0 else idx
  }

  /**
   * One pass of the delimiter-mode receive loop of the socket client and the
   * client handler: wrap a full buffer, take what recv() returned and cut the
   * frames. closed reports a recv() of 0; the loop then ends.
   */
  method ReceiveStep(buf: array<Byte>, idx: nat, r: RecvResult) returns (frames: seq<seq<Byte>>, n: nat, closed: bool)
    requires idx <= buf.Length
    requires r.Received? ==> |r.data| <= buf.Length - StoreAt(buf.Length, idx)
    modifies buf
    ensures n <= buf.Length
    ensures closed <==> r == Received([])
    ensures r.Received? && r.data != [] ==>
      frames == FrameList(old(buf[..StoreAt(buf.Length, idx)]) + r.data) &&
      buf[..n] == Retained(old(buf[..StoreAt(buf.Length, idx)]) + r.data)
    ensures !(r.Received? && r.data != []) ==>
      frames == [] && n == StoreAt(buf.Length, idx) && buf[..n] == old(buf[..n])
  {
    var at := StoreAt(buf.Length, idx);
    frames, n, closed := [], at, false;
    match r
    case Failed =>
    case Received(data) =>
      if data == [] {
        closed := true;
      } else {
        Deposit(buf, at, data);
        assert buf[..at + |data|] == old(buf[..at]) + data;
        frames, n := ExtractFrames(buf, at + |data|);
      }
  }

  /** Delivering every received byte: frames plus retained bytes account for old pending bytes plus the new ones. */
  lemma NoByteLost(pending: seq<Byte>, data: seq<Byte>)
    ensures Concat(FrameList(pending + data)) + Retained(pending + data) == pending + data
    ensures NoDelimiter(pending) && NoDelimiter(data) ==> FrameList(pending + data) == [] && Retained(pending + data) == pending + data
  {
    FramesSound(pending + data);
    if NoDelimiter(pending) && NoDelimiter(data) {
      var empty: seq<seq<Byte>> := [];
      assert NoDelimiter(pending + data) by {
        forall j | 0 <= j < |pending + data| ensures (pending + data)[j] != DELIMITER {
          if j >= |pending| {
            assert (pending + data)[j] == data[j - |pending|];
          }
        }
      }
      FramesUnique(empty, pending + data);
      assert Concat(empty) + (pending + data) == pending + data;
    }
  }
}
