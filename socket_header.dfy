/**
 * HeaderHandler: the 4-byte payload-length header that precedes a message in
 * header mode. The length is written with the uint32_t serialize overload,
 * most significant byte first.
 */
module SocketHeader {
  import opened Common
  import opened Serialize

  const HEADER_SIZE: nat := 4

  /** getHeaderSize: the header is as long as one serialized uint32_t. */
  function GetHeaderSize(): (r: nat)
    ensures forall n: U32 :: |EncodeU32(n)| == r
  {
    HEADER_SIZE
  }

  /** preapreHeader: the size is appended after whatever output already holds. */
  method PrepareHeader(output: seq<Byte>, dataSize: U32) returns (out: seq<Byte>)
    ensures |out| == |output| + GetHeaderSize()
    ensures out[..|output|] == output
    ensures out[|output|..] == EncodeU32(dataSize)
  {
    out := SerializeU32(output, dataSize);
  }

  /** decodeMessageLength: the first four bytes, read from offset 0; the caller supplies at least four. */
  method DecodeMessageLength(data: seq<Byte>) returns (length: U32)
    requires |data| >= HEADER_SIZE
    ensures length == ReadU32(data, 0)
  {
    var next;
    length, next := DeserializeU32(data, 0);
  }

  /** A header prepared into an empty buffer decodes to the same size, whatever follows it. */
  lemma HeaderRoundTrip(n: U32, payload: seq<Byte>)
    ensures ReadU32(EncodeU32(n) + payload, 0) == n
  {
    U32RoundTrip(n, [], payload);
    assert [] + EncodeU32(n) + payload == EncodeU32(n) + payload;
  }
}
