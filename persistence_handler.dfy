/**
 * PersistenceHandler: the binary persistence file. Every registered listener
 * owns one block, written as its name, a NUL byte, a 4-byte little-endian
 * data size and the data; restoring walks the blocks and hands each one to the
 * listeners registered under that block's name.
 */
module PersistenceHandler {
  import opened Common
  import opened Listeners

  /** Each block size is stored on 4 bytes. */
  const PERSISTENCE_DATA_BLOCK_SIZE: nat := 4

  /** A registered listener: its identity and the name its block is stored under. */
  datatype Participant = Participant(id: nat, name: string)

  datatype Block = Block(name: string, data: seq<Byte>)

  /** One call of onPersistenceRead. */
  datatype Delivery = Delivery(to: Participant, data: seq<Byte>)

  // ---------------------------------------------------------------- block size

  /** decodeSize: four bytes, least significant first. */
  function DecodeSize(b: seq<Byte>): (r: U32)
    requires |b| >= 4
  {
    b[0] + (b[1] as int) * 0x100 + (b[2] as int) * 0x1_0000 + (b[3] as int) * 0x100_0000
  }

  /**
   * encodeSize as written: every masked value is cast to uint8_t, which keeps
   * only its lowest byte, and the three upper masks have zero lowest bytes.
   */
  function EncodeSizeAsWritten(size: U32): (r: seq<Byte>)
    ensures r == [size % 0x100, 0, 0, 0]
  {
    [ToU8(size % 0x100), ToU8((size / 0x100 % 0x100) * 0x100),
     ToU8((size / 0x1_0000 % 0x100) * 0x1_0000), ToU8((size / 0x100_0000) * 0x100_0000)]
  }

  /** What decodeSize reads back after the as-written encodeSize: only the low byte survives. */
  lemma EncodeSizeAsWrittenLoses(size: U32)
    ensures DecodeSize(EncodeSizeAsWritten(size)) == size % 0x100
    ensures DecodeSize(EncodeSizeAsWritten(size)) == size <==> size < 0x100
  {
  }

  /** The smallest size that does not survive: a 256-byte block is announced as empty. */
  lemma EncodeSizeAsWrittenCounterexample()
    ensures DecodeSize(EncodeSizeAsWritten(256)) == 0
  {
    EncodeSizeAsWrittenLoses(256);
  }

  /** encodeSize as intended: the little-endian layout decodeSize reads. */
  function EncodeSize(size: U32): (r: seq<Byte>)
    ensures |r| == PERSISTENCE_DATA_BLOCK_SIZE
  {
    [size % 0x100, size / 0x100 % 0x100, size / 0x1_0000 % 0x100, size / 0x100_0000 % 0x100]
  }

  lemma SizeRoundTrip(size: U32)
    ensures DecodeSize(EncodeSize(size)) == size
  {
    var b := EncodeSize(size);
    assert size == (size / 0x100) * 0x100 + size % 0x100;
    assert size / 0x100 == (size / 0x1_0000) * 0x100 + size / 0x100 % 0x100;
    assert size / 0x1_0000 == (size / 0x100_0000) * 0x100 + size / 0x1_0000 % 0x100;
  }

  // ---------------------------------------------------------------- block layout

  function EncodeBlock(b: Block): (r: seq<Byte>)
    ensures |r| == |b.name| + 1 + PERSISTENCE_DATA_BLOCK_SIZE + |b.data|
  {
    StringToBytes(b.name) + [0] + EncodeSize(ToU32(|b.data|)) + b.data
  }

  /** The same block with the as-written size bytes. */
  function EncodeBlockAsWritten(b: Block): seq<Byte>
  {
    StringToBytes(b.name) + [0] + EncodeSizeAsWritten(ToU32(|b.data|)) + b.data
  }

  /** The file save writes: the blocks one after another. */
  function Image(blocks: seq<Block>): seq<Byte>
  {
    if blocks == [] then [] else EncodeBlock(blocks[0]) + Image(blocks[1..])
  }

  /** The file save writes as written: the blocks with the as-written size field. */
  function ImageAsWritten(blocks: seq<Block>): seq<Byte>
  {
    if blocks == [] then [] else EncodeBlockAsWritten(blocks[0]) + ImageAsWritten(blocks[1..])
  }

  /** A block that can be read back: a byte-string name without NUL, a size that fits 32 bits. */
  predicate Storable(b: Block)
  {
    IsByteString(b.name) && (forall i :: 0 <= i < |b.name| ==> b.name[i] != 0 as char) && |b.data| < TWO_32
  }

  /**
   * The blocks restore finds: a name up to the first NUL, a 4-byte size, then
   * that many data bytes, until the end of the buffer. None where restore
   * would read past the end (it does no bounds checks).
   */
  /** The length of the name: the position of the first NUL byte, or |buffer| when there is none. */
  function NameLength(buffer: seq<Byte>): (k: nat)
    ensures k <= |buffer|
    ensures k < |buffer| ==> buffer[k] == 0
    ensures forall j :: 0 <= j < k ==> buffer[j] != 0
  {
    if buffer == [] then 0
    else if buffer[0] == 0 then 0
    else 1 + NameLength(buffer[1..])
  }

  /** The block at the start of the buffer is complete: a NUL, four size bytes, then the data. */
  predicate HeadFits(buffer: seq<Byte>)
  {
    var k := NameLength(buffer);
    k + 1 + PERSISTENCE_DATA_BLOCK_SIZE <= |buffer| &&
    k + 1 + PERSISTENCE_DATA_BLOCK_SIZE + DecodeSize(buffer[k + 1..k + 1 + PERSISTENCE_DATA_BLOCK_SIZE]) <= |buffer|
  }

  /** Where the block at the start of the buffer ends. */
  function HeadEnd(buffer: seq<Byte>): (e: nat)
    requires HeadFits(buffer)
    ensures 0 < e <= |buffer|
  {
    var k := NameLength(buffer);
    k + 1 + PERSISTENCE_DATA_BLOCK_SIZE + DecodeSize(buffer[k + 1..k + 1 + PERSISTENCE_DATA_BLOCK_SIZE])
  }

  /** The block at the start of the buffer. */
  function Head(buffer: seq<Byte>): Block
    requires HeadFits(buffer)
  {
    var k := NameLength(buffer);
    Block(BytesToString(buffer[..k]), buffer[k + 1 + PERSISTENCE_DATA_BLOCK_SIZE..HeadEnd(buffer)])
  }

  function ParseBlocks(buffer: seq<Byte>): Option<seq<Block>>
    decreases |buffer|
  {
    if buffer == [] then Some([])
    else if !HeadFits(buffer) then None
    else
      var tail := ParseBlocks(buffer[HeadEnd(buffer)..]);
      if tail.None? then None else Some([Head(buffer)] + tail.value)
  }

  lemma NameLengthAfterPrefix(a: seq<Byte>, c: seq<Byte>)
    requires 0 !in a
    ensures NameLength(a + [0] + c) == |a|
  {
    var s := a + [0] + c;
    assert s[|a|] == 0;
    assert forall j :: 0 <= j < |a| ==> s[j] == a[j];
  }

  /** restore reads back exactly the blocks save wrote. */
  lemma {:induction false} ParseImage(blocks: seq<Block>)
    requires forall i :: 0 <= i < |blocks| ==> Storable(blocks[i])
    ensures ParseBlocks(Image(blocks)) == Some(blocks)
  {
    if blocks != [] {
      var b := blocks[0];
      var rest := Image(blocks[1..]);
      var buffer := Image(blocks);
      assert buffer == EncodeBlock(b) + rest;
      BlockAtFront(b, rest);
      ParseImage(blocks[1..]);
      assert buffer[HeadEnd(buffer)..] == rest;
      assert blocks == [b] + blocks[1..];
    }
  }

  /** Below 256 bytes of data, the as-written size field is the intended one. */
  lemma {:induction false} SmallImageAsWritten(blocks: seq<Block>)
    requires forall i :: 0 <= i < |blocks| ==> |blocks[i].data| < 0x100
    ensures ImageAsWritten(blocks) == Image(blocks)
  {
    if blocks != [] {
      var size := ToU32(|blocks[0].data|);
      assert EncodeSizeAsWritten(size) == EncodeSize(size);
      SmallImageAsWritten(blocks[1..]);
    }
  }

  /**
   * What save writes as written is read back by restore whenever every block
   * holds fewer than 256 bytes; a larger block is not (ParseAsWrittenCounterexample).
   */
  lemma SmallBlocksRestored(blocks: seq<Block>)
    requires forall i :: 0 <= i < |blocks| ==> Storable(blocks[i]) && |blocks[i].data| < 0x100
    ensures ParseBlocks(ImageAsWritten(blocks)) == Some(blocks)
  {
    SmallImageAsWritten(blocks);
    ParseImage(blocks);
  }

  /** A storable name is written without a NUL byte, so the reader stops right after it. */
  lemma NameHasNoNul(b: Block)
    requires Storable(b)
    ensures 0 !in StringToBytes(b.name)
  {
    var name := StringToBytes(b.name);
    forall i | 0 <= i < |name| ensures name[i] != 0 {
      assert IsByteChar(b.name[i]) && b.name[i] != 0 as char;
    }
  }

  /** A NUL-free name, a size field and that many data bytes, followed by anything, read back as one block. */
  lemma HeadOfLayout(name: seq<Byte>, size: seq<Byte>, data: seq<Byte>, rest: seq<Byte>)
    requires 0 !in name && |size| == PERSISTENCE_DATA_BLOCK_SIZE && DecodeSize(size) == |data|
    ensures HeadFits(name + [0] + size + data + rest)
    ensures HeadEnd(name + [0] + size + data + rest) == |name| + 1 + PERSISTENCE_DATA_BLOCK_SIZE + |data|
    ensures Head(name + [0] + size + data + rest) == Block(BytesToString(name), data)
  {
    var buffer := name + [0] + size + data + rest;
    assert buffer == name + [0] + (size + data + rest);
    NameLengthAfterPrefix(name, size + data + rest);
    var k := |name|;
    assert buffer[k + 1..k + 5] == size;
    assert buffer[k + 5..k + 5 + |data|] == data;
    assert buffer[..k] == name;
  }

  /** A stored block followed by anything is read back as that block, ending where its encoding ends. */
  lemma BlockAtFront(b: Block, rest: seq<Byte>)
    requires Storable(b)
    ensures HeadFits(EncodeBlock(b) + rest)
    ensures HeadEnd(EncodeBlock(b) + rest) == |EncodeBlock(b)|
    ensures Head(EncodeBlock(b) + rest) == b
  {
    assert ToU32(|b.data|) == |b.data|;
    NameHasNoNul(b);
    SizeRoundTrip(|b.data|);
    HeadOfLayout(StringToBytes(b.name), EncodeSize(|b.data|), b.data, rest);
    BytesStringRoundTrip(b.name);
  }

  /** With the as-written encodeSize a 256-byte block never comes back as it was saved. */
  lemma ParseAsWrittenCounterexample(b: Block)
    requires Storable(b) && |b.data| == 256
    ensures ParseBlocks(EncodeBlockAsWritten(b)) != Some([b])
  {
    var name := StringToBytes(b.name);
    var buffer := EncodeBlockAsWritten(b);
    NameHasNoNul(b);
    EncodeSizeAsWrittenCounterexample();
    // The size field announces no data, so the data bytes are read as the start of a next block.
    assert buffer == name + [0] + EncodeSizeAsWritten(256) + [] + b.data;
    HeadOfLayout(name, EncodeSizeAsWritten(256), [], b.data);
  }

  // ---------------------------------------------------------------- delivery

  /** One block handed to every listener registered under its name, in registration order. */
  function DeliverTo(listeners: seq<Participant>, b: Block): (r: seq<Delivery>)
    ensures forall d :: d in r ==> d.to in listeners && d.to.name == b.name && d.data == b.data
  {
    if listeners == [] then []
    else
      (if listeners[0].name == b.name then [Delivery(listeners[0], b.data)] else [])
      + DeliverTo(listeners[1..], b)
  }

  function Deliveries(blocks: seq<Block>, listeners: seq<Participant>): seq<Delivery>
  {
    if blocks == [] then [] else DeliverTo(listeners, blocks[0]) + Deliveries(blocks[1..], listeners)
  }

  lemma DeliveriesCons(done: seq<Delivery>, b: Block, tail: seq<Block>, listeners: seq<Participant>)
    ensures done + Deliveries([b] + tail, listeners) == (done + DeliverTo(listeners, b)) + Deliveries(tail, listeners)
  {
    assert ([b] + tail)[1..] == tail;
  }

  /** What each listener hands to save. */
  function BlocksOf(listeners: seq<Participant>, written: Participant -> seq<Byte>): (r: seq<Block>)
    ensures |r| == |listeners|
    ensures forall i :: 0 <= i < |listeners| ==> r[i] == Block(listeners[i].name, written(listeners[i]))
  {
    seq(|listeners|, i requires 0 <= i < |listeners| => Block(listeners[i].name, written(listeners[i])))
  }

  predicate UniqueNames(listeners: seq<Participant>)
  {
    forall i, j :: 0 <= i < j < |listeners| ==> listeners[i].name != listeners[j].name
  }

  lemma {:induction false} DeliverToUnique(listeners: seq<Participant>, i: nat, data: seq<Byte>)
    requires UniqueNames(listeners) && i < |listeners|
    ensures DeliverTo(listeners, Block(listeners[i].name, data)) == [Delivery(listeners[i], data)]
  {
    var b := Block(listeners[i].name, data);
    if i == 0 {
      NoneDelivered(listeners[1..], b);
    } else {
      DeliverToUnique(listeners[1..], i - 1, data);
    }
  }

  lemma {:induction false} NoneDelivered(listeners: seq<Participant>, b: Block)
    requires forall j :: 0 <= j < |listeners| ==> listeners[j].name != b.name
    ensures DeliverTo(listeners, b) == []
  {
    if listeners != [] {
      NoneDelivered(listeners[1..], b);
    }
  }

  /** Each listener from position `from` on, with the data it wrote, in registration order. */
  function OwnData(listeners: seq<Participant>, written: Participant -> seq<Byte>, from: nat): (r: seq<Delivery>)
    requires from <= |listeners|
    ensures |r| == |listeners| - from
    ensures forall k :: 0 <= k < |r| ==> r[k] == Delivery(listeners[from + k], written(listeners[from + k]))
    decreases |listeners| - from
  {
    if from == |listeners| then []
    else [Delivery(listeners[from], written(listeners[from]))] + OwnData(listeners, written, from + 1)
  }

  /**
   * When listener names are distinct, restoring what save wrote hands every
   * listener exactly the data it wrote, in registration order.
   */
  lemma {:induction false} SaveRestore(listeners: seq<Participant>, written: Participant -> seq<Byte>, from: nat)
    requires UniqueNames(listeners) && from <= |listeners|
    ensures Deliveries(BlocksOf(listeners, written)[from..], listeners) == OwnData(listeners, written, from)
    decreases |listeners| - from
  {
    var blocks := BlocksOf(listeners, written)[from..];
    if from < |listeners| {
      DeliverToUnique(listeners, from, written(listeners[from]));
      SaveRestore(listeners, written, from + 1);
      assert blocks[1..] == BlocksOf(listeners, written)[from + 1..];
    }
  }

  // ---------------------------------------------------------------- the handler

  class Handler {
    const registry: ListenerList<Participant>

    constructor()
      ensures fresh(registry) && registry.listeners == []
    {
      registry := new ListenerList<Participant>();
    }

    /**
     * save: when the file can be opened, every listener's block is written in
     * registration order, with the size field of encodeSize as written, and
     * the result is true; otherwise nothing is written. `written` stands for
     * the listeners' onPersistenceWrite.
     */
    method Save(fileOpened: bool, written: Participant -> seq<Byte>) returns (result: bool, file: seq<Byte>)
      ensures result == fileOpened
      ensures file == if fileOpened then ImageAsWritten(BlocksOf(registry.listeners, written)) else []
    {
      result, file := false, [];
      if fileOpened {
        var listeners := registry.listeners;
        var blocks := BlocksOf(listeners, written);
        var i := |listeners|;
        // The image is built back to front so that each step prepends one block.
        while i > 0
          invariant 0 <= i <= |listeners|
          invariant file == ImageAsWritten(blocks[i..])
        {
          i := i - 1;
          var data := written(listeners[i]);
          var name := StringToBytes(listeners[i].name);
          var block := name + [0] + EncodeSizeAsWritten(ToU32(|data|)) + data;
          assert blocks[i..][1..] == blocks[i + 1..];
          file := block + file;
        }
        assert blocks[0..] == blocks;
        result := true;
      }
    }

    /**
     * restore: None is a file that cannot be opened. A missing or empty file
     * gives false and no delivery; otherwise every block goes to the listeners
     * with its name and the result is true.
     */
    method Restore(file: Option<seq<Byte>>) returns (result: bool, deliveries: seq<Delivery>)
      requires file.Some? ==> ParseBlocks(file.value).Some?
      ensures result <==> file.Some? && file.value != []
      ensures deliveries == if result then Deliveries(ParseBlocks(file.value).value, registry.listeners) else []
    {
      result, deliveries := false, [];
      if file.Some? && file.value != [] {
        deliveries := DeliverBlocks(file.value, registry.listeners);
        result := true;
      }
    }
  }

  /** restore's walk over the blocks, each one handed to the listeners with its name. */
  method DeliverBlocks(buffer: seq<Byte>, listeners: seq<Participant>) returns (deliveries: seq<Delivery>)
    requires ParseBlocks(buffer).Some?
    ensures deliveries == Deliveries(ParseBlocks(buffer).value, listeners)
  {
    ghost var all := ParseBlocks(buffer).value;
    ghost var remaining := all;
    deliveries := [];
    var pos := 0;
    assert buffer[pos..] == buffer;
    while pos != |buffer|
      invariant 0 <= pos <= |buffer|
      invariant ParseBlocks(buffer[pos..]) == Some(remaining)
      invariant deliveries + Deliveries(remaining, listeners) == Deliveries(all, listeners)
      decreases |buffer| - pos
    {
      HeadOfParse(buffer, pos);
      var block, next := ReadBlock(buffer, pos);
      ParseStep(buffer, pos, block, next);
      ghost var tail := ParseBlocks(buffer[next..]).value;
      DeliveriesCons(deliveries, block, tail, listeners);
      deliveries := deliveries + DeliverTo(listeners, block);
      remaining := tail;
      pos := next;
    }
    assert buffer[pos..] == [];
  }

  /** A well-formed non-empty buffer starts with a complete block. */
  lemma HeadOfParse(buffer: seq<Byte>, pos: nat)
    requires pos < |buffer| && ParseBlocks(buffer[pos..]).Some?
    ensures HeadFits(buffer[pos..])
  {
  }

  /** After the block at pos, well-formed blocks follow from where it ends. */
  lemma ParseStep(buffer: seq<Byte>, pos: nat, block: Block, next: nat)
    requires pos < |buffer| && ParseBlocks(buffer[pos..]).Some? && HeadFits(buffer[pos..])
    requires block == Head(buffer[pos..]) && next == pos + HeadEnd(buffer[pos..])
    ensures pos < next <= |buffer| && ParseBlocks(buffer[next..]).Some?
    ensures ParseBlocks(buffer[pos..]).value == [block] + ParseBlocks(buffer[next..]).value
  {
    var rest := buffer[pos..];
    assert buffer[next..] == rest[HeadEnd(rest)..];
  }

  /** One turn of restore's loop: the name up to NUL, the size, the data, and where the next block starts. */
  method ReadBlock(buffer: seq<Byte>, pos: nat) returns (block: Block, next: nat)
    requires pos <= |buffer| && HeadFits(buffer[pos..])
    ensures block == Head(buffer[pos..]) && next == pos + HeadEnd(buffer[pos..])
  {
    var k := FindNul(buffer, pos);
    HeadAt(buffer, pos, k);
    var start := k + 1 + PERSISTENCE_DATA_BLOCK_SIZE;
    var size := DecodeSize(buffer[k + 1..start]);
    next := start + size;
    block := Block(BytesToString(buffer[pos..k]), buffer[start..next]);
  }

  /** The block at the front of buffer[pos..], read off buffer itself once the NUL at k is found. */
  lemma HeadAt(buffer: seq<Byte>, pos: nat, k: nat)
    requires pos <= k <= |buffer| && k - pos == NameLength(buffer[pos..]) && HeadFits(buffer[pos..])
    ensures k + 1 + PERSISTENCE_DATA_BLOCK_SIZE <= |buffer|
    ensures pos + HeadEnd(buffer[pos..]) == k + 1 + PERSISTENCE_DATA_BLOCK_SIZE + DecodeSize(buffer[k + 1..k + 1 + PERSISTENCE_DATA_BLOCK_SIZE])
    ensures Head(buffer[pos..]) == Block(BytesToString(buffer[pos..k]), buffer[k + 1 + PERSISTENCE_DATA_BLOCK_SIZE..pos + HeadEnd(buffer[pos..])])
  {
    var rest := buffer[pos..];
    var start := k + 1 + PERSISTENCE_DATA_BLOCK_SIZE;
    assert buffer[k + 1..start] == rest[k - pos + 1..k - pos + 1 + PERSISTENCE_DATA_BLOCK_SIZE];
    assert buffer[pos..k] == rest[..k - pos];
    assert buffer[start..pos + HeadEnd(rest)] == rest[start - pos..HeadEnd(rest)];
  }

  /** The name is read up to its terminating NUL (std::string built from a char pointer). */
  method FindNul(buffer: seq<Byte>, pos: nat) returns (k: nat)
    requires pos <= |buffer|
    ensures pos <= k <= |buffer| && k - pos == NameLength(buffer[pos..])
  {
    k := pos;
    while k < |buffer| && buffer[k] != 0
      invariant pos <= k <= |buffer|
      invariant forall j :: pos <= j < k ==> buffer[j] != 0
    {
      k := k + 1;
    }
    ghost var rest := buffer[pos..];
    assert forall j :: 0 <= j < k - pos ==> rest[j] != 0;
    assert k - pos < |rest| ==> rest[k - pos] == 0;
  }
}
