/**
 * The byte serializer shared by persistence, the socket header and the test
 * RPC: big-endian integers, one-byte booleans, length-prefixed strings, and a
 * generic overload that writes and reads nothing.
 */
module Serialize {
  import opened Common

  /**
   * One value for each overload of serialize/deserialize; the C++ overload is
   * chosen by the static type of the item, here by its constructor.
   * Unsupported stands for every type that only the generic template accepts.
   */
  datatype Item =
    | BoolItem(b: bool)
    | U8Item(u8: Byte)
    | U16Item(u16: U16)
    | U32Item(u32: U32)
    | I8Item(i8: I8)
    | I16Item(i16: I16)
    | I32Item(i32: I32)
    | StrItem(s: string)
    | Unsupported

  /** Both items select the same overload. */
  predicate SameKind(a: Item, b: Item)
  {
    match a
    case BoolItem(_) => b.BoolItem?
    case U8Item(_) => b.U8Item?
    case U16Item(_) => b.U16Item?
    case U32Item(_) => b.U32Item?
    case I8Item(_) => b.I8Item?
    case I16Item(_) => b.I16Item?
    case I32Item(_) => b.I32Item?
    case StrItem(_) => b.StrItem?
    case Unsupported => b.Unsupported?
  }

  /** A string whose length fits the 32-bit length prefix and whose chars are bytes. */
  predicate Representable(item: Item)
  {
    item.StrItem? ==> IsByteString(item.s) && |item.s| < TWO_32
  }

  // ---------------------------------------------------------------- wire format

  function EncodeU16(v: U16): seq<Byte>
  {
    [(v / 0x100) % 0x100, v % 0x100]
  }

  function EncodeU32(v: U32): seq<Byte>
  {
    [(v / 0x100_0000) % 0x100, (v / 0x1_0000) % 0x100, (v / 0x100) % 0x100, v % 0x100]
  }

  /** Two bytes at offset, most significant first. */
  function ReadU16(buffer: seq<Byte>, offset: nat): U16
    requires offset + 2 <= |buffer|
  {
    (buffer[offset] as int) * 0x100 + buffer[offset + 1]
  }

  /** Four bytes at offset, most significant first. */
  function ReadU32(buffer: seq<Byte>, offset: nat): U32
    requires offset + 4 <= |buffer|
  {
    (buffer[offset] as int) * 0x100_0000 + (buffer[offset + 1] as int) * 0x1_0000 + (buffer[offset + 2] as int) * 0x100 + buffer[offset + 3]
  }

  /** The bytes that serialize appends for an item. */
  function Encode(item: Item): (r: seq<Byte>)
    ensures item.StrItem? ==> |r| == 4 + |item.s|
    ensures item.Unsupported? ==> r == []
  {
    match item
    case BoolItem(b) => [if b then 1 else 0]
    case U8Item(v) => [v]
    case U16Item(v) => EncodeU16(v)
    case U32Item(v) => EncodeU32(v)
    case I8Item(v) => [ToU8(v)]
    case I16Item(v) => EncodeU16(ToU16(v))
    case I32Item(v) => EncodeU32(ToU32(v))
    case StrItem(s) => EncodeU32(ToU32(|s|)) + StringToBytes(s)
    case Unsupported => []
  }

  /** deserialize does no bounds checks: the bytes it reads must be there. */
  predicate Readable(buffer: seq<Byte>, offset: nat, item: Item)
  {
    match item
    case BoolItem(_) => offset + 1 <= |buffer|
    case U8Item(_) => offset + 1 <= |buffer|
    case I8Item(_) => offset + 1 <= |buffer|
    case U16Item(_) => offset + 2 <= |buffer|
    case I16Item(_) => offset + 2 <= |buffer|
    case U32Item(_) => offset + 4 <= |buffer|
    case I32Item(_) => offset + 4 <= |buffer|
    case StrItem(_) => offset + 4 <= |buffer| && offset + 4 + ReadU32(buffer, offset) <= |buffer|
    case Unsupported => true
  }

  /**
   * What deserialize leaves in the item and the offset. The item passed in
   * only selects the overload, except for Unsupported, which is left as it is.
   */
  function DecodeAt(buffer: seq<Byte>, offset: nat, item: Item): (Item, nat)
    requires Readable(buffer, offset, item)
  {
    match item
    case BoolItem(_) => (BoolItem(buffer[offset] != 0), offset + 1)
    case U8Item(_) => (U8Item(buffer[offset]), offset + 1)
    case I8Item(_) => (I8Item(ToI8(buffer[offset])), offset + 1)
    case U16Item(_) => (U16Item(ReadU16(buffer, offset)), offset + 2)
    case I16Item(_) => (I16Item(ToI16(ReadU16(buffer, offset))), offset + 2)
    case U32Item(_) => (U32Item(ReadU32(buffer, offset)), offset + 4)
    case I32Item(_) => (I32Item(ToI32(ReadU32(buffer, offset))), offset + 4)
    case StrItem(_) =>
      var n := ReadU32(buffer, offset);
      (StrItem(BytesToString(buffer[offset + 4..offset + 4 + n])), offset + 4 + n)
    case Unsupported => (item, offset)
  }

  // ---------------------------------------------------------------- the overloads

  /** serialize(buffer, item): appends the item's bytes and touches nothing before them. */
  method Serialize(buffer: seq<Byte>, item: Item) returns (out: seq<Byte>)
    ensures out == buffer + Encode(item)
  {
    match item {
      case BoolItem(b) =>
        out := buffer + [if b then 1 else 0];
      case U8Item(v) =>
        out := buffer + [v];
      case U16Item(v) =>
        out := buffer + [(v / 0x100) % 0x100];
        out := out + [v % 0x100];
      case U32Item(v) =>
        out := SerializeU32(buffer, v);
      case I8Item(v) =>
        out := buffer + [ToU8(v)];
      case I16Item(v) =>
        var u := ToU16(v);
        out := buffer + [(u / 0x100) % 0x100];
        out := out + [u % 0x100];
      case I32Item(v) =>
        out := SerializeU32(buffer, ToU32(v));
      case StrItem(s) =>
        out := SerializeU32(buffer, ToU32(|s|));
        out := SerializeChars(out, s);
      case Unsupported =>
        out := buffer;
    }
  }

  /** The chars of a string appended one byte each, after its length. */
  method SerializeChars(buffer: seq<Byte>, s: string) returns (out: seq<Byte>)
    ensures out == buffer + StringToBytes(s)
  {
    out := buffer;
    var i := 0;
    while i < |s|
      invariant 0 <= i <= |s|
      invariant out == buffer + StringToBytes(s)[..i]
    {
      assert StringToBytes(s)[..i + 1] == StringToBytes(s)[..i] + [CharToByte(s[i])];
      out := out + [CharToByte(s[i])];
      i := i + 1;
    }
    assert StringToBytes(s)[..i] == StringToBytes(s);
  }

  method SerializeU32(buffer: seq<Byte>, v: U32) returns (out: seq<Byte>)
    ensures out == buffer + EncodeU32(v)
  {
    out := buffer + [(v / 0x100_0000) % 0x100];
    out := out + [(v / 0x1_0000) % 0x100];
    out := out + [(v / 0x100) % 0x100];
    out := out + [v % 0x100];
  }

  /**
   * deserialize(buffer, offset, item): reads the item's overload at offset and
   * advances offset past what it read.
   */
  method Deserialize(buffer: seq<Byte>, offset: nat, item: Item) returns (result: Item, next: nat)
    requires Readable(buffer, offset, item)
    ensures (result, next) == DecodeAt(buffer, offset, item)
    ensures SameKind(item, result) && next >= offset
  {
    match item {
      case BoolItem(_) =>
        result, next := BoolItem(buffer[offset] != 0), offset + 1;
      case U8Item(_) =>
        result, next := U8Item(buffer[offset]), offset + 1;
      case I8Item(_) =>
        result, next := I8Item(ToI8(buffer[offset])), offset + 1;
      case U16Item(_) =>
        result, next := U16Item((buffer[offset] as int) * 0x100 + buffer[offset + 1]), offset + 2;
      case I16Item(_) =>
        result, next := I16Item(ToI16((buffer[offset] as int) * 0x100 + buffer[offset + 1])), offset + 2;
      case U32Item(_) =>
        var v;
        v, next := DeserializeU32(buffer, offset);
        result := U32Item(v);
      case I32Item(_) =>
        var v;
        v, next := DeserializeU32(buffer, offset);
        result := I32Item(ToI32(v));
      case StrItem(_) =>
        var length;
        length, next := DeserializeU32(buffer, offset);
        var text: string := "";
        var i := 0;
        while i < length
          invariant 0 <= i <= length
          invariant next == offset + 4 + i
          invariant text == BytesToString(buffer[offset + 4..offset + 4 + i])
        {
          text := text + [ByteToChar(buffer[next])];
          assert buffer[offset + 4..offset + 4 + i + 1] == buffer[offset + 4..offset + 4 + i] + [buffer[next]];
          next := next + 1;
          i := i + 1;
        }
        result := StrItem(text);
      case Unsupported =>
        result, next := item, offset;
    }
  }

  method DeserializeU32(buffer: seq<Byte>, offset: nat) returns (v: U32, next: nat)
    requires offset + 4 <= |buffer|
    ensures v == ReadU32(buffer, offset) && next == offset + 4
  {
    v := (buffer[offset] as int) * 0x100_0000;
    v := v + (buffer[offset + 1] as int) * 0x1_0000;
    v := v + (buffer[offset + 2] as int) * 0x100;
    v := v + buffer[offset + 3];
    next := offset + 4;
  }

  // ---------------------------------------------------------------- lists of records

  /** An encoder of one record, and a reader giving the record at an offset and the offset after it. */
  type Encoder<!T> = T -> seq<Byte>
  type Reader<T> = (seq<Byte>, nat) -> Option<Decoded<T>>

  /** A value read from the buffer and the offset after it. */
  datatype Decoded<T> = Decoded(value: T, next: nat)

  lemma Associative<T>(a: seq<T>, b: seq<T>, c: seq<T>)
    ensures a + (b + c) == (a + b) + c
  {
  }

  /** The records one after the other. */
  function EncodeMany<T>(enc: Encoder<T>, xs: seq<T>): seq<Byte>
  {
    if xs == [] then [] else enc(xs[0]) + EncodeMany(enc, xs[1..])
  }

  lemma {:induction false} EncodeManyAppend<T>(enc: Encoder<T>, a: seq<T>, b: seq<T>)
    ensures EncodeMany(enc, a + b) == EncodeMany(enc, a) + EncodeMany(enc, b)
    decreases |a|
  {
    if a != [] {
      assert (a + b)[1..] == a[1..] + b;
      EncodeManyAppend(enc, a[1..], b);
    } else {
      assert a + b == b;
    }
  }

  /** Writing one more record appends its bytes. */
  lemma EncodeManyStep<T>(enc: Encoder<T>, xs: seq<T>, j: nat)
    requires j < |xs|
    ensures EncodeMany(enc, xs[..j + 1]) == EncodeMany(enc, xs[..j]) + enc(xs[j])
  {
    assert xs[..j + 1] == xs[..j] + [xs[j]];
    EncodeManyAppend(enc, xs[..j], [xs[j]]);
    assert EncodeMany(enc, [xs[j]]) == enc(xs[j]) + EncodeMany(enc, []);
  }

  /** The bytes written so far, with one more record appended. */
  lemma WriteStep<T>(enc: Encoder<T>, xs: seq<T>, j: nat, data: seq<Byte>, before: seq<Byte>, after: seq<Byte>)
    requires j < |xs|
    requires before == data + EncodeMany(enc, xs[..j]) && after == before + enc(xs[j])
    ensures after == data + EncodeMany(enc, xs[..j + 1])
  {
    EncodeManyStep(enc, xs, j);
  }

  // ---------------------------------------------------------------- properties

  lemma U16RoundTrip(v: U16, prefix: seq<Byte>, suffix: seq<Byte>)
    ensures ReadU16(prefix + EncodeU16(v) + suffix, |prefix|) == v
  {
    var b := prefix + EncodeU16(v) + suffix;
    assert b[|prefix|] == v / 0x100 && b[|prefix| + 1] == v % 0x100;
  }

  lemma U32RoundTrip(v: U32, prefix: seq<Byte>, suffix: seq<Byte>)
    ensures ReadU32(prefix + EncodeU32(v) + suffix, |prefix|) == v
  {
    var b := prefix + EncodeU32(v) + suffix;
    var p := |prefix|;
    assert b[p] == v / 0x100_0000;
    assert b[p + 1] == (v / 0x1_0000) % 0x100;
    assert b[p + 2] == (v / 0x100) % 0x100;
    assert b[p + 3] == v % 0x100;
    assert v == (v / 0x100) * 0x100 + v % 0x100;
    assert v / 0x100 == (v / 0x1_0000) * 0x100 + (v / 0x100) % 0x100;
    assert v / 0x1_0000 == (v / 0x100_0000) * 0x100 + (v / 0x1_0000) % 0x100;
  }

  /**
   * deserialize reads back what serialize appended, whatever comes before and
   * after it, and the offset advances by exactly the number of bytes appended.
   */
  lemma RoundTrip(prefix: seq<Byte>, item: Item, suffix: seq<Byte>, proto: Item)
    requires SameKind(item, proto) && Representable(item)
    ensures Readable(prefix + Encode(item) + suffix, |prefix|, proto)
    ensures DecodeAt(prefix + Encode(item) + suffix, |prefix|, proto) == (item, |prefix| + |Encode(item)|)
  {
    match item {
      case StrItem(s) =>
        StringRoundTrip(prefix, s, suffix);
        BytesStringRoundTrip(s);
      case Unsupported =>
      case _ =>
        ScalarRoundTrip(prefix, item, suffix, proto);
    }
  }

  lemma ScalarRoundTrip(prefix: seq<Byte>, item: Item, suffix: seq<Byte>, proto: Item)
    requires SameKind(item, proto) && !item.StrItem? && !item.Unsupported?
    ensures Readable(prefix + Encode(item) + suffix, |prefix|, proto)
    ensures DecodeAt(prefix + Encode(item) + suffix, |prefix|, proto) == (item, |prefix| + |Encode(item)|)
  {
    var buffer := prefix + Encode(item) + suffix;
    var p := |prefix|;
    match item {
      case BoolItem(b) =>
        assert buffer[p] == if b then 1 else 0;
      case U8Item(v) =>
        assert buffer[p] == v;
      case I8Item(v) =>
        assert buffer[p] == ToU8(v);
        SignedRoundTrip(v, 0, 0);
      case U16Item(v) =>
        U16RoundTrip(v, prefix, suffix);
      case I16Item(v) =>
        U16RoundTrip(ToU16(v), prefix, suffix);
        SignedRoundTrip(0, v, 0);
      case U32Item(v) =>
        U32RoundTrip(v, prefix, suffix);
      case I32Item(v) =>
        U32RoundTrip(ToU32(v), prefix, suffix);
        SignedRoundTrip(0, 0, v);
    }
  }

  lemma StringRoundTrip(prefix: seq<Byte>, s: string, suffix: seq<Byte>)
    requires IsByteString(s) && |s| < TWO_32
    ensures var buffer := prefix + Encode(StrItem(s)) + suffix;
      |prefix| + 4 <= |buffer| && ReadU32(buffer, |prefix|) == |s| &&
      buffer[|prefix| + 4..|prefix| + 4 + |s|] == StringToBytes(s)
  {
    var bytes := StringToBytes(s);
    var header := EncodeU32(|s|);
    assert ToU32(|s|) == |s|;
    assert Encode(StrItem(s)) == header + bytes;
    var buffer := prefix + (header + bytes) + suffix;
    assert buffer == prefix + header + (bytes + suffix);
    U32RoundTrip(|s|, prefix, bytes + suffix);
    assert buffer[|prefix| + 4..|prefix| + 4 + |s|] == bytes;
  }

  /** deserialize only looks at the bytes from the offset on: reading at offset + k is reading at k in what follows offset. */
  lemma DecodeShift(buffer: seq<Byte>, offset: nat, k: nat, at: nat, item: Item)
    requires offset <= |buffer| && at == offset + k
    ensures Readable(buffer, at, item) == Readable(buffer[offset..], k, item)
    ensures Readable(buffer, at, item) ==>
      && DecodeAt(buffer, at, item).0 == DecodeAt(buffer[offset..], k, item).0
      && DecodeAt(buffer, at, item).1 == DecodeAt(buffer[offset..], k, item).1 + offset
  {
    var tail := buffer[offset..];
    if offset + k + 2 <= |buffer| {
      assert ReadU16(buffer, offset + k) == ReadU16(tail, k);
    }
    if offset + k + 4 <= |buffer| {
      assert ReadU32(buffer, offset + k) == ReadU32(tail, k);
      var n := ReadU32(buffer, offset + k);
      if offset + k + 4 + n <= |buffer| {
        assert buffer[offset + k + 4..offset + k + 4 + n] == tail[k + 4..k + 4 + n];
      }
    }
  }

  /** A string occupies its 4-byte length followed by one byte per char. */
  lemma StringLayout(s: string)
    requires |s| < TWO_32
    ensures Encode(StrItem(s)) == EncodeU32(|s|) + StringToBytes(s)
    ensures ReadU32(Encode(StrItem(s)), 0) == |s|
  {
    assert ToU32(|s|) == |s|;
    var e := Encode(StrItem(s));
    assert e == [] + EncodeU32(|s|) + StringToBytes(s);
    U32RoundTrip(|s|, [], StringToBytes(s));
  }

  // ---------------------------------------------------------------- items in a row

  /** Items of the given kinds. */
  predicate OfKinds(items: seq<Item>, kinds: seq<Item>)
  {
    |items| == |kinds| && forall i :: 0 <= i < |items| ==> SameKind(kinds[i], items[i])
  }

  /** Items of the given kinds deserialized one after the other from offset, or None when one cannot be read. */
  function ReadItems(data: seq<Byte>, offset: nat, kinds: seq<Item>): (r: Option<Decoded<seq<Item>>>)
    ensures r.Some? ==> OfKinds(r.value.value, kinds)
    decreases |kinds|
  {
    if kinds == [] then Some(Decoded([], offset))
    else if !Readable(data, offset, kinds[0]) then None
    else
      var (x, next) := DecodeAt(data, offset, kinds[0]);
      match ReadItems(data, next, kinds[1..])
      case None => None
      case Some(rest) =>
        assert SameKind(kinds[0], x) by { DecodedKind(data, offset, kinds[0]); }
        Some(Decoded([x] + rest.value, rest.next))
  }

  lemma DecodedKind(data: seq<Byte>, offset: nat, kind: Item)
    requires Readable(data, offset, kind)
    ensures SameKind(kind, DecodeAt(data, offset, kind).0)
  {
  }

  /** One item read in front of the items after it. */
  lemma ReadItemsStep(data: seq<Byte>, offset: nat, kinds: seq<Item>, items: seq<Item>, next: nat, end: nat)
    requires kinds != [] && items != [] && Readable(data, offset, kinds[0]) && DecodeAt(data, offset, kinds[0]) == (items[0], next)
    requires ReadItems(data, next, kinds[1..]) == Some(Decoded(items[1..], end))
    ensures ReadItems(data, offset, kinds) == Some(Decoded(items, end))
  {
    assert [items[0]] + items[1..] == items;
  }

  /** Items serialized anywhere in a buffer are deserialized back by kinds of the same kinds. */
  lemma {:induction false} ItemsRoundTrip(data: seq<Byte>, prefix: seq<Byte>, items: seq<Item>, kinds: seq<Item>, suffix: seq<Byte>, end: nat)
    requires OfKinds(items, kinds) && forall i :: 0 <= i < |items| ==> Representable(items[i])
    requires data == prefix + EncodeMany(Encode, items) + suffix
    requires end == |prefix| + |EncodeMany(Encode, items)|
    ensures ReadItems(data, |prefix|, kinds) == Some(Decoded(items, end))
    decreases |items|
  {
    if items != [] {
      var first := Encode(items[0]);
      OthersFollow(data, prefix, items, suffix, end);
      RestOfKinds(items, kinds);
      RoundTripIn(data, prefix, items[0], EncodeMany(Encode, items[1..]) + suffix, kinds[0]);
      ItemsRoundTrip(data, prefix + first, items[1..], kinds[1..], suffix, end);
      ReadItemsStep(data, |prefix|, kinds, items, |prefix + first|, end);
    }
  }

  /** Serialize.RoundTrip, for a buffer known to be the serialized item between prefix and suffix. */
  lemma RoundTripIn(data: seq<Byte>, prefix: seq<Byte>, item: Item, suffix: seq<Byte>, proto: Item)
    requires SameKind(item, proto) && Representable(item)
    requires data == prefix + Encode(item) + suffix
    ensures Readable(data, |prefix|, proto)
    ensures DecodeAt(data, |prefix|, proto) == (item, |prefix + Encode(item)|)
  {
    RoundTrip(prefix, item, suffix, proto);
  }

  /** After the first serialized item come the serialized others. */
  lemma OthersFollow(data: seq<Byte>, prefix: seq<Byte>, items: seq<Item>, suffix: seq<Byte>, end: nat)
    requires items != []
    requires data == prefix + EncodeMany(Encode, items) + suffix
    requires end == |prefix| + |EncodeMany(Encode, items)|
    ensures data == prefix + Encode(items[0]) + EncodeMany(Encode, items[1..]) + suffix
    ensures data == prefix + Encode(items[0]) + (EncodeMany(Encode, items[1..]) + suffix)
    ensures end == |prefix + Encode(items[0])| + |EncodeMany(Encode, items[1..])|
  {
    var first := Encode(items[0]);
    var tail := EncodeMany(Encode, items[1..]);
    assert EncodeMany(Encode, items) == first + tail;
    Associative(prefix, first, tail);
    Associative(prefix + first, tail, suffix);
  }

  lemma RestOfKinds(items: seq<Item>, kinds: seq<Item>)
    requires items != [] && OfKinds(items, kinds) && forall i :: 0 <= i < |items| ==> Representable(items[i])
    ensures SameKind(items[0], kinds[0]) && Representable(items[0])
    ensures OfKinds(items[1..], kinds[1..]) && forall i :: 0 <= i < |items[1..]| ==> Representable(items[1..][i])
  {
    SameKindBack(items[0], kinds[0]);
  }

  lemma SameKindBack(a: Item, b: Item)
    requires SameKind(b, a)
    ensures SameKind(a, b)
  {
  }

  /** A successful read gives the first kind of item, then the rest. */
  lemma ReadItemsNext(data: seq<Byte>, offset: nat, kinds: seq<Item>)
    requires kinds != [] && ReadItems(data, offset, kinds).Some?
    ensures Readable(data, offset, kinds[0])
    ensures var (x, next) := DecodeAt(data, offset, kinds[0]);
      ReadItems(data, next, kinds[1..]).Some?
      && ReadItems(data, offset, kinds) == Some(Decoded([x] + ReadItems(data, next, kinds[1..]).value.value, ReadItems(data, next, kinds[1..]).value.next))
  {
  }
}
