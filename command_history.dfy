/**
 * The per-port command history of the main window: a std::map from port id
 * to the commands sent on that port, kept to a maximum length, and its
 * persistence image (a one-byte entry count, then per entry in ascending id
 * order the id, a 32-bit command count and the commands as length-prefixed
 * strings).
 */
module CommandHistory {
  import opened Common
  import opened Serialize

  type History = map<Byte, seq<string>>

  /** Only ids up to the number of port handlers are restored. */
  const PORT_HANDLERS_COUNT: Byte := 5

  // ---------------------------------------------------------------- history length

  /**
   * The oldest commands erased one at a time until fewer than max are left:
   * what addToCommandHistory's while loop leaves of the history.
   */
  function KeepNewest(h: seq<string>, max: nat): (r: seq<string>)
    requires max >= 1
    ensures |r| < max && |r| <= |h|
    ensures r == h[|h| - |r|..]
    ensures |h| < max ==> r == h
    ensures |h| >= max ==> |r| == max - 1
  {
    if |h| < max then h else h[|h| - (max - 1)..]
  }

  /** The loop of addToCommandHistory: erase the front while the size is at least max. */
  method TrimHistory(h: seq<string>, max: nat) returns (r: seq<string>)
    requires max >= 1
    ensures r == KeepNewest(h, max)
  {
    r := h;
    while |r| >= max
      invariant |r| <= |h| && r == h[|h| - |r|..]
      invariant |h| >= max ==> |r| >= max - 1
      invariant |h| < max ==> r == h
      decreases |r|
    {
      r := r[1..];
    }
  }

  /** Adding a non-empty command keeps it as the newest one, after the newest of what was there. */
  lemma AddKeepsNewest(h: seq<string>, text: string, max: nat)
    requires max >= 2
    ensures var r := KeepNewest(h + [text], max);
      |r| >= 1 && r[|r| - 1] == text && r[..|r| - 1] == KeepNewest(h, max - 1)
  {
  }

  // ---------------------------------------------------------------- ascending keys

  /** The ids of m from k upwards, in ascending order: the iteration order of std::map. */
  function KeysFrom(m: History, k: nat): (r: seq<Byte>)
    requires k <= 0x100
    ensures forall i :: 0 <= i < |r| ==> r[i] in m && k <= r[i]
    ensures forall i, j :: 0 <= i < j < |r| ==> r[i] < r[j]
    decreases 0x100 - k
  {
    if k == 0x100 then []
    else (if k as Byte in m then [k as Byte] else []) + KeysFrom(m, k + 1)
  }

  function SortedKeys(m: History): (r: seq<Byte>)
  {
    KeysFrom(m, 0)
  }

  /** The ids of m from k upwards, as a set. */
  ghost function IdsFrom(m: History, k: nat): set<Byte>
  {
    set id | id in m && k <= id
  }

  lemma {:induction false} KeysFromCount(m: History, k: nat)
    requires k <= 0x100
    ensures |KeysFrom(m, k)| == |IdsFrom(m, k)|
    decreases 0x100 - k
  {
    if k == 0x100 {
      assert IdsFrom(m, k) == {};
    } else {
      KeysFromCount(m, k + 1);
      var id: Byte := k;
      if id in m {
        assert KeysFrom(m, k) == [id] + KeysFrom(m, k + 1);
        assert id !in IdsFrom(m, k + 1);
        assert IdsFrom(m, k) == {id} + IdsFrom(m, k + 1);
      } else {
        assert KeysFrom(m, k) == KeysFrom(m, k + 1);
        assert IdsFrom(m, k) == IdsFrom(m, k + 1);
      }
    }
  }

  /** The ascending walk visits every entry once: as many ids as the map's size. */
  lemma SortedKeysCount(m: History)
    ensures |SortedKeys(m)| == |m|
  {
    KeysFromCount(m, 0);
    assert IdsFrom(m, 0) == m.Keys;
  }

  /** The values read so far in front of what the rest of the reads give. */
  function Prepend<T>(done: seq<T>, rest: Option<Decoded<seq<T>>>): (r: Option<Decoded<seq<T>>>)
    ensures r.Some? <==> rest.Some?
  {
    match rest
    case None => None
    case Some(d) => Some(Decoded(done + d.value, d.next))
  }

  lemma PrependNothing<T>(rest: Option<Decoded<seq<T>>>)
    ensures Prepend([], rest) == rest
  {
    if rest.Some? {
      assert [] + rest.value.value == rest.value.value;
    }
  }

  lemma PrependTwice<T>(a: seq<T>, b: seq<T>, rest: Option<Decoded<seq<T>>>)
    ensures Prepend(a, Prepend(b, rest)) == Prepend(a + b, rest)
  {
    if rest.Some? {
      assert a + (b + rest.value.value) == (a + b) + rest.value.value;
    }
  }

  /** n records read one after the other from offset, or None when one of them cannot be read. */
  function ReadMany<T>(read: Reader<T>, data: seq<Byte>, offset: nat, n: nat): (r: Option<Decoded<seq<T>>>)
    ensures r.Some? ==> |r.value.value| == n
    decreases n
  {
    if n == 0 then Some(Decoded([], offset))
    else
      match read(data, offset)
      case None => None
      case Some(x) => Prepend([x.value], ReadMany(read, data, x.next, n - 1))
  }

  /** The reader reads x's record back, wherever it sits. */
  ghost predicate ReadsAt<T>(read: Reader<T>, enc: Encoder<T>, prefix: seq<Byte>, x: T, suffix: seq<Byte>)
  {
    read(prefix + enc(x) + suffix, |prefix|) == Some(Decoded(x, |prefix| + |enc(x)|))
  }

  ghost predicate ReadsBack<T>(read: Reader<T>, enc: Encoder<T>, xs: seq<T>)
  {
    forall i, prefix: seq<Byte>, suffix: seq<Byte> {:trigger ReadsAt(read, enc, prefix, xs[i], suffix)} ::
      0 <= i < |xs| ==> ReadsAt(read, enc, prefix, xs[i], suffix)
  }

  lemma ReadManyUnfold<T>(read: Reader<T>, data: seq<Byte>, offset: nat, n: nat, x: Decoded<T>)
    requires n > 0 && read(data, offset) == Some(x)
    ensures ReadMany(read, data, offset, n) == Prepend([x.value], ReadMany(read, data, x.next, n - 1))
  {
  }

  /** While records remain to be read, the next one is there. */
  lemma ReadManyNext<T>(read: Reader<T>, data: seq<Byte>, offset: nat, n: nat, i: nat, done: seq<T>, next: nat)
    requires i < n && ReadMany(read, data, offset, n).Some?
    requires ReadMany(read, data, offset, n) == Prepend(done, ReadMany(read, data, next, n - i))
    ensures read(data, next).Some?
  {
  }

  /** Reading one more record moves it from what remains to what is done. */
  lemma ReadManyAdvance<T>(read: Reader<T>, data: seq<Byte>, offset: nat, n: nat, i: nat, done: seq<T>, next: nat, x: Decoded<T>)
    requires i < n && read(data, next) == Some(x)
    requires ReadMany(read, data, offset, n) == Prepend(done, ReadMany(read, data, next, n - i))
    ensures ReadMany(read, data, offset, n) == Prepend(done + [x.value], ReadMany(read, data, x.next, n - (i + 1)))
  {
    ReadManyUnfold(read, data, next, n - i, x);
    PrependTwice(done, [x.value], ReadMany(read, data, x.next, n - i - 1));
  }

  /** The first record of a list reads back, and the rest of the list follows it. */
  lemma FirstRecord<T>(read: Reader<T>, enc: Encoder<T>, data: seq<Byte>, prefix: seq<Byte>, xs: seq<T>, suffix: seq<Byte>)
    requires xs != [] && ReadsBack(read, enc, xs)
    requires data == prefix + EncodeMany(enc, xs) + suffix
    ensures ReadMany(read, data, |prefix|, |xs|)
      == Prepend([xs[0]], ReadMany(read, data, |prefix| + |enc(xs[0])|, |xs| - 1))
    ensures data == (prefix + enc(xs[0])) + EncodeMany(enc, xs[1..]) + suffix
    ensures ReadsBack(read, enc, xs[1..])
  {
    var rest := EncodeMany(enc, xs[1..]);
    assert data == prefix + enc(xs[0]) + (rest + suffix);
    assert ReadsAt(read, enc, prefix, xs[0], rest + suffix);
    ReadManyUnfold(read, data, |prefix|, |xs|, Decoded(xs[0], |prefix| + |enc(xs[0])|));
    forall i, p: seq<Byte>, q: seq<Byte> | 0 <= i < |xs| - 1
      ensures ReadsAt(read, enc, p, xs[1..][i], q)
    {
      assert xs[1..][i] == xs[i + 1];
      assert ReadsAt(read, enc, p, xs[i + 1], q);
    }
  }

  /** Records written one after the other read back as the same list. */
  lemma {:induction false} ReadManyRoundTrip<T>(read: Reader<T>, enc: Encoder<T>, data: seq<Byte>, prefix: seq<Byte>, xs: seq<T>, suffix: seq<Byte>)
    requires ReadsBack(read, enc, xs)
    requires data == prefix + EncodeMany(enc, xs) + suffix
    ensures ReadMany(read, data, |prefix|, |xs|) == Some(Decoded(xs, |prefix| + |EncodeMany(enc, xs)|))
    decreases |xs|
  {
    if xs != [] {
      var head := enc(xs[0]);
      FirstRecord(read, enc, data, prefix, xs, suffix);
      ReadManyRoundTrip(read, enc, data, prefix + head, xs[1..], suffix);
      assert [xs[0]] + xs[1..] == xs;
    }
  }

  /** A one-byte count, then that many records. */
  function ReadCounted<T>(read: Reader<T>, data: seq<Byte>, offset: nat): (r: Option<Decoded<seq<T>>>)
  {
    if offset + 1 > |data| then None else ReadMany(read, data, offset + 1, data[offset])
  }

  /** A count below 256 and the records after it read back as the same list. */
  lemma CountedRoundTrip<T>(read: Reader<T>, enc: Encoder<T>, data: seq<Byte>, prefix: seq<Byte>, xs: seq<T>, suffix: seq<Byte>, end: nat)
    requires ReadsBack(read, enc, xs) && |xs| < 0x100
    requires data == prefix + ([|xs|] + EncodeMany(enc, xs)) + suffix
    requires end == |prefix| + 1 + |EncodeMany(enc, xs)|
    ensures ReadCounted(read, data, |prefix|) == Some(Decoded(xs, end))
  {
    assert data[|prefix|] == |xs|;
    assert data == (prefix + [|xs|]) + EncodeMany(enc, xs) + suffix;
    ReadManyRoundTrip(read, enc, data, prefix + [|xs|], xs, suffix);
  }

  // ---------------------------------------------------------------- the image

  /** Every command fits the 32-bit length prefix and is made of bytes. */
  predicate Storable(cmds: seq<string>)
  {
    |cmds| < TWO_32 && forall i :: 0 <= i < |cmds| ==> IsByteString(cmds[i]) && |cmds[i]| < TWO_32
  }

  /** One command: a length-prefixed string. */
  function EncodeCommand(c: string): seq<Byte>
  {
    Encode(StrItem(c))
  }

  /** One saved entry: the id read and the commands read for it. */
  datatype Entry = Entry(id: Byte, commands: seq<string>)

  /** One map entry: the id, the (uint32_t) command count, the commands. */
  function EncodeEntry(e: Entry): seq<Byte>
  {
    [e.id] + EncodeU32(ToU32(|e.commands|)) + EncodeMany(EncodeCommand, e.commands)
  }

  /** The entries for the given ids, in that order. */
  function EntriesOf(m: History, keys: seq<Byte>): (r: seq<Entry>)
    requires forall i :: 0 <= i < |keys| ==> keys[i] in m
    ensures |r| == |keys|
    ensures forall i :: 0 <= i < |keys| ==> r[i] == Entry(keys[i], m[keys[i]])
  {
    seq(|keys|, i requires 0 <= i < |keys| => Entry(keys[i], m[keys[i]]))
  }

  /** The (uint8_t) entry count, then every entry in ascending id order. */
  function EncodeHistory(m: History): seq<Byte>
  {
    [ToU8(|m|)] + EncodeMany(EncodeEntry, EntriesOf(m, SortedKeys(m)))
  }

  /** The inner loop of onPersistenceWrite: every command of one port. */
  method WriteCommands(data: seq<Byte>, cmds: seq<string>) returns (out: seq<Byte>)
    ensures out == data + EncodeMany(EncodeCommand, cmds)
  {
    out := data;
    var j := 0;
    while j < |cmds|
      invariant 0 <= j <= |cmds|
      invariant out == data + EncodeMany(EncodeCommand, cmds[..j])
    {
      ghost var before := out;
      out := Serialize.Serialize(out, StrItem(cmds[j]));
      WriteStep(EncodeCommand, cmds, j, data, before, out);
      j := j + 1;
    }
    assert cmds[..j] == cmds;
  }

  /** One entry: id, command count, commands. */
  method WriteEntry(data: seq<Byte>, id: Byte, cmds: seq<string>) returns (out: seq<Byte>)
    ensures out == data + EncodeEntry(Entry(id, cmds))
  {
    out := Serialize.Serialize(data, U8Item(id));
    out := Serialize.Serialize(out, U32Item(ToU32(|cmds|)));
    out := WriteCommands(out, cmds);
  }

  /** The outer loop of onPersistenceWrite: each entry in turn. */
  method WriteEntries(data: seq<Byte>, entries: seq<Entry>) returns (out: seq<Byte>)
    ensures out == data + EncodeMany(EncodeEntry, entries)
  {
    out := data;
    var i := 0;
    while i < |entries|
      invariant 0 <= i <= |entries|
      invariant out == data + EncodeMany(EncodeEntry, entries[..i])
    {
      ghost var before := out;
      out := WriteEntry(out, entries[i].id, entries[i].commands);
      WriteStep(EncodeEntry, entries, i, data, before, out);
      i := i + 1;
    }
    assert entries[..i] == entries;
  }

  /** The history part of onPersistenceWrite: the count, then the map walked in ascending id order. */
  method WriteHistory(data: seq<Byte>, m: History) returns (out: seq<Byte>)
    ensures out == data + EncodeHistory(m)
  {
    out := Serialize.Serialize(data, U8Item(ToU8(|m|)));
    var entries := EntriesOf(m, SortedKeys(m));
    out := WriteEntries(out, entries);
    Associative(data, [ToU8(|m|)], EncodeMany(EncodeEntry, entries));
  }

  // ---------------------------------------------------------------- reading back

  /** One string deserialize at offset, or None when its bytes are not all there. */
  function ReadString(data: seq<Byte>, offset: nat): (r: Option<Decoded<string>>)
  {
    if Readable(data, offset, StrItem("")) then
      var read := DecodeAt(data, offset, StrItem(""));
      Some(Decoded(read.0.s, read.1))
    else None
  }

  /** The id byte, the 32-bit command count and that many commands. */
  function ReadEntry(data: seq<Byte>, offset: nat): (r: Option<Decoded<Entry>>)
  {
    if offset + 5 > |data| then None
    else
      match ReadMany(ReadString, data, offset + 5, ReadU32(data, offset + 1))
      case None => None
      case Some(cmds) => Some(Decoded(Entry(data[offset], cmds.value), cmds.next))
  }

  /** The count byte, then that many entries. */
  function ReadHistory(data: seq<Byte>, offset: nat): (r: Option<Decoded<seq<Entry>>>)
  {
    ReadCounted(ReadEntry, data, offset)
  }

  /** deserialize of one string. */
  method ReadStringAt(data: seq<Byte>, offset: nat) returns (s: string, next: nat)
    requires ReadString(data, offset).Some?
    ensures ReadString(data, offset) == Some(Decoded(s, next))
  {
    var item;
    item, next := Deserialize(data, offset, StrItem(""));
    s := item.s;
  }

  /** The inner loop of onPersistenceRead: n strings, each pushed back in turn. */
  method ReadCommandsAt(data: seq<Byte>, offset: nat, n: nat) returns (cmds: seq<string>, next: nat)
    requires ReadMany(ReadString, data, offset, n).Some?
    ensures ReadMany(ReadString, data, offset, n) == Some(Decoded(cmds, next))
  {
    cmds, next := [], offset;
    var i := 0;
    PrependNothing(ReadMany(ReadString, data, offset, n));
    while i < n
      invariant 0 <= i <= n
      invariant ReadMany(ReadString, data, offset, n) == Prepend(cmds, ReadMany(ReadString, data, next, n - i))
    {
      ReadManyNext(ReadString, data, offset, n, i, cmds, next);
      var command, after := ReadStringAt(data, next);
      ReadManyAdvance(ReadString, data, offset, n, i, cmds, next, Decoded(command, after));
      cmds, next := cmds + [command], after;
      i := i + 1;
    }
    assert cmds + [] == cmds;
  }

  /** The body of the outer loop: the id, the count, the commands. */
  method ReadEntryAt(data: seq<Byte>, offset: nat) returns (e: Entry, next: nat)
    requires ReadEntry(data, offset).Some?
    ensures ReadEntry(data, offset) == Some(Decoded(e, next))
  {
    var id, count;
    id, next := Deserialize(data, offset, U8Item(0));
    count, next := Deserialize(data, next, U32Item(0));
    var cmds;
    cmds, next := ReadCommandsAt(data, next, count.u32);
    e := Entry(id.u8, cmds);
  }

  /** The outer loop of onPersistenceRead: n entries, in the order written. */
  method ReadEntriesAt(data: seq<Byte>, offset: nat, n: nat) returns (entries: seq<Entry>, next: nat)
    requires ReadMany(ReadEntry, data, offset, n).Some?
    ensures ReadMany(ReadEntry, data, offset, n) == Some(Decoded(entries, next))
  {
    entries, next := [], offset;
    var i := 0;
    PrependNothing(ReadMany(ReadEntry, data, offset, n));
    while i < n
      invariant 0 <= i <= n
      invariant ReadMany(ReadEntry, data, offset, n) == Prepend(entries, ReadMany(ReadEntry, data, next, n - i))
    {
      ReadManyNext(ReadEntry, data, offset, n, i, entries, next);
      var e, after := ReadEntryAt(data, next);
      ReadManyAdvance(ReadEntry, data, offset, n, i, entries, next, Decoded(e, after));
      entries, next := entries + [e], after;
      i := i + 1;
    }
    assert entries + [] == entries;
  }

  /** The history part of onPersistenceRead: the count, then the entries. */
  method ReadHistoryAt(data: seq<Byte>, offset: nat) returns (entries: seq<Entry>, next: nat)
    requires ReadHistory(data, offset).Some?
    ensures ReadHistory(data, offset) == Some(Decoded(entries, next))
  {
    HistoryIsCounted(data, offset);
    var count;
    count, next := Deserialize(data, offset, U8Item(0));
    entries, next := ReadEntriesAt(data, next, count.u8);
  }

  /** m_commands_history[port_id] = port_commands, only for ids up to PORT_HANDLERS_COUNT. */
  function Put(h: History, e: Entry): History
  {
    if e.id <= PORT_HANDLERS_COUNT then h[e.id := e.commands] else h
  }

  /** Every entry read, put over h in the order read. */
  function Restore(h: History, entries: seq<Entry>): History
    decreases |entries|
  {
    if entries == [] then h
    else
      var e := entries[0];
      Restore(Put(h, e), entries[1..])
  }

  // ---------------------------------------------------------------- round trip

  lemma StringReadBack(prefix: seq<Byte>, s: string, suffix: seq<Byte>)
    requires IsByteString(s) && |s| < TWO_32
    ensures ReadsAt(ReadString, EncodeCommand, prefix, s, suffix)
  {
    RoundTrip(prefix, StrItem(s), suffix, StrItem(""));
  }

  lemma CommandsReadBack(cmds: seq<string>)
    requires Storable(cmds)
    ensures ReadsBack(ReadString, EncodeCommand, cmds)
  {
    forall i, prefix: seq<Byte>, suffix: seq<Byte> | 0 <= i < |cmds|
      ensures ReadsAt(ReadString, EncodeCommand, prefix, cmds[i], suffix)
    {
      StringReadBack(prefix, cmds[i], suffix);
    }
  }

  lemma EntryReadBackAt(data: seq<Byte>, prefix: seq<Byte>, e: Entry, suffix: seq<Byte>, head: seq<Byte>, body: seq<Byte>, end: nat)
    requires Storable(e.commands)
    requires head == prefix + [e.id] + EncodeU32(|e.commands|)
    requires body == EncodeMany(EncodeCommand, e.commands)
    requires data == head + body + suffix
    requires end == |head| + |body|
    ensures ReadEntry(data, |prefix|) == Some(Decoded(e, end))
  {
    assert |head| == |prefix| + 5;
    assert data == (prefix + [e.id]) + EncodeU32(|e.commands|) + (body + suffix);
    U32RoundTrip(|e.commands|, prefix + [e.id], body + suffix);
    CommandsReadBack(e.commands);
    ReadManyRoundTrip(ReadString, EncodeCommand, data, head, e.commands, suffix);
    assert data[|prefix|] == e.id;
  }

  lemma EntryReadBack(prefix: seq<Byte>, e: Entry, suffix: seq<Byte>)
    requires Storable(e.commands)
    ensures ReadsAt(ReadEntry, EncodeEntry, prefix, e, suffix)
  {
    var head := prefix + [e.id] + EncodeU32(|e.commands|);
    var body := EncodeMany(EncodeCommand, e.commands);
    assert prefix + EncodeEntry(e) + suffix == head + body + suffix;
    EntryReadBackAt(prefix + EncodeEntry(e) + suffix, prefix, e, suffix, head, body, |prefix| + |EncodeEntry(e)|);
  }

  /** The commands of every port can be read back. */
  predicate AllStorable(m: History)
  {
    forall id :: id in m ==> Storable(m[id])
  }

  lemma EntriesReadBack(m: History, keys: seq<Byte>)
    requires AllStorable(m)
    requires forall i :: 0 <= i < |keys| ==> keys[i] in m
    ensures ReadsBack(ReadEntry, EncodeEntry, EntriesOf(m, keys))
  {
    var entries := EntriesOf(m, keys);
    forall i, prefix: seq<Byte>, suffix: seq<Byte> | 0 <= i < |entries|
      ensures ReadsAt(ReadEntry, EncodeEntry, prefix, entries[i], suffix)
    {
      EntryReadBack(prefix, entries[i], suffix);
    }
  }

  /**
   * Read back, the image gives every entry in ascending id order, when the
   * map has fewer than 256 entries (the count is a uint8_t).
   */
  lemma HistoryImage(m: History)
    requires |m| < 0x100
    ensures EncodeHistory(m) == [|EntriesOf(m, SortedKeys(m))|] + EncodeMany(EncodeEntry, EntriesOf(m, SortedKeys(m)))
  {
    SortedKeysCount(m);
  }

  /** The stored history is a counted list of entries. */
  lemma HistoryIsCounted(data: seq<Byte>, offset: nat)
    ensures ReadHistory(data, offset) == ReadCounted(ReadEntry, data, offset)
  {
  }

  lemma HistoryReadBack(data: seq<Byte>, prefix: seq<Byte>, image: seq<Byte>, entries: seq<Entry>, suffix: seq<Byte>, end: nat)
    requires ReadsBack(ReadEntry, EncodeEntry, entries) && |entries| < 0x100
    requires image == [|entries|] + EncodeMany(EncodeEntry, entries)
    requires data == prefix + image + suffix
    requires end == |prefix| + |image|
    ensures ReadHistory(data, |prefix|) == Some(Decoded(entries, end))
  {
    CountedRoundTrip(ReadEntry, EncodeEntry, data, prefix, entries, suffix, end);
    HistoryIsCounted(data, |prefix|);
  }

  /**
   * The image onPersistenceWrite stores reads back, wherever it sits, as every
   * entry of the map in ascending id order, and reading stops right after it.
   */
  lemma HistoryRoundTrip(data: seq<Byte>, prefix: seq<Byte>, m: History, suffix: seq<Byte>, end: nat)
    requires AllStorable(m) && |m| < 0x100
    requires data == prefix + EncodeHistory(m) + suffix
    requires end == |prefix| + |EncodeHistory(m)|
    ensures ReadHistory(data, |prefix|) == Some(Decoded(EntriesOf(m, SortedKeys(m)), end))
  {
    SortedKeysCount(m);
    EntriesReadBack(m, SortedKeys(m));
    HistoryImage(m);
    HistoryReadBack(data, prefix, EncodeHistory(m), EntriesOf(m, SortedKeys(m)), suffix, end);
  }

  /** The ids of m from k up to PORT_HANDLERS_COUNT with their commands. */
  function RestorableFrom(m: History, k: nat): (r: History)
    ensures forall id :: id in r <==> id in m && k <= id <= PORT_HANDLERS_COUNT
  {
    map id | id in m && k <= id <= PORT_HANDLERS_COUNT :: m[id]
  }

  /** Putting entry k over h first, then the entries above k, is putting the entries from k over h. */
  lemma MergeStep(h: History, m: History, k: Byte)
    requires k in m
    ensures Put(h, Entry(k, m[k])) + RestorableFrom(m, k + 1) == h + RestorableFrom(m, k)
  {
  }

  /** RestorableFrom from k is RestorableFrom from k + 1 when k is not an id of m. */
  lemma RestorableSkip(m: History, k: nat)
    requires k < 0x100 && k !in m
    ensures RestorableFrom(m, k) == RestorableFrom(m, k + 1)
  {
    assert forall id :: id in RestorableFrom(m, k) <==> id in RestorableFrom(m, k + 1);
  }

  /** The step of RestoreFrom for an id of m. */
  lemma PresentStep(h: History, m: History, id: Byte)
    requires id in m
    requires Restore(Put(h, Entry(id, m[id])), EntriesOf(m, KeysFrom(m, id + 1)))
      == Put(h, Entry(id, m[id])) + RestorableFrom(m, id + 1)
    ensures Restore(h, EntriesOf(m, KeysFrom(m, id))) == h + RestorableFrom(m, id)
  {
    var keys := KeysFrom(m, id);
    var entries := EntriesOf(m, keys);
    var rest := EntriesOf(m, KeysFrom(m, id + 1));
    assert keys == [id] + KeysFrom(m, id + 1);
    assert entries[0] == Entry(id, m[id]);
    assert entries[1..] == rest;
    assert Restore(h, entries) == Restore(Put(h, Entry(id, m[id])), rest);
    MergeStep(h, m, id);
  }

  /** The step of RestoreFrom for a value that is not an id of m. */
  lemma AbsentStep(h: History, m: History, k: nat)
    requires k < 0x100 && k !in m
    requires Restore(h, EntriesOf(m, KeysFrom(m, k + 1))) == h + RestorableFrom(m, k + 1)
    ensures Restore(h, EntriesOf(m, KeysFrom(m, k))) == h + RestorableFrom(m, k)
  {
    assert KeysFrom(m, k) == KeysFrom(m, k + 1);
    RestorableSkip(m, k);
  }

  lemma {:induction false} RestoreFrom(h: History, m: History, k: nat)
    requires k <= 0x100
    ensures Restore(h, EntriesOf(m, KeysFrom(m, k))) == h + RestorableFrom(m, k)
    decreases 0x100 - k
  {
    if k < 0x100 {
      var id: Byte := k;
      if id in m {
        RestoreFrom(Put(h, Entry(id, m[id])), m, k + 1);
        PresentStep(h, m, id);
      } else {
        RestoreFrom(h, m, k + 1);
        AbsentStep(h, m, k);
      }
    } else {
      assert RestorableFrom(m, k) == map[];
      assert h + map[] == h;
      assert EntriesOf(m, KeysFrom(m, k)) == [];
    }
  }

  /**
   * Restoring what was written gives the old history with the saved commands
   * of every id up to PORT_HANDLERS_COUNT put over it; other ids are dropped.
   */
  lemma RestoreSaved(h: History, m: History)
    ensures Restore(h, EntriesOf(m, SortedKeys(m))) == h + RestorableFrom(m, 0)
  {
    RestoreFrom(h, m, 0);
  }

  /** A history whose ids are all port ids comes back whole. */
  lemma RestoreSavedPorts(m: History)
    requires forall id :: id in m ==> id <= PORT_HANDLERS_COUNT
    ensures Restore(map[], EntriesOf(m, SortedKeys(m))) == m
  {
    RestoreSaved(map[], m);
    assert RestorableFrom(m, 0) == m;
  }
}
