/**
 * The messages of the GUI test RPC: a request and a reply struct per
 * command, each starting with its command, and their serialize and
 * deserialize overloads, which write and read the command as one byte and
 * then the fields in declaration order with the byte serializer.
 */
module TestFrameworkAPI {
  import opened Common
  import opened Serialize

  /** RPC::Command, an enum over uint8_t. */
  datatype Command = GetButtonState | ButtonClick | ButtonContextMenuClick

  /** The command's value on the wire. */
  function CommandByte(c: Command): (r: Byte)
    ensures r < 3
    ensures c == GetButtonState <==> r == 0
    ensures c == ButtonClick <==> r == 1
  {
    match c
    case GetButtonState => 0
    case ButtonClick => 1
    case ButtonContextMenuClick => 2
  }

  /**
   * The six structs. `cmd` is a Byte rather than a Command because
   * deserialize stores whatever byte it reads into it.
   */
  datatype Message =
    | GetButtonStateRequest(cmd: Byte, buttonName: string)
    | GetButtonStateReply(cmd: Byte, buttonName: string, checked: bool, checkable: bool, enabled: bool,
                          text: string, backgroundColor: U32, fontColor: U32)
    | ButtonClickRequest(cmd: Byte, buttonName: string)
    | ButtonClickReply(cmd: Byte, clicked: bool)
    | ButtonContextMenuClickRequest(cmd: Byte, buttonName: string)
    | ButtonContextMenuClickReply(cmd: Byte, clicked: bool)

  /** Which struct a message is: the static type that picks the C++ overload. */
  datatype Kind = StateRequest | StateReply | ClickRequest | ClickReply | MenuRequest | MenuReply

  function KindOf(m: Message): Kind
  {
    match m
    case GetButtonStateRequest(_, _) => StateRequest
    case GetButtonStateReply(_, _, _, _, _, _, _, _) => StateReply
    case ButtonClickRequest(_, _) => ClickRequest
    case ButtonClickReply(_, _) => ClickReply
    case ButtonContextMenuClickRequest(_, _) => MenuRequest
    case ButtonContextMenuClickReply(_, _) => MenuReply
  }

  /** The command a struct belongs to. */
  function CommandOf(k: Kind): Command
  {
    match k
    case StateRequest => GetButtonState
    case StateReply => GetButtonState
    case ClickRequest => ButtonClick
    case ClickReply => ButtonClick
    case MenuRequest => ButtonContextMenuClick
    case MenuReply => ButtonContextMenuClick
  }

  /**
   * A value-initialised struct (`T{}`): `cmd` takes its default member
   * initializer, the matching command; strings are empty, flags false and
   * colours 0.
   */
  function Default(k: Kind): (r: Message)
    ensures KindOf(r) == k && r.cmd == CommandByte(CommandOf(k))
  {
    var c := CommandByte(CommandOf(k));
    match k
    case StateRequest => GetButtonStateRequest(c, "")
    case StateReply => GetButtonStateReply(c, "", false, false, false, "", 0, 0)
    case ClickRequest => ButtonClickRequest(c, "")
    case ClickReply => ButtonClickReply(c, false)
    case MenuRequest => ButtonContextMenuClickRequest(c, "")
    case MenuReply => ButtonContextMenuClickReply(c, false)
  }

  // ---------------------------------------------------------------- wire format

  /** The values serialize writes, in order: the command byte, then the fields as declared. */
  function Items(m: Message): (r: seq<Item>)
    ensures |r| >= 2 && r[0] == U8Item(m.cmd)
  {
    match m
    case GetButtonStateRequest(c, name) => [U8Item(c), StrItem(name)]
    case GetButtonStateReply(c, name, checked, checkable, enabled, text, background, font) =>
      [U8Item(c), StrItem(name), BoolItem(checked), BoolItem(checkable), BoolItem(enabled),
       StrItem(text), U32Item(background), U32Item(font)]
    case ButtonClickRequest(c, name) => [U8Item(c), StrItem(name)]
    case ButtonClickReply(c, clicked) => [U8Item(c), BoolItem(clicked)]
    case ButtonContextMenuClickRequest(c, name) => [U8Item(c), StrItem(name)]
    case ButtonContextMenuClickReply(c, clicked) => [U8Item(c), BoolItem(clicked)]
  }

  /** The overloads deserialize reads with, in order, for a struct of kind k. */
  function Kinds(k: Kind): seq<Item>
  {
    Items(Default(k))
  }

  /** Every string of the message fits the length prefix and holds only byte chars. */
  predicate Storable(m: Message)
  {
    forall i :: 0 <= i < |Items(m)| ==> Representable(Items(m)[i])
  }

  /** The bytes serialize appends for a message. */
  function EncodeMessage(m: Message): seq<Byte>
  {
    EncodeMany(Encode, Items(m))
  }

  /** The struct of kind k holding the values read. */
  function FromItems(k: Kind, items: seq<Item>): (r: Message)
    requires OfKinds(items, Kinds(k))
    ensures KindOf(r) == k
  {
    match k
    case StateRequest => GetButtonStateRequest(items[0].u8, items[1].s)
    case StateReply =>
      GetButtonStateReply(items[0].u8, items[1].s, items[2].b, items[3].b, items[4].b,
                          items[5].s, items[6].u32, items[7].u32)
    case ClickRequest => ButtonClickRequest(items[0].u8, items[1].s)
    case ClickReply => ButtonClickReply(items[0].u8, items[1].b)
    case MenuRequest => ButtonContextMenuClickRequest(items[0].u8, items[1].s)
    case MenuReply => ButtonContextMenuClickReply(items[0].u8, items[1].b)
  }

  /**
   * deserialize(buffer, item): reads from offset 0 with the overloads of the
   * item's struct and overwrites every field, so only its kind matters.
   * None when the buffer ends before a field (deserialize does not check).
   */
  function Decode(buffer: seq<Byte>, item: Message): (r: Option<Message>)
    ensures r.Some? ==> |buffer| >= 1 && KindOf(r.value) == KindOf(item) && r.value.cmd == buffer[0]
  {
    var k := KindOf(item);
    match ReadItems(buffer, 0, Kinds(k))
    case None => None
    case Some(d) =>
      assert Readable(buffer, 0, Kinds(k)[0]);
      Some(FromItems(k, d.value))
  }

  // ---------------------------------------------------------------- properties

  /** A message's values are of the kinds its struct is read with. */
  lemma ItemsOfKind(m: Message)
    ensures OfKinds(Items(m), Kinds(KindOf(m)))
  {
  }

  /** Reading back the values of a message gives the message. */
  lemma FromItemsOfItems(m: Message)
    ensures FromItems(KindOf(m), Items(m)) == m
  {
    ItemsOfKind(m);
  }

  /**
   * deserialize reads back what serialize wrote, into a struct of any
   * contents, whatever bytes follow.
   */
  lemma MessageRoundTrip(m: Message, item: Message, suffix: seq<Byte>)
    requires Storable(m) && KindOf(item) == KindOf(m)
    ensures Decode(EncodeMessage(m) + suffix, item) == Some(m)
  {
    var data := EncodeMessage(m) + suffix;
    var items := Items(m);
    ItemsOfKind(m);
    assert data == [] + EncodeMany(Encode, items) + suffix;
    ItemsRoundTrip(data, [], items, Kinds(KindOf(m)), suffix, |EncodeMessage(m)|);
    FromItemsOfItems(m);
  }

  /** The command byte comes first. */
  lemma CommandFirst(m: Message)
    ensures |EncodeMessage(m)| >= 1 && EncodeMessage(m)[0] == m.cmd
  {
    var items := Items(m);
    assert EncodeMessage(m) == Encode(items[0]) + EncodeMany(Encode, items[1..]);
  }

  /** A click reply (of either command) is exactly two bytes: the command and the flag. */
  lemma ClickReplyBytes(m: Message)
    requires m.ButtonClickReply? || m.ButtonContextMenuClickReply?
    ensures EncodeMessage(m) == [m.cmd, if m.clicked then 1 else 0]
  {
    TwoItems(U8Item(m.cmd), BoolItem(m.clicked));
  }

  lemma TwoItems(a: Item, b: Item)
    ensures EncodeMany(Encode, [a, b]) == Encode(a) + Encode(b)
  {
    assert [a, b][1..] == [b];
    assert EncodeMany(Encode, [b]) == Encode(b) + EncodeMany(Encode, []);
  }

  /** A GetButtonStateReply is its first four values followed by its last four. */
  lemma StateReplyHalves(m: Message)
    requires m.GetButtonStateReply?
    ensures EncodeMessage(m) == EncodeMany(Encode, [U8Item(m.cmd), StrItem(m.buttonName), BoolItem(m.checked), BoolItem(m.checkable)])
      + EncodeMany(Encode, [BoolItem(m.enabled), StrItem(m.text), U32Item(m.backgroundColor), U32Item(m.fontColor)])
  {
    var first := [U8Item(m.cmd), StrItem(m.buttonName), BoolItem(m.checked), BoolItem(m.checkable)];
    var second := [BoolItem(m.enabled), StrItem(m.text), U32Item(m.backgroundColor), U32Item(m.fontColor)];
    assert Items(m) == first + second;
    EncodeManyAppend(Encode, first, second);
  }

  // ---------------------------------------------------------------- the overloads

  /** serialize(buffer, item): appends the message's bytes and touches nothing before them. */
  method SerializeMessage(buffer: seq<Byte>, m: Message) returns (out: seq<Byte>)
    ensures out == buffer + EncodeMessage(m)
  {
    match m {
      case GetButtonStateRequest(c, name) =>
        out := SerializeTwo(buffer, U8Item(c), StrItem(name));
      case GetButtonStateReply(_, _, _, _, _, _, _, _) =>
        out := SerializeStateReply(buffer, m);
      case ButtonClickRequest(c, name) =>
        out := SerializeTwo(buffer, U8Item(c), StrItem(name));
      case ButtonClickReply(c, clicked) =>
        out := SerializeTwo(buffer, U8Item(c), BoolItem(clicked));
      case ButtonContextMenuClickRequest(c, name) =>
        out := SerializeTwo(buffer, U8Item(c), StrItem(name));
      case ButtonContextMenuClickReply(c, clicked) =>
        out := SerializeTwo(buffer, U8Item(c), BoolItem(clicked));
    }
  }

  /** The two serialize calls of a struct holding the command and one field. */
  method SerializeTwo(buffer: seq<Byte>, a: Item, b: Item) returns (out: seq<Byte>)
    ensures out == buffer + EncodeMany(Encode, [a, b])
  {
    out := Serialize.Serialize(buffer, a);
    out := Serialize.Serialize(out, b);
    TwoItems(a, b);
  }

  /** The eight serialize calls of a GetButtonStateReply. */
  method SerializeStateReply(buffer: seq<Byte>, m: Message) returns (out: seq<Byte>)
    requires m.GetButtonStateReply?
    ensures out == buffer + EncodeMessage(m)
  {
    out := SerializeFour(buffer, U8Item(m.cmd), StrItem(m.buttonName), BoolItem(m.checked), BoolItem(m.checkable));
    out := SerializeFour(out, BoolItem(m.enabled), StrItem(m.text), U32Item(m.backgroundColor), U32Item(m.fontColor));
    StateReplyHalves(m);
  }

  /** Four serialize calls in a row. */
  method SerializeFour(buffer: seq<Byte>, a: Item, b: Item, c: Item, d: Item) returns (out: seq<Byte>)
    ensures out == buffer + EncodeMany(Encode, [a, b, c, d])
  {
    ghost var items := [a, b, c, d];
    out := Serialize.Serialize(buffer, a);
    WriteStep(Encode, items, 0, buffer, buffer, out);
    ghost var w := out;
    out := Serialize.Serialize(out, b);
    WriteStep(Encode, items, 1, buffer, w, out);
    w := out;
    out := Serialize.Serialize(out, c);
    WriteStep(Encode, items, 2, buffer, w, out);
    w := out;
    out := Serialize.Serialize(out, d);
    WriteStep(Encode, items, 3, buffer, w, out);
    assert items[..4] == items;
  }

  /**
   * deserialize(buffer, item): reads the fields of the item's struct from
   * offset 0, advancing the offset past each; the bytes must be there.
   */
  method DeserializeMessage(buffer: seq<Byte>, item: Message) returns (m: Message)
    requires Decode(buffer, item).Some?
    ensures Decode(buffer, item) == Some(m)
  {
    var k := KindOf(item);
    var kinds := Kinds(k);
    var read;
    if k == StateReply {
      read := ReadStateReply(buffer);
    } else {
      read := ReadPair(buffer, kinds);
    }
    m := FromItems(k, read);
  }

  /** The two reads of a struct holding the command and one field. */
  method ReadPair(buffer: seq<Byte>, kinds: seq<Item>) returns (read: seq<Item>)
    requires |kinds| == 2 && ReadItems(buffer, 0, kinds).Some?
    ensures ReadItems(buffer, 0, kinds).value.value == read
  {
    var next;
    read, next := ReadTwo(buffer, 0, kinds);
    assert kinds[2..] == [];
  }

  /** The eight reads of a GetButtonStateReply, two at a time. */
  method ReadStateReply(buffer: seq<Byte>) returns (read: seq<Item>)
    requires ReadItems(buffer, 0, Kinds(StateReply)).Some?
    ensures ReadItems(buffer, 0, Kinds(StateReply)).value.value == read
  {
    var k0 := Kinds(StateReply);
    var k2, k4, k6 := k0[2..], k0[4..], k0[6..];
    assert k0[2..][2..] == k4 && k4[2..] == k6 && k6[2..] == [];
    var r0, n2 := ReadTwo(buffer, 0, k0);
    var r2, n4 := ReadTwo(buffer, n2, k2);
    var r4, n6 := ReadTwo(buffer, n4, k4);
    var r6, n8 := ReadTwo(buffer, n6, k6);
    read := r0 + r2 + r4 + r6;
    assert ReadItems(buffer, 0, k0).value.value == r0 + (r2 + (r4 + r6));
  }

  /**
   * Two reads in a row from offset: the values read, then the offset where
   * the values of the kinds after them begin.
   */
  method ReadTwo(buffer: seq<Byte>, offset: nat, kinds: seq<Item>) returns (read: seq<Item>, next: nat)
    requires |kinds| >= 2 && ReadItems(buffer, offset, kinds).Some?
    ensures |read| == 2 && ReadItems(buffer, next, kinds[2..]).Some?
    ensures ReadItems(buffer, offset, kinds).value.value == read + ReadItems(buffer, next, kinds[2..]).value.value
  {
    var a, n1 := ReadOne(buffer, offset, kinds);
    assert kinds[1..][1..] == kinds[2..];
    var b, n2 := ReadOne(buffer, n1, kinds[1..]);
    read, next := [a, b], n2;
    Associative([a], [b], ReadItems(buffer, next, kinds[2..]).value.value);
    assert [a] + [b] == read;
  }

  /** One deserialize call: the value read, then the offset where the values of the kinds after it begin. */
  method ReadOne(buffer: seq<Byte>, offset: nat, kinds: seq<Item>) returns (x: Item, next: nat)
    requires |kinds| >= 1 && ReadItems(buffer, offset, kinds).Some?
    ensures ReadItems(buffer, next, kinds[1..]).Some?
    ensures ReadItems(buffer, offset, kinds).value.value == [x] + ReadItems(buffer, next, kinds[1..]).value.value
  {
    ReadItemsNext(buffer, offset, kinds);
    x, next := Deserialize(buffer, offset, kinds[0]);
  }
}
