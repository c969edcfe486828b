/**
 * SettingsHandler: the application settings. Every setting of the
 * generated SETTING_GROUPS table has a name, a type (uint32_t, bool or
 * std::string) and a default; values live in one map per type, keyed by the
 * setting's index. Setters report a change and notify the listeners of that
 * setting. The persistence block is a sequence of (name, type name, value)
 * triples in the byte format of Serialize.
 */
module SettingsStore {
  import opened Common
  import opened Serialize
  import opened Listeners

  datatype Value = U32Value(u: U32) | BoolValue(b: bool) | StringValue(s: string)

  /** One DEF_SETTING_GROUP(name, type, default) entry; the type is the default's constructor. */
  datatype SettingGroup = SettingGroup(name: string, default: Value)

  /** getType's answer. */
  datatype SettingType = U32Type | BoolType | StringType | UnknownType

  /** The SETTING_GROUPS table of config/generated/Settings_config.h. */
  const SETTING_GROUPS: seq<SettingGroup> := [
    SettingGroup("Settings_reloadOnFileChange", BoolValue(true)),
    SettingGroup("Settings_fileCheckPeriod", U32Value(5000)),
    SettingGroup("Logger_supportFileLogging", BoolValue(false)),
    SettingGroup("Logger_supportStdoutLogging", BoolValue(false)),
    SettingGroup("Logger_supportSocketLogging", BoolValue(true)),
    SettingGroup("Logger_socketPort", U32Value(5555)),
    SettingGroup("Logger_logfilePath", StringValue("/home/jskowronek/log.log")),
    SettingGroup("Logger_group_MAIN", StringValue("HIGH")),
    SettingGroup("Logger_group_MAIN_GUI", StringValue("HIGH")),
    SettingGroup("Logger_group_SETTINGS", StringValue("HIGH")),
    SettingGroup("Logger_group_UTILITIES", StringValue("HIGH")),
    SettingGroup("Logger_group_SOCK_DRV", StringValue("HIGH")),
    SettingGroup("Logger_group_SERIAL_DRV", StringValue("HIGH")),
    SettingGroup("Logger_group_TRACE_FILTER", StringValue("HIGH")),
    SettingGroup("Logger_group_PORT_HANDLER", StringValue("HIGH")),
    SettingGroup("Logger_group_USER_BTN_HANDLER", StringValue("HIGH")),
    SettingGroup("Logger_group_PERSISTENCE", StringValue("HIGH")),
    SettingGroup("MainApplication_maxTerminalTraces", U32Value(10000)),
    SettingGroup("MainApplication_statusBarTimeout", U32Value(10000)),
    SettingGroup("PortSettingDialog_maxLineEditLength", U32Value(30)),
    SettingGroup("GUI_Dark_WindowBackground", U32Value(3947580)),
    SettingGroup("GUI_Dark_WindowText", U32Value(11842740)),
    SettingGroup("GUI_Dark_TerminalBackground", U32Value(5263440)),
    SettingGroup("GUI_Default_Theme_ID", U32Value(0)),
    SettingGroup("GUI_Dark_Theme_ID", U32Value(1)),
    SettingGroup("GUI_Theme_ID", U32Value(1)),
    SettingGroup("GUI_UserButtons_Tabs", U32Value(1)),
    SettingGroup("GUI_UserButtons_RowsPerTab", U32Value(2)),
    SettingGroup("GUI_UserButtons_ButtonsPerRow", U32Value(5))
  ]

  /** The three maps m_u32_items, m_bool_items and m_string_items. */
  datatype Store = Store(u32s: map<nat, U32>, bools: map<nat, bool>, strings: map<nat, string>)

  /** set_setting<type>(id, v): the map of v's type gets the value; the other maps are untouched. */
  function Set(store: Store, id: nat, v: Value): (r: Store)
    ensures v.U32Value? ==> r == store.(u32s := store.u32s[id := v.u])
    ensures v.BoolValue? ==> r == store.(bools := store.bools[id := v.b])
    ensures v.StringValue? ==> r == store.(strings := store.strings[id := v.s])
  {
    match v
    case U32Value(u) => store.(u32s := store.u32s[id := u])
    case BoolValue(b) => store.(bools := store.bools[id := b])
    case StringValue(s) => store.(strings := store.strings[id := s])
  }

  /**
   * get_setting<type>(id) with the type of `kind`: the stored value, or the
   * value-initialised one (0, false, "") that std::map::operator[] inserts.
   */
  function Get(store: Store, id: nat, kind: Value): (r: Value)
    ensures r.U32Value? == kind.U32Value? && r.BoolValue? == kind.BoolValue? && r.StringValue? == kind.StringValue?
  {
    match kind
    case U32Value(_) => U32Value(if id in store.u32s then store.u32s[id] else 0)
    case BoolValue(_) => BoolValue(if id in store.bools then store.bools[id] else false)
    case StringValue(_) => StringValue(if id in store.strings then store.strings[id] else "")
  }

  /** What operator[] leaves behind: the key is present in the map of `kind`'s type. */
  function Touch(store: Store, id: nat, kind: Value): (r: Store)
    ensures Get(r, id, kind) == Get(store, id, kind)
  {
    Set(store, id, Get(store, id, kind))
  }

  /** The value a setting has in a store, read with the setting's own type. */
  function Current(store: Store, groups: seq<SettingGroup>, id: nat): Value
    requires id < |groups|
  {
    Get(store, id, groups[id].default)
  }

  /** The constructor's defaults for the first n settings. */
  function Defaults(groups: seq<SettingGroup>, n: nat): Store
    requires n <= |groups|
  {
    if n == 0 then Store(map[], map[], map[])
    else Set(Defaults(groups, n - 1), n - 1, groups[n - 1].default)
  }

  /** Every setting has a value in the map of its own type. */
  predicate Complete(store: Store, groups: seq<SettingGroup>)
  {
    forall id :: 0 <= id < |groups| ==>
      match groups[id].default
      case U32Value(_) => id in store.u32s
      case BoolValue(_) => id in store.bools
      case StringValue(_) => id in store.strings
  }

  /** Setting a value of a setting's own type makes it that setting's value. */
  lemma SetOwn(store: Store, groups: seq<SettingGroup>, id: nat, v: Value)
    requires id < |groups| && SameType(v, groups[id].default)
    ensures Current(Set(store, id, v), groups, id) == v
  {
  }

  /** Setting one setting leaves every other setting's value alone. */
  lemma SetOther(store: Store, groups: seq<SettingGroup>, id: nat, v: Value, other: nat)
    requires other < |groups| && other != id
    ensures Current(Set(store, id, v), groups, other) == Current(store, groups, other)
  {
  }

  predicate SameType(a: Value, b: Value)
  {
    a.U32Value? == b.U32Value? && a.BoolValue? == b.BoolValue? && a.StringValue? == b.StringValue?
  }

  /** After the constructor every setting holds its default, each in the map of its own type. */
  lemma {:induction false} DefaultsHold(groups: seq<SettingGroup>, n: nat)
    requires n <= |groups|
    ensures forall id :: 0 <= id < n ==> Current(Defaults(groups, n), groups, id) == groups[id].default
  {
    if n > 0 {
      DefaultsHold(groups, n - 1);
      var before := Defaults(groups, n - 1);
      forall id | 0 <= id < n
        ensures Current(Defaults(groups, n), groups, id) == groups[id].default
      {
        if id < n - 1 {
          SetOther(before, groups, n - 1, groups[n - 1].default, id);
        } else {
          SetOwn(before, groups, n - 1, groups[n - 1].default);
        }
      }
    }
  }

  /** After the constructor's first n steps, settings 0..n have a value in the map of their own type. */
  lemma {:induction false} DefaultsPresent(groups: seq<SettingGroup>, n: nat)
    requires n <= |groups|
    ensures Complete(Defaults(groups, n), groups[..n])
  {
    if n > 0 {
      DefaultsPresent(groups, n - 1);
      var before, after := Defaults(groups, n - 1), Defaults(groups, n);
      forall id | 0 <= id < n
        ensures match groups[id].default
          case U32Value(_) => id in after.u32s
          case BoolValue(_) => id in after.bools
          case StringValue(_) => id in after.strings
      {
        if id < n - 1 {
          assert groups[..n - 1][id] == groups[id];
        }
      }
    }
  }

  // ---------------------------------------------------------------- names

  /** fromString: the index of the first setting with that name, or SETTING_GROUP_MAX (|groups|). */
  function FromString(groups: seq<SettingGroup>, name: string): (r: nat)
    ensures r <= |groups|
    ensures r < |groups| ==> groups[r].name == name
    ensures forall j :: 0 <= j < r ==> groups[j].name != name
  {
    if groups == [] then 0
    else if groups[0].name == name then 0
    else 1 + FromString(groups[1..], name)
  }

  /** No two settings share a name. */
  predicate DistinctNames(groups: seq<SettingGroup>)
  {
    forall i, j :: 0 <= i < j < |groups| ==> groups[i].name != groups[j].name
  }

  /** With distinct names, fromString(toString(id)) is id. */
  lemma FromStringOfName(groups: seq<SettingGroup>, id: nat)
    requires DistinctNames(groups) && id < |groups|
    ensures FromString(groups, groups[id].name) == id
  {
  }

  /** getType: the u32 map is looked at first, then bool, then string. */
  function GetType(store: Store, id: nat): (r: SettingType)
    ensures r == UnknownType <==> id !in store.u32s && id !in store.bools && id !in store.strings
    ensures id in store.u32s ==> r == U32Type
  {
    if id in store.u32s then U32Type
    else if id in store.bools then BoolType
    else if id in store.strings then StringType
    else UnknownType
  }

  // ---------------------------------------------------------------- persistence format

  /** The type names written with each value: the spelling of the type in the table. */
  function TypeName(v: Value): (r: string)
    ensures r == "uint32_t" || r == "bool" || r == "std::string"
  {
    match v
    case U32Value(_) => "uint32_t"
    case BoolValue(_) => "bool"
    case StringValue(_) => "std::string"
  }

  function ValueItem(v: Value): Item
  {
    match v
    case U32Value(u) => U32Item(u)
    case BoolValue(b) => BoolItem(b)
    case StringValue(s) => StrItem(s)
  }

  /** One triple as onPersistenceWrite serializes it. */
  function Record(name: string, v: Value): seq<Byte>
  {
    Encode(StrItem(name)) + Encode(StrItem(TypeName(v))) + Encode(ValueItem(v))
  }

  /** onPersistenceWrite: the triples of settings from..|groups|, in table order. */
  function Image(groups: seq<SettingGroup>, store: Store, from: nat): seq<Byte>
    requires from <= |groups|
    decreases |groups| - from
  {
    if from == |groups| then []
    else Record(groups[from].name, Current(store, groups, from)) + Image(groups, store, from + 1)
  }

  /** One triple read back: the value is None when the type name is not one of the three. */
  datatype Triple = Triple(name: string, typeName: string, value: Option<Value>)

  /**
   * The value after a type name: read with the overload the name selects,
   * nothing read for any other name. None where deserialize would read past
   * the end (the source does not check).
   */
  function ReadValue(data: seq<Byte>, offset: nat, typeName: string): (r: Option<(Option<Value>, nat)>)
    ensures r.Some? ==> offset <= r.value.1 <= |data| || (r.value.1 == offset && r.value.0.None?)
  {
    if typeName == "bool" then
      if Readable(data, offset, BoolItem(false)) then
        var d := DecodeAt(data, offset, BoolItem(false));
        Some((Some(BoolValue(d.0.b)), d.1))
      else None
    else if typeName == "uint32_t" then
      if Readable(data, offset, U32Item(0)) then
        var d := DecodeAt(data, offset, U32Item(0));
        Some((Some(U32Value(d.0.u32)), d.1))
      else None
    else if typeName == "std::string" then
      if Readable(data, offset, StrItem("")) then
        var d := DecodeAt(data, offset, StrItem(""));
        Some((Some(StringValue(d.0.s)), d.1))
      else None
    else Some((None, offset))
  }

  /** The setting name and the type name at offset, and the offset after them. */
  function ReadHeader(data: seq<Byte>, offset: nat): (r: Option<(string, string, nat)>)
    ensures r.Some? ==> offset + 8 <= r.value.2 <= |data|
  {
    if !Readable(data, offset, StrItem("")) then None
    else
      var (name, afterName) := DecodeAt(data, offset, StrItem(""));
      if !Readable(data, afterName, StrItem("")) then None
      else
        var (typeName, afterType) := DecodeAt(data, afterName, StrItem(""));
        Some((name.s, typeName.s, afterType))
  }

  /** The triple at offset and the offset after it; None where deserialize would read past the end. */
  function ReadTriple(data: seq<Byte>, offset: nat): (r: Option<(Triple, nat)>)
    ensures r.Some? ==> offset + 8 <= r.value.1 <= |data|
  {
    var header := ReadHeader(data, offset);
    if header.None? then None
    else
      var (name, typeName, afterType) := header.value;
      var value := ReadValue(data, afterType, typeName);
      if value.None? then None
      else Some((Triple(name, typeName, value.value.0), value.value.1))
  }

  /** A triple reader: the triple at an offset, and the offset after it. */
  type TripleReader = (seq<Byte>, nat) -> Option<(Triple, nat)>

  /** A reader that only succeeds by moving forward, within the data. */
  ghost predicate Advances(read: TripleReader)
  {
    forall data: seq<Byte>, offset: nat {:trigger read(data, offset)} ::
      read(data, offset).Some? ==> offset < read(data, offset).value.1 <= |data|
  }

  /** A reader that only looks at the bytes from the offset on. */
  ghost predicate ShiftFree(read: TripleReader)
  {
    forall data: seq<Byte>, offset: nat {:trigger read(data[offset..], 0)} :: offset <= |data| ==>
      read(data, offset) == Shifted(read(data[offset..], 0), offset)
  }

  /** Triples read one after the other with `read` from offset to the end of the data. */
  function ReadAllWith(read: TripleReader, data: seq<Byte>, offset: nat): (r: Option<seq<Triple>>)
    requires offset <= |data| && Advances(read)
    decreases |data| - offset
  {
    if offset == |data| then Some([])
    else
      var t := read(data, offset);
      if t.None? then None
      else
        var rest := ReadAllWith(read, data, t.value.1);
        if rest.None? then None else Some([t.value.0] + rest.value)
  }

  lemma ReadTripleAdvances()
    ensures Advances(ReadTriple)
  {
  }

  /**
   * onPersistenceRead's loop from offset: triples until the data ends;
   * None where a triple would be read past the end.
   */
  function ReadAll(data: seq<Byte>, offset: nat): (r: Option<seq<Triple>>)
    requires offset <= |data|
  {
    ReadTripleAdvances();
    ReadAllWith(ReadTriple, data, offset)
  }

  /** One triple applied: only a name in the table is set, through the map of the type it was read with. */
  function ApplyTriple(store: Store, groups: seq<SettingGroup>, t: Triple): Store
  {
    var id := FromString(groups, t.name);
    if id < |groups| && t.value.Some? then Set(store, id, t.value.value) else store
  }

  function ApplyAll(store: Store, groups: seq<SettingGroup>, triples: seq<Triple>): Store
    decreases |triples|
  {
    if triples == [] then store
    else ApplyAll(ApplyTriple(store, groups, triples[0]), groups, triples[1..])
  }

  /** What onPersistenceWrite writes for settings from..|groups|, as triples. */
  function Triples(groups: seq<SettingGroup>, store: Store, from: nat): seq<Triple>
    requires from <= |groups|
    decreases |groups| - from
  {
    if from == |groups| then []
    else
      var v := Current(store, groups, from);
      [Triple(groups[from].name, TypeName(v), Some(v))] + Triples(groups, store, from + 1)
  }

  /** Names and string values survive the byte format: byte chars, lengths below 2^32. */
  predicate Storable(groups: seq<SettingGroup>, store: Store)
  {
    forall id :: 0 <= id < |groups| ==>
      && IsByteString(groups[id].name) && |groups[id].name| < TWO_32
      && (Current(store, groups, id).StringValue? ==>
            IsByteString(Current(store, groups, id).s) && |Current(store, groups, id).s| < TWO_32)
  }

  /** A value written after its type name reads back through the overload that name selects. */
  lemma ValueReads(prefix: seq<Byte>, v: Value, rest: seq<Byte>)
    requires v.StringValue? ==> IsByteString(v.s) && |v.s| < TWO_32
    ensures ReadValue(prefix + Encode(ValueItem(v)) + rest, |prefix|, TypeName(v))
      == Some((Some(v), |prefix| + |Encode(ValueItem(v))|))
  {
    if v.U32Value? {
      U32ValueReads(prefix, v, rest);
    } else if v.BoolValue? {
      BoolValueReads(prefix, v, rest);
    } else {
      StringValueReads(prefix, v, rest);
    }
  }

  lemma U32ValueReads(prefix: seq<Byte>, v: Value, rest: seq<Byte>)
    requires v.U32Value?
    ensures ReadValue(prefix + Encode(ValueItem(v)) + rest, |prefix|, TypeName(v))
      == Some((Some(v), |prefix| + |Encode(ValueItem(v))|))
  {
    assert v == U32Value(v.u) && ValueItem(v) == U32Item(v.u);
    RoundTrip(prefix, U32Item(v.u), rest, U32Item(0));
  }

  lemma BoolValueReads(prefix: seq<Byte>, v: Value, rest: seq<Byte>)
    requires v.BoolValue?
    ensures ReadValue(prefix + Encode(ValueItem(v)) + rest, |prefix|, TypeName(v))
      == Some((Some(v), |prefix| + |Encode(ValueItem(v))|))
  {
    assert v == BoolValue(v.b) && ValueItem(v) == BoolItem(v.b);
    RoundTrip(prefix, BoolItem(v.b), rest, BoolItem(false));
  }

  lemma StringValueReads(prefix: seq<Byte>, v: Value, rest: seq<Byte>)
    requires v.StringValue? && IsByteString(v.s) && |v.s| < TWO_32
    ensures ReadValue(prefix + Encode(ValueItem(v)) + rest, |prefix|, TypeName(v))
      == Some((Some(v), |prefix| + |Encode(ValueItem(v))|))
  {
    assert v == StringValue(v.s) && ValueItem(v) == StrItem(v.s);
    var data := prefix + Encode(StrItem(v.s)) + rest;
    RoundTrip(prefix, StrItem(v.s), rest, StrItem(""));
    var d := DecodeAt(data, |prefix|, StrItem(""));
    assert d.0.s == v.s;
    assert TypeName(v) == "std::string";
    assert ReadValue(data, |prefix|, "std::string") == Some((Some(StringValue(d.0.s)), d.1));
  }

  /** ReadTriple from the header and the value it is made of. */
  lemma TripleFromParts(data: seq<Byte>, offset: nat, name: string, typeName: string, v: Value, o2: nat, o3: nat)
    requires ReadHeader(data, offset) == Some((name, typeName, o2))
    requires ReadValue(data, o2, typeName) == Some((Some(v), o3))
    ensures ReadTriple(data, offset) == Some((Triple(name, typeName, Some(v)), o3))
  {
  }

  /** The name and the type name read back from a buffer laid out as prefix, name, type name, the rest. */
  lemma HeaderReads(data: seq<Byte>, prefix: seq<Byte>, name: string, typeName: string, tail: seq<Byte>, o1: nat)
    requires IsByteString(name) && |name| < TWO_32 && IsByteString(typeName) && |typeName| < TWO_32
    requires data == prefix + Encode(StrItem(name)) + Encode(StrItem(typeName)) + tail
    requires o1 == |prefix| + |Encode(StrItem(name))|
    ensures ReadHeader(data, |prefix|) == Some((name, typeName, o1 + |Encode(StrItem(typeName))|))
  {
    var a, b := Encode(StrItem(name)), Encode(StrItem(typeName));
    assert data == prefix + a + (b + tail);
    RoundTrip(prefix, StrItem(name), b + tail, StrItem(""));
    RoundTrip(prefix + a, StrItem(typeName), tail, StrItem(""));
  }

  /** The type names are byte strings, short enough for the length prefix. */
  lemma TypeNameStorable(v: Value)
    ensures IsByteString(TypeName(v)) && |TypeName(v)| < TWO_32
  {
  }

  /** The two ways the reads of a record split the buffer around it. */
  lemma RecordLayout(prefix: seq<Byte>, a: seq<Byte>, b: seq<Byte>, c: seq<Byte>, rest: seq<Byte>)
    ensures prefix + (a + b + c) + rest == prefix + a + b + (c + rest)
    ensures prefix + (a + b + c) + rest == (prefix + a + b) + c + rest
  {
  }

  /** A record written after any prefix reads back as its triple. */
  lemma RecordReads(prefix: seq<Byte>, name: string, v: Value, rest: seq<Byte>)
    requires IsByteString(name) && |name| < TWO_32
    requires v.StringValue? ==> IsByteString(v.s) && |v.s| < TWO_32
    ensures ReadsAs(ReadTriple, prefix, Record(name, v), rest, Triple(name, TypeName(v), Some(v)))
  {
    var typeName := TypeName(v);
    var a, b, c := Encode(StrItem(name)), Encode(StrItem(typeName)), Encode(ValueItem(v));
    var data := prefix + Record(name, v) + rest;
    TypeNameStorable(v);
    RecordLayout(prefix, a, b, c, rest);
    HeaderReads(data, prefix, name, typeName, c + rest, |prefix| + |a|);
    ValueReads(prefix + a + b, v, rest);
    TripleFromParts(data, |prefix|, name, typeName, v, |prefix| + |a| + |b|, |prefix| + |a| + |b| + |c|);
  }

  /** One turn of onPersistenceRead's loop: the triple at offset, then the rest. */
  lemma ReadAllStep(data: seq<Byte>, offset: nat, t: Triple, next: nat, ts: seq<Triple>)
    requires offset <= |data| && ReadTriple(data, offset) == Some((t, next))
    requires ReadAll(data, next) == Some(ts)
    ensures ReadAll(data, offset) == Some([t] + ts)
  {
  }

  lemma Associate(a: seq<Byte>, b: seq<Byte>, c: seq<Byte>)
    ensures a + (b + c) == a + b + c
  {
  }

  /** A read result with its end offset moved on by `offset`. */
  function Shifted<T>(r: Option<(T, nat)>, offset: nat): Option<(T, nat)>
  {
    if r.None? then None else Some((r.value.0, r.value.1 + offset))
  }

  /** ReadValue only looks at the bytes from the offset on. */
  lemma ReadValueShift(data: seq<Byte>, offset: nat, k: nat, at: nat, typeName: string)
    requires offset <= |data| && at == offset + k
    ensures ReadValue(data, at, typeName) == Shifted(ReadValue(data[offset..], k, typeName), offset)
  {
    DecodeShift(data, offset, k, at, BoolItem(false));
    DecodeShift(data, offset, k, at, U32Item(0));
    DecodeShift(data, offset, k, at, StrItem(""));
  }

  /** ReadHeader only looks at the bytes from the offset on. */
  lemma ReadHeaderShift(data: seq<Byte>, offset: nat)
    requires offset <= |data|
    ensures ReadHeader(data, offset).Some? == ReadHeader(data[offset..], 0).Some?
    ensures ReadHeader(data, offset).Some? ==>
      && ReadHeader(data, offset).value.0 == ReadHeader(data[offset..], 0).value.0
      && ReadHeader(data, offset).value.1 == ReadHeader(data[offset..], 0).value.1
      && ReadHeader(data, offset).value.2 == ReadHeader(data[offset..], 0).value.2 + offset
  {
    var tail := data[offset..];
    DecodeShift(data, offset, 0, offset, StrItem(""));
    if Readable(tail, 0, StrItem("")) {
      var afterName := DecodeAt(tail, 0, StrItem("")).1;
      DecodeShift(data, offset, afterName, afterName + offset, StrItem(""));
    }
  }

  /** ReadTriple only looks at the bytes from the offset on. */
  lemma ReadTripleShift(data: seq<Byte>, offset: nat)
    requires offset <= |data|
    ensures ReadTriple(data, offset) == Shifted(ReadTriple(data[offset..], 0), offset)
  {
    ReadHeaderShift(data, offset);
    var header := ReadHeader(data[offset..], 0);
    if header.Some? {
      ReadValueShift(data, offset, header.value.2, header.value.2 + offset, header.value.1);
    }
  }

  /** Reading with a reader that only looks ahead does not depend on the bytes before the offset. */
  lemma {:induction false} ReadAllWithShift(read: TripleReader, data: seq<Byte>, offset: nat)
    requires offset <= |data| && Advances(read) && ShiftFree(read)
    ensures ReadAllWith(read, data, offset) == ReadAllWith(read, data[offset..], 0)
    decreases |data| - offset
  {
    var tail := data[offset..];
    if offset < |data| {
      var t := read(tail, 0);
      assert read(data, offset).Some? == t.Some?;
      if t.Some? {
        var next := t.value.1 + offset;
        assert read(data, offset) == Some((t.value.0, next));
        ReadAllWithShift(read, data, next);
        ReadAllWithShift(read, tail, t.value.1);
        assert data[next..] == tail[t.value.1..];
      }
    }
  }

  lemma ReadTripleShiftFree()
    ensures ShiftFree(ReadTriple)
  {
    forall data: seq<Byte>, offset: nat | offset <= |data| {
      ReadTripleShift(data, offset);
    }
  }

  /** onPersistenceRead's loop from an offset reads what it would read from the bytes after it alone. */
  lemma ReadAllShift(data: seq<Byte>, offset: nat)
    requires offset <= |data|
    ensures ReadAll(data, offset) == ReadAll(data[offset..], 0)
  {
    ReadTripleAdvances();
    ReadTripleShiftFree();
    ReadAllWithShift(ReadTriple, data, offset);
  }

  /** A record that reads as t, followed by bytes that read as ts, reads as t, then ts. */
  lemma ReadRecordThen(read: TripleReader, record: seq<Byte>, t: Triple, rest: seq<Byte>, ts: seq<Triple>)
    requires Advances(read) && ShiftFree(read)
    requires read(record + rest, 0) == Some((t, |record| as nat)) && ReadAllWith(read, rest, 0) == Some(ts)
    ensures ReadAllWith(read, record + rest, 0) == Some([t] + ts)
  {
    assert (record + rest)[|record|..] == rest;
    ReadAllWithShift(read, record + rest, |record|);
  }

  /** Records from..upTo written one after the other. */
  function ConcatFrom(records: nat -> seq<Byte>, from: nat, upTo: nat): seq<Byte>
    requires from <= upTo
    decreases upTo - from
  {
    if from == upTo then [] else records(from) + ConcatFrom(records, from + 1, upTo)
  }

  /** Triples from..upTo, in order. */
  function TriplesFrom(triples: nat -> Triple, from: nat, upTo: nat): seq<Triple>
    requires from <= upTo
    decreases upTo - from
  {
    if from == upTo then [] else [triples(from)] + TriplesFrom(triples, from + 1, upTo)
  }

  /** `read` reads the record, between prefix and rest, as t, ending right after it. */
  ghost predicate ReadsAs(read: TripleReader, prefix: seq<Byte>, record: seq<Byte>, rest: seq<Byte>, t: Triple)
  {
    read(prefix + record + rest, |prefix|) == Some((t, (|prefix| + |record|) as nat))
  }

  /** A reader that reads each record from..upTo, wherever it sits, as the triple of the same index. */
  ghost predicate ReadsEach(read: TripleReader, records: nat -> seq<Byte>, triples: nat -> Triple, from: nat, upTo: nat)
  {
    forall i: nat, prefix: seq<Byte>, rest: seq<Byte> {:trigger ReadsAs(read, prefix, records(i), rest, triples(i))} ::
      from <= i < upTo ==> ReadsAs(read, prefix, records(i), rest, triples(i))
  }

  /** Records read one after the other give back their triples, in order. */
  lemma {:induction false} ReadConcat(read: TripleReader, records: nat -> seq<Byte>, triples: nat -> Triple, from: nat, upTo: nat)
    requires from <= upTo && Advances(read) && ShiftFree(read) && ReadsEach(read, records, triples, from, upTo)
    ensures ReadAllWith(read, ConcatFrom(records, from, upTo), 0) == Some(TriplesFrom(triples, from, upTo))
    decreases upTo - from
  {
    if from < upTo {
      ReadConcat(read, records, triples, from + 1, upTo);
      var empty: seq<Byte> := [];
      var rest := ConcatFrom(records, from + 1, upTo);
      assert ReadsAs(read, empty, records(from), rest, triples(from));
      assert empty + records(from) + rest == records(from) + rest;
      ReadRecordThen(read, records(from), triples(from), rest, TriplesFrom(triples, from + 1, upTo));
    }
  }

  /** The record of each setting, by index. */
  function RecordOf(groups: seq<SettingGroup>, store: Store): nat -> seq<Byte>
  {
    (id: nat) => if id < |groups| then Record(groups[id].name, Current(store, groups, id)) else []
  }

  /** The triple each setting's record reads back as, by index. */
  function TripleOf(groups: seq<SettingGroup>, store: Store): nat -> Triple
  {
    (id: nat) => if id < |groups| then Triple(groups[id].name, TypeName(Current(store, groups, id)), Some(Current(store, groups, id)))
          else Triple([], [], None)
  }

  lemma {:induction false} ImageConcat(groups: seq<SettingGroup>, store: Store, from: nat)
    requires from <= |groups|
    ensures Image(groups, store, from) == ConcatFrom(RecordOf(groups, store), from, |groups|)
    decreases |groups| - from
  {
    if from < |groups| {
      ImageConcat(groups, store, from + 1);
      var records := RecordOf(groups, store);
      assert records(from) == Record(groups[from].name, Current(store, groups, from));
      assert ConcatFrom(records, from, |groups|) == records(from) + ConcatFrom(records, from + 1, |groups|);
    }
  }

  lemma {:induction false} TriplesConcat(groups: seq<SettingGroup>, store: Store, from: nat)
    requires from <= |groups|
    ensures Triples(groups, store, from) == TriplesFrom(TripleOf(groups, store), from, |groups|)
    decreases |groups| - from
  {
    if from < |groups| {
      TriplesConcat(groups, store, from + 1);
    }
  }

  lemma ReadTripleReadsEach(groups: seq<SettingGroup>, store: Store, from: nat)
    requires from <= |groups| && Storable(groups, store)
    ensures ReadsEach(ReadTriple, RecordOf(groups, store), TripleOf(groups, store), from, |groups|)
  {
    var records, triples := RecordOf(groups, store), TripleOf(groups, store);
    forall i: nat, prefix: seq<Byte>, rest: seq<Byte> | from <= i < |groups|
      ensures ReadsAs(ReadTriple, prefix, records(i), rest, triples(i))
    {
      var name, v := groups[i].name, Current(store, groups, i);
      RecordReads(prefix, name, v, rest);
      assert records(i) == Record(name, v);
      assert triples(i) == Triple(name, TypeName(v), Some(v));
    }
  }

  /** Reading what onPersistenceWrite wrote gives back exactly its triples. */
  lemma ReadImage(groups: seq<SettingGroup>, store: Store, from: nat)
    requires from <= |groups| && Storable(groups, store)
    ensures ReadAll(Image(groups, store, from), 0) == Some(Triples(groups, store, from))
  {
    ReadTripleAdvances();
    ReadTripleShiftFree();
    ReadTripleReadsEach(groups, store, from);
    ImageConcat(groups, store, from);
    TriplesConcat(groups, store, from);
    ReadConcat(ReadTriple, RecordOf(groups, store), TripleOf(groups, store), from, |groups|);
  }

  /**
   * Applying the triples of settings from..|groups| of `saved` to any store
   * gives every one of those settings its saved value, and leaves the
   * settings before `from` alone.
   */
  lemma {:induction false} ApplyTriples(groups: seq<SettingGroup>, saved: Store, target: Store, from: nat)
    requires from <= |groups| && DistinctNames(groups)
    ensures forall id :: from <= id < |groups| ==>
      Current(ApplyAll(target, groups, Triples(groups, saved, from)), groups, id) == Current(saved, groups, id)
    ensures forall id :: 0 <= id < from ==>
      Current(ApplyAll(target, groups, Triples(groups, saved, from)), groups, id) == Current(target, groups, id)
    decreases |groups| - from
  {
    if from < |groups| {
      var v := Current(saved, groups, from);
      var t := Triple(groups[from].name, TypeName(v), Some(v));
      FromStringOfName(groups, from);
      var next := ApplyTriple(target, groups, t);
      assert next == Set(target, from, v);
      var triples := Triples(groups, saved, from);
      assert triples == [t] + Triples(groups, saved, from + 1);
      assert ApplyAll(target, groups, triples) == ApplyAll(next, groups, Triples(groups, saved, from + 1));
      ApplyTriples(groups, saved, next, from + 1);
      forall id | 0 <= id < |groups| && id != from
        ensures Current(next, groups, id) == Current(target, groups, id)
      {
        SetOther(target, groups, from, v, id);
      }
      SetOwn(target, groups, from, v);
    }
  }

  /** Writing the settings and reading them back into any store restores every setting's value. */
  lemma PersistenceRoundTrip(groups: seq<SettingGroup>, saved: Store, target: Store)
    requires DistinctNames(groups) && Storable(groups, saved)
    ensures ReadAll(Image(groups, saved, 0), 0).Some?
    ensures forall id :: 0 <= id < |groups| ==>
      Current(ApplyAll(target, groups, ReadAll(Image(groups, saved, 0), 0).value), groups, id) == Current(saved, groups, id)
  {
    ReadImage(groups, saved, 0);
    ApplyTriples(groups, saved, target, 0);
  }

  // ---------------------------------------------------------------- listeners

  /** The listeners registered for id, in registration order: whom notifyListeners calls. */
  function ListenersOf(listeners: seq<(nat, nat)>, id: nat): (r: seq<nat>)
    ensures |r| <= |listeners|
    ensures forall l :: l in r ==> (id, l) in listeners
  {
    if listeners == [] then []
    else
      var last := listeners[|listeners| - 1];
      var before := ListenersOf(listeners[..|listeners| - 1], id);
      if last.0 == id then before + [last.1] else before
  }

  /** Registering a listener adds it at the end of its setting's notification order and leaves other settings' alone. */
  lemma ListenersOfRegister(listeners: seq<(nat, nat)>, id: nat, listener: nat, other: nat)
    ensures ListenersOf(listeners + [(id, listener)], other)
      == if other == id then ListenersOf(listeners, other) + [listener] else ListenersOf(listeners, other)
  {
    assert (listeners + [(id, listener)])[..|listeners|] == listeners;
  }

  // ---------------------------------------------------------------- further store facts

  /** settingExist: some setting has that name. */
  predicate SettingExist(groups: seq<SettingGroup>, name: string)
  {
    exists i :: 0 <= i < |groups| && groups[i].name == name
  }

  /** fromString finds a setting exactly when settingExist says there is one. */
  lemma FromStringExists(groups: seq<SettingGroup>, name: string)
    ensures FromString(groups, name) < |groups| <==> SettingExist(groups, name)
  {
    if SettingExist(groups, name) {
      var i :| 0 <= i < |groups| && groups[i].name == name;
      assert FromString(groups, name) <= i;
    }
  }

  /** Storing a value only adds keys, so every setting keeps a value in the map of its own type. */
  lemma SetComplete(store: Store, groups: seq<SettingGroup>, id: nat, v: Value)
    requires Complete(store, groups)
    ensures Complete(Set(store, id, v), groups)
  {
  }

  /** Applying a triple keeps every setting's value present. */
  lemma ApplyComplete(store: Store, groups: seq<SettingGroup>, t: Triple)
    requires Complete(store, groups)
    ensures Complete(ApplyTriple(store, groups, t), groups)
  {
    var id := FromString(groups, t.name);
    if id < |groups| && t.value.Some? {
      SetComplete(store, groups, id, t.value.value);
    }
  }

  /** After the constructor every setting of the table has a value. */
  lemma DefaultsComplete(groups: seq<SettingGroup>)
    ensures Complete(Defaults(groups, |groups|), groups)
  {
    DefaultsPresent(groups, |groups|);
    assert groups[..|groups|] == groups;
  }

  /**
   * Reading a setting with its own type in a complete store gives its
   * current value and inserts nothing.
   */
  lemma GetOwnType(store: Store, groups: seq<SettingGroup>, id: nat)
    requires Complete(store, groups) && id < |groups|
    ensures Touch(store, id, groups[id].default) == store
  {
    match groups[id].default {
      case U32Value(_) => assert store.u32s[id := store.u32s[id]] == store.u32s;
      case BoolValue(_) => assert store.bools[id := store.bools[id]] == store.bools;
      case StringValue(_) => assert store.strings[id := store.strings[id]] == store.strings;
    }
  }

  /**
   * Reading a bool or string setting with getU32 inserts a 0 into the u32
   * map, and from then on getType reports the setting as uint32_t.
   */
  lemma GetU32ChangesType(store: Store, id: nat)
    ensures id !in store.u32s ==> Get(store, id, U32Value(0)) == U32Value(0)
    ensures GetType(Touch(store, id, U32Value(0)), id) == U32Type
  {
  }

  class SettingsHandler {
    var u32Items: map<nat, U32>
    var boolItems: map<nat, bool>
    var stringItems: map<nat, string>
    /** m_listeners: (setting, listener) pairs in registration order; a listener is never 0 (null). */
    var listeners: seq<(nat, nat)>

    function Items(): Store
      reads this
    {
      Store(u32Items, boolItems, stringItems)
    }

    /** Every setting of the table has a value in the map of its type. */
    predicate Valid()
      reads this
    {
      Complete(Items(), SETTING_GROUPS)
    }

    /** The constructor stores every setting's default, in table order. */
    constructor()
      ensures Items() == Defaults(SETTING_GROUPS, |SETTING_GROUPS|) && listeners == [] && Valid()
    {
      u32Items, boolItems, stringItems, listeners := map[], map[], map[], [];
      new;
      var i := 0;
      while i < |SETTING_GROUPS|
        invariant 0 <= i <= |SETTING_GROUPS|
        invariant Items() == Defaults(SETTING_GROUPS, i) && listeners == []
      {
        SetSetting(i, SETTING_GROUPS[i].default);
        i := i + 1;
      }
      DefaultsComplete(SETTING_GROUPS);
    }

    /** set_setting<type>: the value goes into the map of its type; nobody is notified. */
    method SetSetting(id: nat, v: Value)
      modifies this
      ensures Items() == Set(old(Items()), id, v) && listeners == old(listeners)
    {
      match v {
        case U32Value(u) => u32Items := u32Items[id := u];
        case BoolValue(b) => boolItems := boolItems[id := b];
        case StringValue(t) => stringItems := stringItems[id := t];
      }
    }

    /** getU32: the stored value, or 0 inserted by operator[] when the setting has none in the u32 map. */
    method GetU32(id: nat) returns (r: U32)
      requires id < |SETTING_GROUPS| && Valid()
      modifies this
      ensures U32Value(r) == Get(old(Items()), id, U32Value(0))
      ensures Items() == Touch(old(Items()), id, U32Value(0)) && listeners == old(listeners) && Valid()
    {
      if id !in u32Items {
        u32Items := u32Items[id := 0];
      }
      r := u32Items[id];
      SetComplete(old(Items()), SETTING_GROUPS, id, U32Value(r));
    }

    /** getBool: the stored value, or false inserted by operator[]. */
    method GetBool(id: nat) returns (r: bool)
      requires id < |SETTING_GROUPS| && Valid()
      modifies this
      ensures BoolValue(r) == Get(old(Items()), id, BoolValue(false))
      ensures Items() == Touch(old(Items()), id, BoolValue(false)) && listeners == old(listeners) && Valid()
    {
      if id !in boolItems {
        boolItems := boolItems[id := false];
      }
      r := boolItems[id];
      SetComplete(old(Items()), SETTING_GROUPS, id, BoolValue(r));
    }

    /** getString: the stored value, or "" inserted by operator[]. */
    method GetString(id: nat) returns (r: string)
      requires id < |SETTING_GROUPS| && Valid()
      modifies this
      ensures StringValue(r) == Get(old(Items()), id, StringValue(""))
      ensures Items() == Touch(old(Items()), id, StringValue("")) && listeners == old(listeners) && Valid()
    {
      if id !in stringItems {
        stringItems := stringItems[id := ""];
      }
      r := stringItems[id];
      SetComplete(old(Items()), SETTING_GROUPS, id, StringValue(r));
    }

    /**
     * setU32: the value is stored, every listener of the setting is told
     * (whether or not it changed), and the result says whether it differs
     * from the value before (0 when there was none).
     */
    method SetU32(id: nat, value: U32) returns (changed: bool, notified: seq<nat>)
      requires id < |SETTING_GROUPS| && Valid()
      modifies this
      ensures changed <==> Get(old(Items()), id, U32Value(0)) != U32Value(value)
      ensures Items() == Set(old(Items()), id, U32Value(value)) && listeners == old(listeners) && Valid()
      ensures notified == ListenersOf(listeners, id)
    {
      var previous := if id in u32Items then u32Items[id] else 0;
      u32Items := u32Items[id := value];
      changed := previous != value;
      notified := NotifyListeners(id);
      SetComplete(old(Items()), SETTING_GROUPS, id, U32Value(value));
    }

    /** setBool: as setU32, with false as the value before when there was none. */
    method SetBool(id: nat, value: bool) returns (changed: bool, notified: seq<nat>)
      requires id < |SETTING_GROUPS| && Valid()
      modifies this
      ensures changed <==> Get(old(Items()), id, BoolValue(false)) != BoolValue(value)
      ensures Items() == Set(old(Items()), id, BoolValue(value)) && listeners == old(listeners) && Valid()
      ensures notified == ListenersOf(listeners, id)
    {
      var previous := if id in boolItems then boolItems[id] else false;
      boolItems := boolItems[id := value];
      changed := previous != value;
      notified := NotifyListeners(id);
      SetComplete(old(Items()), SETTING_GROUPS, id, BoolValue(value));
    }

    /** setString: as setU32, with "" as the value before when there was none. */
    method SetString(id: nat, value: string) returns (changed: bool, notified: seq<nat>)
      requires id < |SETTING_GROUPS| && Valid()
      modifies this
      ensures changed <==> Get(old(Items()), id, StringValue("")) != StringValue(value)
      ensures Items() == Set(old(Items()), id, StringValue(value)) && listeners == old(listeners) && Valid()
      ensures notified == ListenersOf(listeners, id)
    {
      var previous := if id in stringItems then stringItems[id] else "";
      stringItems := stringItems[id := value];
      changed := previous != value;
      notified := NotifyListeners(id);
      SetComplete(old(Items()), SETTING_GROUPS, id, StringValue(value));
    }

    /** notifyListeners: the listeners registered for id, told in registration order. */
    method NotifyListeners(id: nat) returns (notified: seq<nat>)
      ensures notified == ListenersOf(listeners, id)
    {
      notified := [];
      var i := 0;
      while i < |listeners|
        invariant 0 <= i <= |listeners|
        invariant notified == ListenersOf(listeners[..i], id)
      {
        assert listeners[..i + 1][..i] == listeners[..i];
        if listeners[i].0 == id {
          notified := notified + [listeners[i].1];
        }
        i := i + 1;
      }
      assert listeners[..i] == listeners;
    }

    /** registerListener: a null listener (0) is ignored; otherwise the pair is appended. */
    method RegisterListener(id: nat, listener: nat)
      modifies this
      ensures listeners == if listener != 0 then old(listeners) + [(id, listener)] else old(listeners)
      ensures Items() == old(Items())
    {
      if listener != 0 {
        listeners := listeners + [(id, listener)];
      }
    }

    /** unregisterListener: the first matching (setting, listener) pair is erased. */
    method UnregisterListener(id: nat, listener: nat)
      modifies this
      ensures listeners == RemoveFirst(old(listeners), (id, listener))
      ensures Items() == old(Items())
    {
      listeners := RemoveFirst(listeners, (id, listener));
    }

    /** onPersistenceWrite: a (name, type name, value) triple per setting, in table order, after what data held. */
    method OnPersistenceWrite(data: seq<Byte>) returns (out: seq<Byte>)
      requires Valid()
      ensures out == data + Image(SETTING_GROUPS, Items(), 0)
    {
      out := data;
      var i := 0;
      while i < |SETTING_GROUPS|
        invariant 0 <= i <= |SETTING_GROUPS|
        invariant out + Image(SETTING_GROUPS, Items(), i) == data + Image(SETTING_GROUPS, Items(), 0)
      {
        var v := Current(Items(), SETTING_GROUPS, i);
        ghost var before := out;
        out := Serialize.Serialize(out, StrItem(SETTING_GROUPS[i].name));
        out := Serialize.Serialize(out, StrItem(TypeName(v)));
        out := Serialize.Serialize(out, ValueItem(v));
        GroupWritten(before, SETTING_GROUPS[i].name, v, Image(SETTING_GROUPS, Items(), i + 1));
        i := i + 1;
      }
      assert out + [] == out;
    }

    /** onPersistenceRead of well-formed data: every triple applied in order; a triple for an unknown name or type changes nothing. */
    method OnPersistenceRead(data: seq<Byte>)
      requires Valid() && ReadAll(data, 0).Some?
      modifies this
      ensures Items() == ApplyAll(old(Items()), SETTING_GROUPS, ReadAll(data, 0).value)
      ensures listeners == old(listeners) && Valid()
    {
      var offset := 0;
      while offset != |data|
        invariant offset <= |data| && ReadAll(data, offset).Some?
        invariant ApplyAll(Items(), SETTING_GROUPS, ReadAll(data, offset).value)
          == ApplyAll(old(Items()), SETTING_GROUPS, ReadAll(data, 0).value)
        invariant listeners == old(listeners) && Valid()
        decreases |data| - offset
      {
        ReadAllFront(data, offset);
        ghost var triple := ReadTriple(data, offset).value.0;
        ghost var before := Items();
        offset := ReadSetting(data, offset);
        ApplyAllCons(before, SETTING_GROUPS, triple, ReadAll(data, offset).value);
      }
    }

    /** One turn of onPersistenceRead's loop: name, type name, and the value the type name selects. */
    method ReadSetting(data: seq<Byte>, offset: nat) returns (next: nat)
      requires Valid() && offset <= |data| && ReadTriple(data, offset).Some?
      modifies this
      ensures next == ReadTriple(data, offset).value.1
      ensures Items() == ApplyTriple(old(Items()), SETTING_GROUPS, ReadTriple(data, offset).value.0)
      ensures listeners == old(listeners) && Valid()
    {
      var name, afterName := Deserialize(data, offset, StrItem(""));
      var typeName, afterType := Deserialize(data, afterName, StrItem(""));
      var id := FromString(SETTING_GROUPS, name.s);
      FromStringExists(SETTING_GROUPS, name.s);
      next := afterType;
      if typeName.s == "bool" {
        var value;
        value, next := Deserialize(data, afterType, BoolItem(false));
        if SettingExist(SETTING_GROUPS, name.s) {
          SetSetting(id, BoolValue(value.b));
        }
      } else if typeName.s == "uint32_t" {
        var value;
        value, next := Deserialize(data, afterType, U32Item(0));
        if SettingExist(SETTING_GROUPS, name.s) {
          SetSetting(id, U32Value(value.u32));
        }
      } else if typeName.s == "std::string" {
        var value;
        value, next := Deserialize(data, afterType, StrItem(""));
        if SettingExist(SETTING_GROUPS, name.s) {
          SetSetting(id, StringValue(value.s));
        }
      }
      ApplyComplete(old(Items()), SETTING_GROUPS, ReadTriple(data, offset).value.0);
    }
  }

  /** One record appended after what was written so far keeps the loop's account of the image. */
  lemma GroupWritten(before: seq<Byte>, name: string, v: Value, rest: seq<Byte>)
    ensures before + Encode(StrItem(name)) + Encode(StrItem(TypeName(v))) + Encode(ValueItem(v)) + rest
      == before + (Record(name, v) + rest)
  {
    AppendThree(before, Encode(StrItem(name)), Encode(StrItem(TypeName(v))), Encode(ValueItem(v)), rest);
  }

  lemma AppendThree(before: seq<Byte>, a: seq<Byte>, b: seq<Byte>, c: seq<Byte>, rest: seq<Byte>)
    ensures before + a + b + c + rest == before + (a + b + c + rest)
  {
  }

  /** The front of what is left to read: one triple, then the rest of the data. */
  lemma ReadAllFront(data: seq<Byte>, offset: nat)
    requires offset < |data| && ReadAll(data, offset).Some?
    ensures ReadTriple(data, offset).Some?
    ensures ReadAll(data, ReadTriple(data, offset).value.1).Some?
    ensures ReadAll(data, offset).value == [ReadTriple(data, offset).value.0] + ReadAll(data, ReadTriple(data, offset).value.1).value
  {
  }

  /** Applying a triple list is applying its first triple, then the rest. */
  lemma ApplyAllCons(store: Store, groups: seq<SettingGroup>, t: Triple, rest: seq<Triple>)
    ensures ApplyAll(store, groups, [t] + rest) == ApplyAll(ApplyTriple(store, groups, t), groups, rest)
  {
    assert ([t] + rest)[1..] == rest;
  }
}
