/**
 * Persistence items: the key/value pairs a module writes when it is saved and
 * looks up again when it is restored. Numbers are stored as their decimal
 * text (std::to_string) and read back with std::stoll and a cast to the
 * target type; strings are stored as they are.
 */
module Persistence {
  import opened Common
  import opened Text

  datatype PersistenceItem = PersistenceItem(key: string, value: string)

  /** PersistenceItem::operator==: both key and value compared. */
  function ItemEquals(a: PersistenceItem, b: PersistenceItem): (r: bool)
    ensures r <==> a == b
  {
    a.key == b.key && a.value == b.value
  }

  // ---------------------------------------------------------------- writing

  /** writeItem<std::string>: one item appended, the earlier ones untouched. */
  method WriteString(items: seq<PersistenceItem>, key: string, value: string) returns (out: seq<PersistenceItem>)
    ensures out == items + [PersistenceItem(key, value)]
  {
    out := items + [PersistenceItem(key, value)];
  }

  /** writeItem<T> for an integer (or bool, which std::to_string sees as 0 or 1). */
  method WriteNumber(items: seq<PersistenceItem>, key: string, value: int) returns (out: seq<PersistenceItem>)
    ensures out == items + [PersistenceItem(key, IntToDecimal(value))]
  {
    out := items + [PersistenceItem(key, IntToDecimal(value))];
  }

  /** std::to_string of a bool converts it to int first. */
  function BoolToInt(b: bool): (r: int)
    ensures r == 0 || r == 1
    ensures (r != 0) == b
  {
    if b then 1 else 0
  }

  // ---------------------------------------------------------------- reading

  /** The value of the first item with the key; later duplicates are ignored. */
  function Lookup(items: seq<PersistenceItem>, key: string): (r: Option<string>)
    ensures r.None? <==> forall i :: 0 <= i < |items| ==> items[i].key != key
    ensures r.Some? ==> exists i :: 0 <= i < |items| && items[i] == PersistenceItem(key, r.value)
                                     && forall j :: 0 <= j < i ==> items[j].key != key
  {
    if items == [] then None
    else if items[0].key == key then
      assert items[0] == PersistenceItem(key, items[0].value);
      Some(items[0].value)
    else
      var r := Lookup(items[1..], key);
      if r.Some? then
        assert exists i :: 0 <= i < |items| && items[i] == PersistenceItem(key, r.value)
                           && forall j :: 0 <= j < i ==> items[j].key != key by {
          var i :| 0 <= i < |items| - 1 && items[1..][i] == PersistenceItem(key, r.value)
                   && forall j :: 0 <= j < i ==> items[1..][j].key != key;
          assert items[i + 1] == PersistenceItem(key, r.value);
          assert forall j :: 0 <= j < i + 1 ==> items[j].key != key by {
            forall j | 0 <= j < i + 1 ensures items[j].key != key {
              if j > 0 { assert items[j] == items[1..][j - 1]; }
            }
          }
        }
        r
      else
        assert forall i :: 1 <= i < |items| ==> items[i] == items[1..][i - 1];
        r
  }

  /**
   * readItem<std::string>: true with the first matching value, or false with
   * the result left as it was.
   */
  method ReadString(items: seq<PersistenceItem>, key: string, result: string) returns (found: bool, out: string)
    ensures found <==> Lookup(items, key).Some?
    ensures out == if found then Lookup(items, key).value else result
  {
    found, out := false, result;
    var i := 0;
    while i < |items|
      invariant 0 <= i <= |items|
      invariant Lookup(items, key) == Lookup(items[i..], key)
    {
      if items[i].key == key {
        return true, items[i].value;
      }
      assert items[i..][1..] == items[i + 1..];
      i := i + 1;
    }
  }

  /** The integer types a number is read back into; the cast is static_cast<T> of a long long. */
  datatype IntKind = BoolKind | U8Kind | U16Kind | U32Kind | I32Kind

  /** The values a variable of the kind can hold (bool as 0 and 1). */
  predicate InRange(kind: IntKind, v: int)
  {
    match kind
    case BoolKind => v == 0 || v == 1
    case U8Kind => 0 <= v < TWO_8
    case U16Kind => 0 <= v < TWO_16
    case U32Kind => 0 <= v < TWO_32
    case I32Kind => INT32_MIN <= v <= INT32_MAX
  }

  /**
   * static_cast<T>(v): an unsigned type keeps the low bits, int32_t
   * reinterprets the low 32 bits, bool tests v != 0. A value the type can
   * hold is kept as it is.
   */
  function CastTo(kind: IntKind, v: int): (r: int)
    ensures InRange(kind, r)
    ensures InRange(kind, v) ==> r == v
    ensures kind == BoolKind ==> (r == 1 <==> v != 0)
  {
    match kind
    case BoolKind => if v != 0 then 1 else 0
    case U8Kind => v % TWO_8
    case U16Kind => v % TWO_16
    case U32Kind => v % TWO_32
    case I32Kind => ToI32(ToU32(v))
  }

  /** What readItem<T> does: the key is missing, the value is read, or std::stoll throws. */
  datatype NumberRead = Missing | Value(v: int) | ConversionError

  method ReadNumber(items: seq<PersistenceItem>, key: string, kind: IntKind) returns (r: NumberRead)
    ensures r.Missing? <==> Lookup(items, key).None?
    ensures r.ConversionError? <==> Lookup(items, key).Some? && Stoll(Lookup(items, key).value).None?
    ensures r.Value? ==> r.v == CastTo(kind, Stoll(Lookup(items, key).value).value)
  {
    var i := 0;
    while i < |items|
      invariant 0 <= i <= |items|
      invariant Lookup(items, key) == Lookup(items[i..], key)
    {
      if items[i].key == key {
        var parsed := Stoll(items[i].value);
        if parsed.None? {
          return ConversionError;
        }
        return Value(CastTo(kind, parsed.value));
      }
      assert items[i..][1..] == items[i + 1..];
      i := i + 1;
    }
    return Missing;
  }

  /** A number stored under the key, if there is one, is one std::stoll can read. */
  predicate Readable(items: seq<PersistenceItem>, key: string)
  {
    Lookup(items, key).Some? ==> Stoll(Lookup(items, key).value).Some?
  }

  /** readItem into a string: the first value stored under the key, or the current value. */
  function TextOr(items: seq<PersistenceItem>, key: string, current: string): string
  {
    Lookup(items, key).GetOr(current)
  }

  /** readItem into an integer of the given kind: the stored number cast to it, or the current value. */
  function NumberOr(items: seq<PersistenceItem>, key: string, kind: IntKind, current: int): (r: int)
    requires Readable(items, key)
    ensures InRange(kind, current) ==> InRange(kind, r)
  {
    match Lookup(items, key)
    case None => current
    case Some(v) => CastTo(kind, Stoll(v).value)
  }

  /** A number of the kind, saved as its decimal text, reads back as itself. */
  lemma NumberReadBack(kind: IntKind, v: int)
    requires InRange(kind, v)
    ensures Stoll(IntToDecimal(v)) == Some(v)
    ensures CastTo(kind, v) == v
  {
    DecimalRoundTrip(v);
  }

  /** A number field saved as decimal text is read back as itself. */
  lemma NumberFieldReadBack(items: seq<PersistenceItem>, key: string, kind: IntKind, v: int, current: int)
    requires InRange(kind, v)
    requires Lookup(items, key) == Some(IntToDecimal(v))
    ensures Readable(items, key)
    ensures NumberOr(items, key, kind, current) == v
  {
    NumberReadBack(kind, v);
  }


  // ---------------------------------------------------------------- properties

  /** A key written after items that do not hold it is found with the value written. */
  lemma {:induction false} LookupAppended(items: seq<PersistenceItem>, key: string, value: string)
    requires forall i :: 0 <= i < |items| ==> items[i].key != key
    ensures Lookup(items + [PersistenceItem(key, value)], key) == Some(value)
  {
    if items != [] {
      LookupAppended(items[1..], key, value);
      assert (items + [PersistenceItem(key, value)])[1..] == items[1..] + [PersistenceItem(key, value)];
    }
  }

  /** Writing items never hides an earlier one: a key already present reads as before. */
  lemma {:induction false} LookupKeepsFirst(items: seq<PersistenceItem>, more: seq<PersistenceItem>, key: string)
    requires Lookup(items, key).Some?
    ensures Lookup(items + more, key) == Lookup(items, key)
  {
    assert items != [];
    assert (items + more)[0] == items[0];
    if items[0].key != key {
      assert (items + more)[1..] == items[1..] + more;
      LookupKeepsFirst(items[1..], more, key);
    }
  }

  /**
   * A number the target type can hold, written under a fresh key, is read
   * back unchanged.
   */
  lemma NumberRoundTrip(items: seq<PersistenceItem>, key: string, kind: IntKind, v: int)
    requires forall i :: 0 <= i < |items| ==> items[i].key != key
    requires InRange(kind, v)
    ensures Lookup(items + [PersistenceItem(key, IntToDecimal(v))], key) == Some(IntToDecimal(v))
    ensures Stoll(IntToDecimal(v)) == Some(v)
    ensures CastTo(kind, Stoll(IntToDecimal(v)).value) == v
  {
    LookupAppended(items, key, IntToDecimal(v));
    DecimalRoundTrip(v);
  }

  /** No two items share a key. */
  predicate KeysDistinct(items: seq<PersistenceItem>)
  {
    forall i, j :: 0 <= i < j < |items| ==> items[i].key != items[j].key
  }

  /** With distinct keys, every item is what the lookup of its key finds. */
  lemma LookupUnique(items: seq<PersistenceItem>, i: nat)
    requires KeysDistinct(items) && i < |items|
    ensures Lookup(items, items[i].key) == Some(items[i].value)
  {
    LookupAt(items, i);
  }

  /** An item whose key no earlier item has is the one a lookup of that key finds. */
  lemma {:induction false} LookupAt(items: seq<PersistenceItem>, i: nat)
    requires i < |items|
    requires forall j :: 0 <= j < i ==> items[j].key != items[i].key
    ensures Lookup(items, items[i].key) == Some(items[i].value)
  {
    if i > 0 {
      assert items[1..][i - 1] == items[i];
      forall j | 0 <= j < i - 1
        ensures items[1..][j].key != items[1..][i - 1].key
      {
        assert items[1..][j] == items[j + 1];
      }
      LookupAt(items[1..], i - 1);
    }
  }
}
