/**
 * Fixed-width integer types, the optional value, and the byte view of
 * std::string shared by every other module.
 */
module Common {

  datatype Option<T> = None | Some(value: T)
  {
    predicate IsSome() { this.Some? }

    function GetOr(default: T): T
    {
      match this
      case None => default
      case Some(v) => v
    }
  }

  const TWO_8: int := 0x100
  const TWO_16: int := 0x1_0000
  const TWO_32: int := 0x1_0000_0000

  /** uint8_t, uint16_t and uint32_t. */
  type Byte = b: int | 0 <= b < 0x100
  type U16 = v: int | 0 <= v < 0x1_0000
  type U32 = v: int | 0 <= v < 0x1_0000_0000

  /** int8_t, int16_t and int32_t. */
  type I8 = v: int | -0x80 <= v < 0x80
  type I16 = v: int | -0x8000 <= v < 0x8000
  type I32 = v: int | -0x8000_0000 <= v < 0x8000_0000

  const UINT32_MAX: U32 := 0xFFFF_FFFF
  const INT32_MAX: int := 0x7FFF_FFFF
  const INT32_MIN: int := -0x8000_0000
  const INT64_MAX: int := 0x7FFF_FFFF_FFFF_FFFF
  const INT64_MIN: int := -0x8000_0000_0000_0000

  /** A conversion to an unsigned type of 2^bits values: the value modulo 2^bits. */
  function ToU8(v: int): (r: Byte)
    ensures (r - v) % TWO_8 == 0
    ensures 0 <= v < TWO_8 ==> r == v
  {
    v % TWO_8
  }

  function ToU16(v: int): (r: U16)
    ensures (r - v) % TWO_16 == 0
    ensures 0 <= v < TWO_16 ==> r == v
  {
    v % TWO_16
  }

  function ToU32(v: int): (r: U32)
    ensures (r - v) % TWO_32 == 0
    ensures 0 <= v < TWO_32 ==> r == v
    ensures -TWO_32 <= v < 0 ==> r == v + TWO_32
  {
    v % TWO_32
  }

  /** A two's complement reinterpretation of an unsigned pattern as signed. */
  function ToI8(b: Byte): (r: I8)
    ensures ToU8(r) == b
  {
    if b < 0x80 then b else b - TWO_8
  }

  function ToI16(v: U16): (r: I16)
    ensures ToU16(r) == v
  {
    if v < 0x8000 then v else v - TWO_16
  }

  function ToI32(v: U32): (r: I32)
    ensures ToU32(r) == v
  {
    if v < 0x8000_0000 then v else v - TWO_32
  }

  /** Casting a signed value to the unsigned type of its width and back restores it. */
  lemma SignedRoundTrip(v8: I8, v16: I16, v32: I32)
    ensures ToI8(ToU8(v8)) == v8 && ToI16(ToU16(v16)) == v16 && ToI32(ToU32(v32)) == v32
  {
  }

  /** A C++ `char` of a std::string is one byte wide. */
  predicate IsByteChar(c: char)
  {
    c as int < 0x100
  }

  predicate IsByteString(s: string)
  {
    forall i :: 0 <= i < |s| ==> IsByteChar(s[i])
  }

  /** `(uint8_t)c` */
  function CharToByte(c: char): (b: Byte)
    ensures IsByteChar(c) ==> b == c as int
  {
    (c as int) % TWO_8
  }

  /** A byte read back into a `char`. */
  function ByteToChar(b: Byte): (c: char)
    ensures IsByteChar(c) && CharToByte(c) == b
  {
    b as char
  }

  function StringToBytes(s: string): (r: seq<Byte>)
    ensures |r| == |s|
    ensures forall i :: 0 <= i < |s| ==> r[i] == CharToByte(s[i])
  {
    seq(|s|, i requires 0 <= i < |s| => CharToByte(s[i]))
  }

  function BytesToString(b: seq<Byte>): (r: string)
    ensures |r| == |b| && IsByteString(r)
    ensures forall i :: 0 <= i < |b| ==> CharToByte(r[i]) == b[i]
  {
    seq(|b|, i requires 0 <= i < |b| => ByteToChar(b[i]))
  }

  lemma BytesStringRoundTrip(s: string)
    requires IsByteString(s)
    ensures BytesToString(StringToBytes(s)) == s
  {
    var r := BytesToString(StringToBytes(s));
    forall i | 0 <= i < |s| ensures r[i] == s[i] {
      assert IsByteChar(s[i]);
    }
  }
}
