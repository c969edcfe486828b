/**
 * The pieces of the C and C++ standard libraries that the terminal uses on text:
 * decimal formatting (std::to_string, Python str), decimal parsing (atoi, stoi,
 * stoll), "%.6x" formatting, strtol with base 16, std::getline splitting and
 * substring search.
 */
module Text {
  import opened Common

  // ---------------------------------------------------------------- digits

  predicate IsDigit(c: char) { '0' <= c <= '9' }

  predicate AllDigits(s: string)
  {
    forall i :: 0 <= i < |s| ==> IsDigit(s[i])
  }

  function DigitValue(c: char): nat
    requires IsDigit(c)
  {
    c as int - '0' as int
  }

  function DigitChar(d: nat): (c: char)
    requires d < 10
    ensures IsDigit(c) && DigitValue(c) == d
  {
    ('0' as int + d) as char
  }

  /** The value of a run of decimal digits, most significant first. */
  function DecimalValue(s: string): nat
    requires AllDigits(s)
  {
    if s == [] then 0 else DecimalValue(s[..|s| - 1]) * 10 + DigitValue(s[|s| - 1])
  }

  /** The decimal text of a natural number, without leading zeros. */
  function NatToDecimal(n: nat): (r: string)
    ensures |r| > 0 && AllDigits(r)
    ensures DecimalValue(r) == n
    ensures r[0] == '0' ==> n == 0
    decreases n
  {
    if n < 10 then [DigitChar(n)]
    else
      var prefix := NatToDecimal(n / 10);
      var r := prefix + [DigitChar(n % 10)];
      assert r[..|r| - 1] == prefix;
      r
  }

  /** A name made of a fixed prefix and a number in decimal, as "BUTTON" + std::to_string(id). */
  function Numbered(prefix: string, n: nat): (r: string)
    ensures |r| > |prefix| && r[..|prefix|] == prefix
    ensures AllDigits(r[|prefix|..]) && DecimalValue(r[|prefix|..]) == n
  {
    var digits := NatToDecimal(n);
    var r := prefix + digits;
    assert r[|prefix|..] == digits;
    r
  }

  /** std::to_string of an integer, and Python's str() of an int. */
  function IntToDecimal(i: int): (r: string)
    ensures |r| > 0
    ensures r[0] == '-' <==> i < 0
    ensures i >= 0 ==> AllDigits(r) && DecimalValue(r) == i
    ensures i < 0 ==> AllDigits(r[1..]) && |r| > 1 && DecimalValue(r[1..]) == -i
  {
    if i < 0 then "-" + NatToDecimal(-i) else NatToDecimal(i)
  }

  // ---------------------------------------------------------------- parsing decimals

  /** isspace() in the C locale. */
  predicate IsSpace(c: char)
  {
    c == ' ' || c == '\t' || c == '\n' || c == '\r' || c as int == 0x0B || c as int == 0x0C
  }

  function SkipSpaces(s: string): (r: string)
    ensures |r| <= |s| && r == s[|s| - |r|..]
    ensures r == [] || !IsSpace(r[0])
  {
    if s != [] && IsSpace(s[0]) then SkipSpaces(s[1..]) else s
  }

  /** The length of the leading run of decimal digits. */
  function DigitRun(s: string): (n: nat)
    ensures n <= |s| && AllDigits(s[..n])
    ensures n < |s| ==> !IsDigit(s[n])
  {
    if s != [] && IsDigit(s[0]) then
      var n := 1 + DigitRun(s[1..]);
      assert s[..n] == [s[0]] + s[1..][..n - 1];
      n
    else 0
  }

  /** The text after optional leading white space and one optional sign. */
  function UnsignedPart(t: string): string
  {
    if |t| > 0 && (t[0] == '-' || t[0] == '+') then t[1..] else t
  }

  /**
   * The number that the base-10 conversions of the C library read: leading white
   * space, an optional sign, then the longest run of digits. None when no digit
   * follows (atoi then gives 0, stoi and stoll throw std::invalid_argument).
   */
  function ParseDecimalPrefix(s: string): (r: Option<int>)
    ensures r.None? <==> DigitRun(UnsignedPart(SkipSpaces(s))) == 0
  {
    var t := SkipSpaces(s);
    var u := UnsignedPart(t);
    var n := DigitRun(u);
    if n == 0 then None
    else
      var magnitude: int := DecimalValue(u[..n]);
      Some(if |t| > 0 && t[0] == '-' then -magnitude else magnitude)
  }

  /** atoi: 0 when nothing can be read (out-of-range input is undefined in C and is not modelled). */
  function Atoi(s: string): int
  {
    ParseDecimalPrefix(s).GetOr(0)
  }

  /** std::stoi: None stands for the std::invalid_argument / std::out_of_range exceptions. */
  function Stoi(s: string): (r: Option<int>)
    ensures r.Some? ==> INT32_MIN <= r.value <= INT32_MAX
  {
    var p := ParseDecimalPrefix(s);
    if p.Some? && INT32_MIN <= p.value <= INT32_MAX then p else None
  }

  /** std::stoll: None stands for the exceptions it throws. */
  function Stoll(s: string): (r: Option<int>)
    ensures r.Some? ==> INT64_MIN <= r.value <= INT64_MAX
  {
    var p := ParseDecimalPrefix(s);
    if p.Some? && INT64_MIN <= p.value <= INT64_MAX then p else None
  }

  lemma {:induction false} DigitRunOfDigits(s: string)
    requires AllDigits(s)
    ensures DigitRun(s) == |s|
  {
    if s != [] {
      DigitRunOfDigits(s[1..]);
    }
  }

  /** Reading back the decimal text of any integer gives that integer. */
  lemma DecimalRoundTrip(i: int)
    ensures ParseDecimalPrefix(IntToDecimal(i)) == Some(i)
  {
    var s := IntToDecimal(i);
    assert !IsSpace(s[0]);
    assert SkipSpaces(s) == s;
    if i < 0 {
      var u := s[1..];
      assert UnsignedPart(s) == u;
      DigitRunOfDigits(u);
      assert u[..|u|] == u;
      assert DecimalValue(u) == -i;
    } else {
      assert UnsignedPart(s) == s;
      DigitRunOfDigits(s);
      assert s[..|s|] == s;
    }
  }

  // ---------------------------------------------------------------- hexadecimal

  predicate IsHexDigit(c: char)
  {
    IsDigit(c) || 'a' <= c <= 'f' || 'A' <= c <= 'F'
  }

  predicate AllHex(s: string)
  {
    forall i :: 0 <= i < |s| ==> IsHexDigit(s[i])
  }

  function HexDigitValue(c: char): (v: nat)
    requires IsHexDigit(c)
    ensures v < 16
  {
    if IsDigit(c) then c as int - '0' as int
    else if 'a' <= c <= 'f' then c as int - 'a' as int + 10
    else c as int - 'A' as int + 10
  }

  function HexDigitChar(d: nat): (c: char)
    requires d < 16
    ensures IsHexDigit(c) && HexDigitValue(c) == d
  {
    if d < 10 then ('0' as int + d) as char else ('a' as int + d - 10) as char
  }

  function HexValue(s: string): nat
    requires AllHex(s)
  {
    if s == [] then 0 else HexValue(s[..|s| - 1]) * 16 + HexDigitValue(s[|s| - 1])
  }

  function Pow16(k: nat): (r: nat)
    ensures r >= 1
  {
    if k == 0 then 1 else 16 * Pow16(k - 1)
  }

  /** The lower-case hexadecimal text of a natural number, without leading zeros. */
  function NatToHex(n: nat): (r: string)
    ensures |r| > 0 && AllHex(r) && HexValue(r) == n
    decreases n
  {
    if n < 16 then [HexDigitChar(n)]
    else
      var prefix := NatToHex(n / 16);
      var r := prefix + [HexDigitChar(n % 16)];
      assert r[..|r| - 1] == prefix;
      r
  }

  function Zeros(k: nat): (r: string)
    ensures |r| == k && forall i :: 0 <= i < k ==> r[i] == '0'
  {
    seq(k, i => '0')
  }

  lemma {:induction false} HexValueConcat(a: string, b: string)
    requires AllHex(a) && AllHex(b)
    ensures AllHex(a + b) && HexValue(a + b) == HexValue(a) * Pow16(|b|) + HexValue(b)
    decreases |b|
  {
    if b != [] {
      var b' := b[..|b| - 1];
      var last := HexDigitValue(b[|b| - 1]);
      assert (a + b)[..|a + b| - 1] == a + b';
      assert (a + b)[|a + b| - 1] == b[|b| - 1];
      HexValueConcat(a, b');
      assert HexValue(a + b) == HexValue(a + b') * 16 + last;
      assert HexValue(b) == HexValue(b') * 16 + last;
      ShiftDigit(HexValue(a), Pow16(|b'|), HexValue(b'), last);
    } else {
      assert a + b == a;
    }
  }

  /** Appending one digit to a + b' multiplies the weight of a by 16. */
  lemma ShiftDigit(x: int, p: int, y: int, d: int)
    ensures (x * p + y) * 16 + d == x * (16 * p) + (y * 16 + d)
  {
  }

  lemma {:induction false} HexValueZeros(k: nat)
    ensures AllHex(Zeros(k)) && HexValue(Zeros(k)) == 0
  {
    if k > 0 {
      assert Zeros(k)[..k - 1] == Zeros(k - 1);
      HexValueZeros(k - 1);
    }
  }

  /** printf's "%.6x": at least six lower-case hexadecimal digits, zero-padded on the left. */
  function FormatHex6(n: nat): (r: string)
    ensures |r| >= 6 && AllHex(r) && HexValue(r) == n
    ensures n < 0x100_0000 ==> |r| == 6
  {
    var h := NatToHex(n);
    if |h| < 6 then
      HexValueZeros(6 - |h|);
      HexValueConcat(Zeros(6 - |h|), h);
      Zeros(6 - |h|) + h
    else
      assert Pow16(6) == 0x100_0000;
      assert n < 0x100_0000 ==> |h| <= 6 by {
        if n < 0x100_0000 { HexLength(n, 6); }
      }
      h
  }

  lemma {:induction false} HexLength(n: nat, k: nat)
    requires k >= 1 && n < Pow16(k)
    ensures |NatToHex(n)| <= k
    decreases n
  {
    if n >= 16 {
      assert k >= 2;
      HexLength(n / 16, k - 1);
    }
  }

  /** A number of at least 16^k takes more than k hexadecimal digits. */
  lemma {:induction false} HexLengthAbove(n: nat, k: nat)
    requires n >= Pow16(k)
    ensures |NatToHex(n)| > k
    decreases k
  {
    if k > 0 {
      assert n >= 16;
      HexLengthAbove(n / 16, k - 1);
    }
  }

  function HexRun(s: string): (n: nat)
    ensures n <= |s| && AllHex(s[..n])
    ensures n < |s| ==> !IsHexDigit(s[n])
  {
    if s != [] && IsHexDigit(s[0]) then
      var n := 1 + HexRun(s[1..]);
      assert s[..n] == [s[0]] + s[1..][..n - 1];
      n
    else 0
  }

  /** The text strtol reads digits from in base 16: after one optional "0x" or "0X". */
  function HexDigitsPart(u: string): string
  {
    if |u| >= 3 && u[0] == '0' && (u[1] == 'x' || u[1] == 'X') && IsHexDigit(u[2]) then u[2..] else u
  }

  /**
   * strtol(text, NULL, 16) with a 64-bit long: leading white space, an optional
   * sign, an optional 0x prefix, the longest run of hexadecimal digits; 0 when
   * there is none; LONG_MAX or LONG_MIN when the value does not fit.
   */
  function Strtol16(s: string): (r: int)
    ensures INT64_MIN <= r <= INT64_MAX
  {
    var t := SkipSpaces(s);
    var v := HexDigitsPart(UnsignedPart(t));
    var magnitude: int := HexValue(v[..HexRun(v)]);
    if |t| > 0 && t[0] == '-' then
      (if magnitude > -INT64_MIN then INT64_MIN else -magnitude)
    else
      (if magnitude > INT64_MAX then INT64_MAX else magnitude)
  }

  lemma {:induction false} HexRunOfHex(s: string)
    requires AllHex(s)
    ensures HexRun(s) == |s|
  {
    if s != [] {
      HexRunOfHex(s[1..]);
    }
  }

  /** strtol in base 16 reads back every "%.6x" text that fits in a long. */
  lemma Strtol16FormatHex6(n: nat)
    requires n <= INT64_MAX
    ensures Strtol16(FormatHex6(n)) == n
  {
    var s := FormatHex6(n);
    assert IsHexDigit(s[0]) && IsHexDigit(s[1]);
    assert SkipSpaces(s) == s;
    assert UnsignedPart(s) == s;
    assert HexDigitsPart(s) == s;
    HexRunOfHex(s);
    assert s[..HexRun(s)] == s;
    assert HexValue(s) == n;
  }

  // ---------------------------------------------------------------- searching and splitting

  /** std::string::find of one character; |s| plays the part of npos. */
  function IndexOf(s: string, c: char): (i: nat)
    ensures i <= |s|
    ensures i < |s| ==> s[i] == c
    ensures forall j :: 0 <= j < i ==> s[j] != c
  {
    if s == [] then 0
    else if s[0] == c then 0
    else 1 + IndexOf(s[1..], c)
  }

  /** The first c in a + [c] + b is the one after a, when a holds none. */
  lemma IndexOfAfter(a: string, c: char, b: string)
    requires c !in a
    ensures IndexOf(a + [c] + b, c) == |a|
  {
    var s := a + [c] + b;
    assert s[|a|] == c;
    assert forall j :: 0 <= j < |a| ==> s[j] == a[j];
  }

  predicate StartsWith(s: string, prefix: string)
  {
    |prefix| <= |s| && s[..|prefix|] == prefix
  }

  /** `s.find(sub) != npos` */
  predicate Contains(s: string, sub: string)
    decreases |s|
  {
    StartsWith(s, sub) || (s != [] && Contains(s[1..], sub))
  }

  /**
   * The tokens that repeated `std::getline(stream, token, delim)` calls produce:
   * every delimiter ends a token, and text after the last delimiter is a token
   * only when it is not empty.
   */
  function GetlineSplit(s: string, delim: char): (r: seq<string>)
    ensures forall k :: 0 <= k < |r| ==> delim !in r[k]
    ensures s == [] <==> r == []
    decreases |s|
  {
    if s == [] then []
    else
      var i := IndexOf(s, delim);
      if i == |s| then [s]
      else [s[..i]] + GetlineSplit(s[i + 1..], delim)
  }

  /** A delimiter-terminated first token is split off as it is, even when empty. */
  lemma SplitFirstToken(a: string, delim: char, b: string)
    requires delim !in a
    ensures GetlineSplit(a + [delim] + b, delim) == [a] + GetlineSplit(b, delim)
  {
    var s := a + [delim] + b;
    var i := IndexOf(s, delim);
    assert s[|a|] == delim;
    assert forall j :: 0 <= j < |a| ==> s[j] == a[j];
    assert i == |a|;
    assert s[..i] == a;
    assert s[i + 1..] == b;
  }

  /** Text without a delimiter is one token. */
  lemma SplitLastToken(a: string, delim: char)
    requires delim !in a && a != []
    ensures GetlineSplit(a, delim) == [a]
  {
    assert IndexOf(a, delim) == |a|;
  }

  /** A delimiter at the very end of a non-empty text adds no token. */
  lemma {:induction false} SplitTrailingDelimiter(s: string, delim: char)
    requires s != [] && s[|s| - 1] != delim
    ensures GetlineSplit(s + [delim], delim) == GetlineSplit(s, delim)
    decreases |s|
  {
    var i := IndexOf(s, delim);
    if i == |s| {
      calc {
        GetlineSplit(s + [delim], delim);
        { assert s + [delim] == s + [delim] + []; SplitFirstToken(s, delim, []); }
        [s] + GetlineSplit([], delim);
        { SplitLastToken(s, delim); }
        GetlineSplit(s, delim);
      }
    } else {
      var a, b := s[..i], s[i + 1..];
      calc {
        GetlineSplit(s + [delim], delim);
        { assert s + [delim] == a + [delim] + (b + [delim]); SplitFirstToken(a, delim, b + [delim]); }
        [a] + GetlineSplit(b + [delim], delim);
        { assert s[|s| - 1] == b[|b| - 1]; SplitTrailingDelimiter(b, delim); }
        [a] + GetlineSplit(b, delim);
        { assert s == a + [delim] + b; SplitFirstToken(a, delim, b); }
        GetlineSplit(s, delim);
      }
    }
  }
}
