/** Shared helpers: failure-carrying results, the source's fixed-width integer types,
    and the few string operations the block codecs need (prefix stripping and the
    decimal conversions behind Rust's `to_string` and `parse`). */
module Common {

  datatype Option<+T> = None | Some(value: T)

  /** A computation that either yields a value or aborts the program (a Rust panic,
      `unwrap` on an error, or an out-of-bounds index). */
  datatype Result<+T> = Ok(value: T) | Panic(reason: string)

  type u8 = x: int | 0 <= x < 256
  type i8 = x: int | -128 <= x < 128
  type u16 = x: int | 0 <= x < 65536

  predicate StartsWith(s: string, prefix: string) {
    |prefix| <= |s| && s[..|prefix|] == prefix
  }

  /** A string differing from `prefix` at some index `i` below both lengths does not
      start with it. */
  lemma NotStartsWith(s: string, prefix: string, i: nat)
    requires i < |prefix|
    requires i < |s| ==> s[i] != prefix[i]
    ensures !StartsWith(s, prefix)
  {
  }

  /** `str::strip_prefix(..).unwrap_or(s)` */
  function StripPrefix(s: string, prefix: string): (r: string)
    ensures StartsWith(s, prefix) ==> prefix + r == s
    ensures !StartsWith(s, prefix) ==> r == s
  {
    if StartsWith(s, prefix) then s[|prefix|..] else s
  }

  predicate IsDigit(c: char) {
    '0' <= c <= '9'
  }

  function DigitChar(d: nat): (c: char)
    requires d < 10
    ensures IsDigit(c)
  {
    ['0', '1', '2', '3', '4', '5', '6', '7', '8', '9'][d]
  }

  function DigitValue(c: char): (d: nat)
    requires IsDigit(c)
    ensures d < 10
  {
    (c as int - '0' as int) as nat
  }

  /** Decimal rendering of a natural number, without leading zeros. */
  function NatToString(n: nat): (s: string)
    ensures |s| > 0
    ensures forall i :: 0 <= i < |s| ==> IsDigit(s[i])
    decreases n
  {
    if n < 10 then [DigitChar(n)] else NatToString(n / 10) + [DigitChar(n % 10)]
  }

  /** `to_string` of a signed integer. */
  function IntToString(i: int): string {
    if i < 0 then "-" + NatToString(-i) else NatToString(i)
  }

  /** Value of a non-empty run of decimal digits (leading zeros allowed). */
  function DigitsValue(s: string): nat
    requires forall i :: 0 <= i < |s| ==> IsDigit(s[i])
  {
    if s == [] then 0 else DigitsValue(s[..|s| - 1]) * 10 + DigitValue(s[|s| - 1])
  }

  predicate AllDigits(s: string) {
    |s| > 0 && forall i :: 0 <= i < |s| ==> IsDigit(s[i])
  }

  /** Rust's unsigned `parse`: an optional `+`, then one or more digits, in range. */
  function ParseU8(s: string): Option<u8> {
    var body := if |s| > 0 && s[0] == '+' then s[1..] else s;
    if AllDigits(body) && DigitsValue(body) < 256 then Some(DigitsValue(body) as u8) else None
  }

  /** Rust's signed `parse` for `i8`: an optional sign, then one or more digits, in range. */
  function ParseI8(s: string): (r: Option<i8>)
  {
    if |s| > 0 && s[0] == '-' then
      var body := s[1..];
      if AllDigits(body) && DigitsValue(body) <= 128 then Some((0 - DigitsValue(body)) as i8) else None
    else
      var body := if |s| > 0 && s[0] == '+' then s[1..] else s;
      if AllDigits(body) && DigitsValue(body) < 128 then Some(DigitsValue(body) as i8) else None
  }

  lemma DigitRoundTrip(d: nat)
    requires d < 10
    ensures DigitValue(DigitChar(d)) == d
  {
  }

  /** Reading back the decimal rendering of `n` yields `n`. */
  lemma {:induction false} DigitsOfNatToString(n: nat)
    ensures AllDigits(NatToString(n))
    ensures DigitsValue(NatToString(n)) == n
    decreases n
  {
    var s := NatToString(n);
    if n < 10 {
      DigitRoundTrip(n);
    } else {
      DigitsOfNatToString(n / 10);
      DigitRoundTrip(n % 10);
      assert s[..|s| - 1] == NatToString(n / 10);
    }
  }

  /** The decimal rendering of a number never starts with a sign. */
  lemma NatToStringUnsigned(n: nat)
    ensures NatToString(n)[0] != '-' && NatToString(n)[0] != '+'
  {
    assert IsDigit(NatToString(n)[0]);
  }

  /** `parse::<u8>()` inverts `to_string` on every `u8`. */
  lemma ParseU8OfToString(v: u8)
    ensures ParseU8(NatToString(v)) == Some(v)
  {
    DigitsOfNatToString(v);
    NatToStringUnsigned(v);
  }

  /** `parse::<i8>()` inverts `to_string` on every `i8`, negative values included. */
  lemma ParseI8OfToString(v: i8)
    ensures ParseI8(IntToString(v)) == Some(v)
  {
    if v < 0 {
      ParseNegativeOfToString(v);
    } else {
      DigitsOfNatToString(v);
      NatToStringUnsigned(v);
    }
  }

  lemma ParseNegativeOfToString(v: i8)
    requires v < 0
    ensures ParseI8(IntToString(v)) == Some(v)
  {
    var n: nat := 0 - v as int;
    var s := IntToString(v);
    assert s == "-" + NatToString(n);
    assert s[1..] == NatToString(n);
    DigitsOfNatToString(n);
  }

  /** Number of occurrences of `c` in `s`. */
  function Count(s: string, c: char): nat {
    if s == [] then 0 else Count(s[..|s| - 1], c) + (if s[|s| - 1] == c then 1 else 0)
  }

  lemma {:induction false} CountAppend(a: string, b: string, c: char)
    ensures Count(a + b, c) == Count(a, c) + Count(b, c)
    decreases |b|
  {
    if b == [] {
      assert a + b == a;
    } else {
      CountAppend(a, b[..|b| - 1], c);
      assert (a + b)[..|a + b| - 1] == a + b[..|b| - 1];
    }
  }
}
