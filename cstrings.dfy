/** The C library and Arduino `String` routines the tank's configuration
    code relies on, on unbounded integers with the target's widths written
    out: `atol`/`atoi` (strtol on the 32-bit `long` of the ESP8266),
    `printf("%u")`, `String::startsWith` and `String::replace(tag, "")`. */
module CStrings {

  /** LONG_MIN and LONG_MAX of a 32-bit `long` (also INT_MIN, INT_MAX). */
  const LongMin: int := -0x8000_0000
  const LongMax: int := 0x7FFF_FFFF

  /** uint16_t */
  type U16 = x: int | 0 <= x < 0x1_0000

  /** The conversion of an `int` to `uint16_t`: reduction modulo 2^16. */
  function ToU16(x: int): (r: U16)
    ensures 0 <= x < 0x1_0000 ==> r == x
    ensures (r - x) % 0x1_0000 == 0
  {
    x % 0x1_0000
  }

  /** isspace in the C locale. */
  predicate IsSpace(c: char)
  {
    c == ' ' || c == '\t' || c == '\n' || c == '\U{000B}' || c == '\U{000C}' || c == '\r'
  }

  predicate IsDigit(c: char)
  {
    '0' <= c <= '9'
  }

  predicate AllDigits(d: string)
  {
    forall i :: 0 <= i < |d| ==> IsDigit(d[i])
  }

  function DigitValue(c: char): (v: nat)
    requires IsDigit(c)
    ensures v < 10
  {
    c as int - '0' as int
  }

  function DigitChar(v: nat): (c: char)
    requires v < 10
    ensures IsDigit(c) && DigitValue(c) == v
  {
    (v + '0' as int) as char
  }

  /** `String::startsWith(p)`. */
  predicate StartsWith(s: string, p: string)
  {
    p <= s
  }

  /** p occurs in s at position i. */
  predicate OccursAt(s: string, p: string, i: int)
  {
    0 <= i && i + |p| <= |s| && s[i..i + |p|] == p
  }

  /** p occurs somewhere in s. */
  ghost predicate Occurs(s: string, p: string)
  {
    exists i :: OccursAt(s, p, i)
  }

  /** The leading white space that strtol skips. */
  function SkipSpaces(s: string): (r: string)
    ensures r == [] || !IsSpace(r[0])
    ensures |r| <= |s| && r == s[|s| - |r|..]
  {
    if s != [] && IsSpace(s[0]) then SkipSpaces(s[1..]) else s
  }

  /** The longest prefix of s made of decimal digits. */
  function DigitRun(s: string): (d: string)
    ensures d <= s && AllDigits(d)
    ensures |d| == |s| || !IsDigit(s[|d|])
  {
    if s != [] && IsDigit(s[0]) then [s[0]] + DigitRun(s[1..]) else []
  }

  /** The number a string of decimal digits denotes, most significant first. */
  function DecimalValue(d: string): nat
    requires AllDigits(d)
  {
    if d == [] then 0 else DecimalValue(d[..|d| - 1]) * 10 + DigitValue(d[|d| - 1])
  }

  function Clamp(x: int, lo: int, hi: int): (r: int)
    requires lo <= hi
    ensures lo <= r <= hi
    ensures lo <= x <= hi ==> r == x
  {
    if x < lo then lo else if x > hi then hi else x
  }

  /** What strtol reads once the white space is skipped: an optional sign
      and the longest run of digits after it; no digits give 0, and a value
      outside the range of `long` is replaced by LONG_MIN or LONG_MAX. */
  function ParseLong(t: string): (r: int)
    ensures LongMin <= r <= LongMax
  {
    if t != [] && t[0] == '-' then Clamp(0 - DecimalValue(DigitRun(t[1..])), LongMin, LongMax)
    else if t != [] && t[0] == '+' then Clamp(DecimalValue(DigitRun(t[1..])), LongMin, LongMax)
    else Clamp(DecimalValue(DigitRun(t)), LongMin, LongMax)
  }

  /** `atol(s)`, that is `strtol(s, NULL, 10)`: leading white space is
      skipped and the rest read by ParseLong. `atoi` is the same on this
      target, where `int` and `long` are both 32 bits wide. */
  function Atol(s: string): (r: int)
    ensures LongMin <= r <= LongMax
  {
    ParseLong(SkipSpaces(s))
  }

  /** `printf("%u", n)`: the decimal digits of n, without leading zeros. */
  function Decimal(n: nat): (d: string)
    ensures |d| >= 1 && AllDigits(d)
    ensures |d| > 1 ==> d[0] != '0'
  {
    if n < 10 then [DigitChar(n)] else Decimal(n / 10) + [DigitChar(n % 10)]
  }

  /** `String::replace(p, "")`: every occurrence of p, found left to right
      in the original text, is removed. */
  function RemoveAll(s: string, p: string): (r: string)
    requires |p| > 0
    ensures |r| <= |s|
    decreases |s|
  {
    if |s| < |p| then s
    else if s[..|p|] == p then RemoveAll(s[|p|..], p)
    else [s[0]] + RemoveAll(s[1..], p)
  }

  /** Reading back what `%u` printed gives the number. */
  lemma {:induction false} DecimalValueOfDecimal(n: nat)
    ensures DecimalValue(Decimal(n)) == n
  {
    if n >= 10 {
      var d := Decimal(n);
      assert d[..|d| - 1] == Decimal(n / 10);
      DecimalValueOfDecimal(n / 10);
    }
  }

  /** A run of digits followed by a non-digit is exactly what DigitRun reads. */
  lemma {:induction false} DigitRunOfDigits(d: string, rest: string)
    requires AllDigits(d)
    requires rest == [] || !IsDigit(rest[0])
    ensures DigitRun(d + rest) == d
  {
    if d != [] {
      assert (d + rest)[1..] == d[1..] + rest;
      DigitRunOfDigits(d[1..], rest);
    }
  }

  /** A nonempty run of digits followed by a non-digit reads as the
      number the digits denote, clamped to the range of `long`. */
  lemma AtolOfDigits(d: string, rest: string)
    requires |d| >= 1 && AllDigits(d)
    requires rest == [] || !IsDigit(rest[0])
    ensures Atol(d + rest) == Clamp(DecimalValue(d), LongMin, LongMax)
  {
    var s := d + rest;
    assert s[0] == d[0] && IsDigit(d[0]);
    assert !IsSpace(s[0]) && s[0] != '-' && s[0] != '+';
    assert SkipSpaces(s) == s;
    assert Atol(s) == Clamp(DecimalValue(DigitRun(s)), LongMin, LongMax);
    DigitRunOfDigits(d, rest);
  }

  /** Round trip of `printf("%u")` and `atol`: a number within the range of
      `long` printed in decimal and followed by anything that is not a digit
      is read back as itself. */
  lemma AtolOfDecimal(n: nat, rest: string)
    requires n <= LongMax
    requires rest == [] || !IsDigit(rest[0])
    ensures Atol(Decimal(n) + rest) == n
  {
    AtolOfDigits(Decimal(n), rest);
    DecimalValueOfDecimal(n);
  }

  /** Leading white space does not change what atol reads. */
  lemma AtolSkipsSpace(c: char, s: string)
    requires IsSpace(c)
    ensures Atol([c] + s) == Atol(s)
  {
    assert ([c] + s)[1..] == s;
    assert SkipSpaces([c] + s) == SkipSpaces(s);
  }

  /** A string without a digit (after white space and a sign) reads as 0. */
  lemma AtolNoDigits(s: string)
    requires forall i :: 0 <= i < |s| ==> !IsDigit(s[i])
    ensures Atol(s) == 0
  {
    var t := SkipSpaces(s);
    forall i | 0 <= i < |t|
      ensures !IsDigit(t[i])
    {
      assert t[i] == s[|s| - |t| + i];
    }
    assert DigitRun(t) == [];
    if t != [] {
      assert t[1..] == [] || !IsDigit(t[1..][0]);
      assert DigitRun(t[1..]) == [];
    }
  }

  /** Removing the occurrences of p from a string where p does not occur
      leaves the string as it is. */
  lemma {:induction false} RemoveAllAbsent(s: string, p: string)
    requires |p| > 0 && !Occurs(s, p)
    ensures RemoveAll(s, p) == s
    decreases |s|
  {
    if |s| >= |p| {
      assert !OccursAt(s, p, 0);
      assert !Occurs(s[1..], p) by {
        forall i
          ensures !OccursAt(s[1..], p, i)
        {
          if 0 <= i && i + |p| <= |s| - 1 {
            assert !OccursAt(s, p, i + 1);
            assert s[1..][i..i + |p|] == s[i + 1..i + 1 + |p|];
          }
        }
      }
      RemoveAllAbsent(s[1..], p);
      assert s == [s[0]] + s[1..];
    }
  }

  /** A tag followed by a value that does not contain the tag: removing the
      tag leaves exactly the value. */
  lemma RemoveTag(p: string, v: string)
    requires |p| > 0 && !Occurs(v, p)
    ensures RemoveAll(p + v, p) == v
  {
    assert (p + v)[..|p|] == p;
    assert (p + v)[|p|..] == v;
    RemoveAllAbsent(v, p);
  }

  /** A string that does not contain the first character of p does not contain p. */
  lemma NotOccursByFirst(s: string, p: string)
    requires |p| > 0 && forall i :: 0 <= i < |s| ==> s[i] != p[0]
    ensures !Occurs(s, p)
  {
    forall i | 0 <= i < |s|
      ensures !OccursAt(s, p, i)
    {
      assert s[i] != p[0];
    }
  }

  /** No decimal numeral contains a text that starts with a non-digit. */
  lemma DecimalHasNoTag(n: nat, p: string)
    requires |p| > 0 && !IsDigit(p[0])
    ensures !Occurs(Decimal(n), p)
  {
    NotOccursByFirst(Decimal(n), p);
  }
}
