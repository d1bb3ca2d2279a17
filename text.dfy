/** Text helpers shared by the overlay and the tray: how integers and
    gain amounts are printed (C# string interpolation of an int, of a
    float with at most two decimals) and how such text is read back. */
module Text {

  datatype Option<T> = None | Some(value: T)

  predicate IsDigit(c: char) {
    '0' <= c <= '9'
  }

  predicate AllDigits(s: string) {
    forall i :: 0 <= i < |s| ==> IsDigit(s[i])
  }

  function Digit(d: nat): (c: char)
    requires d < 10
    ensures IsDigit(c) && DigitValue(c) == d
  {
    ('0' as int + d) as char
  }

  function DigitValue(c: char): nat
    requires IsDigit(c)
  {
    c as int - '0' as int
  }

  /** .NET's char.IsWhiteSpace: the space separators, the line and
      paragraph separators, U+0009..U+000D and U+0085. */
  predicate IsWhiteSpace(c: char) {
    var u := c as int;
    (0x09 <= u <= 0x0D) || u == 0x20 || u == 0x85 || u == 0xA0 || u == 0x1680
    || (0x2000 <= u <= 0x200A) || u == 0x2028 || u == 0x2029 || u == 0x202F
    || u == 0x205F || u == 0x3000
  }

  /** string.IsNullOrWhiteSpace for a string that is never null. */
  predicate IsBlank(s: string) {
    forall i :: 0 <= i < |s| ==> IsWhiteSpace(s[i])
  }

  /** Decimal digits of a natural number, most significant first. */
  function NatText(n: nat): (s: string)
    ensures 1 <= |s| && AllDigits(s)
  {
    if n < 10 then [Digit(n)] else NatText(n / 10) + [Digit(n % 10)]
  }

  /** An int as C# interpolation prints it: a minus sign, then the digits. */
  function IntText(i: int): (s: string)
    ensures 1 <= |s| && (s[0] == '-' || IsDigit(s[0]))
  {
    if i < 0 then "-" + NatText(-i) else NatText(i)
  }

  /** The number a string of digits denotes. */
  function DigitsValue(s: string): nat
    requires AllDigits(s)
  {
    if s == [] then 0 else 10 * DigitsValue(s[..|s| - 1]) + DigitValue(s[|s| - 1])
  }

  /** Length of the longest prefix of digits. */
  function DigitSpan(s: string): (k: nat)
    ensures k <= |s|
    ensures AllDigits(s[..k])
    ensures k < |s| ==> !IsDigit(s[k])
  {
    if s == [] || !IsDigit(s[0]) then 0
    else
      var k := 1 + DigitSpan(s[1..]);
      assert s[..k] == [s[0]] + s[1..][..k - 1];
      k
  }

  /** Reads a natural number at the start of s; also gives what follows it. */
  function ParseNat(s: string): Option<(nat, string)> {
    var k := DigitSpan(s);
    if k == 0 then None else Some((DigitsValue(s[..k]), s[k..]))
  }

  /** Reads an optionally negative integer at the start of s. */
  function ParseInt(s: string): Option<(int, string)> {
    if s != [] && s[0] == '-' then
      match ParseNat(s[1..])
      case None => None
      case Some((n, rest)) => Some((-(n as int), rest))
    else ParseNat(s)
  }

  /** Text that cannot extend a number written before it. */
  predicate Delimited(rest: string) {
    rest == [] || !IsDigit(rest[0])
  }

  lemma {:induction false} NatTextValue(n: nat)
    ensures DigitsValue(NatText(n)) == n
  {
    if n >= 10 {
      NatTextValue(n / 10);
      var s := NatText(n / 10) + [Digit(n % 10)];
      assert s[..|s| - 1] == NatText(n / 10);
    }
  }

  lemma {:induction false} DigitSpanOfDigits(d: string, rest: string)
    requires AllDigits(d) && Delimited(rest)
    ensures DigitSpan(d + rest) == |d|
  {
    if d == [] {
      assert d + rest == rest;
    } else {
      var s := d + rest;
      assert s[0] == d[0] && s[1..] == d[1..] + rest;
      DigitSpanOfDigits(d[1..], rest);
    }
  }

  /** Printing a natural number and reading it back gives it again. */
  lemma ParseNatText(n: nat, rest: string)
    requires Delimited(rest)
    ensures ParseNat(NatText(n) + rest) == Some((n, rest))
  {
    var d := NatText(n);
    var s := d + rest;
    DigitSpanOfDigits(d, rest);
    assert s[..|d|] == d;
    assert s[|d|..] == rest;
    NatTextValue(n);
  }

  /** Printing an int and reading it back gives it again. */
  lemma ParseIntText(i: int, rest: string)
    requires Delimited(rest)
    ensures ParseInt(IntText(i) + rest) == Some((i, rest))
  {
    if i < 0 {
      ParseNegativeText(-i, rest);
    } else {
      ParseNatText(i, rest);
    }
  }

  lemma ParseNegativeText(n: nat, rest: string)
    requires Delimited(rest)
    ensures ParseInt("-" + NatText(n) + rest) == Some((-(n as int), rest))
  {
    var t := NatText(n) + rest;
    var s := "-" + NatText(n) + rest;
    assert s == ['-'] + t;
    assert s[1..] == t;
    ParseNatText(n, rest);
  }

  /** A non-negative amount given in hundredths, printed as .NET prints a
      float holding that value: "1", "0.5", "2.25" (no trailing zeros,
      no decimal point for whole numbers, invariant culture). */
  function CentiText(c: nat): (s: string)
    ensures 1 <= |s| && IsDigit(s[0])
    ensures s == NatText(c / 100) <==> c % 100 == 0
  {
    NatText(c / 100) + FractionText(c % 100)
  }

  function FractionText(f: nat): string
    requires f < 100
  {
    if f == 0 then ""
    else if f % 10 == 0 then ['.', Digit(f / 10)]
    else ['.', Digit(f / 10), Digit(f % 10)]
  }

  /** Reads a whole string as an amount with at most two decimals. */
  function ParseCenti(s: string): Option<nat> {
    match ParseNat(s)
    case None => None
    case Some((w, rest)) =>
      if rest == [] then Some(100 * w)
      else if rest[0] == '.' && |rest| == 2 && IsDigit(rest[1]) then
        Some(100 * w + 10 * DigitValue(rest[1]))
      else if rest[0] == '.' && |rest| == 3 && IsDigit(rest[1]) && IsDigit(rest[2]) then
        Some(100 * w + 10 * DigitValue(rest[1]) + DigitValue(rest[2]))
      else None
  }

  /** Printing an amount and reading it back gives it again. */
  lemma ParseCentiText(c: nat)
    ensures ParseCenti(CentiText(c)) == Some(c)
  {
    var f := FractionText(c % 100);
    assert Delimited(f);
    ParseNatText(c / 100, f);
  }
}
