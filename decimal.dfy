/**
 * Decimal text of integers, as .NET's `ToString()` and `String.Format("{0}", …)`
 * write it for `int` and `uint` values (invariant culture): an optional '-' and
 * the digits, most significant first, without leading zeros.
 * Parsing is the inverse, used to state that formatting loses nothing.
 */
module Decimal {
  import opened Wrappers

  predicate IsDigit(c: char) {
    '0' <= c <= '9'
  }

  predicate AllDigits(s: string) {
    forall i :: 0 <= i < |s| ==> IsDigit(s[i])
  }

  function DigitChar(d: nat): (c: char)
    requires d < 10
    ensures IsDigit(c)
  {
    (('0' as int) + d) as char
  }

  function DigitValue(c: char): nat
    requires IsDigit(c)
  {
    (c as int) - ('0' as int)
  }

  /** The decimal digits of `n`: never empty, only digits, no leading zero. */
  function NatToDecimal(n: nat): (s: string)
    ensures 0 < |s| && AllDigits(s)
    ensures s[0] == '0' ==> n == 0
    decreases n
  {
    if n < 10 then [DigitChar(n)] else NatToDecimal(n / 10) + [DigitChar(n % 10)]
  }

  /** The value of a string of digits, most significant first. */
  function ParseDecimal(s: string): nat
    requires AllDigits(s)
  {
    if s == [] then 0 else 10 * ParseDecimal(s[..|s| - 1]) + DigitValue(s[|s| - 1])
  }

  lemma {:induction false} ParseNatToDecimal(n: nat)
    ensures ParseDecimal(NatToDecimal(n)) == n
    decreases n
  {
    var s := NatToDecimal(n);
    if n < 10 {
      assert s[..|s| - 1] == [];
    } else {
      assert s[..|s| - 1] == NatToDecimal(n / 10);
      ParseNatToDecimal(n / 10);
    }
  }

  /** `int.ToString()`: a '-' exactly for negative values, then the digits. */
  function IntToDecimal(n: int): (s: string)
    ensures 0 < |s|
    ensures s[0] == '-' <==> n < 0
  {
    if n < 0 then "-" + NatToDecimal(-n) else NatToDecimal(n)
  }

  /** Reads an optional '-' followed by at least one digit. */
  function ParseInt(s: string): Option<int> {
    if 0 < |s| && s[0] == '-' then
      if 1 < |s| && AllDigits(s[1..]) then Some(0 - ParseDecimal(s[1..]) as int) else None
    else if 0 < |s| && AllDigits(s) then Some(ParseDecimal(s))
    else None
  }

  lemma {:induction false} IntDecimalRoundTrip(n: int)
    ensures ParseInt(IntToDecimal(n)) == Some(n)
  {
    var s := IntToDecimal(n);
    if n < 0 {
      assert s[1..] == NatToDecimal(-n);
      ParseNatToDecimal(-n);
    } else {
      ParseNatToDecimal(n);
    }
  }

  /** Two integers print alike exactly when they are equal. */
  lemma {:induction false} IntToDecimalInjective(a: int, b: int)
    ensures IntToDecimal(a) == IntToDecimal(b) <==> a == b
  {
    IntDecimalRoundTrip(a);
    IntDecimalRoundTrip(b);
  }

  /** The longest suffix of `s` made of digits only. */
  function TrailingDigits(s: string): (d: string)
    ensures |d| <= |s| && d == s[|s| - |d|..] && AllDigits(d)
    ensures |d| < |s| ==> !IsDigit(s[|s| - |d| - 1])
  {
    if s == [] || !IsDigit(s[|s| - 1]) then []
    else TrailingDigits(s[..|s| - 1]) + [s[|s| - 1]]
  }

  /** Digits behind a non-digit separator are exactly the trailing digits. */
  lemma {:induction false} TrailingDigitsAfter(p: string, c: char, d: string)
    requires !IsDigit(c) && AllDigits(d)
    ensures TrailingDigits(p + [c] + d) == d
    decreases |d|
  {
    var s := p + [c] + d;
    if d != [] {
      var d' := d[..|d| - 1];
      assert s[..|s| - 1] == p + [c] + d';
      TrailingDigitsAfter(p, c, d');
      assert d == d' + [s[|s| - 1]];
    }
  }
}
