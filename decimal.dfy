/**
 * The decimal text that a JavaScript template literal produces for an integer
 * number (`${n}`), together with a reference parser for it. Both clients of this
 * module splice numbers into strings: the page and limit of a transcript listing
 * and the status code of an error message.
 */
module Decimal {

  predicate IsDigit(c: char) {
    '0' <= c <= '9'
  }

  predicate AllDigits(s: string) {
    forall i :: 0 <= i < |s| ==> IsDigit(s[i])
  }

  /** A numeral as `${n}` writes it: an optional minus sign, then digits. */
  predicate IsNumeral(s: string) {
    0 < |s| && if s[0] == '-' then AllDigits(s[1..]) else AllDigits(s)
  }

  function DigitChar(d: nat): (c: char)
    requires d < 10
    ensures IsDigit(c)
  {
    (48 + d) as char
  }

  function DigitValue(c: char): (d: nat)
    requires IsDigit(c)
    ensures d < 10
  {
    c as int - 48
  }

  /** The decimal numeral of `n`, most significant digit first. */
  function NatToString(n: nat): (s: string)
    ensures 0 < |s| && AllDigits(s)
  {
    if n < 10 then [DigitChar(n)] else NatToString(n / 10) + [DigitChar(n % 10)]
  }

  /** `${n}` for an integer `n` of safe magnitude (no exponent notation). */
  function IntToString(n: int): (s: string)
    ensures IsNumeral(s)
    ensures forall i :: 0 <= i < |s| ==> IsDigit(s[i]) || s[i] == '-'
  {
    if n < 0 then "-" + NatToString(-n) else NatToString(n)
  }

  /** Reference reader for a string of digits. */
  function ParseNat(s: string): nat
    requires AllDigits(s)
  {
    if s == [] then 0 else ParseNat(s[..|s| - 1]) * 10 + DigitValue(s[|s| - 1])
  }

  function ParseInt(s: string): int
    requires IsNumeral(s)
  {
    if s[0] == '-' then -(ParseNat(s[1..]) as int) else ParseNat(s)
  }

  lemma {:induction false} ParseNatToString(n: nat)
    ensures ParseNat(NatToString(n)) == n
  {
    if n >= 10 {
      ParseNatToString(n / 10);
      var s := NatToString(n);
      assert s[..|s| - 1] == NatToString(n / 10);
    }
  }

  /** The decimal text of an integer reads back as that integer. */
  lemma ParseIntToString(n: int)
    ensures ParseInt(IntToString(n)) == n
  {
    if n < 0 {
      ParseNatToString(-n);
      assert IntToString(n)[1..] == NatToString(-n);
    } else {
      ParseNatToString(n);
    }
  }

  /** Distinct integers render as distinct text. */
  lemma IntToStringInjective(a: int, b: int)
    requires IntToString(a) == IntToString(b)
    ensures a == b
  {
    ParseIntToString(a);
    ParseIntToString(b);
  }

  /** A common prefix cancels. */
  lemma CancelPrefix(p: string, x: string, y: string)
    requires p + x == p + y
    ensures x == y
  {
    assert x == (p + x)[|p|..];
    assert y == (p + y)[|p|..];
  }

  lemma DelimiterIsFirst(a: string, b: string, d: char, k: nat)
    requires d !in a && k < |a|
    ensures (a + [d] + b)[k] != d && (a + [d] + b)[|a|] == d
  {
  }

  /**
   * A string split at the first occurrence of a delimiter that the left part
   * does not contain comes apart in only one way.
   */
  lemma SplitAtDelimiter(a1: string, b1: string, a2: string, b2: string, d: char)
    requires d !in a1 && d !in a2
    requires a1 + [d] + b1 == a2 + [d] + b2
    ensures a1 == a2 && b1 == b2
  {
    var s := a1 + [d] + b1;
    if |a1| < |a2| {
      DelimiterIsFirst(a2, b2, d, |a1|);
      assert false;
    } else if |a2| < |a1| {
      DelimiterIsFirst(a1, b1, d, |a2|);
      assert false;
    }
    assert a1 == s[..|a1|] == a2;
    assert b1 == s[|a1| + 1..] == b2;
  }
}
