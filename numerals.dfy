/**
 * Decimal text of integers: Python's `str(n)` for an int and `int(s)` for a
 * string of decimal digits with an optional leading minus sign.
 */
module Numerals {
  import opened Common

  predicate IsDigit(c: char) { '0' <= c <= '9' }

  predicate AllDigits(s: string) { forall i :: 0 <= i < |s| ==> IsDigit(s[i]) }

  function DigitChar(d: int): (c: char)
    requires 0 <= d < 10
    ensures IsDigit(c) && c as int - '0' as int == d
  {
    (d + '0' as int) as char
  }

  /** `str(n)` for a non-negative int: no leading zero unless the number is 0. */
  function NatToString(n: nat): (s: string)
    ensures |s| >= 1 && AllDigits(s)
    ensures |s| > 1 ==> s[0] != '0'
  {
    if n < 10 then [DigitChar(n)] else NatToString(n / 10) + [DigitChar(n % 10)]
  }

  /** `str(n)` for any int. */
  function IntToString(n: int): (s: string)
    ensures |s| >= 1
    ensures s[0] == '-' <==> n < 0
  {
    if n < 0 then "-" + NatToString(-n) else NatToString(n)
  }

  /** The value of a non-empty string of decimal digits. */
  function ParseNat(s: string): nat
    requires |s| >= 1 && AllDigits(s)
  {
    var d := s[|s| - 1] as int - '0' as int;
    if |s| == 1 then d else ParseNat(s[..|s| - 1]) * 10 + d
  }

  /**
   * `int(s)` for a string: `None` stands for the `ValueError` Python raises
   * on text that is not an optionally negated run of decimal digits.
   */
  function ParseInt(s: string): Option<int>
  {
    if |s| >= 2 && s[0] == '-' && AllDigits(s[1..]) then Some(0 - ParseNat(s[1..]) as int)
    else if |s| >= 1 && AllDigits(s) then Some(ParseNat(s))
    else None
  }

  lemma {:induction false} NatRoundTrip(n: nat)
    ensures ParseNat(NatToString(n)) == n
  {
    if n >= 10 {
      var s := NatToString(n / 10);
      var t := s + [DigitChar(n % 10)];
      assert t[..|t| - 1] == s;
      NatRoundTrip(n / 10);
    }
  }

  /** Parsing the text of an int gives that int back. */
  lemma RoundTrip(n: int)
    ensures ParseInt(IntToString(n)) == Some(n)
  {
    if n < 0 {
      var t := NatToString(-n);
      var s := IntToString(n);
      assert s == "-" + t;
      assert s[1..] == t;
      assert |s| >= 2 && s[0] == '-' && AllDigits(s[1..]);
      NatRoundTrip(-n);
      assert ParseInt(s) == Some(0 - ParseNat(t) as int);
    } else {
      NatRoundTrip(n);
    }
  }

  /** Distinct ints have distinct texts. */
  lemma TextInjective(a: int, b: int)
    requires IntToString(a) == IntToString(b)
    ensures a == b
  {
    RoundTrip(a);
    RoundTrip(b);
  }
}
