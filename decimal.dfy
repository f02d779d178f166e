/**
 * Java's decimal rendering of an `int` (`"" + n`, `Integer.toString`), with
 * a parser as its partner: rendering then parsing gives the number back.
 */
module Decimal {
  import opened Wrappers

  predicate IsDigit(c: char) { '0' <= c <= '9' }

  predicate AllDigits(s: string) { forall i :: 0 <= i < |s| ==> IsDigit(s[i]) }

  function DigitChar(d: nat): (c: char)
    requires d < 10
    ensures IsDigit(c) && DigitValue(c) == d
  {
    ('0' as int + d) as char
  }

  function DigitValue(c: char): nat
    requires IsDigit(c)
  {
    c as int - '0' as int
  }

  /** The digits of `n`, most significant first, without leading zeros. */
  function NatDigits(n: nat): (s: string)
    ensures |s| > 0 && AllDigits(s)
    ensures s[0] == '0' <==> n == 0
    ensures n < 10 <==> |s| == 1
  {
    if n < 10 then [DigitChar(n)] else NatDigits(n / 10) + [DigitChar(n % 10)]
  }

  /** The value of a string of decimal digits. */
  function ParseDigits(s: string): nat
    requires AllDigits(s)
  {
    if s == [] then 0 else 10 * ParseDigits(s[..|s| - 1]) + DigitValue(s[|s| - 1])
  }

  /** `"" + n` for a Java integer: a minus sign for negatives, then the digits. */
  function FromInt(n: int): string
  {
    if n < 0 then "-" + NatDigits(-n) else NatDigits(n)
  }

  /** Reads back an optionally signed decimal; `None` for anything else. */
  function ToInt(s: string): Option<int>
  {
    if |s| > 1 && s[0] == '-' && AllDigits(s[1..]) then Some(-(ParseDigits(s[1..]) as int))
    else if |s| > 0 && AllDigits(s) then Some(ParseDigits(s))
    else None
  }

  lemma {:induction false} ParseNatDigits(n: nat)
    ensures ParseDigits(NatDigits(n)) == n
  {
    if n >= 10 {
      var s := NatDigits(n);
      assert s[..|s| - 1] == NatDigits(n / 10);
      ParseNatDigits(n / 10);
    }
  }

  /** Rendering an integer and reading it back gives the same integer. */
  lemma RoundTrip(n: int)
    ensures ToInt(FromInt(n)) == Some(n)
  {
    if n < 0 {
      NegativeRoundTrip(n);
    } else {
      var s := NatDigits(n);
      assert IsDigit(s[0]);
      ParseNatDigits(n);
    }
  }

  lemma NegativeRoundTrip(n: int)
    requires n < 0
    ensures ToInt(FromInt(n)) == Some(n)
  {
    var d := NatDigits(-n);
    var s := "-" + d;
    assert s[1..] == d;
    ParseNatDigits(-n);
    assert ParseDigits(s[1..]) == -n;
  }

  /** Distinct integers are rendered as distinct strings. */
  lemma Injective(m: int, n: int)
    ensures FromInt(m) == FromInt(n) ==> m == n
  {
    RoundTrip(m);
    RoundTrip(n);
  }

  /**
   * The rendering is canonical: a minus sign exactly for negatives, and no
   * leading zero except for zero itself.
   */
  lemma Canonical(n: int)
    ensures var s := FromInt(n);
      |s| > 0 && (s[0] == '-' <==> n < 0) &&
      (n < 0 ==> |s| > 1 && s[1] != '0' && AllDigits(s[1..])) &&
      (n >= 0 ==> AllDigits(s) && (s[0] == '0' <==> n == 0))
  {
  }
}
