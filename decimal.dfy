/**
 * Decimal rendering of a Go int as strconv.Itoa produces it (an optional
 * '-' followed by the digits of the magnitude, no leading zeros), and a
 * reference parser that reads such a string back.
 */
module Decimal {
  import opened Wrappers

  predicate IsDigit(c: char)
  {
    '0' <= c <= '9'
  }

  predicate AllDigits(s: string)
  {
    forall i :: 0 <= i < |s| ==> IsDigit(s[i])
  }

  function DigitChar(d: nat): (c: char)
    requires d < 10
    ensures IsDigit(c)
  {
    ('0' as int + d) as char
  }

  function DigitValue(c: char): (d: nat)
    requires IsDigit(c)
    ensures d < 10 && DigitChar(d) == c
  {
    c as int - '0' as int
  }

  /** The decimal digits of `n`, most significant first, without leading zeros. */
  function NatToString(n: nat): (s: string)
    ensures |s| >= 1 && AllDigits(s)
    ensures s[0] == '0' ==> n == 0 && s == "0"
  {
    if n < 10 then [DigitChar(n)] else NatToString(n / 10) + [DigitChar(n % 10)]
  }

  /** strconv.Itoa: a '-' exactly for negative numbers, then the magnitude's digits. */
  function Itoa(n: int): (s: string)
    ensures |s| >= 1
    ensures s[0] == '-' <==> n < 0
  {
    if n < 0 then "-" + NatToString(-n) else NatToString(n)
  }

  /** The value of a string of decimal digits. */
  function DigitsValue(s: string): nat
    requires AllDigits(s)
  {
    if s == [] then 0 else DigitsValue(s[..|s| - 1]) * 10 + DigitValue(s[|s| - 1])
  }

  /** Reads an optional '-' and one or more decimal digits. */
  function ParseDecimal(s: string): Option<int>
  {
    if |s| >= 2 && s[0] == '-' && AllDigits(s[1..]) then Some(0 - DigitsValue(s[1..]))
    else if |s| >= 1 && AllDigits(s) then Some(DigitsValue(s))
    else None
  }

  lemma {:induction false} DigitsOfNat(n: nat)
    ensures DigitsValue(NatToString(n)) == n
  {
    var s := NatToString(n);
    if n >= 10 {
      DigitsOfNat(n / 10);
      assert s[..|s| - 1] == NatToString(n / 10);
    }
  }

  /** Itoa's output reads back as the same integer, so distinct ports give distinct strings. */
  lemma ParseItoa(n: int)
    ensures ParseDecimal(Itoa(n)) == Some(n)
  {
    var s := Itoa(n);
    if n < 0 {
      var m := NatToString(-n);
      assert s == "-" + m;
      assert s[1..] == m;
      DigitsOfNat(-n);
      assert s[0] == '-' && AllDigits(s[1..]);
    } else {
      assert s == NatToString(n);
      DigitsOfNat(n);
      assert !(s[0] == '-');
    }
  }

  /**
   * Itoa's canonical shape: a non-negative number is all digits with no
   * leading zero unless it is 0; a negative one is '-' followed by at least
   * one digit, all digits, with no leading zero.
   */
  lemma ItoaShape(n: int)
    ensures n >= 0 ==> AllDigits(Itoa(n)) && (Itoa(n)[0] == '0' ==> n == 0)
    ensures n < 0 ==> |Itoa(n)| >= 2 && AllDigits(Itoa(n)[1..]) && Itoa(n)[1] != '0'
  {
    if n < 0 {
      assert Itoa(n)[1..] == NatToString(-n);
    }
  }
}
