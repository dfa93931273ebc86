/**
 * std::to_string on unsigned values: the shortest decimal numeral, as used to
 * build indexed uniform names such as "gLightSpaceVP[2]" or "gDiffuseMap0".
 */
module Decimal {

  predicate IsDigit(c: char) { '0' <= c <= '9' }

  predicate AllDigits(s: string) { forall k :: 0 <= k < |s| ==> IsDigit(s[k]) }

  function DigitChar(d: nat): (c: char)
    requires d < 10
    ensures IsDigit(c)
  {
    ('0' as int + d) as char
  }

  function DigitValue(c: char): (d: nat)
    requires IsDigit(c)
    ensures d < 10 && DigitChar(d) == c
  {
    c as int - '0' as int
  }

  /** The decimal numeral of n, most significant digit first. */
  function ToDecimal(n: nat): (s: string)
    ensures 0 < |s| && AllDigits(s)
    ensures n < 10 <==> |s| == 1
    decreases n
  {
    if n < 10 then [DigitChar(n)] else ToDecimal(n / 10) + [DigitChar(n % 10)]
  }

  /** Reads a numeral back; the inverse of ToDecimal. */
  function FromDecimal(s: string): nat
    requires AllDigits(s)
  {
    if s == [] then 0 else 10 * FromDecimal(s[..|s| - 1]) + DigitValue(s[|s| - 1])
  }

  lemma {:induction false} FromToDecimal(n: nat)
    ensures FromDecimal(ToDecimal(n)) == n
    decreases n
  {
    var s := ToDecimal(n);
    if n >= 10 {
      FromToDecimal(n / 10);
      assert s[..|s| - 1] == ToDecimal(n / 10);
    }
  }

  /** Distinct counters give distinct numerals. */
  lemma ToDecimalInjective(a: nat, b: nat)
    ensures ToDecimal(a) == ToDecimal(b) <==> a == b
  {
    if ToDecimal(a) == ToDecimal(b) {
      FromToDecimal(a);
      FromToDecimal(b);
    }
  }
}
