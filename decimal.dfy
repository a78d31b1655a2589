/** Decimal text of natural numbers, as Python's `f"{i}"` renders a
    non-negative `int`, and the reading of such text back into a number. */
module Decimal {

  predicate IsDigit(c: char) {
    '0' <= c <= '9'
  }

  predicate AllDigits(s: string) {
    forall k :: 0 <= k < |s| ==> IsDigit(s[k])
  }

  function DigitChar(d: nat): (c: char)
    requires d < 10
    ensures IsDigit(c) && DigitValue(c) == d
  {
    (('0' as int) + d) as char
  }

  function DigitValue(c: char): nat
    requires IsDigit(c)
  {
    (c as int) - ('0' as int)
  }

  /** The shortest decimal rendering of `n`: no sign, no leading zero. */
  function NatToString(n: nat): (s: string)
    ensures |s| > 0 && AllDigits(s)
    ensures |s| > 1 ==> s[0] != '0'
  {
    if n < 10 then [DigitChar(n)] else NatToString(n / 10) + [DigitChar(n % 10)]
  }

  /** The number a string of digits denotes (most significant digit first). */
  function ParseDecimal(s: string): nat
    requires AllDigits(s)
  {
    if s == [] then 0 else ParseDecimal(s[..|s| - 1]) * 10 + DigitValue(s[|s| - 1])
  }

  /** Reading the rendering of `n` gives back `n`. */
  lemma {:induction false} ParseNatToString(n: nat)
    ensures ParseDecimal(NatToString(n)) == n
  {
    var s := NatToString(n);
    if n < 10 {
      assert s[..|s| - 1] == [];
    } else {
      var prefix := NatToString(n / 10);
      assert s[..|s| - 1] == prefix;
      ParseNatToString(n / 10);
    }
  }

  /** Distinct numbers have distinct renderings. */
  lemma NatToStringInjective(m: nat, n: nat)
    requires m != n
    ensures NatToString(m) != NatToString(n)
  {
    ParseNatToString(m);
    ParseNatToString(n);
  }
}
