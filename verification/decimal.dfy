/**
  Decimal rendering of natural numbers, as `String(n)` / `n.toString()` give it for a
  non-negative integer, with its inverse.
 */
module Decimal {

  predicate IsDigit(c: char) {
    '0' <= c <= '9'
  }

  function DigitChar(d: nat): (c: char)
    requires d < 10
    ensures IsDigit(c)
  {
    "0123456789"[d]
  }

  function DigitValue(c: char): nat
    requires IsDigit(c)
  {
    (c as int) - ('0' as int)
  }

  predicate AllDigits(s: string) {
    forall i :: 0 <= i < |s| ==> IsDigit(s[i])
  }

  /** The shortest decimal numeral of `n`, most significant digit first. */
  function NatToString(n: nat): (s: string)
    ensures |s| >= 1 && AllDigits(s)
    ensures |s| > 1 ==> s[0] != '0'
    decreases n
  {
    if n < 10 then [DigitChar(n)] else NatToString(n / 10) + [DigitChar(n % 10)]
  }

  /** The number a string of decimal digits denotes. */
  function ValueOf(s: string): nat
    requires AllDigits(s)
  {
    if s == [] then 0 else 10 * ValueOf(s[..|s| - 1]) + DigitValue(s[|s| - 1])
  }

  lemma {:induction false} ValueOfNatToString(n: nat)
    ensures ValueOf(NatToString(n)) == n
    decreases n
  {
    var s := NatToString(n);
    if n < 10 {
      assert s[..|s| - 1] == [];
    } else {
      ValueOfNatToString(n / 10);
      assert s[..|s| - 1] == NatToString(n / 10);
      assert DigitValue(DigitChar(n % 10)) == n % 10;
    }
  }

  /** Distinct numbers render as distinct numerals. */
  lemma NatToStringInjective(a: nat, b: nat)
    ensures NatToString(a) == NatToString(b) ==> a == b
  {
    ValueOfNatToString(a);
    ValueOfNatToString(b);
  }

  /** In `x-d` with `d` all digits, `d` is whatever follows the last dash. */
  lemma DigitsAfterLastDash(x: string, d1: string, y: string, d2: string)
    requires AllDigits(d1) && AllDigits(d2)
    requires x + "-" + d1 == y + "-" + d2
    ensures d1 == d2
  {
    var s := x + "-" + d1;
    var n := |s|;
    assert forall i :: 0 <= i < |d1| ==> s[n - |d1| + i] == d1[i];
    assert forall i :: 0 <= i < |d2| ==> s[n - |d2| + i] == d2[i];
    assert s[n - |d1| - 1] == '-';
    assert s[n - |d2| - 1] == '-';
    assert |d1| == |d2|;
    assert d1 == s[n - |d1|..] == d2;
  }
}
