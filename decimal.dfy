/**
 * Decimal text of natural numbers: Python's `str(n)` for a non-negative
 * integer and `int(s)` for a string of ASCII digits. Used for the baud-rate
 * combobox (a string) and for the line part of a Tk text index.
 */
module Decimal {
  import opened Wrappers

  predicate IsDigit(c: char) {
    '0' <= c <= '9'
  }

  predicate AllDigits(s: string) {
    forall i :: 0 <= i < |s| ==> IsDigit(s[i])
  }

  function DigitChar(d: nat): (c: char)
    requires d < 10
    ensures IsDigit(c)
  {
    ['0', '1', '2', '3', '4', '5', '6', '7', '8', '9'][d]
  }

  function DigitValue(c: char): (d: nat)
    requires IsDigit(c)
    ensures d < 10 && DigitChar(d) == c
  {
    (c as int - '0' as int) as nat
  }

  /** `str(n)`: the shortest decimal spelling of `n`, most significant digit first. */
  function Digits(n: nat): (s: string)
    ensures |s| > 0 && AllDigits(s)
    ensures '.' !in s
  {
    if n < 10 then [DigitChar(n)] else Digits(n / 10) + [DigitChar(n % 10)]
  }

  /** `Digits` is the shortest spelling: only zero itself starts with '0'. */
  lemma {:induction false} DigitsNoLeadingZero(n: nat)
    ensures Digits(n)[0] == '0' <==> n == 0
    ensures |Digits(n)| > 1 ==> Digits(n)[0] != '0'
  {
    if n >= 10 {
      DigitsNoLeadingZero(n / 10);
      assert Digits(n)[0] == Digits(n / 10)[0];
    }
  }

  /** The value of a string of digits, read most significant digit first. */
  function ValueOf(s: string): nat
    requires AllDigits(s)
  {
    if s == [] then 0 else ValueOf(s[..|s| - 1]) * 10 + DigitValue(s[|s| - 1])
  }

  /** `int(s)`: fails (Python raises ValueError) on the empty string and on any non-digit. */
  function Parse(s: string): (r: Option<nat>)
    ensures r.Some? <==> |s| > 0 && AllDigits(s)
  {
    if |s| > 0 && AllDigits(s) then Some(ValueOf(s)) else None
  }

  /** Reading back what `Digits` wrote gives the number again. */
  lemma {:induction false} ValueOfDigits(n: nat)
    ensures ValueOf(Digits(n)) == n
  {
    if n >= 10 {
      var s := Digits(n);
      assert s[..|s| - 1] == Digits(n / 10);
      ValueOfDigits(n / 10);
    }
  }

  /**
   * The number of leading zeros of a digit string that are not its last
   * character: what `str(int(s))` drops.
   */
  function LeadingZeros(s: string): (k: nat)
    requires |s| > 0
    ensures k < |s|
    ensures forall i :: 0 <= i < k ==> s[i] == '0'
    ensures k < |s| - 1 ==> s[k] != '0'
  {
    if |s| > 1 && s[0] == '0' then 1 + LeadingZeros(s[1..]) else 0
  }

  /** A string of zeros is worth 0. */
  lemma {:induction false} ValueOfZeros(z: string)
    requires forall i :: 0 <= i < |z| ==> z[i] == '0'
    ensures AllDigits(z) && ValueOf(z) == 0
  {
    if z != [] {
      ValueOfZeros(z[..|z| - 1]);
      assert DigitChar(0) == '0';
    }
  }

  /** Leading zeros do not change the value. */
  lemma {:induction false} ValueOfLeadingZeros(z: string, t: string)
    requires forall i :: 0 <= i < |z| ==> z[i] == '0'
    requires AllDigits(t)
    ensures AllDigits(z + t) && ValueOf(z + t) == ValueOf(t)
  {
    if t == [] {
      assert z + t == z;
      ValueOfZeros(z);
    } else {
      var t' := t[..|t| - 1];
      assert (z + t)[..|z + t| - 1] == z + t';
      ValueOfLeadingZeros(z, t');
    }
  }

  /** A digit string that does not start with '0' is worth at least 1. */
  lemma {:induction false} ValueOfPositive(s: string)
    requires |s| > 0 && AllDigits(s) && s[0] != '0'
    ensures ValueOf(s) > 0
  {
    if |s| > 1 {
      ValueOfPositive(s[..|s| - 1]);
    }
  }

  /** A digit string without a redundant leading zero is the spelling of its value. */
  lemma {:induction false} DigitsOfValue(t: string)
    requires |t| > 0 && AllDigits(t)
    requires |t| > 1 ==> t[0] != '0'
    ensures Digits(ValueOf(t)) == t
  {
    var p := t[..|t| - 1];
    var d := DigitValue(t[|t| - 1]);
    if |t| > 1 {
      ValueOfPositive(p);
      DigitsOfValue(p);
      var v := ValueOf(t);
      assert v == ValueOf(p) * 10 + d;
      assert v / 10 == ValueOf(p) && v % 10 == d;
      assert t == p + [t[|t| - 1]];
    }
  }

  /** `str(int(s))` is `s` without its leading zeros (a lone "0" is kept). */
  lemma DigitsOfParse(s: string)
    requires |s| > 0 && AllDigits(s)
    ensures exists k :: 0 <= k < |s| && (forall i :: 0 <= i < k ==> s[i] == '0')
                        && s[k..] == Digits(Parse(s).value)
  {
    var k := LeadingZeros(s);
    assert s == s[..k] + s[k..];
    ValueOfLeadingZeros(s[..k], s[k..]);
    DigitsOfValue(s[k..]);
  }

  /** `int(str(n)) == n`. */
  lemma ParseDigits(n: nat)
    ensures Parse(Digits(n)) == Some(n)
  {
    ValueOfDigits(n);
  }
}
