/**
  Decimal rendering of non-negative integers, as a JavaScript template
  literal performs it when a whole number is interpolated (`${n}`): base ten,
  no sign, no leading zeros, and "0" for zero.
 */
module Decimal {

  predicate IsDigit(c: char) {
    '0' <= c <= '9'
  }

  /** A non-empty run of decimal digits with no superfluous leading zero. */
  predicate IsCanonical(s: string) {
    |s| >= 1 && (forall i :: 0 <= i < |s| ==> IsDigit(s[i])) && (s[0] == '0' ==> |s| == 1)
  }

  function DigitChar(d: nat): (c: char)
    requires d < 10
    ensures IsDigit(c) && c as int - '0' as int == d
  {
    (('0' as int) + d) as char
  }

  function DigitValue(c: char): (d: nat)
    requires IsDigit(c)
    ensures d < 10 && DigitChar(d) == c
  {
    c as int - '0' as int
  }

  /** The decimal text of `n`, most significant digit first. */
  function NatToString(n: nat): (s: string)
    ensures IsCanonical(s)
    ensures s[0] == '0' <==> n == 0
    ensures n < 10 <==> |s| == 1
    decreases n
  {
    if n < 10 then [DigitChar(n)] else NatToString(n / 10) + [DigitChar(n % 10)]
  }

  /** Reference reading of a digit string: the value it denotes in base ten. */
  function Value(s: string): (v: nat)
    requires forall i :: 0 <= i < |s| ==> IsDigit(s[i])
    decreases |s|
  {
    if s == [] then 0 else Value(s[..|s| - 1]) * 10 + DigitValue(s[|s| - 1])
  }

  /** Reading back the rendered text gives the number that was rendered. */
  lemma {:induction false} ValueOfNatToString(n: nat)
    ensures Value(NatToString(n)) == n
    decreases n
  {
    var s := NatToString(n);
    if n >= 10 {
      ValueOfNatToString(n / 10);
      assert s[..|s| - 1] == NatToString(n / 10);
    }
  }

  /** Distinct numbers render to distinct texts. */
  lemma NatToStringInjective(m: nat, n: nat)
    ensures NatToString(m) == NatToString(n) <==> m == n
  {
    if NatToString(m) == NatToString(n) {
      ValueOfNatToString(m);
      ValueOfNatToString(n);
    }
  }

  /** Every canonical digit string is the rendering of its value. */
  lemma {:induction false} NatToStringOfValue(s: string)
    requires IsCanonical(s)
    ensures NatToString(Value(s)) == s
    decreases |s|
  {
    if |s| > 1 {
      var init := s[..|s| - 1];
      assert IsCanonical(init) by {
        assert init[0] == s[0];
      }
      NatToStringOfValue(init);
      CanonicalValuePositive(init);
      assert Value(s) / 10 == Value(init);
      assert Value(s) % 10 == DigitValue(s[|s| - 1]);
    }
  }

  /** A canonical string other than "0" denotes a positive number. */
  lemma {:induction false} CanonicalValuePositive(s: string)
    requires IsCanonical(s) && s != "0"
    ensures Value(s) >= 1
    decreases |s|
  {
    if |s| > 1 {
      var init := s[..|s| - 1];
      assert IsCanonical(init) && init != "0" by {
        assert init[0] == s[0];
      }
      CanonicalValuePositive(init);
    }
  }
}
