/** Decimal digits, most significant first and without leading zeros, and integers as text. */
module Decimal {
  function Digits(n: nat): seq<nat> {
    if n < 10 then [n] else Digits(n / 10) + [n % 10]
  }

  function Value(digits: seq<nat>): nat {
    if digits == [] then 0 else Value(digits[..|digits| - 1]) * 10 + digits[|digits| - 1]
  }

  predicate AllDigits(digits: seq<nat>) {
    forall i :: 0 <= i < |digits| ==> digits[i] < 10
  }

  lemma {:induction false} ValueOfDigits(n: nat)
    ensures Value(Digits(n)) == n
    ensures AllDigits(Digits(n)) && Digits(n) != []
  {
    if n < 10 {
      assert [n][..0] == [];
    } else {
      ValueOfDigits(n / 10);
      assert Digits(n)[..|Digits(n)| - 1] == Digits(n / 10);
    }
  }

  lemma SevenDigits(n: nat)
    requires n < 10_000_000
    ensures |Digits(n)| <= 7
  {
    var a := n / 10;
    var b := a / 10;
    var c := b / 10;
    var d := c / 10;
    var e := d / 10;
    var f := e / 10;
    assert f < 10 && |Digits(f)| == 1;
    assert |Digits(e)| <= 2;
    assert |Digits(d)| <= 3;
    assert |Digits(c)| <= 4;
    assert |Digits(b)| <= 5;
    assert |Digits(a)| <= 6;
  }

  function DigitChar(d: nat): char
    requires d < 10
  {
    '0' + d as char
  }

  function DigitText(digits: seq<nat>): (s: string)
    requires AllDigits(digits)
    ensures |s| == |digits| && forall i :: 0 <= i < |s| ==> s[i] == DigitChar(digits[i])
  {
    if digits == [] then "" else DigitText(digits[..|digits| - 1]) + [DigitChar(digits[|digits| - 1])]
  }

  /** `CAST(n AS TEXT)`, and JavaScript's `String(n)` on integers. */
  function IntText(n: int): string {
    if n < 0 then "-" + NatText(-n) else NatText(n)
  }

  function NatText(n: nat): (s: string)
    ensures s != "" && forall i :: 0 <= i < |s| ==> '0' <= s[i] <= '9'
  {
    ValueOfDigits(n);
    DigitText(Digits(n))
  }
}
