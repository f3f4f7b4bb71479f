/**
 * Python's `round(x, ndigits)` and the fixed-point format `f"{x:.2f}"`, over exact reals.
 * Both use round-half-to-even on the exact value they are given; the model applies that rule
 * to the real number the float stands for.
 */
module Rounding {
  import Decimal

  /** Nearest integer to `x`, ties to the even neighbour. */
  function RoundHalfEven(x: real): (r: int)
    ensures x - 0.5 <= r as real <= x + 0.5
    ensures (r as real - x == 0.5 || x - r as real == 0.5) ==> r % 2 == 0
  {
    var f := x.Floor;
    var frac := x - f as real;
    if frac < 0.5 then f
    else if frac > 0.5 then f + 1
    else if f % 2 == 0 then f else f + 1
  }

  /** An integral value is its own rounding. */
  lemma RoundHalfEvenInt(k: int)
    ensures RoundHalfEven(k as real) == k
  {
  }

  /** `round(x, 2)` */
  function Round2(x: real): real {
    RoundHalfEven(x * 100.0) as real / 100.0
  }

  /** `round(x, 1)` */
  function Round1(x: real): real {
    RoundHalfEven(x * 10.0) as real / 10.0
  }

  /** Round2 moves its argument by at most half a cent and keeps non-negative values non-negative. */
  lemma Round2Close(x: real)
    ensures x - 0.005 <= Round2(x) <= x + 0.005
    ensures x >= 0.0 ==> Round2(x) >= 0.0
  {
  }

  /** Round1 moves its argument by at most 0.05 and keeps non-negative values non-negative. */
  lemma Round1Close(x: real)
    ensures x - 0.05 <= Round1(x) <= x + 0.05
    ensures x >= 0.0 ==> Round1(x) >= 0.0
  {
  }

  /** A value with at most two decimals is unchanged by Round2; integers in particular. */
  lemma Round2Exact(c: int)
    ensures Round2(c as real / 100.0) == c as real / 100.0
    ensures Round2(c as real) == c as real
  {
    assert c as real / 100.0 * 100.0 == c as real;
    RoundHalfEvenInt(c);
    assert (c as real) * 100.0 == (c * 100) as real;
    RoundHalfEvenInt(c * 100);
  }

  /** A value with at most one decimal is unchanged by Round1. */
  lemma Round1Exact(c: int)
    ensures Round1(c as real / 10.0) == c as real / 10.0
  {
    assert c as real / 10.0 * 10.0 == c as real;
    RoundHalfEvenInt(c);
  }

  /** `f"{x:.2f}"` for x >= 0: integer part, a point, two decimals of the rounded value. */
  function Fixed2Unsigned(x: real): (r: string)
    requires x >= 0.0
    ensures |r| >= 4 && r[|r| - 3] == '.'
    ensures Decimal.AllDigits(r[..|r| - 3]) && Decimal.AllDigits(r[|r| - 2..])
  {
    var c := RoundHalfEven(x * 100.0);
    assert c >= 0;
    Decimal.Digits(c / 100) + "." + [Decimal.DigitChar((c % 100) / 10), Decimal.DigitChar(c % 10)]
  }

  /** `f"{x:.2f}"`: a leading minus for negative x, then the magnitude. */
  function Fixed2(x: real): string {
    if x < 0.0 then "-" + Fixed2Unsigned(-x) else Fixed2Unsigned(x)
  }

  /** Reading the digits of `f"{x:.2f}"` as hundredths gives `round(x, 2)`. */
  lemma Fixed2Value(x: real)
    requires x >= 0.0
    ensures var r := Fixed2(x);
            Decimal.Value(r[..|r| - 3] + r[|r| - 2..]) as real / 100.0 == Round2(x)
  {
    var c := RoundHalfEven(x * 100.0);
    var r := Fixed2(x);
    var ip := Decimal.Digits(c / 100);
    var d1, d0 := Decimal.DigitChar((c % 100) / 10), Decimal.DigitChar(c % 10);
    assert r == ip + "." + [d1, d0];
    assert r[..|r| - 3] + r[|r| - 2..] == ip + [d1] + [d0];
    HundredthsValue(c);
  }

  /** The integer digits of `c / 100` followed by the two last digits of `c` read back as `c`. */
  lemma HundredthsValue(c: nat)
    ensures var ip := Decimal.Digits(c / 100);
            var d1, d0 := Decimal.DigitChar((c % 100) / 10), Decimal.DigitChar(c % 10);
            Decimal.AllDigits(ip + [d1] + [d0]) && Decimal.Value(ip + [d1] + [d0]) == c
  {
    var ip := Decimal.Digits(c / 100);
    var d1, d0 := Decimal.DigitChar((c % 100) / 10), Decimal.DigitChar(c % 10);
    Decimal.ValueOfDigits(c / 100);
    Decimal.ValueSnoc(ip, d1);
    Decimal.ValueSnoc(ip + [d1], d0);
    assert (c / 100 * 10 + (c % 100) / 10) * 10 + c % 10 == c;
  }
}
