/**
 * Money amounts and their two-decimal display strings.
 *
 * Prices are integer cents. Amounts that are not whole cents (the 8% tax of
 * a subtotal) are carried exactly in ten-thousandths of a dollar, so that
 * rounding to two decimal places happens once, at display time, the way
 * `Number.prototype.toFixed(2)` does it on the exact value.
 */
module Money {
  import opened Wrappers

  /** n / 100 rounded to the nearest integer, a half rounded upward. */
  function RoundHundredth(n: nat): (r: nat)
    ensures 100 * r <= n + 50 < 100 * r + 100
  {
    (n + 50) / 100
  }

  /** A whole number of cents is unchanged by rounding. */
  lemma RoundWhole(s: nat)
    ensures RoundHundredth(100 * s) == s
  {
  }

  /**
   * Rounding 108% of s cents gives s plus the rounded 8%: the total of the
   * rounded parts equals the rounded total.
   */
  lemma RoundShift(s: nat)
    ensures RoundHundredth(108 * s) == s + RoundHundredth(8 * s)
  {
    var r, t := RoundHundredth(108 * s), RoundHundredth(8 * s);
    assert 100 * r <= 108 * s + 50 < 100 * r + 100;
    assert 100 * t <= 8 * s + 50 < 100 * t + 100;
  }

  predicate IsDigit(c: char) {
    '0' <= c <= '9'
  }

  predicate AllDigits(s: string) {
    forall i :: 0 <= i < |s| ==> IsDigit(s[i])
  }

  function Digit(d: nat): (c: char)
    requires d < 10
    ensures IsDigit(c)
  {
    ('0' as int + d) as char
  }

  function DigitValue(c: char): (d: nat)
    requires IsDigit(c)
    ensures d < 10 && Digit(d) == c
  {
    c as int - '0' as int
  }

  /** The decimal numeral of n, without leading zeros. */
  function NatToDecimal(n: nat): (s: string)
    ensures |s| >= 1 && AllDigits(s)
    ensures |s| > 1 ==> s[0] != '0'
  {
    if n < 10 then [Digit(n)] else NatToDecimal(n / 10) + [Digit(n % 10)]
  }

  /** The value of a string of decimal digits (leading zeros allowed). */
  function DecimalValue(s: string): nat
    requires AllDigits(s)
  {
    if s == [] then 0 else 10 * DecimalValue(s[..|s| - 1]) + DigitValue(s[|s| - 1])
  }

  /** Reading back a numeral gives the number it was written from. */
  lemma {:induction false} DecimalRoundTrip(n: nat)
    ensures DecimalValue(NatToDecimal(n)) == n
  {
    if n >= 10 {
      DecimalRoundTrip(n / 10);
      var s := NatToDecimal(n);
      assert s[..|s| - 1] == NatToDecimal(n / 10);
      assert DigitValue(s[|s| - 1]) == n % 10;
    }
  }

  /** A whole number of cents as "<dollars>.<two digits>". */
  function CentsToString(c: nat): (s: string)
    ensures |s| >= 4 && s[|s| - 3] == '.'
    ensures IsDigit(s[0]) && AllDigits(s[..|s| - 3]) && AllDigits(s[|s| - 2..])
  {
    NatToDecimal(c / 100) + "." + [Digit(c / 10 % 10), Digit(c % 10)]
  }

  /**
   * `toFixed(2)` of the exact amount x / 10000 dollars: the sign is taken
   * off first, the magnitude is rounded to the nearest cent (a half upward),
   * and "-" is put back for a negative amount, even one that rounds to zero.
   */
  function ToFixed2(x: int): (s: string)
    ensures |s| >= 4
    ensures s[0] == '-' <==> x < 0
  {
    if x < 0 then "-" + CentsToString(RoundHundredth(-x)) else CentsToString(RoundHundredth(x))
  }

  /**
   * A display string reads back as the amount rounded to the cent, after the
   * "-" that a negative amount carries.
   */
  lemma ToFixed2Parses(x: int)
    ensures x >= 0 ==> ParseCents(ToFixed2(x)) == Some(RoundHundredth(x))
    ensures x < 0 ==>
      var s := ToFixed2(x);
      |s| > 0 && s[0] == '-' && ParseCents(s[1..]) == Some(RoundHundredth(-x))
  {
    if x < 0 {
      var c := RoundHundredth(-x);
      CentsRoundTrip(c);
      assert ("-" + CentsToString(c))[1..] == CentsToString(c);
    } else {
      CentsRoundTrip(RoundHundredth(x));
    }
  }

  /**
   * The number of cents a two-decimal price string "<digits>.<d><d>"
   * stands for; None for any other string.
   */
  function ParseCents(s: string): (r: Option<nat>)
    ensures r.Some? ==> |s| >= 4 && s[|s| - 3] == '.'
  {
    if |s| >= 4 && s[|s| - 3] == '.' && AllDigits(s[..|s| - 3]) && AllDigits(s[|s| - 2..]) then
      Some(100 * DecimalValue(s[..|s| - 3]) + DecimalValue(s[|s| - 2..]))
    else
      None
  }

  /** Parsing a formatted amount gives back the amount. */
  lemma CentsRoundTrip(c: nat)
    ensures ParseCents(CentsToString(c)) == Some(c)
  {
    var s := CentsToString(c);
    var whole := NatToDecimal(c / 100);
    assert s[..|s| - 3] == whole;
    var frac := s[|s| - 2..];
    assert frac == [Digit(c / 10 % 10), Digit(c % 10)];
    DecimalRoundTrip(c / 100);
    assert frac[..1] == [Digit(c / 10 % 10)];
    assert DecimalValue(frac[..1]) == c / 10 % 10 by {
      assert frac[..1][..0] == [];
    }
    assert DecimalValue(frac) == 10 * (c / 10 % 10) + c % 10;
  }
}
