/** `Number.prototype.toFixed(2)` on the magnitudes the fallback formats:
    rounding to hundredths and the decimal text, with a parser that reads
    the text back. */
module FixedText {

  import opened Wrappers

  /** 10^21: from this magnitude on, `toFixed` switches to exponent
      notation instead of fixed digits. */
  const FixedLimit: real := 1000000000000000000000.0

  /** The number of hundredths `toFixed(2)` writes for `x`: the integer n
      with n / 100 - x closest to zero, the larger one on a tie. */
  function ToFixed2(x: real): (n: nat)
    requires 0.0 <= x < FixedLimit
    ensures 100.0 * x - 0.5 < n as real <= 100.0 * x + 0.5
  {
    (100.0 * x + 0.5).Floor
  }

  predicate IsDigit(c: char)
  {
    '0' <= c <= '9'
  }

  predicate AllDigits(s: string)
  {
    forall i :: 0 <= i < |s| ==> IsDigit(s[i])
  }

  function DigitChar(d: nat): (c: char)
    requires d < 10
    ensures IsDigit(c)
  {
    (48 + d) as char
  }

  function DigitValue(c: char): (d: nat)
    requires IsDigit(c)
    ensures d < 10 && DigitChar(d) == c
  {
    c as int - 48
  }

  /** The decimal numeral of `n`, without leading zeros. */
  function NatText(n: nat): (s: string)
    ensures |s| > 0
    ensures s[0] == '0' <==> n == 0
    decreases n
  {
    if n < 10 then [DigitChar(n)] else NatText(n / 10) + [DigitChar(n % 10)]
  }

  /** The value of a string of decimal digits. */
  function ParseNat(s: string): nat
    requires AllDigits(s)
  {
    if s == [] then 0 else ParseNat(s[..|s| - 1]) * 10 + DigitValue(s[|s| - 1])
  }

  /** A numeral is a non-empty string of digits that reads back as `n`. */
  lemma {:induction false} NatTextRoundTrip(n: nat)
    ensures |NatText(n)| > 0 && AllDigits(NatText(n))
    ensures ParseNat(NatText(n)) == n
    decreases n
  {
    if n >= 10 {
      NatTextRoundTrip(n / 10);
      var s := NatText(n);
      assert s[..|s| - 1] == NatText(n / 10);
      assert DigitValue(DigitChar(n % 10)) == n % 10;
    } else {
      assert DigitValue(DigitChar(n)) == n;
    }
  }

  /** The text `toFixed(2)` writes for `hundredths / 100`: the integer part,
      a point and exactly two fraction digits. */
  function Fixed2Text(hundredths: nat): (s: string)
    ensures |s| >= 4 && s[|s| - 3] == '.'
    ensures AllDigits(s[..|s| - 3]) && AllDigits(s[|s| - 2..])
    ensures s[0] == '0' <==> hundredths < 100
  {
    NatTextRoundTrip(hundredths / 100);
    NatText(hundredths / 100) + "." + [DigitChar(hundredths % 100 / 10), DigitChar(hundredths % 10)]
  }

  /** Reads a fixed-point text with two fraction digits back as a number of
      hundredths. */
  function ParseFixed2(s: string): Option<nat>
  {
    if |s| >= 4 && s[|s| - 3] == '.' && AllDigits(s[..|s| - 3]) && AllDigits(s[|s| - 2..]) then
      Some(ParseNat(s[..|s| - 3]) * 100 + ParseNat(s[|s| - 2..]))
    else
      None
  }

  /** Different numbers of hundredths are written differently: the text
      reads back as the number it was written for. */
  lemma Fixed2RoundTrip(hundredths: nat)
    ensures ParseFixed2(Fixed2Text(hundredths)) == Some(hundredths)
  {
    var whole := NatText(hundredths / 100);
    var d1, d0 := DigitChar(hundredths % 100 / 10), DigitChar(hundredths % 10);
    var s := Fixed2Text(hundredths);
    assert s == whole + ['.', d1, d0];
    assert s[..|s| - 3] == whole;
    assert s[|s| - 2..] == [d1, d0];
    NatTextRoundTrip(hundredths / 100);
    assert [d1, d0][..1] == [d1];
    assert ParseNat([d1]) == hundredths % 100 / 10 by {
      assert [d1][..0] == [];
    }
    assert ParseNat([d1, d0]) == hundredths % 100;
  }
}
