/** Integer angle arithmetic of the unit circle: JavaScript's remainder
    operator, the reduction of an angle to [0, 360) that the exact-value
    lookup performs, and the two definedness tests for tangent and
    cotangent. Angles are whole degrees: the slider and the snapping code
    only ever produce integers. */
module Angles {

  function Abs(x: int): nat
  {
    if x < 0 then -x else x
  }

  /** JavaScript's `%` on integers: the remainder of a division truncated
      toward zero, which takes the sign of the dividend. Dafny's own `%`
      is Euclidean (never negative). */
  function TruncRem(a: int, m: int): (r: int)
    requires m > 0
    ensures -m < r < m
    ensures a >= 0 ==> r == a % m
    ensures a < 0 ==> r == if a % m == 0 then 0 else a % m - m
  {
    if a >= 0 then a % m else NegatedRem(-a, m); -((-a) % m)
  }

  /** How the Euclidean remainders of `n` and `-n` are related. */
  lemma NegatedRem(n: int, m: int)
    requires n > 0 && m > 0
    ensures (-n) % m == if n % m == 0 then 0 else m - n % m
  {
    var q, e := n / m, n % m;
    var q', e' := (-n) / m, (-n) % m;
    var k := q + q';
    assert m * k == -(e + e') by {
      assert n == m * q + e && -n == m * q' + e';
      assert m * q + m * q' == m * k;
    }
    // 0 <= e + e' < 2 * m, so the multiple of m it is minus must be 0 or -m
    MultipleBounds(m, k);
    assert k == 0 || k == -1;
  }

  lemma MultipleBounds(m: int, k: int)
    requires m > 0
    ensures k >= 1 ==> m * k >= m
    ensures k <= -2 ==> m * k <= -2 * m
  {
    if k >= 1 {
      assert m * k == m + m * (k - 1);
    } else if k <= -2 {
      assert m * k == -2 * m + m * (k + 2);
    }
  }

  /** `((angle % 360) + 360) % 360` with JavaScript's `%`: the canonical
      angle in [0, 360) that the exact-value lookup keys on. */
  function Normalize(angle: int): (norm: int)
    ensures 0 <= norm < 360
    ensures norm == angle % 360
  {
    TruncRem(TruncRem(angle, 360) + 360, 360)
  }

  /** Adding whole turns does not change the canonical angle. */
  lemma NormalizePeriodic(angle: int, turns: int)
    ensures Normalize(angle + 360 * turns) == Normalize(angle)
  {
    var q := angle / 360;
    assert angle == 360 * q + angle % 360;
    assert angle + 360 * turns == 360 * (q + turns) + angle % 360;
    assert (angle + 360 * turns) % 360 == angle % 360;
  }

  /** A canonical angle is its own canonical angle. */
  lemma NormalizeIdempotent(angle: int)
    ensures Normalize(Normalize(angle)) == Normalize(angle)
  {
  }

  /** `Math.abs(angle % 180) !== 90` with JavaScript's `%`: tangent is
      undefined exactly at the angles congruent to 90 modulo 180, negative
      angles included. */
  function IsTanDefined(angle: int): (defined: bool)
    ensures !defined <==> angle % 180 == 90
  {
    Abs(TruncRem(angle, 180)) != 90
  }

  /** `(angle % 180) !== 0` with JavaScript's `%`: cotangent is undefined
      exactly at the multiples of 180, negative angles included. */
  function IsCotDefined(angle: int): (defined: bool)
    ensures !defined <==> angle % 180 == 0
  {
    TruncRem(angle, 180) != 0
  }

  /** Both definedness tests depend on the canonical angle only: tangent
      is undefined exactly where it is 90 or 270, cotangent exactly where
      it is 0 or 180. */
  lemma DefinednessOnCanonical(angle: int)
    ensures IsTanDefined(angle) <==> Normalize(angle) != 90 && Normalize(angle) != 270
    ensures IsCotDefined(angle) <==> Normalize(angle) != 0 && Normalize(angle) != 180
  {
    var norm := Normalize(angle);
    var q := angle / 360;
    assert angle == 360 * q + norm;
    if norm < 180 {
      RemainderOf180(angle, 2 * q, norm);
    } else {
      RemainderOf180(angle, 2 * q + 1, norm - 180);
    }
  }

  /** The remainder modulo 180 is the r of any a = 180 q + r with r in [0, 180). */
  lemma RemainderOf180(a: int, q: int, r: int)
    requires 0 <= r < 180 && a == 180 * q + r
    ensures a % 180 == r
  {
  }

  /** The spot checks: tan is undefined at 90 and -90 and defined at 91;
      cot is undefined at 0, 180 and -180 and defined at -90. */
  lemma DefinednessExamples()
    ensures !IsTanDefined(90) && IsTanDefined(91) && !IsTanDefined(-90) && !IsTanDefined(270)
    ensures !IsCotDefined(0) && !IsCotDefined(180) && !IsCotDefined(-180) && IsCotDefined(-90)
  {
  }
}
