/** `getRadicalPart(angle, type)`: the exact table entry of the canonical
    angle, or, for an angle the table does not list, the two-decimal
    magnitude of the ratio with its sign. Math.sin and Math.cos are floating
    point and outside the model: the caller supplies their values at the
    angle as `sinValue` and `cosValue`. */
module RadicalPart {

  import opened Wrappers
  import opened Angles
  import opened Radicals
  import opened ExactTable
  import opened FixedText

  function RealAbs(x: real): real
  {
    if x < 0.0 then -x else x
  }

  /** What the fallback formats: `val` starts at 0 and is replaced only for
      sine and cosine, so tangent and cotangent keep 0. */
  function FallbackValue(kind: Kind, sinValue: real, cosValue: real): real
  {
    match kind
    case Sin => sinValue
    case Cos => cosValue
    case _ => 0.0
  }

  /** `{ t: Math.abs(val).toFixed(2), s: val < 0 ? '-' : '' }`. */
  function Fallback(val: real): (p: Part)
    requires RealAbs(val) < FixedLimit
    ensures p.t.Fixed? && p.b == None
    ensures 100.0 * RealAbs(val) - 0.5 < p.t.hundredths as real <= 100.0 * RealAbs(val) + 0.5
    ensures RealAbs(val) <= 1.0 ==> p.t.hundredths <= 100
    ensures p.s == (if val < 0.0 then Minus else EmptySign)
  {
    Part(Fixed(ToFixed2(RealAbs(val))), None, if val < 0.0 then Minus else EmptySign)
  }

  /** The top, bottom and sign `getRadicalPart` returns for an integer
      angle. An angle is exact exactly when its canonical angle is listed,
      and only exact values carry a bottom. */
  function GetRadicalPart(angle: int, kind: Kind, sinValue: real, cosValue: real): (p: Part)
    requires -1.0 <= sinValue <= 1.0 && -1.0 <= cosValue <= 1.0
    ensures p.t.Fixed? <==> !IsKey(Normalize(angle))
    ensures p.b.Some? ==> IsKey(Normalize(angle))
    ensures !IsKey(Normalize(angle)) ==>
      (p.s == Minus <==> FallbackValue(kind, sinValue, cosValue) < 0.0)
    ensures !IsKey(Normalize(angle)) ==>
      var val := FallbackValue(kind, sinValue, cosValue);
      100.0 * RealAbs(val) - 0.5 < p.t.hundredths as real <= 100.0 * RealAbs(val) + 0.5 &&
      p.t.hundredths <= 100
    ensures !IsKey(Normalize(angle)) && (kind == Tan || kind == Cot) ==>
      p == Part(Fixed(0), None, EmptySign)
  {
    var norm := Normalize(angle);
    match Mapping(norm)
    case Some(row) => Select(row, kind)
    case None => Fallback(FallbackValue(kind, sinValue, cosValue))
  }

  /** Whole turns change nothing on the exact path: whether an angle is
      exact and, if so, its value depend on the canonical angle only,
      whatever the floating-point samples are. */
  lemma ExactPathPeriodic(angle: int, turns: int, kind: Kind, s1: real, c1: real, s2: real, c2: real)
    requires -1.0 <= s1 <= 1.0 && -1.0 <= c1 <= 1.0
    requires -1.0 <= s2 <= 1.0 && -1.0 <= c2 <= 1.0
    ensures IsKey(Normalize(angle + 360 * turns)) <==> IsKey(Normalize(angle))
    ensures IsKey(Normalize(angle)) ==>
      GetRadicalPart(angle + 360 * turns, kind, s2, c2) == GetRadicalPart(angle, kind, s1, c1)
  {
    NormalizePeriodic(angle, turns);
  }

  /** An exact value is the table entry of the canonical angle; the entry
      for 360 is never the one used, since no canonical angle reaches 360,
      and it equals the entry for 0. */
  lemma ExactPathUsesTable(angle: int, kind: Kind, sinValue: real, cosValue: real)
    requires -1.0 <= sinValue <= 1.0 && -1.0 <= cosValue <= 1.0
    requires IsKey(Normalize(angle))
    ensures Normalize(angle) != 360
    ensures GetRadicalPart(angle, kind, sinValue, cosValue) == At(angle % 360, kind)
    ensures angle % 360 == 0 ==> GetRadicalPart(angle, kind, sinValue, cosValue) == At(360, kind)
  {
    Reflection(0);
  }

  /** The shape of a fallback value: no bottom, the magnitude rounded to
      two decimals and '-' exactly for a negative value, '' otherwise. */
  lemma FallbackShape(angle: int, kind: Kind, sinValue: real, cosValue: real)
    requires -1.0 <= sinValue <= 1.0 && -1.0 <= cosValue <= 1.0
    requires !IsKey(Normalize(angle))
    ensures var p := GetRadicalPart(angle, kind, sinValue, cosValue);
      var val := FallbackValue(kind, sinValue, cosValue);
      p.b == None && p.t == Fixed(ToFixed2(RealAbs(val))) &&
      p.s == (if val < 0.0 then Minus else EmptySign)
  {
  }

  /** Tangent shows '∞' exactly where `isTanDefined` is false, cotangent
      exactly where `isCotDefined` is false, for every integer angle. */
  lemma InfinityExactlyWhenUndefined(angle: int, sinValue: real, cosValue: real)
    requires -1.0 <= sinValue <= 1.0 && -1.0 <= cosValue <= 1.0
    ensures GetRadicalPart(angle, Tan, sinValue, cosValue).t == Infinity <==> !IsTanDefined(angle)
    ensures GetRadicalPart(angle, Cot, sinValue, cosValue).t == Infinity <==> !IsCotDefined(angle)
  {
    var norm := Normalize(angle);
    DefinednessOnCanonical(angle);
    if IsKey(norm) {
      AxisValues(norm);
      assert GetRadicalPart(angle, Tan, sinValue, cosValue) == At(norm, Tan);
      assert GetRadicalPart(angle, Cot, sinValue, cosValue) == At(norm, Cot);
    } else {
      KeysAreSpecialAngles(norm);
    }
  }

  /** Reflection k to -k (the same as 360 - k): cosine is unchanged and
      sine mirrored on the exact path; on the fallback path, given samples
      with cos(-k) = cos(k) and sin(-k) = -sin(k), the magnitudes agree and
      a non-zero sine changes sign. */
  lemma ReflectionOfAngle(angle: int, sinValue: real, cosValue: real)
    requires -1.0 <= sinValue <= 1.0 && -1.0 <= cosValue <= 1.0
    ensures Normalize(-angle) == Normalize(360 - angle)
    ensures var norm := Normalize(angle);
      IsKey(norm) ==>
        GetRadicalPart(-angle, Cos, -sinValue, cosValue) == GetRadicalPart(angle, Cos, sinValue, cosValue) &&
        GetRadicalPart(-angle, Sin, -sinValue, cosValue) == Mirrored(GetRadicalPart(angle, Sin, sinValue, cosValue))
    ensures var norm := Normalize(angle);
      !IsKey(norm) ==>
        GetRadicalPart(-angle, Cos, -sinValue, cosValue) == GetRadicalPart(angle, Cos, sinValue, cosValue) &&
        GetRadicalPart(-angle, Sin, -sinValue, cosValue).t == GetRadicalPart(angle, Sin, sinValue, cosValue).t &&
        (sinValue != 0.0 ==>
          (GetRadicalPart(-angle, Sin, -sinValue, cosValue).s == Minus <==>
           GetRadicalPart(angle, Sin, sinValue, cosValue).s != Minus))
  {
    var norm := Normalize(angle);
    if norm == 0 {
      assert Normalize(-angle) == 0;
    } else {
      assert Normalize(-angle) == 360 - norm;
      if IsKey(norm) {
        Reflection(norm);
      } else {
        KeysAreSpecialAngles(norm);
        KeysAreSpecialAngles(360 - norm);
      }
    }
  }

  /** Spot checks of the exact path, with a negative angle. */
  lemma ExactExamples(sinValue: real, cosValue: real)
    requires -1.0 <= sinValue <= 1.0 && -1.0 <= cosValue <= 1.0
    ensures GetRadicalPart(30, Sin, sinValue, cosValue) == Part(One, Some(Two), NoSign)
    ensures GetRadicalPart(135, Cos, sinValue, cosValue) == Part(Sqrt2, Some(Two), Minus)
    ensures GetRadicalPart(90, Tan, sinValue, cosValue).t == Infinity
    ensures GetRadicalPart(0, Cot, sinValue, cosValue).t == Infinity
    ensures GetRadicalPart(-330, Sin, sinValue, cosValue) == Part(One, Some(Two), NoSign)
  {
    assert IsKey(Normalize(30)) && IsKey(Normalize(135)) && IsKey(Normalize(90)) && IsKey(Normalize(0));
    ExactPathUsesTable(30, Sin, sinValue, cosValue);
    ExactPathUsesTable(135, Cos, sinValue, cosValue);
    ExactPathUsesTable(90, Tan, sinValue, cosValue);
    ExactPathUsesTable(0, Cot, sinValue, cosValue);
    ExactPathUsesTable(-330, Sin, sinValue, cosValue);
  }

  /** Spot checks of the fallback path at 17 degrees. */
  lemma FallbackExamples(sinValue: real, cosValue: real)
    requires -1.0 <= sinValue <= 1.0 && -1.0 <= cosValue <= 1.0
    ensures GetRadicalPart(17, Tan, sinValue, cosValue) == Part(Fixed(0), None, EmptySign)
    ensures GetRadicalPart(17, Sin, sinValue, cosValue).t.Fixed?
  {
  }

  /** As written, the fallback shows '0.00' for tangent and cotangent at
      every angle off the table, whatever the ratio is: at 17 degrees
      (tan about 0.31) and at 73 degrees (tan about 3.27) alike. */
  lemma TanCotFallbackIsZero(sinValue: real, cosValue: real)
    requires -1.0 <= sinValue <= 1.0 && -1.0 <= cosValue <= 1.0
    ensures GetRadicalPart(17, Tan, sinValue, cosValue) == Part(Fixed(0), None, EmptySign)
    ensures GetRadicalPart(73, Tan, sinValue, cosValue) == GetRadicalPart(17, Tan, sinValue, cosValue)
    ensures GetRadicalPart(17, Cot, sinValue, cosValue) == Part(Fixed(0), None, EmptySign)
  {
  }

  /** The value the fallback evidently means to format: the ratio itself
      for every kind. Math.tan(r) and 1 / Math.tan(r) are floating point
      and are supplied by the caller as `tanValue` and `cotValue`. */
  function IntendedFallbackValue(kind: Kind, sinValue: real, cosValue: real, tanValue: real, cotValue: real): real
  {
    match kind
    case Sin => sinValue
    case Cos => cosValue
    case Tan => tanValue
    case Cot => cotValue
  }

  /** `getRadicalPart` with the fallback formatting the ratio of every
      kind: off the table, the shown magnitude is the ratio's rounded to
      two decimals and the sign is '-' exactly for a negative ratio. */
  function GetRadicalPartIntended(angle: int, kind: Kind, sinValue: real, cosValue: real, tanValue: real, cotValue: real): (p: Part)
    requires -1.0 <= sinValue <= 1.0 && -1.0 <= cosValue <= 1.0
    requires RealAbs(tanValue) < FixedLimit && RealAbs(cotValue) < FixedLimit
    ensures p.t.Fixed? <==> !IsKey(Normalize(angle))
    ensures !IsKey(Normalize(angle)) ==>
      var val := IntendedFallbackValue(kind, sinValue, cosValue, tanValue, cotValue);
      p.b == None &&
      100.0 * RealAbs(val) - 0.5 < p.t.hundredths as real <= 100.0 * RealAbs(val) + 0.5 &&
      (p.s == Minus <==> val < 0.0)
  {
    match Mapping(Normalize(angle))
    case Some(row) => Select(row, kind)
    case None => Fallback(IntendedFallbackValue(kind, sinValue, cosValue, tanValue, cotValue))
  }

  /** The correction changes only the tangent and cotangent fallback: on
      every listed angle, and for sine and cosine everywhere, it agrees with
      the code as written, so every property above holds of it there. */
  lemma IntendedAgreesWithWritten(angle: int, kind: Kind, sinValue: real, cosValue: real, tanValue: real, cotValue: real)
    requires -1.0 <= sinValue <= 1.0 && -1.0 <= cosValue <= 1.0
    requires RealAbs(tanValue) < FixedLimit && RealAbs(cotValue) < FixedLimit
    ensures IsKey(Normalize(angle)) || kind == Sin || kind == Cos ==>
      GetRadicalPartIntended(angle, kind, sinValue, cosValue, tanValue, cotValue) ==
      GetRadicalPart(angle, kind, sinValue, cosValue)
  {
  }

  /** With tan 17 degrees = 0.3057 (to four places) the corrected fallback
      shows 0.31. */
  lemma IntendedTanAt17(sinValue: real, cosValue: real)
    requires -1.0 <= sinValue <= 1.0 && -1.0 <= cosValue <= 1.0
    ensures GetRadicalPartIntended(17, Tan, sinValue, cosValue, 0.3057, 3.2709) == Part(Fixed(31), None, EmptySign)
  {
  }
}
