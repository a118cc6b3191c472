/** The hand-written table of exact values: 17 special angles, each with
    the sine, cosine, tangent and cotangent entries the unit circle shows,
    and what the table promises (signs by quadrant, the axis values,
    reflection symmetry and the unit-circle identities). */
module ExactTable {

  import opened Wrappers
  import opened Angles
  import opened Radicals

  /** One row of the table: the four ratio entries of one angle. */
  datatype Entry = Entry(sin: Part, cos: Part, tan: Part, cot: Part)

  /** An entry with no bottom and no sign, such as `{t:'1'}`. */
  function Whole(t: Numer): Part
  {
    Part(t, None, NoSign)
  }

  /** An entry with a bottom and no sign, such as `{t:'√3', b:'2'}`. */
  function Frac(t: Numer, b: Denom): Part
  {
    Part(t, Some(b), NoSign)
  }

  /** The same entry with `s:'-'`. */
  function Neg(p: Part): Part
  {
    p.(s := Minus)
  }

  /** The table itself, keyed by angle in degrees; `None` for every angle
      it does not list. */
  function Mapping(key: int): (row: Option<Entry>)
    ensures row.Some? ==> 0 <= key <= 360 && key % 15 == 0
    ensures row.Some? ==> forall kind :: !Select(row.value, kind).t.Fixed?
  {
    if key == 0 then
      Some(Entry(Whole(Zero), Whole(One), Whole(Zero), Whole(Infinity)))
    else if key == 30 then
      Some(Entry(Frac(One, Two), Frac(Sqrt3, Two), Frac(Sqrt3, Three), Whole(Sqrt3)))
    else if key == 45 then
      Some(Entry(Frac(Sqrt2, Two), Frac(Sqrt2, Two), Whole(One), Whole(One)))
    else if key == 60 then
      Some(Entry(Frac(Sqrt3, Two), Frac(One, Two), Whole(Sqrt3), Frac(Sqrt3, Three)))
    else if key == 90 then
      Some(Entry(Whole(One), Whole(Zero), Whole(Infinity), Whole(Zero)))
    else if key == 120 then
      Some(Entry(Frac(Sqrt3, Two), Neg(Frac(One, Two)), Neg(Whole(Sqrt3)), Neg(Frac(Sqrt3, Three))))
    else if key == 135 then
      Some(Entry(Frac(Sqrt2, Two), Neg(Frac(Sqrt2, Two)), Neg(Whole(One)), Neg(Whole(One))))
    else if key == 150 then
      Some(Entry(Frac(One, Two), Neg(Frac(Sqrt3, Two)), Neg(Frac(Sqrt3, Three)), Neg(Whole(Sqrt3))))
    else if key == 180 then
      Some(Entry(Whole(Zero), Neg(Whole(One)), Whole(Zero), Whole(Infinity)))
    else if key == 210 then
      Some(Entry(Neg(Frac(One, Two)), Neg(Frac(Sqrt3, Two)), Frac(Sqrt3, Three), Whole(Sqrt3)))
    else if key == 225 then
      Some(Entry(Neg(Frac(Sqrt2, Two)), Neg(Frac(Sqrt2, Two)), Whole(One), Whole(One)))
    else if key == 240 then
      Some(Entry(Neg(Frac(Sqrt3, Two)), Neg(Frac(One, Two)), Whole(Sqrt3), Frac(Sqrt3, Three)))
    else if key == 270 then
      Some(Entry(Neg(Whole(One)), Whole(Zero), Whole(Infinity), Whole(Zero)))
    else if key == 300 then
      Some(Entry(Neg(Frac(Sqrt3, Two)), Frac(One, Two), Neg(Whole(Sqrt3)), Neg(Frac(Sqrt3, Three))))
    else if key == 315 then
      Some(Entry(Neg(Frac(Sqrt2, Two)), Frac(Sqrt2, Two), Neg(Whole(One)), Neg(Whole(One))))
    else if key == 330 then
      Some(Entry(Neg(Frac(One, Two)), Frac(Sqrt3, Two), Neg(Frac(Sqrt3, Three)), Neg(Whole(Sqrt3))))
    else if key == 360 then
      Some(Entry(Whole(Zero), Whole(One), Whole(Zero), Whole(Infinity)))
    else
      None
  }

  /** `mapping[norm][type]`: the entry of one ratio in a row. */
  function Select(row: Entry, kind: Kind): Part
  {
    match kind
    case Sin => row.sin
    case Cos => row.cos
    case Tan => row.tan
    case Cot => row.cot
  }

  predicate IsKey(key: int)
  {
    Mapping(key).Some?
  }

  /** The entry of `kind` at a listed angle. */
  function At(key: int, kind: Kind): Part
    requires IsKey(key)
  {
    Select(Mapping(key).value, kind)
  }

  /** The listed angles are exactly the 17 special angles. */
  lemma KeysAreSpecialAngles(key: int)
    ensures IsKey(key) <==>
      key in {0, 30, 45, 60, 90, 120, 135, 150, 180, 210, 225, 240, 270, 300, 315, 330, 360}
  {
  }

  /** Sine is negative exactly in the open half-turn (180, 360), cosine
      exactly in (90, 270), tangent and cotangent exactly in the second and
      fourth quadrants; the table never uses the empty-string sign. */
  lemma SignsFollowQuadrant(key: int)
    requires IsKey(key)
    ensures At(key, Sin).s == Minus <==> 180 < key < 360
    ensures At(key, Cos).s == Minus <==> 90 < key < 270
    ensures At(key, Tan).s == Minus <==> 90 < key < 180 || 270 < key < 360
    ensures At(key, Cot).s == Minus <==> 90 < key < 180 || 270 < key < 360
    ensures forall kind :: At(key, kind).s != EmptySign
  {
  }

  /** Tangent is '∞' exactly at 90 and 270, cotangent exactly at 0, 180
      and 360, sine and cosine never; '∞' and '0' entries carry neither a
      bottom nor a sign. */
  lemma AxisValues(key: int)
    requires IsKey(key)
    ensures At(key, Tan).t == Infinity <==> key == 90 || key == 270
    ensures At(key, Cot).t == Infinity <==> key == 0 || key == 180 || key == 360
    ensures At(key, Sin).t != Infinity && At(key, Cos).t != Infinity
    ensures forall kind :: At(key, kind).t == Infinity || At(key, kind).t == Zero ==>
      At(key, kind).b == None && At(key, kind).s == NoSign
  {
  }

  /** The entry of the mirrored angle for an odd ratio: the sign flips,
      except on '0' and '∞', which are written without one. */
  function Mirrored(p: Part): Part
  {
    if p.t == Zero || p.t == Infinity then p
    else p.(s := if p.s == Minus then NoSign else Minus)
  }

  /** Reflecting an angle in the horizontal axis, k to 360 - k, keeps
      cosine and mirrors sine, tangent and cotangent; the rows for 0 and
      360 are the same. */
  lemma Reflection(key: int)
    requires IsKey(key)
    ensures IsKey(360 - key)
    ensures At(360 - key, Cos) == At(key, Cos)
    ensures At(360 - key, Sin) == Mirrored(At(key, Sin))
    ensures At(360 - key, Tan) == Mirrored(At(key, Tan))
    ensures At(360 - key, Cot) == Mirrored(At(key, Cot))
    ensures Mapping(0) == Mapping(360)
  {
    KeysAreSpecialAngles(key);
    if key == 0 {} else if key == 30 {} else if key == 45 {} else if key == 60 {}
    else if key == 90 {} else if key == 120 {} else if key == 135 {} else if key == 150 {}
    else if key == 180 {} else if key == 210 {} else if key == 225 {} else if key == 240 {}
    else if key == 270 {} else if key == 300 {} else if key == 315 {} else if key == 330 {}
    else {}
  }

  /** Reflecting an angle in the vertical axis, k to 180 - k, keeps sine
      and mirrors cosine, tangent and cotangent. */
  lemma Supplement(key: int)
    requires IsKey(key) && 0 <= key <= 180
    ensures IsKey(180 - key)
    ensures At(180 - key, Sin) == At(key, Sin)
    ensures At(180 - key, Cos) == Mirrored(At(key, Cos))
    ensures At(180 - key, Tan) == Mirrored(At(key, Tan))
    ensures At(180 - key, Cot) == Mirrored(At(key, Cot))
  {
  }

  /** Turning by half a circle, k to k + 180, mirrors sine and cosine and
      keeps tangent and cotangent. */
  lemma HalfTurn(key: int)
    requires IsKey(key) && 0 <= key <= 180
    ensures IsKey(key + 180)
    ensures At(key + 180, Sin) == Mirrored(At(key, Sin))
    ensures At(key + 180, Cos) == Mirrored(At(key, Cos))
    ensures At(key + 180, Tan) == At(key, Tan)
    ensures At(key + 180, Cot) == At(key, Cot)
  {
  }

  /** The square of the number a radical entry stands for:
      (numerator / denominator)^2. */
  function Square(p: Part): real
    requires IsRadical(p.t)
  {
    var top := match p.t
      case Zero => 0.0
      case One => 1.0
      case Sqrt2 => 2.0
      case _ => 3.0;
    var bottom := match p.b
      case None => 1.0
      case Some(Two) => 4.0
      case Some(Three) => 9.0;
    top / bottom
  }

  /** -1, 0 or 1: the sign of the number an entry stands for. */
  function Signum(p: Part): int
  {
    if p.t == Zero then 0 else if p.s == Minus then -1 else 1
  }

  /** Every row is a point of the unit circle: sin^2 + cos^2 = 1; tangent
      is sin / cos and '∞' exactly where cos is 0; cotangent is cos / sin
      and '∞' exactly where sin is 0. */
  lemma UnitCircleIdentities(key: int)
    requires IsKey(key)
    ensures IsRadical(At(key, Sin).t) && IsRadical(At(key, Cos).t)
    ensures Square(At(key, Sin)) + Square(At(key, Cos)) == 1.0
    ensures At(key, Tan).t == Infinity <==> At(key, Cos).t == Zero
    ensures At(key, Cot).t == Infinity <==> At(key, Sin).t == Zero
    ensures At(key, Tan).t != Infinity ==>
      IsRadical(At(key, Tan).t) &&
      Square(At(key, Tan)) * Square(At(key, Cos)) == Square(At(key, Sin)) &&
      Signum(At(key, Tan)) == Signum(At(key, Sin)) * Signum(At(key, Cos))
    ensures At(key, Cot).t != Infinity ==>
      IsRadical(At(key, Cot).t) &&
      Square(At(key, Cot)) * Square(At(key, Sin)) == Square(At(key, Cos)) &&
      Signum(At(key, Cot)) == Signum(At(key, Sin)) * Signum(At(key, Cos))
  {
    // one row at a time: each case is arithmetic on literals
    KeysAreSpecialAngles(key);
    if key == 0 {} else if key == 30 {} else if key == 45 {} else if key == 60 {}
    else if key == 90 {} else if key == 120 {} else if key == 135 {} else if key == 150 {}
    else if key == 180 {} else if key == 210 {} else if key == 225 {} else if key == 240 {}
    else if key == 270 {} else if key == 300 {} else if key == 315 {} else if key == 330 {}
    else {}
  }

  /** In the first quadrant sine grows strictly with the angle, which pins
      each magnitude to its own angle. */
  lemma FirstQuadrantSineIncreases(j: int, k: int)
    requires IsKey(j) && IsKey(k) && 0 <= j < k <= 90
    ensures IsRadical(At(j, Sin).t) && IsRadical(At(k, Sin).t)
    ensures Square(At(j, Sin)) < Square(At(k, Sin))
  {
    KeysAreSpecialAngles(j);
    KeysAreSpecialAngles(k);
  }

  /** The table writes '∞' exactly where the definedness tests say the
      ratio is undefined. */
  lemma InfinityExactlyWhereUndefined(key: int)
    requires IsKey(key)
    ensures At(key, Tan).t == Infinity <==> !IsTanDefined(key)
    ensures At(key, Cot).t == Infinity <==> !IsCotDefined(key)
  {
  }
}
