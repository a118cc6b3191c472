/** The snapping step of `handleInteraction`: the pointer's angle, already
    rounded to whole degrees, is replaced by the first special angle closer
    than the tolerance, and the result is reduced with JavaScript's `% 360`.
    The pointer-to-angle geometry before it is outside the model. */
module Snap {

  import opened Wrappers
  import opened Angles
  import opened ExactTable

  /** The snap targets, in the order they are scanned. */
  const Specials: seq<int> := [0, 30, 45, 60, 90, 120, 135, 150, 180, 210, 225, 240, 270, 300, 315, 330, 360]

  /** A special angle captures a rounded angle strictly closer than this. */
  const Tolerance: int := 4

  /** The first target at index `from` or later that is strictly closer
      than the tolerance to `rounded`. */
  function FirstWithin(targets: seq<int>, from: nat, rounded: int): Option<int>
    requires from <= |targets|
    decreases |targets| - from
  {
    if from == |targets| then None
    else if Abs(rounded - targets[from]) < Tolerance then Some(targets[from])
    else FirstWithin(targets, from + 1, rounded)
  }

  /** What the scan finds is a target within the tolerance at index `from`
      or later, and it finds nothing only when there is no such target. */
  lemma {:induction false} FirstWithinMeaning(targets: seq<int>, from: nat, rounded: int)
    requires from <= |targets|
    ensures var found := FirstWithin(targets, from, rounded);
      found.Some? ==> exists i :: from <= i < |targets| && targets[i] == found.value && Abs(rounded - found.value) < Tolerance
    ensures FirstWithin(targets, from, rounded).None? ==>
      forall i :: from <= i < |targets| ==> Abs(rounded - targets[i]) >= Tolerance
    decreases |targets| - from
  {
    if from < |targets| && Abs(rounded - targets[from]) >= Tolerance {
      FirstWithinMeaning(targets, from + 1, rounded);
    }
  }

  /** The scan passes over targets that are all too far away. */
  lemma {:induction false} FirstWithinSkips(targets: seq<int>, from: nat, to: nat, rounded: int)
    requires from <= to <= |targets|
    requires forall i :: from <= i < to ==> Abs(rounded - targets[i]) >= Tolerance
    ensures FirstWithin(targets, from, rounded) == FirstWithin(targets, to, rounded)
    decreases (to as int) - from
  {
    if from < to {
      FirstWithinSkips(targets, from + 1, to, rounded);
    }
  }

  /** The angle passed to `onAngleChange` for a rounded pointer angle. */
  function Snapped(rounded: int): int
  {
    match FirstWithin(Specials, 0, rounded)
    case Some(s) => TruncRem(s, 360)
    case None => TruncRem(rounded, 360)
  }

  /** The loop of `handleInteraction`: scan the specials in order, take the
      first one within the tolerance and stop; then reduce modulo 360. */
  method SnapAngle(rounded: int) returns (angle: int)
    ensures angle == Snapped(rounded)
  {
    var snapped := rounded;
    var i := 0;
    while i < |Specials|
      invariant 0 <= i <= |Specials|
      invariant snapped == rounded
      invariant FirstWithin(Specials, i, rounded) == FirstWithin(Specials, 0, rounded)
    {
      var s := Specials[i];
      if Abs(snapped - s) < Tolerance {
        snapped := s;
        break;
      }
      i := i + 1;
    }
    angle := TruncRem(snapped, 360);
  }

  /** Distinct special angles are at least 15 degrees apart. */
  lemma SpecialsSpread(i: int, j: int)
    requires 0 <= i < j < |Specials|
    ensures Specials[j] - Specials[i] >= 15
  {
  }

  /** Reducing a special angle modulo 360 gives a special angle: 360 % 360
      is the first one, 0, and every other is unchanged. */
  lemma SpecialModulo(i: int)
    requires 0 <= i < |Specials|
    ensures 0 <= Specials[i] <= 360
    ensures TruncRem(Specials[i], 360) == Specials[if i == |Specials| - 1 then 0 else i]
  {
  }

  /** No rounded angle is within the tolerance of two special angles, so
      the scan order does not matter. */
  lemma AtMostOneWithin(rounded: int, i: int, j: int)
    requires 0 <= i < |Specials| && 0 <= j < |Specials|
    requires Abs(rounded - Specials[i]) < Tolerance && Abs(rounded - Specials[j]) < Tolerance
    ensures i == j
  {
    if i < j {
      SpecialsSpread(i, j);
    } else if j < i {
      SpecialsSpread(j, i);
    }
  }

  /** A rounded angle within the tolerance of a special angle s becomes
      s % 360; any other keeps its own value modulo 360. */
  lemma SnapCharacterized(rounded: int)
    ensures forall i :: 0 <= i < |Specials| && Abs(rounded - Specials[i]) < Tolerance ==>
      Snapped(rounded) == TruncRem(Specials[i], 360)
    ensures (forall i :: 0 <= i < |Specials| ==> Abs(rounded - Specials[i]) >= Tolerance) ==>
      Snapped(rounded) == TruncRem(rounded, 360)
  {
    FirstWithinMeaning(Specials, 0, rounded);
    var found := FirstWithin(Specials, 0, rounded);
    if found.Some? {
      var j :| 0 <= j < |Specials| && Specials[j] == found.value && Abs(rounded - found.value) < Tolerance;
      forall i | 0 <= i < |Specials| && Abs(rounded - Specials[i]) < Tolerance
        ensures Snapped(rounded) == TruncRem(Specials[i], 360)
      {
        AtMostOneWithin(rounded, i, j);
      }
    }
  }

  /** For a rounded angle in [0, 360], as the pointer produces, the result
      is in [0, 360). */
  lemma SnapRange(rounded: int)
    requires 0 <= rounded <= 360
    ensures 0 <= Snapped(rounded) < 360
  {
    FirstWithinMeaning(Specials, 0, rounded);
    var found := FirstWithin(Specials, 0, rounded);
    if found.Some? {
      var j :| 0 <= j < |Specials| && Specials[j] == found.value && Abs(rounded - found.value) < Tolerance;
      SpecialModulo(j);
    } else {
      SnapKeepsUncaptured(rounded);
    }
  }

  /** A special angle below 360 snaps to itself: every special before it
      is at least 15 degrees away. */
  lemma SnapFixesSpecial(k: int)
    requires 0 <= k < |Specials| - 1
    ensures Snapped(Specials[k]) == Specials[k]
  {
    var s := Specials[k];
    forall i | 0 <= i < k
      ensures Abs(s - Specials[i]) >= Tolerance
    {
      SpecialsSpread(i, k);
    }
    FirstWithinSkips(Specials, 0, k, s);
    SpecialModulo(k);
  }

  /** An angle in [0, 360] that no special captures is left as it is:
      360 is special, so such an angle is below it. */
  lemma SnapKeepsUncaptured(rounded: int)
    requires 0 <= rounded <= 360
    requires FirstWithin(Specials, 0, rounded).None?
    ensures rounded < 360 && Snapped(rounded) == rounded
  {
    FirstWithinMeaning(Specials, 0, rounded);
    assert Abs(rounded - Specials[16]) >= Tolerance;
    assert TruncRem(rounded, 360) == rounded;
  }

  /** Snapping a snapped angle changes nothing. */
  lemma SnapIdempotent(rounded: int)
    requires 0 <= rounded <= 360
    ensures Snapped(Snapped(rounded)) == Snapped(rounded)
  {
    FirstWithinMeaning(Specials, 0, rounded);
    var found := FirstWithin(Specials, 0, rounded);
    if found.Some? {
      var j :| 0 <= j < |Specials| && Specials[j] == found.value && Abs(rounded - found.value) < Tolerance;
      SpecialModulo(j);
      SnapFixesSpecial(if j == |Specials| - 1 then 0 else j);
    } else {
      SnapKeepsUncaptured(rounded);
    }
  }

  /** The snap targets are exactly the angles of the exact-value table;
      the two lists are written separately in the component. */
  lemma SnapTargetsAreTableKeys(key: int)
    ensures key in Specials <==> IsKey(key)
  {
    KeysAreSpecialAngles(key);
  }

  /** The same, for one target picked by its index. */
  lemma SpecialIsKey(i: int)
    requires 0 <= i < |Specials|
    ensures IsKey(Specials[i])
  {
  }

  /** A captured angle always gets exact values. */
  lemma CapturedAnglesAreExact(rounded: int, i: int)
    requires 0 <= i < |Specials| && Abs(rounded - Specials[i]) < Tolerance
    ensures IsKey(Normalize(Snapped(rounded)))
  {
    SnapCharacterized(rounded);
    SpecialModulo(i);
    var k := if i == |Specials| - 1 then 0 else i;
    assert Snapped(rounded) == Specials[k];
    SpecialIsKey(k);
  }

  /** 32 is within the tolerance of 30 and snaps to it. */
  lemma SnapCapturesNearby()
    ensures Snapped(32) == 30
  {
    assert FirstWithin(Specials, 0, 32) == FirstWithin(Specials, 1, 32) == Some(30);
  }

  /** 36 is at least 4 away from every special angle (30 and 45 are the
      nearest) and is left alone. */
  lemma SnapKeepsDistant()
    ensures Snapped(36) == 36
  {
    forall i | 0 <= i < |Specials|
      ensures Abs(36 - Specials[i]) >= Tolerance
    {
      if i < 1 {
        SpecialsSpread(i, 1);
      } else if i > 2 {
        SpecialsSpread(2, i);
      }
    }
    FirstWithinMeaning(Specials, 0, 36);
  }

  /** 358 snaps to 360, which `% 360` turns into 0. */
  lemma SnapWrapsFullTurn()
    ensures Snapped(358) == 0
  {
    forall i | 0 <= i < 16
      ensures Abs(358 - Specials[i]) >= Tolerance
    {
      if i < 15 {
        SpecialsSpread(i, 15);
      }
    }
    FirstWithinSkips(Specials, 0, 16, 358);
    assert FirstWithin(Specials, 16, 358) == Some(360);
  }
}
