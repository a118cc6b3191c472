# Unit-circle exact values, in Dafny

This project models the value engine of the unit-circle component
(`components/UnitCircle.tsx`) of an interactive trigonometry lesson. The user
drags a point round the circle or moves a slider. The component then shows
sine, cosine, tangent and cotangent: as exact radical fractions such as √3/2
at the 17 special angles, and as two-decimal numbers elsewhere.

The model has eight modules:

- `Angles` (angles.dfy): JavaScript's truncating `%` (`TruncRem`), the
  reduction `((angle % 360) + 360) % 360` (`Normalize`), and the tests
  `isTanDefined` and `isCotDefined`.
- `Radicals` (radicals.dfy): the `{t, b?, s?}` record as closed token types.
  The sign is three-valued: absent, `''` and `'-'`. The table leaves the sign
  out, while the fallback writes `''`.
- `ExactTable` (exact_table.dfy): the hand-written table, 17 angles × 4
  ratios, and what it promises: signs by quadrant, the axis values, reflection
  symmetry and the unit-circle identities.
- `FixedText` (fixed_text.dfy): `toFixed(2)`, meaning rounding to hundredths
  with ties going up, plus the decimal text and a parser that reads the text
  back.
- `RadicalPart` (radical_part.dfy): `getRadicalPart` itself, meaning the
  table lookup on the canonical angle or the decimal fallback.
- `Display` (display.dfy): the drawing rule shared by `FractionText` and the
  value badges, plus a decoder that proves the drawing loses no information.
- `Snap` (snap.dfy): the snapping loop of `handleInteraction`, as a method
  with a `while` loop and `break`, proved against the function `Snapped`.
- `Wrappers` (wrappers.dfy): `Option`.

Angles are integers (`int`). The slider, the preset buttons and the snapping
path only ever produce whole degrees. `Math.sin(r)` and `Math.cos(r)` are
floating point, so they are not computed. The caller passes their values at
the angle as `sinValue` and `cosValue`, reals in [-1, 1]. The model formats
them exactly as `Math.abs(val).toFixed(2)` and the sign test `val < 0` do.

## Model

| member | source | states |
|---|---|---|
| `Angles.TruncRem` | components/UnitCircle.tsx:13 | JavaScript `%`: the result lies strictly between -m and m, equals the Euclidean remainder for a non-negative dividend, and for a negative dividend equals that remainder minus m (or 0 when it divides). |
| `Angles.Normalize` | components/UnitCircle.tsx:13 | The canonical angle is in [0, 360) and equals the angle modulo 360, negative angles included. |
| `Angles.NormalizePeriodic` | components/UnitCircle.tsx:13 | Adding any whole number of turns (positive or negative) leaves the canonical angle unchanged. |
| `Angles.NormalizeIdempotent` | components/UnitCircle.tsx:13 | Normalising a canonical angle changes nothing. |
| `Angles.IsTanDefined` | components/UnitCircle.tsx:80 | Tangent is undefined exactly when the angle is congruent to 90 modulo 180, even though the code uses truncating `%` and `Math.abs`. |
| `Angles.IsCotDefined` | components/UnitCircle.tsx:81 | Cotangent is undefined exactly when the angle is a multiple of 180, negative angles included. |
| `Angles.DefinednessOnCanonical` | components/UnitCircle.tsx:80-81 | Both tests depend only on the canonical angle of line 13: tangent is undefined exactly where it is 90 or 270, cotangent exactly where it is 0 or 180. |
| `Angles.DefinednessExamples` | components/UnitCircle.tsx:80-81 | tan is undefined at 90, -90 and 270 and defined at 91; cot is undefined at 0, 180 and -180 and defined at -90. |
| `ExactTable.Mapping` | components/UnitCircle.tsx:15-33 | Every listed angle is a multiple of 15 in [0, 360], and no listed entry is a decimal. |
| `ExactTable.KeysAreSpecialAngles` | components/UnitCircle.tsx:15-33 | The table lists exactly the 17 special angles 0, 30, 45, …, 330, 360. |
| `ExactTable.SignsFollowQuadrant` | components/UnitCircle.tsx:16-32 | Sine is `'-'` exactly on (180, 360); cosine exactly on (90, 270); tangent and cotangent exactly in quadrants II and IV (120, 135, 150, 300, 315, 330). No entry uses the empty sign. |
| `ExactTable.AxisValues` | components/UnitCircle.tsx:16-32 | tan is `'∞'` exactly at 90 and 270; cot is `'∞'` exactly at 0, 180 and 360; sin and cos are never `'∞'`. Every `'∞'` or `'0'` entry has no bottom and no sign. |
| `ExactTable.Reflection` | components/UnitCircle.tsx:16-32 | For every key k, 360 - k is a key. cos(360 - k) is the same entry as cos(k). sin, tan and cot at 360 - k have the same top and bottom as at k, with the sign flipped except on `'0'` and `'∞'`. The rows for 0 and 360 are identical. |
| `ExactTable.Supplement` | components/UnitCircle.tsx:16-24 | For every key k in [0, 180], 180 - k is a key. sin(180 - k) is the same entry as sin(k). cos, tan and cot at 180 - k are those at k with the sign flipped except on `'0'` and `'∞'`. |
| `ExactTable.HalfTurn` | components/UnitCircle.tsx:16-32 | For every key k in [0, 180], k + 180 is a key. sin and cos at k + 180 are those at k with the sign flipped except on `'0'`; tan and cot are the same entries. |
| `ExactTable.FirstQuadrantSineIncreases` | components/UnitCircle.tsx:16-20 | On the keys 0, 30, 45, 60 and 90, the square of the sine entry grows strictly with the angle, so each magnitude sits at its own angle. |
| `ExactTable.UnitCircleIdentities` | components/UnitCircle.tsx:16-32 | Every row is a point of the unit circle: sin² + cos² = 1. tan² · cos² = sin² and cot² · sin² = cos², with signs multiplying as sin · cos. tan is `'∞'` exactly where cos is `'0'`, and cot exactly where sin is `'0'`. |
| `ExactTable.InfinityExactlyWhereUndefined` | components/UnitCircle.tsx:15-33 | At a listed angle, tan is `'∞'` exactly where `isTanDefined` is false, and cot is `'∞'` exactly where `isCotDefined` is false. |
| `FixedText.ToFixed2` | components/UnitCircle.tsx:41 | The number of hundredths that `toFixed(2)` writes is the one nearest to the value, with ties going up. |
| `FixedText.NatText` | components/UnitCircle.tsx:41 | A decimal numeral is non-empty and starts with `'0'` only for zero: no leading zeros. |
| `FixedText.NatTextRoundTrip` | components/UnitCircle.tsx:41 | A decimal numeral is a non-empty digit string that reads back as its number. |
| `FixedText.Fixed2Text` | components/UnitCircle.tsx:41 | The `toFixed(2)` text has digits, a point and exactly two fraction digits. It starts with `'0'` exactly for values below 1.00, so the integer part has no leading zeros. |
| `FixedText.Fixed2RoundTrip` | components/UnitCircle.tsx:41 | The two-decimal text reads back as the number of hundredths it was written for. |
| `RadicalPart.Fallback` | components/UnitCircle.tsx:41 | The fallback has no bottom. Its number is \|val\| rounded to hundredths (at most 1.00 when \|val\| ≤ 1). Its sign is `'-'` when val < 0 and `''` otherwise. |
| `RadicalPart.GetRadicalPart` | components/UnitCircle.tsx:12-42 | The result is a decimal exactly when the canonical angle is not listed, and only listed angles can have a bottom. Off the table the number is \|val\| rounded to hundredths, at most 1.00, and the sign is `'-'` exactly for a negative val (sin or cos, 0 for tan and cot). Tangent and cotangent off the table are always `{t:'0.00', s:''}`. |
| `RadicalPart.ExactPathPeriodic` | components/UnitCircle.tsx:13-35 | Whether an angle is exact is unchanged by whole turns. An exact value is the same for angle + 360·n whatever the floating-point samples are. |
| `RadicalPart.ExactPathUsesTable` | components/UnitCircle.tsx:35 | An exact value is the table entry of `angle mod 360`. The canonical angle is never 360, and the unused 360 entry agrees with the 0 entry. |
| `RadicalPart.FallbackShape` | components/UnitCircle.tsx:37-41 | Off the table the result is `{t: \|val\|.toFixed(2), s: val < 0 ? '-' : ''}` with no bottom, where val is sin or cos for those ratios and 0 for tan and cot. |
| `RadicalPart.InfinityExactlyWhenUndefined` | components/UnitCircle.tsx:80-81 | For every integer angle, tangent shows `'∞'` exactly where `isTanDefined` is false, and cotangent exactly where `isCotDefined` is false. |
| `RadicalPart.ReflectionOfAngle` | components/UnitCircle.tsx:12-41 | Reflecting to -angle (which equals 360 - angle) keeps cosine and mirrors sine on the exact path. On the fallback path, with mirrored samples, the magnitudes agree and a non-zero sine changes sign. |
| `RadicalPart.ExactExamples` | components/UnitCircle.tsx:12-35 | 30°/sin is 1/2, 135°/cos is -√2/2, 90°/tan and 0°/cot are `'∞'`, and -330°/sin is 1/2. |
| `RadicalPart.FallbackExamples` | components/UnitCircle.tsx:37-42 | 17° falls back to decimals: sin is a decimal and tan is `'0.00'`. |
| `RadicalPart.TanCotFallbackIsZero` | components/UnitCircle.tsx:38-41 | As written, tan at 17° and at 73° both show `'0.00'`, and so does cot at 17°. |
| `RadicalPart.GetRadicalPartIntended` | components/UnitCircle.tsx:37-41 | Corrected fallback: off the table, every ratio shows its own value rounded to hundredths, with `'-'` exactly for a negative value. |
| `RadicalPart.IntendedAgreesWithWritten` | components/UnitCircle.tsx:12-42 | The correction changes only the tan/cot fallback. It equals the code on every listed angle, and for sin and cos everywhere. |
| `RadicalPart.IntendedTanAt17` | components/UnitCircle.tsx:38-41 | With tan 17° = 0.3057 the corrected fallback shows 0.31. |
| `Display.Render` | components/UnitCircle.tsx:49-56 | The top line starts with `'-'` exactly when the sign is `'-'`. A fraction bar and bottom line are drawn exactly when the part has a bottom (the badges at lines 222-224 follow the same rule). |
| `Display.ParseNumerText` | components/UnitCircle.tsx:50 | Each top token's text is non-empty, never starts with `'-'`, and reads back as the token. |
| `Display.DecodeRender` | components/UnitCircle.tsx:49-56 | Reading a drawing back gives the part drawn; only the difference between an absent and an empty sign is lost. |
| `Display.RenderDistinguishes` | components/UnitCircle.tsx:222-224 | Two parts draw the same exactly when they differ at most in whether a non-negative sign is absent or `''`. |
| `Snap.FirstWithinMeaning` | components/UnitCircle.tsx:95-97 | The scan returns a target strictly within the tolerance 4. It returns nothing only when no target is that close. |
| `Snap.FirstWithinSkips` | components/UnitCircle.tsx:95-97 | The scan passes over a run of targets that are all at least 4 away, finding what it finds after them. |
| `Snap.SnapAngle` | components/UnitCircle.tsx:93-98 | The loop with its `break` computes `Snapped`: the first special strictly within 4 degrees, or the rounded angle itself, reduced by `% 360`. |
| `Snap.SpecialsSpread` | components/UnitCircle.tsx:93 | Special angles later in the list are at least 15 degrees above earlier ones. |
| `Snap.AtMostOneWithin` | components/UnitCircle.tsx:95-96 | No angle is within the tolerance of two different specials, so first-match order cannot change the result. |
| `Snap.SnapCharacterized` | components/UnitCircle.tsx:93-98 | An angle within the tolerance of special s becomes s % 360. Any other angle becomes its own value % 360. |
| `Snap.SnapRange` | components/UnitCircle.tsx:93-98 | For a rounded angle in [0, 360] the snapped angle is in [0, 360). |
| `Snap.SnapKeepsUncaptured` | components/UnitCircle.tsx:93-98 | An angle in [0, 360] that no special captures is below 360 and is kept unchanged. |
| `Snap.SnapFixesSpecial` | components/UnitCircle.tsx:93-98 | Every special angle below 360 snaps to itself. |
| `Snap.SnapIdempotent` | components/UnitCircle.tsx:93-98 | On [0, 360], snapping an already snapped angle changes nothing. |
| `Snap.SnapTargetsAreTableKeys` | components/UnitCircle.tsx:93 | The snap list and the table's keys, written separately in the component, are the same set of angles. |
| `Snap.CapturedAnglesAreExact` | components/UnitCircle.tsx:93-98 | An angle captured by a special always reaches the exact table. |
| `Snap.SnapCapturesNearby` | components/UnitCircle.tsx:93-98 | 32 is within 4 of 30 and snaps to 30. |
| `Snap.SnapKeepsDistant` | components/UnitCircle.tsx:93-98 | 36 is at least 4 from every special and stays 36. |
| `Snap.SnapWrapsFullTurn` | components/UnitCircle.tsx:93-98 | 358 snaps to 360, and `% 360` wraps that to 0. |

Helpers without a row of their own are part of the rows that use them:
`RadicalPart.FallbackValue` of `GetRadicalPart` and `FallbackShape`;
`Snap.FirstWithin` of `FirstWithinMeaning` and `Snapped` of `SnapAngle` and
`SnapCharacterized`; `ExactTable.Select` of `Mapping` and `ExactPathUsesTable`;
`Display.SignText`, `NumerText` and `DenomText` of `Render`; `Angles.RemainderOf180`
of `DefinednessOnCanonical`.

## Findings

| source | as written | input that shows it | evidently intended | confidence | as-written member | corrected member |
|---|---|---|---|---|---|---|
| components/UnitCircle.tsx:38-41 | `val` starts at 0 and is set only for `'sin'` and `'cos'`, so tangent and cotangent off the table always show `0.00`. | angle 17: the tan badge shows `0.00` although tan 17° ≈ 0.31; at 73° (tan ≈ 3.27) it shows `0.00` too | `val = Math.tan(r)` for tangent and `1 / Math.tan(r)` for cotangent, formatted like sine and cosine | high; not executed | `RadicalPart.TanCotFallbackIsZero` | `RadicalPart.GetRadicalPartIntended` |

The rest of the model states its properties of `GetRadicalPart`, the code as
written. `RadicalPart.IntendedAgreesWithWritten` carries them over to the
corrected function on every listed angle and for sine and cosine everywhere.

## Left out

- `RadicalPart.GetRadicalPart`: the values of `Math.sin(r)` and `Math.cos(r)` are parameters (reals in [-1, 1]). The model does not tie them to the angle, because they are floating point.
- `RadicalPart.ReflectionOfAngle`: on the fallback path it assumes samples with sin(-a) = -sin(a) and cos(-a) = cos(a). Floating-point sines of a and 360 - a need not be exact negatives.
- `RadicalPart.GetRadicalPartIntended`: `Math.tan(r)` and `1 / Math.tan(r)` are parameters too, bounded only by the limit where `toFixed` switches to exponent notation.
- Non-integer angles are not modelled. The slider, the presets and snapping only produce integers.
- `toFixed` above 10^21, where it writes exponent notation, is not modelled. Sine and cosine never get there.
- The pointer-to-angle geometry of `handleInteraction` (lines 84-91) is left out: `getBoundingClientRect`, `Math.atan2` and `Math.round`. The model starts from the rounded integer angle.
- SVG layout is left out: coordinates, the `y` offset of the top text in `FractionText`, colours, and the `Math.abs(tanValue) < 5` visibility gates (lines 170 and 180). These are presentation on floating-point values.
- The `if (!data) return null` guard of `FractionText` is not modelled. `getRadicalPart` always returns a record.
- The `isDragging` state and React event wiring are left out.
- `components/TrigGraphs.tsx` (chart drawing), `services/geminiService.ts` (a network call), `App.tsx` (page state and layout), `constants.ts` and `types.ts` (constants and unused interfaces) are not part of this model.
- `getRadicalPart` returns only the record `{t, b?, s?}`; whether a value is exact is modelled as whether the canonical angle is listed, as the code decides it.
