/** The values `getRadicalPart` returns: a record `{t, b?, s?}` of a top
    (numerator) token, an optional bottom (denominator) token and an
    optional sign, written here with closed token types instead of free
    strings. */
module Radicals {

  import opened Wrappers

  /** The four ratios the unit circle shows. */
  datatype Kind = Sin | Cos | Tan | Cot

  /** The top token `t`: the table's literals '0', '1', '√2', '√3' and '∞',
      or the fallback's `toFixed(2)` decimal, kept as its number of
      hundredths. */
  datatype Numer = Zero | One | Sqrt2 | Sqrt3 | Infinity | Fixed(hundredths: nat)

  /** The bottom token `b`: '2' or '3'. */
  datatype Denom = Two | Three

  /** The sign field `s`: absent (every positive table entry), the empty
      string (the fallback's non-negative case) or '-'. */
  datatype Sign = NoSign | EmptySign | Minus

  datatype Part = Part(t: Numer, b: Option<Denom>, s: Sign)

  /** The tokens that stand for an exact radical number. */
  predicate IsRadical(t: Numer)
  {
    t.Zero? || t.One? || t.Sqrt2? || t.Sqrt3?
  }
}
