/** How `FractionText` and the value badges draw a part: the top line is
    the sign (empty when absent) followed by the top token, and a fraction
    bar with the bottom line appears only when the part has a bottom. A
    decoder reads a drawing back, which shows that the drawing loses
    nothing but the difference between an absent and an empty sign. */
module Display {

  import opened Wrappers
  import opened Radicals
  import opened FixedText

  /** The text drawn: the top line, and the bottom line under a fraction
      bar when there is one. */
  datatype Rendered = Rendered(top: string, bottom: Option<string>)

  /** `s || ''`: both an absent and an empty sign draw as nothing. */
  function SignText(s: Sign): string
  {
    if s == Minus then "-" else ""
  }

  function NumerText(t: Numer): string
  {
    match t
    case Zero => "0"
    case One => "1"
    case Sqrt2 => "\U{221A}2"
    case Sqrt3 => "\U{221A}3"
    case Infinity => "\U{221E}"
    case Fixed(hundredths) => Fixed2Text(hundredths)
  }

  function DenomText(b: Denom): string
  {
    match b
    case Two => "2"
    case Three => "3"
  }

  /** The drawing of a part. Its top line starts with '-' exactly when the
      sign is '-', and it has a bar and bottom line exactly when the part
      has a bottom. */
  function Render(p: Part): (r: Rendered)
    ensures |r.top| > 0 && (r.top[0] == '-' <==> p.s == Minus)
    ensures r.bottom.Some? <==> p.b.Some?
  {
    Rendered(SignText(p.s) + NumerText(p.t),
             if p.b.Some? then Some(DenomText(p.b.value)) else None)
  }

  function ParseNumer(s: string): Option<Numer>
  {
    if s == "0" then Some(Zero)
    else if s == "1" then Some(One)
    else if s == "\U{221A}2" then Some(Sqrt2)
    else if s == "\U{221A}3" then Some(Sqrt3)
    else if s == "\U{221E}" then Some(Infinity)
    else match ParseFixed2(s)
      case Some(hundredths) => Some(Fixed(hundredths))
      case None => None
  }

  function ParseDenom(s: string): Option<Denom>
  {
    if s == "2" then Some(Two) else if s == "3" then Some(Three) else None
  }

  /** Reads a drawing back as a part; a drawn sign can only be read as '-'
      or as absent. */
  function Decode(r: Rendered): Option<Part>
  {
    var negative := |r.top| > 0 && r.top[0] == '-';
    var numeral := if negative then r.top[1..] else r.top;
    match ParseNumer(numeral)
    case None => None
    case Some(t) =>
      match r.bottom
      case None => Some(Part(t, None, if negative then Minus else NoSign))
      case Some(text) =>
        match ParseDenom(text)
        case None => None
        case Some(b) => Some(Part(t, Some(b), if negative then Minus else NoSign))
  }

  /** A part with the empty-string sign replaced by an absent one. */
  function Canonical(p: Part): Part
  {
    if p.s == EmptySign then p.(s := NoSign) else p
  }

  /** Each top token reads back from its text, which never starts with '-'. */
  lemma ParseNumerText(t: Numer)
    ensures |NumerText(t)| > 0 && NumerText(t)[0] != '-'
    ensures ParseNumer(NumerText(t)) == Some(t)
  {
    if t.Fixed? {
      var text := Fixed2Text(t.hundredths);
      Fixed2RoundTrip(t.hundredths);
      assert |text| >= 4;
      assert IsDigit(text[..|text| - 3][0]);
    }
  }

  /** Decoding a drawing gives back the part drawn, up to the kind of its
      non-negative sign. */
  lemma DecodeRender(p: Part)
    ensures Decode(Render(p)) == Some(Canonical(p))
  {
    var r := Render(p);
    ParseNumerText(p.t);
    if p.s == Minus {
      assert r.top[1..] == NumerText(p.t);
    } else {
      assert r.top == NumerText(p.t);
    }
  }

  /** Two parts look the same exactly when they differ at most in whether a
      non-negative sign is absent or empty. */
  lemma RenderDistinguishes(p: Part, q: Part)
    ensures Render(p) == Render(q) <==> Canonical(p) == Canonical(q)
  {
    DecodeRender(p);
    DecodeRender(q);
  }
}
