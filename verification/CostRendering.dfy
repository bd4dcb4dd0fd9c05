/** The cost text inside the execution-policy digest: fixed-point printing of a non-negative decimal
 *  with trailing zeros and point removed, which is one text per value. */
module CostRendering {

  /** `coefficient * 10^exponent`, as Python's decimals are stored; several of them have one value. */
  datatype Decimal = Decimal(coefficient: nat, exponent: int)

  /** The same value as a natural number with `places` decimal places. */
  datatype Fixed = Fixed(units: nat, places: nat)

  function Pow10(k: nat): (p: nat)
    ensures p >= 1
  {
    if k == 0 then 1 else 10 * Pow10(k - 1)
  }

  function FixedPoint(d: Decimal): Fixed {
    if d.exponent >= 0 then Fixed(d.coefficient * Pow10(d.exponent), 0) else Fixed(d.coefficient, -d.exponent)
  }

  predicate SameValue(a: Fixed, b: Fixed) {
    a.units * Pow10(b.places) == b.units * Pow10(a.places)
  }

  // ---------------------------------------------------------------- printing

  const DIGITS := "0123456789"

  function Digits(n: nat): (s: string)
    ensures s != [] && forall i :: 0 <= i < |s| ==> s[i] in DIGITS
  {
    if n < 10 then [DIGITS[n]] else Digits(n / 10) + [DIGITS[n % 10]]
  }

  function WholePart(n: nat, places: nat): nat {
    if places == 0 then n else WholePart(n / 10, places - 1)
  }

  /** The last `places` digits, zeros included. */
  function FractionDigits(n: nat, places: nat): (s: string)
    ensures |s| == places && forall i :: 0 <= i < |s| ==> s[i] in DIGITS
  {
    if places == 0 then "" else FractionDigits(n / 10, places - 1) + [DIGITS[n % 10]]
  }

  /** `format(value, "f")`. */
  function Print(f: Fixed): string {
    Digits(WholePart(f.units, f.places)) + if f.places == 0 then "" else "." + FractionDigits(f.units, f.places)
  }

  function StripRight(s: string, c: char): string {
    if s != [] && s[|s| - 1] == c then StripRight(s[..|s| - 1], c) else s
  }

  /** Drop trailing zeros, and then a trailing point, of a text that has a point. */
  function Strip(printed: string): string {
    if '.' in printed then StripRight(StripRight(printed, '0'), '.') else printed
  }

  /** The text that enters the digest. */
  function Rendered(d: Decimal): string {
    Strip(Print(FixedPoint(d)))
  }

  // ---------------------------------------------------------------- reading back

  function DigitValue(c: char): nat {
    if '0' <= c <= '9' then (c - '0') as nat else 0
  }

  function ParseDigits(s: string): nat {
    if s == [] then 0 else 10 * ParseDigits(s[..|s| - 1]) + DigitValue(s[|s| - 1])
  }

  function PointAt(s: string): (i: nat)
    ensures i <= |s|
    ensures i < |s| ==> s[i] == '.'
    ensures forall j :: 0 <= j < i ==> s[j] != '.'
  {
    if s == [] || s[0] == '.' then 0 else 1 + PointAt(s[1..])
  }

  function Parse(s: string): Fixed {
    var i := PointAt(s);
    if i == |s| then Fixed(ParseDigits(s), 0) else Fixed(ParseDigits(s[..i] + s[i + 1..]), |s| - i - 1)
  }

  // ---------------------------------------------------------------- the round trip

  lemma ParseAppend(s: string, d: nat)
    requires d < 10
    ensures ParseDigits(s + [DIGITS[d]]) == 10 * ParseDigits(s) + d
  {
    assert (s + [DIGITS[d]])[..|s|] == s;
    assert DigitValue(DIGITS[d]) == d;
  }

  lemma {:induction false} DigitsParse(n: nat)
    ensures ParseDigits(Digits(n)) == n
  {
    if n >= 10 {
      DigitsParse(n / 10);
      ParseAppend(Digits(n / 10), n % 10);
    } else {
      ParseAppend([], n);
      assert [] + [DIGITS[n]] == [DIGITS[n]];
    }
  }

  lemma {:induction false} PartsParse(n: nat, places: nat)
    ensures ParseDigits(Digits(WholePart(n, places)) + FractionDigits(n, places)) == n
  {
    hide Digits, ParseDigits;
    var whole := Digits(WholePart(n, places));
    if places == 0 {
      assert whole + "" == whole;
      DigitsParse(n);
    } else {
      var fraction := FractionDigits(n / 10, places - 1);
      PartsParse(n / 10, places - 1);
      ParseAppend(whole + fraction, n % 10);
      assert whole + (fraction + [DIGITS[n % 10]]) == (whole + fraction) + [DIGITS[n % 10]];
    }
  }

  lemma NoPointInDigits(s: string)
    requires forall i :: 0 <= i < |s| ==> s[i] in DIGITS
    ensures '.' !in s && PointAt(s) == |s|
  {
    assert '.' !in DIGITS;
  }

  /** Printing loses nothing, not even trailing zeros. */
  lemma PrintParses(f: Fixed)
    ensures Parse(Print(f)) == f
  {
    hide Digits, WholePart, FractionDigits, ParseDigits;
    var whole, fraction := Digits(WholePart(f.units, f.places)), FractionDigits(f.units, f.places);
    NoPointInDigits(whole);
    PartsParse(f.units, f.places);
    if f.places == 0 {
      assert Print(f) == whole && whole + fraction == whole;
    } else {
      var s := Print(f);
      assert s[|whole|] == '.' && forall j :: 0 <= j < |whole| ==> s[j] == whole[j];
      assert PointAt(s) == |whole|;
      assert s[..|whole|] == whole && s[|whole| + 1..] == fraction;
    }
  }

  // ---------------------------------------------------------------- reduction

  /** Drop trailing zero places. */
  function Reduced(f: Fixed): (r: Fixed)
    ensures r.places == 0 || r.units % 10 != 0
    decreases f.places
  {
    if f.places > 0 && f.units % 10 == 0 then Reduced(Fixed(f.units / 10, f.places - 1)) else f
  }

  lemma TenFold(n: nat, p: nat)
    ensures n * (10 * p) == 10 * (n * p) && (10 * n) * p == 10 * (n * p)
  {
  }

  lemma Pow10Step(k: nat)
    requires k > 0
    ensures Pow10(k) == 10 * Pow10(k - 1)
  {
  }

  /** Dropping one zero place keeps the value. */
  lemma OnePlaceLess(r: Fixed, f: Fixed, g: Fixed)
    requires SameValue(r, g) && f.places > 0 && f.units == 10 * g.units && g.places == f.places - 1
    ensures SameValue(r, f)
  {
    hide Pow10;
    Pow10Step(f.places);
    TenFold(r.units, Pow10(g.places));
    TenFold(g.units, Pow10(r.places));
  }

  lemma {:induction false} ReducedKeepsValue(f: Fixed)
    ensures SameValue(Reduced(f), f)
    decreases f.places
  {
    hide SameValue;
    if f.places > 0 && f.units % 10 == 0 {
      var g := Fixed(f.units / 10, f.places - 1);
      ReducedKeepsValue(g);
      OnePlaceLess(Reduced(f), f, g);
    } else {
      SameAsItself(f);
    }
  }

  lemma SameAsItself(f: Fixed)
    ensures SameValue(f, f)
  {
    hide Pow10;
  }

  lemma {:induction false} Pow10Splits(a: nat, b: nat)
    ensures Pow10(a + b) == Pow10(a) * Pow10(b)
  {
    if a > 0 {
      Pow10Splits(a - 1, b);
      Pow10Step(a);
      Pow10Step(a + b);
      TenFold(Pow10(a - 1), Pow10(b));
    }
  }

  /** A value has one reduced form. */
  lemma ReducedIsUnique(a: Fixed, b: Fixed)
    requires SameValue(a, b) && a.places <= b.places
    requires b.places == 0 || b.units % 10 != 0
    ensures a == b
  {
    hide Pow10;
    var gap := b.places - a.places;
    Pow10Splits(gap, a.places);
    var p, q := Pow10(gap), Pow10(a.places);
    assert (a.units * p) * q == b.units * q by {
      assert a.units * (p * q) == (a.units * p) * q;
    }
    CancelFactor(a.units * p, b.units, q);
    if gap > 0 {
      TenDivides(a.units, gap);
    } else {
      assert p == 1 by { Pow10Zero(); }
    }
  }

  lemma Pow10Zero()
    ensures Pow10(0) == 1
  {
  }

  lemma TenDivides(n: nat, k: nat)
    requires k > 0
    ensures (n * Pow10(k)) % 10 == 0
  {
    assert n * Pow10(k) == 10 * (n * Pow10(k - 1));
  }

  lemma CancelFactor(x: nat, y: nat, p: nat)
    requires p >= 1 && x * p == y * p
    ensures x == y
  {
    assert (x - y) * p == 0;
  }

  lemma SwapFactors(x: nat, y: nat, z: nat)
    ensures (x * y) * z == (x * z) * y
  {
  }

  lemma SameValueIsTransitive(a: Fixed, b: Fixed, c: Fixed)
    requires SameValue(a, b) && SameValue(b, c)
    ensures SameValue(a, c)
  {
    hide Pow10;
    var x, y, z := Pow10(a.places), Pow10(b.places), Pow10(c.places);
    SwapFactors(a.units, z, y);
    SwapFactors(b.units, x, z);
    SwapFactors(c.units, y, x);
    CancelFactor(a.units * z, c.units * x, y);
  }

  lemma SameReduced(a: Fixed, b: Fixed)
    ensures SameValue(a, b) <==> Reduced(a) == Reduced(b)
  {
    ReducedKeepsValue(a);
    ReducedKeepsValue(b);
    if SameValue(a, b) {
      SameValueIsTransitive(Reduced(a), a, b);
      SameValueIsTransitive(Reduced(a), b, Reduced(b));
      if Reduced(a).places <= Reduced(b).places {
        ReducedIsUnique(Reduced(a), Reduced(b));
      } else {
        ReducedIsUnique(Reduced(b), Reduced(a));
      }
    } else if Reduced(a) == Reduced(b) {
      SameValueIsTransitive(a, Reduced(a), b);
    }
  }

  // ---------------------------------------------------------------- stripping is reduction

  /** A text that does not end in zero keeps all its places. */
  lemma NothingToStrip(f: Fixed)
    requires f.places > 0 && f.units % 10 != 0
    ensures Strip(Print(f)) == Print(f)
  {
    hide Digits, WholePart;
    var s := Print(f);
    assert s[|s| - 1] == DIGITS[f.units % 10];
    assert StripRight(s, '0') == s && StripRight(s, '.') == s;
  }

  /** Stripping the text drops exactly the trailing zero places. */
  lemma {:induction false} StripReduces(f: Fixed)
    ensures Strip(Print(f)) == Print(Reduced(f))
    decreases f.places
  {
    hide Digits, StripRight;
    var whole := Digits(WholePart(f.units, f.places));
    NoPointInDigits(whole);
    if f.places == 0 {
    } else if f.units % 10 == 0 {
      var g := Fixed(f.units / 10, f.places - 1);
      StripReduces(g);
      PrintEndsInZero(f, g);
      StripsLastZero(g, whole, Print(f));
    } else {
      NothingToStrip(f);
    }
  }

  lemma PrintEndsInZero(f: Fixed, g: Fixed)
    requires f.places > 0 && f.units % 10 == 0 && g == Fixed(f.units / 10, f.places - 1)
    ensures Digits(WholePart(f.units, f.places)) == Digits(WholePart(g.units, g.places))
    ensures Print(f) == Digits(WholePart(g.units, g.places)) + "." + FractionDigits(g.units, g.places) + "0"
  {
    hide Digits;
    var whole := Digits(WholePart(g.units, g.places));
    assert whole + ("." + (FractionDigits(g.units, g.places) + "0"))
        == whole + "." + FractionDigits(g.units, g.places) + "0";
  }

  lemma StripsLastZero(g: Fixed, whole: string, s: string)
    requires whole == Digits(WholePart(g.units, g.places))
    requires s == whole + "." + FractionDigits(g.units, g.places) + "0"
    ensures Strip(s) == Strip(Print(g))
  {
    hide Digits, WholePart, FractionDigits;
    NoPointInDigits(whole);
    assert s[|whole|] == '.';
    var t := whole + "." + FractionDigits(g.units, g.places);
    assert s[..|s| - 1] == t;
    if g.places == 0 {
      assert t == whole + "." && Print(g) == whole;
      assert t[..|whole|] == whole;
      assert StripRight(t, '0') == t;
      assert StripRight(t, '.') == StripRight(whole, '.') == whole;
    } else {
      assert Print(g) == t && t[|whole|] == '.';
    }
  }

  // ---------------------------------------------------------------- worth

  /** The power of ten, for any exponent. */
  function PowReal(e: int): (p: real)
    ensures p > 0.0
    decreases if e >= 0 then e else -e
  {
    if e == 0 then 1.0 else if e > 0 then 10.0 * PowReal(e - 1) else PowReal(e + 1) / 10.0
  }

  /** What a decimal is worth. */
  function Worth(d: Decimal): real {
    d.coefficient as real * PowReal(d.exponent)
  }

  function FixedWorth(f: Fixed): real {
    f.units as real * PowReal(0 - f.places)
  }

  /** What a text is worth. */
  function TextWorth(s: string): real {
    FixedWorth(Parse(s))
  }

  lemma {:induction false} PowRealInverse(k: nat)
    ensures PowReal(k) * PowReal(0 - k) == 1.0
  {
    if k > 0 {
      PowRealInverse(k - 1);
      var p, q := PowReal(k - 1), PowReal(1 - k);
      assert PowReal(k) == 10.0 * p && PowReal(0 - k) == q / 10.0;
      assert (10.0 * p) * (q / 10.0) == p * q;
    }
  }

  lemma {:induction false} Pow10IsReal(k: nat)
    ensures Pow10(k) as real == PowReal(k)
  {
    if k > 0 {
      Pow10IsReal(k - 1);
    }
  }

  /** Fixed-point values are the same exactly when they are worth the same. */
  lemma SameWorth(a: Fixed, b: Fixed)
    ensures SameValue(a, b) <==> FixedWorth(a) == FixedWorth(b)
  {
    hide PowReal, Pow10;
    Pow10IsReal(a.places);
    Pow10IsReal(b.places);
    PowRealInverse(a.places);
    PowRealInverse(b.places);
    CrossMultiply(a.units as real, PowReal(a.places), PowReal(0 - a.places),
                  b.units as real, PowReal(b.places), PowReal(0 - b.places));
    ProductIsReal(a.units, Pow10(b.places));
    ProductIsReal(b.units, Pow10(a.places));
  }

  lemma ProductIsReal(x: nat, y: nat)
    ensures (x * y) as real == x as real * y as real
  {
  }

  lemma CrossMultiply(x: real, p: real, p': real, y: real, q: real, q': real)
    requires p * p' == 1.0 && q * q' == 1.0
    ensures x * q == y * p <==> x * p' == y * q'
  {
    if x * q == y * p {
      assert (x * q) * (p' * q') == (y * p) * (p' * q');
      assert (x * q) * (p' * q') == (x * p') * (q * q') && (y * p) * (p' * q') == (y * q') * (p * p');
    }
    if x * p' == y * q' {
      assert (x * p') * (p * q) == (y * q') * (p * q);
      assert (x * p') * (p * q) == (x * q) * (p * p') && (y * q') * (p * q) == (y * p) * (q * q');
    }
  }

  lemma FixedPointKeepsWorth(d: Decimal)
    ensures FixedWorth(FixedPoint(d)) == Worth(d)
  {
    hide Pow10, PowReal;
    if d.exponent >= 0 {
      Pow10IsReal(d.exponent);
      ProductIsReal(d.coefficient, Pow10(d.exponent));
      assert PowReal(0) == 1.0 by { ZeroPower(); }
    }
  }

  lemma ZeroPower()
    ensures PowReal(0) == 1.0
  {
  }

  // ---------------------------------------------------------------- results

  /** Two costs have one text exactly when they are worth the same. */
  lemma RenderedIsCanonical(a: Decimal, b: Decimal)
    ensures Rendered(a) == Rendered(b) <==> Worth(a) == Worth(b)
  {
    hide Worth, FixedWorth, SameValue;
    StripReduces(FixedPoint(a));
    StripReduces(FixedPoint(b));
    PrintParses(Reduced(FixedPoint(a)));
    PrintParses(Reduced(FixedPoint(b)));
    SameReduced(FixedPoint(a), FixedPoint(b));
    SameWorth(FixedPoint(a), FixedPoint(b));
    FixedPointKeepsWorth(a);
    FixedPointKeepsWorth(b);
  }

  /** The text of a cost is worth what the cost is worth. */
  lemma RenderedParses(d: Decimal)
    ensures TextWorth(Rendered(d)) == Worth(d)
  {
    hide Worth, FixedWorth, SameValue, Print, Strip, Parse, Reduced, FixedPoint;
    StripReduces(FixedPoint(d));
    PrintParses(Reduced(FixedPoint(d)));
    ReducedKeepsValue(FixedPoint(d));
    SameWorth(Reduced(FixedPoint(d)), FixedPoint(d));
    FixedPointKeepsWorth(d);
  }

  /** The text is digits with at most one point, which neither begins nor ends it, and no zero place at the end. */
  lemma RenderedIsPlain(d: Decimal)
    ensures var s := Rendered(d);
      && s != [] && s[0] in DIGITS && s[|s| - 1] in DIGITS
      && (forall i :: 0 <= i < |s| ==> s[i] in DIGITS || (s[i] == '.' && PointAt(s) == i))
      && ('.' in s ==> s[|s| - 1] != '0')
  {
    StripReduces(FixedPoint(d));
    var f := Reduced(FixedPoint(d));
    var whole := Digits(WholePart(f.units, f.places));
    NoPointInDigits(whole);
    if f.places > 0 {
      var fraction := FractionDigits(f.units, f.places);
      assert Print(f) == whole + ("." + fraction) && fraction[|fraction| - 1] == DIGITS[f.units % 10];
      assert Print(f)[|whole|] == '.' && PointAt(Print(f)) == |whole|;
    }
  }
}
