/**
  The store's money arithmetic, which is Python's `decimal.Decimal`: prices
  are exact decimals, never floating point. A non-negative Decimal is a
  coefficient and a (negated) exponent; `Dec(5000, 2)` is `Decimal('50.00')`.
  Two Decimals that are numerically equal can still differ (50.00 and 50.000),
  and the difference shows when they are turned into text, so the model keeps
  the exponent exactly as `decimal` computes it.
 */
module Money {
  import opened Wrappers
  import opened Digits

  /** coef × 10^-places. */
  datatype Dec = Dec(coef: nat, places: nat)

  /** `Decimal('0.00')`, the start of every running total. */
  const Zero: Dec := Dec(0, 2)

  /**
    The exact value of d in units of 10^-5 rupee, the finest unit a line
    price can have: a price per kilogram in paise divided by 1000.
   */
  function Units(d: Dec): nat
    requires d.places <= 5
  {
    d.coef * Pow10(5 - d.places)
  }

  function Max(a: nat, b: nat): nat {
    if a >= b then a else b
  }

  /** `a + b`: the exact sum, written with the finer exponent of the two. */
  function Add(a: Dec, b: Dec): (r: Dec)
    ensures r.places == Max(a.places, b.places)
    ensures r.places <= 5 ==> Units(r) == Units(a) + Units(b)
  {
    var p := Max(a.places, b.places);
    var r := Dec(a.coef * Pow10(p - a.places) + b.coef * Pow10(p - b.places), p);
    if p <= 5 then
      Pow10Add(p - a.places, 5 - p);
      Pow10Add(p - b.places, 5 - p);
      ScaleSum(a.coef, Pow10(p - a.places), b.coef, Pow10(p - b.places), Pow10(5 - p));
      r
    else
      r
  }

  lemma ScaleSum(x: nat, px: nat, y: nat, py: nat, q: nat)
    ensures (x * px + y * py) * q == x * (px * q) + y * (py * q)
  {
  }

  /**
    The exact-quotient step of `decimal`'s division: trailing zeros of the
    coefficient are dropped while the exponent is finer than the ideal one.
   */
  function Reduce(coef: nat, places: nat, ideal: nat): (r: Dec)
    requires ideal <= places
    ensures ideal <= r.places <= places
    ensures r.coef * Pow10(places - r.places) == coef
    ensures r.places == ideal || r.coef % 10 != 0
    decreases places
  {
    if places > ideal && coef % 10 == 0 then
      var r := Reduce(coef / 10, places - 1, ideal);
      assert Pow10(places - r.places) == 10 * Pow10(places - 1 - r.places);
      assert r.coef * (10 * Pow10(places - 1 - r.places)) == 10 * (r.coef * Pow10(places - 1 - r.places));
      r
    else
      Dec(coef, places)
  }

  /**
    `d / Decimal(1000)`. The quotient is always exact; decimal writes it with
    the dividend's exponent when that is enough, otherwise with the fewest
    extra places (at most three) that hold it exactly. Zero keeps the
    dividend's exponent.
   */
  function DivThousand(d: Dec): (r: Dec)
    ensures d.places <= r.places <= d.places + 3
    ensures r.coef * Pow10(d.places + 3 - r.places) == d.coef
    ensures r.places == d.places || r.coef % 10 != 0
  {
    Reduce(d.coef, d.places + 3, d.places)
  }

  /**
    `(price_per_kg / Decimal(1000)) * Decimal(w)` for a price per kilogram
    given in paise (a two-place DecimalField) and a weight in grams.
   */
  function LinePrice(pricePaise: nat, grams: nat): (r: Dec)
    ensures 2 <= r.places <= 5
    ensures Units(r) == pricePaise * grams
  {
    var q := DivThousand(Dec(pricePaise, 2));
    MulComm(q.coef, grams, Pow10(5 - q.places));
    Dec(q.coef * grams, q.places)
  }

  lemma MulComm(x: nat, y: nat, z: nat)
    ensures (x * y) * z == (x * z) * y
  {
  }

  predicate AllFine(ds: seq<Dec>) {
    forall i :: 0 <= i < |ds| ==> ds[i].places <= 5
  }

  /** The plain integer sum of the values, in 10^-5 units. */
  function UnitsSum(ds: seq<Dec>): nat
    requires AllFine(ds)
  {
    if ds == [] then 0 else UnitsSum(ds[..|ds| - 1]) + Units(ds[|ds| - 1])
  }

  /** `total = Decimal('0.00'); for d in ds: total += d`. */
  function Sum(ds: seq<Dec>): (r: Dec)
    ensures 2 <= r.places
    ensures AllFine(ds) ==> r.places <= 5 && Units(r) == UnitsSum(ds)
  {
    if ds == [] then Zero else Add(Sum(ds[..|ds| - 1]), ds[|ds| - 1])
  }

  lemma {:induction false} UnitsSumAppend(xs: seq<Dec>, ys: seq<Dec>)
    requires AllFine(xs) && AllFine(ys)
    ensures AllFine(xs + ys) && UnitsSum(xs + ys) == UnitsSum(xs) + UnitsSum(ys)
  {
    assert AllFine(xs + ys) by {
      forall i | 0 <= i < |xs + ys| ensures (xs + ys)[i].places <= 5 {
        if i >= |xs| { assert (xs + ys)[i] == ys[i - |xs|]; }
      }
    }
    if ys == [] {
      assert xs + ys == xs;
    } else {
      var ys' := ys[..|ys| - 1];
      assert (xs + ys)[..|xs + ys| - 1] == xs + ys';
      UnitsSumAppend(xs, ys');
    }
  }

  /**
    `str(d)` in the plain notation, which `decimal` uses whenever the digits
    in front of the point number more than -6 (for the store's amounts,
    always: they have at most five places). With no places the digits stand
    alone; otherwise the point goes `places` digits from the right, with a
    leading "0." and zeros when the coefficient has too few digits.
   */
  function ToString(d: Dec): (s: string)
    requires |NatToString(d.coef)| - d.places > -6
    ensures d.places == 0 ==> s == NatToString(d.coef)
    ensures d.places > 0 ==>
      && |s| >= d.places + 2 && s[|s| - d.places - 1] == '.'
      && AllDigits(s[..|s| - d.places - 1]) && AllDigits(s[|s| - d.places..])
  {
    var digits := NatToString(d.coef);
    var dot := |digits| - d.places;
    if dot >= |digits| then digits
    else
      var whole := if dot <= 0 then "0" else digits[..dot];
      var frac := if dot <= 0 then Zeros(-dot) + digits else digits[dot..];
      whole + "." + frac
  }

  /** Index of the first '.' in s, or |s| when there is none. */
  function DotIndex(s: string): (i: nat)
    ensures i <= |s|
  {
    if s == [] then 0 else if s[0] == '.' then 0 else 1 + DotIndex(s[1..])
  }

  /**
    `Decimal(s)` for a string in plain notation: digits, optionally followed
    by a point and more digits. Other strings are refused.
   */
  function Parse(s: string): Option<Dec> {
    var i := DotIndex(s);
    if i == 0 then None
    else if i == |s| then
      if AllDigits(s) then Some(Dec(DigitsValue(s), 0)) else None
    else
      var whole, frac := s[..i], s[i + 1..];
      if AllDigits(whole) && AllDigits(frac) then
        AllDigitsAppend(whole, frac);
        Some(Dec(DigitsValue(whole + frac), |frac|))
      else None
  }

  lemma {:induction false} DotIndexDigits(a: string, b: string)
    requires AllDigits(a)
    ensures DotIndex(a + "." + b) == |a|
  {
    var s := a + "." + b;
    if a != [] {
      assert s[0] == a[0] && IsDigit(a[0]);
      assert s[1..] == a[1..] + "." + b;
      DotIndexDigits(a[1..], b);
    }
  }

  lemma {:induction false} DotIndexNone(a: string)
    requires AllDigits(a)
    ensures DotIndex(a) == |a|
  {
    if a != [] {
      assert IsDigit(a[0]);
      DotIndexNone(a[1..]);
    }
  }

  lemma ParseDot(a: string, b: string)
    requires 1 <= |a| && AllDigits(a) && AllDigits(b)
    ensures AllDigits(a + b)
    ensures Parse(a + "." + b) == Some(Dec(DigitsValue(a + b), |b|))
  {
    var s := a + "." + b;
    DotIndexDigits(a, b);
    assert s[..|a|] == a;
    assert s[|a| + 1..] == b;
    AllDigitsAppend(a, b);
  }

  /** `Decimal(str(d))` gives back d, exponent included. */
  lemma ToStringRoundTrip(d: Dec)
    requires |NatToString(d.coef)| - d.places > -6
    ensures Parse(ToString(d)) == Some(d)
  {
    var digits := NatToString(d.coef);
    NatToStringRoundTrip(d.coef);
    var dot := |digits| - d.places;
    if dot >= |digits| {
      assert ToString(d) == digits;
      DotIndexNone(digits);
    } else if dot <= 0 {
      assert ToString(d) == "0" + "." + (Zeros(-dot) + digits);
      RoundTripBelowOne(digits, -dot);
    } else {
      RoundTripSplit(d);
    }
  }

  /** A coefficient with more digits than places: the point goes inside the digits. */
  lemma RoundTripSplit(d: Dec)
    requires 0 < d.places < |NatToString(d.coef)|
    ensures Parse(ToString(d)) == Some(d)
  {
    var digits := NatToString(d.coef);
    NatToStringRoundTrip(d.coef);
    var dot := |digits| - d.places;
    assert ToString(d) == digits[..dot] + "." + digits[dot..];
    ParseDot(digits[..dot], digits[dot..]);
    assert digits[..dot] + digits[dot..] == digits;
  }

  lemma RoundTripBelowOne(digits: string, k: nat)
    requires AllDigits(digits)
    ensures Parse("0" + "." + (Zeros(k) + digits)) == Some(Dec(DigitsValue(digits), k + |digits|))
  {
    ZeroPointDigits(k, digits);
    ParseDot("0", Zeros(k) + digits);
  }
}
