/**
 Rounding quantities and prices to an exchange's increments. A decimal is a
 coefficient and a power of ten, and its arithmetic is exact.
 */
module Rounding {
  datatype Decimal = Decimal(coefficient: int, exponent: int)

  function Pow10(n: nat): (r: int)
    ensures r >= 1
  {
    if n == 0 then 1 else 10 * Pow10(n - 1)
  }

  function Scale(e: int): (r: real)
    ensures r > 0.0
  {
    if e >= 0 then Pow10(e) as real else 1.0 / (Pow10(-e) as real)
  }

  function Value(d: Decimal): real {
    d.coefficient as real * Scale(d.exponent)
  }

  datatype Mode = Down | HalfUp

  // Toward zero.
  function Truncate(x: real): int {
    if x >= 0.0 then x.Floor else -((-x).Floor)
  }

  // To the nearest integer, ties away from zero.
  function Nearest(x: real): int {
    if x >= 0.0 then (x + 0.5).Floor else -((-x + 0.5).Floor)
  }

  function ToInteger(x: real, mode: Mode): int {
    if mode.Down? then Truncate(x) else Nearest(x)
  }

  function Quantize(d: Decimal, exponent: int, mode: Mode): Decimal {
    Decimal(ToInteger(Value(d) / Scale(exponent), mode), exponent)
  }

  function Normalize(d: Decimal): Decimal
    decreases if d.coefficient >= 0 then d.coefficient else -d.coefficient
  {
    if d.coefficient == 0 then Decimal(0, 0)
    else if d.coefficient % 10 == 0 then Normalize(Decimal(d.coefficient / 10, d.exponent + 1))
    else d
  }

  // Decimal places of the normalized value.
  function Precision(d: Decimal): (p: int)
    ensures p >= 0
  {
    var e := Normalize(d).exponent;
    if e < 0 then -e else 0
  }

  function RoundTo(d: Decimal, increment: Decimal, mode: Mode): Decimal {
    if Value(increment) <= 0.0 then d
    else
      var quotient := ToInteger(Value(d) / Value(increment), mode);
      Quantize(Decimal(quotient * increment.coefficient, increment.exponent), -Precision(increment), mode)
  }

  function RoundStepSize(quantity: Decimal, step: Decimal): Decimal {
    RoundTo(quantity, step, Down)
  }

  function RoundPricePrecision(price: Decimal, tick: Decimal): Decimal {
    RoundTo(price, tick, HalfUp)
  }

  // ---------------------------------------------------------------------------
  // Precision
  // ---------------------------------------------------------------------------

  lemma ScaleUp(e: int)
    ensures Scale(e + 1) == 10.0 * Scale(e)
  {
    if e >= 0 {
      assert Pow10(e + 1) == 10 * Pow10(e);
    } else {
      var p := Pow10(-e - 1) as real;
      assert Pow10(-e) == 10 * Pow10(-e - 1);
      assert Scale(e) == 1.0 / (10.0 * p);
      assert 10.0 * (1.0 / (10.0 * p)) == 1.0 / p;
    }
  }

  lemma TenTimes(c: int, unit: real)
    ensures c as real * (10.0 * unit) == (10 * c) as real * unit
  {
    assert (10 * c) as real == 10.0 * c as real;
  }

  lemma ShiftKeepsValue(c: int, e: int)
    ensures Value(Decimal(c, e + 1)) == Value(Decimal(10 * c, e))
  {
    ScaleUp(e);
    TenTimes(c, Scale(e));
  }

  lemma {:induction false} NormalizeKeepsValue(d: Decimal)
    ensures var n := Normalize(d);
      && Value(n) == Value(d)
      && (d.coefficient != 0 ==> n.coefficient % 10 != 0)
      && (d.coefficient == 0 <==> n.coefficient == 0)
    decreases if d.coefficient >= 0 then d.coefficient else -d.coefficient
  {
    if d.coefficient == 0 {
    } else if d.coefficient % 10 == 0 {
      var tenth := d.coefficient / 10;
      assert d == Decimal(10 * tenth, d.exponent);
      NormalizeKeepsValue(Decimal(tenth, d.exponent + 1));
      ShiftKeepsValue(tenth, d.exponent);
    }
  }

  // The value j units of the given decimal place.
  function Units(j: int, places: int): real {
    j as real * Scale(-places)
  }

  // A value is written with so many decimal places.
  ghost predicate Fits(x: real, places: int) {
    exists j: int :: x == Units(j, places)
  }

  lemma RealProduct(a: int, b: int)
    ensures (a * b) as real == a as real * b as real
  {
  }

  lemma WholeNumber(c: int, e: nat)
    ensures Value(Decimal(c, e)) == Units(c * Pow10(e), 0)
  {
    RealProduct(c, Pow10(e));
    assert Scale(0) == 1.0;
  }

  lemma NoCoarser(c: int, places: int, j: int)
    requires c % 10 != 0
    ensures Units(c, places) != Units(j, places - 1)
  {
    ScaleUp(-places);
    assert -(places - 1) == -places + 1;
    TenTimes(j, Scale(-places));
    UnitsAreDistinct(c, 10 * j, Scale(-places));
  }

  lemma UnitsAreDistinct(a: int, b: int, unit: real)
    requires a != b && unit > 0.0
    ensures a as real * unit != b as real * unit
  {
    Scaled(a as real, b as real, unit);
    Scaled(b as real, a as real, unit);
  }

  /** The precision is the least number of decimal places that writes the value exactly. */
  lemma PrecisionIsLeast(d: Decimal)
    ensures Fits(Value(d), Precision(d))
    ensures Precision(d) > 0 ==> !Fits(Value(d), Precision(d) - 1)
  {
    NormalizeKeepsValue(d);
    var n, p := Normalize(d), Precision(d);
    if n.exponent >= 0 {
      WholeNumber(n.coefficient, n.exponent);
    } else {
      assert Value(n) == Units(n.coefficient, p);
      if Fits(Value(d), p - 1) {
        var j: int :| Value(d) == Units(j, p - 1);
        NoCoarser(n.coefficient, p, j);
        assert false;
      }
    }
  }

  // ---------------------------------------------------------------------------
  // Exact arithmetic
  // ---------------------------------------------------------------------------

  lemma QuotientTimes(x: real, s: real)
    requires s > 0.0
    ensures (x / s) * s == x
  {
  }

  lemma Scaled(a: real, b: real, s: real)
    requires s > 0.0
    ensures a <= b <==> a * s <= b * s
    ensures a < b <==> a * s < b * s
  {
    if a <= b {
      assert (b - a) * s >= 0.0;
    } else {
      assert (a - b) * s > 0.0;
    }
    if a < b {
      assert (b - a) * s > 0.0;
    } else {
      assert (a - b) * s >= 0.0;
    }
  }

  lemma IntegersRoundToThemselves(j: int, mode: Mode)
    ensures ToInteger(j as real, mode) == j
  {
  }

  lemma ToIntegerIsMonotone(x: real, y: real, mode: Mode)
    requires x <= y
    ensures ToInteger(x, mode) <= ToInteger(y, mode)
  {
  }

  lemma MultipleQuotient(j: int, s: real, mode: Mode)
    requires s > 0.0
    ensures ToInteger((j as real * s) / s, mode) == j
  {
    assert (j as real * s) / s == j as real;
    IntegersRoundToThemselves(j, mode);
  }

  // The multiple of s that x is rounded to.
  function Rounded(x: real, s: real, mode: Mode): real
    requires s > 0.0
  {
    ToInteger(x / s, mode) as real * s
  }

  lemma RoundedKeepsOrder(x: real, y: real, s: real, mode: Mode)
    requires s > 0.0 && x <= y
    ensures Rounded(x, s, mode) <= Rounded(y, s, mode)
  {
    QuotientsKeepOrder(x, y, s);
    ToIntegerIsMonotone(x / s, y / s, mode);
    Scaled(ToInteger(x / s, mode) as real, ToInteger(y / s, mode) as real, s);
  }

  lemma QuotientsKeepOrder(x: real, y: real, s: real)
    requires s > 0.0 && x <= y
    ensures x / s <= y / s
  {
    QuotientTimes(x, s);
    QuotientTimes(y, s);
    Scaled(x / s, y / s, s);
  }

  // ---------------------------------------------------------------------------
  // The final quantize is exact
  // ---------------------------------------------------------------------------

  lemma Multiple(k: int, d: Decimal)
    ensures Value(Decimal(k * d.coefficient, d.exponent)) == k as real * Value(d)
  {
    TimesTimes(k, d.coefficient, Scale(d.exponent));
  }

  lemma TimesTimes(k: int, c: int, unit: real)
    ensures (k * c) as real * unit == k as real * (c as real * unit)
  {
    RealProduct(k, c);
  }

  lemma QuantizeUnits(d: Decimal, n: int, places: int, mode: Mode)
    requires Value(d) == Units(n, places)
    ensures Value(Quantize(d, -places, mode)) == Value(d)
  {
    QuotientOf(Value(d), n, Scale(-places), mode);
  }

  lemma QuotientOf(x: real, n: int, unit: real, mode: Mode)
    requires unit > 0.0 && x == n as real * unit
    ensures ToInteger(x / unit, mode) == n
  {
    MultipleQuotient(n, unit, mode);
  }

  /** Multiples of the increment already have its precision: rounding them again changes nothing. */
  lemma QuantizeIsExact(k: int, increment: Decimal, mode: Mode)
    ensures var m := Decimal(k * increment.coefficient, increment.exponent);
      Value(Quantize(m, -Precision(increment), mode)) == Value(m) == k as real * Value(increment)
  {
    var p := Precision(increment);
    PrecisionIsLeast(increment);
    var j: int :| Value(increment) == Units(j, p);
    Multiple(k, increment);
    TimesTimes(k, j, Scale(-p));
    QuantizeUnits(Decimal(k * increment.coefficient, increment.exponent), k * j, p, mode);
  }

  lemma RoundToIsMultiple(d: Decimal, increment: Decimal, mode: Mode)
    requires Value(increment) > 0.0
    ensures Value(RoundTo(d, increment, mode)) == Rounded(Value(d), Value(increment), mode)
  {
    var quotient := ToInteger(Value(d) / Value(increment), mode);
    var multiple := Decimal(quotient * increment.coefficient, increment.exponent);
    RoundToQuantizes(d, increment, mode, multiple);
    QuantizeIsExact(quotient, increment, mode);
  }

  lemma RoundToQuantizes(d: Decimal, increment: Decimal, mode: Mode, multiple: Decimal)
    requires Value(increment) > 0.0
    requires multiple
          == Decimal(ToInteger(Value(d) / Value(increment), mode) * increment.coefficient, increment.exponent)
    ensures RoundTo(d, increment, mode) == Quantize(multiple, -Precision(increment), mode)
  {
  }

  /** Rounding never loses order, whatever the increment. */
  lemma RoundingIsMonotone(a: Decimal, b: Decimal, increment: Decimal, mode: Mode)
    requires Value(a) <= Value(b)
    ensures Value(RoundTo(a, increment, mode)) <= Value(RoundTo(b, increment, mode))
  {
    if Value(increment) > 0.0 {
      RoundToIsMultiple(a, increment, mode);
      RoundToIsMultiple(b, increment, mode);
      RoundedKeepsOrder(Value(a), Value(b), Value(increment), mode);
    }
  }

  /** Rounding twice gives the very decimal that rounding once gives. */
  lemma RoundingIsIdempotent(d: Decimal, increment: Decimal, mode: Mode)
    ensures RoundTo(RoundTo(d, increment, mode), increment, mode) == RoundTo(d, increment, mode)
  {
    if Value(increment) > 0.0 {
      RoundToIsMultiple(d, increment, mode);
      QuotientOfRounded(Value(d), Value(RoundTo(d, increment, mode)), Value(increment), mode);
      SameQuotientSameResult(RoundTo(d, increment, mode), d, increment, mode);
    }
  }

  lemma QuotientOfRounded(x: real, r: real, s: real, mode: Mode)
    requires s > 0.0 && r == Rounded(x, s, mode)
    ensures ToInteger(r / s, mode) == ToInteger(x / s, mode)
  {
    QuotientOf(r, ToInteger(x / s, mode), s, mode);
  }

  lemma SameQuotientSameResult(a: Decimal, b: Decimal, increment: Decimal, mode: Mode)
    requires Value(increment) > 0.0
    requires ToInteger(Value(a) / Value(increment), mode) == ToInteger(Value(b) / Value(increment), mode)
    ensures RoundTo(a, increment, mode) == RoundTo(b, increment, mode)
  {
  }

  // ---------------------------------------------------------------------------
  // Quantities
  // ---------------------------------------------------------------------------

  // r is the multiple of s next to x on the side of zero; m is any other multiple.
  ghost predicate RoundsDown(x: real, s: real, r: real, m: int) {
    && (x >= 0.0 ==> 0.0 <= r <= x < r + s && (m as real * s <= x <==> m as real * s <= r))
    && (x <= 0.0 ==> r - s < x <= r <= 0.0 && (m as real * s >= x <==> m as real * s >= r))
  }

  lemma TruncateMeans(q: real, m: int)
    ensures Truncates(q, Truncate(q) as real, m as real)
  {
    FloorMeans(q, m);
    FloorMeans(-q, -m);
  }

  lemma FloorMeans(q: real, m: int)
    ensures m as real <= q <==> m <= q.Floor
    ensures q.Floor as real <= q < q.Floor as real + 1.0
    ensures q >= 0.0 ==> q.Floor >= 0
  {
  }

  ghost predicate Truncates(q: real, k: real, m: real) {
    && (q >= 0.0 ==> 0.0 <= k <= q < k + 1.0 && (m <= q <==> m <= k))
    && (q <= 0.0 ==> k - 1.0 < q <= k <= 0.0 && (m >= q <==> m >= k))
  }

  // Comparisons between quotients carry over to what they are quotients of.
  lemma TruncatesScaled(x: real, s: real, q: real, k: real, m: real, r: real, other: real)
    requires s > 0.0 && x == q * s && r == k * s && other == m * s && Truncates(q, k, m)
    ensures x >= 0.0 ==> 0.0 <= r <= x < r + s && (other <= x <==> other <= r)
    ensures x <= 0.0 ==> r - s < x <= r <= 0.0 && (other >= x <==> other >= r)
  {
    assert 0.0 * s == 0.0 && (k + 1.0) * s == r + s && (k - 1.0) * s == r - s;
    Compare(0.0, q, 0.0, x, s);
    Compare(q, 0.0, x, 0.0, s);
    Compare(0.0, k, 0.0, r, s);
    Compare(k, 0.0, r, 0.0, s);
    Compare(k, q, r, x, s);
    Compare(q, k, x, r, s);
    Compare(q, k + 1.0, x, r + s, s);
    Compare(k - 1.0, q, r - s, x, s);
    Compare(m, q, other, x, s);
    Compare(q, m, x, other, s);
    Compare(m, k, other, r, s);
    Compare(k, m, r, other, s);
  }

  lemma Compare(u: real, v: real, scaledU: real, scaledV: real, s: real)
    requires s > 0.0 && scaledU == u * s && scaledV == v * s
    ensures u <= v <==> scaledU <= scaledV
    ensures u < v <==> scaledU < scaledV
  {
    Scaled(u, v, s);
  }

  lemma DownRoundsDown(x: real, s: real, m: int)
    requires s > 0.0
    ensures RoundsDown(x, s, Rounded(x, s, Down), m)
  {
    QuotientTimes(x, s);
    TruncateMeans(x / s, m);
    TruncatesScaled(x, s, x / s, Truncate(x / s) as real, m as real, Rounded(x, s, Down), m as real * s);
  }

  /**
   The rounded quantity is the largest multiple of the step not above a non-negative
   quantity; for a negative one it is the smallest multiple not below it.
   */
  lemma StepIsGreatestMultiple(quantity: Decimal, step: Decimal, m: int)
    requires Value(step) > 0.0
    ensures RoundsDown(Value(quantity), Value(step), Value(RoundStepSize(quantity, step)), m)
  {
    RoundToIsMultiple(quantity, step, Down);
    DownRoundsDown(Value(quantity), Value(step), m);
  }

  // ---------------------------------------------------------------------------
  // Prices
  // ---------------------------------------------------------------------------

  function Distance(a: real, b: real): real {
    if a <= b then b - a else a - b
  }

  // r is the multiple of s nearest to x, or of two the one further from zero.
  ghost predicate RoundsNearest(x: real, s: real, r: real, m: int) {
    var other := m as real * s;
    && Distance(r, x) <= s / 2.0
    && Distance(r, x) <= Distance(other, x)
    && (other != r && Distance(other, x) == Distance(r, x) ==> Distance(other, 0.0) < Distance(r, 0.0))
  }

  ghost predicate IsNearest(q: real, k: real, m: real) {
    && Distance(k, q) <= 0.5
    && Distance(k, q) <= Distance(m, q)
    && (m != k && Distance(m, q) == Distance(k, q) ==> Distance(m, 0.0) < Distance(k, 0.0))
  }

  lemma NearestMeans(q: real)
    ensures var k := Nearest(q) as real;
      && (q >= 0.0 ==> k >= 0.0 && k - 0.5 <= q < k + 0.5)
      && (q < 0.0 ==> k <= 0.0 && k - 0.5 < q <= k + 0.5)
  {
  }

  lemma NearestIsNearest(q: real, m: int)
    ensures IsNearest(q, Nearest(q) as real, m as real)
  {
    NearestMeans(q);
    var k := Nearest(q);
    if m < k {
      assert m as real <= k as real - 1.0;
    } else if m > k {
      assert m as real >= k as real + 1.0;
    }
  }

  ghost predicate IsTimes(product: real, a: real, s: real) {
    product == a * s
  }

  lemma DistanceScales(a: real, b: real, scaledA: real, scaledB: real, s: real)
    requires s > 0.0 && IsTimes(scaledA, a, s) && IsTimes(scaledB, b, s)
    ensures IsTimes(Distance(scaledA, scaledB), Distance(a, b), s)
  {
    Scaled(a, b, s);
    assert (b - a) * s == scaledB - scaledA;
    assert (a - b) * s == scaledA - scaledB;
  }

  lemma NearestScaled(x: real, s: real, q: real, k: real, m: real, r: real, other: real)
    requires s > 0.0 && IsTimes(x, q, s) && IsTimes(r, k, s) && IsTimes(other, m, s) && IsNearest(q, k, m)
    ensures Distance(r, x) <= s / 2.0
    ensures Distance(r, x) <= Distance(other, x)
    ensures other != r && Distance(other, x) == Distance(r, x) ==> Distance(other, 0.0) < Distance(r, 0.0)
  {
    assert m == k ==> other == r;
    var dk, dm, zk, zm := Distance(k, q), Distance(m, q), Distance(k, 0.0), Distance(m, 0.0);
    assert IsTimes(0.0, 0.0, s);
    DistanceScales(k, q, r, x, s);
    DistanceScales(m, q, other, x, s);
    DistanceScales(k, 0.0, r, 0.0, s);
    DistanceScales(m, 0.0, other, 0.0, s);
    Combine(s, dk, dm, zk, zm, Distance(r, x), Distance(other, x), Distance(r, 0.0), Distance(other, 0.0),
            m == k, other == r);
  }

  lemma Combine(
      s: real, dk: real, dm: real, zk: real, zm: real, r: real, other: real, zr: real, zo: real,
      same: bool, equal: bool)
    requires s > 0.0 && IsTimes(r, dk, s) && IsTimes(other, dm, s) && IsTimes(zr, zk, s) && IsTimes(zo, zm, s)
    requires dk <= 0.5 && dk <= dm && (!same && dm == dk ==> zm < zk) && (same ==> equal)
    ensures r <= s / 2.0 && r <= other && (!equal && other == r ==> zo < zr)
  {
    Compare(dk, 0.5, r, 0.5 * s, s);
    Compare(dk, dm, r, other, s);
    Compare(dm, dk, other, r, s);
    Compare(zm, zk, zo, zr, s);
  }

  lemma HalfUpRoundsNearest(x: real, s: real, m: int)
    requires s > 0.0
    ensures RoundsNearest(x, s, Rounded(x, s, HalfUp), m)
  {
    QuotientTimes(x, s);
    NearestIsNearest(x / s, m);
    NearestScaled(x, s, x / s, Nearest(x / s) as real, m as real, Rounded(x, s, HalfUp), m as real * s);
  }

  /** The rounded price is the nearest multiple of the tick, the one further from zero on a tie. */
  lemma PriceIsNearestMultiple(price: Decimal, tick: Decimal, m: int)
    requires Value(tick) > 0.0
    ensures RoundsNearest(Value(price), Value(tick), Value(RoundPricePrecision(price, tick)), m)
  {
    RoundToIsMultiple(price, tick, HalfUp);
    HalfUpRoundsNearest(Value(price), Value(tick), m);
  }
}
