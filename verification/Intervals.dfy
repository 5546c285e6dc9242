/**
 Candle intervals and the bucket arithmetic that the batch resampler, the
 streaming aggregator and the cycle-delay computation share. Times are whole
 UTC seconds since the epoch.
 */
module Intervals {

  datatype Interval =
    | M1 | M3 | M5 | M7 | M15 | M30
    | H1 | H2 | H4 | H6 | H8 | H12
    | D1 | W1
  {
    function Seconds(): (s: int)
      ensures 60 <= s <= 604800
    {
      match this
      case M1 => 60
      case M3 => 180
      case M5 => 300
      case M7 => 420
      case M15 => 900
      case M30 => 1800
      case H1 => 3600
      case H2 => 7200
      case H4 => 14400
      case H6 => 21600
      case H8 => 28800
      case H12 => 43200
      case D1 => 86400
      case W1 => 604800
    }

    // Where this interval's bucket grid is pinned: weeks open on Monday
    // 1970-01-05, every other interval at the epoch.
    function Anchor(): int {
      if W1? then 345600 else 0
    }
  }

  const SECONDS_PER_DAY := 86400

  // Day zero of the epoch is a Thursday; Monday counts as weekday 0.
  function Weekday(day: int): int {
    (day + 3) % 7
  }

  /** The bucket containing an instant, computed as the source computes it. */
  function BucketOpen(time: int, target: Interval): int {
    if target.W1? then
      var day := time / SECONDS_PER_DAY;
      (day - Weekday(day)) * SECONDS_PER_DAY
    else
      time - time % target.Seconds()
  }

  function BucketClose(bucketOpen: int, target: Interval): int {
    bucketOpen + target.Seconds()
  }

  predicate Divides(small: Interval, large: Interval) {
    large.Seconds() % small.Seconds() == 0
  }

  // ---------------------------------------------------------------------------
  // What a bucket is
  // ---------------------------------------------------------------------------

  ghost predicate IsBoundary(b: int, target: Interval) {
    (b - target.Anchor()) % target.Seconds() == 0
  }

  lemma ProductAtLeast(k: int, step: int)
    requires 0 < step
    ensures 1 <= k ==> step <= k * step
    ensures k <= -1 ==> k * step <= -step
  {
  }

  lemma MultipleBetween(a: int, b: int, step: int)
    requires 0 < step && a % step == 0 && b % step == 0 && a < b
    ensures a + step <= b
  {
    var k := b / step - a / step;
    assert b - a == k * step;
    ProductAtLeast(k, step);
  }

  lemma ModUnique(x: int, step: int, k: int, r: int)
    requires 0 <= r < step && x == k * step + r
    ensures x % step == r
  {
    var d := k - x / step;
    assert d * step == x % step - r;
    ProductAtLeast(d, step);
  }

  lemma MultipleOfMultiple(x: int, large: int, small: int)
    requires 0 < small && 0 < large && large % small == 0 && x % large == 0
    ensures x % small == 0
  {
    var k, q := x / large, large / small;
    assert k * (q * small) == (k * q) * small;
    ModUnique(x, small, k * q, 0);
  }

  lemma ShiftedMultiple(a: int, b: int, step: int)
    requires 0 < step && a % step == 0 && b % step == 0
    ensures (a - b) % step == 0 && (a + b) % step == 0
  {
    var i, j := a / step, b / step;
    assert a - b == (i - j) * step + 0;
    ModUnique(a - b, step, i - j, 0);
    assert a + b == (i + j) * step + 0;
    ModUnique(a + b, step, i + j, 0);
  }

  /** A bucket opens on the grid, at or before the instant, and closes after it. */
  lemma BucketContains(time: int, target: Interval)
    ensures IsBoundary(BucketOpen(time, target), target)
    ensures BucketOpen(time, target) <= time < BucketClose(BucketOpen(time, target), target)
  {
    if !target.W1? {
      var s := target.Seconds();
      assert time - time % s == (time / s) * s + 0;
      ModUnique(time - time % s, s, time / s, 0);
    }
  }

  /** No other grid point has that property, so it defines the bucket. */
  lemma BucketIsUnique(time: int, target: Interval, b: int)
    requires IsBoundary(b, target) && b <= time < BucketClose(b, target)
    ensures b == BucketOpen(time, target)
  {
    BucketContains(time, target);
    var c, a, s := BucketOpen(time, target), target.Anchor(), target.Seconds();
    if b < c {
      MultipleBetween(b - a, c - a, s);
    } else if c < b {
      MultipleBetween(c - a, b - a, s);
    }
  }

  /** Buckets follow the order of time, and distinct buckets do not overlap. */
  lemma BucketsAreOrdered(t0: int, t1: int, target: Interval)
    requires t0 <= t1
    ensures var b0, b1 := BucketOpen(t0, target), BucketOpen(t1, target);
      b0 == b1 || BucketClose(b0, target) <= b1
  {
    BucketContains(t0, target);
    BucketContains(t1, target);
    var b0, b1, a := BucketOpen(t0, target), BucketOpen(t1, target), target.Anchor();
    if b0 < b1 {
      MultipleBetween(b0 - a, b1 - a, target.Seconds());
    } else if b1 < b0 {
      MultipleBetween(b1 - a, b0 - a, target.Seconds());
    }
  }

  // ---------------------------------------------------------------------------
  // Nesting: when a coarse bucket is a union of fine ones
  // ---------------------------------------------------------------------------

  ghost predicate Nests(small: Interval, large: Interval) {
    forall time :: BucketOpen(BucketOpen(time, small), large) == BucketOpen(time, large)
  }

  /** The pairs whose bucket grids line up: all multiples but 7m inside 1w. */
  predicate Aligned(small: Interval, large: Interval) {
    Divides(small, large) && !(small.M7? && large.W1?)
  }

  lemma CoarseBoundaryIsFine(b: int, small: Interval, large: Interval)
    requires Aligned(small, large)
    requires IsBoundary(b, large)
    ensures IsBoundary(b, small)
  {
    var x := b - large.Anchor();
    MultipleOfMultiple(x, large.Seconds(), small.Seconds());
    ShiftedMultiple(x, large.Anchor() - small.Anchor(), small.Seconds());
    assert b - small.Anchor() == x + (large.Anchor() - small.Anchor());
  }

  lemma NestsAt(time: int, small: Interval, large: Interval)
    requires Aligned(small, large)
    ensures BucketOpen(BucketOpen(time, small), large) == BucketOpen(time, large)
  {
    var fine, coarse := BucketOpen(time, small), BucketOpen(time, large);
    BucketContains(time, small);
    BucketContains(time, large);
    CoarseBoundaryIsFine(coarse, small, large);
    if fine < coarse {
      MultipleBetween(fine - small.Anchor(), coarse - small.Anchor(), small.Seconds());
    }
    BucketIsUnique(fine, large, coarse);
  }

  /**
   An integer multiple is not enough to nest: a week is 1440 buckets of seven
   minutes, but Monday midnight falls inside one of them. That is the only pair
   the resampler accepts whose buckets straddle.
   */
  lemma NestsExactlyWhenAligned(small: Interval, large: Interval)
    requires Divides(small, large)
    ensures Nests(small, large) <==> Aligned(small, large)
  {
    if Aligned(small, large) {
      forall time
        ensures BucketOpen(BucketOpen(time, small), large) == BucketOpen(time, large)
      {
        NestsAt(time, small, large);
      }
    } else {
      assert BucketOpen(345600, M7) == 345240;
      assert BucketOpen(345240, W1) == -259200;
      assert BucketOpen(345600, W1) == 345600;
      assert !Nests(small, large);
    }
  }

  lemma DividesIsTransitive(a: Interval, b: Interval, c: Interval)
    requires Divides(a, b) && Divides(b, c)
    ensures Divides(a, c)
  {
    MultipleOfMultiple(c.Seconds(), b.Seconds(), a.Seconds());
  }

  lemma EqualLengthsAreEqual(a: Interval, b: Interval)
    requires a.Seconds() == b.Seconds()
    ensures a == b
  {
  }
}
