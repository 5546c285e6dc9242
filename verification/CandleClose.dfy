/** The delay until the next candle closes, against the resampler's buckets. */
module CandleClose {
  import opened Intervals

  // Python's remainder on floats with a positive divisor.
  function Remainder(x: real, step: int): real
    requires 0 < step
  {
    x - ((x / (step as real)).Floor * step) as real
  }

  lemma RemainderInRange(x: real, step: int)
    requires 0 < step
    ensures 0.0 <= Remainder(x, step) < step as real
  {
    var s := step as real;
    var k := (x / s).Floor;
    QuotientBounds(x, s, k as real);
    assert (k * step) as real == k as real * s;
  }

  lemma QuotientBounds(x: real, s: real, k: real)
    requires s > 0.0 && k <= x / s < k + 1.0
    ensures 0.0 <= x - k * s < s
  {
    var r := x / s - k;
    assert r * s == x - k * s;
    assert 0.0 <= r * s;
    assert (1.0 - r) * s > 0.0;
    assert (1.0 - r) * s == s - r * s;
  }

  function SecondsUntilNextClose(interval: Interval, wallTime: real, buffer: real): real {
    var seconds := interval.Seconds();
    var delay := seconds as real - Remainder(wallTime, seconds) + buffer;
    if delay < buffer then delay + seconds as real else delay
  }

  lemma RemainderOfFloor(x: real, step: int)
    requires 0 < step
    ensures x - Remainder(x, step) == (x.Floor - x.Floor % step) as real
  {
    var k := (x / (step as real)).Floor;
    RemainderInRange(x, step);
    var base := k * step;
    assert base as real <= x < (base + step) as real;
    assert base <= x.Floor < base + step;
    ModUnique(x.Floor, step, k, x.Floor - base);
  }

  /** The correction branch is dead: the delay is never shorter than the buffer. */
  lemma DelayNeverCorrected(interval: Interval, wallTime: real, buffer: real)
    ensures var d := SecondsUntilNextClose(interval, wallTime, buffer);
      && d == interval.Seconds() as real - Remainder(wallTime, interval.Seconds()) + buffer
      && buffer < d <= buffer + interval.Seconds() as real
  {
    RemainderInRange(wallTime, interval.Seconds());
  }

  predicate WakesAtClose(interval: Interval, wallTime: real, buffer: real) {
    var bucket := BucketOpen(wallTime.Floor, interval);
    wallTime + SecondsUntilNextClose(interval, wallTime, buffer) == BucketClose(bucket, interval) as real + buffer
  }

  /**
   Waking up lands on the close of the bucket the resampler puts "now" in, for
   every interval pinned to the epoch. The weekly interval is not: its buckets
   open on Mondays while the delay counts weeks from the epoch's Thursday, so
   there the wake-up misses the close at every instant.
   */
  lemma WakesAtCloseUnlessWeekly(interval: Interval, wallTime: real, buffer: real)
    ensures WakesAtClose(interval, wallTime, buffer) <==> interval != W1
  {
    var s, t := interval.Seconds(), wallTime.Floor;
    DelayNeverCorrected(interval, wallTime, buffer);
    RemainderOfFloor(wallTime, s);
    assert wallTime + SecondsUntilNextClose(interval, wallTime, buffer) == (t - t % s + s) as real + buffer;
    if interval == W1 {
      WeeksOpenOnMonday(t);
    }
  }

  lemma WeeksOpenOnMonday(t: int)
    ensures BucketOpen(t, W1) != t - t % 604800
  {
    BucketContains(t, W1);
  }
}
