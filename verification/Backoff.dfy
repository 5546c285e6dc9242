/** Capped exponential retry delays with symmetric jitter. The random sample is an input. */
module Backoff {
  import opened Prelude

  datatype Policy = Policy(initial: real, maximum: real, jitter: real) {
    // What construction lets through.
    predicate Valid() {
      0.0 < initial <= maximum && 0.0 <= jitter <= 1.0
    }
  }

  datatype DelayError = BadAttempt | BadSample

  const LARGEST_EXPONENT := 63

  function PowerOfTwo(n: nat): (r: real)
    ensures r >= 1.0
  {
    if n == 0 then 1.0 else 2.0 * PowerOfTwo(n - 1)
  }

  function Least(a: real, b: real): real {
    if b < a then b else a
  }

  function Times(a: real, b: real): real {
    a * b
  }

  function Exponent(attempt: int): nat
    requires attempt > 0
  {
    if attempt - 1 < LARGEST_EXPONENT then attempt - 1 else LARGEST_EXPONENT
  }

  // The delay before jitter.
  function Base(p: Policy, attempt: int): real
    requires attempt > 0
  {
    Least(Times(p.initial, PowerOfTwo(Exponent(attempt))), p.maximum)
  }

  function Multiplier(p: Policy, sample: real): real {
    1.0 + Times(p.jitter, 2.0 * sample - 1.0)
  }

  function GetDelay(p: Policy, attempt: int, sample: real): Result<real, DelayError> {
    if attempt <= 0 then Failure(BadAttempt)
    else if !(0.0 <= sample <= 1.0) then Failure(BadSample)
    else Success(Least(p.maximum, Times(Base(p, attempt), Multiplier(p, sample))))
  }

  lemma TimesKeepsOrder(a: real, b: real, c: real)
    requires 0.0 <= a && b <= c
    ensures Times(a, b) <= Times(a, c)
    ensures Times(b, a) <= Times(c, a)
  {
    assert a * (c - b) >= 0.0;
  }

  lemma TimesUnits(a: real)
    ensures Times(a, 1.0) == a && Times(a, -1.0) == -a && Times(a, 0.0) == 0.0
    ensures Times(1.0, a) == a && Times(0.0, a) == 0.0
  {
  }

  lemma TimesPositive(a: real, b: real)
    requires 0.0 < a && 0.0 <= b
    ensures 0.0 <= Times(a, b)
    ensures Times(a, b) == 0.0 <==> b == 0.0
  {
    if b > 0.0 {
      assert a * b > 0.0;
    }
  }

  lemma BaseIsPositive(p: Policy, attempt: int)
    requires p.Valid() && attempt > 0
    ensures 0.0 < p.initial <= Base(p, attempt) <= p.maximum
  {
    TimesKeepsOrder(p.initial, 1.0, PowerOfTwo(Exponent(attempt)));
    TimesUnits(p.initial);
  }

  lemma MultiplierRange(p: Policy, sample: real)
    requires p.Valid() && 0.0 <= sample <= 1.0
    ensures 1.0 - p.jitter <= Multiplier(p, sample) <= 1.0 + p.jitter
    ensures Multiplier(p, sample) == 0.0 <==> p.jitter == 1.0 && sample == 0.0
  {
    var centred := 2.0 * sample - 1.0;
    TimesKeepsOrder(p.jitter, -1.0, centred);
    TimesKeepsOrder(p.jitter, centred, 1.0);
    TimesUnits(p.jitter);
    TimesUnits(centred);
  }

  /**
   For every attempt and sample: an answer exists exactly for a positive attempt and a
   sample in the unit interval; it lies within the jitter around the base delay, never
   above the maximum; and it is zero only for full jitter and the lowest sample.
   */
  lemma DelayIsBounded(p: Policy, attempt: int, sample: real)
    requires p.Valid()
    ensures GetDelay(p, attempt, sample).Success? <==> attempt > 0 && 0.0 <= sample <= 1.0
    ensures GetDelay(p, attempt, sample).Success? ==>
      var delay, base := GetDelay(p, attempt, sample).value, Base(p, attempt);
      && Least(p.maximum, Times(base, 1.0 - p.jitter)) <= delay <= Least(p.maximum, Times(base, 1.0 + p.jitter))
      && 0.0 <= delay <= p.maximum
      && (delay == 0.0 <==> p.jitter == 1.0 && sample == 0.0)
  {
    if attempt > 0 && 0.0 <= sample <= 1.0 {
      var base, m := Base(p, attempt), Multiplier(p, sample);
      BaseIsPositive(p, attempt);
      MultiplierRange(p, sample);
      TimesKeepsOrder(base, 1.0 - p.jitter, m);
      TimesKeepsOrder(base, m, 1.0 + p.jitter);
      TimesPositive(base, m);
    }
  }

  lemma {:induction false} PowersGrow(m: nat, n: nat)
    requires m <= n
    ensures PowerOfTwo(m) <= PowerOfTwo(n)
    decreases n - m
  {
    if m < n {
      PowersGrow(m, n - 1);
    }
  }

  /**
   Under one sample, later attempts never wait less, and once the base has reached the
   maximum it stays there.
   */
  lemma DelaysNeverShrink(p: Policy, earlier: int, later: int, sample: real)
    requires p.Valid() && 0 < earlier <= later && 0.0 <= sample <= 1.0
    ensures Base(p, earlier) <= Base(p, later)
    ensures GetDelay(p, earlier, sample).value <= GetDelay(p, later, sample).value
    ensures Base(p, earlier) == p.maximum ==> Base(p, later) == p.maximum
  {
    PowersGrow(Exponent(earlier), Exponent(later));
    TimesKeepsOrder(p.initial, PowerOfTwo(Exponent(earlier)), PowerOfTwo(Exponent(later)));
    MultiplierRange(p, sample);
    TimesKeepsOrder(Multiplier(p, sample), Base(p, earlier), Base(p, later));
  }

  /**
   The base doubles from the initial delay with every attempt until the maximum caps it or
   the exponent stops growing; the sample in the middle adds no jitter, and the two ends add
   and take the whole of it.
   */
  lemma BaseDoubles(p: Policy, attempt: int)
    requires p.Valid() && attempt > 0
    ensures Base(p, 1) == p.initial
    ensures attempt <= 63 ==>
      Base(p, attempt + 1) == (if 2.0 * Base(p, attempt) <= p.maximum then 2.0 * Base(p, attempt) else p.maximum)
    ensures attempt >= 64 ==> Base(p, attempt) == Base(p, 64)
  {
    TimesUnits(p.initial);
    if attempt <= 63 {
      PowerIsPositive(p, attempt - 1);
    }
  }

  lemma PowerIsPositive(p: Policy, n: nat)
    requires p.Valid()
    ensures Times(p.initial, PowerOfTwo(n + 1)) == 2.0 * Times(p.initial, PowerOfTwo(n)) > 0.0
  {
    TimesPositive(p.initial, PowerOfTwo(n));
    assert p.initial * (2.0 * PowerOfTwo(n)) == 2.0 * (p.initial * PowerOfTwo(n));
  }

  lemma JitterIsSymmetric(p: Policy, attempt: int)
    requires p.Valid() && attempt > 0
    ensures GetDelay(p, attempt, 0.5) == Success(Base(p, attempt))
    ensures GetDelay(p, attempt, 0.0) == Success(Times(Base(p, attempt), 1.0 - p.jitter))
    ensures var most := Times(Base(p, attempt), 1.0 + p.jitter);
      GetDelay(p, attempt, 1.0) == Success(if most <= p.maximum then most else p.maximum)
  {
    BaseIsPositive(p, attempt);
    TimesUnits(p.jitter);
    TimesUnits(Base(p, attempt));
    TimesKeepsOrder(Base(p, attempt), 1.0 - p.jitter, 1.0);
  }

  /** A policy is valid exactly under the bounds its construction checks. */
  lemma ValidExactly(p: Policy)
    ensures p.Valid() <==> p.initial > 0.0 && p.maximum >= p.initial && p.jitter >= 0.0 && p.jitter <= 1.0
  {
  }
}
