/** Batch resampling: sort, group by bucket, reduce each group. */
module Resampler {
  import opened Prelude
  import opened Intervals
  import opened Candles
  import opened Sorting

  datatype ResampleError =
    | InvalidMinimum
    | CannotDownsample
    | NotAMultiple
    | MixedSymbols
    | MixedIntervals

  type Resampled = Result<seq<Candle>, ResampleError>

  // ---------------------------------------------------------------------------
  // Specification
  // ---------------------------------------------------------------------------

  function FirstMixed(cs: seq<Candle>, symbol: string, source: Interval): Option<ResampleError> {
    if cs == [] then None
    else if cs[0].symbol != symbol then Some(MixedSymbols)
    else if cs[0].interval != source then Some(MixedIntervals)
    else FirstMixed(cs[1..], symbol, source)
  }

  function Rejection(cs: seq<Candle>, target: Interval, minimum: int): Option<ResampleError>
    requires cs != []
  {
    var source := cs[0].interval;
    if minimum < 1 then Some(InvalidMinimum)
    else if target.Seconds() < source.Seconds() then Some(CannotDownsample)
    else if !Divides(source, target) then Some(NotAMultiple)
    else FirstMixed(cs, cs[0].symbol, source)
  }

  function LatestClose(cs: seq<Candle>): (m: int)
    requires cs != []
    ensures forall c :: c in cs ==> c.closeTime <= m
    ensures exists c :: c in cs && c.closeTime == m
  {
    var last := cs[|cs| - 1];
    assert cs == cs[..|cs| - 1] + [last];
    if |cs| == 1 then last.closeTime
    else
      var m := LatestClose(cs[..|cs| - 1]);
      if last.closeTime > m then last.closeTime else m
  }

  function BucketSet(cs: seq<Candle>, target: Interval): set<int> {
    set c | c in cs :: Bucket(c, target)
  }

  datatype Policy = Policy(closedOnly: bool, minimum: int)

  predicate Emits(g: seq<Candle>, bucket: int, target: Interval, latest: int, policy: Policy) {
    g != [] && |g| >= policy.minimum && !(policy.closedOnly && BucketClose(bucket, target) > latest)
  }

  function Emitted(keys: seq<int>, cs: seq<Candle>, symbol: string, target: Interval, latest: int, policy: Policy)
    : seq<Candle>
  {
    if keys == [] then []
    else
      var before, b := Emitted(keys[..|keys| - 1], cs, symbol, target, latest, policy), keys[|keys| - 1];
      var g := Group(cs, target, b);
      if Emits(g, b, target, latest, policy) then before + [Summary(g, symbol, target, b)] else before
  }

  function Resample(cs: seq<Candle>, target: Interval, policy: Policy): Resampled {
    if cs == [] then Success([])
    else
      match Rejection(cs, target, policy.minimum)
      case Some(e) => Failure(e)
      case None =>
        var sorted := SortByOpen(cs);
        if cs[0].interval == target then Success(sorted)
        else
          Success(Emitted(Ascending(BucketSet(sorted, target)), sorted, cs[0].symbol, target,
                          LatestClose(cs), policy))
  }

  // ---------------------------------------------------------------------------
  // The resampler
  // ---------------------------------------------------------------------------

  ghost predicate GroupsBy(buckets: map<int, seq<Candle>>, cs: seq<Candle>, target: Interval) {
    && (forall c :: c in cs ==> Bucket(c, target) in buckets)
    && (forall b :: b in buckets ==> buckets[b] == Group(cs, target, b) && buckets[b] != [])
  }

  function Added(buckets: map<int, seq<Candle>>, b: int, c: Candle): map<int, seq<Candle>> {
    buckets[b := (if b in buckets then buckets[b] else []) + [c]]
  }

  lemma AddedGroup(buckets: map<int, seq<Candle>>, cs: seq<Candle>, c: Candle, target: Interval, k: int)
    requires GroupsBy(buckets, cs, target) && k in Added(buckets, Bucket(c, target), c)
    ensures Added(buckets, Bucket(c, target), c)[k] == Group(cs + [c], target, k) != []
  {
    GroupSnoc(cs, c, target, k);
    if k !in buckets {
      GroupEmpty(cs, target, k);
    }
  }

  lemma GroupsByStep(buckets: map<int, seq<Candle>>, cs: seq<Candle>, c: Candle, target: Interval)
    requires GroupsBy(buckets, cs, target)
    ensures GroupsBy(Added(buckets, Bucket(c, target), c), cs + [c], target)
  {
    var next := Added(buckets, Bucket(c, target), c);
    forall k | k in next
      ensures next[k] == Group(cs + [c], target, k) && next[k] != []
    {
      AddedGroup(buckets, cs, c, target, k);
    }
  }

  lemma GroupsByKeys(buckets: map<int, seq<Candle>>, cs: seq<Candle>, target: Interval)
    requires GroupsBy(buckets, cs, target)
    ensures buckets.Keys == BucketSet(cs, target)
  {
    forall b | b in buckets
      ensures b in BucketSet(cs, target)
    {
      assert buckets[b][0] in Group(cs, target, b);
    }
  }

  method GroupByBucket(sorted: seq<Candle>, target: Interval) returns (buckets: map<int, seq<Candle>>)
    ensures buckets.Keys == BucketSet(sorted, target)
    ensures forall b :: b in buckets ==> buckets[b] == Group(sorted, target, b)
  {
    buckets := map[];
    for i := 0 to |sorted|
      invariant GroupsBy(buckets, sorted[..i], target)
    {
      var b := Bucket(sorted[i], target);
      GroupsByStep(buckets, sorted[..i], sorted[i], target);
      assert sorted[..i + 1] == sorted[..i] + [sorted[i]];
      buckets := buckets[b := (if b in buckets then buckets[b] else []) + [sorted[i]]];
    }
    assert sorted[..|sorted|] == sorted;
    GroupsByKeys(buckets, sorted, target);
  }

  method EmitBuckets(
      keys: seq<int>, buckets: map<int, seq<Candle>>, ghost sorted: seq<Candle>, symbol: string, target: Interval,
      latest: int, closedOnly: bool, minimum: int)
    returns (out: seq<Candle>)
    requires forall b :: b in keys ==> b in buckets && buckets[b] == Group(sorted, target, b) && buckets[b] != []
    ensures out == Emitted(keys, sorted, symbol, target, latest, Policy(closedOnly, minimum))
  {
    out := [];
    for i := 0 to |keys|
      invariant out == Emitted(keys[..i], sorted, symbol, target, latest, Policy(closedOnly, minimum))
    {
      var b := keys[i];
      assert keys[..i + 1][..i] == keys[..i] && b in keys;
      var g := buckets[b];
      if |g| < minimum {
        continue;
      }
      if closedOnly && BucketClose(b, target) > latest {
        continue;
      }
      out := out + [Summary(g, symbol, target, b)];
    }
    assert keys[..|keys|] == keys;
  }

  method FindMixed(cs: seq<Candle>, symbol: string, source: Interval) returns (r: Option<ResampleError>)
    ensures r == FirstMixed(cs, symbol, source)
  {
    for i := 0 to |cs|
      invariant FirstMixed(cs, symbol, source) == FirstMixed(cs[i..], symbol, source)
    {
      if cs[i].symbol != symbol {
        return Some(MixedSymbols);
      }
      if cs[i].interval != source {
        return Some(MixedIntervals);
      }
      assert cs[i..][1..] == cs[i + 1..];
    }
    return None;
  }

  method ResampleCandles(cs: seq<Candle>, target: Interval, closedOnly: bool, minimum: int)
    returns (r: Resampled)
    ensures r == Resample(cs, target, Policy(closedOnly, minimum))
  {
    if cs == [] {
      return Success([]);
    }
    if minimum < 1 {
      return Failure(InvalidMinimum);
    }
    var symbol, source := cs[0].symbol, cs[0].interval;
    if target.Seconds() < source.Seconds() {
      return Failure(CannotDownsample);
    }
    if target.Seconds() % source.Seconds() != 0 {
      return Failure(NotAMultiple);
    }
    var mixed := FindMixed(cs, symbol, source);
    if mixed.Some? {
      return Failure(mixed.value);
    }
    var sorted := SortByOpen(cs);
    if target == source {
      return Success(sorted);
    }
    var latest := LatestClose(cs);
    var buckets := GroupByBucket(sorted, target);
    var keys := Ascending(buckets.Keys);
    forall b | b in keys
      ensures b in buckets && Group(sorted, target, b) != []
    {
      BucketSetHasGroups(sorted, target, b);
    }
    var out := EmitBuckets(keys, buckets, sorted, symbol, target, latest, closedOnly, minimum);
    return Success(out);
  }

  lemma BucketSetHasGroups(cs: seq<Candle>, target: Interval, b: int)
    requires b in BucketSet(cs, target)
    ensures Group(cs, target, b) != []
  {
    var c :| c in cs && Bucket(c, target) == b;
    assert c in Group(cs, target, b);
  }

  // ---------------------------------------------------------------------------
  // What resampling computes
  // ---------------------------------------------------------------------------

  lemma {:induction false} NoneMixed(cs: seq<Candle>, symbol: string, source: Interval)
    ensures FirstMixed(cs, symbol, source) == None
       <==> forall c :: c in cs ==> c.symbol == symbol && c.interval == source
  {
    if cs != [] {
      NoneMixed(cs[1..], symbol, source);
      assert cs == [cs[0]] + cs[1..];
    }
  }

  predicate EmitsAt(x: Candle, cs: seq<Candle>, target: Interval, latest: int, policy: Policy) {
    Emits(Group(cs, target, x.openTime), x.openTime, target, latest, policy)
  }

  /** The candles among `folded` that the policy lets out. */
  function Selected(folded: seq<Candle>, cs: seq<Candle>, target: Interval, latest: int, policy: Policy)
    : seq<Candle>
  {
    if folded == [] then []
    else
      var before, x := Selected(folded[..|folded| - 1], cs, target, latest, policy), folded[|folded| - 1];
      if EmitsAt(x, cs, target, latest, policy) then before + [x] else before
  }

  lemma {:induction false} EmittedIsSelected(
      folded: seq<Candle>, keys: seq<int>, cs: seq<Candle>, symbol: string, target: Interval, latest: int,
      policy: Policy)
    requires |keys| == |folded|
    requires forall k :: 0 <= k < |keys| ==> keys[k] == folded[k].openTime && IsSummary(folded[k], cs, symbol, target)
    ensures Emitted(keys, cs, symbol, target, latest, policy) == Selected(folded, cs, target, latest, policy)
  {
    if keys != [] {
      var n := |keys| - 1;
      EmittedIsSelected(folded[..n], keys[..n], cs, symbol, target, latest, policy);
      assert IsSummary(folded[n], cs, symbol, target);
    }
  }

  lemma {:induction false} AscendingIsDetermined(a: seq<int>, b: seq<int>)
    requires forall i, j :: 0 <= i < j < |a| ==> a[i] < a[j]
    requires forall i, j :: 0 <= i < j < |b| ==> b[i] < b[j]
    requires forall x :: x in a <==> x in b
    ensures a == b
  {
    assert a != [] ==> a[0] in a && a[0] in b;
    assert b != [] ==> b[0] in b && b[0] in a;
    if a != [] && b != [] {
      assert a[0] == b[0];
      forall x
        ensures x in a[1..] <==> x in b[1..]
      {
        assert x in a[1..] <==> x in a && x != a[0];
        assert x in b[1..] <==> x in b && x != b[0];
      }
      AscendingIsDetermined(a[1..], b[1..]);
    }
  }

  /**
   Grouping by dictionary and sorted keys yields what folding in time order
   yields, filtered by coverage and by the closed-only cut.
   */
  lemma ResampleSelectsFromFold(cs: seq<Candle>, target: Interval, policy: Policy)
    requires cs != [] && Rejection(cs, target, policy.minimum) == None && cs[0].interval != target
    ensures var sorted := SortByOpen(cs);
      Resample(cs, target, policy) == Success(Selected(Fold(sorted, target), sorted, target, LatestClose(cs), policy))
  {
    var sorted, symbol := SortByOpen(cs), cs[0].symbol;
    AcceptedFoldSummarizes(cs, target, policy.minimum);
    SummariesAreEmitted(Fold(sorted, target), sorted, symbol, target, LatestClose(cs), policy);
  }

  lemma SummariesAreEmitted(
      folded: seq<Candle>, cs: seq<Candle>, symbol: string, target: Interval, latest: int, policy: Policy)
    requires SummarizesBuckets(folded, cs, symbol, target)
    ensures Emitted(Ascending(BucketSet(cs, target)), cs, symbol, target, latest, policy)
         == Selected(folded, cs, target, latest, policy)
  {
    var times := seq(|folded|, k requires 0 <= k < |folded| => folded[k].openTime);
    TimesAreBuckets(folded, times, cs, symbol, target);
    var keys := Ascending(BucketSet(cs, target));
    AscendingIsDetermined(keys, times);
    EmittedIsSelected(folded, keys, cs, symbol, target, latest, policy);
  }

  lemma AcceptedFoldSummarizes(cs: seq<Candle>, target: Interval, minimum: int)
    requires cs != [] && Rejection(cs, target, minimum) == None
    ensures SortedByOpen(SortByOpen(cs)) && SameSymbol(SortByOpen(cs), cs[0].symbol)
    ensures SummarizesBuckets(Fold(SortByOpen(cs), target), SortByOpen(cs), cs[0].symbol, target)
  {
    var sorted, symbol := SortByOpen(cs), cs[0].symbol;
    SortIsStable(cs);
    NoneMixed(cs, symbol, cs[0].interval);
    forall i | 0 <= i < |sorted|
      ensures sorted[i].symbol == symbol
    {
      assert sorted[i] in sorted;
    }
    SortedIsBucketSorted(sorted, target);
    FoldSummarizes(sorted, symbol, target);
  }

  lemma TimesAreBuckets(folded: seq<Candle>, times: seq<int>, cs: seq<Candle>, symbol: string, target: Interval)
    requires SummarizesBuckets(folded, cs, symbol, target)
    requires |times| == |folded| && forall k :: 0 <= k < |folded| ==> times[k] == folded[k].openTime
    ensures forall x :: x in times <==> x in BucketSet(cs, target)
  {
    forall x | x in times
      ensures x in BucketSet(cs, target)
    {
      var k :| 0 <= k < |times| && times[k] == x;
      assert IsSummary(folded[k], cs, symbol, target);
      var c := Group(cs, target, x)[0];
      assert c in Group(cs, target, x);
    }
    forall x | x in BucketSet(cs, target)
      ensures x in times
    {
      var c :| c in cs && Bucket(c, target) == x;
      assert HasOpen(folded, x);
      var k :| 0 <= k < |folded| && folded[k].openTime == x;
      assert times[k] == x;
    }
  }

  const EVERYTHING := Policy(false, 1)

  lemma {:induction false} EverythingSelects(
      folded: seq<Candle>, cs: seq<Candle>, symbol: string, target: Interval, latest: int)
    requires forall k :: 0 <= k < |folded| ==> IsSummary(folded[k], cs, symbol, target)
    ensures Selected(folded, cs, target, latest, EVERYTHING) == folded
  {
    if folded != [] {
      var n := |folded| - 1;
      EverythingSelects(folded[..n], cs, symbol, target, latest);
      SummaryIsEmitted(folded[n], cs, symbol, target, latest);
      assert folded == folded[..n] + [folded[n]];
    }
  }

  lemma SummaryIsEmitted(x: Candle, cs: seq<Candle>, symbol: string, target: Interval, latest: int)
    requires IsSummary(x, cs, symbol, target)
    ensures EmitsAt(x, cs, target, latest, EVERYTHING)
  {
  }

  /** Without the closed-only cut, resampling is exactly the time-ordered fold. */
  lemma ResampleIsFold(cs: seq<Candle>, target: Interval)
    requires cs != [] && Rejection(cs, target, 1) == None && cs[0].interval != target
    ensures Resample(cs, target, EVERYTHING) == Success(Fold(SortByOpen(cs), target))
    ensures SummarizesBuckets(Fold(SortByOpen(cs), target), SortByOpen(cs), cs[0].symbol, target)
  {
    var sorted, symbol := SortByOpen(cs), cs[0].symbol;
    ResampleSelectsFromFold(cs, target, EVERYTHING);
    AcceptedFoldSummarizes(cs, target, 1);
    EverythingSelects(Fold(sorted, target), sorted, symbol, target, LatestClose(cs));
  }
}
