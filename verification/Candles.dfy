/**
 Candles, the two ways of aggregating them, and the proof that both agree.

 `Summary` describes one target candle by the group of source candles that fall
 in its bucket: first open, highest high, lowest low, last close, total volume.
 `Fold` builds the same candles one source candle at a time.
 */
module Candles {
  import opened Prelude
  import opened Intervals

  // Market annotations a source candle may carry; aggregated candles carry none.
  datatype Annotations = Annotations(
    openInterest: Option<real>,
    fundingRate: Option<real>,
    buyRatio: Option<real>,
    htfBuyRatio: Option<real>)

  const NO_ANNOTATIONS := Annotations(None, None, None, None)

  datatype Candle = Candle(
    symbol: string,
    interval: Interval,
    openTime: int,
    closeTime: int,
    open: real,
    high: real,
    low: real,
    close: real,
    volume: real,
    annotations: Annotations)

  function Max(a: real, b: real): real {
    if b > a then b else a
  }

  function Min(a: real, b: real): real {
    if b < a then b else a
  }

  function Bucket(c: Candle, target: Interval): int {
    BucketOpen(c.openTime, target)
  }

  // ---------------------------------------------------------------------------
  // Orders and uniformity
  // ---------------------------------------------------------------------------

  ghost predicate SortedByOpen(cs: seq<Candle>) {
    forall i, j :: 0 <= i < j < |cs| ==> cs[i].openTime <= cs[j].openTime
  }

  ghost predicate StrictlySortedByOpen(cs: seq<Candle>) {
    forall i, j :: 0 <= i < j < |cs| ==> cs[i].openTime < cs[j].openTime
  }

  ghost predicate BucketSorted(cs: seq<Candle>, target: Interval) {
    forall i, j :: 0 <= i < j < |cs| ==> Bucket(cs[i], target) <= Bucket(cs[j], target)
  }

  ghost predicate SameSymbol(cs: seq<Candle>, symbol: string) {
    forall i :: 0 <= i < |cs| ==> cs[i].symbol == symbol
  }

  lemma SortedIsBucketSorted(cs: seq<Candle>, target: Interval)
    requires SortedByOpen(cs)
    ensures BucketSorted(cs, target)
  {
    forall i, j | 0 <= i < j < |cs|
      ensures Bucket(cs[i], target) <= Bucket(cs[j], target)
    {
      BucketsAreOrdered(cs[i].openTime, cs[j].openTime, target);
    }
  }

  // ---------------------------------------------------------------------------
  // Groups and their summaries
  // ---------------------------------------------------------------------------

  function Highest(cs: seq<Candle>): (h: real)
    requires cs != []
    ensures exists i :: 0 <= i < |cs| && cs[i].high == h
    ensures forall i :: 0 <= i < |cs| ==> cs[i].high <= h
  {
    var last := cs[|cs| - 1];
    if |cs| == 1 then last.high else Max(Highest(cs[..|cs| - 1]), last.high)
  }

  function Lowest(cs: seq<Candle>): (l: real)
    requires cs != []
    ensures exists i :: 0 <= i < |cs| && cs[i].low == l
    ensures forall i :: 0 <= i < |cs| ==> l <= cs[i].low
  {
    var last := cs[|cs| - 1];
    if |cs| == 1 then last.low else Min(Lowest(cs[..|cs| - 1]), last.low)
  }

  function TotalVolume(cs: seq<Candle>): real {
    if cs == [] then 0.0 else TotalVolume(cs[..|cs| - 1]) + cs[|cs| - 1].volume
  }

  function Group(cs: seq<Candle>, target: Interval, bucket: int): (g: seq<Candle>)
    ensures forall c :: c in g <==> c in cs && Bucket(c, target) == bucket
  {
    if cs == [] then []
    else
      var last := cs[|cs| - 1];
      assert cs == cs[..|cs| - 1] + [last];
      var before := Group(cs[..|cs| - 1], target, bucket);
      if Bucket(last, target) == bucket then before + [last] else before
  }

  function Summary(g: seq<Candle>, symbol: string, target: Interval, bucket: int): Candle
    requires g != []
  {
    Candle(symbol, target, bucket, BucketClose(bucket, target),
           g[0].open, Highest(g), Lowest(g), g[|g| - 1].close, TotalVolume(g), NO_ANNOTATIONS)
  }

  // ---------------------------------------------------------------------------
  // The one-candle-at-a-time form
  // ---------------------------------------------------------------------------

  function Fresh(c: Candle, target: Interval): Candle {
    var bucket := Bucket(c, target);
    Candle(c.symbol, target, bucket, BucketClose(bucket, target),
           c.open, c.high, c.low, c.close, c.volume, NO_ANNOTATIONS)
  }

  function Merge(forming: Candle, c: Candle): Candle {
    forming.(high := Max(forming.high, c.high),
             low := Min(forming.low, c.low),
             close := c.close,
             volume := forming.volume + c.volume)
  }

  function Extend(done: seq<Candle>, c: Candle, target: Interval): (r: seq<Candle>)
    ensures r != []
  {
    if done != [] && done[|done| - 1].openTime == Bucket(c, target) then
      done[..|done| - 1] + [Merge(done[|done| - 1], c)]
    else
      done + [Fresh(c, target)]
  }

  function Fold(cs: seq<Candle>, target: Interval): (r: seq<Candle>)
    ensures cs != [] ==> r != []
  {
    if cs == [] then [] else Extend(Fold(cs[..|cs| - 1], target), cs[|cs| - 1], target)
  }

  lemma FoldSnoc(cs: seq<Candle>, c: Candle, target: Interval)
    ensures Fold(cs + [c], target) == Extend(Fold(cs, target), c, target)
  {
    assert (cs + [c])[..|cs|] == cs;
  }

  // ---------------------------------------------------------------------------
  // Folding computes the groups' summaries
  // ---------------------------------------------------------------------------

  ghost predicate HasOpen(out: seq<Candle>, time: int) {
    exists k :: 0 <= k < |out| && out[k].openTime == time
  }

  ghost predicate IsSummary(x: Candle, cs: seq<Candle>, symbol: string, target: Interval) {
    var g := Group(cs, target, x.openTime);
    g != [] && x == Summary(g, symbol, target, x.openTime)
  }

  /** `out` is the summary of each non-empty bucket of `cs`, oldest first. */
  ghost predicate SummarizesBuckets(out: seq<Candle>, cs: seq<Candle>, symbol: string, target: Interval) {
    && StrictlySortedByOpen(out)
    && (forall c :: c in cs ==> HasOpen(out, Bucket(c, target)))
    && (forall k :: 0 <= k < |out| ==> IsSummary(out[k], cs, symbol, target))
  }

  ghost predicate EndsIn(out: seq<Candle>, cs: seq<Candle>, target: Interval) {
    cs != [] ==> out != [] && out[|out| - 1].openTime == Bucket(cs[|cs| - 1], target)
  }

  lemma GroupSnoc(cs: seq<Candle>, c: Candle, target: Interval, bucket: int)
    ensures Group(cs + [c], target, bucket)
         == Group(cs, target, bucket) + if Bucket(c, target) == bucket then [c] else []
  {
    assert (cs + [c])[..|cs|] == cs;
  }

  lemma SummarySnoc(g: seq<Candle>, c: Candle, symbol: string, target: Interval, bucket: int)
    requires g != []
    ensures Summary(g + [c], symbol, target, bucket) == Merge(Summary(g, symbol, target, bucket), c)
  {
    assert (g + [c])[..|g|] == g;
  }

  lemma {:induction false} FoldSummarizes(cs: seq<Candle>, symbol: string, target: Interval)
    requires BucketSorted(cs, target) && SameSymbol(cs, symbol)
    ensures SummarizesBuckets(Fold(cs, target), cs, symbol, target)
    ensures EndsIn(Fold(cs, target), cs, target)
  {
    if cs != [] {
      var before, c := cs[..|cs| - 1], cs[|cs| - 1];
      assert cs == before + [c];
      FoldSummarizes(before, symbol, target);
      FoldSnoc(before, c, target);
      ExtendSummarizes(Fold(before, target), before, c, symbol, target);
    }
  }

  lemma ExtendSummarizes(out: seq<Candle>, before: seq<Candle>, c: Candle, symbol: string, target: Interval)
    requires SummarizesBuckets(out, before, symbol, target) && EndsIn(out, before, target)
    requires before != [] ==> Bucket(before[|before| - 1], target) <= Bucket(c, target)
    requires before == [] ==> out == []
    requires c.symbol == symbol
    ensures SummarizesBuckets(Extend(out, c, target), before + [c], symbol, target)
    ensures EndsIn(Extend(out, c, target), before + [c], target)
  {
    if out != [] && out[|out| - 1].openTime == Bucket(c, target) {
      SameBucketStep(out, before, c, symbol, target);
    } else {
      NewBucketStep(out, before, c, symbol, target);
    }
  }

  lemma SameBucketStep(out: seq<Candle>, cs: seq<Candle>, c: Candle, symbol: string, target: Interval)
    requires SummarizesBuckets(out, cs, symbol, target) && out != []
    requires out[|out| - 1].openTime == Bucket(c, target)
    ensures SummarizesBuckets(Extend(out, c, target), cs + [c], symbol, target)
  {
    var n, r := |out|, Extend(out, c, target);
    forall k | 0 <= k < n
      ensures r[k].openTime == out[k].openTime && IsSummary(r[k], cs + [c], symbol, target)
    {
      assert IsSummary(out[k], cs, symbol, target);
      GroupSnoc(cs, c, target, out[k].openTime);
      if k == n - 1 {
        SummarySnoc(Group(cs, target, out[k].openTime), c, symbol, target, out[k].openTime);
      }
    }
    SameOpensCover(out, r, cs, c, target);
  }

  lemma SameOpensCover(out: seq<Candle>, r: seq<Candle>, cs: seq<Candle>, c: Candle, target: Interval)
    requires |r| == |out| > 0 && out[|out| - 1].openTime == Bucket(c, target)
    requires forall k :: 0 <= k < |out| ==> r[k].openTime == out[k].openTime
    requires forall x :: x in cs ==> HasOpen(out, Bucket(x, target))
    ensures forall x :: x in cs + [c] ==> HasOpen(r, Bucket(x, target))
  {
    forall x | x in cs + [c]
      ensures HasOpen(r, Bucket(x, target))
    {
      if x in cs {
        var k :| 0 <= k < |out| && out[k].openTime == Bucket(x, target);
        assert r[k].openTime == Bucket(x, target);
      } else {
        assert r[|out| - 1].openTime == Bucket(x, target);
      }
    }
  }

  lemma EarlierSummariesStay(out: seq<Candle>, cs: seq<Candle>, c: Candle, symbol: string, target: Interval)
    requires SummarizesBuckets(out, cs, symbol, target)
    requires out != [] ==> out[|out| - 1].openTime < Bucket(c, target)
    ensures forall k :: 0 <= k < |out| ==>
      out[k].openTime < Bucket(c, target) && IsSummary(out[k], cs + [c], symbol, target)
  {
    forall k | 0 <= k < |out|
      ensures out[k].openTime < Bucket(c, target) && IsSummary(out[k], cs + [c], symbol, target)
    {
      assert IsSummary(out[k], cs, symbol, target);
      assert k < |out| - 1 ==> out[k].openTime < out[|out| - 1].openTime;
      GroupSnoc(cs, c, target, out[k].openTime);
    }
  }

  lemma NewBucketStep(out: seq<Candle>, cs: seq<Candle>, c: Candle, symbol: string, target: Interval)
    requires SummarizesBuckets(out, cs, symbol, target) && c.symbol == symbol
    requires out != [] ==> out[|out| - 1].openTime < Bucket(c, target)
    ensures SummarizesBuckets(out + [Fresh(c, target)], cs + [c], symbol, target)
  {
    EarlierSummariesStay(out, cs, c, symbol, target);
    NothingInNewBucket(out, cs, c, target);
    FreshIsSummary(cs, c, symbol, target);
    AppendCovers(out, Fresh(c, target), cs, c, target);
    AppendSummary(out, Fresh(c, target), cs + [c], symbol, target);
  }

  lemma NothingInNewBucket(out: seq<Candle>, cs: seq<Candle>, c: Candle, target: Interval)
    requires forall x :: x in cs ==> HasOpen(out, Bucket(x, target))
    requires forall k :: 0 <= k < |out| ==> out[k].openTime < Bucket(c, target)
    ensures forall x :: x in cs ==> Bucket(x, target) != Bucket(c, target)
  {
    forall x | x in cs
      ensures Bucket(x, target) != Bucket(c, target)
    {
      var k :| 0 <= k < |out| && out[k].openTime == Bucket(x, target);
    }
  }

  lemma AppendSummary(out: seq<Candle>, x: Candle, cs: seq<Candle>, symbol: string, target: Interval)
    requires StrictlySortedByOpen(out) && IsSummary(x, cs, symbol, target)
    requires forall k :: 0 <= k < |out| ==> out[k].openTime < x.openTime && IsSummary(out[k], cs, symbol, target)
    ensures StrictlySortedByOpen(out + [x])
    ensures forall k :: 0 <= k < |out + [x]| ==> IsSummary((out + [x])[k], cs, symbol, target)
  {
  }

  lemma AppendCovers(out: seq<Candle>, x: Candle, cs: seq<Candle>, c: Candle, target: Interval)
    requires forall y :: y in cs ==> HasOpen(out, Bucket(y, target))
    requires x.openTime == Bucket(c, target)
    ensures forall y :: y in cs + [c] ==> HasOpen(out + [x], Bucket(y, target))
  {
    forall y | y in cs + [c]
      ensures HasOpen(out + [x], Bucket(y, target))
    {
      if y in cs {
        var k :| 0 <= k < |out| && out[k].openTime == Bucket(y, target);
        assert (out + [x])[k].openTime == Bucket(y, target);
      } else {
        assert (out + [x])[|out|].openTime == Bucket(y, target);
      }
    }
  }

  lemma GroupEmpty(cs: seq<Candle>, target: Interval, bucket: int)
    requires forall x :: x in cs ==> Bucket(x, target) != bucket
    ensures Group(cs, target, bucket) == []
  {
    if cs != [] {
      GroupEmpty(cs[..|cs| - 1], target, bucket);
    }
  }

  lemma FreshIsSummary(cs: seq<Candle>, c: Candle, symbol: string, target: Interval)
    requires c.symbol == symbol
    requires forall x :: x in cs ==> Bucket(x, target) != Bucket(c, target)
    ensures IsSummary(Fresh(c, target), cs + [c], symbol, target)
  {
    var b := Bucket(c, target);
    GroupSnoc(cs, c, target, b);
    GroupEmpty(cs, target, b);
    var g := Group(cs + [c], target, b);
    assert g == [c];
    assert g[..0] == [];
    assert TotalVolume(g) == c.volume && Highest(g) == c.high && Lowest(g) == c.low;
  }

  ghost predicate Covers(a: seq<Candle>, b: seq<Candle>) {
    forall i :: 0 <= i < |a| ==> HasOpen(b, a[i].openTime)
  }

  /** The summaries determine the output: there is only one such sequence. */
  lemma SummariesAreUnique(a: seq<Candle>, b: seq<Candle>, cs: seq<Candle>, symbol: string, target: Interval)
    requires SummarizesBuckets(a, cs, symbol, target)
    requires SummarizesBuckets(b, cs, symbol, target)
    ensures a == b
  {
    SummariesCover(a, b, cs, symbol, target);
    SummariesCover(b, a, cs, symbol, target);
    StrictlySortedWithSameTimes(a, b);
    forall k | 0 <= k < |a|
      ensures a[k] == b[k]
    {
      assert IsSummary(a[k], cs, symbol, target) && IsSummary(b[k], cs, symbol, target);
    }
  }

  lemma SummariesCover(a: seq<Candle>, b: seq<Candle>, cs: seq<Candle>, symbol: string, target: Interval)
    requires SummarizesBuckets(a, cs, symbol, target)
    requires SummarizesBuckets(b, cs, symbol, target)
    ensures Covers(a, b)
  {
    forall i | 0 <= i < |a|
      ensures HasOpen(b, a[i].openTime)
    {
      assert IsSummary(a[i], cs, symbol, target);
      var x := Group(cs, target, a[i].openTime)[0];
      assert x in Group(cs, target, a[i].openTime);
    }
  }

  // Position by position: the k-th times agree, as the ones before them do.
  lemma {:induction false} SameTimeAt(a: seq<Candle>, b: seq<Candle>, k: nat)
    requires StrictlySortedByOpen(a) && StrictlySortedByOpen(b)
    requires Covers(a, b) && Covers(b, a) && k < |a|
    ensures k < |b| && a[k].openTime == b[k].openTime
  {
    if k > 0 {
      SameTimeAt(a, b, k - 1);
    }
    assert HasOpen(b, a[k].openTime);
    var j :| 0 <= j < |b| && b[j].openTime == a[k].openTime;
    assert j >= k;
    assert HasOpen(a, b[k].openTime);
    var i :| 0 <= i < |a| && a[i].openTime == b[k].openTime;
    assert i >= k;
  }

  lemma StrictlySortedWithSameTimes(a: seq<Candle>, b: seq<Candle>)
    requires StrictlySortedByOpen(a) && StrictlySortedByOpen(b)
    requires Covers(a, b) && Covers(b, a)
    ensures |a| == |b|
    ensures forall k :: 0 <= k < |a| ==> a[k].openTime == b[k].openTime
  {
    forall k | 0 <= k < |a|
      ensures k < |b| && a[k].openTime == b[k].openTime
    {
      SameTimeAt(a, b, k);
    }
    if |a| < |b| {
      SameTimeAt(b, a, |a|);
    } else if |b| < |a| {
      SameTimeAt(a, b, |b|);
    }
  }

  // ---------------------------------------------------------------------------
  // Composition
  // ---------------------------------------------------------------------------

  /** Regrouping: first, last, highest, lowest and total survive a middle step. */
  lemma MergeRegroups(z: Candle, y: Candle, x: Candle)
    ensures Merge(z, Merge(y, x)) == Merge(Merge(z, y), x)
  {
  }

  /** Folding fine to middle to coarse is folding fine to coarse. */
  lemma {:induction false} FoldComposes(cs: seq<Candle>, middle: Interval, target: Interval)
    requires Aligned(middle, target)
    ensures Fold(Fold(cs, middle), target) == Fold(cs, target)
  {
    if cs != [] {
      var before, c := cs[..|cs| - 1], cs[|cs| - 1];
      FoldComposes(before, middle, target);
      ExtendComposes(Fold(before, middle), c, middle, target);
    }
  }

  lemma ExtendComposes(p: seq<Candle>, c: Candle, middle: Interval, target: Interval)
    requires Aligned(middle, target)
    ensures Fold(Extend(p, c, middle), target) == Extend(Fold(p, target), c, target)
  {
    NestsAt(c.openTime, middle, target);
    if p != [] && p[|p| - 1].openTime == Bucket(c, middle) {
      MergedComposes(p, c, middle, target);
    } else {
      FreshComposes(p, c, middle, target);
    }
  }

  lemma MergedComposes(p: seq<Candle>, c: Candle, middle: Interval, target: Interval)
    requires p != [] && p[|p| - 1].openTime == Bucket(c, middle)
    requires BucketOpen(Bucket(c, middle), target) == Bucket(c, target)
    ensures Fold(Extend(p, c, middle), target) == Extend(Fold(p, target), c, target)
  {
    var init, y := p[..|p| - 1], p[|p| - 1];
    assert p == init + [y] && Extend(p, c, middle) == init + [Merge(y, c)];
    FoldMerged(init, y, c, target);
  }

  lemma FreshComposes(p: seq<Candle>, c: Candle, middle: Interval, target: Interval)
    requires p != [] ==> p[|p| - 1].openTime != Bucket(c, middle)
    requires BucketOpen(Bucket(c, middle), target) == Bucket(c, target)
    ensures Fold(Extend(p, c, middle), target) == Extend(Fold(p, target), c, target)
  {
    assert Extend(p, c, middle) == p + [Fresh(c, middle)];
    FoldSnoc(p, Fresh(c, middle), target);
    ExtendByFresh(Fold(p, target), c, middle, target);
  }

  lemma FoldMerged(init: seq<Candle>, y: Candle, c: Candle, target: Interval)
    requires Bucket(y, target) == Bucket(c, target)
    ensures Fold(init + [Merge(y, c)], target) == Extend(Fold(init + [y], target), c, target)
  {
    FoldSnoc(init, y, target);
    FoldSnoc(init, Merge(y, c), target);
    ExtendByMerged(Fold(init, target), y, c, target);
  }

  lemma ExtendByFresh(q: seq<Candle>, c: Candle, middle: Interval, target: Interval)
    requires BucketOpen(Bucket(c, middle), target) == Bucket(c, target)
    ensures Extend(q, Fresh(c, middle), target) == Extend(q, c, target)
  {
  }

  lemma ExtendByMerged(q: seq<Candle>, y: Candle, c: Candle, target: Interval)
    requires Bucket(y, target) == Bucket(c, target)
    ensures Extend(q, Merge(y, c), target) == Extend(Extend(q, y, target), c, target)
  {
    if q != [] && q[|q| - 1].openTime == Bucket(y, target) {
      MergeRegroups(q[|q| - 1], y, c);
      assert Extend(q, y, target)[..|q| - 1] == q[..|q| - 1];
    } else {
      assert Extend(q, y, target)[..|q|] == q;
    }
  }
}
