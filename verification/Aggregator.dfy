/**
 The realtime aggregator: one bucket in flight, overwritten in place. Its
 streaming output is proved to be the batch resampler's output.
 */
module Aggregator {
  import opened Prelude
  import opened Intervals
  import opened Candles
  import opened Sorting
  import opened Resampler
  import opened ResampleProperties

  datatype AggregationError = LargerInterval | SymbolMismatch

  // ---------------------------------------------------------------------------
  // Specification state
  // ---------------------------------------------------------------------------

  datatype State = State(symbol: Option<string>, forming: Option<Candle>, count: nat)

  datatype Output = Output(closed: Option<Candle>, forming: Candle)

  function Refusal(s: State, c: Candle, target: Interval): Option<AggregationError> {
    if c.interval.Seconds() > target.Seconds() then Some(LargerInterval)
    else if s.symbol.Some? && s.symbol.value != c.symbol then Some(SymbolMismatch)
    else None
  }

  function Push(s: State, c: Candle, target: Interval): (State, Output) {
    var symbol := Some(c.symbol);
    match s.forming
    case None =>
      (State(symbol, Some(Fresh(c, target)), 1), Output(None, Fresh(c, target)))
    case Some(f) =>
      var b := Bucket(c, target);
      if b == f.openTime then
        (State(symbol, Some(Merge(f, c)), s.count + 1), Output(None, Merge(f, c)))
      else if b > f.openTime then
        (State(symbol, Some(Fresh(c, target)), 1), Output(Some(f), Fresh(c, target)))
      else
        (s.(symbol := symbol), Output(None, f))
  }

  // ---------------------------------------------------------------------------
  // The aggregator
  // ---------------------------------------------------------------------------

  class RealtimeCandleAggregator {
    const target: Interval
    var symbol: Option<string>
    var bucketOpen: Option<int>
    var bucketClose: Option<int>
    var openPrice: real
    var highPrice: real
    var lowPrice: real
    var closePrice: real
    var volume: real
    var candleCount: nat

    ghost predicate Valid()
      reads this
    {
      && (bucketOpen.Some? <==> bucketClose.Some?)
      && (bucketOpen.Some? ==> symbol.Some? && bucketClose.value == BucketClose(bucketOpen.value, target))
    }

    function CurrentCandle(): Option<Candle>
      reads this
    {
      if bucketOpen.None? || bucketClose.None? || symbol.None? then None
      else
        Some(Candle(symbol.value, target, bucketOpen.value, bucketClose.value,
                    openPrice, highPrice, lowPrice, closePrice, volume, NO_ANNOTATIONS))
    }

    ghost function View(): State
      reads this
    {
      State(symbol, CurrentCandle(), candleCount)
    }

    constructor (target: Interval)
      ensures Valid() && this.target == target
      ensures View() == State(None, None, 0)
    {
      this.target := target;
      symbol, bucketOpen, bucketClose := None, None, None;
      openPrice, highPrice, lowPrice, closePrice, volume := 0.0, 0.0, 0.0, 0.0, 0.0;
      candleCount := 0;
    }

    method Start(c: Candle, open: int)
      requires symbol == Some(c.symbol) && open == Bucket(c, target)
      modifies this
      ensures Valid()
      ensures View() == State(Some(c.symbol), Some(Fresh(c, target)), 1)
    {
      bucketOpen := Some(open);
      bucketClose := Some(BucketClose(open, target));
      openPrice, highPrice, lowPrice, closePrice := c.open, c.high, c.low, c.close;
      volume := c.volume;
      candleCount := 1;
    }

    method Absorb(c: Candle)
      requires Valid() && bucketOpen.Some?
      modifies this
      ensures Valid()
      ensures View() == State(old(symbol), Some(Merge(old(CurrentCandle()).value, c)), old(candleCount) + 1)
    {
      if c.high > highPrice {
        highPrice := c.high;
      }
      if c.low < lowPrice {
        lowPrice := c.low;
      }
      closePrice := c.close;
      volume := volume + c.volume;
      candleCount := candleCount + 1;
    }

    method Update(c: Candle) returns (r: Result<Output, AggregationError>)
      requires Valid()
      modifies this
      ensures Valid()
      ensures match Refusal(old(View()), c, target)
        case Some(e) => r == Failure(e) && View() == old(View())
        case None => var (next, out) := Push(old(View()), c, target); r == Success(out) && View() == next
    {
      if c.interval.Seconds() > target.Seconds() {
        return Failure(LargerInterval);
      }
      if symbol.None? {
        symbol := Some(c.symbol);
      } else if c.symbol != symbol.value {
        return Failure(SymbolMismatch);
      }
      var open := Bucket(c, target);
      if bucketOpen.None? {
        Start(c, open);
        return Success(Output(None, CurrentCandle().value));
      }
      if open == bucketOpen.value {
        Absorb(c);
        return Success(Output(None, CurrentCandle().value));
      }
      if open > bucketOpen.value {
        var closed := CurrentCandle();
        Start(c, open);
        return Success(Output(closed, CurrentCandle().value));
      }
      return Success(Output(None, CurrentCandle().value));
    }

    method Reset()
      requires Valid()
      modifies this
      ensures Valid()
      ensures View() == State(old(symbol), None, 0)
    {
      bucketOpen, bucketClose := None, None;
      openPrice, highPrice, lowPrice, closePrice, volume := 0.0, 0.0, 0.0, 0.0, 0.0;
      candleCount := 0;
    }

    method Flush() returns (c: Option<Candle>)
      requires Valid()
      modifies this
      ensures Valid()
      ensures c == old(View()).forming
      ensures View() == State(old(symbol), None, 0)
    {
      c := CurrentCandle();
      Reset();
    }
  }

  // ---------------------------------------------------------------------------
  // Whole streams
  // ---------------------------------------------------------------------------

  datatype Streamed = Streamed(emitted: seq<Candle>, state: State)
  {
    function Everything(): seq<Candle> {
      emitted + Pending(state.forming)
    }
  }

  function Pending(forming: Option<Candle>): seq<Candle> {
    match forming
    case None => []
    case Some(f) => [f]
  }

  function Stream(cs: seq<Candle>, target: Interval): Streamed {
    if cs == [] then Streamed([], State(None, None, 0))
    else
      var before := Stream(cs[..|cs| - 1], target);
      var (next, out) := Push(before.state, cs[|cs| - 1], target);
      Streamed(before.emitted + Pending(out.closed), next)
  }

  predicate Streamable(cs: seq<Candle>, target: Interval) {
    forall i :: 0 <= i < |cs| ==> cs[i].symbol == cs[0].symbol && cs[i].interval.Seconds() <= target.Seconds()
  }

  lemma {:induction false} StreamKeepsSymbol(cs: seq<Candle>, target: Interval)
    requires Streamable(cs, target)
    ensures Stream(cs, target).state.symbol == if cs == [] then None else Some(cs[0].symbol)
  {
    if cs != [] {
      StreamKeepsSymbol(cs[..|cs| - 1], target);
    }
  }

  lemma StreamStep(cs: seq<Candle>, i: nat, target: Interval)
    requires Streamable(cs, target) && i < |cs|
    ensures Refusal(Stream(cs[..i], target).state, cs[i], target) == None
    ensures var before := Stream(cs[..i], target);
      var (next, out) := Push(before.state, cs[i], target);
      Stream(cs[..i + 1], target) == Streamed(before.emitted + Pending(out.closed), next)
  {
    StreamKeepsSymbol(cs[..i], target);
    assert cs[..i + 1][..i] == cs[..i];
  }

  /** Feeding every candle and flushing emits what `Stream` says, in any arrival order. */
  method Replay(cs: seq<Candle>, target: Interval) returns (closed: seq<Candle>)
    requires Streamable(cs, target)
    ensures closed == Stream(cs, target).Everything()
  {
    var aggregator := new RealtimeCandleAggregator(target);
    closed := [];
    for i := 0 to |cs|
      invariant aggregator.Valid() && aggregator.target == target && fresh(aggregator)
      invariant aggregator.View() == Stream(cs[..i], target).state
      invariant closed == Stream(cs[..i], target).emitted
    {
      StreamStep(cs, i, target);
      var r := aggregator.Update(cs[i]);
      if r.value.closed.Some? {
        closed := closed + [r.value.closed.value];
      }
    }
    assert cs[..|cs|] == cs;
    var last := aggregator.Flush();
    if last.Some? {
      closed := closed + [last.value];
    }
  }

  /** A candle is stale when some earlier arrival belongs to a later bucket. */
  predicate Stale(c: Candle, before: seq<Candle>, target: Interval) {
    exists x :: x in before && Bucket(x, target) > Bucket(c, target)
  }

  function Fresher(cs: seq<Candle>, target: Interval): seq<Candle> {
    if cs == [] then []
    else
      var before, c := cs[..|cs| - 1], cs[|cs| - 1];
      if Stale(c, before, target) then Fresher(before, target) else Fresher(before, target) + [c]
  }

  ghost predicate HoldsNewestBucket(cs: seq<Candle>, s: State, target: Interval) {
    && (cs != [] <==> s.forming.Some?)
    && (s.forming.Some? ==>
          && (forall c :: c in cs ==> Bucket(c, target) <= s.forming.value.openTime)
          && (exists c :: c in cs && Bucket(c, target) == s.forming.value.openTime))
  }

  lemma NewestStep(cs: seq<Candle>, s: State, c: Candle, target: Interval)
    requires HoldsNewestBucket(cs, s, target)
    ensures HoldsNewestBucket(cs + [c], Push(s, c, target).0, target)
    ensures s.forming.Some? ==> (Stale(c, cs, target) <==> Bucket(c, target) < s.forming.value.openTime)
    ensures s.forming.None? ==> !Stale(c, cs, target)
  {
    var next := Push(s, c, target).0;
    assert c in cs + [c];
    if s.forming.Some? {
      var x :| x in cs && Bucket(x, target) == s.forming.value.openTime;
      assert x in cs + [c];
    }
  }

  lemma {:induction false} StreamHoldsNewest(cs: seq<Candle>, target: Interval)
    ensures HoldsNewestBucket(cs, Stream(cs, target).state, target)
  {
    if cs != [] {
      var before, c := cs[..|cs| - 1], cs[|cs| - 1];
      StreamHoldsNewest(before, target);
      NewestStep(before, Stream(before, target).state, c, target);
      assert cs == before + [c];
    }
  }

  /**
   Whatever the arrival order, the stream's candles plus the forming one are the
   fold of the candles that were not stale when they arrived.
   */
  lemma {:induction false} StreamFoldsFreshCandles(cs: seq<Candle>, target: Interval)
    ensures Stream(cs, target).Everything() == Fold(Fresher(cs, target), target)
  {
    if cs != [] {
      var before, c := cs[..|cs| - 1], cs[|cs| - 1];
      StreamFoldsFreshCandles(before, target);
      StreamHoldsNewest(before, target);
      var s := Stream(before, target);
      NewestStep(before, s.state, c, target);
      if !Stale(c, before, target) {
        FoldSnoc(Fresher(before, target), c, target);
        PushExtends(s, c, target);
      }
    }
  }

  lemma PushExtends(s: Streamed, c: Candle, target: Interval)
    requires s.state.forming.Some? ==> s.state.forming.value.openTime <= Bucket(c, target)
    requires s.state.forming.None? ==> s.emitted == []
    ensures var (next, out) := Push(s.state, c, target);
      Streamed(s.emitted + Pending(out.closed), next).Everything() == Extend(s.Everything(), c, target)
  {
    if s.state.forming.Some? {
      assert s.Everything()[..|s.emitted|] == s.emitted;
    }
  }

  // What the update with the last of the candles answers.
  function LastOutput(cs: seq<Candle>, target: Interval): Output
    requires cs != []
  {
    Push(Stream(cs[..|cs| - 1], target).state, cs[|cs| - 1], target).1
  }

  /**
   What an update answers, in any arrival order: the forming candle is the last of the fold
   of the non-stale arrivals, and a closed one is the last before this arrival, handed out
   exactly when the arrival opened a later bucket.
   */
  lemma UpdateAnswersTheFold(cs: seq<Candle>, target: Interval)
    requires cs != []
    ensures var out, was := LastOutput(cs, target), Fold(Fresher(cs[..|cs| - 1], target), target);
      var now := Fold(Fresher(cs, target), target);
      && now != [] && out.forming == now[|now| - 1]
      && (out.closed.Some? <==> was != [] && |now| == |was| + 1)
      && (out.closed.Some? ==> out.closed == Some(was[|was| - 1]))
  {
    var before, c := cs[..|cs| - 1], cs[|cs| - 1];
    StreamFoldsFreshCandles(before, target);
    StreamFoldsFreshCandles(cs, target);
    EmptyStream(before, target);
    PushAnswers(Stream(before, target), c, target);
  }

  lemma PushAnswers(s: Streamed, c: Candle, target: Interval)
    requires s.state.forming.None? ==> s.emitted == []
    ensures var (next, out) := Push(s.state, c, target);
      var was, now := s.Everything(), Streamed(s.emitted + Pending(out.closed), next).Everything();
      && now != [] && out.forming == now[|now| - 1]
      && (out.closed.Some? <==> was != [] && |now| == |was| + 1)
      && (out.closed.Some? ==> out.closed == Some(was[|was| - 1]))
  {
  }

  lemma {:induction false} EmptyStream(cs: seq<Candle>, target: Interval)
    ensures Stream(cs, target).state.forming.None? ==> Stream(cs, target).emitted == []
  {
    if cs != [] {
      EmptyStream(cs[..|cs| - 1], target);
    }
  }

  /** The count is the number of non-stale arrivals in the forming bucket. */
  lemma {:induction false} CountsTheFormingBucket(cs: seq<Candle>, target: Interval)
    requires cs != []
    ensures var s := Stream(cs, target).state;
      s.forming.Some? && s.count == |Group(Fresher(cs, target), target, s.forming.value.openTime)|
  {
    var before, c := cs[..|cs| - 1], cs[|cs| - 1];
    StreamHoldsNewest(before, target);
    StreamHoldsNewest(cs, target);
    var was := Stream(before, target).state;
    NewestStep(before, was, c, target);
    if before != [] {
      CountsTheFormingBucket(before, target);
    }
    if !Stale(c, before, target) {
      var kept := Fresher(before, target);
      GroupSnoc(kept, c, target, Bucket(c, target));
      if was.forming.Some? && Bucket(c, target) > was.forming.value.openTime {
        FresherIsPart(before, target);
        GroupEmpty(kept, target, Bucket(c, target));
      }
    }
  }

  lemma {:induction false} FresherIsPart(cs: seq<Candle>, target: Interval)
    ensures forall c :: c in Fresher(cs, target) ==> c in cs
  {
    if cs != [] {
      FresherIsPart(cs[..|cs| - 1], target);
    }
  }

  // ---------------------------------------------------------------------------
  // Streaming refines batch
  // ---------------------------------------------------------------------------

  lemma {:induction false} SortedIsNeverStale(cs: seq<Candle>, target: Interval)
    requires BucketSorted(cs, target)
    ensures Fresher(cs, target) == cs
  {
    if cs != [] {
      var before, c := cs[..|cs| - 1], cs[|cs| - 1];
      SortedPrefix(cs, target);
      SortedIsNeverStale(before, target);
      LastIsNotStale(cs, target);
      assert cs == before + [c];
    }
  }

  lemma SortedPrefix(cs: seq<Candle>, target: Interval)
    requires cs != [] && BucketSorted(cs, target)
    ensures BucketSorted(cs[..|cs| - 1], target)
  {
  }

  lemma LastIsNotStale(cs: seq<Candle>, target: Interval)
    requires cs != [] && BucketSorted(cs, target)
    ensures !Stale(cs[|cs| - 1], cs[..|cs| - 1], target)
  {
    var before, c := cs[..|cs| - 1], cs[|cs| - 1];
    forall x | x in before
      ensures Bucket(x, target) <= Bucket(c, target)
    {
      var i :| 0 <= i < |before| && before[i] == x;
      assert cs[i] == x;
    }
  }

  /** On time-ordered input the fast streaming form is the batch form, field for field. */
  lemma StreamRefinesBatch(cs: seq<Candle>, target: Interval)
    requires SortedByOpen(cs)
    requires cs != [] ==> cs[0].interval != target && Rejection(cs, target, 1) == None
    ensures Resample(cs, target, EVERYTHING) == Success(Stream(cs, target).Everything())
  {
    if cs != [] {
      SortedStreamFolds(cs, target);
      SortedIsFixed(cs);
      ResampleIsFold(cs, target);
    } else {
      assert Stream(cs, target).Everything() == [];
    }
  }

  ghost predicate WellTimed(cs: seq<Candle>) {
    forall c :: c in cs ==> c.openTime <= c.closeTime
  }

  /**
   The closed-only batch trails the stream by at most the forming candle, and
   includes it exactly when its bucket has closed by the latest source close.
   */
  lemma ClosedOnlyFollowsStream(cs: seq<Candle>, target: Interval)
    requires SortedByOpen(cs) && WellTimed(cs) && cs != []
    requires cs[0].interval != target && Rejection(cs, target, 1) == None
    ensures var s := Stream(cs, target);
      && s.state.forming.Some?
      && Resample(cs, target, Policy(true, 1)) == Success(
           if s.state.forming.value.closeTime <= LatestClose(cs) then s.Everything() else s.emitted)
  {
    ClosedOnlyTakesPrefix(cs, target);
    StreamCut(cs, target);
  }

  lemma SortedStreamFolds(cs: seq<Candle>, target: Interval)
    requires SortedByOpen(cs) && cs != []
    ensures Stream(cs, target).Everything() == Fold(cs, target)
    ensures Stream(cs, target).state.forming.Some?
  {
    StreamForms(cs, target);
    StreamFoldsFreshCandles(cs, target);
    SortedIsBucketSorted(cs, target);
    SortedIsNeverStale(cs, target);
  }

  ghost predicate InClosingOrder(all: seq<Candle>) {
    forall i, j :: 0 <= i < j < |all| ==> all[i].closeTime <= all[j].closeTime
  }

  lemma StreamCut(cs: seq<Candle>, target: Interval)
    requires SortedByOpen(cs) && WellTimed(cs) && cs != [] && Rejection(cs, target, 1) == None
    ensures var s := Stream(cs, target); var k := ClosedBy(Fold(cs, target), LatestClose(cs));
      && s.state.forming.Some? && k <= |Fold(cs, target)|
      && Fold(cs, target)[..k]
         == if s.state.forming.value.closeTime <= LatestClose(cs) then s.Everything() else s.emitted
  {
    StreamCloses(cs, target);
    var s := Stream(cs, target);
    CutStream(s, s.Everything(), LatestClose(cs));
  }

  lemma StreamCloses(cs: seq<Candle>, target: Interval)
    requires SortedByOpen(cs) && WellTimed(cs) && cs != [] && Rejection(cs, target, 1) == None
    ensures var s, all := Stream(cs, target), Fold(cs, target);
      && s.state.forming.Some? && s.Everything() == all && InClosingOrder(all)
      && (|all| > 1 ==> all[|all| - 2].closeTime <= LatestClose(cs))
  {
    SortedStreamFolds(cs, target);
    FoldClosesInOrder(cs, target);
    FoldPenultimateClosed(cs, target);
  }

  lemma CutStream(s: Streamed, all: seq<Candle>, latest: int)
    requires s.state.forming.Some? && s.Everything() == all && InClosingOrder(all)
    requires |all| > 1 ==> all[|all| - 2].closeTime <= latest
    ensures ClosedBy(all, latest) <= |all|
    ensures all[..ClosedBy(all, latest)]
         == if s.state.forming.value.closeTime <= latest then s.Everything() else s.emitted
  {
    CutAtForming(all, s.emitted, s.state.forming.value, latest);
  }

  lemma ClosedOnlyTakesPrefix(cs: seq<Candle>, target: Interval)
    requires SortedByOpen(cs) && cs != [] && cs[0].interval != target && Rejection(cs, target, 1) == None
    ensures var folded := Fold(cs, target); var k := ClosedBy(folded, LatestClose(cs));
      k <= |folded| && Resample(cs, target, Policy(true, 1)) == Success(folded[..k])
  {
    SortedIsFixed(cs);
    ResampleSelectsFromFold(cs, target, Policy(true, 1));
    AcceptedFoldSummarizes(cs, target, 1);
    ClosedOnlyIsPrefix(Fold(cs, target), cs, cs[0].symbol, target, LatestClose(cs));
  }

  lemma StreamForms(cs: seq<Candle>, target: Interval)
    requires cs != []
    ensures Stream(cs, target).state.forming.Some?
  {
    StreamHoldsNewest(cs, target);
  }

  lemma AcceptedFoldOrdered(cs: seq<Candle>, target: Interval)
    requires SortedByOpen(cs) && cs != [] && Rejection(cs, target, 1) == None
    ensures OrderedSummaries(Fold(cs, target), cs, cs[0].symbol, target)
  {
    SortedIsFixed(cs);
    AcceptedFoldSummarizes(cs, target, 1);
  }

  lemma FoldClosesInOrder(cs: seq<Candle>, target: Interval)
    requires SortedByOpen(cs) && cs != [] && Rejection(cs, target, 1) == None
    ensures InClosingOrder(Fold(cs, target))
  {
    AcceptedFoldOrdered(cs, target);
    ClosesInOrder(Fold(cs, target), cs, cs[0].symbol, target);
  }

  lemma FoldPenultimateClosed(cs: seq<Candle>, target: Interval)
    requires SortedByOpen(cs) && cs != [] && Rejection(cs, target, 1) == None
    requires WellTimed(cs)
    ensures var folded := Fold(cs, target);
      |folded| > 1 ==> folded[|folded| - 2].closeTime <= LatestClose(cs)
  {

    AcceptedFoldOrdered(cs, target);
    PenultimateClosed(Fold(cs, target), cs, cs[0].symbol, target);
  }

  lemma PenultimateClosed(out: seq<Candle>, cs: seq<Candle>, symbol: string, target: Interval)
    requires OrderedSummaries(out, cs, symbol, target) && WellTimed(cs) && cs != []
    ensures |out| > 1 ==> out[|out| - 2].closeTime <= LatestClose(cs)
  {
    if |out| > 1 {
      var earlier, later := out[|out| - 2], out[|out| - 1];
      assert earlier.openTime < later.openTime;
      EarlierBucketClosed(earlier, later, cs, symbol, target);
    }
  }

  lemma CutAtForming(all: seq<Candle>, emitted: seq<Candle>, forming: Candle, latest: int)
    requires all == emitted + [forming] && InClosingOrder(all)
    requires |all| > 1 ==> all[|all| - 2].closeTime <= latest
    ensures ClosedBy(all, latest) <= |all|
    ensures all[..ClosedBy(all, latest)] == if forming.closeTime <= latest then all else emitted
  {
    CutPoint(all, latest);
    var n := |emitted|;
    assert all[n] == forming && all[..n] == emitted && all[..n + 1] == all;
  }

  // Only the last candle may still be open.
  lemma CutPoint(all: seq<Candle>, latest: int)
    requires all != [] && InClosingOrder(all)
    requires |all| > 1 ==> all[|all| - 2].closeTime <= latest
    ensures ClosedBy(all, latest) == if all[|all| - 1].closeTime <= latest then |all| else |all| - 1
  {
    ClosedByCounts(all, latest);
    var n, k := |all|, ClosedBy(all, latest);
    assert all[n - 1].closeTime <= latest <==> n - 1 < k;
    if n > 1 {
      assert all[n - 2].closeTime <= latest <==> n - 2 < k;
    }
  }

  lemma EarlierBucketClosed(earlier: Candle, later: Candle, cs: seq<Candle>, symbol: string, target: Interval)
    requires IsSummary(earlier, cs, symbol, target) && IsSummary(later, cs, symbol, target)
    requires earlier.openTime < later.openTime && WellTimed(cs) && cs != []
    ensures earlier.closeTime <= LatestClose(cs)
  {
    var g, h := Group(cs, target, earlier.openTime), Group(cs, target, later.openTime);
    var x, y := g[0], h[0];
    assert x in g && y in h;
    if y.openTime <= x.openTime {
      BucketsAreOrdered(y.openTime, x.openTime, target);
    } else {
      BucketsAreOrdered(x.openTime, y.openTime, target);
    }
    BucketContains(y.openTime, target);
    assert y.closeTime <= LatestClose(cs);
  }

  // ---------------------------------------------------------------------------
  // Any arrival order
  // ---------------------------------------------------------------------------

  lemma {:induction false} FresherIsBucketSorted(cs: seq<Candle>, target: Interval)
    ensures BucketSorted(Fresher(cs, target), target)
    ensures forall c :: c in Fresher(cs, target) ==> c in cs
  {
    if cs != [] {
      var before, c := cs[..|cs| - 1], cs[|cs| - 1];
      FresherIsBucketSorted(before, target);
      assert cs == before + [c];
      var kept := Fresher(before, target);
      if !Stale(c, before, target) {
        forall i | 0 <= i < |kept|
          ensures Bucket(kept[i], target) <= Bucket(c, target)
        {
          assert kept[i] in before;
        }
      }
    }
  }

  lemma {:induction false} FoldConservesVolume(cs: seq<Candle>, target: Interval)
    ensures TotalVolume(Fold(cs, target)) == TotalVolume(cs)
  {
    if cs != [] {
      var before, c := cs[..|cs| - 1], cs[|cs| - 1];
      FoldConservesVolume(before, target);
      ExtendAddsVolume(Fold(before, target), c, target);
    }
  }

  lemma ExtendAddsVolume(out: seq<Candle>, c: Candle, target: Interval)
    ensures TotalVolume(Extend(out, c, target)) == TotalVolume(out) + c.volume
  {
    var r := Extend(out, c, target);
    assert r[..|r| - 1] == if |r| == |out| then out[..|out| - 1] else out;
  }

  predicate WellShaped(c: Candle) {
    c.low <= c.open <= c.high && c.low <= c.close <= c.high
  }

  lemma {:induction false} FoldKeepsShape(cs: seq<Candle>, target: Interval)
    requires forall c :: c in cs ==> WellShaped(c)
    ensures forall x :: x in Fold(cs, target) ==> WellShaped(x)
  {
    if cs != [] {
      var before, c := cs[..|cs| - 1], cs[|cs| - 1];
      FoldKeepsShape(before, target);
      ExtendKeepsShape(Fold(before, target), c, target);
    }
  }

  lemma ExtendKeepsShape(out: seq<Candle>, c: Candle, target: Interval)
    requires WellShaped(c) && forall x :: x in out ==> WellShaped(x)
    ensures forall x :: x in Extend(out, c, target) ==> WellShaped(x)
  {
    assert WellShaped(Fresh(c, target));
    if out != [] {
      assert out[|out| - 1] in out;
      assert WellShaped(Merge(out[|out| - 1], c));
    }
  }

  /**
   Between resets and for any arrival order: buckets come out in strictly
   increasing time, no non-stale volume is lost or invented, and candle geometry
   is preserved.
   */
  lemma StreamIsSafeInAnyOrder(cs: seq<Candle>, symbol: string, target: Interval)
    requires SameSymbol(cs, symbol)
    ensures var all := Stream(cs, target).Everything();
      && SummarizesBuckets(all, Fresher(cs, target), symbol, target)
      && TotalVolume(all) == TotalVolume(Fresher(cs, target))
      && ((forall c :: c in cs ==> WellShaped(c)) ==> forall x :: x in all ==> WellShaped(x))
  {
    var kept := Fresher(cs, target);
    StreamFoldsFreshCandles(cs, target);
    FresherIsBucketSorted(cs, target);
    forall i | 0 <= i < |kept|
      ensures kept[i].symbol == symbol
    {
      assert kept[i] in cs;
    }
    FoldSummarizes(kept, symbol, target);
    FoldConservesVolume(kept, target);
    if forall c :: c in cs ==> WellShaped(c) {
      FoldKeepsShape(kept, target);
    }
  }
}
