/** Laws of batch resampling: arrival order, composition, the closed-only cut. */
module ResampleProperties {
  import opened Prelude
  import opened Intervals
  import opened Candles
  import opened Sorting
  import opened Resampler

  // ---------------------------------------------------------------------------
  // Arrival order
  // ---------------------------------------------------------------------------

  lemma SameArrivalSameMembers(cs: seq<Candle>, ds: seq<Candle>)
    requires SameUpToArrival(cs, ds)
    ensures forall c :: c in cs <==> c in ds
  {
    forall c
      ensures c in cs <==> c in ds
    {
      AtTimeMembers(cs, c.openTime);
      AtTimeMembers(ds, c.openTime);
      assert AtTime(cs, c.openTime) == AtTime(ds, c.openTime);
    }
  }

  lemma SameMembersSameLatest(cs: seq<Candle>, ds: seq<Candle>)
    requires cs != [] && ds != [] && forall c :: c in cs <==> c in ds
    ensures LatestClose(cs) == LatestClose(ds)
  {
    var m, n := LatestClose(cs), LatestClose(ds);
    var c :| c in cs && c.closeTime == m;
    var d :| d in ds && d.closeTime == n;
    assert c in ds && d in cs;
  }

  /**
   Accepted candles may arrive in any order: only the relative order of candles
   that open at the same instant can matter.
   */
  lemma ArrivalOrderIsIrrelevant(cs: seq<Candle>, ds: seq<Candle>, target: Interval, policy: Policy)
    requires SameUpToArrival(cs, ds)
    requires Resample(cs, target, policy).Success?
    ensures Resample(ds, target, policy) == Resample(cs, target, policy)
  {
    SameArrivalSameMembers(cs, ds);
    if cs == [] {
      EmptyTogether(ds, cs);
    } else {
      assert cs[0] in cs && cs[0] in ds;
      assert ds[0] in ds && ds[0] in cs;
      NoneMixed(cs, cs[0].symbol, cs[0].interval);
      NoneMixed(ds, cs[0].symbol, cs[0].interval);
      SortIsStable(cs);
      SortIsStable(ds);
      SortsAlike(cs, ds);
      SameMembersSameLatest(cs, ds);
    }
  }

  lemma SortsAlike(cs: seq<Candle>, ds: seq<Candle>)
    requires SameUpToArrival(cs, ds)
    ensures SortByOpen(cs) == SortByOpen(ds)
  {
    SortIsStable(cs);
    SortIsStable(ds);
    assert SameUpToArrival(SortByOpen(cs), SortByOpen(ds)) by {
      forall time
        ensures AtTime(SortByOpen(cs), time) == AtTime(SortByOpen(ds), time)
      {
        assert AtTime(cs, time) == AtTime(ds, time);
      }
    }
    StableSortIsUnique(SortByOpen(cs), SortByOpen(ds));
  }

  // ---------------------------------------------------------------------------
  // Composition
  // ---------------------------------------------------------------------------

  lemma ResampledIsUniform(cs: seq<Candle>, middle: Interval)
    requires cs != [] && Resample(cs, middle, EVERYTHING).Success?
    ensures var out := Resample(cs, middle, EVERYTHING).value;
      && out != []
      && SortedByOpen(out)
      && forall c :: c in out ==> c.symbol == cs[0].symbol && c.interval == middle
  {
    var sorted := SortByOpen(cs);
    SortIsStable(cs);
    NoneMixed(cs, cs[0].symbol, cs[0].interval);
    assert cs[0] in cs && cs[0] in sorted;
    if cs[0].interval != middle {
      ResampleIsFold(cs, middle);
      SummariesAreUniform(Fold(sorted, middle), sorted, cs[0].symbol, middle);
      assert HasOpen(Fold(sorted, middle), Bucket(cs[0], middle));
    }
  }

  lemma SummariesAreUniform(out: seq<Candle>, cs: seq<Candle>, symbol: string, target: Interval)
    requires SummarizesBuckets(out, cs, symbol, target)
    ensures SortedByOpen(out) && forall c :: c in out ==> c.symbol == symbol && c.interval == target
  {
    forall c | c in out
      ensures c.symbol == symbol && c.interval == target
    {
      var k :| 0 <= k < |out| && out[k] == c;
      assert IsSummary(out[k], cs, symbol, target);
    }
  }

  predicate Composes(cs: seq<Candle>, middle: Interval, target: Interval) {
    var first := Resample(cs, middle, EVERYTHING);
    first.Success? ==> Resample(first.value, target, EVERYTHING) == Resample(cs, target, EVERYTHING)
  }

  lemma RejectionThroughMiddle(cs: seq<Candle>, middle: Interval, target: Interval)
    requires cs != [] && Resample(cs, middle, EVERYTHING).Success? && Divides(middle, target)
    ensures Rejection(cs, target, 1) == None
    ensures var out := Resample(cs, middle, EVERYTHING).value;
      out != [] && out[0].symbol == cs[0].symbol && out[0].interval == middle && Rejection(out, target, 1) == None
  {
    var out := Resample(cs, middle, EVERYTHING).value;
    ResampledIsUniform(cs, middle);
    assert out[0] in out;
    NoneMixed(out, cs[0].symbol, middle);
    DividesIsTransitive(cs[0].interval, middle, target);
    DividesIsOrdered(middle, target);
    DividesIsOrdered(cs[0].interval, middle);
  }

  lemma DividesIsOrdered(small: Interval, large: Interval)
    requires Divides(small, large)
    ensures small.Seconds() <= large.Seconds()
  {
    MultipleBetween(0, large.Seconds(), small.Seconds());
  }

  /** Resampling in two steps is resampling in one, whenever the grids align. */
  lemma ResampleComposes(cs: seq<Candle>, middle: Interval, target: Interval)
    requires Aligned(middle, target)
    ensures Composes(cs, middle, target)
  {
    var first := Resample(cs, middle, EVERYTHING);
    if cs != [] && first.Success? {
      var source, sorted, out := cs[0].interval, SortByOpen(cs), first.value;
      RejectionThroughMiddle(cs, middle, target);
      ResampledIsUniform(cs, middle);
      SortIsStable(cs);
      SortedIsFixed(out);
      if source == middle {
        if source != target {
          ResampleIsFold(cs, target);
          ResampleIsFold(out, target);
        }
      } else {
        ResampleIsFold(cs, middle);
        if middle != target {
          if source == target {
            EqualLengthsAreEqual(source, middle) by {
              DividesIsOrdered(source, middle);
              DividesIsOrdered(middle, target);
            }
          }
          ResampleIsFold(cs, target);
          ResampleIsFold(out, target);
          FoldComposes(sorted, middle, target);
        }
      }
    }
  }

  const MONDAY_CANDLE :=
    Candle("BTCUSDT", M1, 345600, 345660, 1.0, 1.0, 1.0, 1.0, 1.0, NO_ANNOTATIONS)

  /** One minute candle on Monday midnight shows the straddling pair failing. */
  lemma SevenMinutesIntoWeekFails()
    ensures !Composes([MONDAY_CANDLE], M7, W1)
  {
    var viaMiddle := Fresh(MONDAY_CANDLE, M7);
    assert viaMiddle.openTime == 345240;
    WeekOpens(viaMiddle, -259200);
    WeekOpens(MONDAY_CANDLE, 345600);
    SingletonResample(MONDAY_CANDLE, M7);
    SingletonResample(viaMiddle, W1);
    SingletonResample(MONDAY_CANDLE, W1);
    assert Resample([viaMiddle], W1, EVERYTHING).value[0].openTime == -259200;
  }

  lemma WeekOpens(c: Candle, monday: int)
    requires monday == BucketOpen(c.openTime, W1)
    ensures Fresh(c, W1).openTime == monday
  {
  }

  lemma SingletonResample(c: Candle, target: Interval)
    requires Divides(c.interval, target) && c.interval != target
    ensures Resample([c], target, EVERYTHING) == Success([Fresh(c, target)])
  {
    SingletonAccepted(c, target);
    ResampleIsFold([c], target);
    SortedIsFixed([c]);
    SingletonFold(c, target);
  }

  lemma SingletonAccepted(c: Candle, target: Interval)
    requires Divides(c.interval, target)
    ensures Rejection([c], target, 1) == None
  {
    DividesIsOrdered(c.interval, target);
    NoneMixed([c], c.symbol, c.interval);
  }

  lemma SingletonFold(c: Candle, target: Interval)
    ensures Fold([c], target) == [Fresh(c, target)]
  {
    assert [c] == [] + [c];
    FoldSnoc([], c, target);
  }

  ghost predicate ComposesForAll(source: Interval, middle: Interval, target: Interval) {
    forall cs: seq<Candle> :: cs != [] && cs[0].interval == source ==> Composes(cs, middle, target)
  }

  /**
   Of all chains of intervals the resampler accepts, exactly one does not
   compose: one minute to seven minutes to a week.
   */
  lemma CompositionFailsOnlyForWeekOfSevenMinutes(source: Interval, middle: Interval, target: Interval)
    requires Divides(source, middle) && Divides(middle, target)
    ensures ComposesForAll(source, middle, target) <==> !(source == M1 && middle == M7 && target == W1)
  {
    if source == M1 && middle == M7 && target == W1 {
      WeekOfSevenMinutesDoesNotCompose();
    } else {
      OtherChainsComposeForAll(source, middle, target);
    }
  }

  lemma WeekOfSevenMinutesDoesNotCompose()
    ensures !ComposesForAll(M1, M7, W1)
  {
    SevenMinutesIntoWeekFails();
    var cs := [MONDAY_CANDLE];
    assert cs != [] && cs[0].interval == M1 && !Composes(cs, M7, W1);
  }

  lemma OtherChainsComposeForAll(source: Interval, middle: Interval, target: Interval)
    requires Divides(source, middle) && Divides(middle, target)
    requires !(source == M1 && middle == M7 && target == W1)
    ensures ComposesForAll(source, middle, target)
  {
    forall cs: seq<Candle> | cs != [] && cs[0].interval == source
      ensures Composes(cs, middle, target)
    {
      OtherChainsCompose(cs, middle, target);
    }
  }

  lemma OtherChainsCompose(cs: seq<Candle>, middle: Interval, target: Interval)
    requires cs != [] && Divides(cs[0].interval, middle) && Divides(middle, target)
    requires !(cs[0].interval == M1 && middle == M7 && target == W1)
    ensures Composes(cs, middle, target)
  {
    if middle == M7 && target == W1 {
      assert cs[0].interval == M7;
      SameIntervalComposes(cs, target);
    } else {
      ResampleComposes(cs, middle, target);
    }
  }

  lemma SameIntervalComposes(cs: seq<Candle>, target: Interval)
    requires cs != [] && Divides(cs[0].interval, target)
    ensures Composes(cs, cs[0].interval, target)
  {
    var source := cs[0].interval;
    if Resample(cs, source, EVERYTHING).Success? {
      var out := Resample(cs, source, EVERYTHING).value;
      RejectionThroughMiddle(cs, source, target);
      SortIsStable(cs);
      SortedIsFixed(out);
      if source != target {
        ResampleIsFold(cs, target);
        ResampleIsFold(out, target);
      }
    }
  }

  // ---------------------------------------------------------------------------
  // The closed-only cut
  // ---------------------------------------------------------------------------

  function ClosedBy(folded: seq<Candle>, latest: int): nat {
    if folded == [] then 0
    else ClosedBy(folded[..|folded| - 1], latest) + if folded[|folded| - 1].closeTime <= latest then 1 else 0
  }

  ghost predicate OrderedSummaries(out: seq<Candle>, cs: seq<Candle>, symbol: string, target: Interval) {
    StrictlySortedByOpen(out) && forall k :: 0 <= k < |out| ==> IsSummary(out[k], cs, symbol, target)
  }

  lemma ClosedEmission(x: Candle, cs: seq<Candle>, symbol: string, target: Interval, latest: int)
    requires IsSummary(x, cs, symbol, target)
    ensures EmitsAt(x, cs, target, latest, Policy(true, 1)) <==> x.closeTime <= latest
  {
  }

  lemma {:induction false} ClosedByCounts(out: seq<Candle>, latest: int)
    requires forall i, j :: 0 <= i < j < |out| ==> out[i].closeTime <= out[j].closeTime
    ensures ClosedBy(out, latest) <= |out|
    ensures forall i :: 0 <= i < |out| ==> (out[i].closeTime <= latest <==> i < ClosedBy(out, latest))
  {
    if out != [] {
      var n := |out| - 1;
      var init := out[..n];
      ClosedByCounts(init, latest);
      forall i | 0 <= i < n
        ensures out[i].closeTime <= latest <==> i < ClosedBy(init, latest)
      {
        assert init[i] == out[i];
      }
    }
  }

  lemma ClosesInOrder(out: seq<Candle>, cs: seq<Candle>, symbol: string, target: Interval)
    requires OrderedSummaries(out, cs, symbol, target)
    ensures forall i, j :: 0 <= i < j < |out| ==> out[i].closeTime <= out[j].closeTime
  {
    forall i, j | 0 <= i < j < |out|
      ensures out[i].closeTime <= out[j].closeTime
    {
      assert IsSummary(out[i], cs, symbol, target) && IsSummary(out[j], cs, symbol, target);
    }
  }

  lemma {:induction false} SelectsLeading(
      folded: seq<Candle>, cs: seq<Candle>, target: Interval, latest: int, policy: Policy, k: nat)
    requires k <= |folded|
    requires forall i :: 0 <= i < |folded| ==> (EmitsAt(folded[i], cs, target, latest, policy) <==> i < k)
    ensures Selected(folded, cs, target, latest, policy) == folded[..k]
  {
    if folded != [] {
      var n := |folded| - 1;
      var init := folded[..n];
      var m := if k <= n then k else n;
      forall i | 0 <= i < n
        ensures EmitsAt(init[i], cs, target, latest, policy) <==> i < m
      {
        assert init[i] == folded[i];
      }
      SelectsLeading(init, cs, target, latest, policy, m);
      assert init[..m] == folded[..m];
      assert k == |folded| ==> folded[..k] == init + [folded[n]] && init[..m] == init;
    }
  }

  /** The cut keeps exactly the leading candles whose bucket has closed. */
  lemma ClosedOnlyIsPrefix(
      folded: seq<Candle>, cs: seq<Candle>, symbol: string, target: Interval, latest: int)
    requires OrderedSummaries(folded, cs, symbol, target)
    ensures var k := ClosedBy(folded, latest);
      k <= |folded| && Selected(folded, cs, target, latest, Policy(true, 1)) == folded[..k]
  {
    ClosesInOrder(folded, cs, symbol, target);
    ClosedByCounts(folded, latest);
    forall i | 0 <= i < |folded|
      ensures EmitsAt(folded[i], cs, target, latest, Policy(true, 1)) <==> i < ClosedBy(folded, latest)
    {
      ClosedEmission(folded[i], cs, symbol, target, latest);
    }
    SelectsLeading(folded, cs, target, latest, Policy(true, 1), ClosedBy(folded, latest));
  }
}
