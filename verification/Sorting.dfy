/**
 The stable sort by opening time that resampling starts with, and ascending key
 order for the bucket dictionary.
 */
module Sorting {
  import opened Candles

  function InsertByOpen(sorted: seq<Candle>, c: Candle): seq<Candle> {
    var n := |sorted|;
    if n == 0 || sorted[n - 1].openTime <= c.openTime then sorted + [c]
    else InsertByOpen(sorted[..n - 1], c) + [sorted[n - 1]]
  }

  function SortByOpen(cs: seq<Candle>): seq<Candle> {
    if cs == [] then [] else InsertByOpen(SortByOpen(cs[..|cs| - 1]), cs[|cs| - 1])
  }

  function AtTime(cs: seq<Candle>, time: int): seq<Candle> {
    if cs == [] then []
    else
      var before, c := AtTime(cs[..|cs| - 1], time), cs[|cs| - 1];
      if c.openTime == time then before + [c] else before
  }

  lemma AtTimeSnoc(cs: seq<Candle>, c: Candle, time: int)
    ensures AtTime(cs + [c], time) == AtTime(cs, time) + if c.openTime == time then [c] else []
  {
    assert (cs + [c])[..|cs|] == cs;
  }

  lemma {:induction false} AtTimeMembers(cs: seq<Candle>, time: int)
    ensures forall c :: c in AtTime(cs, time) <==> c in cs && c.openTime == time
  {
    if cs != [] {
      assert cs == cs[..|cs| - 1] + [cs[|cs| - 1]];
      AtTimeMembers(cs[..|cs| - 1], time);
    }
  }

  lemma {:induction false} InsertSorts(sorted: seq<Candle>, c: Candle)
    requires SortedByOpen(sorted)
    ensures SortedByOpen(InsertByOpen(sorted, c))
    ensures forall x :: x in InsertByOpen(sorted, c) <==> x in sorted || x == c
    ensures |InsertByOpen(sorted, c)| == |sorted| + 1
  {
    var n := |sorted|;
    if n != 0 && sorted[n - 1].openTime > c.openTime {
      var init, last := sorted[..n - 1], sorted[n - 1];
      InsertSorts(init, c);
      var r := InsertByOpen(init, c);
      forall i | 0 <= i < |r|
        ensures r[i].openTime <= last.openTime
      {
        assert r[i] in r;
      }
      assert sorted == init + [last];
    }
  }

  lemma {:induction false} InsertIsStable(sorted: seq<Candle>, c: Candle, time: int)
    requires SortedByOpen(sorted)
    ensures AtTime(InsertByOpen(sorted, c), time) == AtTime(sorted + [c], time)
  {
    var n := |sorted|;
    AtTimeSnoc(sorted, c, time);
    if n != 0 && sorted[n - 1].openTime > c.openTime {
      var init, last := sorted[..n - 1], sorted[n - 1];
      assert sorted == init + [last];
      InsertIsStable(init, c, time);
      AtTimeSnoc(InsertByOpen(init, c), last, time);
      AtTimeSnoc(init, c, time);
      AtTimeSnoc(init, last, time);
    }
  }

  /** Sorting orders the candles and leaves equal times in arrival order. */
  lemma {:induction false} SortIsStable(cs: seq<Candle>)
    ensures SortedByOpen(SortByOpen(cs))
    ensures forall x :: x in SortByOpen(cs) <==> x in cs
    ensures |SortByOpen(cs)| == |cs|
    ensures forall time :: AtTime(SortByOpen(cs), time) == AtTime(cs, time)
  {
    if cs != [] {
      var before, c := cs[..|cs| - 1], cs[|cs| - 1];
      assert cs == before + [c];
      SortIsStable(before);
      InsertSorts(SortByOpen(before), c);
      forall time
        ensures AtTime(SortByOpen(cs), time) == AtTime(cs, time)
      {
        InsertIsStable(SortByOpen(before), c, time);
        AtTimeSnoc(before, c, time);
        AtTimeSnoc(SortByOpen(before), c, time);
      }
    }
  }

  ghost predicate SameUpToArrival(a: seq<Candle>, b: seq<Candle>) {
    forall time :: AtTime(a, time) == AtTime(b, time)
  }

  lemma LastAtTime(cs: seq<Candle>)
    requires cs != []
    ensures var last := cs[|cs| - 1]; var g := AtTime(cs, last.openTime);
      g != [] && g[|g| - 1] == last
  {
  }

  lemma LastIsLatest(a: seq<Candle>, b: seq<Candle>)
    requires SortedByOpen(b) && a != [] && b != []
    requires AtTime(a, a[|a| - 1].openTime) == AtTime(b, a[|a| - 1].openTime)
    ensures a[|a| - 1].openTime <= b[|b| - 1].openTime
  {
    var x := a[|a| - 1];
    LastAtTime(a);
    AtTimeMembers(b, x.openTime);
    assert x in b;
  }

  lemma LastsAgree(a: seq<Candle>, b: seq<Candle>)
    requires SortedByOpen(a) && SortedByOpen(b) && a != [] && b != []
    requires AtTime(a, a[|a| - 1].openTime) == AtTime(b, a[|a| - 1].openTime)
    requires AtTime(a, b[|b| - 1].openTime) == AtTime(b, b[|b| - 1].openTime)
    ensures a[|a| - 1] == b[|b| - 1]
  {
    LastIsLatest(a, b);
    LastIsLatest(b, a);
    LastAtTime(a);
    LastAtTime(b);
  }

  lemma DropLast(a: seq<Candle>, b: seq<Candle>, x: Candle, time: int)
    requires AtTime(a + [x], time) == AtTime(b + [x], time)
    ensures AtTime(a, time) == AtTime(b, time)
  {
    AtTimeSnoc(a, x, time);
    AtTimeSnoc(b, x, time);
    if x.openTime == time {
      assert AtTime(a, time) == AtTime(a + [x], time)[..|AtTime(a, time)|];
      assert AtTime(b, time) == AtTime(b + [x], time)[..|AtTime(b, time)|];
    }
  }

  lemma SameWithoutLast(a: seq<Candle>, b: seq<Candle>, x: Candle)
    requires SameUpToArrival(a + [x], b + [x])
    ensures SameUpToArrival(a, b)
  {
    forall time
      ensures AtTime(a, time) == AtTime(b, time)
    {
      DropLast(a, b, x, time);
    }
  }

  lemma EmptyTogether(a: seq<Candle>, b: seq<Candle>)
    requires SameUpToArrival(a, b) && b == []
    ensures a == []
  {
    if a != [] {
      LastAtTime(a);
      assert false;
    }
  }

  lemma SplitLast(a: seq<Candle>, b: seq<Candle>)
    requires SortedByOpen(a) && SortedByOpen(b) && SameUpToArrival(a, b) && a != [] && b != []
    ensures a[|a| - 1] == b[|b| - 1]
    ensures SameUpToArrival(a[..|a| - 1], b[..|b| - 1])
    ensures a == a[..|a| - 1] + [a[|a| - 1]] && b == b[..|b| - 1] + [b[|b| - 1]]
  {
    LastsAgree(a, b);
    assert a == a[..|a| - 1] + [a[|a| - 1]] && b == b[..|b| - 1] + [b[|b| - 1]];
    SameWithoutLast(a[..|a| - 1], b[..|b| - 1], a[|a| - 1]);
  }

  /** A stable sort has only one possible result. */
  lemma {:induction false} StableSortIsUnique(a: seq<Candle>, b: seq<Candle>)
    requires SortedByOpen(a) && SortedByOpen(b) && SameUpToArrival(a, b)
    ensures a == b
  {
    if b == [] {
      EmptyTogether(a, b);
    } else if a == [] {
      EmptyTogether(b, a);
    } else {
      SplitLast(a, b);
      StableSortIsUnique(a[..|a| - 1], b[..|b| - 1]);
    }
  }

  lemma SortedIsFixed(cs: seq<Candle>)
    requires SortedByOpen(cs)
    ensures SortByOpen(cs) == cs
  {
    SortIsStable(cs);
    StableSortIsUnique(SortByOpen(cs), cs);
  }

  // ---------------------------------------------------------------------------
  // Ascending order of a finite set of times
  // ---------------------------------------------------------------------------

  predicate IsLeast(s: set<int>, m: int) {
    m in s && forall x :: x in s ==> m <= x
  }

  lemma {:induction false} FindLeast(s: set<int>) returns (m: int)
    requires s != {}
    ensures IsLeast(s, m)
    decreases |s|
  {
    assert (forall e :: e !in s) ==> s == {};
    var e :| e in s;
    m := e;
    if s != {e} {
      var rest := s - {e};
      assert s == rest + {e};
      var r := FindLeast(rest);
      m := if e < r then e else r;
    }
  }

  function Ascending(s: set<int>): (r: seq<int>)
    ensures forall x :: x in r <==> x in s
    ensures forall i, j :: 0 <= i < j < |r| ==> r[i] < r[j]
    decreases |s|
  {
    if s == {} then []
    else
      assert exists m :: IsLeast(s, m) by {
        var m := FindLeast(s);
        assert IsLeast(s, m);
      }
      var m :| IsLeast(s, m) && m in s;
      var rest := Ascending(s - {m});
      assert forall i :: 0 <= i < |rest| ==> rest[i] in rest;
      [m] + rest
  }
}
