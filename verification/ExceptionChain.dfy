/**
 Classifying an exception by walking its chain. The context and cause links of
 live exceptions form a finite graph that may share nodes and contain cycles.
 */
module ExceptionChain {
  import opened Prelude

  // ---------------------------------------------------------------------------
  // One exception
  // ---------------------------------------------------------------------------

  datatype Errno =
    | ECONNABORTED | ECONNREFUSED | ECONNRESET | EHOSTUNREACH
    | ENETDOWN | ENETRESET | ENETUNREACH | ETIMEDOUT | OtherErrno

  // The first class, in the order they are asked, that the exception is an instance of.
  datatype Kind =
    | BinanceResponse(status: int)
    | BitgetResponse(declaredTransient: bool)
    | BybitResponse(retCode: int)
    | HttpResponse(status: int)
    | Connectivity
    | OperatingSystem(errno: Errno, windowsError: Option<int>)
    | Unrelated

  const TRANSIENT_HTTP_STATUSES := {408, 418, 429}
  const TRANSIENT_BYBIT_RET_CODES := {10000, 10006, 10016, 10018}
  const TRANSIENT_WINDOWS_ERRORS := {10051, 10053, 10054, 10060, 11001, 11002}

  predicate IsTransient(kind: Kind) {
    match kind
    case BinanceResponse(status) => status in TRANSIENT_HTTP_STATUSES || status >= 500
    case BitgetResponse(declaredTransient) => declaredTransient
    case BybitResponse(retCode) => retCode in TRANSIENT_BYBIT_RET_CODES
    case HttpResponse(status) => status in TRANSIENT_HTTP_STATUSES || status >= 500
    case Connectivity => true
    case OperatingSystem(errno, windowsError) =>
      errno != OtherErrno || (windowsError.Some? && windowsError.value in TRANSIENT_WINDOWS_ERRORS)
    case Unrelated => false
  }

  /**
   What counts as a connectivity loss: server errors and the three retryable statuses of an
   HTTP answer, an answer that says so itself, Bybit's four return codes, a broken
   connection, and the network errors of either operating system.
   */
  lemma TransientExactly(kind: Kind)
    ensures IsTransient(kind) <==>
      || kind == Connectivity
      || kind == BitgetResponse(true)
      || ((kind.BinanceResponse? || kind.HttpResponse?)
          && (kind.status == 408 || kind.status == 418 || kind.status == 429 || kind.status > 499))
      || (kind.BybitResponse?
          && (kind.retCode == 10000 || kind.retCode == 10006 || kind.retCode == 10016 || kind.retCode == 10018))
      || (kind.OperatingSystem?
          && (kind.errno != OtherErrno
              || exists code :: code in {10051, 10053, 10054, 10060, 11001, 11002} && kind.windowsError == Some(code)))
  {
  }

  class Error {
    var kind: Kind
    var context: Error?
    var cause: Error?

    constructor (kind: Kind, context: Error?, cause: Error?)
      ensures this.kind == kind && this.context == context && this.cause == cause
    {
      this.kind, this.context, this.cause := kind, context, cause;
    }
  }

  // ---------------------------------------------------------------------------
  // The graph of links
  // ---------------------------------------------------------------------------

  datatype Links = Links(context: Option<Error>, cause: Option<Error>)

  type Graph = map<Error, Links>

  function Link(e: Error?): Option<Error> {
    if e == null then None else Some(e)
  }

  ghost predicate LinksStayIn(universe: set<Error>)
    reads universe
  {
    forall e :: e in universe ==>
      (e.context == null || e.context in universe) && (e.cause == null || e.cause in universe)
  }

  ghost function GraphOf(universe: set<Error>): Graph
    reads universe
  {
    map e | e in universe :: Links(Link(e.context), Link(e.cause))
  }

  ghost predicate Holds(g: Graph, link: Option<Error>) {
    link.Some? ==> link.value in g
  }

  ghost predicate Closed(g: Graph) {
    forall e :: e in g ==> Holds(g, g[e].context) && Holds(g, g[e].cause)
  }

  ghost predicate ReachesIn(g: Graph, from: Option<Error>, to: Error, steps: nat)
    requires Closed(g) && Holds(g, from)
    decreases steps
  {
    from.Some?
    && (from.value == to
        || (steps > 0
            && (ReachesIn(g, g[from.value].context, to, steps - 1)
                || ReachesIn(g, g[from.value].cause, to, steps - 1))))
  }

  ghost predicate Reaches(g: Graph, from: Error, to: Error)
    requires Closed(g) && from in g
  {
    exists steps: nat :: ReachesIn(g, Some(from), to, steps)
  }

  // Some exception reachable from this one, itself included, is transient.
  ghost predicate HasTransientCause(universe: set<Error>, error: Error)
    requires LinksStayIn(universe) && error in universe
    reads universe
  {
    GraphIsClosed(universe);
    exists e :: e in universe && Reaches(GraphOf(universe), error, e) && IsTransient(e.kind)
  }

  // ---------------------------------------------------------------------------
  // The worklist walk
  // ---------------------------------------------------------------------------

  ghost function Pushed(link: Option<Error>): seq<Error> {
    if link.Some? then [link.value] else []
  }

  ghost function Walk(g: Graph, pending: seq<Error>, seen: set<Error>): (yielded: seq<Error>)
    requires Closed(g) && seen <= g.Keys
    requires forall e :: e in pending ==> e in g
    decreases |g.Keys - seen|, |pending|
  {
    if pending == [] then []
    else
      var rest, current := pending[..|pending| - 1], pending[|pending| - 1];
      if current in seen then Walk(g, rest, seen)
      else
        Shrinks(g.Keys, seen, current);
        [current] + Walk(g, Pushing(g, rest, current), seen + {current})
  }

  ghost function Pushing(g: Graph, rest: seq<Error>, current: Error): seq<Error>
    requires current in g
  {
    rest + Pushed(g[current].context) + Pushed(g[current].cause)
  }

  lemma Shrinks(all: set<Error>, seen: set<Error>, e: Error)
    requires e in all && e !in seen
    ensures |all - (seen + {e})| < |all - seen|
  {
    assert all - (seen + {e}) == (all - seen) - {e};
  }

  method Push(pending: seq<Error>, link: Error?) returns (more: seq<Error>)
    ensures more == pending + Pushed(Link(link))
  {
    more := pending;
    if link != null {
      more := more + [link];
    }
  }

  lemma GraphIsClosed(universe: set<Error>)
    requires LinksStayIn(universe)
    ensures Closed(GraphOf(universe)) && GraphOf(universe).Keys == universe
  {
  }

  // `universe` is any finite set of exceptions that the links do not leave.
  method WalkExceptionChain(error: Error, ghost universe: set<Error>) returns (yielded: seq<Error>)
    requires error in universe && LinksStayIn(universe)
    ensures yielded == Walk(GraphOf(universe), [error], {})
  {
    var pending: seq<Error> := [error];
    var seen: set<Error> := {};
    yielded := [];
    ghost var g := GraphOf(universe);
    GraphIsClosed(universe);
    while pending != []
      invariant forall e :: e in pending ==> e in g
      invariant seen <= g.Keys
      invariant Walk(g, [error], {}) == yielded + Walk(g, pending, seen)
      decreases |g.Keys - seen|, |pending|
    {
      WalkStep(g, yielded, pending, seen);
      var current := pending[|pending| - 1];
      pending := pending[..|pending| - 1];
      if current in seen {
        continue;
      }
      seen := seen + {current};
      yielded := yielded + [current];
      pending := Expand(current, pending, universe);
    }
  }

  method Expand(current: Error, rest: seq<Error>, ghost universe: set<Error>) returns (pending: seq<Error>)
    requires current in universe && LinksStayIn(universe)
    ensures pending == Pushing(GraphOf(universe), rest, current)
  {
    pending := Push(rest, current.context);
    pending := Push(pending, current.cause);
  }

  // One turn of the loop moves the current exception from the walk ahead to what is yielded.
  lemma WalkStep(g: Graph, yielded: seq<Error>, pending: seq<Error>, seen: set<Error>)
    requires Closed(g) && seen <= g.Keys && pending != []
    requires forall e :: e in pending ==> e in g
    ensures var rest, current := pending[..|pending| - 1], pending[|pending| - 1];
      && current in g
      && (forall e :: e in rest ==> e in g)
      && (forall e :: e in Pushing(g, rest, current) ==> e in g)
      && if current in seen then Walk(g, pending, seen) == Walk(g, rest, seen)
         else
           && |g.Keys - (seen + {current})| < |g.Keys - seen|
           && yielded + Walk(g, pending, seen)
              == (yielded + [current]) + Walk(g, Pushing(g, rest, current), seen + {current})
  {
    var rest, current := pending[..|pending| - 1], pending[|pending| - 1];
    assert current in pending;
    if current !in seen {
      Shrinks(g.Keys, seen, current);
      Regroup(yielded, [current], [], Walk(g, Pushing(g, rest, current), seen + {current}));
    }
  }

  lemma Regroup<T>(a: seq<T>, b: seq<T>, c: seq<T>, d: seq<T>)
    ensures a + (b + (c + d)) == (a + b + c) + d
    ensures a + (b + d) == (a + b) + d
  {
  }

  method IsTransientConnectivityError(error: Error, ghost universe: set<Error>) returns (transient: bool)
    requires error in universe && LinksStayIn(universe)
    ensures transient <==> HasTransientCause(universe, error)
  {
    var chain := WalkExceptionChain(error, universe);
    transient := false;
    var i := 0;
    while i < |chain|
      invariant 0 <= i <= |chain|
      invariant transient <==> exists j :: 0 <= j < i && IsTransient(chain[j].kind)
    {
      transient := transient || IsTransient(chain[i].kind);
      i := i + 1;
    }
    ChainHoldsTransient(error, universe, chain);
  }

  lemma ChainHoldsTransient(error: Error, universe: set<Error>, chain: seq<Error>)
    requires error in universe && LinksStayIn(universe)
    requires chain == Walk(GraphOf(universe), [error], {})
    ensures HasTransientCause(universe, error) <==> exists j :: 0 <= j < |chain| && IsTransient(chain[j].kind)
  {
    var g := GraphOf(universe);
    WalkYieldsNothingTwice(g, [error], {});
    forall e | e in universe
      ensures e in chain <==> Reaches(g, error, e)
    {
      WalkYieldsWhatIsReachable(g, error, e);
    }
    if HasTransientCause(universe, error) {
      var e :| e in universe && Reaches(g, error, e) && IsTransient(e.kind);
      var j :| 0 <= j < |chain| && chain[j] == e;
    }
    if j :| 0 <= j < |chain| && IsTransient(chain[j].kind) {
      assert chain[j] in chain && chain[j] in universe;
    }
  }

  // ---------------------------------------------------------------------------
  // Sound, complete, and without repetition
  // ---------------------------------------------------------------------------

  /** No exception is yielded twice, nor one that was seen before. */
  lemma {:induction false} WalkYieldsNothingTwice(g: Graph, pending: seq<Error>, seen: set<Error>)
    requires Closed(g) && seen <= g.Keys
    requires forall e :: e in pending ==> e in g
    ensures var yielded := Walk(g, pending, seen);
      && (forall i, j :: 0 <= i < j < |yielded| ==> yielded[i] != yielded[j])
      && (forall e :: e in yielded ==> e in g && e !in seen)
    decreases |g.Keys - seen|, |pending|
  {
    if pending != [] {
      var rest, current := pending[..|pending| - 1], pending[|pending| - 1];
      assert current in pending;
      if current in seen {
        WalkYieldsNothingTwice(g, rest, seen);
      } else {
        Shrinks(g.Keys, seen, current);
        WalkYieldsNothingTwice(g, Pushing(g, rest, current), seen + {current});
      }
    }
  }

  // Everything pending, and every link of what is yielded, has been dealt with.
  lemma {:induction false} WalkCloses(g: Graph, pending: seq<Error>, seen: set<Error>)
    requires Closed(g) && seen <= g.Keys
    requires forall e :: e in pending ==> e in g
    ensures var yielded := Walk(g, pending, seen);
      && (forall e :: e in pending ==> e in seen || e in yielded)
      && (forall e :: e in yielded ==>
            e in g && Handled(g[e].context, seen, yielded) && Handled(g[e].cause, seen, yielded))
    decreases |g.Keys - seen|, |pending|
  {
    if pending != [] {
      var rest, current := pending[..|pending| - 1], pending[|pending| - 1];
      assert current in pending;
      if current in seen {
        WalkCloses(g, rest, seen);
        assert pending == rest + [current];
      } else {
        Shrinks(g.Keys, seen, current);
        var next := Pushing(g, rest, current);
        WalkCloses(g, next, seen + {current});
        assert pending == rest + [current];
        assert forall e :: e in rest ==> e in next;
        assert g[current].context.Some? ==> g[current].context.value in next;
        assert g[current].cause.Some? ==> g[current].cause.value in next;
      }
    }
  }

  ghost predicate Handled(link: Option<Error>, seen: set<Error>, yielded: seq<Error>) {
    link.Some? ==> link.value in seen || link.value in yielded
  }

  lemma {:induction false} ClosedSetsHoldWhatTheyReach(
      g: Graph, yielded: seq<Error>, from: Option<Error>, to: Error, steps: nat)
    requires Closed(g) && Holds(g, from)
    requires forall e :: e in yielded ==>
      e in g && Handled(g[e].context, {}, yielded) && Handled(g[e].cause, {}, yielded)
    requires Handled(from, {}, yielded) && ReachesIn(g, from, to, steps)
    ensures to in yielded
    decreases steps
  {
    if from.value != to {
      if ReachesIn(g, g[from.value].context, to, steps - 1) {
        ClosedSetsHoldWhatTheyReach(g, yielded, g[from.value].context, to, steps - 1);
      } else {
        ClosedSetsHoldWhatTheyReach(g, yielded, g[from.value].cause, to, steps - 1);
      }
    }
  }

  lemma {:induction false} ReachesFurther(g: Graph, root: Option<Error>, e: Error, next: Error, steps: nat)
    requires Closed(g) && Holds(g, root) && ReachesIn(g, root, e, steps) && e in g
    requires g[e].context == Some(next) || g[e].cause == Some(next)
    ensures ReachesIn(g, root, next, steps + 1)
    decreases steps
  {
    if root.value == e {
      assert ReachesIn(g, Some(next), next, steps);
    } else if ReachesIn(g, g[root.value].context, e, steps - 1) {
      ReachesFurther(g, g[root.value].context, e, next, steps - 1);
    } else {
      ReachesFurther(g, g[root.value].cause, e, next, steps - 1);
    }
  }

  lemma {:induction false} WalkIsSound(g: Graph, root: Error, pending: seq<Error>, seen: set<Error>)
    requires Closed(g) && seen <= g.Keys && root in g
    requires forall e :: e in pending ==> e in g && Reaches(g, root, e)
    ensures forall e :: e in Walk(g, pending, seen) ==> Reaches(g, root, e)
    decreases |g.Keys - seen|, |pending|
  {
    if pending != [] {
      var rest, current := pending[..|pending| - 1], pending[|pending| - 1];
      assert current in pending;
      if current in seen {
        WalkIsSound(g, root, rest, seen);
      } else {
        Shrinks(g.Keys, seen, current);
        var steps: nat :| ReachesIn(g, Some(root), current, steps);
        var next := Pushing(g, rest, current);
        forall e | e in next
          ensures e in g && Reaches(g, root, e)
        {
          if e !in rest {
            ReachesFurther(g, Some(root), current, e, steps);
          }
        }
        WalkIsSound(g, root, next, seen + {current});
      }
    }
  }

  /** On every finite graph, cycles included, the walk yields exactly the reachable exceptions. */
  lemma WalkYieldsWhatIsReachable(g: Graph, error: Error, e: Error)
    requires Closed(g) && error in g
    ensures e in Walk(g, [error], {}) <==> Reaches(g, error, e)
  {
    assert ReachesIn(g, Some(error), error, 0);
    WalkIsSound(g, error, [error], {});
    WalkCloses(g, [error], {});
    if Reaches(g, error, e) {
      var steps: nat :| ReachesIn(g, Some(error), e, steps);
      assert error in [error];
      ClosedSetsHoldWhatTheyReach(g, Walk(g, [error], {}), Some(error), e, steps);
    }
  }

  // ---------------------------------------------------------------------------
  // Errors raised while an outage is handled
  // ---------------------------------------------------------------------------

  lemma LinkReaches(g: Graph, error: Error, next: Error, to: Error)
    requires Closed(g) && error in g && (g[error].context == Some(next) || g[error].cause == Some(next))
    requires next in g && Reaches(g, next, to)
    ensures Reaches(g, error, to)
  {
    var steps: nat :| ReachesIn(g, Some(next), to, steps);
    assert ReachesIn(g, Some(error), to, steps + 1);
  }

  /**
   An exception raised by code that is handling another has that one as its context.
   So whatever goes wrong while a connectivity error is being handled is itself
   classified as a connectivity error.
   */
  lemma HandlingAnOutageTaints(universe: set<Error>, error: Error, handled: Error)
    requires LinksStayIn(universe) && error in universe && error.context == handled
    requires HasTransientCause(universe, handled)
    ensures HasTransientCause(universe, error)
  {
    GraphIsClosed(universe);
    var e :| e in universe && Reaches(GraphOf(universe), handled, e) && IsTransient(e.kind);
    LinkReaches(GraphOf(universe), error, handled, e);
  }

  // ---------------------------------------------------------------------------
  // Depth first, causes before contexts
  // ---------------------------------------------------------------------------

  ghost function Elements(s: seq<Error>): set<Error> {
    set e | e in s
  }

  // The recursive traversal the worklist stands for.
  ghost function DepthFirst(g: Graph, from: Option<Error>, seen: set<Error>): (visited: seq<Error>)
    requires Closed(g) && Holds(g, from) && seen <= g.Keys
    ensures Elements(visited) <= g.Keys
    decreases |g.Keys - seen|
  {
    if from.None? || from.value in seen then []
    else
      var e := from.value;
      Shrinks(g.Keys, seen, e);
      var causes := DepthFirst(g, g[e].cause, seen + {e});
      Grows(g.Keys, seen + {e}, Elements(causes));
      [e] + causes + DepthFirst(g, g[e].context, seen + {e} + Elements(causes))
  }

  lemma Grows(all: set<Error>, seen: set<Error>, more: set<Error>)
    ensures |all - (seen + more)| <= |all - seen|
  {
    SubsetIsSmaller(all - (seen + more), all - seen);
  }

  lemma GatherElements(seen: set<Error>, e: Error, causes: seq<Error>, contexts: seq<Error>)
    ensures seen + {e} + Elements(causes) + Elements(contexts) == seen + Elements([e] + causes + contexts)
  {
    var visited := [e] + causes + contexts;
    forall x
      ensures x in visited <==> x == e || x in causes || x in contexts
    {
      assert visited[0] == e;
      assert x in visited <==> x in [e] || x in causes || x in contexts;
    }
  }

  /** The stack unwinds one recursive visit at a time. */
  lemma {:induction false} StackUnwinds(g: Graph, pending: seq<Error>, link: Option<Error>, seen: set<Error>)
    requires Closed(g) && seen <= g.Keys && Holds(g, link)
    requires forall e :: e in pending ==> e in g
    ensures var visited := DepthFirst(g, link, seen);
      Walk(g, pending + Pushed(link), seen) == visited + Walk(g, pending, seen + Elements(visited))
    decreases |g.Keys - seen|
  {
    if link.None? {
      assert pending + Pushed(link) == pending;
      assert seen + Elements([]) == seen;
    } else {
      var e := link.value;
      var stack := pending + [e];
      assert stack[..|stack| - 1] == pending;
      if e in seen {
        assert seen + Elements([]) == seen;
      } else {
        var seen1 := seen + {e};
        Shrinks(g.Keys, seen, e);
        var below := pending + Pushed(g[e].context);
        StackUnwinds(g, below, g[e].cause, seen1);
        var causes := DepthFirst(g, g[e].cause, seen1);
        var seen2 := seen1 + Elements(causes);
        Grows(g.Keys, seen1, Elements(causes));
        StackUnwinds(g, pending, g[e].context, seen2);
        var contexts := DepthFirst(g, g[e].context, seen2);
        var later := Walk(g, pending, seen2 + Elements(contexts));
        GatherElements(seen, e, causes, contexts);
        WalkStep(g, [], stack, seen);
        Regroup([e], causes, contexts, later);
      }
    }
  }

  /** The worklist walk is the recursive depth-first traversal, causes before contexts. */
  lemma WalkIsDepthFirst(g: Graph, error: Error)
    requires Closed(g) && error in g
    ensures Walk(g, [error], {}) == DepthFirst(g, Some(error), {})
  {
    StackUnwinds(g, [], Some(error), {});
    assert [] + Pushed(Some(error)) == [error];
  }
}
