/** What the LIVE cycle reports: results against signals, flags, and stalking. */
module LiveCycleReports {
  import opened Prelude
  import opened Intervals
  import opened LiveCycle
  import opened LiveCycleSafety
  import RuntimeSystem

  // ---------------------------------------------------------------------------
  // The report's own constructor checks
  // ---------------------------------------------------------------------------

  datatype ReportError =
    | MultipleSkipReasons
    | CapacitySkipWithFacts
    | RateLimitWithCapacityStop
    | RateLimitFactsWithoutBatch
    | SignalsWithoutBatch
    | CapacityStopWithoutBatch

  function Contradiction(r: Report): Option<ReportError> {
    if r.skippedCapacity && r.skippedRateLimit then Some(MultipleSkipReasons)
    else if r.skippedCapacity && (r.batch.Some? || r.signals != [] || r.results != [] || r.stoppedByCapacity) then
      Some(CapacitySkipWithFacts)
    else if r.skippedRateLimit && r.stoppedByCapacity then Some(RateLimitWithCapacityStop)
    else if r.skippedRateLimit && r.batch.None? && (r.signals != [] || r.results != []) then
      Some(RateLimitFactsWithoutBatch)
    else if r.batch.None? && r.signals != [] then Some(SignalsWithoutBatch)
    else if r.stoppedByCapacity && r.batch.None? then Some(CapacityStopWithoutBatch)
    else None
  }

  ghost predicate FlagsFollow(before: Progress, after: Progress, v: Verdict) {
    && (v.Stop? ==> after.stoppedByCapacity != after.skippedRateLimit)
    && (!v.Stop? ==>
          after.stoppedByCapacity == before.stoppedByCapacity && after.skippedRateLimit == before.skippedRateLimit)
  }

  lemma ProcessFlags(cfg: Config, c: Candidate, p: Progress)
    requires !p.stoppedByCapacity && !p.skippedRateLimit
    ensures FlagsFollow(p, Process(cfg, c, p).0, Process(cfg, c, p).1)
  {
  }

  lemma {:induction false} LoopFlags(cfg: Config, cs: seq<Candidate>, p: Progress)
    requires !p.stoppedByCapacity && !p.skippedRateLimit
    ensures FlagsFollow(p, Loop(cfg, cs, p).0, Loop(cfg, cs, p).1)
    decreases |cs|
  {
    if cs != [] {
      ProcessFlags(cfg, cs[0], p);
      var (next, v) := Process(cfg, cs[0], p);
      if v.Continue? {
        LoopFlags(cfg, cs[1..], next);
      }
    }
  }

  /** No cycle can build a report its constructor would refuse. */
  lemma ReportsAreConsistent(cfg: Config, t: Tape, w: World)
    requires Cycle(cfg, t, w).0.Completed?
    ensures var r := Cycle(cfg, t, w).0.report;
      && Contradiction(r) == None
      && !(r.skippedRateLimit && (r.stoppedByCapacity || r.skippedCapacity))
  {
    var (w1, portfolio) := Preamble(cfg, t, w);
    if portfolio.value.value < t.limit && !t.throttled {
      var w3 := w1.Log(CapacityChecked(t.limit)).SetStalking(cfg, false).Log(ThrottleChecked(t.throttled));
      LoopFlags(cfg, t.candidates.value, Progress(w3, portfolio.value.value, [], false, false));
    }
  }

  // ---------------------------------------------------------------------------
  // Results against signals
  // ---------------------------------------------------------------------------

  // Risk evaluation and execution answer about the signal they were asked about.
  predicate Faithful(c: Candidate) {
    && (c.evaluation.Returned? ==> c.evaluation.value.signal == c.signal)
    && (c.execution.Returned? && c.execution.value.decision.Some? ==>
          c.execution.value.decision.value.signal == c.signal)
  }

  ghost predicate Matches(results: seq<TradeResult>, cs: seq<Candidate>) {
    |results| <= |cs| && forall k :: 0 <= k < |results| ==> results[k].decision.signal == cs[k].signal
  }

  lemma ProcessResult(cfg: Config, c: Candidate, p: Progress)
    requires Faithful(c)
    ensures var (next, v) := Process(cfg, c, p);
      && (next.results == p.results
          || (|next.results| == |p.results| + 1 && next.results[..|p.results|] == p.results
              && next.results[|p.results|].decision.signal == c.signal))
      && (v.Continue? ==> next.results != p.results)
      && (v.Stop? && next.results == p.results ==> next.stoppedByCapacity || next.skippedRateLimit)
  {
    var claimed := World(p.world.claims + {KeyOf(c.signal, cfg.interval)}, p.world.stalkingPaused,
                         p.world.Log(CapacityChecked(c.limitBefore)).Log(ThrottleChecked(false)).trace
                         + [Claimed(KeyOf(c.signal, cfg.interval), true)]);
    ClaimedResult(cfg, c, p.(world := claimed));
  }

  lemma ClaimedResult(cfg: Config, c: Candidate, p: Progress)
    requires Faithful(c)
    ensures var (next, v) := ProcessClaimed(cfg, c, p);
      && (next.results == p.results
          || (|next.results| == |p.results| + 1 && next.results[..|p.results|] == p.results
              && next.results[|p.results|].decision.signal == c.signal))
      && (v.Continue? || v.Stop? ==> next.results != p.results)
  {
  }

  lemma {:induction false} LoopResults(cfg: Config, cs: seq<Candidate>, p: Progress)
    requires forall c :: c in cs ==> Faithful(c)
    ensures var (q, v) := Loop(cfg, cs, p);
      && p.results <= q.results
      && Matches(q.results[|p.results|..], cs)
      && (v.Continue? ==> |q.results| == |p.results| + |cs|)
    decreases |cs|
  {
    if cs != [] {
      assert cs[0] in cs;
      ProcessResult(cfg, cs[0], p);
      var (next, v) := Process(cfg, cs[0], p);
      if v.Continue? {
        assert forall c :: c in cs[1..] ==> c in cs;
        LoopResults(cfg, cs[1..], next);
        var q := Loop(cfg, cs[1..], next).0;
        var rest, all := q.results[|next.results|..], q.results[|p.results|..];
        assert next.results <= q.results;
        assert all == [next.results[|p.results|]] + rest;
      }
    }
  }

  /**
   Every report accounts for its signals in order: results answer a prefix of
   them, and all of them when no stop flag is raised.
   */
  lemma ResultsAnswerSignals(cfg: Config, t: Tape, w: World)
    requires t.candidates.Returned? ==> forall c :: c in t.candidates.value ==> Faithful(c)
    requires Cycle(cfg, t, w).0.Completed?
    ensures var r := Cycle(cfg, t, w).0.report;
      && |r.results| <= |r.signals|
      && (forall k :: 0 <= k < |r.results| ==> r.results[k].decision.signal == r.signals[k])
      && (!r.skippedRateLimit && !r.stoppedByCapacity ==> |r.results| == |r.signals|)
  {
    var (w1, portfolio) := Preamble(cfg, t, w);
    if portfolio.value.value < t.limit && !t.throttled {
      var cs := t.candidates.value;
      var w3 := w1.Log(CapacityChecked(t.limit)).SetStalking(cfg, false).Log(ThrottleChecked(t.throttled));
      var start := Progress(w3, portfolio.value.value, [], false, false);
      LoopFlags(cfg, cs, start);
      LoopResults(cfg, cs, start);
      var q := Loop(cfg, cs, start).0;
      assert q.results[0..] == q.results;
    }
  }

  // ---------------------------------------------------------------------------
  // Results of an aborted cycle
  // ---------------------------------------------------------------------------

  // The candidate at which the loop ended early, if it did.
  function LastTaken(cfg: Config, cs: seq<Candidate>, p: Progress): Option<Candidate> {
    if cs == [] then None
    else
      var (next, v) := Process(cfg, cs[0], p);
      if v.Continue? then LastTaken(cfg, cs[1..], next) else Some(cs[0])
  }

  // What the loop had gathered when the cycle ended, and the candidate it ended at.
  function Gathered(cfg: Config, t: Tape, w: World): (seq<TradeResult>, Option<Candidate>) {
    var (w1, portfolio) := Preamble(cfg, t, w);
    if portfolio.Raised? || portfolio.value.None? || portfolio.value.value >= t.limit || t.throttled
       || t.batch.Raised? || t.candidates.Raised? then ([], None)
    else
      var w3 := w1.Log(CapacityChecked(t.limit)).SetStalking(cfg, false).Log(ThrottleChecked(false));
      var start := Progress(w3, portfolio.value.value, [], false, false);
      (Loop(cfg, t.candidates.value, start).0.results, LastTaken(cfg, t.candidates.value, start))
  }

  // The submission went out and its outcome is blocked or unknown.
  predicate Unresolved(c: Candidate) {
    c.execution.Returned? && (c.execution.value.status.SubmissionBlocked? || c.execution.value.status.ExecutionUnsafe?)
  }

  lemma {:induction false} LoopEndsAt(cfg: Config, cs: seq<Candidate>, p: Progress)
    ensures var (q, v) := Loop(cfg, cs, p); var last := LastTaken(cfg, cs, p);
      && (v.Continue? <==> last.None?)
      && (v.EntryUnsafe? ==> Unresolved(last.value) && q.results != [])
      && (v.NotAdopted? ==> !Unresolved(last.value))
    decreases |cs|
  {
    if cs != [] {
      var (next, v) := Process(cfg, cs[0], p);
      if v.Continue? {
        LoopEndsAt(cfg, cs[1..], next);
      } else if v.EntryUnsafe? {
        assert next.results != [];
      }
    }
  }

  /**
   An aborted cycle hands on everything it had gathered, or nothing: it loses its
   results exactly when it ended at a blocked or unsafe submission, and then there
   always are some. Otherwise the last thing it did with results was to fail to
   adopt an executed entry.
   */
  lemma UnsafeSubmissionReportsNothing(cfg: Config, t: Tape, w: World)
    requires Cycle(cfg, t, w).0.Unsafe?
    ensures var (gathered, last) := Gathered(cfg, t, w); var completed := Cycle(cfg, t, w).0.completed;
      && (completed == gathered <==> !(last.Some? && Unresolved(last.value)))
      && (last.Some? && Unresolved(last.value) ==> completed == [] && gathered != [])
    ensures Cycle(cfg, t, w).0.completed != [] ==>
      var trace := Cycle(cfg, t, w).1.trace; trace != [] && trace[|trace| - 1] == Reconciled(None)
  {
    var (w1, portfolio) := Preamble(cfg, t, w);
    if portfolio.value.Some? {
      var w3 := w1.Log(CapacityChecked(t.limit)).SetStalking(cfg, false).Log(ThrottleChecked(t.throttled));
      var start := Progress(w3, portfolio.value.value, [], false, false);
      LoopEndsAt(cfg, t.candidates.value, start);
      if Loop(cfg, t.candidates.value, start).1.NotAdopted? {
        NotAdoptedEndsTrace(cfg, t.candidates.value, start);
      }
    }
  }

  // A second candidate whose submission ends with the given status.
  function SubmissionFor(signal: Signal, status: ExecutionStatus): Candidate {
    var approved := Decision(true, signal, Some(true), "approved");
    EntryFor(signal, signal).(execution := Returned(Execution(status, Some(approved), None)))
  }

  /**
   So an entry that was executed and protected disappears from the report of the
   cycle when the next submission is blocked or unsafe.
   */
  lemma UnsafeSubmissionLosesAnEntry(cfg: Config, a: Signal, b: Signal, status: ExecutionStatus)
    requires cfg.capable && !cfg.hasStalking && a.strategy == cfg.strategy && b.strategy == cfg.strategy
    requires Actionable(a) && Actionable(b) && KeyOf(a, cfg.interval) != KeyOf(b, cfg.interval)
    requires status.SubmissionBlocked? || status.ExecutionUnsafe?
    ensures var t := TwoEntries(a, b, a).(candidates := Returned([EntryFor(a, a), SubmissionFor(b, status)]));
      var (gathered, _) := Gathered(cfg, t, World({}, false, []));
      Cycle(cfg, t, World({}, false, [])).0 == Unsafe([]) && |gathered| == 2 && gathered[0].executed
  {
    var t := TwoEntries(a, b, a).(candidates := Returned([EntryFor(a, a), SubmissionFor(b, status)]));
    var start := World({}, false, []).Log(Reconciled(Some(0))).Log(CapacityChecked(9)).Log(ThrottleChecked(false));
    var p0 := Progress(start, 0, [], false, false);
    var cs := [EntryFor(a, a), SubmissionFor(b, status)];
    assert cs[1..] == [SubmissionFor(b, status)];
    var p1 := EntryRuns(cfg, a, a, p0);
    var (p2, v) := Process(cfg, SubmissionFor(b, status), p1);
    assert v.EntryUnsafe? && |p2.results| == 2 && p1.results <= p2.results;
    assert Loop(cfg, cs[1..], p1) == (p2, v);
    assert Loop(cfg, cs, p0) == (p2, v);
    assert p2.results[0] == p1.results[0];
  }

  lemma ProcessNotAdopted(cfg: Config, c: Candidate, p: Progress)
    requires Process(cfg, c, p).1.NotAdopted?
    ensures var trace := Process(cfg, c, p).0.world.trace;
      trace != [] && trace[|trace| - 1] == Reconciled(None)
  {
  }

  lemma {:induction false} NotAdoptedEndsTrace(cfg: Config, cs: seq<Candidate>, p: Progress)
    requires Loop(cfg, cs, p).1.NotAdopted?
    ensures var trace := Loop(cfg, cs, p).0.world.trace;
      trace != [] && trace[|trace| - 1] == Reconciled(None)
    decreases |cs|
  {
    var (next, v) := Process(cfg, cs[0], p);
    if v.Continue? {
      NotAdoptedEndsTrace(cfg, cs[1..], next);
    } else {
      ProcessNotAdopted(cfg, cs[0], p);
    }
  }

  // ---------------------------------------------------------------------------
  // Stalking follows capacity
  // ---------------------------------------------------------------------------

  // Every capacity check from the given event on read the same limit.
  ghost predicate ReadsOnly(trace: seq<Event>, from: nat, limit: nat) {
    forall i :: from <= i < |trace| && trace[i].CapacityChecked? ==> trace[i].limit == limit
  }

  ghost predicate StalkingFollows(p: Progress, limit: nat) {
    p.world.stalkingPaused <==> p.portfolio >= limit
  }

  lemma ProcessAppends(cfg: Config, c: Candidate, p: Progress)
    ensures p.world.trace <= Process(cfg, c, p).0.world.trace
  {
    if Submits(cfg, c, p) {
      SubmissionExecutes(cfg, c, p);
      ExecuteOnlyAppends(cfg, c, p.(world := Entering(cfg, c, p)));
    } else {
      RefusalAppends(cfg, c, p);
    }
  }

  lemma RefusalAppends(cfg: Config, c: Candidate, p: Progress)
    requires !Submits(cfg, c, p)
    ensures var next := Process(cfg, c, p).0;
      && p.world.trace <= next.world.trace
      && next.portfolio == p.portfolio
  {
  }

  lemma RefusalStalking(cfg: Config, c: Candidate, p: Progress, limit: nat)
    requires !Submits(cfg, c, p) && cfg.hasStalking && p.portfolio < limit && !p.world.stalkingPaused
    requires c.limitBefore == limit
    ensures var (next, v) := Process(cfg, c, p);
      v.Continue? || v.Stop? ==> next.portfolio < limit && !next.world.stalkingPaused
  {
  }

  lemma {:induction false} LoopAppends(cfg: Config, cs: seq<Candidate>, p: Progress)
    ensures p.world.trace <= Loop(cfg, cs, p).0.world.trace
    decreases |cs|
  {
    if cs != [] {
      ProcessAppends(cfg, cs[0], p);
      var (next, v) := Process(cfg, cs[0], p);
      if v.Continue? {
        LoopAppends(cfg, cs[1..], next);
      }
    }
  }

  lemma AdoptStalking(cfg: Config, c: Candidate, p: Progress, limit: nat)
    requires cfg.hasStalking && !p.world.stalkingPaused
    requires ReadsOnly(Adopt(cfg, c, p).0.world.trace, |p.world.trace|, limit)
    ensures var (next, v) := Adopt(cfg, c, p);
      && (v.Continue? ==> next.portfolio < limit && !next.world.stalkingPaused)
      && (v.Stop? ==> StalkingFollows(next, limit))
  {
    var trace, at := Adopt(cfg, c, p).0.world.trace, |p.world.trace| + 1;
    if c.portfolioAfter.Returned? && c.portfolioAfter.value.Some? {
      assert trace[at] == CapacityChecked(c.limitAfter);
    }
  }

  lemma ProcessStalking(cfg: Config, c: Candidate, p: Progress, limit: nat)
    requires cfg.hasStalking && p.portfolio < limit && !p.world.stalkingPaused
    requires ReadsOnly(Process(cfg, c, p).0.world.trace, |p.world.trace|, limit)
    ensures var (next, v) := Process(cfg, c, p);
      && (v.Continue? ==> next.portfolio < limit && !next.world.stalkingPaused)
      && (v.Stop? ==> StalkingFollows(next, limit))
  {
    FirstChecksLimit(cfg, c, p);
    if Submits(cfg, c, p) {
      var running := p.(world := Entering(cfg, c, p));
      SubmissionExecutes(cfg, c, p);
      ExecuteStalking(cfg, c, running, limit);
    } else {
      RefusalStalking(cfg, c, p, limit);
    }
  }

  lemma FirstChecksLimit(cfg: Config, c: Candidate, p: Progress)
    ensures var trace := Process(cfg, c, p).0.world.trace;
      |p.world.trace| < |trace| && trace[|p.world.trace|] == CapacityChecked(c.limitBefore)
  {
    if Submits(cfg, c, p) {
      SubmissionExecutes(cfg, c, p);
      ExecuteOnlyAppends(cfg, c, p.(world := Entering(cfg, c, p)));
    }
  }

  lemma ExecuteStalking(cfg: Config, c: Candidate, p: Progress, limit: nat)
    requires cfg.hasStalking && p.portfolio < limit && !p.world.stalkingPaused
    requires ReadsOnly(Execute(cfg, c, p).0.world.trace, |p.world.trace|, limit)
    ensures var (next, v) := Execute(cfg, c, p);
      && (v.Continue? ==> next.portfolio < limit && !next.world.stalkingPaused)
      && (v.Stop? ==> StalkingFollows(next, limit))
  {
    if c.execution.Returned? && ToTradeResult(c.execution.value).Returned?
       && c.execution.value.status.ExecutedAndProtected?
    {
      AdoptStalking(cfg, c, p.(results := p.results + [ToTradeResult(c.execution.value).value]), limit);
    }
  }

  lemma {:induction false} LoopStalking(cfg: Config, cs: seq<Candidate>, p: Progress, limit: nat)
    requires cfg.hasStalking && p.portfolio < limit && !p.world.stalkingPaused
    requires ReadsOnly(Loop(cfg, cs, p).0.world.trace, |p.world.trace|, limit)
    ensures var (q, v) := Loop(cfg, cs, p);
      v.Continue? || v.Stop? ==> StalkingFollows(q, limit)
    decreases |cs|
  {
    if cs != [] {
      var (next, v) := Process(cfg, cs[0], p);
      var trace := Loop(cfg, cs, p).0.world.trace;
      ProcessAppends(cfg, cs[0], p);
      if v.Continue? {
        LoopAppends(cfg, cs[1..], next);
      }
      assert next.world.trace <= trace;
      assert forall i :: 0 <= i < |next.world.trace| ==> next.world.trace[i] == trace[i];
      ProcessStalking(cfg, cs[0], p, limit);
      if v.Continue? {
        LoopStalking(cfg, cs[1..], next, limit);
      }
    }
  }

  /**
   When all its capacity checks read one limit, every normal return leaves stalking
   paused exactly when the portfolio reconciled last is full.
   */
  lemma StalkingPausedExactlyWhenFull(cfg: Config, t: Tape, w: World)
    requires cfg.hasStalking && SafeWorld(w, false)
    requires Cycle(cfg, t, w).0.Completed? && ReadsOnly(Cycle(cfg, t, w).1.trace, |w.trace|, t.limit)
    ensures var w' := Cycle(cfg, t, w).1;
      && LatestPortfolio(w'.trace).Some?
      && (w'.stalkingPaused <==> LatestPortfolio(w'.trace).value >= t.limit)
  {
    OpeningTracks(cfg, t, w);
    var (w1, portfolio) := Preamble(cfg, t, w);
    if portfolio.value.value < t.limit && !t.throttled {
      var start := Progress(Opened(cfg, t, w1), portfolio.value.value, [], false, false);
      LoopIsSafe(cfg, t.candidates.value, start, false);
      LoopStalking(cfg, t.candidates.value, start, t.limit);
    }
  }

  // The world in which discovery starts.
  function Opened(cfg: Config, t: Tape, w1: World): World {
    w1.Log(CapacityChecked(t.limit)).SetStalking(cfg, false).Log(ThrottleChecked(t.throttled))
  }

  lemma OpeningTracks(cfg: Config, t: Tape, w: World)
    requires SafeWorld(w, false) && Preamble(cfg, t, w).1.Returned? && Preamble(cfg, t, w).1.value.Some?
    ensures var (w1, portfolio) := Preamble(cfg, t, w);
      && LatestPortfolio(w1.Log(CapacityChecked(t.limit)).SetStalking(cfg, true).trace) == portfolio.value
      && SafeWorld(Opened(cfg, t, w1), false)
      && LatestPortfolio(Opened(cfg, t, w1).trace) == portfolio.value
  {
    PreambleIsSafe(cfg, t, w, false);
    var w1 := Preamble(cfg, t, w).0;
    var w2 := w1.Log(CapacityChecked(t.limit));
    LogIsSafe(w1, CapacityChecked(t.limit), false);
    StalkingIsSafe(cfg, w2, true, false);
    StalkingIsSafe(cfg, w2, false, false);
    LogIsSafe(w2.SetStalking(cfg, false), ThrottleChecked(t.throttled), false);
  }

  // The limits read by the capacity checks of a trace, in order.
  function LimitsRead(trace: seq<Event>): seq<nat> {
    if trace == [] then []
    else
      var e := trace[|trace| - 1];
      LimitsRead(trace[..|trace| - 1]) + (if e.CapacityChecked? then [e.limit] else [])
  }

  // The events a world has seen beyond an earlier one.
  function Since(before: World, after: World): seq<Event> {
    if |before.trace| <= |after.trace| then after.trace[|before.trace|..] else []
  }

  lemma {:induction false} ReadLimitsAreListed(trace: seq<Event>)
    ensures forall i :: 0 <= i < |trace| && trace[i].CapacityChecked? ==> trace[i].limit in LimitsRead(trace)
  {
    if trace != [] {
      ReadLimitsAreListed(trace[..|trace| - 1]);
    }
  }

  /**
   The runtime control gives every cycle that one limit: if a cycle's capacity
   checks are the readings of the cycle in progress in any reachable state of the
   control and its clients, stalking follows capacity.
   */
  lemma StalkingFollowsUnderTheControl(
      cfg: Config, t: Tape, w: World, steps: seq<RuntimeSystem.Step>, start: RuntimeSystem.System)
    requires cfg.hasStalking && SafeWorld(w, false) && Cycle(cfg, t, w).0.Completed?
    requires RuntimeSystem.Idle(start)
    requires RuntimeSystem.Reached(steps, start).readings == Some(LimitsRead(Since(w, Cycle(cfg, t, w).1)))
    ensures var w' := Cycle(cfg, t, w).1;
      && LatestPortfolio(w'.trace).Some?
      && (w'.stalkingPaused <==> LatestPortfolio(w'.trace).value >= t.limit)
  {
    var trace := Cycle(cfg, t, w).1.trace;
    CycleChecksItsLimit(cfg, t, w);
    var news := trace[|w.trace|..];
    ReadLimitsAreListed(news);
    var readings := LimitsRead(news);
    var k :| |w.trace| <= k < |trace| && trace[k] == CapacityChecked(t.limit);
    assert news[k - |w.trace|] == trace[k];
    var at :| 0 <= at < |readings| && readings[at] == t.limit;
    forall i | |w.trace| <= i < |trace| && trace[i].CapacityChecked?
      ensures trace[i].limit == t.limit
    {
      assert news[i - |w.trace|] == trace[i];
      var j :| 0 <= j < |readings| && readings[j] == trace[i].limit;
      RuntimeSystem.OneLimitPerCycle(steps, start, at, j);
    }
    StalkingPausedExactlyWhenFull(cfg, t, w);
  }

  lemma CycleChecksItsLimit(cfg: Config, t: Tape, w: World)
    requires Cycle(cfg, t, w).0.Completed?
    ensures var trace := Cycle(cfg, t, w).1.trace;
      w.trace <= trace && exists k :: |w.trace| <= k < |trace| && trace[k] == CapacityChecked(t.limit)
  {
    var (w1, portfolio) := Preamble(cfg, t, w);
    var w2 := w1.Log(CapacityChecked(t.limit));
    var w3 := w2.SetStalking(cfg, false).Log(ThrottleChecked(t.throttled));
    assert w2.trace[|w1.trace|] == CapacityChecked(t.limit);
    if portfolio.value.value < t.limit && !t.throttled {
      LoopAppends(cfg, t.candidates.value, Progress(w3, portfolio.value.value, [], false, false));
    }
    assert Cycle(cfg, t, w).1.trace[|w1.trace|] == CapacityChecked(t.limit);
  }

  // ---------------------------------------------------------------------------
  // Executions against results
  // ---------------------------------------------------------------------------

  ghost predicate Reported(results: seq<TradeResult>, key: ClaimKey, interval: Interval) {
    exists k :: 0 <= k < |results| && KeyOf(results[k].decision.signal, interval) == key
  }

  ghost predicate Ran(trace: seq<Event>, from: nat, key: ClaimKey) {
    exists i :: from <= i < |trace| && trace[i] == Executed(key)
  }

  // From the given event on: what ran is reported, and what is reported executed ran.
  ghost predicate Tells(w: World, results: seq<TradeResult>, from: nat, interval: Interval) {
    && (forall i :: from <= i < |w.trace| && w.trace[i].Executed? ==> Reported(results, w.trace[i].key, interval))
    && (forall k :: 0 <= k < |results| && results[k].executed ==>
          Ran(w.trace, from, KeyOf(results[k].decision.signal, interval)))
  }

  lemma LaterTells(w: World, next: World, results: seq<TradeResult>, from: nat, interval: Interval)
    requires Tells(w, results, from, interval) && w.trace <= next.trace
    requires forall i :: |w.trace| <= i < |next.trace| ==> !next.trace[i].Executed?
    ensures Tells(next, results, from, interval)
  {
    forall k | 0 <= k < |results| && results[k].executed
      ensures Ran(next.trace, from, KeyOf(results[k].decision.signal, interval))
    {
      var key := KeyOf(results[k].decision.signal, interval);
      var i :| from <= i < |w.trace| && w.trace[i] == Executed(key);
      assert next.trace[i] == Executed(key);
    }
  }

  lemma MoreResultsTell(w: World, results: seq<TradeResult>, r: TradeResult, from: nat, interval: Interval)
    requires Tells(w, results, from, interval)
    requires r.executed ==> Ran(w.trace, from, KeyOf(r.decision.signal, interval))
    ensures Tells(w, results + [r], from, interval)
  {
    forall i | from <= i < |w.trace| && w.trace[i].Executed?
      ensures Reported(results + [r], w.trace[i].key, interval)
    {
      var k :| 0 <= k < |results| && KeyOf(results[k].decision.signal, interval) == w.trace[i].key;
      assert (results + [r])[k] == results[k];
    }
  }

  lemma RunTells(w: World, results: seq<TradeResult>, r: TradeResult, from: nat, interval: Interval)
    requires Tells(w, results, from, interval) && from <= |w.trace|
    ensures Tells(w.Log(Executed(KeyOf(r.decision.signal, interval))), results + [r], from, interval)
  {
    var key := KeyOf(r.decision.signal, interval);
    var next, all := w.Log(Executed(key)), results + [r];
    assert next.trace[|w.trace|] == Executed(key);
    assert all[|results|] == r;
    forall i | from <= i < |next.trace| && next.trace[i].Executed?
      ensures Reported(all, next.trace[i].key, interval)
    {
      if i < |w.trace| {
        var k :| 0 <= k < |results| && KeyOf(results[k].decision.signal, interval) == w.trace[i].key;
        assert all[k] == results[k];
      }
    }
    forall k | 0 <= k < |all| && all[k].executed
      ensures Ran(next.trace, from, KeyOf(all[k].decision.signal, interval))
    {
      if k < |results| {
        var i :| from <= i < |w.trace| && w.trace[i] == Executed(KeyOf(results[k].decision.signal, interval));
        assert next.trace[i] == w.trace[i];
      }
    }
  }

  // Nothing but a new result for the candidate, and no execution.
  ghost predicate OnlyAnswers(c: Candidate, p: Progress, next: Progress) {
    && p.world.trace <= next.world.trace
    && (forall i :: |p.world.trace| <= i < |next.world.trace| ==> !next.world.trace[i].Executed?)
    && (next.results == p.results || exists r: TradeResult :: !r.executed && next.results == p.results + [r])
  }

  // The candidate ran, and its one result says so.
  ghost predicate RanAndAnswered(cfg: Config, c: Candidate, p: Progress, next: Progress, at: nat) {
    var trace := next.world.trace;
    && |p.world.trace| <= at < |trace| && p.world.trace <= trace
    && trace[at] == Executed(KeyOf(c.signal, cfg.interval))
    && (forall i :: |p.world.trace| <= i < |trace| && i != at ==> !trace[i].Executed?)
    && |next.results| == |p.results| + 1 && p.results <= next.results
    && next.results[|p.results|].decision.signal == c.signal
  }

  lemma ProcessAnswers(cfg: Config, c: Candidate, p: Progress)
    requires Faithful(c) && (Process(cfg, c, p).1.Continue? || Process(cfg, c, p).1.Stop?)
    ensures var next := Process(cfg, c, p).0;
      OnlyAnswers(c, p, next) || RanAndAnswered(cfg, c, p, next, |p.world.trace| + 5)
  {
    var key := KeyOf(c.signal, cfg.interval);
    var next := Process(cfg, c, p).0;
    if p.portfolio < c.limitBefore && !c.throttledBefore {
      if key in p.world.claims {
        assert next.results == p.results + [ReplayResult(c.signal)];
      } else {
        var claimed := p.(world := p.world.Log(CapacityChecked(c.limitBefore)).Log(ThrottleChecked(false)).Claim(key));
        ClaimedAnswers(cfg, c, claimed);
      }
    }
  }

  lemma ClaimedAnswers(cfg: Config, c: Candidate, p: Progress)
    requires Faithful(c) && (ProcessClaimed(cfg, c, p).1.Continue? || ProcessClaimed(cfg, c, p).1.Stop?)
    ensures var next := ProcessClaimed(cfg, c, p).0;
      OnlyAnswers(c, p, next) || RanAndAnswered(cfg, c, p, next, |p.world.trace| + 2)
  {
    var next, decision := ProcessClaimed(cfg, c, p).0, c.evaluation.value;
    var intent := Authorize(cfg, decision).value;
    if !intent.Authorized? {
      assert next.results == p.results + [NonExecuted(decision, IntentReason(intent))];
    } else if c.throttledAfter {
      assert next.results == p.results + [NonExecuted(decision, RATE_LIMIT_REASON)];
    } else {
      var gated := p.world.Log(IntentDecided(intent)).Log(ThrottleChecked(false));
      var ran := gated.Log(Executed(KeyOf(c.signal, cfg.interval)));
      ExecuteAnswers(cfg, c, p.(world := ran));
      assert next == Execute(cfg, c, p.(world := ran)).0;
    }
  }

  // One execution, already in the trace: it adds its own result and runs nothing else.
  lemma ExecuteAnswers(cfg: Config, c: Candidate, p: Progress)
    requires Faithful(c) && (Execute(cfg, c, p).1.Continue? || Execute(cfg, c, p).1.Stop?)
    ensures var next := Execute(cfg, c, p).0;
      && p.world.trace <= next.world.trace
      && (forall i :: |p.world.trace| <= i < |next.world.trace| ==> !next.world.trace[i].Executed?)
      && |next.results| == |p.results| + 1 && p.results <= next.results
      && next.results[|p.results|].decision.signal == c.signal
  {
  }

  lemma ProcessTells(cfg: Config, c: Candidate, p: Progress, from: nat)
    requires Faithful(c) && from <= |p.world.trace| && Tells(p.world, p.results, from, cfg.interval)
    requires Process(cfg, c, p).1.Continue? || Process(cfg, c, p).1.Stop?
    ensures var next := Process(cfg, c, p).0;
      from <= |next.world.trace| && Tells(next.world, next.results, from, cfg.interval)
  {
    var next := Process(cfg, c, p).0;
    ProcessAnswers(cfg, c, p);
    if OnlyAnswers(c, p, next) {
      LaterTells(p.world, next.world, p.results, from, cfg.interval);
      if next.results != p.results {
        var r: TradeResult :| !r.executed && next.results == p.results + [r];
        MoreResultsTell(next.world, p.results, r, from, cfg.interval);
      }
    } else {
      RunningTells(cfg, c, p, next, |p.world.trace| + 5, from);
    }
  }

  lemma RunningTells(cfg: Config, c: Candidate, p: Progress, next: Progress, at: nat, from: nat)
    requires from <= |p.world.trace| && Tells(p.world, p.results, from, cfg.interval)
    requires RanAndAnswered(cfg, c, p, next, at)
    ensures Tells(next.world, next.results, from, cfg.interval)
  {
    var before := p.world.(trace := next.world.trace[..at]);
    var r := next.results[|p.results|];
    LaterTells(p.world, before, p.results, from, cfg.interval);
    RunTells(before, p.results, r, from, cfg.interval);
    assert next.results == p.results + [r];
    var ran := before.Log(Executed(KeyOf(c.signal, cfg.interval)));
    assert ran.trace <= next.world.trace;
    LaterTells(ran, next.world, next.results, from, cfg.interval);
  }

  lemma {:induction false} LoopTells(cfg: Config, cs: seq<Candidate>, p: Progress, from: nat)
    requires forall c :: c in cs ==> Faithful(c)
    requires from <= |p.world.trace| && Tells(p.world, p.results, from, cfg.interval)
    requires Loop(cfg, cs, p).1.Continue? || Loop(cfg, cs, p).1.Stop?
    ensures var q := Loop(cfg, cs, p).0;
      Tells(q.world, q.results, from, cfg.interval)
    decreases |cs|
  {
    if cs != [] {
      assert cs[0] in cs;
      ProcessTells(cfg, cs[0], p, from);
      var (next, v) := Process(cfg, cs[0], p);
      if v.Continue? {
        assert forall c :: c in cs[1..] ==> c in cs;
        LoopTells(cfg, cs[1..], next, from);
      }
    }
  }

  /**
   Nothing runs unreported and nothing is reported executed that did not run: over
   the events of one completed cycle, every executed candle is the candle of a
   reported result, and every result marked executed has its execution.
   */
  lemma ReportTellsWhatRan(cfg: Config, t: Tape, w: World)
    requires t.candidates.Returned? ==> forall c :: c in t.candidates.value ==> Faithful(c)
    requires Cycle(cfg, t, w).0.Completed?
    ensures Tells(Cycle(cfg, t, w).1, Cycle(cfg, t, w).0.report.results, |w.trace|, cfg.interval)
  {
    var (w1, portfolio) := Preamble(cfg, t, w);
    var w2 := w1.Log(CapacityChecked(t.limit));
    assert Tells(w, [], |w.trace|, cfg.interval);
    LaterTells(w, w2.SetStalking(cfg, true), [], |w.trace|, cfg.interval);
    var w3 := w2.SetStalking(cfg, false).Log(ThrottleChecked(t.throttled));
    LaterTells(w, w3, [], |w.trace|, cfg.interval);
    if portfolio.value.value < t.limit && !t.throttled {
      LoopTells(cfg, t.candidates.value, Progress(w3, portfolio.value.value, [], false, false), |w.trace|);
    }
  }
}
