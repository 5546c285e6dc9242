/** Presentation snapshots of global discovery, fed by the LIVE cycle's reports. */
module DiscoveryTelemetry {
  import opened Prelude
  import opened LiveCycle
  import opened LiveCycleSafety
  import opened LiveCycleReports

  datatype CycleState = Idle | Waiting | Scanning | Completed | Paused

  datatype CycleOutcome = SkippedRateLimit | SkippedCapacity | Finished | CycleFailed

  datatype DiscoveryCandidate =
    DiscoveryCandidate(symbol: string, direction: SignalType, confidence: real, outcome: Option<string>)

  // Facts of a paper scan, which has no ranked batch.
  datatype Scan = Scan(scanned: Option<nat>, universeSize: Option<nat>, rankStart: Option<nat>, rankEnd: Option<nat>)

  const NO_SCAN := Scan(None, None, None, None)

  datatype Snapshot = Snapshot(
    state: CycleState,
    lastOutcome: Option<CycleOutcome>,
    sequence: nat,
    inProgress: bool,
    universeSize: Option<nat>,
    rankStart: Option<nat>,
    rankEnd: Option<nat>,
    scannedCount: Option<nat>,
    actionableCount: Option<nat>,
    stoppedByCapacity: bool,
    candidates: seq<DiscoveryCandidate>,
    nextEligible: Option<real>)

  const IDLE := Snapshot(Idle, None, 0, false, None, None, None, None, None, false, [], None)

  function Refusal(r: Report): Option<ReportError> {
    if r.skippedCapacity && r.skippedRateLimit then Some(MultipleSkipReasons)
    else if r.skippedCapacity && (r.batch.Some? || r.signals != [] || r.results != [] || r.stoppedByCapacity) then
      Some(CapacitySkipWithFacts)
    else if r.skippedRateLimit && r.stoppedByCapacity then Some(RateLimitWithCapacityStop)
    else if r.skippedRateLimit && r.batch.None? && (r.signals != [] || r.results != []) then
      Some(RateLimitFactsWithoutBatch)
    else None
  }

  // ---------------------------------------------------------------------------
  // Candidates
  // ---------------------------------------------------------------------------

  // Building the dictionary in order: a later result for a symbol wins.
  function ReasonBySymbol(results: seq<TradeResult>): map<string, string> {
    if results == [] then map[]
    else
      var last := results[|results| - 1];
      ReasonBySymbol(results[..|results| - 1])[last.decision.signal.symbol := last.reason]
  }

  function OutcomeOf(symbol: string, reasons: map<string, string>, r: Report): Option<string> {
    if symbol in reasons then Some(reasons[symbol])
    else if r.skippedRateLimit then Some(RATE_LIMIT_REASON)
    else if r.stoppedByCapacity then Some(CAPACITY_REASON)
    else None
  }

  function Describe(s: Signal, outcome: Option<string>): DiscoveryCandidate {
    DiscoveryCandidate(s.symbol, s.kind, s.confidence, outcome)
  }

  function BuildCandidates(r: Report): seq<DiscoveryCandidate> {
    if r.signals == [] then
      seq(|r.results|, i requires 0 <= i < |r.results| =>
        Describe(r.results[i].decision.signal, Some(r.results[i].reason)))
    else
      var reasons := ReasonBySymbol(r.results);
      seq(|r.signals|, i requires 0 <= i < |r.signals| =>
        Describe(r.signals[i], OutcomeOf(r.signals[i].symbol, reasons, r)))
  }

  // ---------------------------------------------------------------------------
  // Transitions
  // ---------------------------------------------------------------------------

  function Begun(s: Snapshot): Snapshot {
    s.(state := Scanning, sequence := s.sequence + 1, inProgress := true, nextEligible := None)
  }

  function OutcomeFor(r: Report): CycleOutcome {
    if r.skippedRateLimit then SkippedRateLimit else if r.skippedCapacity then SkippedCapacity else Finished
  }

  function CompletedWith(s: Snapshot, r: Report, scan: Scan): Snapshot {
    var candidates := BuildCandidates(r);
    s.(state := CycleState.Completed,
       lastOutcome := Some(OutcomeFor(r)),
       inProgress := false,
       universeSize := if r.batch.Some? then Some(r.batch.value.universeSize) else scan.universeSize,
       rankStart := if r.batch.Some? then Some(r.batch.value.rankStart) else scan.rankStart,
       rankEnd := if r.batch.Some? then Some(r.batch.value.rankEnd) else scan.rankEnd,
       scannedCount :=
         if r.batch.Some? then Some(r.batch.value.entries)
         else if scan.scanned.Some? then scan.scanned
         else if r.skippedCapacity || r.skippedRateLimit then Some(0)
         else None,
       actionableCount :=
         Some(if r.batch.Some? || scan.scanned.Some? then |r.signals| else |candidates|),
       stoppedByCapacity := r.stoppedByCapacity,
       candidates := candidates)
  }

  function FailedWith(s: Snapshot, results: seq<TradeResult>): Snapshot {
    var candidates := BuildCandidates(Report(results, None, [], false, false, false));
    s.(state := CycleState.Completed, lastOutcome := Some(CycleFailed), inProgress := false,
       universeSize := None, rankStart := None, rankEnd := None, scannedCount := None,
       actionableCount := Some(|candidates|), stoppedByCapacity := false, candidates := candidates)
  }

  function WaitingUntil(s: Snapshot, deadline: real): Snapshot {
    s.(state := Waiting, nextEligible := Some(deadline))
  }

  function PausedFrom(s: Snapshot): Snapshot {
    s.(state := Paused, inProgress := false, nextEligible := None)
  }

  class GlobalDiscoveryTelemetry {
    var snapshot: Snapshot

    constructor ()
      ensures snapshot == IDLE
    {
      snapshot := IDLE;
    }

    method BeginCycle()
      modifies this
      ensures snapshot == Begun(old(snapshot))
    {
      snapshot := snapshot.(
        state := Scanning, sequence := snapshot.sequence + 1, inProgress := true, nextEligible := None);
    }

    method CompleteCycle(r: Report, scan: Scan) returns (refused: Option<ReportError>)
      modifies this
      ensures refused == Refusal(r)
      ensures snapshot == if refused.None? then CompletedWith(old(snapshot), r, scan) else old(snapshot)
    {
      if r.skippedCapacity {
        if r.skippedRateLimit {
          return Some(MultipleSkipReasons);
        }
        if r.batch.Some? || r.signals != [] || r.results != [] || r.stoppedByCapacity {
          return Some(CapacitySkipWithFacts);
        }
      }
      if r.skippedRateLimit {
        if r.stoppedByCapacity {
          return Some(RateLimitWithCapacityStop);
        }
        if r.batch.None? && (r.signals != [] || r.results != []) {
          return Some(RateLimitFactsWithoutBatch);
        }
      }
      var candidates := BuildCandidates(r);
      var universeSize, rankStart, rankEnd, scanned := scan.universeSize, scan.rankStart, scan.rankEnd, scan.scanned;
      var actionable := |candidates|;
      if r.batch.Some? {
        var batch := r.batch.value;
        universeSize, rankStart, rankEnd := Some(batch.universeSize), Some(batch.rankStart), Some(batch.rankEnd);
        scanned := Some(batch.entries);
      } else if scanned.None? && (r.skippedCapacity || r.skippedRateLimit) {
        scanned := Some(0);
      }
      if r.batch.Some? || scan.scanned.Some? {
        actionable := |r.signals|;
      }
      snapshot := snapshot.(
        state := CycleState.Completed, lastOutcome := Some(OutcomeFor(r)), inProgress := false,
        universeSize := universeSize, rankStart := rankStart, rankEnd := rankEnd, scannedCount := scanned,
        actionableCount := Some(actionable), stoppedByCapacity := r.stoppedByCapacity, candidates := candidates);
      return None;
    }

    method FailCycle(results: seq<TradeResult>)
      modifies this
      ensures snapshot == FailedWith(old(snapshot), results)
    {
      var candidates := seq(|results|, i requires 0 <= i < |results| =>
        DiscoveryCandidate(results[i].decision.signal.symbol, results[i].decision.signal.kind,
                           results[i].decision.signal.confidence, Some(results[i].reason)));
      assert candidates == BuildCandidates(Report(results, None, [], false, false, false));
      snapshot := snapshot.(
        state := CycleState.Completed, lastOutcome := Some(CycleFailed), inProgress := false,
        universeSize := None, rankStart := None, rankEnd := None, scannedCount := None,
        actionableCount := Some(|results|), stoppedByCapacity := false, candidates := candidates);
    }

    method WaitUntil(deadline: real)
      modifies this
      ensures snapshot == WaitingUntil(old(snapshot), deadline)
    {
      snapshot := snapshot.(state := Waiting, nextEligible := Some(deadline));
    }

    method Pause()
      modifies this
      ensures snapshot == PausedFrom(old(snapshot))
    {
      snapshot := snapshot.(state := Paused, inProgress := false, nextEligible := None);
    }
  }

  // ---------------------------------------------------------------------------
  // Every signal has an outcome
  // ---------------------------------------------------------------------------

  lemma {:induction false} ReasonsCoverResults(results: seq<TradeResult>)
    ensures forall k :: 0 <= k < |results| ==> results[k].decision.signal.symbol in ReasonBySymbol(results)
  {
    if results != [] {
      ReasonsCoverResults(results[..|results| - 1]);
    }
  }

  lemma {:induction false} ReasonsAreOwn(results: seq<TradeResult>, symbol: string)
    requires symbol in ReasonBySymbol(results)
    ensures exists k :: (0 <= k < |results| && results[k].decision.signal.symbol == symbol
                         && ReasonBySymbol(results)[symbol] == results[k].reason)
  {
    var n := |results| - 1;
    if results[n].decision.signal.symbol != symbol {
      ReasonsAreOwn(results[..n], symbol);
    }
  }

  ghost predicate DistinctSymbols(signals: seq<Signal>) {
    forall i, j :: 0 <= i < j < |signals| ==> signals[i].symbol != signals[j].symbol
  }

  /** The published outcome of each discovered signal, for a report the cycle built. */
  lemma EverySignalHasAnOutcome(cfg: Config, t: Tape, w: World)
    requires t.candidates.Returned? ==> forall c :: c in t.candidates.value ==> Faithful(c)
    requires Cycle(cfg, t, w).0.Completed?
    ensures var r := Cycle(cfg, t, w).0.report; var out := BuildCandidates(r);
      && |out| == |r.signals|
      && (forall i :: 0 <= i < |out| ==> out[i].symbol == r.signals[i].symbol && out[i].outcome.Some?)
      && (DistinctSymbols(r.signals) ==>
            forall i :: 0 <= i < |out| ==> out[i].outcome == Some(
              if i < |r.results| then r.results[i].reason
              else if r.skippedRateLimit then RATE_LIMIT_REASON
              else CAPACITY_REASON))
  {
    var r := Cycle(cfg, t, w).0.report;
    ResultsAnswerSignals(cfg, t, w);
    if r.signals != [] {
      AnsweredSignalsHaveOutcomes(r);
    }
  }

  lemma AnsweredSignalsHaveOutcomes(r: Report)
    requires r.signals != [] && |r.results| <= |r.signals|
    requires forall k :: 0 <= k < |r.results| ==> r.results[k].decision.signal == r.signals[k]
    requires !r.skippedRateLimit && !r.stoppedByCapacity ==> |r.results| == |r.signals|
    ensures var out := BuildCandidates(r);
      && (forall i :: 0 <= i < |out| ==> out[i].outcome.Some?)
      && (DistinctSymbols(r.signals) ==>
            forall i :: 0 <= i < |out| ==> out[i].outcome == Some(
              if i < |r.results| then r.results[i].reason
              else if r.skippedRateLimit then RATE_LIMIT_REASON
              else CAPACITY_REASON))
  {
    var out, reasons := BuildCandidates(r), ReasonBySymbol(r.results);
    ReasonsCoverResults(r.results);
    forall i | 0 <= i < |out|
      ensures out[i].outcome.Some?
      ensures DistinctSymbols(r.signals) ==> out[i].outcome == Some(
        if i < |r.results| then r.results[i].reason
        else if r.skippedRateLimit then RATE_LIMIT_REASON
        else CAPACITY_REASON)
    {
      var symbol := r.signals[i].symbol;
      if i < |r.results| {
        assert r.results[i].decision.signal.symbol == symbol;
      }
      if symbol in reasons {
        ReasonsAreOwn(r.results, symbol);
        var k :| 0 <= k < |r.results| && r.results[k].decision.signal.symbol == symbol
          && reasons[symbol] == r.results[k].reason;
        assert DistinctSymbols(r.signals) ==> k == i;
      }
    }
  }

  /** No report of the cycle is rejected, so no round is left half recorded. */
  lemma CycleReportsAreAccepted(cfg: Config, t: Tape, w: World)
    requires Cycle(cfg, t, w).0.Completed?
    ensures Refusal(Cycle(cfg, t, w).0.report) == None
  {
    ReportsAreConsistent(cfg, t, w);
  }

  // ---------------------------------------------------------------------------
  // What is published
  // ---------------------------------------------------------------------------

  // Some throttle check from the given event on answered yes.
  ghost predicate Throttled(trace: seq<Event>, from: nat) {
    exists i :: from <= i < |trace| && trace[i] == ThrottleChecked(true)
  }

  lemma ProcessThrottles(cfg: Config, c: Candidate, p: Progress)
    requires !p.skippedRateLimit
    ensures var next := Process(cfg, c, p).0;
      && p.world.trace <= next.world.trace
      && (next.skippedRateLimit <==> Throttled(next.world.trace, |p.world.trace|))
  {
    ProcessAppends(cfg, c, p);
    if Submits(cfg, c, p) {
      SubmissionDoesNotThrottle(cfg, c, p);
    } else {
      RefusalThrottles(cfg, c, p);
    }
  }

  lemma SubmissionDoesNotThrottle(cfg: Config, c: Candidate, p: Progress)
    requires !p.skippedRateLimit && Submits(cfg, c, p)
    ensures var next := Process(cfg, c, p).0;
      !next.skippedRateLimit && !Throttled(next.world.trace, |p.world.trace|)
  {
    var next, running := Process(cfg, c, p).0, p.(world := Entering(cfg, c, p));
    var n := |p.world.trace|;
    SubmissionExecutes(cfg, c, p);
    ExecuteDoesNotThrottle(cfg, c, running);
    assert forall i :: n <= i < n + 6 ==> next.world.trace[i] == running.world.trace[i];
  }

  lemma RefusalThrottles(cfg: Config, c: Candidate, p: Progress)
    requires !p.skippedRateLimit && !Submits(cfg, c, p)
    ensures var next := Process(cfg, c, p).0;
      next.skippedRateLimit <==> Throttled(next.world.trace, |p.world.trace|)
  {
    var next, n := Process(cfg, c, p).0, |p.world.trace|;
    if p.portfolio < c.limitBefore {
      assert next.world.trace[n + 1] == ThrottleChecked(c.throttledBefore);
      if ReachesClaim(cfg, c, p) {
        ClaimedThrottles(cfg, c, p.(world := Claiming(cfg, c, p)));
        assert forall i :: n <= i < n + 3 ==> next.world.trace[i] == Claiming(cfg, c, p).trace[i];
      }
    }
  }

  // The candidate is claimed anew and goes on to risk evaluation.
  predicate ReachesClaim(cfg: Config, c: Candidate, p: Progress) {
    && p.portfolio < c.limitBefore && !c.throttledBefore && !c.claimRaises && Actionable(c.signal)
    && KeyOf(c.signal, cfg.interval) !in p.world.claims
  }

  function Claiming(cfg: Config, c: Candidate, p: Progress): World {
    p.world.Log(CapacityChecked(c.limitBefore)).Log(ThrottleChecked(false)).Claim(KeyOf(c.signal, cfg.interval))
  }

  lemma ClaimedThrottles(cfg: Config, c: Candidate, p: Progress)
    requires !p.skippedRateLimit
    requires c.evaluation.Returned? && Authorize(cfg, c.evaluation.value) == Returned(Authorized) ==> c.throttledAfter
    ensures var next := ProcessClaimed(cfg, c, p).0;
      && p.world.trace <= next.world.trace
      && (next.skippedRateLimit <==> Throttled(next.world.trace, |p.world.trace|))
  {
    var next, n := ProcessClaimed(cfg, c, p).0, |p.world.trace|;
    if next.skippedRateLimit {
      assert next.world.trace[n + 1] == ThrottleChecked(true);
    }
  }

  lemma ExecuteDoesNotThrottle(cfg: Config, c: Candidate, p: Progress)
    ensures var next := Execute(cfg, c, p).0;
      && p.world.trace <= next.world.trace
      && next.skippedRateLimit == p.skippedRateLimit
      && !Throttled(next.world.trace, |p.world.trace|)
  {
    if c.execution.Returned? && ToTradeResult(c.execution.value).Returned? {
      AdoptionDoesNotThrottle(cfg, c, p.(results := p.results + [ToTradeResult(c.execution.value).value]));
    }
  }

  lemma AdoptionDoesNotThrottle(cfg: Config, c: Candidate, p: Progress)
    ensures var next := Adopt(cfg, c, p).0;
      && p.world.trace <= next.world.trace
      && next.skippedRateLimit == p.skippedRateLimit
      && !Throttled(next.world.trace, |p.world.trace|)
  {
  }

  lemma {:induction false} LoopThrottles(cfg: Config, cs: seq<Candidate>, p: Progress)
    requires !p.skippedRateLimit
    ensures var q := Loop(cfg, cs, p).0;
      && p.world.trace <= q.world.trace
      && (q.skippedRateLimit <==> Throttled(q.world.trace, |p.world.trace|))
    decreases |cs|
  {
    if cs != [] {
      ProcessThrottles(cfg, cs[0], p);
      var (next, v) := Process(cfg, cs[0], p);
      if v.Continue? {
        ContinuingIsNotThrottled(cfg, cs[0], p);
        LoopThrottles(cfg, cs[1..], next);
        var q := Loop(cfg, cs[1..], next).0;
        assert forall i :: |p.world.trace| <= i < |next.world.trace| ==> q.world.trace[i] == next.world.trace[i];
      }
    }
  }

  lemma ContinuingIsNotThrottled(cfg: Config, c: Candidate, p: Progress)
    requires !p.skippedRateLimit && Process(cfg, c, p).1.Continue?
    ensures !Process(cfg, c, p).0.skippedRateLimit
  {
  }

  /**
   What a completed cycle publishes. The outcome says how far it went: skipped for
   capacity exactly when the portfolio was full before discovery, rate limited exactly
   when one of its throttle checks answered yes, and finished otherwise. Discovery
   publishes what it scanned and one candidate per signal; without it both are empty.
   */
  lemma PublishesWhatHappened(cfg: Config, t: Tape, w: World, before: Snapshot)
    requires Cycle(cfg, t, w).0.Completed?
    ensures var r := Cycle(cfg, t, w).0.report;
      var p := CompletedWith(before, r, NO_SCAN);
      var full := Preamble(cfg, t, w).1.value.value >= t.limit;
      var discovered := !full && !t.throttled;
      && Refusal(r) == None
      && (p.lastOutcome == Some(SkippedCapacity) <==> full)
      && (p.lastOutcome == Some(SkippedRateLimit) <==> Throttled(Cycle(cfg, t, w).1.trace, |w.trace|))
      && p.scannedCount == Some(if discovered then t.batch.value.entries else 0)
      && p.actionableCount == Some(|p.candidates|)
      && |p.candidates| == (if discovered then |t.candidates.value| else 0)
  {
    ReportsAreConsistent(cfg, t, w);
    CycleThrottles(cfg, t, w);
    CycleReportShape(cfg, t, w);
  }

  lemma CycleReportShape(cfg: Config, t: Tape, w: World)
    requires Cycle(cfg, t, w).0.Completed?
    ensures var r := Cycle(cfg, t, w).0.report;
      var full := Preamble(cfg, t, w).1.value.value >= t.limit;
      && (r.skippedCapacity <==> full)
      && (if !full && !t.throttled then
            && r.batch == Some(t.batch.value) && |r.signals| == |t.candidates.value|
            && (r.signals == [] ==> r.results == [])
          else
            r.batch == None && r.signals == [] && r.results == [] && (r.skippedCapacity || r.skippedRateLimit))
  {
  }

  lemma CycleThrottles(cfg: Config, t: Tape, w: World)
    requires Cycle(cfg, t, w).0.Completed?
    ensures Cycle(cfg, t, w).0.report.skippedRateLimit <==> Throttled(Cycle(cfg, t, w).1.trace, |w.trace|)
  {
    var (w1, portfolio) := Preamble(cfg, t, w);
    if portfolio.value.value < t.limit {
      OpeningThrottles(cfg, t, w);
      if !t.throttled {
        var scanning := Opened(cfg, t, w1);
        LoopThrottles(cfg, t.candidates.value, Progress(scanning, portfolio.value.value, [], false, false));
        LaterThrottles(scanning.trace, Cycle(cfg, t, w).1.trace, |w.trace|);
      }
    }
  }

  lemma OpeningThrottles(cfg: Config, t: Tape, w: World)
    ensures var scanning := Opened(cfg, t, Preamble(cfg, t, w).0);
      && |w.trace| <= |scanning.trace|
      && (Throttled(scanning.trace, |w.trace|) <==> t.throttled)
  {
    var scanning := Opened(cfg, t, Preamble(cfg, t, w).0);
    assert scanning.trace[|scanning.trace| - 1] == ThrottleChecked(t.throttled);
  }

  lemma LaterThrottles(early: seq<Event>, late: seq<Event>, from: nat)
    requires early <= late && from <= |early| && !Throttled(early, from)
    ensures Throttled(late, from) <==> Throttled(late, |early|)
  {
    assert forall i :: from <= i < |early| ==> late[i] == early[i];
  }

  // ---------------------------------------------------------------------------
  // Rounds of the runner
  // ---------------------------------------------------------------------------

  // What the runner does after a cycle that did not complete.
  datatype Aftermath = Aftermath(
    // Operational recovery of an unsafe cycle succeeded.
    recovered: bool,
    // The failure was a connectivity outage that unattended recovery handles.
    outage: bool,
    deadline: real)

  datatype Round =
    | LockRefused                                       // another owner holds the runtime
    | Ran(tape: Tape, after: Aftermath)
    | HealthOutage(rescheduled: Option<real>)           // unsafe health found before a cycle
    | HealthUnhandled                                   // the same, without a recovery to call for

  function Ended(s: Snapshot, outcome: Outcome, after: Aftermath): Snapshot {
    match outcome
    case Completed(r) => WaitingUntil(if Refusal(r).None? then CompletedWith(s, r, NO_SCAN) else s, after.deadline)
    case Unsafe(completed) =>
      var paused := PausedFrom(FailedWith(s, completed));
      if after.recovered then WaitingUntil(paused, after.deadline) else paused
    case Failed =>
      var failed := FailedWith(s, []);
      if after.outage then PausedFrom(failed) else failed
  }

  function Rounds(cfg: Config, rounds: seq<Round>, w: World): (Snapshot, World) {
    if rounds == [] then (IDLE, w)
    else
      var n := |rounds| - 1;
      var (s, before) := Rounds(cfg, rounds[..n], w);
      match rounds[n]
      case LockRefused => (Begun(s), before)
      case Ran(tape, after) =>
        var (outcome, next) := Cycle(cfg, tape, before);
        (Ended(Begun(s), outcome, after), next)
      case HealthOutage(rescheduled) =>
        (if rescheduled.Some? then WaitingUntil(PausedFrom(s), rescheduled.value) else PausedFrom(s), before)
      case HealthUnhandled => (s, before)
  }

  // The state each way of ending a round leaves behind.
  function StateAfter(r: Round, outcome: Outcome, before: CycleState): CycleState {
    match r
    case LockRefused => Scanning
    case HealthOutage(rescheduled) => if rescheduled.Some? then Waiting else Paused
    case HealthUnhandled => before
    case Ran(_, after) =>
      match outcome
      case Completed(_) => Waiting
      case Unsafe(_) => if after.recovered then Waiting else Paused
      case Failed => if after.outage then Paused else CycleState.Completed
  }

  function Starts(rounds: seq<Round>): nat {
    if rounds == [] then 0
    else
      var last := rounds[|rounds| - 1];
      Starts(rounds[..|rounds| - 1]) + (if last.LockRefused? || last.Ran? then 1 else 0)
  }

  /**
   After any rounds: the snapshot has counted every start; a deadline is published
   exactly while waiting; a scan is shown in progress exactly while scanning, which is
   what a round refused the cycle lock leaves behind; and the state says how the last
   round ended, unless there was no recovery to call, which leaves everything as it was.
   A round that ran leaves an outcome behind.
   */
  lemma {:induction false} RoundsSayHowTheyEnded(cfg: Config, rounds: seq<Round>, w: World)
    ensures var s := Rounds(cfg, rounds, w).0;
      && s.sequence == Starts(rounds)
      && (s.nextEligible.Some? <==> s.state.Waiting?)
      && (s.inProgress <==> s.state.Scanning?)
    ensures rounds != [] ==>
      var s, last, n := Rounds(cfg, rounds, w).0, rounds[|rounds| - 1], |rounds| - 1;
      var outcome := if last.Ran? then Cycle(cfg, last.tape, Rounds(cfg, rounds[..n], w).1).0 else Failed;
      && s.state == StateAfter(last, outcome, Rounds(cfg, rounds[..n], w).0.state)
      && (last.HealthUnhandled? ==> s == Rounds(cfg, rounds[..n], w).0)
      && (last.Ran? ==> s.lastOutcome.Some? && (s.lastOutcome.value.CycleFailed? <==> !outcome.Completed?))
  {
    if rounds != [] {
      var n := |rounds| - 1;
      RoundsSayHowTheyEnded(cfg, rounds[..n], w);
      if rounds[n].Ran? {
        var before := Rounds(cfg, rounds[..n], w).1;
        if Cycle(cfg, rounds[n].tape, before).0.Completed? {
          CycleReportsAreAccepted(cfg, rounds[n].tape, before);
        }
      }
    }
  }

  // ---------------------------------------------------------------------------
  // What the terminal shows after a round
  // ---------------------------------------------------------------------------

  // The candidate shows the signal, with the outcome.
  predicate Shows(c: DiscoveryCandidate, s: Signal, outcome: string) {
    c.symbol == s.symbol && c.direction == s.kind && c.confidence == s.confidence && c.outcome == Some(outcome)
  }

  predicate ShowsSignal(c: DiscoveryCandidate, s: Signal) {
    c.symbol == s.symbol && c.direction == s.kind && c.confidence == s.confidence && c.outcome.Some?
  }

  // The reason of the signal's own result, or why the cycle stopped before it.
  function OwnOutcome(r: Report, i: nat): string {
    if i < |r.results| then r.results[i].reason
    else if r.skippedRateLimit then "skipped_rate_limit"
    else "skipped_capacity"
  }

  /**
   The snapshot after a completed cycle: one candidate per discovered signal, in order, with
   the signal's symbol, direction and confidence and with an outcome, its own when symbols
   are distinct; the batch's ranks and sizes; and the deadline of the next cycle.
   */
  lemma CompletedCycleShows(cfg: Config, t: Tape, w: World, before: Snapshot, after: Aftermath)
    requires t.candidates.Returned? ==> forall c :: c in t.candidates.value ==> Faithful(c)
    requires Cycle(cfg, t, w).0.Completed?
    ensures var r := Cycle(cfg, t, w).0.report; var s := Ended(before, Cycle(cfg, t, w).0, after);
      && |s.candidates| == |r.signals|
      && (forall i :: 0 <= i < |r.signals| ==> ShowsSignal(s.candidates[i], r.signals[i]))
      && (DistinctSymbols(r.signals) ==>
            forall i :: 0 <= i < |r.signals| ==> Shows(s.candidates[i], r.signals[i], OwnOutcome(r, i)))
      && ShowsBatch(s, r) && s.stoppedByCapacity == r.stoppedByCapacity && s.sequence == before.sequence
      && s.state == Waiting && s.nextEligible == Some(after.deadline) && !s.inProgress
  {
    var r := Cycle(cfg, t, w).0.report;
    EverySignalHasAnOutcome(cfg, t, w);
    CycleReportsAreAccepted(cfg, t, w);
    CycleReportShape(cfg, t, w);
    if r.signals != [] {
      CandidatesShowSignals(r);
    }
  }

  predicate ShowsBatch(s: Snapshot, r: Report) {
    match r.batch
    case None => s.universeSize == None && s.rankStart == None && s.rankEnd == None
    case Some(b) =>
      s.universeSize == Some(b.universeSize) && s.rankStart == Some(b.rankStart) && s.rankEnd == Some(b.rankEnd)
  }

  lemma CandidatesShowSignals(r: Report)
    requires r.signals != []
    ensures var out := BuildCandidates(r);
      && |out| == |r.signals|
      && forall i :: 0 <= i < |out| ==>
           out[i].symbol == r.signals[i].symbol && out[i].direction == r.signals[i].kind
           && out[i].confidence == r.signals[i].confidence
  {
  }

  /** What the completed cycle discovered is what the tape's candidates and batch say. */
  lemma CompletedCycleReportsDiscovery(cfg: Config, t: Tape, w: World)
    requires Cycle(cfg, t, w).0.Completed?
    ensures var r := Cycle(cfg, t, w).0.report; var full := Preamble(cfg, t, w).1.value.value >= t.limit;
      if full || t.throttled then r.batch == None && r.signals == []
      else
        && r.batch == Some(t.batch.value) && |r.signals| == |t.candidates.value|
        && forall i :: 0 <= i < |r.signals| ==> r.signals[i] == t.candidates.value[i].signal
  {
  }

  /** The snapshot after an aborted cycle lists exactly the results handed on with the abort. */
  lemma AbortedCycleShows(before: Snapshot, completed: seq<TradeResult>, after: Aftermath)
    ensures var s := Ended(before, Unsafe(completed), after);
      && |s.candidates| == |completed| && s.actionableCount == Some(|completed|)
      && (forall i :: 0 <= i < |completed| ==>
            Shows(s.candidates[i], completed[i].decision.signal, completed[i].reason))
      && s.lastOutcome == Some(CycleFailed) && !s.stoppedByCapacity && !s.inProgress
      && s.universeSize == None && s.rankStart == None && s.rankEnd == None && s.scannedCount == None
      && (if after.recovered then s.state == Waiting && s.nextEligible == Some(after.deadline)
          else s.state == Paused && s.nextEligible == None)
  {
  }

  /** A cycle that raised shows nothing but that it failed. */
  lemma FailedCycleShows(before: Snapshot, after: Aftermath)
    ensures var s := Ended(before, Failed, after);
      && s.candidates == [] && s.actionableCount == Some(0) && s.lastOutcome == Some(CycleFailed) && !s.inProgress
      && s.universeSize == None && s.scannedCount == None
      && s.state == (if after.outage then Paused else CycleState.Completed)
  {
  }
}
