/**
 What becomes of each candidate of a LIVE cycle, read off the answers on the tape:
 who is executed, who is refused and what the result then says.
 */
module LiveCycleOutcomes {
  import opened Prelude
  import opened LiveCycle
  import opened LiveCycleSafety

  // ---------------------------------------------------------------------------
  // The answers that decide
  // ---------------------------------------------------------------------------

  predicate Enterable(s: Signal) {
    s.kind == Buy || s.kind == Sell
  }

  function Opportunity(cfg: Config, s: Signal): ClaimKey {
    ClaimKey(s.symbol, cfg.interval, s.strategy, s.generatedAt)
  }

  // The candidate gets as far as a claim of its own.
  predicate ClaimsAnew(cfg: Config, c: Candidate, p: Progress) {
    && p.portfolio < c.limitBefore && !c.throttledBefore && !c.claimRaises && Enterable(c.signal)
    && Opportunity(cfg, c.signal) !in p.world.claims
  }

  predicate RiskApproved(d: Decision) {
    d.shouldExecute && d.riskApproved == Some(true)
  }

  // The decision is approved, the executor may enter, and an intent can be built from it.
  predicate Approved(cfg: Config, d: Decision) {
    RiskApproved(d) && cfg.capable && Enterable(d.signal) && d.signal.strategy == cfg.strategy
  }

  predicate Entered(cfg: Config, c: Candidate, p: Progress) {
    ClaimsAnew(cfg, c, p) && c.evaluation.Returned? && Approved(cfg, c.evaluation.value) && !c.throttledAfter
  }

  function Refused(d: Decision, why: string): TradeResult {
    TradeResult(false, Decision(false, d.signal, d.riskApproved, why), None, why)
  }

  // ---------------------------------------------------------------------------
  // Executions
  // ---------------------------------------------------------------------------

  lemma EnteredIsSubmitted(cfg: Config, c: Candidate, p: Progress)
    ensures Entered(cfg, c, p) <==> Submits(cfg, c, p)
  {
  }

  ghost predicate RanIn(trace: seq<Event>, from: nat) {
    exists i :: from <= i < |trace| && trace[i].Executed?
  }

  lemma SubmissionRuns(cfg: Config, c: Candidate, p: Progress)
    requires Submits(cfg, c, p)
    ensures var trace := Process(cfg, c, p).0.world.trace; var at := |p.world.trace| + 5;
      && at < |trace| && trace[at] == Executed(Opportunity(cfg, c.evaluation.value.signal))
      && forall i :: |p.world.trace| <= i < |trace| && trace[i].Executed? ==> i == at
  {
    var running := p.(world := Entering(cfg, c, p));
    SubmissionExecutes(cfg, c, p);
    ExecuteOnlyAppends(cfg, c, running);
    var trace := Process(cfg, c, p).0.world.trace;
    assert forall i :: |p.world.trace| <= i < |running.world.trace| ==> trace[i] == running.world.trace[i];
  }

  lemma ClaimedRefusalRunsNothing(cfg: Config, c: Candidate, p: Progress)
    requires c.evaluation.Returned? && Authorize(cfg, c.evaluation.value) == Returned(Authorized) ==> c.throttledAfter
    ensures var trace := ProcessClaimed(cfg, c, p).0.world.trace;
      p.world.trace <= trace && !RanIn(trace, |p.world.trace|)
  {
  }

  lemma RefusalRunsNothing(cfg: Config, c: Candidate, p: Progress)
    requires !Submits(cfg, c, p)
    ensures !RanIn(Process(cfg, c, p).0.world.trace, |p.world.trace|)
  {
    if ClaimsAnew(cfg, c, p) {
      var claimed := p.(world := ClaimedWorld(cfg, c, p));
      ClaimedRefusalRunsNothing(cfg, c, claimed);
      var trace := Process(cfg, c, p).0.world.trace;
      assert forall i :: |p.world.trace| <= i < |claimed.world.trace| ==> trace[i] == claimed.world.trace[i];
    }
  }

  // The world in which a new claim is evaluated.
  function ClaimedWorld(cfg: Config, c: Candidate, p: Progress): World {
    p.world.Log(CapacityChecked(c.limitBefore)).Log(ThrottleChecked(false)).Claim(KeyOf(c.signal, cfg.interval))
  }

  /**
   A candidate is executed if and only if it is newly claimed, its evaluation approves it
   for execution, the executor is authorized, and it is not throttled; and what is executed
   is the evaluated signal.
   */
  lemma RunsExactlyWhenApproved(cfg: Config, c: Candidate, p: Progress)
    ensures var trace := Process(cfg, c, p).0.world.trace;
      && (RanIn(trace, |p.world.trace|) <==> Entered(cfg, c, p))
      && (Entered(cfg, c, p) ==>
            forall i :: |p.world.trace| <= i < |trace| && trace[i].Executed? ==>
              trace[i] == Executed(Opportunity(cfg, c.evaluation.value.signal)))
  {
    EnteredIsSubmitted(cfg, c, p);
    if Submits(cfg, c, p) {
      SubmissionRuns(cfg, c, p);
    } else {
      RefusalRunsNothing(cfg, c, p);
    }
  }

  // Some candidate's evaluation approved exactly this execution.
  ghost predicate ApprovedBy(cfg: Config, cs: seq<Candidate>, key: ClaimKey) {
    exists c :: c in cs && ApprovesKey(cfg, c, key)
  }

  predicate ApprovesKey(cfg: Config, c: Candidate, key: ClaimKey) {
    c.evaluation.Returned? &&
    var d := c.evaluation.value;
    && d.shouldExecute && d.riskApproved == Some(true) && cfg.capable
    && key == ClaimKey(d.signal.symbol, cfg.interval, d.signal.strategy, d.signal.generatedAt)
  }

  lemma {:induction false} LoopRunsApproved(cfg: Config, cs: seq<Candidate>, p: Progress)
    ensures var trace := Loop(cfg, cs, p).0.world.trace;
      && p.world.trace <= trace
      && forall i :: |p.world.trace| <= i < |trace| && trace[i].Executed? ==> ApprovedBy(cfg, cs, trace[i].key)
    decreases |cs|
  {
    if cs != [] {
      var (next, v) := Process(cfg, cs[0], p);
      var trace := Loop(cfg, cs, p).0.world.trace;
      ProcessFailsLast(cfg, cs[0], p);
      RunsExactlyWhenApproved(cfg, cs[0], p);
      if v.Continue? {
        LoopRunsApproved(cfg, cs[1..], next);
      }
      forall i | |p.world.trace| <= i < |trace| && trace[i].Executed?
        ensures ApprovedBy(cfg, cs, trace[i].key)
      {
        if i < |next.world.trace| {
          assert trace[i] == next.world.trace[i];
          assert cs[0] in cs && ApprovesKey(cfg, cs[0], trace[i].key);
        } else {
          var c :| c in cs[1..] && ApprovesKey(cfg, c, trace[i].key);
          assert c in cs;
        }
      }
    }
  }

  /**
   Whatever the environment answers, everything a cycle executes was approved: by the
   evaluation of one of its candidates, on an authorized executor.
   */
  lemma ExecutionsAreApproved(cfg: Config, t: Tape, w: World, i: nat)
    requires |w.trace| <= i < |Cycle(cfg, t, w).1.trace| && Cycle(cfg, t, w).1.trace[i].Executed?
    ensures t.candidates.Returned? && ApprovedBy(cfg, t.candidates.value, Cycle(cfg, t, w).1.trace[i].key)
  {
    ExecutionsFollowDiscovery(cfg, t, w, i);
    var (w1, portfolio) := Preamble(cfg, t, w);
    if portfolio.value.value < t.limit && !t.throttled && t.batch.Returned? && t.candidates.Returned? {
      var w3 := w1.Log(CapacityChecked(t.limit)).SetStalking(cfg, false).Log(ThrottleChecked(false));
      LoopRunsApproved(cfg, t.candidates.value, Progress(w3, portfolio.value.value, [], false, false));
    }
  }

  // ---------------------------------------------------------------------------
  // Refusals
  // ---------------------------------------------------------------------------

  /**
   A newly claimed candidate that is not executed says why: its evaluation did not approve
   it, the executor is not authorized, or the rate limit came in between. The first two
   leave the cycle going on; the last ends it.
   */
  lemma RefusalsSayWhy(cfg: Config, c: Candidate, p: Progress)
    requires ClaimsAnew(cfg, c, p) && c.evaluation.Returned?
    ensures var d := c.evaluation.value; var (next, v) := Process(cfg, c, p);
      && (!RiskApproved(d) ==> v == Continue && next.results == p.results + [Refused(d, "risk_rejected")])
      && (RiskApproved(d) && !cfg.capable ==>
            v == Continue && next.results == p.results + [Refused(d, "authorization_required")])
      && (Approved(cfg, d) && c.throttledAfter ==>
            v == Stop && next.results == p.results + [Refused(d, "skipped_rate_limit")] && next.skippedRateLimit)
      && (RiskApproved(d) && cfg.capable && !Approved(cfg, d) ==> v == Error && next.results == p.results)
  {
    assert Process(cfg, c, p) == ProcessClaimed(cfg, c, p.(world := ClaimedWorld(cfg, c, p)));
  }

  // Nothing is claimed anew.
  lemma UnclaimedSayWhy(cfg: Config, c: Candidate, p: Progress)
    requires !ClaimsAnew(cfg, c, p)
    ensures var (next, v) := Process(cfg, c, p);
      if p.portfolio >= c.limitBefore then v == Stop && next.results == p.results && next.stoppedByCapacity
      else if c.throttledBefore then v == Stop && next.results == p.results && next.skippedRateLimit
      else if c.claimRaises || !Enterable(c.signal) then v == Error && next.results == p.results
      else v == Continue && |next.results| == |p.results| + 1 && next.results[..|p.results|] == p.results
           && Replayed(next.results[|p.results|], c.signal)
  {
  }

  predicate Replayed(r: TradeResult, s: Signal) {
    && !r.executed && r.order == None && r.reason == "closed_candle_opportunity_already_claimed"
    && r.decision == Decision(false, s, None, "closed_candle_opportunity_already_claimed")
  }

  // ---------------------------------------------------------------------------
  // What an execution comes to
  // ---------------------------------------------------------------------------

  predicate ReportsExecution(r: TradeResult, e: Execution) {
    e.decision.Some? &&
    if e.status == ExecutedAndProtected then
      r.executed && r.decision == e.decision.value && r.order == e.order && r.reason == "executed_and_protected"
    else
      && !r.executed && r.order == None && !r.decision.shouldExecute && r.decision.reason == r.reason
      && r.decision.signal == e.decision.value.signal && r.decision.riskApproved == e.decision.value.riskApproved
      && r.reason == ExecutionReason(e.status)
  }

  /**
   An executed candidate reports how it went. A protected entry is adopted, and the cycle
   goes on with the portfolio then read, as long as it has room; a blocked or unsafe
   submission aborts the cycle; every other refusal leaves it going on as it was.
   */
  lemma ExecutionsReportHowTheyWent(cfg: Config, c: Candidate, p: Progress)
    requires Entered(cfg, c, p) && c.execution.Returned?
    ensures var e := c.execution.value; var (next, v) := Process(cfg, c, p);
      if e.decision.None? then v == Error && next.results == p.results
      else
        && |next.results| == |p.results| + 1 && next.results[..|p.results|] == p.results
        && ReportsExecution(next.results[|p.results|], e)
        && next.skippedRateLimit == p.skippedRateLimit
        && Continues(c, p, next, v)
  {
    EnteredIsSubmitted(cfg, c, p);
    SubmissionExecutes(cfg, c, p);
  }

  predicate Continues(c: Candidate, p: Progress, next: Progress, v: Verdict)
    requires c.execution.Returned?
  {
    var status := c.execution.value.status;
    if status == ExecutedAndProtected then
      match c.portfolioAfter
      case Raised => v == Error
      case Returned(None) => v == NotAdopted
      case Returned(Some(after)) =>
        && next.portfolio == after
        && v == (if after >= c.limitAfter then Stop else Continue)
        && next.stoppedByCapacity == (p.stoppedByCapacity || after >= c.limitAfter)
    else
      && next.portfolio == p.portfolio && next.stoppedByCapacity == p.stoppedByCapacity
      && v == (if status == SubmissionBlocked || status == ExecutionUnsafe then EntryUnsafe else Continue)
  }

  // ---------------------------------------------------------------------------
  // Setups
  // ---------------------------------------------------------------------------

  ghost predicate InvalidatedIn(trace: seq<Event>, from: nat, symbol: string) {
    exists i :: from <= i < |trace| && trace[i] == SetupInvalidated(symbol)
  }

  // The candidate was evaluated and came to a result that is not a protected entry.
  predicate TurnedDown(cfg: Config, c: Candidate, p: Progress) {
    ClaimsAnew(cfg, c, p) && DecidedAgainst(cfg, c)
  }

  // The same, for a claim that has been made.
  predicate DecidedAgainst(cfg: Config, c: Candidate) {
    c.evaluation.Returned? &&
    var d := c.evaluation.value;
    || !RiskApproved(d) || !cfg.capable
    || (Approved(cfg, d) && c.throttledAfter)
    || (Approved(cfg, d) && c.execution.Returned? && c.execution.value.decision.Some?
        && c.execution.value.status != ExecutedAndProtected)
  }

  lemma ExecutionInvalidates(cfg: Config, c: Candidate, p: Progress)
    requires cfg.hasStalking
    ensures var trace := Execute(cfg, c, p).0.world.trace;
      && p.world.trace <= trace
      && (InvalidatedIn(trace, |p.world.trace|, c.signal.symbol) <==>
            && c.execution.Returned? && c.execution.value.decision.Some?
            && c.execution.value.status != ExecutedAndProtected)
  {
    var trace := Execute(cfg, c, p).0.world.trace;
    if c.execution.Returned? && c.execution.value.decision.Some? && c.execution.value.status != ExecutedAndProtected {
      assert trace[|trace| - 1] == SetupInvalidated(c.signal.symbol);
    }
  }

  lemma RanInvalidates(cfg: Config, c: Candidate, p: Progress)
    requires cfg.hasStalking && c.evaluation.Returned? && Approved(cfg, c.evaluation.value) && !c.throttledAfter
    ensures var trace := ProcessClaimed(cfg, c, p).0.world.trace;
      && p.world.trace <= trace
      && (InvalidatedIn(trace, |p.world.trace|, c.signal.symbol) <==> DecidedAgainst(cfg, c))
  {
    var n := |p.world.trace|;
    var ran := p.world.Log(IntentDecided(Authorized)).Log(ThrottleChecked(false))
      .Log(Executed(KeyOf(c.evaluation.value.signal, cfg.interval)));
    ExecutionInvalidates(cfg, c, p.(world := ran));
    assert ProcessClaimed(cfg, c, p) == Execute(cfg, c, p.(world := ran));
    assert forall i :: n <= i < n + 3 ==> ran.trace[i] != SetupInvalidated(c.signal.symbol);
    LaterInvalidation(p.world.trace, ran.trace, ProcessClaimed(cfg, c, p).0.world.trace, c.signal.symbol);
  }

  lemma LaterInvalidation(early: seq<Event>, middle: seq<Event>, late: seq<Event>, symbol: string)
    requires early <= middle <= late && !InvalidatedIn(middle, |early|, symbol)
    ensures InvalidatedIn(late, |early|, symbol) <==> InvalidatedIn(late, |middle|, symbol)
  {
    assert forall i :: |early| <= i < |middle| ==> late[i] == middle[i];
  }

  lemma ClaimedInvalidates(cfg: Config, c: Candidate, p: Progress)
    requires cfg.hasStalking
    ensures var trace := ProcessClaimed(cfg, c, p).0.world.trace;
      && p.world.trace <= trace
      && (InvalidatedIn(trace, |p.world.trace|, c.signal.symbol) <==> DecidedAgainst(cfg, c))
  {
    if c.evaluation.Returned? && Approved(cfg, c.evaluation.value) && !c.throttledAfter {
      RanInvalidates(cfg, c, p);
    } else {
      RefusedInvalidates(cfg, c, p);
    }
  }

  lemma RefusedInvalidates(cfg: Config, c: Candidate, p: Progress)
    requires cfg.hasStalking
    requires !(c.evaluation.Returned? && Approved(cfg, c.evaluation.value) && !c.throttledAfter)
    ensures var trace := ProcessClaimed(cfg, c, p).0.world.trace;
      && p.world.trace <= trace
      && (InvalidatedIn(trace, |p.world.trace|, c.signal.symbol) <==> DecidedAgainst(cfg, c))
  {
    var trace := ProcessClaimed(cfg, c, p).0.world.trace;
    if DecidedAgainst(cfg, c) {
      assert trace[|trace| - 1] == SetupInvalidated(c.signal.symbol);
    }
  }

  /** A setup is dropped exactly when its newly claimed candidate was turned down. */
  lemma SetupsAreDroppedExactlyWhenTurnedDown(cfg: Config, c: Candidate, p: Progress)
    requires cfg.hasStalking
    ensures InvalidatedIn(Process(cfg, c, p).0.world.trace, |p.world.trace|, c.signal.symbol) <==> TurnedDown(cfg, c, p)
  {
    if ClaimsAnew(cfg, c, p) {
      var claimed := p.(world := ClaimedWorld(cfg, c, p));
      ClaimedInvalidates(cfg, c, claimed);
      var trace := Process(cfg, c, p).0.world.trace;
      assert forall i :: |p.world.trace| <= i < |claimed.world.trace| ==> trace[i] == claimed.world.trace[i];
    }
  }

  // ---------------------------------------------------------------------------
  // The stalking flag
  // ---------------------------------------------------------------------------

  // What the stalking service was last told.
  function LastTold(trace: seq<Event>, initial: bool): bool {
    if trace == [] then initial
    else
      var e := trace[|trace| - 1];
      if e.StalkingPaused? then e.paused else LastTold(trace[..|trace| - 1], initial)
  }

  ghost predicate Told(w: World, initial: bool) {
    w.stalkingPaused == LastTold(w.trace, initial)
  }

  lemma LogTells(w: World, e: Event, initial: bool)
    requires Told(w, initial) && !e.StalkingPaused?
    ensures Told(w.Log(e), initial)
  {
    assert (w.trace + [e])[..|w.trace|] == w.trace;
  }

  lemma PausingTells(cfg: Config, w: World, paused: bool, initial: bool)
    requires Told(w, initial)
    ensures Told(w.SetStalking(cfg, paused), initial)
  {
    assert (w.trace + [StalkingPaused(paused)])[..|w.trace|] == w.trace;
  }

  lemma InvalidatingTells(cfg: Config, w: World, symbol: string, initial: bool)
    requires Told(w, initial)
    ensures Told(w.Invalidate(cfg, symbol), initial)
  {
    LogTells(w, SetupInvalidated(symbol), initial);
  }

  lemma ExecutionTells(cfg: Config, c: Candidate, p: Progress, initial: bool)
    requires Told(p.world, initial)
    ensures Told(Execute(cfg, c, p).0.world, initial)
  {
    InvalidatingTells(cfg, p.world, c.signal.symbol, initial);
    if c.portfolioAfter.Returned? {
      var seen := p.world.Log(Reconciled(c.portfolioAfter.value));
      LogTells(p.world, Reconciled(c.portfolioAfter.value), initial);
      LogTells(seen, CapacityChecked(c.limitAfter), initial);
      PausingTells(cfg, seen.Log(CapacityChecked(c.limitAfter)), true, initial);
    }
  }

  lemma ClaimedTells(cfg: Config, c: Candidate, p: Progress, initial: bool)
    requires Told(p.world, initial)
    ensures Told(ProcessClaimed(cfg, c, p).0.world, initial)
  {
    if c.evaluation.Returned? && Authorize(cfg, c.evaluation.value).Returned? {
      var d := c.evaluation.value;
      var status := Authorize(cfg, d).value;
      var decided := p.world.Log(IntentDecided(status));
      var gated := decided.Log(ThrottleChecked(c.throttledAfter));
      var ran := gated.Log(Executed(KeyOf(d.signal, cfg.interval)));
      LogTells(p.world, IntentDecided(status), initial);
      InvalidatingTells(cfg, decided, c.signal.symbol, initial);
      LogTells(decided, ThrottleChecked(c.throttledAfter), initial);
      InvalidatingTells(cfg, gated, c.signal.symbol, initial);
      LogTells(gated, Executed(KeyOf(d.signal, cfg.interval)), initial);
      ExecutionTells(cfg, c, p.(world := ran), initial);
    }
  }

  lemma ProcessTells(cfg: Config, c: Candidate, p: Progress, initial: bool)
    requires Told(p.world, initial)
    ensures Told(Process(cfg, c, p).0.world, initial)
  {
    var checked := p.world.Log(CapacityChecked(c.limitBefore));
    var gated := checked.Log(ThrottleChecked(c.throttledBefore));
    var key := KeyOf(c.signal, cfg.interval);
    LogTells(p.world, CapacityChecked(c.limitBefore), initial);
    PausingTells(cfg, checked, true, initial);
    LogTells(checked, ThrottleChecked(c.throttledBefore), initial);
    LogTells(gated, Claimed(key, key !in gated.claims), initial);
    ClaimedTells(cfg, c, p.(world := gated.Claim(key)), initial);
  }

  lemma {:induction false} LoopTells(cfg: Config, cs: seq<Candidate>, p: Progress, initial: bool)
    requires Told(p.world, initial)
    ensures Told(Loop(cfg, cs, p).0.world, initial)
    decreases |cs|
  {
    if cs != [] {
      ProcessTells(cfg, cs[0], p, initial);
      LoopTells(cfg, cs[1..], Process(cfg, cs[0], p).0, initial);
    }
  }

  lemma PreambleTells(cfg: Config, t: Tape, w: World, initial: bool)
    requires Told(w, initial)
    ensures Told(Preamble(cfg, t, w).0, initial)
  {
    if t.first.Returned? {
      LogTells(w, Reconciled(t.first.value), initial);
      if t.second.Returned? {
        LogTells(w.Log(Reconciled(t.first.value)), Reconciled(t.second.value), initial);
      }
    }
  }

  /** However a cycle ends, stalking is as it was last told in the trace, or as before if it was not told. */
  lemma StalkingIsAsTold(cfg: Config, t: Tape, w: World, initial: bool)
    requires Told(w, initial)
    ensures Told(Cycle(cfg, t, w).1, initial)
  {
    var (w1, portfolio) := Preamble(cfg, t, w);
    PreambleTells(cfg, t, w, initial);
    if portfolio.Returned? && portfolio.value.Some? {
      var w2 := w1.Log(CapacityChecked(t.limit));
      var w3 := w2.SetStalking(cfg, false).Log(ThrottleChecked(t.throttled));
      LogTells(w1, CapacityChecked(t.limit), initial);
      PausingTells(cfg, w2, true, initial);
      PausingTells(cfg, w2, false, initial);
      LogTells(w2.SetStalking(cfg, false), ThrottleChecked(t.throttled), initial);
      if t.candidates.Returned? {
        LoopTells(cfg, t.candidates.value, Progress(w3, portfolio.value.value, [], false, false), initial);
      }
    }
  }
}
