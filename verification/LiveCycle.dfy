/**
 One autonomous LIVE cycle: reconcile, check capacity and rate limit, discover,
 then take each candidate through claim, risk, intent, execution and adoption.

 Everything awaited is an answer on a tape: any run of the program is some tape,
 so a statement about all tapes is a statement about all environments. The trace
 records the calls in order.
 */
module LiveCycle {
  import opened Prelude
  import opened Intervals

  datatype SignalType = Buy | Sell | CloseLong | CloseShort | Hold

  datatype Signal = Signal(symbol: string, kind: SignalType, confidence: real, strategy: string, generatedAt: int)

  datatype Decision = Decision(shouldExecute: bool, signal: Signal, riskApproved: Option<bool>, reason: string)

  datatype TradeResult = TradeResult(executed: bool, decision: Decision, order: Option<nat>, reason: string)

  datatype IntentStatus = Authorized | IntentRiskRejected | AuthorizationRequired

  datatype ExecutionStatus =
    | ExecutedAndProtected
    | RiskRejected
    | MarketReferenceRejected
    | AuthorizationRejected
    | ExistingPosition
    | StaleSignal
    | SubmissionBlocked
    | ExchangeRejected
    | VenueRuleRejected
    | SymbolReadinessRejected
    | ExecutionUnsafe

  function IntentReason(status: IntentStatus): string {
    match status
    case Authorized => "authorized"
    case IntentRiskRejected => "risk_rejected"
    case AuthorizationRequired => "authorization_required"
  }

  function ExecutionReason(status: ExecutionStatus): string {
    match status
    case ExecutedAndProtected => "executed_and_protected"
    case RiskRejected => "risk_rejected"
    case MarketReferenceRejected => "market_reference_rejected"
    case AuthorizationRejected => "authorization_rejected"
    case ExistingPosition => "existing_position"
    case StaleSignal => "stale_signal"
    case SubmissionBlocked => "submission_blocked"
    case ExchangeRejected => "exchange_rejected"
    case VenueRuleRejected => "venue_rule_rejected"
    case SymbolReadinessRejected => "symbol_readiness_rejected"
    case ExecutionUnsafe => "execution_unsafe"
  }

  const REPLAY_REASON := "closed_candle_opportunity_already_claimed"
  const RATE_LIMIT_REASON := "skipped_rate_limit"
  const CAPACITY_REASON := "skipped_capacity"

  datatype Execution = Execution(status: ExecutionStatus, decision: Option<Decision>, order: Option<nat>)

  datatype Batch = Batch(universeSize: nat, rankStart: nat, rankEnd: nat, entries: nat)

  // A provider call either answers or raises out of the cycle.
  datatype Answer<+T> = Returned(value: T) | Raised

  // Portfolios are observed only through how many contexts they hold.
  type Portfolio = nat

  datatype Candidate = Candidate(
    signal: Signal,
    limitBefore: nat,
    throttledBefore: bool,
    claimRaises: bool,
    evaluation: Answer<Decision>,
    throttledAfter: bool,
    execution: Answer<Execution>,
    portfolioAfter: Answer<Option<Portfolio>>,
    limitAfter: nat)

  datatype Tape = Tape(
    first: Answer<Option<Portfolio>>,
    shouldExit: Answer<bool>,
    second: Answer<Option<Portfolio>>,
    limit: nat,
    throttled: bool,
    batch: Answer<Batch>,
    candidates: Answer<seq<Candidate>>)

  datatype Config = Config(
    interval: Interval,
    strategy: string,
    // The authorization covers new entries on this executor's environment.
    capable: bool,
    hasExitService: bool,
    hasStalking: bool)

  // The identity of one closed-candle opportunity.
  datatype ClaimKey = ClaimKey(symbol: string, interval: Interval, strategy: string, generatedAt: int)

  function KeyOf(signal: Signal, interval: Interval): ClaimKey {
    ClaimKey(signal.symbol, interval, signal.strategy, signal.generatedAt)
  }

  datatype Event =
    | Reconciled(portfolio: Option<Portfolio>)
    | CapacityChecked(limit: nat)
    | ThrottleChecked(throttled: bool)
    | Claimed(key: ClaimKey, isNew: bool)
    | IntentDecided(status: IntentStatus)
    // The intent that is executed carries the decision's signal, not the claimed one.
    | Executed(key: ClaimKey)
    | StalkingPaused(paused: bool)
    | SetupInvalidated(symbol: string)

  datatype World = World(claims: set<ClaimKey>, stalkingPaused: bool, trace: seq<Event>) {
    function Log(e: Event): World {
      this.(trace := trace + [e])
    }

    function SetStalking(cfg: Config, paused: bool): World {
      if cfg.hasStalking then this.(stalkingPaused := paused, trace := trace + [StalkingPaused(paused)]) else this
    }

    function Invalidate(cfg: Config, symbol: string): World {
      if cfg.hasStalking then Log(SetupInvalidated(symbol)) else this
    }

    // INSERT .. ON CONFLICT DO NOTHING: fresh exactly when the key was absent.
    function Claim(key: ClaimKey): World {
      World(claims + {key}, stalkingPaused, trace + [Claimed(key, key !in claims)])
    }
  }

  datatype Report = Report(
    results: seq<TradeResult>,
    batch: Option<Batch>,
    signals: seq<Signal>,
    skippedCapacity: bool,
    skippedRateLimit: bool,
    stoppedByCapacity: bool)

  datatype Outcome =
    | Completed(report: Report)
    | Unsafe(completed: seq<TradeResult>)
    | Failed

  // ---------------------------------------------------------------------------
  // Result builders and the intent service
  // ---------------------------------------------------------------------------

  function ReplayResult(signal: Signal): TradeResult {
    TradeResult(false, Decision(false, signal, None, REPLAY_REASON), None, REPLAY_REASON)
  }

  function NonExecuted(decision: Decision, reason: string): TradeResult {
    TradeResult(false, decision.(shouldExecute := false, reason := reason), None, reason)
  }

  function ToTradeResult(e: Execution): Answer<TradeResult> {
    if e.decision.None? then Raised
    else if e.status.ExecutedAndProtected? then
      Returned(TradeResult(true, e.decision.value, e.order, ExecutionReason(e.status)))
    else Returned(NonExecuted(e.decision.value, ExecutionReason(e.status)))
  }

  predicate Actionable(signal: Signal) {
    signal.kind.Buy? || signal.kind.Sell?
  }

  function Authorize(cfg: Config, d: Decision): Answer<IntentStatus> {
    if !d.shouldExecute || d.riskApproved != Some(true) then Returned(IntentRiskRejected)
    else if !cfg.capable then Returned(AuthorizationRequired)
    else if !Actionable(d.signal) || d.signal.strategy != cfg.strategy then Raised
    else Returned(Authorized)
  }

  // ---------------------------------------------------------------------------
  // Specification
  // ---------------------------------------------------------------------------

  datatype Progress = Progress(
    world: World,
    portfolio: Portfolio,
    results: seq<TradeResult>,
    stoppedByCapacity: bool,
    skippedRateLimit: bool)

  datatype Verdict = Continue | Stop | NotAdopted | EntryUnsafe | Error

  function ProcessClaimed(cfg: Config, c: Candidate, p: Progress): (Progress, Verdict) {
    if c.evaluation.Raised? then (p, Error)
    else
      var decision := c.evaluation.value;
      var intent := Authorize(cfg, decision);
      if intent.Raised? then (p, Error)
      else
        var decided := p.world.Log(IntentDecided(intent.value));
        if !intent.value.Authorized? then
          (p.(world := decided.Invalidate(cfg, c.signal.symbol),
              results := p.results + [NonExecuted(decision, IntentReason(intent.value))]), Continue)
        else
          var gated := decided.Log(ThrottleChecked(c.throttledAfter));
          if c.throttledAfter then
            (p.(world := gated.Invalidate(cfg, c.signal.symbol),
                results := p.results + [NonExecuted(decision, RATE_LIMIT_REASON)],
                skippedRateLimit := true), Stop)
          else Execute(cfg, c, p.(world := gated.Log(Executed(KeyOf(decision.signal, cfg.interval)))))
  }

  function Execute(cfg: Config, c: Candidate, p: Progress): (Progress, Verdict) {
    if c.execution.Raised? || ToTradeResult(c.execution.value).Raised? then (p, Error)
    else
      var status := c.execution.value.status;
      var done := p.(results := p.results + [ToTradeResult(c.execution.value).value]);
      if status.ExecutedAndProtected? then Adopt(cfg, c, done)
      else
        (done.(world := done.world.Invalidate(cfg, c.signal.symbol)),
         if status.SubmissionBlocked? || status.ExecutionUnsafe? then EntryUnsafe else Continue)
  }

  function Adopt(cfg: Config, c: Candidate, p: Progress): (Progress, Verdict) {
    if c.portfolioAfter.Raised? then (p, Error)
    else
      var seen := p.world.Log(Reconciled(c.portfolioAfter.value));
      if c.portfolioAfter.value.None? then (p.(world := seen), NotAdopted)
      else
        var portfolio := c.portfolioAfter.value.value;
        var checked := seen.Log(CapacityChecked(c.limitAfter));
        if portfolio >= c.limitAfter then
          (p.(world := checked.SetStalking(cfg, true), portfolio := portfolio, stoppedByCapacity := true), Stop)
        else (p.(world := checked, portfolio := portfolio), Continue)
  }

  function Process(cfg: Config, c: Candidate, p: Progress): (Progress, Verdict) {
    var checked := p.world.Log(CapacityChecked(c.limitBefore));
    if p.portfolio >= c.limitBefore then
      (p.(world := checked.SetStalking(cfg, true), stoppedByCapacity := true), Stop)
    else
      var gated := checked.Log(ThrottleChecked(c.throttledBefore));
      if c.throttledBefore then (p.(world := gated, skippedRateLimit := true), Stop)
      else if c.claimRaises || !Actionable(c.signal) then (p.(world := gated), Error)
      else
        var key := KeyOf(c.signal, cfg.interval);
        var claimed := gated.Claim(key);
        if key in gated.claims then
          (p.(world := claimed, results := p.results + [ReplayResult(c.signal)]), Continue)
        else ProcessClaimed(cfg, c, p.(world := claimed))
  }

  function Loop(cfg: Config, cs: seq<Candidate>, p: Progress): (Progress, Verdict) {
    if cs == [] then (p, Continue)
    else
      var (next, verdict) := Process(cfg, cs[0], p);
      if verdict.Continue? then Loop(cfg, cs[1..], next) else (next, verdict)
  }

  function SignalsOf(cs: seq<Candidate>): seq<Signal> {
    seq(|cs|, i requires 0 <= i < |cs| => cs[i].signal)
  }

  function Conclude(batch: Batch, cs: seq<Candidate>, p: Progress, verdict: Verdict): Outcome {
    match verdict
    case NotAdopted => Unsafe(p.results)
    case EntryUnsafe => Unsafe([])
    case Error => Failed
    case _ => Completed(Report(p.results, Some(batch), SignalsOf(cs), false, p.skippedRateLimit, p.stoppedByCapacity))
  }

  // Portfolio after the optional early-exit pass, or how the preamble ended.
  function Preamble(cfg: Config, t: Tape, w: World): (World, Answer<Option<Portfolio>>) {
    if t.first.Raised? then (w, Raised)
    else
      var w1 := w.Log(Reconciled(t.first.value));
      if t.first.value.None? then (w1, Returned(None))
      else if cfg.hasExitService && t.first.value.value > 0 then
        if t.shouldExit.Raised? then (w1, Raised)
        else if t.shouldExit.value then
          if t.second.Raised? then (w1, Raised)
          else
            (w1.Log(Reconciled(t.second.value)),
             Returned(if t.second.value.Some? then t.second.value else t.first.value))
        else (w1, t.first)
      else (w1, t.first)
  }

  const CAPACITY_SKIP := Report([], None, [], true, false, false)
  const RATE_LIMIT_SKIP := Report([], None, [], false, true, false)

  function Cycle(cfg: Config, t: Tape, w: World): (Outcome, World) {
    var (w1, portfolio) := Preamble(cfg, t, w);
    if portfolio.Raised? then (Failed, w1)
    else if portfolio.value.None? then (Unsafe([]), w1)
    else
      var open := portfolio.value.value;
      var w2 := w1.Log(CapacityChecked(t.limit));
      if open >= t.limit then (Completed(CAPACITY_SKIP), w2.SetStalking(cfg, true))
      else
        var w3 := w2.SetStalking(cfg, false).Log(ThrottleChecked(t.throttled));
        if t.throttled then (Completed(RATE_LIMIT_SKIP), w3)
        else if t.batch.Raised? || t.candidates.Raised? then (Failed, w3)
        else
          var (p, verdict) := Loop(cfg, t.candidates.value, Progress(w3, open, [], false, false));
          (Conclude(t.batch.value, t.candidates.value, p, verdict), p.world)
  }

  // ---------------------------------------------------------------------------
  // The executor
  // ---------------------------------------------------------------------------

  class LiveCycleExecutor {
    const cfg: Config
    var claims: set<ClaimKey>
    var stalkingPaused: bool
    ghost var trace: seq<Event>

    ghost function View(): World
      reads this
    {
      World(claims, stalkingPaused, trace)
    }

    constructor (cfg: Config)
      ensures this.cfg == cfg && View() == World({}, false, [])
    {
      this.cfg := cfg;
      claims, stalkingPaused, trace := {}, false, [];
    }

    ghost method Note(e: Event)
      modifies this`trace
      ensures View() == old(View()).Log(e)
    {
      trace := trace + [e];
    }

    method SetStalking(paused: bool)
      modifies this`stalkingPaused, this`trace
      ensures View() == old(View()).SetStalking(cfg, paused)
    {
      if cfg.hasStalking {
        stalkingPaused := paused;
        trace := trace + [StalkingPaused(paused)];
      }
    }

    method Invalidate(symbol: string)
      modifies this`trace
      ensures View() == old(View()).Invalidate(cfg, symbol)
    {
      if cfg.hasStalking {
        trace := trace + [SetupInvalidated(symbol)];
      }
    }

    method Claim(key: ClaimKey) returns (isNew: bool)
      modifies this`claims, this`trace
      ensures View() == old(View()).Claim(key)
      ensures isNew == (key !in old(claims))
    {
      isNew := key !in claims;
      claims := claims + {key};
      trace := trace + [Claimed(key, isNew)];
    }

    method ExecuteGlobalReport(t: Tape) returns (outcome: Outcome)
      modifies this
      ensures (outcome, View()) == Cycle(cfg, t, old(View()))
    {
      if t.first.Raised? {
        return Failed;
      }
      Note(Reconciled(t.first.value));
      if t.first.value.None? {
        return Unsafe([]);
      }
      var portfolio := t.first.value.value;
      if cfg.hasExitService && portfolio > 0 {
        if t.shouldExit.Raised? {
          return Failed;
        }
        if t.shouldExit.value {
          if t.second.Raised? {
            return Failed;
          }
          Note(Reconciled(t.second.value));
          if t.second.value.Some? {
            portfolio := t.second.value.value;
          }
        }
      }
      Note(CapacityChecked(t.limit));
      if portfolio >= t.limit {
        SetStalking(true);
        return Completed(CAPACITY_SKIP);
      }
      SetStalking(false);
      Note(ThrottleChecked(t.throttled));
      if t.throttled {
        return Completed(RATE_LIMIT_SKIP);
      }
      if t.batch.Raised? || t.candidates.Raised? {
        return Failed;
      }
      outcome := EnterCandidates(t.batch.value, t.candidates.value, portfolio);
    }

    method EnterCandidates(batch: Batch, cs: seq<Candidate>, open: Portfolio) returns (outcome: Outcome)
      modifies this
      ensures var (p, verdict) := Loop(cfg, cs, Progress(old(View()), open, [], false, false));
        outcome == Conclude(batch, cs, p, verdict) && View() == p.world
    {
      var portfolio, results, i := open, [], 0;
      var stoppedByCapacity, skippedRateLimit, verdict := false, false, Continue;
      ghost var start := Progress(View(), open, [], false, false);
      while i < |cs| && verdict.Continue?
        invariant 0 <= i <= |cs|
        invariant var now := Progress(View(), portfolio, results, stoppedByCapacity, skippedRateLimit);
          Loop(cfg, cs, start) == if verdict.Continue? then Loop(cfg, cs[i..], now) else (now, verdict)
        decreases |cs| - i
      {
        assert cs[i..][0] == cs[i] && cs[i..][1..] == cs[i + 1..];
        portfolio, results, stoppedByCapacity, skippedRateLimit, verdict :=
          EnterCandidate(cs[i], portfolio, results, stoppedByCapacity, skippedRateLimit);
        i := i + 1;
      }
      if verdict.NotAdopted? {
        return Unsafe(results);
      }
      if verdict.EntryUnsafe? {
        return Unsafe([]);
      }
      if verdict.Error? {
        return Failed;
      }
      return Completed(Report(results, Some(batch), SignalsOf(cs), false, skippedRateLimit, stoppedByCapacity));
    }

    method EnterCandidate(
        c: Candidate, open: Portfolio, before: seq<TradeResult>, stopped: bool, skipped: bool)
      returns (portfolio: Portfolio, results: seq<TradeResult>, stoppedByCapacity: bool, skippedRateLimit: bool,
               verdict: Verdict)
      modifies this
      ensures (Progress(View(), portfolio, results, stoppedByCapacity, skippedRateLimit), verdict)
           == Process(cfg, c, Progress(old(View()), open, before, stopped, skipped))
    {
      portfolio, results, stoppedByCapacity, skippedRateLimit, verdict := open, before, stopped, skipped, Continue;
      Note(CapacityChecked(c.limitBefore));
      if portfolio >= c.limitBefore {
        SetStalking(true);
        stoppedByCapacity, verdict := true, Stop;
        return;
      }
      Note(ThrottleChecked(c.throttledBefore));
      if c.throttledBefore {
        skippedRateLimit, verdict := true, Stop;
        return;
      }
      if c.claimRaises || !Actionable(c.signal) {
        verdict := Error;
        return;
      }
      var key := KeyOf(c.signal, cfg.interval);
      var isNew := Claim(key);
      if !isNew {
        results := results + [ReplayResult(c.signal)];
        return;
      }
      if c.evaluation.Raised? {
        verdict := Error;
        return;
      }
      var decision := c.evaluation.value;
      var intent := Authorize(cfg, decision);
      if intent.Raised? {
        verdict := Error;
        return;
      }
      Note(IntentDecided(intent.value));
      if !intent.value.Authorized? {
        Invalidate(c.signal.symbol);
        results := results + [NonExecuted(decision, IntentReason(intent.value))];
        return;
      }
      Note(ThrottleChecked(c.throttledAfter));
      if c.throttledAfter {
        Invalidate(c.signal.symbol);
        results := results + [NonExecuted(decision, RATE_LIMIT_REASON)];
        skippedRateLimit, verdict := true, Stop;
        return;
      }
      Note(Executed(KeyOf(decision.signal, cfg.interval)));
      portfolio, results, stoppedByCapacity, verdict := ExecuteEntry(c, portfolio, results, stoppedByCapacity, skipped);
    }

    method ExecuteEntry(c: Candidate, open: Portfolio, before: seq<TradeResult>, stopped: bool, ghost skipped: bool)
      returns (portfolio: Portfolio, results: seq<TradeResult>, stoppedByCapacity: bool, verdict: Verdict)
      modifies this`stalkingPaused, this`trace
      ensures (Progress(View(), portfolio, results, stoppedByCapacity, skipped), verdict)
           == Execute(cfg, c, Progress(old(View()), open, before, stopped, skipped))
    {
      portfolio, results, stoppedByCapacity, verdict := open, before, stopped, Continue;
      if c.execution.Raised? || ToTradeResult(c.execution.value).Raised? {
        verdict := Error;
        return;
      }
      var status := c.execution.value.status;
      results := results + [ToTradeResult(c.execution.value).value];
      if status.ExecutedAndProtected? {
        if c.portfolioAfter.Raised? {
          verdict := Error;
          return;
        }
        Note(Reconciled(c.portfolioAfter.value));
        if c.portfolioAfter.value.None? {
          verdict := NotAdopted;
          return;
        }
        portfolio := c.portfolioAfter.value.value;
        Note(CapacityChecked(c.limitAfter));
        if portfolio >= c.limitAfter {
          SetStalking(true);
          stoppedByCapacity, verdict := true, Stop;
        }
        return;
      }
      Invalidate(c.signal.symbol);
      if status.SubmissionBlocked? || status.ExecutionUnsafe? {
        verdict := EntryUnsafe;
      }
    }
  }
}
