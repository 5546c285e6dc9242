/**
 The lock-and-gate object that the runner and operator commands share. Every
 method runs without awaiting, so one call is one atomic step.
 */
module RuntimeControl {
  import opened Prelude
  import opened Intervals

  datatype Context = Context(symbol: string, interval: Interval, strategy: string)

  datatype Authorization = Authorization(contexts: seq<Context>, managementAllowed: bool) {
    predicate Authorizes(cs: seq<Context>) {
      managementAllowed && cs == contexts
    }
  }

  datatype ControlError =
    | NotPaused
    | CycleInProgress
    | RiskLimitChangeInProgress
    | OperatorExitInProgress
    | NoReservation
    | StreamStillEnabled
    | ConnectorMismatch
    | InvalidSymbol
    | InvalidPrice
    | DuplicateSymbols
    | AuthorizationMismatch
    | ProtectionNotReady
    | ConfigurationIncomplete
    | UnknownContext

  // Success carries whether the call changed anything.
  type Outcome = Result<bool, ControlError>

  // What the operator selects and confirms before a singular runtime may start.
  datatype Setup = Setup(
    exchangeConfirmed: bool,
    marketTypeConfirmed: bool,
    symbolConfirmed: bool,
    intervalConfirmed: bool,
    strategyConfirmed: bool,
    symbol: string,
    interval: Interval,
    strategy: string,
    streamEnabled: bool,
    streamEvents: nat)

  datatype Control = Control(
    active: bool,
    cycle: bool,
    riskLimitChange: bool,
    operatorExit: bool,
    protectionReady: bool,
    setup: Setup,
    contexts: seq<Context>,
    authorization: Option<Authorization>,
    reconciliation: Option<Context>)

  datatype Operation =
    | Pause
    | Resume
    | ResumeGlobalCycle
    | BeginRiskLimitChange
    | EndRiskLimitChange
    | BeginOperatorExit
    | EndOperatorExit
    | BeginCycle
    | EndCycle
    | SetRuntimeContexts(contexts: seq<Context>)
    | SetAuthorization(authorization: Authorization)
    | ClearAuthorization
    | RequireReconciliation(context: Context)
    | SetProtectionReady(ready: bool)
    | ConfirmExchange(matches: bool)
    | ConfirmMarketType(matches: bool)
    | SelectSymbol(normalized: Option<string>)
    | SelectInterval(interval: Interval)
    | SelectStrategy(strategy: string)
    | SetStreamEnabled(enabled: bool)
    | RecordStreamTick(positive: bool)

  // ---------------------------------------------------------------------------
  // Specification of one step
  // ---------------------------------------------------------------------------

  function Reservation(s: Control): Option<ControlError> {
    if s.riskLimitChange then Some(RiskLimitChangeInProgress)
    else if s.operatorExit then Some(OperatorExitInProgress)
    else None
  }

  function ConfigurationLock(s: Control): Option<ControlError> {
    if s.active then Some(NotPaused)
    else if s.cycle then Some(CycleInProgress)
    else if Reservation(s).Some? then Reservation(s)
    else if s.setup.streamEnabled then Some(StreamStillEnabled)
    else None
  }

  predicate ConfigurationComplete(s: Control) {
    var u := s.setup;
    && u.exchangeConfirmed && u.marketTypeConfirmed
    && u.symbolConfirmed && u.intervalConfirmed && u.strategyConfirmed
    && u.streamEnabled && u.streamEvents > 0
    && s.protectionReady
  }

  predicate DistinctSymbols(cs: seq<Context>) {
    forall i, j :: 0 <= i < j < |cs| ==> cs[i].symbol != cs[j].symbol
  }

  function WithStrategy(cs: seq<Context>, strategy: string): seq<Context> {
    seq(|cs|, i requires 0 <= i < |cs| => cs[i].(strategy := strategy))
  }

  function Resumed(s: Control): (Outcome, Control) {
    if Reservation(s).Some? then (Failure(Reservation(s).value), s)
    else if s.active then (Success(false), s)
    else if s.contexts != [] && s.authorization.Some? then
      if !s.authorization.value.Authorizes(s.contexts) then (Failure(AuthorizationMismatch), s)
      else if !s.protectionReady then (Failure(ProtectionNotReady), s)
      else (Success(true), s.(active := true))
    else if !ConfigurationComplete(s) then (Failure(ConfigurationIncomplete), s)
    else (Success(true), s.(active := true))
  }

  function ResumedGlobally(s: Control): (Outcome, Control) {
    if Reservation(s).Some? then (Failure(Reservation(s).value), s)
    else if s.active then (Success(false), s)
    else if !s.protectionReady then (Failure(ProtectionNotReady), s)
    else (Success(true), s.(active := true))
  }

  function ContextsSet(s: Control, cs: seq<Context>): (Outcome, Control) {
    if !DistinctSymbols(cs) then (Failure(DuplicateSymbols), s)
    else
      var kept :=
        if s.authorization.Some? && s.authorization.value.contexts != cs then None else s.authorization;
      (Success(true),
       s.(contexts := cs, reconciliation := None, authorization := kept,
          setup := if |cs| == 1 then s.setup else SingularReset(s.setup)))
  }

  function SingularReset(u: Setup): Setup {
    u.(symbolConfirmed := false, intervalConfirmed := false, strategyConfirmed := false,
       streamEnabled := false, streamEvents := 0)
  }

  function SymbolSelected(s: Control, normalized: Option<string>): (Outcome, Control) {
    if ConfigurationLock(s).Some? then (Failure(ConfigurationLock(s).value), s)
    else if normalized.None? then (Failure(InvalidSymbol), s)
    else
      var confirmed, name := s.setup.(symbolConfirmed := true), normalized.value;
      if name == (if |s.contexts| == 1 then s.contexts[0].symbol else s.setup.symbol) then
        (Success(false), s.(setup := confirmed))
      else
        (Success(true),
         s.(setup := confirmed.(symbol := name),
            contexts := if |s.contexts| == 1 then [s.contexts[0].(symbol := name)] else s.contexts))
  }

  function IntervalSelected(s: Control, interval: Interval): (Outcome, Control) {
    if ConfigurationLock(s).Some? then (Failure(ConfigurationLock(s).value), s)
    else
      var confirmed := s.setup.(intervalConfirmed := true);
      if interval == (if |s.contexts| == 1 then s.contexts[0].interval else s.setup.interval) then
        (Success(false), s.(setup := confirmed))
      else
        (Success(true),
         s.(setup := confirmed.(interval := interval),
            contexts := if |s.contexts| == 1 then [s.contexts[0].(interval := interval)] else s.contexts))
  }

  function StrategySelected(s: Control, strategy: string): (Outcome, Control) {
    if s.cycle then (Failure(CycleInProgress), s)
    else if Reservation(s).Some? then (Failure(Reservation(s).value), s)
    else
      var confirmed := s.setup.(strategyConfirmed := true);
      if strategy == (if |s.contexts| == 1 then s.contexts[0].strategy else s.setup.strategy) then
        (Success(false), s.(setup := confirmed))
      else
        (Success(true),
         s.(setup := confirmed.(strategy := strategy), contexts := WithStrategy(s.contexts, strategy)))
  }

  function ExchangeConfirmed(s: Control, matches: bool): (Outcome, Control) {
    if ConfigurationLock(s).Some? then (Failure(ConfigurationLock(s).value), s)
    else if !matches then (Failure(ConnectorMismatch), s)
    else (Success(!s.setup.exchangeConfirmed), s.(setup := s.setup.(exchangeConfirmed := true)))
  }

  function MarketTypeConfirmed(s: Control, matches: bool): (Outcome, Control) {
    if !matches then (Failure(ConnectorMismatch), s)
    else if s.setup.marketTypeConfirmed then (Success(false), s)
    else if ConfigurationLock(s).Some? then (Failure(ConfigurationLock(s).value), s)
    else (Success(true), s.(setup := s.setup.(marketTypeConfirmed := true)))
  }

  function StreamSet(s: Control, enabled: bool): (Outcome, Control) {
    var u := s.setup;
    if u.streamEnabled == enabled then (Success(false), s)
    else
      (Success(true),
       s.(setup := u.(streamEnabled := enabled, streamEvents := if enabled then 0 else u.streamEvents)))
  }

  function Ticked(s: Control, positive: bool): (Outcome, Control) {
    if !positive then (Failure(InvalidPrice), s)
    else (Success(true), s.(setup := s.setup.(streamEvents := s.setup.streamEvents + 1)))
  }

  function Apply(op: Operation, s: Control): (Outcome, Control) {
    match op
    case Pause => (Success(s.active), s.(active := false))
    case Resume => Resumed(s)
    case ResumeGlobalCycle => ResumedGlobally(s)
    case BeginRiskLimitChange =>
      if s.active then (Failure(NotPaused), s)
      else if s.cycle then (Failure(CycleInProgress), s)
      else if Reservation(s).Some? then (Failure(Reservation(s).value), s)
      else (Success(true), s.(riskLimitChange := true))
    case EndRiskLimitChange =>
      if !s.riskLimitChange then (Failure(NoReservation), s) else (Success(true), s.(riskLimitChange := false))
    case BeginOperatorExit =>
      if s.active then (Failure(NotPaused), s)
      else if s.cycle then (Failure(CycleInProgress), s)
      else if Reservation(s).Some? then (Failure(Reservation(s).value), s)
      else (Success(true), s.(operatorExit := true))
    case EndOperatorExit =>
      if !s.operatorExit then (Failure(NoReservation), s) else (Success(true), s.(operatorExit := false))
    case BeginCycle =>
      if s.cycle then (Failure(CycleInProgress), s)
      else if Reservation(s).Some? then (Failure(Reservation(s).value), s)
      else (Success(true), s.(cycle := true))
    case EndCycle => (Success(true), s.(cycle := false))
    case SetRuntimeContexts(cs) => ContextsSet(s, cs)
    case SetAuthorization(a) =>
      if a.contexts != s.contexts then (Failure(AuthorizationMismatch), s)
      else (Success(true), s.(authorization := Some(a)))
    case ClearAuthorization => (Success(true), s.(authorization := None))
    case RequireReconciliation(c) =>
      if c !in s.contexts then (Failure(UnknownContext), s) else (Success(true), s.(reconciliation := Some(c)))
    case SetProtectionReady(ready) => (Success(s.protectionReady != ready), s.(protectionReady := ready))
    case ConfirmExchange(matches) => ExchangeConfirmed(s, matches)
    case ConfirmMarketType(matches) => MarketTypeConfirmed(s, matches)
    case SelectSymbol(normalized) => SymbolSelected(s, normalized)
    case SelectInterval(interval) => IntervalSelected(s, interval)
    case SelectStrategy(strategy) => StrategySelected(s, strategy)
    case SetStreamEnabled(enabled) => StreamSet(s, enabled)
    case RecordStreamTick(positive) => Ticked(s, positive)
  }

  function Run(ops: seq<Operation>, s: Control): Control {
    if ops == [] then s else Apply(ops[|ops| - 1], Run(ops[..|ops| - 1], s)).1
  }

  // ---------------------------------------------------------------------------
  // The object
  // ---------------------------------------------------------------------------

  class TradingRuntimeControl {
    var active: bool
    var cycle: bool
    var riskLimitChange: bool
    var operatorExit: bool
    var protectionReady: bool
    var exchangeConfirmed: bool
    var marketTypeConfirmed: bool
    var symbolConfirmed: bool
    var intervalConfirmed: bool
    var strategyConfirmed: bool
    var symbol: string
    var interval: Interval
    var strategy: string
    var streamEnabled: bool
    var streamEvents: nat
    var contexts: seq<Context>
    var authorization: Option<Authorization>
    var reconciliation: Option<Context>

    function View(): Control
      reads this
    {
      Control(active, cycle, riskLimitChange, operatorExit, protectionReady,
              Setup(exchangeConfirmed, marketTypeConfirmed, symbolConfirmed, intervalConfirmed,
                    strategyConfirmed, symbol, interval, strategy, streamEnabled, streamEvents),
              contexts, authorization, reconciliation)
    }

    constructor (symbol: string, interval: Interval, strategy: string)
      ensures View() == Initial(symbol, interval, strategy)
    {
      active, cycle, riskLimitChange, operatorExit := false, false, false, false;
      protectionReady := true;
      exchangeConfirmed, marketTypeConfirmed := false, false;
      symbolConfirmed, intervalConfirmed, strategyConfirmed := false, false, false;
      this.symbol, this.interval, this.strategy := symbol, interval, strategy;
      streamEnabled, streamEvents := false, 0;
      contexts, authorization, reconciliation := [], None, None;
    }

    method RequireNoReservation() returns (e: Option<ControlError>)
      ensures e == Reservation(View())
    {
      if riskLimitChange {
        return Some(RiskLimitChangeInProgress);
      }
      if operatorExit {
        return Some(OperatorExitInProgress);
      }
      return None;
    }

    method RequirePausedConfiguration() returns (e: Option<ControlError>)
      ensures e == ConfigurationLock(View())
    {
      if active {
        return Some(NotPaused);
      }
      if cycle {
        return Some(CycleInProgress);
      }
      e := RequireNoReservation();
      if e.None? && streamEnabled {
        return Some(StreamStillEnabled);
      }
    }

    method Pause() returns (r: Outcome)
      modifies this
      ensures (r, View()) == Apply(Operation.Pause, old(View()))
    {
      r := Success(active);
      active := false;
    }

    method Resume() returns (r: Outcome)
      modifies this
      ensures (r, View()) == Resumed(old(View()))
    {
      var blocked := RequireNoReservation();
      if blocked.Some? {
        return Failure(blocked.value);
      }
      if active {
        return Success(false);
      }
      if contexts != [] && authorization.Some? {
        if !authorization.value.Authorizes(contexts) {
          return Failure(AuthorizationMismatch);
        }
        if !protectionReady {
          return Failure(ProtectionNotReady);
        }
        active := true;
        return Success(true);
      }
      if !ConfigurationComplete(View()) {
        return Failure(ConfigurationIncomplete);
      }
      active := true;
      return Success(true);
    }

    method ResumeGlobalCycle() returns (r: Outcome)
      modifies this
      ensures (r, View()) == ResumedGlobally(old(View()))
    {
      var blocked := RequireNoReservation();
      if blocked.Some? {
        return Failure(blocked.value);
      }
      if active {
        return Success(false);
      }
      if !protectionReady {
        return Failure(ProtectionNotReady);
      }
      active := true;
      return Success(true);
    }

    method BeginRiskLimitChange() returns (r: Outcome)
      modifies this
      ensures (r, View()) == Apply(Operation.BeginRiskLimitChange, old(View()))
    {
      if active {
        return Failure(NotPaused);
      }
      if cycle {
        return Failure(CycleInProgress);
      }
      if riskLimitChange {
        return Failure(RiskLimitChangeInProgress);
      }
      if operatorExit {
        return Failure(OperatorExitInProgress);
      }
      riskLimitChange := true;
      return Success(true);
    }

    method EndRiskLimitChange() returns (r: Outcome)
      modifies this
      ensures (r, View()) == Apply(Operation.EndRiskLimitChange, old(View()))
    {
      if !riskLimitChange {
        return Failure(NoReservation);
      }
      riskLimitChange := false;
      return Success(true);
    }

    method BeginOperatorExit() returns (r: Outcome)
      modifies this
      ensures (r, View()) == Apply(Operation.BeginOperatorExit, old(View()))
    {
      if active {
        return Failure(NotPaused);
      }
      if cycle {
        return Failure(CycleInProgress);
      }
      if riskLimitChange {
        return Failure(RiskLimitChangeInProgress);
      }
      if operatorExit {
        return Failure(OperatorExitInProgress);
      }
      operatorExit := true;
      return Success(true);
    }

    method EndOperatorExit() returns (r: Outcome)
      modifies this
      ensures (r, View()) == Apply(Operation.EndOperatorExit, old(View()))
    {
      if !operatorExit {
        return Failure(NoReservation);
      }
      operatorExit := false;
      return Success(true);
    }

    method BeginCycle() returns (r: Outcome)
      modifies this
      ensures (r, View()) == Apply(Operation.BeginCycle, old(View()))
    {
      if cycle {
        return Failure(CycleInProgress);
      }
      var blocked := RequireNoReservation();
      if blocked.Some? {
        return Failure(blocked.value);
      }
      cycle := true;
      return Success(true);
    }

    method EndCycle() returns (r: Outcome)
      modifies this
      ensures (r, View()) == Apply(Operation.EndCycle, old(View()))
    {
      cycle := false;
      return Success(true);
    }

    method ResetSingularState()
      modifies this
      ensures View() == old(View()).(setup := SingularReset(old(View()).setup))
    {
      symbolConfirmed, intervalConfirmed, strategyConfirmed := false, false, false;
      streamEnabled, streamEvents := false, 0;
    }

    method SetRuntimeContexts(cs: seq<Context>) returns (r: Outcome)
      modifies this
      ensures (r, View()) == ContextsSet(old(View()), cs)
    {
      if !DistinctSymbols(cs) {
        return Failure(DuplicateSymbols);
      }
      contexts := cs;
      reconciliation := None;
      if authorization.Some? && authorization.value.contexts != cs {
        authorization := None;
      }
      if |cs| != 1 {
        ResetSingularState();
      }
      return Success(true);
    }

    method SetAuthorization(a: Authorization) returns (r: Outcome)
      modifies this
      ensures (r, View()) == Apply(Operation.SetAuthorization(a), old(View()))
    {
      if a.contexts != contexts {
        return Failure(AuthorizationMismatch);
      }
      authorization := Some(a);
      return Success(true);
    }

    method ClearAuthorization() returns (r: Outcome)
      modifies this
      ensures (r, View()) == Apply(Operation.ClearAuthorization, old(View()))
    {
      authorization := None;
      return Success(true);
    }

    method RequireReconciliation(c: Context) returns (r: Outcome)
      modifies this
      ensures (r, View()) == Apply(Operation.RequireReconciliation(c), old(View()))
    {
      if c !in contexts {
        return Failure(UnknownContext);
      }
      reconciliation := Some(c);
      return Success(true);
    }

    method SetProtectionReady(ready: bool) returns (r: Outcome)
      modifies this
      ensures (r, View()) == Apply(Operation.SetProtectionReady(ready), old(View()))
    {
      if protectionReady == ready {
        return Success(false);
      }
      protectionReady := ready;
      return Success(true);
    }

    method ConfirmExchange(matches: bool) returns (r: Outcome)
      modifies this
      ensures (r, View()) == ExchangeConfirmed(old(View()), matches)
    {
      var locked := RequirePausedConfiguration();
      if locked.Some? {
        return Failure(locked.value);
      }
      if !matches {
        return Failure(ConnectorMismatch);
      }
      r := Success(!exchangeConfirmed);
      exchangeConfirmed := true;
    }

    method ConfirmMarketType(matches: bool) returns (r: Outcome)
      modifies this
      ensures (r, View()) == MarketTypeConfirmed(old(View()), matches)
    {
      if !matches {
        return Failure(ConnectorMismatch);
      }
      if marketTypeConfirmed {
        return Success(false);
      }
      var locked := RequirePausedConfiguration();
      if locked.Some? {
        return Failure(locked.value);
      }
      marketTypeConfirmed := true;
      return Success(true);
    }

    method SelectSymbol(normalized: Option<string>) returns (r: Outcome)
      modifies this
      ensures (r, View()) == SymbolSelected(old(View()), normalized)
    {
      var locked := RequirePausedConfiguration();
      if locked.Some? {
        return Failure(locked.value);
      }
      if normalized.None? {
        return Failure(InvalidSymbol);
      }
      symbolConfirmed := true;
      var current := if |contexts| == 1 then contexts[0].symbol else symbol;
      if normalized.value == current {
        return Success(false);
      }
      symbol := normalized.value;
      if |contexts| == 1 {
        contexts := [contexts[0].(symbol := normalized.value)];
      }
      return Success(true);
    }

    method SelectInterval(chosen: Interval) returns (r: Outcome)
      modifies this
      ensures (r, View()) == IntervalSelected(old(View()), chosen)
    {
      var locked := RequirePausedConfiguration();
      if locked.Some? {
        return Failure(locked.value);
      }
      intervalConfirmed := true;
      var current := if |contexts| == 1 then contexts[0].interval else interval;
      if chosen == current {
        return Success(false);
      }
      interval := chosen;
      if |contexts| == 1 {
        contexts := [contexts[0].(interval := chosen)];
      }
      return Success(true);
    }

    method SelectStrategy(chosen: string) returns (r: Outcome)
      modifies this
      ensures (r, View()) == StrategySelected(old(View()), chosen)
    {
      if cycle {
        return Failure(CycleInProgress);
      }
      var blocked := RequireNoReservation();
      if blocked.Some? {
        return Failure(blocked.value);
      }
      strategyConfirmed := true;
      var current := if |contexts| == 1 then contexts[0].strategy else strategy;
      if chosen == current {
        return Success(false);
      }
      strategy := chosen;
      if |contexts| == 1 {
        assert WithStrategy(contexts, chosen) == [contexts[0].(strategy := chosen)];
        contexts := [contexts[0].(strategy := chosen)];
      } else if |contexts| > 1 {
        contexts := WithStrategy(contexts, chosen);
      } else {
        assert WithStrategy(contexts, chosen) == contexts;
      }
      return Success(true);
    }

    method SetStreamEnabled(enabled: bool) returns (r: Outcome)
      modifies this
      ensures (r, View()) == StreamSet(old(View()), enabled)
    {
      if streamEnabled == enabled {
        return Success(false);
      }
      streamEnabled := enabled;
      if enabled {
        streamEvents := 0;
      }
      return Success(true);
    }

    method RecordStreamTick(price: real) returns (r: Outcome)
      modifies this
      ensures (r, View()) == Ticked(old(View()), price > 0.0)
    {
      if price <= 0.0 {
        return Failure(InvalidPrice);
      }
      streamEvents := streamEvents + 1;
      return Success(true);
    }
  }

  function Initial(symbol: string, interval: Interval, strategy: string): Control {
    Control(false, false, false, false, true,
            Setup(false, false, false, false, false, symbol, interval, strategy, false, 0),
            [], None, None)
  }

  // ---------------------------------------------------------------------------
  // Safety over every sequence of steps
  // ---------------------------------------------------------------------------

  function Claims(s: Control): nat {
    (if s.cycle then 1 else 0) + (if s.riskLimitChange then 1 else 0) + (if s.operatorExit then 1 else 0)
  }

  /** One owner at a time, and a reservation means the runtime is paused. */
  predicate Exclusive(s: Control) {
    Claims(s) <= 1 && (s.riskLimitChange || s.operatorExit ==> !s.active)
  }

  // The five gate bits after a call that is neither a lock nor a gate operation.
  predicate SameGates(s: Control, next: Control) {
    && next.active == s.active && next.cycle == s.cycle && next.riskLimitChange == s.riskLimitChange
    && next.operatorExit == s.operatorExit && next.protectionReady == s.protectionReady
  }

  predicate TouchesGates(op: Operation) {
    op.Pause? || op.Resume? || op.ResumeGlobalCycle? || op.BeginCycle? || op.EndCycle?
    || op.BeginRiskLimitChange? || op.EndRiskLimitChange? || op.BeginOperatorExit? || op.EndOperatorExit?
    || op.SetProtectionReady?
  }

  predicate Selects(op: Operation) {
    op.SelectSymbol? || op.SelectInterval? || op.SelectStrategy?
  }

  lemma SelectionKeepsGates(op: Operation, s: Control)
    requires Selects(op)
    ensures SameGates(s, Apply(op, s).1)
  {
    match op
    case SelectSymbol(n) => assert SameGates(s, SymbolSelected(s, n).1);
    case SelectInterval(i) => assert SameGates(s, IntervalSelected(s, i).1);
    case SelectStrategy(n) => assert SameGates(s, StrategySelected(s, n).1);
  }

  lemma ConfigurationKeepsGates(op: Operation, s: Control)
    requires !TouchesGates(op)
    ensures SameGates(s, Apply(op, s).1)
  {
    if Selects(op) {
      SelectionKeepsGates(op, s);
    }
  }

  lemma StepIsExclusive(op: Operation, s: Control)
    requires Exclusive(s)
    ensures Exclusive(Apply(op, s).1)
  {
    if !TouchesGates(op) {
      ConfigurationKeepsGates(op, s);
    }
  }

  /** Holds after every interleaving of runner, operator and stream calls. */
  lemma {:induction false} EveryRunIsExclusive(ops: seq<Operation>, s: Control)
    requires Exclusive(s)
    ensures Exclusive(Run(ops, s))
  {
    if ops != [] {
      EveryRunIsExclusive(ops[..|ops| - 1], s);
      StepIsExclusive(ops[|ops| - 1], Run(ops[..|ops| - 1], s));
    }
  }

  predicate Exact(s: Control) {
    s.authorization.Some? && s.authorization.value.Authorizes(s.contexts)
  }

  predicate Activates(op: Operation, s: Control) {
    !s.active && Apply(op, s).1.active
  }

  /**
   Which activations are possible, both ways: only the two resume calls, only
   without a reservation, and only behind the gate each of them checks.
   */
  lemma ActivationIsGuarded(op: Operation, s: Control)
    requires !s.active
    ensures Activates(op, s) <==>
      && !s.riskLimitChange && !s.operatorExit && s.protectionReady
      && (|| op == ResumeGlobalCycle
          || (op == Resume && if s.contexts != [] && s.authorization.Some? then Exact(s) else ConfigurationComplete(s)))
  {
    if !TouchesGates(op) {
      ConfigurationKeepsGates(op, s);
    }
  }

  lemma UnprotectedStep(op: Operation, s: Control)
    requires !s.active && !s.protectionReady && op != SetProtectionReady(true)
    ensures !Apply(op, s).1.active && !Apply(op, s).1.protectionReady
  {
    if !TouchesGates(op) {
      ConfigurationKeepsGates(op, s);
    }
  }

  /** Without protection, no sequence of calls that leaves the gate alone can activate. */
  lemma {:induction false} UnprotectedStaysPaused(ops: seq<Operation>, s: Control)
    requires !s.active && !s.protectionReady
    requires SetProtectionReady(true) !in ops
    ensures !Run(ops, s).active && !Run(ops, s).protectionReady
  {
    if ops != [] {
      var n := |ops| - 1;
      UnprotectedStaysPaused(ops[..n], s);
      assert ops[n] in ops;
      UnprotectedStep(ops[n], Run(ops[..n], s));
    }
  }

  // ---------------------------------------------------------------------------
  // Authorization against contexts
  // ---------------------------------------------------------------------------

  predicate Drifted(s: Control) {
    s.authorization.Some? && s.authorization.value.contexts != s.contexts
  }

  /** The calls that leave an installed authorization behind the contexts it names. */
  predicate CausesDrift(op: Operation, s: Control) {
    match op
    case SelectSymbol(normalized) =>
      ConfigurationLock(s).None? && |s.contexts| == 1 && normalized.Some? && normalized.value != s.contexts[0].symbol
    case SelectInterval(interval) =>
      ConfigurationLock(s).None? && |s.contexts| == 1 && interval != s.contexts[0].interval
    case SelectStrategy(strategy) =>
      && !s.cycle && Reservation(s).None?
      && (|s.contexts| == 1 || strategy != s.setup.strategy)
      && exists c :: c in s.contexts && c.strategy != strategy
    case _ => false
  }

  lemma StrategyRewriteIsVisible(cs: seq<Context>, strategy: string)
    ensures WithStrategy(cs, strategy) == cs <==> forall c :: c in cs ==> c.strategy == strategy
  {
    var rewritten := WithStrategy(cs, strategy);
    if rewritten == cs {
      forall c | c in cs
        ensures c.strategy == strategy
      {
        var i :| 0 <= i < |cs| && cs[i] == c;
        assert rewritten[i].strategy == strategy;
      }
    } else {
      var i :| 0 <= i < |cs| && rewritten[i] != cs[i];
      assert cs[i] in cs && cs[i].strategy != strategy;
    }
  }

  predicate MovesPortfolio(op: Operation) {
    op.SetRuntimeContexts? || op.SetAuthorization? || op.ClearAuthorization?
    || op.SelectSymbol? || op.SelectInterval? || op.SelectStrategy?
  }

  lemma OthersKeepPortfolio(op: Operation, s: Control)
    requires !MovesPortfolio(op)
    ensures SamePortfolio(s, Apply(op, s).1)
  {
    if TouchesGates(op) {
      GateCallsKeepPortfolio(op, s);
    }
  }

  predicate SamePortfolio(s: Control, next: Control) {
    next.contexts == s.contexts && next.authorization == s.authorization
  }

  lemma GateCallsKeepPortfolio(op: Operation, s: Control)
    requires TouchesGates(op)
    ensures SamePortfolio(s, Apply(op, s).1)
  {
  }

  /** Selections are the only calls that separate authorization and contexts. */
  lemma DriftExactlyBySelection(op: Operation, s: Control)
    requires !Drifted(s) && s.authorization.Some?
    ensures Drifted(Apply(op, s).1) <==> CausesDrift(op, s)
  {
    if !MovesPortfolio(op) {
      OthersKeepPortfolio(op, s);
    } else if Selects(op) {
      SelectionDrifts(op, s);
    }
  }

  lemma SelectionDrifts(op: Operation, s: Control)
    requires !Drifted(s) && s.authorization.Some? && Selects(op)
    ensures Drifted(Apply(op, s).1) <==> CausesDrift(op, s)
  {
    if op.SelectStrategy? {
      StrategyRewriteIsVisible(s.contexts, op.strategy);
    }
  }

  /** Drift is caught at the next resume of a paused managed portfolio. */
  lemma DriftBlocksResume(s: Control)
    requires Drifted(s) && !s.active && s.contexts != []
    ensures Apply(Resume, s).0.Failure? && !Apply(Resume, s).1.active
  {
  }

  /** Between cycles a strategy change drifts a runtime that keeps running. */
  lemma StrategyChangeDriftsWhileActive(s: Control, strategy: string)
    requires s.active && !s.cycle && Reservation(s).None? && Exact(s)
    requires |s.contexts| == 1 && s.contexts[0].strategy != strategy
    ensures var next := Apply(SelectStrategy(strategy), s).1;
      next.active && Drifted(next)
  {
    StrategyRewriteIsVisible(s.contexts, strategy);
    assert s.contexts[0] in s.contexts;
  }
}
