/**
 What each call on the runtime control does, field by field: when it is refused, what it
 changes and what it leaves alone.
 */
module RuntimeCalls {
  import opened Prelude
  import opened Intervals
  import opened RuntimeControl

  // ---------------------------------------------------------------------------
  // What each call changes
  // ---------------------------------------------------------------------------

  /** A refused call changes nothing. */
  lemma RefusalsChangeNothing(op: Operation, s: Control)
    requires Apply(op, s).0.Failure?
    ensures Apply(op, s).1 == s
  {
    if Selects(op) {
      RefusedSelectionChangesNothing(op, s);
    }
  }

  lemma RefusedSelectionChangesNothing(op: Operation, s: Control)
    requires Selects(op) && Apply(op, s).0.Failure?
    ensures Apply(op, s).1 == s
  {
  }

  predicate Unreserved(s: Control) {
    !s.riskLimitChange && !s.operatorExit
  }

  /** Each lock is taken exactly when it is free to take, released exactly by its owner, and touches nothing else. */
  lemma LocksExactly(op: Operation, s: Control)
    ensures var (r, next) := Apply(op, s);
      var idle := !s.active && !s.cycle && Unreserved(s);
      && (next.cycle <==> (op == BeginCycle && Unreserved(s)) || (s.cycle && op != EndCycle))
      && (next.riskLimitChange <==>
            (op == BeginRiskLimitChange && idle) || (s.riskLimitChange && op != EndRiskLimitChange))
      && (next.operatorExit <==> (op == BeginOperatorExit && idle) || (s.operatorExit && op != EndOperatorExit))
      && (op == BeginCycle ==> (r.Success? <==> !s.cycle && Unreserved(s)))
      && (op == BeginRiskLimitChange || op == BeginOperatorExit ==> (r.Success? <==> idle))
      && (op == EndRiskLimitChange ==> (r.Success? <==> s.riskLimitChange))
      && (op == EndOperatorExit ==> (r.Success? <==> s.operatorExit))
  {
    if !TouchesGates(op) {
      ConfigurationKeepsGates(op, s);
    }
  }

  // Nothing keeps an operator from configuring.
  predicate Unlocked(s: Control) {
    !s.active && !s.cycle && Unreserved(s) && !s.setup.streamEnabled
  }

  predicate Resets(op: Operation) {
    match op
    case SetRuntimeContexts(cs) => |cs| != 1 && DistinctSymbols(cs)
    case _ => false
  }

  // What becomes of the confirmations, each given by its own call and taken back by new contexts.
  predicate ConfirmedBy(op: Operation, s: Control, v: Setup) {
    var u := s.setup;
    && (v.exchangeConfirmed <==> u.exchangeConfirmed || (op.ConfirmExchange? && op.matches && Unlocked(s)))
    && (v.marketTypeConfirmed <==> u.marketTypeConfirmed || (op.ConfirmMarketType? && op.matches && Unlocked(s)))
    && (v.symbolConfirmed <==>
          (u.symbolConfirmed && !Resets(op)) || (op.SelectSymbol? && op.normalized.Some? && Unlocked(s)))
    && (v.intervalConfirmed <==> (u.intervalConfirmed && !Resets(op)) || (op.SelectInterval? && Unlocked(s)))
    && (v.strategyConfirmed <==>
          (u.strategyConfirmed && !Resets(op)) || (op.SelectStrategy? && !s.cycle && Unreserved(s)))
  }

  // The calls that leave the operator's setup alone.
  predicate KeepsSetup(op: Operation) {
    TouchesGates(op) || op.SetAuthorization? || op.ClearAuthorization? || op.RequireReconciliation?
  }

  lemma OthersKeepSetup(op: Operation, s: Control)
    requires KeepsSetup(op)
    ensures Apply(op, s).1.setup == s.setup
  {
  }

  /** Each confirmation is given exactly by its own call, while nothing is locked, and taken back by new contexts. */
  lemma ConfirmationsExactly(op: Operation, s: Control)
    ensures ConfirmedBy(op, s, Apply(op, s).1.setup)
  {
    if KeepsSetup(op) {
      OthersKeepSetup(op, s);
    } else if Selects(op) {
      SelectionsConfirm(op, s);
    } else {
      ConnectionsConfirm(op, s);
    }
  }

  lemma SelectionsConfirm(op: Operation, s: Control)
    requires Selects(op)
    ensures ConfirmedBy(op, s, Apply(op, s).1.setup)
  {
    match op
    case SelectSymbol(n) => SymbolConfirms(n, s);
    case SelectInterval(i) => IntervalConfirms(i, s);
    case SelectStrategy(n) => StrategyConfirms(n, s);
  }

  lemma UnlockedMeansNoLock(s: Control)
    ensures ConfigurationLock(s).None? <==> Unlocked(s)
  {
  }

  lemma SymbolConfirms(n: Option<string>, s: Control)
    ensures ConfirmedBy(SelectSymbol(n), s, SymbolSelected(s, n).1.setup)
  {
    var u, v := s.setup, SymbolSelected(s, n).1.setup;
    UnlockedMeansNoLock(s);
    if Unlocked(s) && n.Some? {
      assert v == u.(symbolConfirmed := true, symbol := v.symbol);
    } else {
      assert v == u;
    }
  }

  lemma IntervalConfirms(i: Interval, s: Control)
    ensures ConfirmedBy(SelectInterval(i), s, IntervalSelected(s, i).1.setup)
  {
    IntervalRewrites(i, s);
    IntervalConfirmsAs(i, s, IntervalSelected(s, i).1.setup);
  }

  lemma IntervalRewrites(i: Interval, s: Control)
    ensures var u, v := s.setup, IntervalSelected(s, i).1.setup;
      v == if Unlocked(s) then u.(intervalConfirmed := true, interval := v.interval) else u
  {
    UnlockedMeansNoLock(s);
  }

  lemma IntervalConfirmsAs(i: Interval, s: Control, v: Setup)
    requires v == if Unlocked(s) then s.setup.(intervalConfirmed := true, interval := v.interval) else s.setup
    ensures ConfirmedBy(SelectInterval(i), s, v)
  {
  }

  lemma StrategyConfirms(n: string, s: Control)
    ensures ConfirmedBy(SelectStrategy(n), s, StrategySelected(s, n).1.setup)
  {
  }

  // The remaining calls that the setup listens to.
  predicate Connects(op: Operation) {
    || op.ConfirmExchange? || op.ConfirmMarketType? || op.SetRuntimeContexts?
    || op.SetStreamEnabled? || op.RecordStreamTick?
  }

  lemma ConnectionsConfirm(op: Operation, s: Control)
    requires Connects(op)
    ensures ConfirmedBy(op, s, Apply(op, s).1.setup)
  {
    if op.ConfirmExchange? {
      ExchangeConfirms(op.matches, s);
    } else if op.ConfirmMarketType? {
      MarketTypeConfirms(op.matches, s);
    } else if op.SetRuntimeContexts? {
      ContextsUnconfirm(op.contexts, s);
    } else if op.SetStreamEnabled? {
      StreamConfirmsNothing(op.enabled, s);
      NothingConfirmed(op, s, StreamSet(s, op.enabled).1.setup);
    } else {
      TickConfirmsNothing(op.positive, s);
      NothingConfirmed(op, s, Ticked(s, op.positive).1.setup);
    }
  }

  predicate SameConfirmations(u: Setup, v: Setup) {
    && v.exchangeConfirmed == u.exchangeConfirmed && v.marketTypeConfirmed == u.marketTypeConfirmed
    && v.symbolConfirmed == u.symbolConfirmed && v.intervalConfirmed == u.intervalConfirmed
    && v.strategyConfirmed == u.strategyConfirmed
  }

  lemma StreamConfirmsNothing(enabled: bool, s: Control)
    ensures SameConfirmations(s.setup, StreamSet(s, enabled).1.setup)
  {
    var u, v := s.setup, StreamSet(s, enabled).1.setup;
    if u.streamEnabled == enabled {
      assert v == u;
    } else {
      assert v == u.(streamEnabled := enabled, streamEvents := if enabled then 0 else u.streamEvents);
    }
  }

  lemma TickConfirmsNothing(positive: bool, s: Control)
    ensures SameConfirmations(s.setup, Ticked(s, positive).1.setup)
  {
  }

  lemma NothingConfirmed(op: Operation, s: Control, v: Setup)
    requires (op.SetStreamEnabled? || op.RecordStreamTick?) && SameConfirmations(s.setup, v)
    ensures ConfirmedBy(op, s, v)
  {
  }

  lemma ExchangeConfirms(m: bool, s: Control)
    ensures ConfirmedBy(ConfirmExchange(m), s, ExchangeConfirmed(s, m).1.setup)
  {
  }

  lemma MarketTypeConfirms(m: bool, s: Control)
    ensures ConfirmedBy(ConfirmMarketType(m), s, MarketTypeConfirmed(s, m).1.setup)
  {
  }

  lemma ContextsUnconfirm(cs: seq<Context>, s: Control)
    ensures ConfirmedBy(SetRuntimeContexts(cs), s, ContextsSet(s, cs).1.setup)
  {
    ContextsRewrite(cs, s);
    ContextsUnconfirmAs(cs, s, ContextsSet(s, cs).1.setup);
  }

  lemma ContextsRewrite(cs: seq<Context>, s: Control)
    ensures ContextsSet(s, cs).1.setup == if Resets(SetRuntimeContexts(cs)) then SingularReset(s.setup) else s.setup
  {
  }

  lemma ContextsUnconfirmAs(cs: seq<Context>, s: Control, v: Setup)
    requires v == if Resets(SetRuntimeContexts(cs)) then SingularReset(s.setup) else s.setup
    ensures ConfirmedBy(SetRuntimeContexts(cs), s, v)
  {
  }

  predicate StreamedBy(op: Operation, u: Setup, v: Setup) {
    && v.streamEnabled == (if op.SetStreamEnabled? then op.enabled else u.streamEnabled && !Resets(op))
    && v.streamEvents == (if Resets(op) || (op.SetStreamEnabled? && op.enabled && !u.streamEnabled) then 0
                          else if op.RecordStreamTick? && op.positive then u.streamEvents + 1
                          else u.streamEvents)
  }

  /** The stream is on as last set, and counts positive ticks since it was switched on. */
  lemma StreamExactly(op: Operation, s: Control)
    ensures StreamedBy(op, s.setup, Apply(op, s).1.setup)
  {
    if KeepsSetup(op) {
      OthersKeepSetup(op, s);
    } else if Selects(op) {
      SelectionsKeepStream(op, s);
    } else {
      ConnectionsStream(op, s);
    }
  }

  lemma SelectionsKeepStream(op: Operation, s: Control)
    requires Selects(op)
    ensures StreamedBy(op, s.setup, Apply(op, s).1.setup)
  {
    match op
    case SelectSymbol(n) => assert StreamedBy(op, s.setup, SymbolSelected(s, n).1.setup);
    case SelectInterval(i) => assert StreamedBy(op, s.setup, IntervalSelected(s, i).1.setup);
    case SelectStrategy(n) => assert StreamedBy(op, s.setup, StrategySelected(s, n).1.setup);
  }

  lemma ConnectionsStream(op: Operation, s: Control)
    requires Connects(op)
    ensures StreamedBy(op, s.setup, Apply(op, s).1.setup)
  {
    if op.SetRuntimeContexts? {
      ContextsStopStream(op.contexts, s);
    }
  }

  lemma ContextsStopStream(cs: seq<Context>, s: Control)
    ensures StreamedBy(SetRuntimeContexts(cs), s.setup, ContextsSet(s, cs).1.setup)
  {
  }

  // What the runtime trades by: its one context's selection, or the configured one.
  function Selected(s: Control): (string, Interval, string) {
    if |s.contexts| == 1 then (s.contexts[0].symbol, s.contexts[0].interval, s.contexts[0].strategy)
    else (s.setup.symbol, s.setup.interval, s.setup.strategy)
  }

  /** A selection that goes through is what the runtime trades by from then on, and leaves the other two alone. */
  lemma SelectionsTakeEffect(op: Operation, s: Control)
    requires Selects(op)
    ensures var (r, next) := Apply(op, s); var was, now := Selected(s), Selected(next);
      && (r.Success? <==>
            if op.SelectStrategy? then !s.cycle && Unreserved(s)
            else Unlocked(s) && (op.SelectSymbol? ==> op.normalized.Some?))
      && (r.Success? ==>
            && now.0 == (if op.SelectSymbol? then op.normalized.value else was.0)
            && now.1 == (if op.SelectInterval? then op.interval else was.1)
            && now.2 == (if op.SelectStrategy? then op.strategy else was.2)
            && (r.value <==> now != was))
  {
  }

  /** New contexts are installed exactly when their symbols differ, and nothing that belonged to others survives. */
  lemma ContextsAreInstalledExactly(cs: seq<Context>, s: Control)
    ensures var (r, next) := Apply(SetRuntimeContexts(cs), s);
      && (r.Success? <==> forall i, j :: 0 <= i < j < |cs| ==> cs[i].symbol != cs[j].symbol)
      && (r.Success? ==>
            && next.contexts == cs && next.reconciliation.None?
            && (next.authorization.Some? <==> s.authorization.Some? && s.authorization.value.contexts == cs)
            && (next.authorization.Some? ==> next.authorization == s.authorization))
  {
  }

  /** Authorizations and pending reconciliations are taken for the contexts in place and for nothing else. */
  lemma OwnershipExactly(op: Operation, s: Control)
    requires op.SetAuthorization? || op.ClearAuthorization? || op.RequireReconciliation? || op.SetProtectionReady?
    ensures var (r, next) := Apply(op, s);
      match op
      case SetAuthorization(a) =>
        (r.Success? <==> a.contexts == s.contexts) && (r.Success? ==> next == s.(authorization := Some(a)))
      case RequireReconciliation(c) =>
        (r.Success? <==> c in s.contexts) && (r.Success? ==> next == s.(reconciliation := Some(c)))
      case ClearAuthorization => next == s.(authorization := None)
      case SetProtectionReady(ready) =>
        next == s.(protectionReady := ready) && r == Success(ready != s.protectionReady)
      case _ => true
  {
  }

  // An operator's whole way to a running singular runtime.
  function SetupCalls(symbol: string, interval: Interval, strategy: string): seq<Operation> {
    [ConfirmExchange(true), ConfirmMarketType(true), SelectSymbol(Some(symbol)), SelectInterval(interval),
     SelectStrategy(strategy), SetStreamEnabled(true), RecordStreamTick(true), Resume]
  }

  lemma RunPrefix(ops: seq<Operation>, k: nat, s: Control)
    requires k < |ops|
    ensures Run(ops[..k + 1], s) == Apply(ops[k], Run(ops[..k], s)).1
  {
    assert ops[..k + 1][..k] == ops[..k];
  }

  predicate Configures(op: Operation) {
    op == ConfirmExchange(true) || op == ConfirmMarketType(true) || Selects(op)
  }

  lemma ConfiguringStaysUnlocked(op: Operation, s: Control)
    requires Configures(op) && Unlocked(s) && s.contexts == []
    ensures var next := Apply(op, s).1;
      Unlocked(next) && next.contexts == [] && next.protectionReady == s.protectionReady
  {
    ConfigurationKeepsGates(op, s);
    StreamExactly(op, s);
    match op
    case SelectSymbol(n) => assert SymbolSelected(s, n).1.contexts == [];
    case SelectInterval(i) => assert IntervalSelected(s, i).1.contexts == [];
    case SelectStrategy(n) => assert StrategySelected(s, n).1.contexts == [];
    case _ => OthersKeepPortfolio(op, s);
  }

  lemma ConfirmingKeepsSelection(op: Operation, s: Control)
    requires op == ConfirmExchange(true) || op == ConfirmMarketType(true)
    ensures Selected(Apply(op, s).1) == Selected(s)
  {
  }

  lemma SetupConfirms(s: Control, symbol: string, interval: Interval, strategy: string)
    requires Unlocked(s) && s.contexts == []
    ensures var next := Run(SetupCalls(symbol, interval, strategy)[..5], s); var u := next.setup;
      && Unlocked(next) && next.contexts == [] && next.protectionReady == s.protectionReady
      && u.exchangeConfirmed && u.marketTypeConfirmed && u.symbolConfirmed && u.intervalConfirmed && u.strategyConfirmed
      && Selected(next) == (symbol, interval, strategy)
  {
    var ops := SetupCalls(symbol, interval, strategy);
    assert ops[..0] == [];
    var s1 := SetupStep(ops, 0, s, s);
    var s2 := SetupStep(ops, 1, s, s1);
    var s5 := SetupSelects(ops, s, s2, symbol, interval, strategy);
  }

  lemma SetupSelects(
      ops: seq<Operation>, s: Control, before: Control, symbol: string, interval: Interval, strategy: string)
    returns (next: Control)
    requires |ops| >= 5 && ops[2] == SelectSymbol(Some(symbol)) && ops[3] == SelectInterval(interval)
    requires ops[4] == SelectStrategy(strategy)
    requires Run(ops[..2], s) == before && Unlocked(before) && before.contexts == []
    ensures Run(ops[..5], s) == next && Unlocked(next) && next.contexts == []
    ensures next.protectionReady == before.protectionReady && Selected(next) == (symbol, interval, strategy)
    ensures var u, v := before.setup, next.setup;
      && (u.exchangeConfirmed ==> v.exchangeConfirmed) && (u.marketTypeConfirmed ==> v.marketTypeConfirmed)
      && v.symbolConfirmed && v.intervalConfirmed && v.strategyConfirmed
  {
    var s3 := SetupStep(ops, 2, s, before);
    var s4 := SetupStep(ops, 3, s, s3);
    next := SetupStep(ops, 4, s, s4);
  }

  // Earlier confirmations stay, and the call adds its own.
  predicate Gives(op: Operation, u: Setup, v: Setup) {
    && (u.exchangeConfirmed || op.ConfirmExchange? ==> v.exchangeConfirmed)
    && (u.marketTypeConfirmed || op.ConfirmMarketType? ==> v.marketTypeConfirmed)
    && (u.symbolConfirmed || (op.SelectSymbol? && op.normalized.Some?) ==> v.symbolConfirmed)
    && (u.intervalConfirmed || op.SelectInterval? ==> v.intervalConfirmed)
    && (u.strategyConfirmed || op.SelectStrategy? ==> v.strategyConfirmed)
  }

  lemma SetupStep(ops: seq<Operation>, k: nat, s: Control, before: Control) returns (next: Control)
    requires k < |ops| && Configures(ops[k]) && Run(ops[..k], s) == before && Unlocked(before) && before.contexts == []
    ensures Run(ops[..k + 1], s) == next == Apply(ops[k], before).1
    ensures Unlocked(next) && next.contexts == [] && next.protectionReady == before.protectionReady
    ensures Gives(ops[k], before.setup, next.setup)
    ensures var was, now := Selected(before), Selected(next); var op := ops[k];
      && now.0 == (if op.SelectSymbol? && op.normalized.Some? then op.normalized.value else was.0)
      && now.1 == (if op.SelectInterval? then op.interval else was.1)
      && now.2 == (if op.SelectStrategy? then op.strategy else was.2)
  {
    RunPrefix(ops, k, s);
    next := Apply(ops[k], before).1;
    ConfiguringStaysUnlocked(ops[k], before);
    ConfirmationsExactly(ops[k], before);
    if Selects(ops[k]) {
      SelectionsTakeEffect(ops[k], before);
      if Apply(ops[k], before).0.Failure? {
        RefusalsChangeNothing(ops[k], before);
      }
    } else {
      ConfirmingKeepsSelection(ops[k], before);
    }
  }

  /** From any idle, unreserved and protected control without contexts, an operator's calls start the runtime. */
  lemma SetupStartsTheRuntime(s: Control, symbol: string, interval: Interval, strategy: string)
    requires Unlocked(s) && s.protectionReady && s.contexts == []
    ensures var after := Run(SetupCalls(symbol, interval, strategy), s);
      after.active && Selected(after) == (symbol, interval, strategy)
  {
    var ops := SetupCalls(symbol, interval, strategy);
    SetupConfirms(s, symbol, interval, strategy);
    var on := StreamsOn(ops, s, Run(ops[..5], s));
    var ticked := Ticks(ops, s, on);
    var running := Resumes(ops, s, ticked);
    assert ops[..8] == ops;
  }

  // Everything a singular runtime needs but its stream.
  predicate Configured(s: Control) {
    var u := s.setup;
    && !s.active && Unreserved(s) && s.protectionReady && s.contexts == []
    && u.exchangeConfirmed && u.marketTypeConfirmed && u.symbolConfirmed && u.intervalConfirmed && u.strategyConfirmed
  }

  lemma StreamsOn(ops: seq<Operation>, s: Control, before: Control) returns (next: Control)
    requires |ops| == 8 && ops[5] == SetStreamEnabled(true) && Run(ops[..5], s) == before && Configured(before)
    ensures Run(ops[..6], s) == next && Configured(next) && Selected(next) == Selected(before)
    ensures next.setup.streamEnabled
  {
    RunPrefix(ops, 5, s);
    next := StreamSet(before, true).1;
  }

  lemma Ticks(ops: seq<Operation>, s: Control, before: Control) returns (next: Control)
    requires |ops| == 8 && ops[6] == RecordStreamTick(true) && Run(ops[..6], s) == before
    requires Configured(before) && before.setup.streamEnabled
    ensures Run(ops[..7], s) == next && Configured(next) && Selected(next) == Selected(before)
    ensures next.setup.streamEnabled && next.setup.streamEvents > 0
  {
    RunPrefix(ops, 6, s);
    next := Ticked(before, true).1;
  }

  lemma Resumes(ops: seq<Operation>, s: Control, before: Control) returns (next: Control)
    requires |ops| == 8 && ops[7] == Resume && Run(ops[..7], s) == before && Configured(before)
    requires before.setup.streamEnabled && before.setup.streamEvents > 0
    ensures Run(ops[..8], s) == next && next.active && Selected(next) == Selected(before)
  {
    RunPrefix(ops, 7, s);
    next := Resumed(before).1;
  }
}
