/** What zone-first stalking guarantees for single calls and over whole runs. */
module StalkingSafety {
  import opened Prelude
  import opened Candles
  import opened StalkingSetups
  import opened StrategyService

  // ---------------------------------------------------------------------------
  // Setups
  // ---------------------------------------------------------------------------

  /** A zone is registered only with its retest target strictly inside its invalidation and stop. */
  lemma ZoneTargetIsInside(cfg: Config, c: Candidate, candle: Candle)
    requires c.pattern.IsZone() && Geometry(cfg, c, candle).Some?
    ensures var (invalidation, target) := Geometry(cfg, c, candle).value;
      && target == c.price
      && (if SideOf(c).Short? then
            && target < invalidation
            && (c.stopLoss.Some? ==> candle.high < c.stopLoss.value && invalidation <= c.stopLoss.value)
          else
            && invalidation < target
            && (c.stopLoss.Some? ==> c.stopLoss.value < candle.low && c.stopLoss.value <= invalidation))
  {
  }

  function AdvancedBy(cfg: Config, s: Setup, news: seq<(Candle, Shapes)>): Setup {
    if news == [] then s
    else
      var before := AdvancedBy(cfg, s, news[..|news| - 1]);
      if before.progress.Stalking? then Advanced(cfg, before, news[|news| - 1].0, news[|news| - 1].1) else before
  }

  /** Every candle a setup survives costs it one bar, so it ends within its window. */
  lemma {:induction false} StalkingEnds(cfg: Config, s: Setup, news: seq<(Candle, Shapes)>)
    requires s.progress.Stalking? && s.currentBar < s.maxBars
    ensures var after := AdvancedBy(cfg, s, news);
      && after.maxBars == s.maxBars
      && (after.progress.Stalking? ==> after.currentBar == s.currentBar + |news| < s.maxBars)
      && (s.currentBar + |news| >= s.maxBars ==> !after.progress.Stalking?)
  {
    if news != [] {
      StalkingEnds(cfg, s, news[..|news| - 1]);
    }
  }

  /** A zone keeps its target, invalidation and stop through every candle, its confirmation included. */
  lemma {:induction false} ZoneGeometryIsFixed(cfg: Config, s: Setup, news: seq<(Candle, Shapes)>)
    requires s.pattern.IsZone()
    ensures var after := AdvancedBy(cfg, s, news);
      && after.target == s.target && after.invalidation == s.invalidation && after.stopLoss == s.stopLoss
      && (after.pattern.IsZone() || after.reversalConfirmed)
  {
    if news != [] {
      var front, last := news[..|news| - 1], news[|news| - 1];
      ZoneGeometryIsFixed(cfg, s, front);
      OneCandleKeepsZone(cfg, AdvancedBy(cfg, s, front), last.0, last.1);
    }
  }

  lemma OneCandleKeepsZone(cfg: Config, s: Setup, candle: Candle, shapes: Shapes)
    requires s.pattern.IsZone() || s.reversalConfirmed
    ensures var next := Advanced(cfg, s, candle, shapes);
      && next.target == s.target && next.invalidation == s.invalidation && next.stopLoss == s.stopLoss
      && (next.pattern.IsZone() || next.reversalConfirmed)
  {
  }

  ghost predicate BeyondStop(side: Side, stop: real, price: real) {
    if side.Short? then stop >= price else stop <= price
  }

  /** Any other confirmation aims inside the confirming candle's body and never tightens the stop. */
  lemma ConfirmationAimsInsideBody(cfg: Config, s: Setup, candle: Candle, pattern: Pattern)
    requires 0.0 <= cfg.retestRatio <= 1.0 && !s.pattern.IsZone()
    ensures var c := Confirmed(cfg, s, candle, pattern);
      && Min(candle.open, candle.close) <= c.target <= Max(candle.open, candle.close)
      && c.invalidation == (if s.side.Short? then candle.high else candle.low)
      && c.stopLoss.Some? && BeyondStop(s.side, c.stopLoss.value, c.invalidation)
      && (s.stopLoss.Some? ==> BeyondStop(s.side, c.stopLoss.value, s.stopLoss.value))
  {
    RetracementIsInsideBody(candle, s.side, cfg.retestRatio);
  }

  lemma RetracementIsInsideBody(candle: Candle, side: Side, ratio: real)
    requires 0.0 <= ratio <= 1.0
    ensures Min(candle.open, candle.close) <= Retracement(candle, side, ratio) <= Max(candle.open, candle.close)
  {
    TowardIsBetween(Min(candle.open, candle.close), Max(candle.open, candle.close), ratio);
  }

  lemma TowardIsBetween(bottom: real, top: real, share: real)
    requires bottom <= top && 0.0 <= share <= 1.0
    ensures bottom <= Toward(bottom, top, share) <= top
    ensures bottom <= Toward(top, bottom, share) <= top
  {
    NonNegativeProduct(top - bottom, share);
    NonNegativeProduct(top - bottom, 1.0 - share);
    assert (top - bottom) * (1.0 - share) == (top - bottom) - (top - bottom) * share;
  }

  lemma NonNegativeProduct(a: real, b: real)
    requires a >= 0.0 && b >= 0.0
    ensures a * b >= 0.0
  {
  }

  ghost function Finished(b: Book): set<string> {
    set k | k in b.setups && !b.setups[k].progress.Stalking?
  }

  lemma {:induction false} OldestOf(b: Book, keys: set<string>) returns (oldest: string)
    requires keys != {} && keys <= b.setups.Keys
    ensures oldest in keys && forall k :: k in keys ==> b.setups[oldest].updatedAt <= b.setups[k].updatedAt
    decreases |keys|
  {
    var k :| k in keys;
    oldest := k;
    assert forall j :: j in keys ==> j == k || j in keys - {k};
    if keys - {k} != {} {
      var other := OldestOf(b, keys - {k});
      if b.setups[other].updatedAt < b.setups[k].updatedAt {
        oldest := other;
      }
    }
  }

  /** Registration keeps every stalking setup and only the ten latest of the others, triggered ones included. */
  lemma HistoryIsBounded(b: Book)
    requires WellKept(b)
    ensures var kept := Pruned(b);
      && ActiveSymbols(kept) == ActiveSymbols(b)
      && |Finished(kept)| <= HISTORY_LIMIT
      && (forall k :: k in Finished(b) && k !in kept.setups ==> |Newer(b.setups, k)| >= HISTORY_LIMIT)
  {
    var kept := Pruned(b);
    var finished := Finished(kept);
    if finished != {} {
      var oldest := OldestOf(kept, finished);
      var others := finished - {oldest};
      forall k | k in others
        ensures k in Newer(b.setups, oldest)
      {
        assert kept.setups[k] == b.setups[k] && kept.setups[oldest] == b.setups[oldest];
      }
      SubsetIsSmaller(others, Newer(b.setups, oldest));
    }
  }

  ghost function DroppedKeys(b: Book): set<string> {
    set k | k in b.setups && k !in Pruned(b).setups
  }

  lemma {:induction false} NewestOf(b: Book, keys: set<string>) returns (newest: string)
    requires keys != {} && keys <= b.setups.Keys
    ensures newest in keys && forall k :: k in keys ==> b.setups[k].updatedAt <= b.setups[newest].updatedAt
    decreases |keys|
  {
    var k :| k in keys;
    newest := k;
    assert forall j :: j in keys ==> j == k || j in keys - {k};
    if keys - {k} != {} {
      var other := NewestOf(b, keys - {k});
      if b.setups[other].updatedAt > b.setups[k].updatedAt {
        newest := other;
      }
    }
  }

  lemma KeptAreLater(b: Book, k: string, j: string)
    requires WellKept(b) && k in Finished(Pruned(b)) && j in DroppedKeys(b)
    ensures b.setups[j].updatedAt < b.setups[k].updatedAt
  {
    if b.setups[k].updatedAt <= b.setups[j].updatedAt {
      SubsetIsSmaller(Newer(b.setups, j), Newer(b.setups, k));
    }
  }

  /**
   Of the setups no longer stalking, pruning keeps all while there are at most ten, and
   otherwise exactly the ten that were updated last.
   */
  lemma PruningKeepsTheTenLatest(b: Book)
    requires WellKept(b)
    ensures |Finished(b)| <= 10 ==> Pruned(b) == b
    ensures DroppedKeys(b) != {} ==> |Finished(Pruned(b))| == 10
    ensures forall k, j :: k in Finished(Pruned(b)) && j in DroppedKeys(b) ==>
      b.setups[j].updatedAt < b.setups[k].updatedAt
  {
    HistoryIsBounded(b);
    forall k, j | k in Finished(Pruned(b)) && j in DroppedKeys(b)
      ensures b.setups[j].updatedAt < b.setups[k].updatedAt
    {
      KeptAreLater(b, k, j);
    }
    if DroppedKeys(b) != {} {
      var j := NewestOf(b, DroppedKeys(b));
      NewerAreKept(b, j);
    } else {
      assert Pruned(b).setups.Keys == b.setups.Keys;
    }
    if |Finished(b)| <= 10 {
      FewAreKept(b);
    }
  }

  lemma NewerAreKept(b: Book, j: string)
    requires WellKept(b) && j in DroppedKeys(b)
    requires forall k :: k in DroppedKeys(b) ==> b.setups[k].updatedAt <= b.setups[j].updatedAt
    ensures |Finished(Pruned(b))| >= 10
  {
    var newer := Newer(b.setups, j);
    forall k | k in newer
      ensures k in Finished(Pruned(b))
    {
      assert k !in DroppedKeys(b);
    }
    SubsetIsSmaller(newer, Finished(Pruned(b)));
  }

  lemma FewAreKept(b: Book)
    requires WellKept(b) && |Finished(b)| <= 10
    ensures Pruned(b) == b
  {
    forall k | k in b.setups
      ensures k in Pruned(b).setups
    {
      if k in Finished(b) {
        SubsetIsSmaller(Newer(b.setups, k), Finished(b) - {k});
      }
    }
    assert Pruned(b).setups == b.setups;
  }

  // ---------------------------------------------------------------------------
  // Single calls
  // ---------------------------------------------------------------------------

  ghost predicate ZoneFirst(call: Call) {
    call.candles != [] && call.stalking && call.pier
  }

  // The setup this candle triggers, as it is filed.
  ghost function TriggeredBy(s: Setup, candle: Candle, stamp: nat): Setup {
    s.(currentBar := s.currentBar + 1, progress := Triggered, lastProcessed := candle.closeTime, updatedAt := stamp)
  }

  ghost predicate Triggers(call: Call, b: Book)
    requires call.candles != []
  {
    var candle := Latest(call);
    candle.symbol in b.setups &&
    var s := b.setups[candle.symbol];
    && s.progress.Stalking? && s.currentBar < s.maxBars
    && IsNews(s, candle)
    && s.reversalConfirmed
    && !Breached(s, candle)
    && Retested(s, candle)
  }

  ghost predicate PassesChecks(e: Engine, t: Setup, candle: Candle) {
    && e.guards(t.side).GuardsPass?
    && e.entryZone(t.side, candle.close)
    && Clamped(e, t.side, TriggeredSignal(t, candle)).Some?
    && !e.confluence(Clamped(e, t.side, TriggeredSignal(t, candle)).value).kind.Hold?
  }

  /**
   An entry comes exactly from a setup that was already stalking and confirmed, that
   this new candle retested without breaching, and that passed guards, entry zone,
   target clamp and confluence; the entry leaves the setup triggered.
   */
  lemma EntryExactlyWhenTriggeredAndPassed(cfg: Config, call: Call, b: Book)
    requires ZoneFirst(call) && WellKept(b)
    ensures var (signal, next) := Generate(cfg, call, b);
      var candle := Latest(call);
      && (!signal.kind.Hold? <==>
            && Triggers(call, b)
            && PassesChecks(call.engine, TriggeredBy(b.setups[candle.symbol], candle, b.clock), candle))
      && (!signal.kind.Hold? ==>
            var t := TriggeredBy(b.setups[candle.symbol], candle, b.clock);
            && signal == call.engine.confluence(Clamped(call.engine, t.side, TriggeredSignal(t, candle)).value)
            && next == b.(setups := b.setups[candle.symbol := t], clock := b.clock + 1))
  {
    var candle := Latest(call);
    if candle.symbol in b.setups && b.setups[candle.symbol].progress.Stalking?
       && IsNews(b.setups[candle.symbol], candle)
    {
      TriggerIsRetest(cfg, b.setups[candle.symbol], candle, ShapesOf(call));
    }
  }

  lemma TriggerIsRetest(cfg: Config, s: Setup, candle: Candle, shapes: Shapes)
    requires s.progress.Stalking?
    ensures Advanced(cfg, s, candle, shapes).progress.Triggered? <==>
      s.currentBar < s.maxBars && s.reversalConfirmed && !Breached(s, candle) && Retested(s, candle)
    ensures Advanced(cfg, s, candle, shapes).progress.Triggered? ==>
      Advanced(cfg, s, candle, shapes).(updatedAt := s.updatedAt) == TriggeredBy(s, candle, s.updatedAt)
  {
  }

  /**
   The entry's take-profit lies beyond the entry price, unless it did not and the
   entry is at its stop; and a plan of at least 1.5 times the risk still pays at
   least the risk at the actual entry.
   */
  lemma EntryTargetIsProfitable(s: Setup, entry: real, stop: real, takeProfit: real)
    ensures var target := EntryTarget(s, entry, stop, takeProfit);
      Pays(s.side, entry, Abs(entry - stop), PlannedRatio(s, stop, takeProfit), takeProfit, target)
  {
    ProjectionPays(s.side, entry, Abs(entry - stop), PlannedRatio(s, stop, takeProfit),
                   Abs(takeProfit - s.anchor), takeProfit);
  }

  ghost predicate Pays(side: Side, entry: real, risk: real, ratio: real, takeProfit: real, target: real) {
    && (Inverted(side, entry, target) <==> Inverted(side, entry, takeProfit) && risk == 0.0)
    && (ratio >= 1.5 ==> Abs(target - entry) >= risk)
    && (target != takeProfit ==> 1.5 * risk <= Abs(target - entry) <= 2.5 * risk)
  }

  lemma ProjectionPays(side: Side, entry: real, risk: real, ratio: real, planned: real, takeProfit: real)
    requires risk >= 0.0
    ensures Pays(side, entry, risk, ratio, takeProfit, Projected(side, entry, risk, ratio, planned, takeProfit))
  {
    var multiple := Max(1.5, Min(ratio, 2.5));
    TimesBetween(risk, multiple);
    ShiftPays(side, entry, risk, ratio, planned, takeProfit, Reward(risk, multiple),
              Projected(side, entry, risk, ratio, planned, takeProfit));
  }

  lemma ShiftPays(
      side: Side, entry: real, risk: real, ratio: real, planned: real, takeProfit: real, shift: real, target: real)
    requires 0.0 <= risk && 1.5 * risk <= shift <= 2.5 * risk
    requires var reward := Abs(takeProfit - entry);
      var lost := ratio >= 1.5 && risk > 0.0 && (reward < risk || reward < planned * 0.60);
      target == if Inverted(side, entry, takeProfit) || lost then (if side.Long? then entry + shift else entry - shift)
                else takeProfit
    ensures Pays(side, entry, risk, ratio, takeProfit, target)
  {
  }

  lemma TimesBetween(risk: real, multiple: real)
    requires risk >= 0.0 && 1.5 <= multiple <= 2.5
    ensures 1.5 * risk <= Reward(risk, multiple) <= 2.5 * risk
  {
    assert risk * (multiple - 1.5) >= 0.0;
    assert risk * (2.5 - multiple) >= 0.0;
  }

  ghost predicate Watching(call: Call, b: Book)
    requires call.candles != []
  {
    Latest(call).symbol in b.setups && b.setups[Latest(call).symbol].progress.Stalking?
  }

  // Meeting a candle files one new state of the symbol's setup, or nothing.
  ghost predicate AdvancesOnly(call: Call, b: Book, signal: Signal, next: Book)
    requires ZoneFirst(call) && Watching(call, b)
  {
    var symbol := Latest(call).symbol;
    || next == b
    || (&& IsNews(b.setups[symbol], Latest(call))
        && symbol in next.setups
        && next == Book(b.setups[symbol := next.setups[symbol]], b.paused, next.clock)
        && next.setups[symbol].lastProcessed == Latest(call).closeTime
        && (signal.kind.Hold? ==> !next.setups[symbol].progress.Triggered?))
  }

  lemma WatchingAdvancesOnly(cfg: Config, call: Call, b: Book)
    requires ZoneFirst(call) && WellKept(b) && Watching(call, b)
    ensures AdvancesOnly(call, b, Generate(cfg, call, b).0, Generate(cfg, call, b).1)
    ensures WellKept(Generate(cfg, call, b).1)
  {
    var candle := Latest(call);
    var (updated, next) := Update(cfg, candle, ShapesOf(call), b);
    UpdateFiles(cfg, candle, ShapesOf(call), b);
    if updated.Some? && updated.value.progress.Triggered? {
      TriggerFilesOnly(call.engine, updated.value, candle, next);
    }
  }

  // The book differs at most in the symbol's own setup.
  ghost predicate Files(b: Book, next: Book, symbol: string, lastProcessed: int) {
    && WellKept(next)
    && symbol in next.setups
    && next == Book(b.setups[symbol := next.setups[symbol]], b.paused, next.clock)
    && next.setups[symbol].lastProcessed == lastProcessed
  }

  lemma EndFiles(b: Book, symbol: string, progress: Progress)
    requires WellKept(b) && symbol in b.setups && !progress.Stalking?
    ensures var next := Ended(b, symbol, progress).1;
      Files(b, next, symbol, b.setups[symbol].lastProcessed) && next.setups[symbol].progress == progress
  {
    PutIsWellKept(b, b.setups[symbol].(progress := progress));
  }

  lemma ResetFiles(b: Book, symbol: string)
    requires WellKept(b) && symbol in b.setups && b.setups[symbol].progress.Triggered?
    ensures var next := ResetTrigger(b, symbol).1;
      Files(b, next, symbol, b.setups[symbol].lastProcessed) && !next.setups[symbol].progress.Triggered?
  {
    var s := b.setups[symbol];
    PutIsWellKept(b, s.(progress := if s.currentBar >= s.maxBars then Expired else Stalking));
  }

  lemma TriggerIsKeptOrDropped(e: Engine, s: Setup, candle: Candle, b: Book)
    ensures var (signal, next) := OnTrigger(e, s, candle, b);
      if signal.kind.Hold? then
        next == Ended(b, candle.symbol, Invalidated).1 || next == ResetTrigger(b, candle.symbol).1
      else next == b
  {
  }

  lemma TriggerFilesOnly(e: Engine, s: Setup, candle: Candle, b: Book)
    requires WellKept(b) && candle.symbol in b.setups && b.setups[candle.symbol].progress.Triggered?
    ensures var (signal, next) := OnTrigger(e, s, candle, b);
      && Files(b, next, candle.symbol, b.setups[candle.symbol].lastProcessed)
      && (signal.kind.Hold? <==> !next.setups[candle.symbol].progress.Triggered?)
  {
    TriggerIsKeptOrDropped(e, s, candle, b);
    EndFiles(b, candle.symbol, Invalidated);
    ResetFiles(b, candle.symbol);
  }

  lemma UpdateFiles(cfg: Config, candle: Candle, shapes: Shapes, b: Book)
    requires WellKept(b) && candle.symbol in b.setups && b.setups[candle.symbol].progress.Stalking?
    ensures var (updated, next) := Update(cfg, candle, shapes, b);
      && updated.Some?
      && (next == b || (IsNews(b.setups[candle.symbol], candle) && Files(b, next, candle.symbol, candle.closeTime)))
      && candle.symbol in next.setups && next.setups[candle.symbol] == updated.value
  {
    UpdateIsWellKept(cfg, candle, shapes, b);
  }

  // Otherwise a candidate may be filed as a new setup.
  ghost predicate RegistersOnly(cfg: Config, call: Call, b: Book, signal: Signal, next: Book)
    requires ZoneFirst(call)
  {
    && signal.kind.Hold?
    && (next == b || (
          && call.engine.candidate.Some?
          && var c := call.engine.candidate.value;
          && (c.symbol in b.setups ==>
                !b.setups[c.symbol].progress.Stalking? && !b.setups[c.symbol].progress.Triggered?
                && b.setups[c.symbol].lastProcessed < Latest(call).closeTime)
          && |ActiveSymbols(b)| < cfg.maxCandidates
          && Geometry(cfg, c, Latest(call)).Some?
          && next == Pruned(Put(b, NewSetup(cfg, c, Latest(call), Geometry(cfg, c, Latest(call)).value)))))
  }

  lemma ScanRegistersOnly(cfg: Config, call: Call, b: Book)
    requires ZoneFirst(call) && WellKept(b) && !Watching(call, b)
    ensures RegistersOnly(cfg, call, b, Generate(cfg, call, b).0, Generate(cfg, call, b).1)
    ensures WellKept(Generate(cfg, call, b).1)
  {
    ScanIsWellKept(cfg, call, b);
    if call.engine.candidate.Some? {
      RegisterIsWellKept(cfg, call.engine.candidate.value, Latest(call), b);
    }
  }

  lemma ScanIsWellKept(cfg: Config, call: Call, b: Book)
    requires ZoneFirst(call) && WellKept(b) && !Watching(call, b)
    ensures WellKept(Generate(cfg, call, b).1)
  {
    if call.engine.candidate.Some? {
      RegisterIsWellKept(cfg, call.engine.candidate.value, Latest(call), b);
    }
  }

  /**
   A call that enters nothing triggers nothing: a setup triggered after it was
   triggered before it. Other symbols keep their setups, except finished ones that
   registration pushes out of the history.
   */
  lemma HoldTriggersNothing(cfg: Config, call: Call, b: Book)
    requires ZoneFirst(call) && WellKept(b)
    requires call.engine.candidate.Some? ==> call.engine.candidate.value.symbol == Latest(call).symbol
    ensures var (signal, next) := Generate(cfg, call, b);
      var symbol := Latest(call).symbol;
      && (signal.kind.Hold? && symbol in next.setups && next.setups[symbol].progress.Triggered? ==>
            symbol in b.setups && b.setups[symbol] == next.setups[symbol])
      && (forall k :: k in next.setups && k != symbol ==> k in b.setups && b.setups[k] == next.setups[k])
      && (forall k :: k in b.setups && b.setups[k].progress.Stalking? && k != symbol ==> k in next.setups)
  {
    if Watching(call, b) {
      WatchingHoldTriggersNothing(cfg, call, b);
    } else {
      ScanRegistersOnly(cfg, call, b);
    }
  }

  lemma WatchingHoldTriggersNothing(cfg: Config, call: Call, b: Book)
    requires ZoneFirst(call) && WellKept(b) && Watching(call, b)
    ensures var (signal, next) := Generate(cfg, call, b);
      var symbol := Latest(call).symbol;
      && (signal.kind.Hold? && symbol in next.setups && next.setups[symbol].progress.Triggered? ==>
            symbol in b.setups && b.setups[symbol] == next.setups[symbol])
      && (forall k :: k in next.setups && k != symbol ==> k in b.setups && b.setups[k] == next.setups[k])
      && (forall k :: k in b.setups && b.setups[k].progress.Stalking? && k != symbol ==> k in next.setups)
  {
    WatchingAdvancesOnly(cfg, call, b);
  }

  /**
   A triggered setup that nobody executes blocks its symbol: generation never expires
   it, although the setup service itself would at the next candle.
   */
  lemma UnexecutedTriggerBlocksItsSymbol(cfg: Config, call: Call, b: Book)
    requires WellKept(b) && ZoneFirst(call)
    requires Latest(call).symbol in b.setups && b.setups[Latest(call).symbol].progress.Triggered?
    requires call.engine.candidate.Some? ==> call.engine.candidate.value.symbol == Latest(call).symbol
    ensures Generate(cfg, call, b).0.kind.Hold? && Generate(cfg, call, b).1 == b
    ensures !b.paused && Latest(call).closeTime > b.setups[Latest(call).symbol].lastProcessed ==>
      Update(cfg, Latest(call), ShapesOf(call), b).1.setups[Latest(call).symbol].progress.Expired?
  {
  }

  // ---------------------------------------------------------------------------
  // Whole runs
  // ---------------------------------------------------------------------------

  datatype Op =
    | Generating(call: Call)
    | Consuming(symbol: string)
    | Invalidating(symbol: string)
    | SettingPaused(paused: bool)

  function Step(cfg: Config, op: Op, b: Book): (Option<Signal>, Book) {
    match op
    case Generating(call) => var (signal, next) := Generate(cfg, call, b); (Some(signal), next)
    case Consuming(symbol) => (None, Ended(b, symbol, Consumed).1)
    case Invalidating(symbol) => (None, Ended(b, symbol, Invalidated).1)
    case SettingPaused(paused) => (None, Pausing(b, paused))
  }

  function Run(cfg: Config, ops: seq<Op>): Book {
    if ops == [] then EMPTY else Step(cfg, ops[|ops| - 1], Run(cfg, ops[..|ops| - 1])).1
  }

  lemma GenerateIsWellKept(cfg: Config, call: Call, b: Book)
    requires WellKept(b) && ZoneFirst(call)
    ensures WellKept(Generate(cfg, call, b).1)
  {
    if Watching(call, b) {
      WatchingAdvancesOnly(cfg, call, b);
    } else {
      ScanRegistersOnly(cfg, call, b);
    }
  }

  lemma StepIsWellKept(cfg: Config, op: Op, b: Book)
    requires WellKept(b)
    ensures WellKept(Step(cfg, op, b).1)
  {
    if op.Generating? && ZoneFirst(op.call) {
      GenerateIsWellKept(cfg, op.call, b);
    }
  }

  lemma {:induction false} RunIsWellKept(cfg: Config, ops: seq<Op>)
    ensures WellKept(Run(cfg, ops))
  {
    if ops != [] {
      RunIsWellKept(cfg, ops[..|ops| - 1]);
      StepIsWellKept(cfg, ops[|ops| - 1], Run(cfg, ops[..|ops| - 1]));
    }
  }

  // The call files a setup for another symbol, and ten more, no longer stalking, were updated since.
  ghost predicate PushesOut(cfg: Config, op: Op, b: Book, symbol: string) {
    && op.Generating? && ZoneFirst(op.call) && !Watching(op.call, b) && Generate(cfg, op.call, b).1 != b
    && op.call.engine.candidate.Some? && symbol in b.setups
    && |Newer(b.setups, symbol) - {op.call.engine.candidate.value.symbol}| >= HISTORY_LIMIT
  }

  // The ways a triggered setup leaves: executed, rejected, cleared, or pushed out of the history.
  ghost predicate Removes(cfg: Config, op: Op, b: Book, symbol: string) {
    || op == Consuming(symbol) || op == Invalidating(symbol)
    || (op == SettingPaused(true) && !b.paused)
    || PushesOut(cfg, op, b, symbol)
  }

  ghost predicate Holds(b: Book, symbol: string, s: Setup) {
    symbol in b.setups && b.setups[symbol] == s
  }

  lemma RegistrationKeepsUnlessPushed(b: Book, s: Setup, symbol: string)
    requires symbol in b.setups && b.setups[symbol].progress.Triggered? && s.symbol != symbol && s.progress.Stalking?
    requires forall k :: k in b.setups ==> b.setups[k].updatedAt < b.clock
    ensures Holds(Pruned(Put(b, s)), symbol, b.setups[symbol])
      <==> |Newer(b.setups, symbol) - {s.symbol}| < HISTORY_LIMIT
  {
    var put := Put(b, s);
    assert Newer(put.setups, symbol) == Newer(b.setups, symbol) - {s.symbol};
  }

  /** A triggered setup stays as it is in any step but those. */
  lemma TriggeredStaysUnlessRemoved(cfg: Config, op: Op, b: Book, symbol: string)
    requires WellKept(b) && symbol in b.setups && b.setups[symbol].progress.Triggered?
    ensures Holds(Step(cfg, op, b).1, symbol, b.setups[symbol]) <==> !Removes(cfg, op, b, symbol)
  {
    if op.Generating? && ZoneFirst(op.call) {
      if Watching(op.call, b) {
        WatchingAdvancesOnly(cfg, op.call, b);
      } else {
        ScanKeepsUnlessPushed(cfg, op.call, b, symbol);
      }
    }
  }

  lemma ScanKeepsUnlessPushed(cfg: Config, call: Call, b: Book, symbol: string)
    requires WellKept(b) && symbol in b.setups && b.setups[symbol].progress.Triggered?
    requires ZoneFirst(call) && !Watching(call, b)
    ensures Holds(Generate(cfg, call, b).1, symbol, b.setups[symbol]) <==> !PushesOut(cfg, Generating(call), b, symbol)
  {
    ScanRegistersOnly(cfg, call, b);
    if Generate(cfg, call, b).1 != b {
      var c := call.engine.candidate.value;
      RegistrationKeepsUnlessPushed(b, NewSetup(cfg, c, Latest(call), Geometry(cfg, c, Latest(call)).value), symbol);
    }
  }

  /**
   Over every run: a setup that has been triggered stays exactly until it is consumed,
   invalidated, cleared by a pause or pushed out by registrations for other symbols; and
   until then every call on its symbol holds.
   */
  lemma {:induction false} TriggerBlocksExactlyUntilRemoved(cfg: Config, ops: seq<Op>, i: nat, symbol: string)
    requires i <= |ops| && symbol in Run(cfg, ops[..i]).setups
    requires Run(cfg, ops[..i]).setups[symbol].progress.Triggered?
    ensures var s := Run(cfg, ops[..i]).setups[symbol];
      && (KeptThrough(cfg, ops, i, symbol, s) <==> NeverRemoved(cfg, ops, i, symbol))
      && (KeptThrough(cfg, ops, i, symbol, s) ==> AllHold(cfg, ops, i, symbol))
    decreases |ops| - i
  {
    var s := Run(cfg, ops[..i]).setups[symbol];
    if i < |ops| {
      var b := Run(cfg, ops[..i]);
      RunIsWellKept(cfg, ops[..i]);
      TriggeredStaysUnlessRemoved(cfg, ops[i], b, symbol);
      TriggeredHolds(cfg, ops[i], b, symbol);
      assert ops[..i + 1][..i] == ops[..i];
      FirstOfRun(cfg, ops, i, symbol, s);
      if !Removes(cfg, ops[i], b, symbol) {
        TriggerBlocksExactlyUntilRemoved(cfg, ops, i + 1, symbol);
      } else {
        assert !KeptThrough(cfg, ops, i + 1, symbol, s);
      }
    }
  }

  lemma FirstOfRun(cfg: Config, ops: seq<Op>, i: nat, symbol: string, s: Setup)
    requires i < |ops|
    ensures KeptThrough(cfg, ops, i, symbol, s)
      <==> Holds(Run(cfg, ops[..i]), symbol, s) && KeptThrough(cfg, ops, i + 1, symbol, s)
    ensures NeverRemoved(cfg, ops, i, symbol)
      <==> !Removes(cfg, ops[i], Run(cfg, ops[..i]), symbol) && NeverRemoved(cfg, ops, i + 1, symbol)
    ensures AllHold(cfg, ops, i, symbol)
      <==> HoldsOn(cfg, ops[i], Run(cfg, ops[..i]), symbol) && AllHold(cfg, ops, i + 1, symbol)
    ensures KeptThrough(cfg, ops, i + 1, symbol, s) ==> Holds(Run(cfg, ops[..i + 1]), symbol, s)
  {
  }

  ghost predicate KeptThrough(cfg: Config, ops: seq<Op>, i: nat, symbol: string, s: Setup) {
    forall k :: i <= k <= |ops| ==> Holds(Run(cfg, ops[..k]), symbol, s)
  }

  ghost predicate NeverRemoved(cfg: Config, ops: seq<Op>, i: nat, symbol: string) {
    forall k :: i <= k < |ops| ==> !Removes(cfg, ops[k], Run(cfg, ops[..k]), symbol)
  }

  ghost predicate HoldsOn(cfg: Config, op: Op, b: Book, symbol: string) {
    op.Generating? && ZoneFirst(op.call) && Latest(op.call).symbol == symbol ==> Generate(cfg, op.call, b).0.kind.Hold?
  }

  ghost predicate AllHold(cfg: Config, ops: seq<Op>, i: nat, symbol: string) {
    forall k :: i <= k < |ops| ==> HoldsOn(cfg, ops[k], Run(cfg, ops[..k]), symbol)
  }

  lemma TriggeredHolds(cfg: Config, op: Op, b: Book, symbol: string)
    requires WellKept(b) && symbol in b.setups && b.setups[symbol].progress.Triggered?
    ensures HoldsOn(cfg, op, b, symbol)
  {
    if op.Generating? && ZoneFirst(op.call) && Latest(op.call).symbol == symbol {
      ScanRegistersOnly(cfg, op.call, b);
    }
  }

  lemma GenerateKeepsCapacity(cfg: Config, call: Call, b: Book)
    requires WellKept(b) && ZoneFirst(call)
    requires |ActiveSymbols(b)| <= cfg.maxCandidates
    ensures |ActiveSymbols(Generate(cfg, call, b).1)| <= cfg.maxCandidates
  {
    var next := Generate(cfg, call, b).1;
    if Watching(call, b) {
      WatchingAdvancesOnly(cfg, call, b);
      assert Latest(call).symbol in ActiveSymbols(b);
      SubsetIsSmaller(ActiveSymbols(next), ActiveSymbols(b));
    } else {
      ScanRegistersOnly(cfg, call, b);
      if next != b {
        var c := call.engine.candidate.value;
        assert ActiveSymbols(next) <= ActiveSymbols(b) + {c.symbol};
        SubsetIsSmaller(ActiveSymbols(next), ActiveSymbols(b) + {c.symbol});
      }
    }
  }

  /** However calls, executions, rejections and pauses interleave, capacity is never exceeded. */
  lemma {:induction false} CapacityIsKept(cfg: Config, ops: seq<Op>)
    ensures |ActiveSymbols(Run(cfg, ops))| <= cfg.maxCandidates
  {
    if ops == [] {
      assert ActiveSymbols(EMPTY) == {};
    } else {
      var op, b := ops[|ops| - 1], Run(cfg, ops[..|ops| - 1]);
      CapacityIsKept(cfg, ops[..|ops| - 1]);
      RunIsWellKept(cfg, ops[..|ops| - 1]);
      if op.Generating? && ZoneFirst(op.call) {
        GenerateKeepsCapacity(cfg, op.call, b);
      } else {
        SubsetIsSmaller(ActiveSymbols(Step(cfg, op, b).1), ActiveSymbols(b));
      }
    }
  }

  // The operation files a new setup for the symbol.
  ghost predicate Registering(cfg: Config, op: Op, b: Book, symbol: string) {
    && op.Generating? && ZoneFirst(op.call) && !Watching(op.call, b)
    && op.call.engine.candidate.Some? && op.call.engine.candidate.value.symbol == symbol
    && Generate(cfg, op.call, b).1 != b
  }

  ghost predicate Registers(cfg: Config, ops: seq<Op>, i: nat, symbol: string) {
    i < |ops| && Registering(cfg, ops[i], Run(cfg, ops[..i]), symbol)
  }

  ghost predicate Aged(op: Op, before: Setup, after: Setup) {
    || after.lastProcessed == before.lastProcessed
    || (op.Generating? && ZoneFirst(op.call) && Latest(op.call).symbol == after.symbol
        && after.lastProcessed == Latest(op.call).closeTime > before.lastProcessed)
  }

  // A filed setup was filed before, and its candles only moved forward, or it is new.
  lemma SetupsHaveOrigins(cfg: Config, op: Op, b: Book, k: string)
    requires WellKept(b) && k in Step(cfg, op, b).1.setups
    ensures var after := Step(cfg, op, b).1.setups[k];
      || (k in b.setups && Aged(op, b.setups[k], after))
      || (Registering(cfg, op, b, k) && after.lastProcessed == Latest(op.call).closeTime)
  {
    if op.Generating? && ZoneFirst(op.call) {
      if Watching(op.call, b) {
        WatchingAdvancesOnly(cfg, op.call, b);
      } else {
        ScanRegistersOnly(cfg, op.call, b);
      }
    }
  }

  ghost predicate OriginBefore(cfg: Config, ops: seq<Op>, symbol: string, time: int) {
    exists i: nat :: Registers(cfg, ops, i, symbol) && Latest(ops[i].call).closeTime <= time
  }

  lemma {:induction false} EverySetupWasRegistered(cfg: Config, ops: seq<Op>, k: string)
    requires k in Run(cfg, ops).setups
    ensures OriginBefore(cfg, ops, k, Run(cfg, ops).setups[k].lastProcessed)
  {
    var n := |ops|;
    var front := ops[..n - 1];
    RunIsWellKept(cfg, front);
    SetupsHaveOrigins(cfg, ops[n - 1], Run(cfg, front), k);
    if Registering(cfg, ops[n - 1], Run(cfg, front), k)
       && Run(cfg, ops).setups[k].lastProcessed == Latest(ops[n - 1].call).closeTime {
      assert Registers(cfg, ops, n - 1, k);
    } else {
      EverySetupWasRegistered(cfg, front, k);
      var time := Run(cfg, front).setups[k].lastProcessed;
      var i: nat :| Registers(cfg, front, i, k) && Latest(front[i].call).closeTime <= time;
      assert front[..i] == ops[..i] && front[i] == ops[i];
      assert Registers(cfg, ops, i, k);
    }
  }

  // Operation i enters a position on the symbol.
  ghost predicate Enters(cfg: Config, ops: seq<Op>, i: nat, symbol: string) {
    && i < |ops|
    && ops[i].Generating? && ZoneFirst(ops[i].call) && Latest(ops[i].call).symbol == symbol
    && !Generate(cfg, ops[i].call, Run(cfg, ops[..i])).0.kind.Hold?
  }

  ghost predicate EarlierCandle(ops: seq<Op>, j: nat, i: nat) {
    && j < |ops| && ops[j].Generating? && ZoneFirst(ops[j].call)
    && i < |ops| && ops[i].Generating? && ZoneFirst(ops[i].call)
    && Latest(ops[j].call).closeTime < Latest(ops[i].call).closeTime
  }

  /** Zone first: every entry follows an earlier call that registered the symbol on an earlier candle. */
  lemma EntryWasRegisteredEarlier(cfg: Config, ops: seq<Op>, i: nat, symbol: string)
    requires Enters(cfg, ops, i, symbol)
    ensures exists j: nat :: j < i && Registers(cfg, ops, j, symbol) && EarlierCandle(ops, j, i)
  {
    var b := Run(cfg, ops[..i]);
    RunIsWellKept(cfg, ops[..i]);
    EntryExactlyWhenTriggeredAndPassed(cfg, ops[i].call, b);
    EverySetupWasRegistered(cfg, ops[..i], symbol);
    var time := b.setups[symbol].lastProcessed;
    var j: nat :| Registers(cfg, ops[..i], j, symbol) && Latest(ops[..i][j].call).closeTime <= time;
    assert ops[..i][..j] == ops[..j] && ops[..i][j] == ops[j];
    assert Registers(cfg, ops, j, symbol) && EarlierCandle(ops, j, i);
  }

  // From operation i on, the symbol's candles, and those that register it, are no older than the time.
  ghost predicate FeedFrom(ops: seq<Op>, i: nat, symbol: string, time: int) {
    forall j :: i <= j < |ops| && ops[j].Generating? && ZoneFirst(ops[j].call)
      && (Latest(ops[j].call).symbol == symbol
          || (ops[j].call.engine.candidate.Some? && ops[j].call.engine.candidate.value.symbol == symbol))
      ==> Latest(ops[j].call).closeTime >= time
  }

  lemma {:induction false} ProcessedNeverGoesBack(cfg: Config, ops: seq<Op>, i: nat, symbol: string, time: int)
    requires i <= |ops| && FeedFrom(ops, i, symbol, time)
    requires symbol in Run(cfg, ops[..i]).setups ==> Run(cfg, ops[..i]).setups[symbol].lastProcessed >= time
    ensures symbol in Run(cfg, ops).setups ==> Run(cfg, ops).setups[symbol].lastProcessed >= time
    decreases |ops|
  {
    var n := |ops|;
    if i == n {
      assert ops[..i] == ops;
    } else {
      var front := ops[..n - 1];
      assert front[..i] == ops[..i];
      ProcessedNeverGoesBack(cfg, front, i, symbol, time);
      RunIsWellKept(cfg, front);
      RunIsWellKept(cfg, ops);
      if symbol in Run(cfg, ops).setups {
        SetupsHaveOrigins(cfg, ops[n - 1], Run(cfg, front), symbol);
      }
    }
  }

  /** No candle enters twice: fed in order, each entry on a symbol comes on a later candle than the one before. */
  lemma NoCandleEntersTwice(cfg: Config, ops: seq<Op>, i: nat, j: nat, symbol: string)
    requires i < j && Enters(cfg, ops, i, symbol) && Enters(cfg, ops, j, symbol)
    requires FeedFrom(ops[..j], i, symbol, Latest(ops[i].call).closeTime)
    ensures Latest(ops[i].call).closeTime < Latest(ops[j].call).closeTime
  {
    var front := ops[..j];
    var b := Run(cfg, ops[..i]);
    RunIsWellKept(cfg, ops[..i]);
    EntryExactlyWhenTriggeredAndPassed(cfg, ops[i].call, b);
    assert ops[..i + 1][..i] == ops[..i];
    assert front[..i + 1] == ops[..i + 1];
    ProcessedNeverGoesBack(cfg, front, i + 1, symbol, Latest(ops[i].call).closeTime);
    RunIsWellKept(cfg, front);
    EntryExactlyWhenTriggeredAndPassed(cfg, ops[j].call, Run(cfg, front));
  }
}
