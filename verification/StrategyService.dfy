/**
 Signal generation under the zone-first contract: only a setup that was registered,
 confirmed and retested may produce an entry. The signal engine is arbitrary.
 */
module StrategyService {
  import opened Prelude
  import opened Candles
  import opened StalkingSetups

  datatype Reason =
    | FromEngine
    | GuardsRejected
    | GuardsNotReady(stalking: bool)
    | ZoneNotReady(stalking: bool)
    | TargetRejected
    | Entry(pattern: Pattern)
    | EntryClamped(pattern: Pattern)
    | AwaitingRetest
    | AwaitingReversal
    | SetupEnded(progress: Progress)
    | SetupInactive
    | AlreadyProcessed(progress: Progress)
    | BadZone
    | Registered
    | CapacityFull
    | Idle

  datatype Signal = Signal(
    symbol: string,
    kind: Kind,
    price: real,
    confidence: real,
    generatedAt: int,
    stopLoss: Option<real>,
    takeProfit: Option<real>,
    reason: Reason)

  datatype Guards = GuardsPass | GuardsFail(structural: bool)

  // The engine's answers for the candles of one call.
  datatype Engine = Engine(
    guards: Side -> Guards,
    entryZone: (Side, real) -> bool,
    clampTarget: (Side, real, real, real) -> Option<real>,
    confluence: Signal -> Signal,
    candidate: Option<Candidate>,
    generate: Signal,
    shapes: Shapes)

  // `stalking` says that stalking is enabled and a stalking service configured.
  datatype Call = Call(candles: seq<Candle>, pier: bool, stalking: bool, engine: Engine)

  function Latest(call: Call): Candle
    requires call.candles != []
  {
    call.candles[|call.candles| - 1]
  }

  function HoldFor(candle: Candle, reason: Reason): Signal {
    Signal(candle.symbol, Hold, candle.close, 0.0, candle.closeTime, None, None, reason)
  }

  // Engulfing needs a candle before the latest one.
  function ShapesOf(call: Call): Shapes {
    if |call.candles| >= 2 then call.engine.shapes else call.engine.shapes.(engulfing := None)
  }

  // ---------------------------------------------------------------------------
  // The entry signal of a triggered setup
  // ---------------------------------------------------------------------------

  predicate Inverted(side: Side, entry: real, takeProfit: real) {
    if side.Long? then takeProfit <= entry else takeProfit >= entry
  }

  function PlannedRatio(s: Setup, stop: real, takeProfit: real): real {
    var risk := Abs(s.anchor - stop);
    if risk > 0.0 then Abs(takeProfit - s.anchor) / risk else 2.0
  }

  function EntryTarget(s: Setup, entry: real, stop: real, takeProfit: real): real {
    Projected(s.side, entry, Abs(entry - stop), PlannedRatio(s, stop, takeProfit),
              Abs(takeProfit - s.anchor), takeProfit)
  }

  function Reward(risk: real, multiple: real): real {
    risk * multiple
  }

  // A target that is inverted, or has lost its planned reward, is projected from the actual risk.
  function Projected(side: Side, entry: real, risk: real, ratio: real, planned: real, takeProfit: real): real {
    var reward := Abs(takeProfit - entry);
    var exhausted := ratio >= 1.5 && risk > 0.0 && (reward < risk || reward < planned * 0.60);
    if Inverted(side, entry, takeProfit) || exhausted then
      var multiple := Max(1.5, Min(ratio, 2.5));
      if side.Long? then entry + Reward(risk, multiple) else entry - Reward(risk, multiple)
    else takeProfit
  }

  function TriggeredSignal(s: Setup, candle: Candle): Signal {
    Signal(s.symbol, if s.side.Long? then Buy else Sell, candle.close,
           if s.pattern.IsDecisive() then Min(0.95, s.confidence + 0.05) else s.confidence,
           candle.closeTime, s.stopLoss,
           if s.stopLoss.Some? && s.takeProfit.Some? then
             Some(EntryTarget(s, candle.close, s.stopLoss.value, s.takeProfit.value))
           else s.takeProfit,
           Entry(s.pattern))
  }

  // The signal with its target clamped to structure, unless structure forbids it.
  function Clamped(e: Engine, side: Side, signal: Signal): Option<Signal> {
    if signal.takeProfit.None? || signal.stopLoss.None? then Some(signal)
    else
      match e.clampTarget(side, signal.price, signal.stopLoss.value, signal.takeProfit.value)
      case None => None
      case Some(target) =>
        if target == signal.takeProfit.value then Some(signal)
        else Some(signal.(takeProfit := Some(target),
                          reason :=
                            if signal.reason.Entry? then EntryClamped(signal.reason.pattern) else signal.reason))
  }

  // ---------------------------------------------------------------------------
  // Generation
  // ---------------------------------------------------------------------------

  function OnTrigger(e: Engine, s: Setup, candle: Candle, b: Book): (Signal, Book) {
    var symbol := candle.symbol;
    var guards := e.guards(s.side);
    if guards.GuardsFail? then
      if guards.structural then (HoldFor(candle, GuardsRejected), Ended(b, symbol, Invalidated).1)
      else
        var (reverted, next) := ResetTrigger(b, symbol);
        (HoldFor(candle, GuardsNotReady(reverted.Some? && reverted.value.progress.Stalking?)), next)
    else if !e.entryZone(s.side, candle.close) then
      var (reverted, next) := ResetTrigger(b, symbol);
      (HoldFor(candle, ZoneNotReady(reverted.Some? && reverted.value.progress.Stalking?)), next)
    else
      match Clamped(e, s.side, TriggeredSignal(s, candle))
      case None => (HoldFor(candle, TargetRejected), Ended(b, symbol, Invalidated).1)
      case Some(signal) =>
        var filtered := e.confluence(signal);
        (filtered, if filtered.kind.Hold? then Ended(b, symbol, Invalidated).1 else b)
  }

  function WhileStalking(cfg: Config, call: Call, b: Book): (Signal, Book)
    requires call.candles != []
  {
    var candle := Latest(call);
    var (updated, next) := Update(cfg, candle, ShapesOf(call), b);
    match updated
    case None => (HoldFor(candle, SetupInactive), next)
    case Some(s) =>
      if s.progress.Triggered? then OnTrigger(call.engine, s, candle, next)
      else (HoldFor(candle, Waiting(s)), next)
  }

  function Waiting(s: Setup): Reason {
    if !s.progress.Stalking? then SetupEnded(s.progress)
    else if s.reversalConfirmed then AwaitingRetest
    else AwaitingReversal
  }

  function Scan(cfg: Config, call: Call, b: Book): (Signal, Book)
    requires call.candles != []
  {
    var candle := Latest(call);
    match call.engine.candidate
    case None => (HoldFor(candle, Idle), b)
    case Some(c) =>
      var (r, next) := Register(cfg, c, candle, b);
      match r
      case BadGeometry => (HoldFor(candle, BadZone), next)
      case Refused => (HoldFor(candle, CapacityFull), next)
      case Tracked(_) =>
        (HoldFor(candle, Registered).(confidence := c.confidence, stopLoss := c.stopLoss, takeProfit := c.takeProfit),
         next)
  }

  function Generate(cfg: Config, call: Call, b: Book): (Signal, Book) {
    if call.candles == [] || !call.stalking || !call.pier then (call.engine.generate, b)
    else
      var candle := Latest(call);
      if candle.symbol !in b.setups then Scan(cfg, call, b)
      else
        var existing := b.setups[candle.symbol];
        if existing.progress.Stalking? then WhileStalking(cfg, call, b)
        else if candle.closeTime <= existing.lastProcessed then
          (HoldFor(candle, AlreadyProcessed(existing.progress)), b)
        else Scan(cfg, call, b)
  }

  class StrategyService {
    const stalkingService: SetupStalkingService

    constructor (stalkingService: SetupStalkingService)
      ensures this.stalkingService == stalkingService
    {
      this.stalkingService := stalkingService;
    }

    method HandleTrigger(engine: Engine, updated: Setup, candle: Candle) returns (signal: Signal)
      requires stalkingService.Valid()
      modifies stalkingService
      ensures (signal, stalkingService.TheBook()) == OnTrigger(engine, updated, candle, old(stalkingService.TheBook()))
      ensures stalkingService.Valid()
    {
      var symbol := candle.symbol;
      var guards := engine.guards(updated.side);
      if guards.GuardsFail? {
        if guards.structural {
          var _ := stalkingService.InvalidateSetup(symbol);
          return HoldFor(candle, GuardsRejected);
        }
        var reverted := stalkingService.ResetTriggeredToStalking(symbol);
        return HoldFor(candle, GuardsNotReady(reverted.Some? && reverted.value.progress.Stalking?));
      }
      if !engine.entryZone(updated.side, candle.close) {
        var reverted := stalkingService.ResetTriggeredToStalking(symbol);
        return HoldFor(candle, ZoneNotReady(reverted.Some? && reverted.value.progress.Stalking?));
      }
      signal := TriggeredSignal(updated, candle);
      if signal.takeProfit.Some? && signal.stopLoss.Some? {
        var clamped := engine.clampTarget(updated.side, signal.price, signal.stopLoss.value, signal.takeProfit.value);
        if clamped.None? {
          var _ := stalkingService.InvalidateSetup(symbol);
          return HoldFor(candle, TargetRejected);
        }
        if clamped.value != signal.takeProfit.value {
          signal := signal.(takeProfit := clamped, reason := EntryClamped(updated.pattern));
        }
      }
      signal := engine.confluence(signal);
      if signal.kind.Hold? {
        var _ := stalkingService.InvalidateSetup(symbol);
      }
    }

    method GenerateSignal(call: Call) returns (signal: Signal)
      requires stalkingService.Valid()
      modifies stalkingService
      ensures (signal, stalkingService.TheBook())
        == Generate(stalkingService.config, call, old(stalkingService.TheBook()))
      ensures stalkingService.Valid()
    {
      if call.candles == [] || !call.stalking || !call.pier {
        return call.engine.generate;
      }
      var candle := Latest(call);
      if candle.symbol in stalkingService.setups {
        var existing := stalkingService.setups[candle.symbol];
        if existing.progress.Stalking? {
          var updated := stalkingService.OnCandleUpdate(candle, ShapesOf(call));
          if updated.None? {
            return HoldFor(candle, SetupInactive);
          }
          if updated.value.progress.Triggered? {
            signal := HandleTrigger(call.engine, updated.value, candle);
            return;
          }
          return HoldFor(candle, Waiting(updated.value));
        }
        if candle.closeTime <= existing.lastProcessed {
          return HoldFor(candle, AlreadyProcessed(existing.progress));
        }
      }
      if call.engine.candidate.None? {
        return HoldFor(candle, Idle);
      }
      var c := call.engine.candidate.value;
      var r := stalkingService.RegisterCandidate(c, candle);
      match r
      case BadGeometry => return HoldFor(candle, BadZone);
      case Refused => return HoldFor(candle, CapacityFull);
      case Tracked(_) =>
        signal := HoldFor(candle, Registered);
        return signal.(confidence := c.confidence, stopLoss := c.stopLoss, takeProfit := c.takeProfit);
    }
  }
}
