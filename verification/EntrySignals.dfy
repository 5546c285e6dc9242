/**
 The signal of an entry, in the setup's and the candle's own terms: what confluence is
 asked about, and when the answer becomes an entry.
 */
module EntrySignals {
  import opened Prelude
  import opened Candles
  import opened StalkingSetups
  import opened StrategyService
  import opened StalkingSafety
  import opened StalkingPrices

  function Distance(a: real, b: real): real {
    if a < b then b - a else a - b
  }

  // The price lies on the side of the entry where the position gains.
  predicate Gains(side: Side, entry: real, price: real) {
    if side == Long then price > entry else price < entry
  }

  // The planned reward per risk; twice the risk where the plan risks nothing.
  function Plan(s: Setup, stop: real, takeProfit: real): real {
    if Distance(s.anchor, stop) > 0.0 then Distance(takeProfit, s.anchor) / Distance(s.anchor, stop) else 2.0
  }

  // The planned target still gains, and where at least 1.5 times the risk was planned it pays
  // the actual risk and 60 percent of what was planned.
  predicate StillPays(s: Setup, entry: real, stop: real, takeProfit: real) {
    && Gains(s.side, entry, takeProfit)
    && (Plan(s, stop, takeProfit) >= 1.5 && Distance(entry, stop) > 0.0 ==>
          && Distance(takeProfit, entry) >= Distance(entry, stop)
          && Distance(takeProfit, entry) >= 0.60 * Distance(takeProfit, s.anchor))
  }

  function Multiple(plan: real): real {
    if plan <= 1.5 then 1.5 else if plan >= 2.5 then 2.5 else plan
  }

  // Otherwise the target is set at the planned multiple of the actual risk, from 1.5 to 2.5.
  predicate Projects(s: Setup, entry: real, stop: real, takeProfit: real, target: real) {
    var plan, risk := Plan(s, stop, takeProfit), Distance(entry, stop);
    && Distance(target, entry) == risk * Multiple(plan)
    && (risk > 0.0 ==> Gains(s.side, entry, target))
  }

  predicate Targets(s: Setup, entry: real, target: Option<real>) {
    if s.stopLoss.None? || s.takeProfit.None? then target == s.takeProfit
    else
      && target.Some?
      && if StillPays(s, entry, s.stopLoss.value, s.takeProfit.value) then target == s.takeProfit
         else Projects(s, entry, s.stopLoss.value, s.takeProfit.value, target.value)
  }

  predicate IsBoosted(p: Pattern) {
    p == Pattern.Engulfing || p == Pinbar || p == DetectedPinbar || p == DetectedEngulfing
  }

  // An entry into the setup at the candle's close, before structure has its say.
  predicate EntersAt(s: Setup, candle: Candle, x: Signal) {
    && x.symbol == s.symbol && x.kind == (if s.side == Long then Buy else Sell)
    && x.price == candle.close && x.generatedAt == candle.closeTime && x.stopLoss == s.stopLoss
    && x.confidence == (if !IsBoosted(s.pattern) then s.confidence
                        else if s.confidence <= 0.90 then s.confidence + 0.05 else 0.95)
    && Targets(s, candle.close, x.takeProfit)
    && x.reason == Entry(s.pattern)
  }

  // Structure leaves the signal alone, or moves its target and says so.
  predicate Structured(e: Engine, s: Setup, planned: Signal, x: Signal) {
    if planned.takeProfit.None? || planned.stopLoss.None? then x == planned
    else
      var answer := e.clampTarget(s.side, planned.price, planned.stopLoss.value, planned.takeProfit.value);
      && answer.Some?
      && x == (if answer == planned.takeProfit then planned
               else planned.(takeProfit := answer, reason := EntryClamped(s.pattern)))
  }

  lemma RewardGains(risk: real, multiple: real)
    requires risk >= 0.0 && multiple >= 1.5
    ensures Reward(risk, multiple) >= 0.0 && (risk > 0.0 ==> Reward(risk, multiple) > 0.0)
  {
    assert risk * (multiple - 1.5) >= 0.0;
  }

  lemma ProjectedIsShifted(side: Side, entry: real, risk: real, plan: real, planned: real, takeProfit: real)
    requires risk >= 0.0
    ensures var target := Projected(side, entry, risk, plan, planned, takeProfit);
      var pays := plan >= 1.5 && risk > 0.0 ==>
        Distance(takeProfit, entry) >= risk && Distance(takeProfit, entry) >= 0.60 * planned;
      if Gains(side, entry, takeProfit) && pays then target == takeProfit
      else Distance(target, entry) == Reward(risk, Multiple(plan)) && (risk > 0.0 ==> Gains(side, entry, target))
  {
    RewardGains(risk, Multiple(plan));
  }

  lemma TargetIsPlannedOrProjected(s: Setup, entry: real, stop: real, takeProfit: real)
    ensures var target := EntryTarget(s, entry, stop, takeProfit);
      if StillPays(s, entry, stop, takeProfit) then target == takeProfit
      else Projects(s, entry, stop, takeProfit, target)
  {
    var plan := Plan(s, stop, takeProfit);
    assert PlannedRatio(s, stop, takeProfit) == plan;
    ProjectedIsShifted(s.side, entry, Distance(entry, stop), plan, Distance(takeProfit, s.anchor), takeProfit);
    assert Reward(Distance(entry, stop), Multiple(plan)) == Distance(entry, stop) * Multiple(plan);
  }

  lemma TriggeredSignalEnters(s: Setup, candle: Candle)
    ensures EntersAt(s, candle, TriggeredSignal(s, candle))
  {
    if s.stopLoss.Some? && s.takeProfit.Some? {
      TargetIsPlannedOrProjected(s, candle.close, s.stopLoss.value, s.takeProfit.value);
    }
  }

  // Two signals that enter alike are the same signal.
  lemma EntryIsUnique(s: Setup, candle: Candle, x: Signal, y: Signal)
    requires EntersAt(s, candle, x) && EntersAt(s, candle, y)
    ensures x == y
  {
    if s.stopLoss.Some? && s.takeProfit.Some? && !StillPays(s, candle.close, s.stopLoss.value, s.takeProfit.value) {
      ProjectionIsUnique(s, candle.close, s.stopLoss.value, s.takeProfit.value, x.takeProfit.value, y.takeProfit.value);
    }
  }

  lemma ProjectionIsUnique(s: Setup, entry: real, stop: real, takeProfit: real, x: real, y: real)
    requires Projects(s, entry, stop, takeProfit, x) && Projects(s, entry, stop, takeProfit, y)
    ensures x == y
  {
    if Distance(entry, stop) == 0.0 {
      assert Distance(x, entry) == 0.0 && Distance(y, entry) == 0.0;
    }
  }

  lemma ClampedIsStructured(e: Engine, s: Setup, candle: Candle, planned: Signal, x: Signal)
    requires EntersAt(s, candle, planned)
    ensures Clamped(e, s.side, planned) == Some(x) <==> Structured(e, s, planned, x)
  {
  }

  // The candle enters the setup with a signal that structure and confluence let through.
  ghost predicate Presents(e: Engine, s: Setup, candle: Candle, planned: Signal, x: Signal) {
    EntersAt(s, candle, planned) && Structured(e, s, planned, x) && !e.confluence(x).kind.Hold?
  }

  // The retest in prices: of a long setup, and as its mirror image of a short one.
  predicate RetestedBy(s: Setup, candle: Candle) {
    s.reversalConfirmed &&
    if s.side == Long then candle.low >= s.invalidation && BouncesAt(candle, s.target)
    else candle.high <= s.invalidation && BouncesAt(MirroredCandle(candle), -s.target)
  }

  predicate MeetsCandle(call: Call, b: Book)
    requires call.candles != []
  {
    var candle := Latest(call);
    candle.symbol in b.setups &&
    var s := b.setups[candle.symbol];
    && s.progress == Stalking && s.currentBar < s.maxBars && s.interval == candle.interval
    && s.lastProcessed < candle.closeTime && RetestedBy(s, candle)
  }

  lemma MeetingTriggers(cfg: Config, call: Call, b: Book)
    requires call.candles != []
    ensures MeetsCandle(call, b) <==> Triggers(call, b)
  {
    var candle := Latest(call);
    if candle.symbol in b.setups {
      var s := b.setups[candle.symbol];
      if s.progress == Stalking && s.currentBar < s.maxBars {
        TriggerIsRetest(cfg, s, candle, Shapes(None, None));
        if s.side == Long {
          LongProgressExactly(cfg, s, candle, Shapes(None, None));
        } else {
          ShortProgressExactly(cfg, s, candle, Shapes(None, None));
        }
      }
    }
  }

  lemma ChecksPresent(e: Engine, t: Setup, candle: Candle)
    ensures PassesChecks(e, t, candle) ==>
      && Presented(e, t, candle)
      && PresentedAs(e, t, candle, e.confluence(Clamped(e, t.side, TriggeredSignal(t, candle)).value))
    ensures Presented(e, t, candle) ==> PassesChecks(e, t, candle)
  {
    var planned := TriggeredSignal(t, candle);
    TriggeredSignalEnters(t, candle);
    if PassesChecks(e, t, candle) {
      var x := Clamped(e, t.side, planned).value;
      ClampedIsStructured(e, t, candle, planned, x);
      assert Presents(e, t, candle, planned, x);
    }
    if Presented(e, t, candle) {
      var other, x :| Presents(e, t, candle, other, x);
      EntryIsUnique(t, candle, planned, other);
      ClampedIsStructured(e, t, candle, planned, x);
    }
  }

  /**
   Every entry, in its own terms. A call enters if and only if its candle retests a confirmed
   setup, guards and zone pass, and confluence lets through the entry that the setup and the
   candle determine: bought when long and sold when short, at the close, behind the setup's
   stop, towards the planned target or one that pays the planned multiple of the actual risk.
   The entry is what confluence makes of it.
   */
  lemma EntersExactlyWhenPresented(cfg: Config, call: Call, b: Book)
    requires ZoneFirst(call) && WellKept(b)
    ensures var (signal, _) := Generate(cfg, call, b);
      var candle, e := Latest(call), call.engine;
      && (!signal.kind.Hold? <==> MeetsCandle(call, b) && Presented(e, b.setups[candle.symbol], candle))
      && (!signal.kind.Hold? ==> PresentedAs(e, b.setups[candle.symbol], candle, signal))
  {
    var candle := Latest(call);
    EntryExactlyWhenTriggeredAndPassed(cfg, call, b);
    MeetingTriggers(cfg, call, b);
    if MeetsCandle(call, b) {
      var s := b.setups[candle.symbol];
      ChecksPresent(call.engine, TriggeredBy(s, candle, b.clock), candle);
      TriggeringChangesNoPrices(call.engine, s, candle, b.clock);
    }
  }

  // Guards and zone pass, and some entry is let through.
  ghost predicate Presented(e: Engine, s: Setup, candle: Candle) {
    && e.guards(s.side) == GuardsPass && e.entryZone(s.side, candle.close)
    && exists planned, x :: Presents(e, s, candle, planned, x)
  }

  ghost predicate PresentedAs(e: Engine, s: Setup, candle: Candle, signal: Signal) {
    exists planned, x :: Presents(e, s, candle, planned, x) && signal == e.confluence(x)
  }

  // The triggered setup differs in progress and stamps alone, which an entry does not read.
  predicate SamePlan(s: Setup, t: Setup) {
    && t.symbol == s.symbol && t.side == s.side && t.pattern == s.pattern && t.anchor == s.anchor
    && t.stopLoss == s.stopLoss && t.takeProfit == s.takeProfit && t.confidence == s.confidence
  }

  lemma TargetsAlike(s: Setup, t: Setup, entry: real, target: Option<real>)
    requires SamePlan(s, t)
    ensures Targets(t, entry, target) <==> Targets(s, entry, target)
  {
    if s.stopLoss.Some? && s.takeProfit.Some? {
      assert Plan(t, s.stopLoss.value, s.takeProfit.value) == Plan(s, s.stopLoss.value, s.takeProfit.value);
    }
  }

  lemma PresentsAlike(e: Engine, s: Setup, t: Setup, candle: Candle, planned: Signal, x: Signal)
    requires SamePlan(s, t)
    ensures Presents(e, t, candle, planned, x) <==> Presents(e, s, candle, planned, x)
  {
    TargetsAlike(s, t, candle.close, planned.takeProfit);
  }

  lemma TriggeringChangesNoPrices(e: Engine, s: Setup, candle: Candle, stamp: nat)
    ensures var t := TriggeredBy(s, candle, stamp);
      forall planned, x :: Presents(e, t, candle, planned, x) <==> Presents(e, s, candle, planned, x)
  {
    var t := TriggeredBy(s, candle, stamp);
    forall planned, x
      ensures Presents(e, t, candle, planned, x) <==> Presents(e, s, candle, planned, x)
    {
      PresentsAlike(e, s, t, candle, planned, x);
    }
  }

  // ---------------------------------------------------------------------------
  // Holding
  // ---------------------------------------------------------------------------

  // A hold at the candle's close that proposes nothing.
  predicate HoldsAt(candle: Candle, x: Signal, why: Reason) {
    && x.symbol == candle.symbol && x.kind == Kind.Hold && x.price == candle.close && x.confidence == 0.0
    && x.generatedAt == candle.closeTime && x.stopLoss == None && x.takeProfit == None && x.reason == why
  }

  // An engulfing shape needs the candle before.
  function SeenShapes(call: Call): Shapes {
    Shapes(call.engine.shapes.pinbar, if |call.candles| > 1 then call.engine.shapes.engulfing else None)
  }

  // The setup that the candle leaves, before guards and structure are asked.
  function Met(cfg: Config, call: Call, b: Book): Setup
    requires call.candles != [] && Watching(call, b)
  {
    var s := b.setups[Latest(call).symbol];
    if IsNews(s, Latest(call)) then Advanced(cfg, s, Latest(call), SeenShapes(call)).(updatedAt := b.clock) else s
  }

  /**
   A watched setup that the candle does not trigger says where it stands: ended, or waiting
   for its retest once confirmed and for its reversal before; and only the candle changes it.
   */
  lemma WaitingSaysWhy(cfg: Config, call: Call, b: Book)
    requires ZoneFirst(call) && WellKept(b) && Watching(call, b) && !Met(cfg, call, b).progress.Triggered?
    ensures var (signal, next) := Generate(cfg, call, b);
      var met, symbol := Met(cfg, call, b), Latest(call).symbol;
      && HoldsAt(Latest(call), signal,
                 if met.progress != Stalking then SetupEnded(met.progress)
                 else if met.reversalConfirmed then AwaitingRetest
                 else AwaitingReversal)
      && symbol in next.setups && next.setups[symbol] == met
      && (forall k :: k != symbol ==> (k in next.setups <==> k in b.setups)
                                      && (k in b.setups ==> next.setups[k] == b.setups[k]))
  {
  }

  // A trigger that is taken back: stalking again while bars are left.
  predicate TakenBack(met: Setup, after: Setup) {
    after.(updatedAt := met.updatedAt) == met.(progress := if met.currentBar < met.maxBars then Stalking else Expired)
  }

  predicate Dropped(met: Setup, after: Setup) {
    after.(updatedAt := met.updatedAt) == met.(progress := Invalidated)
  }

  /**
   A triggered setup that does not enter says why. Failed guards and an entry zone not
   reached take the trigger back, unless structure itself fails, which drops the setup, as do
   a target that structure forbids and a hold from confluence.
   */
  lemma RefusedTriggersSayWhy(cfg: Config, call: Call, b: Book)
    requires ZoneFirst(call) && WellKept(b) && Watching(call, b) && Met(cfg, call, b).progress.Triggered?
    ensures var (signal, next) := Generate(cfg, call, b);
      var e, candle, met := call.engine, Latest(call), Met(cfg, call, b);
      var after := if candle.symbol in next.setups then next.setups[candle.symbol] else met;
      var guards := e.guards(met.side);
      var back := met.currentBar < met.maxBars;
      candle.symbol in next.setups &&
      if guards == GuardsFail(true) then HoldsAt(candle, signal, GuardsRejected) && Dropped(met, after)
      else if guards == GuardsFail(false) then HoldsAt(candle, signal, GuardsNotReady(back)) && TakenBack(met, after)
      else if !e.entryZone(met.side, candle.close) then
        HoldsAt(candle, signal, ZoneNotReady(back)) && TakenBack(met, after)
      else if Clamped(e, met.side, TriggeredSignal(met, candle)).None? then
        HoldsAt(candle, signal, TargetRejected) && Dropped(met, after)
      else if signal.kind.Hold? then Dropped(met, after)
      else after == met
  {
    var candle := Latest(call);
    var (updated, filed) := Update(cfg, candle, ShapesOf(call), b);
    UpdateFiles(cfg, candle, ShapesOf(call), b);
    assert updated == Some(Met(cfg, call, b));
    OnTriggerSaysWhy(call.engine, Met(cfg, call, b), candle, filed);
  }

  lemma OnTriggerSaysWhy(e: Engine, met: Setup, candle: Candle, b: Book)
    requires candle.symbol in b.setups && b.setups[candle.symbol] == met && met.symbol == candle.symbol
    requires met.progress.Triggered?
    ensures var (signal, next) := OnTrigger(e, met, candle, b); var guards := e.guards(met.side);
      var back := met.currentBar < met.maxBars;
      candle.symbol in next.setups &&
      var after := next.setups[candle.symbol];
      if guards == GuardsFail(true) then HoldsAt(candle, signal, GuardsRejected) && Dropped(met, after)
      else if guards == GuardsFail(false) then HoldsAt(candle, signal, GuardsNotReady(back)) && TakenBack(met, after)
      else if !e.entryZone(met.side, candle.close) then
        HoldsAt(candle, signal, ZoneNotReady(back)) && TakenBack(met, after)
      else if Clamped(e, met.side, TriggeredSignal(met, candle)).None? then
        HoldsAt(candle, signal, TargetRejected) && Dropped(met, after)
      else if signal.kind.Hold? then Dropped(met, after)
      else after == met
  {
  }

  /**
   Without a watched setup a call looks for a candidate, unless the ended one has seen the
   candle; and says whether it found one, and whether it was registered.
   */
  lemma ScanningSaysWhy(cfg: Config, call: Call, b: Book)
    requires ZoneFirst(call) && WellKept(b) && !Watching(call, b)
    ensures var (signal, next) := Generate(cfg, call, b); var candle, found := Latest(call), call.engine.candidate;
      if candle.symbol in b.setups && candle.closeTime <= b.setups[candle.symbol].lastProcessed then
        HoldsAt(candle, signal, AlreadyProcessed(b.setups[candle.symbol].progress)) && next == b
      else match found
        case None => HoldsAt(candle, signal, Idle) && next == b
        case Some(c) =>
          match Register(cfg, c, candle, b).0
          case BadGeometry => HoldsAt(candle, signal, BadZone) && next == b
          case Refused => HoldsAt(candle, signal, CapacityFull) && next == b
          case Tracked(_) =>
            && signal.reason == Registered && signal.kind == Kind.Hold && signal.symbol == candle.symbol
            && signal.confidence == c.confidence && signal.stopLoss == c.stopLoss && signal.takeProfit == c.takeProfit
            && next == Register(cfg, c, candle, b).1
  {
  }

  /**
   Registration, exactly. A live setup is handed back as it is; otherwise the symbol is
   registered unless stalking is paused, the candle was seen, capacity is full or the zone
   makes no sense.
   */
  lemma RegistersExactly(cfg: Config, c: Candidate, candle: Candle, b: Book)
    requires WellKept(b)
    ensures var (r, next) := Register(cfg, c, candle, b);
      var live := c.symbol in b.setups
        && (b.setups[c.symbol].progress == Stalking || b.setups[c.symbol].progress == Progress.Triggered);
      var seen := c.symbol in b.setups && candle.closeTime <= b.setups[c.symbol].lastProcessed;
      if b.paused then r == Refused && next == b
      else if live then r == Tracked(b.setups[c.symbol]) && next == b
      else if seen || |ActiveSymbols(b)| >= cfg.maxCandidates then r == Refused && next == b
      else if Geometry(cfg, c, candle).None? then r == BadGeometry && next == b
      else
        && r.Tracked? && c.symbol in next.setups && next.setups[c.symbol] == r.setup
        && r.setup.updatedAt == b.clock && next.clock == b.clock + 1 && !next.paused
        && r.setup.(updatedAt := 0) == NewSetup(cfg, c, candle, Geometry(cfg, c, candle).value)
        && (forall k :: k in b.setups && b.setups[k].progress == Stalking ==> k in next.setups)
        && (forall k :: k in next.setups && k != c.symbol ==> k in b.setups && next.setups[k] == b.setups[k])
  {
    if Geometry(cfg, c, candle).Some? {
      FilingKeepsOthers(b, NewSetup(cfg, c, candle, Geometry(cfg, c, candle).value));
    }
  }

  lemma FilingKeepsOthers(b: Book, s: Setup)
    requires s.progress == Stalking
    ensures var next := Pruned(Put(b, s));
      && s.symbol in next.setups && next.setups[s.symbol] == s.(updatedAt := b.clock)
      && next.clock == b.clock + 1 && next.paused == b.paused
      && (forall k :: k in b.setups && b.setups[k].progress == Stalking ==> k in next.setups)
      && (forall k :: k in next.setups && k != s.symbol ==> k in b.setups && next.setups[k] == b.setups[k])
  {
  }
}
