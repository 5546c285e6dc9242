/**
 Setups under observation: one per symbol, advanced one closed candle at a time
 from registration through reversal and retest to a trigger, or to its end.
 */
module StalkingSetups {
  import opened Prelude
  import opened Intervals
  import opened Candles

  datatype Side = Long | Short

  datatype Progress = Stalking | Triggered | Invalidated | Expired | Consumed

  datatype Pattern =
    | ZoneLong | ZoneShort | Zone
    | Engulfing | Pinbar | Star | Reversal
    | DetectedPinbar | DetectedEngulfing | DetectedRejection
  {
    predicate IsZone() {
      ZoneLong? || ZoneShort? || Zone?
    }

    predicate IsDecisive() {
      Engulfing? || Pinbar? || DetectedPinbar? || DetectedEngulfing?
    }
  }

  datatype Setup = Setup(
    symbol: string,
    side: Side,
    pattern: Pattern,
    anchor: real,
    invalidation: real,
    target: real,
    currentBar: nat,
    maxBars: nat,
    updatedAt: nat,
    progress: Progress,
    interval: Interval,
    stopLoss: Option<real>,
    takeProfit: Option<real>,
    confidence: real,
    lastProcessed: int,
    reversalConfirmed: bool)

  datatype Kind = Buy | Sell | Hold | CloseLong | CloseShort

  // A zone candidate; `mentionsLong` and `pattern` are read off its reason.
  datatype Candidate = Candidate(
    symbol: string,
    kind: Kind,
    mentionsLong: bool,
    pattern: Pattern,
    price: real,
    stopLoss: Option<real>,
    takeProfit: Option<real>,
    confidence: real)

  // What the candle-shape detectors report for the candle.
  datatype Shapes = Shapes(pinbar: Option<Side>, engulfing: Option<Side>)

  datatype Config = Config(maxCandidates: nat, maxBars: nat, retestRatio: real)

  const HISTORY_LIMIT := 10

  // The clock counts updates, so no two setups carry the same stamp.
  datatype Book = Book(setups: map<string, Setup>, paused: bool, clock: nat)

  const EMPTY := Book(map[], false, 0)

  function Put(b: Book, s: Setup): Book {
    b.(setups := b.setups[s.symbol := s.(updatedAt := b.clock)], clock := b.clock + 1)
  }

  // ---------------------------------------------------------------------------
  // Registration
  // ---------------------------------------------------------------------------

  datatype Registration = Tracked(setup: Setup) | Refused | BadGeometry

  function SideOf(c: Candidate): Side {
    match c.kind
    case Buy => Long
    case Sell => Short
    case _ => if c.mentionsLong then Long else Short
  }

  predicate ConfirmedAtBirth(c: Candidate) {
    c.kind.Buy? || c.kind.Sell? || c.pattern.Engulfing? || c.pattern.Pinbar? || c.pattern.Star? || c.pattern.Reversal?
  }

  function Toward(start: real, end: real, share: real): real {
    start + (end - start) * share
  }

  // Retracing a share of the candle's body against the side.
  function Retracement(candle: Candle, side: Side, ratio: real): real {
    var top, bottom := Max(candle.open, candle.close), Min(candle.open, candle.close);
    if top - bottom <= 0.0 then candle.close
    else if side.Short? then Toward(bottom, top, ratio)
    else Toward(top, bottom, ratio)
  }

  // The target is not strictly between the entry side and the invalidation price.
  predicate Outside(side: Side, target: real, invalidation: real) {
    if side.Short? then target >= invalidation else target <= invalidation
  }

  predicate StopTooClose(side: Side, stop: real, target: real, invalidation: real) {
    if side.Short? then stop <= Max(invalidation, target) else stop >= Min(invalidation, target)
  }

  // The invalidation price and the retest target, unless the zone makes no sense.
  function Geometry(cfg: Config, c: Candidate, candle: Candle): Option<(real, real)> {
    var side := SideOf(c);
    var extreme := if side.Short? then candle.high else candle.low;
    if !c.pattern.IsZone() then
      Some((extreme, if ConfirmedAtBirth(c) then Retracement(candle, side, cfg.retestRatio) else candle.close))
    else match c.stopLoss
      case Some(stop) =>
        if StopTooClose(side, stop, c.price, extreme) then None
        else Some((if Outside(side, c.price, extreme) then stop else extreme, c.price))
      case None => if Outside(side, c.price, extreme) then None else Some((extreme, c.price))
  }

  function ActiveSymbols(b: Book): set<string> {
    set k | k in b.setups && b.setups[k].progress.Stalking?
  }

  function NewSetup(cfg: Config, c: Candidate, candle: Candle, geometry: (real, real)): Setup {
    Setup(c.symbol, SideOf(c), c.pattern, candle.close, geometry.0, geometry.1, 0, cfg.maxBars, 0, Stalking,
          candle.interval, c.stopLoss, c.takeProfit, c.confidence, candle.closeTime, ConfirmedAtBirth(c))
  }

  function Register(cfg: Config, c: Candidate, candle: Candle, b: Book): (Registration, Book) {
    if b.paused then (Refused, b)
    else if c.symbol in b.setups
            && (b.setups[c.symbol].progress.Stalking? || b.setups[c.symbol].progress.Triggered?) then
      (Tracked(b.setups[c.symbol]), b)
    else if c.symbol in b.setups && candle.closeTime <= b.setups[c.symbol].lastProcessed then (Refused, b)
    else if |ActiveSymbols(b)| >= cfg.maxCandidates then (Refused, b)
    else match Geometry(cfg, c, candle)
      case None => (BadGeometry, b)
      case Some(g) =>
        var s := NewSetup(cfg, c, candle, g);
        (Tracked(s.(updatedAt := b.clock)), Pruned(Put(b, s)))
  }

  // Setups no longer stalking that were updated after the given one.
  function Newer(setups: map<string, Setup>, k: string): set<string>
    requires k in setups
  {
    set j | j in setups && !setups[j].progress.Stalking? && setups[j].updatedAt > setups[k].updatedAt
  }

  // Of the setups no longer stalking only the latest are kept.
  function Pruned(b: Book): Book {
    b.(setups := map k | k in b.setups
                   && (b.setups[k].progress.Stalking? || |Newer(b.setups, k)| < HISTORY_LIMIT) :: b.setups[k])
  }

  // ---------------------------------------------------------------------------
  // One closed candle
  // ---------------------------------------------------------------------------

  predicate Breached(s: Setup, candle: Candle) {
    if s.side.Short? then candle.high > s.invalidation else candle.low < s.invalidation
  }

  function Abs(x: real): real {
    if x < 0.0 then -x else x
  }

  function DetectReversal(candle: Candle, side: Side, shapes: Shapes): Option<Pattern> {
    var body := Abs(candle.close - candle.open);
    if shapes.pinbar == Some(side) then Some(DetectedPinbar)
    else if shapes.engulfing == Some(side) then Some(DetectedEngulfing)
    else if side.Short? then
      if candle.close < candle.open && candle.high > candle.open
         && candle.high - Max(candle.open, candle.close) >= body * 0.3 then Some(DetectedRejection) else None
    else
      if candle.close > candle.open && candle.low < candle.open
         && Min(candle.open, candle.close) - candle.low >= body * 0.3 then Some(DetectedRejection) else None
  }

  // The candle touches the target and closes back on the entry side, with a wick to show for it.
  predicate Retested(s: Setup, candle: Candle) {
    var range := candle.high - candle.low;
    var upperWick := candle.high - Max(candle.open, candle.close);
    var lowerWick := Min(candle.open, candle.close) - candle.low;
    range > 0.0 &&
    if s.side.Short? then
      && candle.high >= s.target && candle.close <= s.target
      && candle.open <= s.target + range * 0.10
      && upperWick / range >= 0.15
      && candle.close < candle.high
      && (candle.close <= candle.open || upperWick >= lowerWick)
    else
      && candle.low <= s.target && candle.close >= s.target
      && candle.open >= s.target - range * 0.10
      && lowerWick / range >= 0.15
      && candle.close > candle.low
      && (candle.close >= candle.open || lowerWick >= upperWick)
  }

  function WiderStop(s: Setup, candle: Candle): real {
    var extreme := if s.side.Short? then candle.high else candle.low;
    match s.stopLoss
    case None => extreme
    case Some(stop) => if s.side.Short? then Max(extreme, stop) else Min(extreme, stop)
  }

  function Confirmed(cfg: Config, s: Setup, candle: Candle, pattern: Pattern): Setup {
    var confirmed := s.(reversalConfirmed := true, anchor := candle.close, pattern := pattern);
    if s.pattern.IsZone() then confirmed
    else confirmed.(
           target := Retracement(candle, s.side, cfg.retestRatio),
           invalidation := if s.side.Short? then candle.high else candle.low,
           stopLoss := Some(WiderStop(s, candle)))
  }

  // A setup still stalking meets a candle it has not seen.
  function Advanced(cfg: Config, s: Setup, candle: Candle, shapes: Shapes): Setup {
    if s.currentBar >= s.maxBars then
      s.(currentBar := s.maxBars, progress := Expired, lastProcessed := candle.closeTime)
    else
      var next := s.(currentBar := s.currentBar + 1, lastProcessed := candle.closeTime);
      var reversal := DetectReversal(candle, s.side, shapes);
      if Breached(s, candle) then next.(progress := Invalidated)
      else
        var held :=
          if !s.reversalConfirmed && reversal.Some? then Confirmed(cfg, next, candle, reversal.value) else next;
        if s.reversalConfirmed && Retested(s, candle) then held.(progress := Triggered)
        else if held.currentBar >= s.maxBars then held.(progress := Expired)
        else held
  }

  predicate IsNews(s: Setup, candle: Candle) {
    candle.interval == s.interval && candle.closeTime > s.lastProcessed
  }

  function Update(cfg: Config, candle: Candle, shapes: Shapes, b: Book): (Option<Setup>, Book) {
    if b.paused || candle.symbol !in b.setups then (None, b)
    else
      var s := b.setups[candle.symbol];
      match s.progress
      case Triggered =>
        if candle.closeTime > s.lastProcessed then
          Stored(b, s.(progress := Expired, currentBar := s.maxBars, lastProcessed := candle.closeTime))
        else (None, b)
      case Stalking => if IsNews(s, candle) then Stored(b, Advanced(cfg, s, candle, shapes)) else (Some(s), b)
      case _ => (None, b)
  }

  function Stored(b: Book, s: Setup): (Option<Setup>, Book) {
    (Some(s.(updatedAt := b.clock)), Put(b, s))
  }

  // ---------------------------------------------------------------------------
  // Other transitions
  // ---------------------------------------------------------------------------

  function Ended(b: Book, symbol: string, progress: Progress): (Option<Setup>, Book) {
    if symbol !in b.setups then (None, b) else Stored(b, b.setups[symbol].(progress := progress))
  }

  function ResetTrigger(b: Book, symbol: string): (Option<Setup>, Book) {
    if symbol !in b.setups || !b.setups[symbol].progress.Triggered? then (None, b)
    else
      var s := b.setups[symbol];
      Stored(b, s.(progress := if s.currentBar >= s.maxBars then Expired else Stalking))
  }

  function Pausing(b: Book, paused: bool): Book {
    if b.paused == paused then b
    else if paused then b.(paused := true, setups := map[])
    else b.(paused := false)
  }

  // ---------------------------------------------------------------------------
  // The service
  // ---------------------------------------------------------------------------

  class SetupStalkingService {
    const config: Config
    var setups: map<string, Setup>
    var paused: bool
    var clock: nat

    ghost predicate Valid()
      reads this
    {
      WellKept(TheBook())
    }

    ghost function TheBook(): Book
      reads this
    {
      Book(setups, paused, clock)
    }

    constructor (config: Config)
      ensures this.config == config && TheBook() == EMPTY && Valid()
    {
      this.config := config;
      setups, paused, clock := map[], false, 0;
    }

    method Store(s: Setup) returns (stored: Setup)
      modifies this`setups, this`clock
      ensures (Some(stored), TheBook()) == Stored(old(TheBook()), s)
    {
      stored := s.(updatedAt := clock);
      setups := setups[s.symbol := stored];
      clock := clock + 1;
    }

    method RegisterCandidate(c: Candidate, candle: Candle) returns (r: Registration)
      requires Valid()
      modifies this
      ensures (r, TheBook()) == Register(config, c, candle, old(TheBook())) && Valid()
    {
      RegisterIsWellKept(config, c, candle, TheBook());
      if paused {
        return Refused;
      }
      if c.symbol in setups {
        var existing := setups[c.symbol];
        if existing.progress.Stalking? || existing.progress.Triggered? {
          return Tracked(existing);
        }
        if candle.closeTime <= existing.lastProcessed {
          return Refused;
        }
      }
      if |ActiveSymbols(Book(setups, paused, clock))| >= config.maxCandidates {
        return Refused;
      }
      var geometry := Geometry(config, c, candle);
      if geometry.None? {
        return BadGeometry;
      }
      var stored := Store(NewSetup(config, c, candle, geometry.value));
      setups := Pruned(Book(setups, paused, clock)).setups;
      return Tracked(stored);
    }

    method OnCandleUpdate(candle: Candle, shapes: Shapes) returns (updated: Option<Setup>)
      requires Valid()
      modifies this
      ensures (updated, TheBook()) == Update(config, candle, shapes, old(TheBook())) && Valid()
    {
      UpdateIsWellKept(config, candle, shapes, TheBook());
      if paused || candle.symbol !in setups {
        return None;
      }
      var s := setups[candle.symbol];
      var stored: Setup;
      if s.progress.Triggered? {
        if candle.closeTime > s.lastProcessed {
          stored := Store(s.(progress := Expired, currentBar := s.maxBars, lastProcessed := candle.closeTime));
          return Some(stored);
        }
        return None;
      }
      if !s.progress.Stalking? {
        return None;
      }
      if candle.interval != s.interval || candle.closeTime <= s.lastProcessed {
        return Some(s);
      }
      stored := Store(Advanced(config, s, candle, shapes));
      return Some(stored);
    }

    method InvalidateSetup(symbol: string) returns (updated: Option<Setup>)
      requires Valid()
      modifies this
      ensures (updated, TheBook()) == Ended(old(TheBook()), symbol, Invalidated) && Valid()
    {
      if symbol !in setups {
        return None;
      }
      var stored := Store(setups[symbol].(progress := Invalidated));
      return Some(stored);
    }

    method ConsumeSetup(symbol: string) returns (updated: Option<Setup>)
      requires Valid()
      modifies this
      ensures (updated, TheBook()) == Ended(old(TheBook()), symbol, Consumed) && Valid()
    {
      if symbol !in setups {
        return None;
      }
      var stored := Store(setups[symbol].(progress := Consumed));
      return Some(stored);
    }

    method ResetTriggeredToStalking(symbol: string) returns (updated: Option<Setup>)
      requires Valid()
      modifies this
      ensures (updated, TheBook()) == ResetTrigger(old(TheBook()), symbol) && Valid()
    {
      if symbol !in setups || !setups[symbol].progress.Triggered? {
        return None;
      }
      var s := setups[symbol];
      var stored := Store(s.(progress := if s.currentBar >= s.maxBars then Expired else Stalking));
      return Some(stored);
    }

    method SetPaused(paused: bool)
      requires Valid()
      modifies this
      ensures TheBook() == Pausing(old(TheBook()), paused) && Valid()
    {
      if this.paused == paused {
        return;
      }
      this.paused := paused;
      if paused {
        setups := map[];
      }
    }
  }

  // ---------------------------------------------------------------------------
  // What every operation keeps
  // ---------------------------------------------------------------------------

  /**
   Setups are filed under their own symbol with distinct stamps from the past, and a
   setup that may still act has not outlived its bar window.
   */
  ghost predicate WellKept(b: Book) {
    && (forall k :: k in b.setups ==>
          && b.setups[k].symbol == k
          && b.setups[k].updatedAt < b.clock
          && b.setups[k].currentBar <= b.setups[k].maxBars
          && (b.setups[k].progress.Stalking? && b.setups[k].maxBars > 0 ==>
                b.setups[k].currentBar < b.setups[k].maxBars))
    && (forall j, k :: j in b.setups && k in b.setups && j != k ==> b.setups[j].updatedAt != b.setups[k].updatedAt)
    && (b.paused ==> b.setups == map[])
  }

  lemma PutIsWellKept(b: Book, s: Setup)
    requires WellKept(b) && !b.paused && s.currentBar <= s.maxBars
    requires s.progress.Stalking? && s.maxBars > 0 ==> s.currentBar < s.maxBars
    ensures WellKept(Put(b, s))
  {
  }

  lemma RegisterIsWellKept(cfg: Config, c: Candidate, candle: Candle, b: Book)
    requires WellKept(b)
    ensures WellKept(Register(cfg, c, candle, b).1)
  {
    var g := Geometry(cfg, c, candle);
    if !b.paused && g.Some? {
      PutIsWellKept(b, NewSetup(cfg, c, candle, g.value));
    }
  }

  lemma UpdateIsWellKept(cfg: Config, candle: Candle, shapes: Shapes, b: Book)
    requires WellKept(b)
    ensures WellKept(Update(cfg, candle, shapes, b).1)
  {
    if !b.paused && candle.symbol in b.setups {
      var s := b.setups[candle.symbol];
      if s.progress.Triggered? {
        PutIsWellKept(b, s.(progress := Expired, currentBar := s.maxBars, lastProcessed := candle.closeTime));
      } else if s.progress.Stalking? {
        PutIsWellKept(b, Advanced(cfg, s, candle, shapes));
      }
    }
  }
}
