/**
 What one candle does to a setup, in prices. The long side is spelled out; the short
 side is its mirror image, for every operation.
 */
module StalkingPrices {
  import opened Prelude
  import opened Candles
  import opened StalkingSetups

  // ---------------------------------------------------------------------------
  // The mirror
  // ---------------------------------------------------------------------------

  function Opposite(side: Side): Side {
    match side
    case Long => Short
    case Short => Long
  }

  function MirroredCandle(c: Candle): Candle {
    c.(open := -c.open, high := -c.low, low := -c.high, close := -c.close)
  }

  function MirroredPattern(p: Pattern): Pattern {
    match p
    case ZoneLong => ZoneShort
    case ZoneShort => ZoneLong
    case _ => p
  }

  function Negated(price: Option<real>): Option<real> {
    match price
    case None => None
    case Some(x) => Some(-x)
  }

  function MirroredSetup(s: Setup): Setup {
    s.(side := Opposite(s.side), pattern := MirroredPattern(s.pattern), anchor := -s.anchor,
       invalidation := -s.invalidation, target := -s.target,
       stopLoss := Negated(s.stopLoss), takeProfit := Negated(s.takeProfit))
  }

  function MirroredShape(shape: Option<Side>): Option<Side> {
    match shape
    case None => None
    case Some(side) => Some(Opposite(side))
  }

  function MirroredShapes(shapes: Shapes): Shapes {
    Shapes(MirroredShape(shapes.pinbar), MirroredShape(shapes.engulfing))
  }

  function MirroredKind(kind: Kind): Kind {
    match kind
    case Buy => Sell
    case Sell => Buy
    case CloseLong => CloseShort
    case CloseShort => CloseLong
    case Hold => Hold
  }

  function MirroredCandidate(c: Candidate): Candidate {
    c.(kind := MirroredKind(c.kind), mentionsLong := !c.mentionsLong, pattern := MirroredPattern(c.pattern),
       price := -c.price, stopLoss := Negated(c.stopLoss), takeProfit := Negated(c.takeProfit))
  }

  lemma TowardMirrors(start: real, end: real, share: real)
    ensures Toward(-start, -end, share) == -Toward(start, end, share)
  {
    assert (-end - -start) * share == -((end - start) * share);
  }

  lemma RetracementMirrors(candle: Candle, side: Side, ratio: real)
    ensures Retracement(MirroredCandle(candle), Opposite(side), ratio) == -Retracement(candle, side, ratio)
  {
    var top, bottom := Max(candle.open, candle.close), Min(candle.open, candle.close);
    TowardMirrors(top, bottom, ratio);
    TowardMirrors(bottom, top, ratio);
  }

  lemma RetestMirrors(s: Setup, candle: Candle)
    ensures Retested(MirroredSetup(s), MirroredCandle(candle)) <==> Retested(s, candle)
  {
    var mirrored := MirroredCandle(candle);
    assert mirrored.high - mirrored.low == candle.high - candle.low;
    assert mirrored.high - Max(mirrored.open, mirrored.close) == Min(candle.open, candle.close) - candle.low;
    assert Min(mirrored.open, mirrored.close) - mirrored.low == candle.high - Max(candle.open, candle.close);
  }

  lemma ReversalMirrors(candle: Candle, side: Side, shapes: Shapes)
    ensures DetectReversal(MirroredCandle(candle), Opposite(side), MirroredShapes(shapes))
         == DetectReversal(candle, side, shapes)
  {
    var mirrored := MirroredCandle(candle);
    assert Abs(mirrored.close - mirrored.open) == Abs(candle.close - candle.open);
  }

  lemma ConfirmationMirrors(cfg: Config, s: Setup, candle: Candle, pattern: Pattern)
    requires MirroredPattern(pattern) == pattern
    ensures Confirmed(cfg, MirroredSetup(s), MirroredCandle(candle), pattern)
         == MirroredSetup(Confirmed(cfg, s, candle, pattern))
  {
    RetracementMirrors(candle, s.side, cfg.retestRatio);
  }

  predicate WithinWindow(s: Setup, candle: Candle) {
    s.currentBar < s.maxBars && !Breached(s, candle)
  }

  lemma EndedMirrors(cfg: Config, s: Setup, candle: Candle, shapes: Shapes)
    requires !WithinWindow(s, candle)
    ensures Advanced(cfg, MirroredSetup(s), MirroredCandle(candle), MirroredShapes(shapes))
         == MirroredSetup(Advanced(cfg, s, candle, shapes))
  {
    assert Breached(MirroredSetup(s), MirroredCandle(candle)) <==> Breached(s, candle);
  }

  lemma ConfirmedMirrors(cfg: Config, s: Setup, candle: Candle, shapes: Shapes)
    requires WithinWindow(s, candle) && s.reversalConfirmed
    ensures Advanced(cfg, MirroredSetup(s), MirroredCandle(candle), MirroredShapes(shapes))
         == MirroredSetup(Advanced(cfg, s, candle, shapes))
  {
    assert Breached(MirroredSetup(s), MirroredCandle(candle)) <==> Breached(s, candle);
    RetestMirrors(s, candle);
  }

  lemma PendingMirrors(cfg: Config, s: Setup, candle: Candle, shapes: Shapes)
    requires WithinWindow(s, candle) && !s.reversalConfirmed
    ensures Advanced(cfg, MirroredSetup(s), MirroredCandle(candle), MirroredShapes(shapes))
         == MirroredSetup(Advanced(cfg, s, candle, shapes))
  {
    var next := s.(currentBar := s.currentBar + 1, lastProcessed := candle.closeTime);
    var reversal := DetectReversal(candle, s.side, shapes);
    assert Breached(MirroredSetup(s), MirroredCandle(candle)) <==> Breached(s, candle);
    ReversalMirrors(candle, s.side, shapes);
    if reversal.Some? {
      ConfirmationMirrors(cfg, next, candle, reversal.value);
    }
  }

  /** A short setup meets a candle exactly as a long one meets the candle's mirror image. */
  lemma CandleMirrors(cfg: Config, s: Setup, candle: Candle, shapes: Shapes)
    ensures Advanced(cfg, MirroredSetup(s), MirroredCandle(candle), MirroredShapes(shapes))
         == MirroredSetup(Advanced(cfg, s, candle, shapes))
  {
    if !WithinWindow(s, candle) {
      EndedMirrors(cfg, s, candle, shapes);
    } else if s.reversalConfirmed {
      ConfirmedMirrors(cfg, s, candle, shapes);
    } else {
      PendingMirrors(cfg, s, candle, shapes);
    }
  }

  function MirroredGeometry(g: Option<(real, real)>): Option<(real, real)> {
    match g
    case None => None
    case Some(pair) => Some((-pair.0, -pair.1))
  }

  /** And registers exactly as a long one does on the mirror image. */
  lemma RegistrationMirrors(cfg: Config, c: Candidate, candle: Candle)
    ensures SideOf(MirroredCandidate(c)) == Opposite(SideOf(c))
    ensures Geometry(cfg, MirroredCandidate(c), MirroredCandle(candle)) == MirroredGeometry(Geometry(cfg, c, candle))
    ensures Geometry(cfg, c, candle).Some? ==>
      NewSetup(cfg, MirroredCandidate(c), MirroredCandle(candle),
               Geometry(cfg, MirroredCandidate(c), MirroredCandle(candle)).value)
        == MirroredSetup(NewSetup(cfg, c, candle, Geometry(cfg, c, candle).value))
  {
    RetracementMirrors(candle, SideOf(c), cfg.retestRatio);
  }

  // ---------------------------------------------------------------------------
  // The long side, in prices
  // ---------------------------------------------------------------------------

  // Shares of the candle are compared without dividing by its range.
  predicate BouncesAt(candle: Candle, target: real) {
    var bottom, top := Min(candle.open, candle.close), Max(candle.open, candle.close);
    && candle.low <= target <= candle.close
    && candle.low < candle.close && candle.low < candle.high
    && 10.0 * (target - candle.open) <= candle.high - candle.low
    && 100.0 * (bottom - candle.low) >= 15.0 * (candle.high - candle.low)
    && (candle.open <= candle.close || bottom - candle.low >= candle.high - top)
  }

  lemma ShareOfRange(part: real, whole: real)
    requires whole > 0.0
    ensures part / whole >= 0.15 <==> 100.0 * part >= 15.0 * whole
  {
    var share := part / whole;
    assert share * whole == part;
    if share >= 0.15 {
      assert (share - 0.15) * whole >= 0.0;
    } else {
      assert (0.15 - share) * whole > 0.0;
    }
  }

  // The bounce that turns an unconfirmed long setup.
  predicate TurnsUp(candle: Candle, shapes: Shapes) {
    || shapes.pinbar == Some(Long) || shapes.engulfing == Some(Long)
    || (candle.low < candle.open < candle.close
        && 10.0 * (candle.open - candle.low) >= 3.0 * (candle.close - candle.open))
  }

  /**
   A long setup within its window, exactly: it is invalidated by a low under its
   invalidation price, triggered by a bounce at its target once confirmed, expired when
   its last bar brings neither, and otherwise stays.
   */
  lemma LongProgressExactly(cfg: Config, s: Setup, candle: Candle, shapes: Shapes)
    requires s.side == Long && s.progress == Stalking && s.currentBar < s.maxBars
    ensures var after := Advanced(cfg, s, candle, shapes);
      var broken := candle.low < s.invalidation;
      var bounced := s.reversalConfirmed && BouncesAt(candle, s.target);
      && after.currentBar == s.currentBar + 1 && after.lastProcessed == candle.closeTime
      && after.progress == (if broken then Invalidated
                            else if bounced then Triggered
                            else if s.currentBar + 1 == s.maxBars then Expired
                            else Stalking)
  {
    if candle.high - candle.low > 0.0 {
      ShareOfRange(Min(candle.open, candle.close) - candle.low, candle.high - candle.low);
    }
  }

  /**
   What else the candle changes, exactly. Only the confirmation of an unbroken setup moves
   prices: a zone keeps its own, any other takes the candle's low as invalidation, the wider
   of the stops, and a target that gives back the configured share of the body.
   */
  lemma LongConfirmationExactly(cfg: Config, s: Setup, candle: Candle, shapes: Shapes)
    requires s.side == Long && s.progress == Stalking && s.currentBar < s.maxBars
    ensures var after := Advanced(cfg, s, candle, shapes);
      var turned := !s.reversalConfirmed && candle.low >= s.invalidation && TurnsUp(candle, shapes);
      && (after.reversalConfirmed <==> s.reversalConfirmed || turned)
      && (!turned ==> after == s.(currentBar := after.currentBar, lastProcessed := after.lastProcessed,
                                  progress := after.progress))
      && (turned ==>
            && after.anchor == candle.close && !after.pattern.IsZone()
            && (after.pattern == DetectedPinbar <==> shapes.pinbar == Some(Long))
            && (after.pattern == DetectedEngulfing <==> shapes.pinbar != Some(Long) && shapes.engulfing == Some(Long))
            && Identity(after) == Identity(s)
            && if s.pattern.IsZone() then KeepsPrices(s, after) else TakesPrices(cfg, s, candle, after))
  {
  }

  // Everything no candle changes.
  function Identity(s: Setup): (string, Side, nat, nat, Option<real>, real) {
    (s.symbol, s.side, s.maxBars, s.updatedAt, s.takeProfit, s.confidence)
  }

  predicate KeepsPrices(s: Setup, after: Setup) {
    after.target == s.target && after.invalidation == s.invalidation && after.stopLoss == s.stopLoss
  }

  predicate TakesPrices(cfg: Config, s: Setup, candle: Candle, after: Setup) {
    var bottom, top := Min(candle.open, candle.close), Max(candle.open, candle.close);
    && after.invalidation == candle.low
    && after.stopLoss
         == Some(if s.stopLoss.Some? && s.stopLoss.value < candle.low then s.stopLoss.value else candle.low)
    && (if top == bottom then after.target == candle.close else top - after.target == (top - bottom) * cfg.retestRatio)
  }

  /**
   The prices a long setup is registered with, exactly. A zone aims at the candidate's price
   and is refused when its stop is not under both that and the candle's low, or when it has
   no stop and its price is not above the low; where the price is not, the stop invalidates.
   */
  lemma LongRegistrationExactly(cfg: Config, c: Candidate, candle: Candle)
    requires c.kind == Buy || (c.kind != Sell && c.mentionsLong)
    ensures SideOf(c) == Long
    ensures var stop := c.stopLoss; var above := c.price > candle.low;
      c.pattern.IsZone() ==>
        && (Geometry(cfg, c, candle).Some? <==>
              if stop.Some? then stop.value < candle.low && stop.value < c.price else above)
        && (Geometry(cfg, c, candle).Some? ==>
              Geometry(cfg, c, candle).value == (if above then candle.low else stop.value, c.price))
    ensures !c.pattern.IsZone() ==>
      && Geometry(cfg, c, candle).Some? && Geometry(cfg, c, candle).value.0 == candle.low
      && TargetAtBirth(cfg, c, candle, Geometry(cfg, c, candle).value.1)
  {
  }

  predicate TargetAtBirth(cfg: Config, c: Candidate, candle: Candle, target: real) {
    var bottom, top := Min(candle.open, candle.close), Max(candle.open, candle.close);
    var confirmed := c.kind == Buy || c.kind == Sell || c.pattern in {Pattern.Engulfing, Pinbar, Star, Reversal};
    if !confirmed || top == bottom then target == candle.close
    else top - target == (top - bottom) * cfg.retestRatio
  }

  /** What a registered setup carries over from its candidate and candle. */
  lemma RegisteredAsGiven(cfg: Config, c: Candidate, candle: Candle, b: Book)
    requires Geometry(cfg, c, candle).Some?
    ensures var s := NewSetup(cfg, c, candle, Geometry(cfg, c, candle).value);
      && s.symbol == c.symbol && s.pattern == c.pattern && s.anchor == candle.close && s.interval == candle.interval
      && s.progress == Stalking && s.currentBar == 0 && s.maxBars == cfg.maxBars && s.lastProcessed == candle.closeTime
      && s.stopLoss == c.stopLoss && s.takeProfit == c.takeProfit && s.confidence == c.confidence
      && (s.reversalConfirmed <==>
            c.kind == Buy || c.kind == Sell || c.pattern in {Pattern.Engulfing, Pinbar, Star, Reversal})
      && (s.invalidation, s.target) == Geometry(cfg, c, candle).value
  {
  }

  // ---------------------------------------------------------------------------
  // The short side
  // ---------------------------------------------------------------------------

  /** A short setup is invalidated only above its invalidation price, and triggers only at or above its target. */
  lemma ShortProgressExactly(cfg: Config, s: Setup, candle: Candle, shapes: Shapes)
    requires s.side == Short && s.progress == Stalking && s.currentBar < s.maxBars
    ensures var after := Advanced(cfg, s, candle, shapes);
      && (after.progress == Invalidated <==> candle.high > s.invalidation)
      && (after.progress == Triggered <==>
            candle.high <= s.invalidation && s.reversalConfirmed && BouncesAt(MirroredCandle(candle), -s.target))
      && (after.progress == Triggered ==> candle.close <= s.target <= candle.high)
  {
    CandleMirrors(cfg, s, candle, shapes);
    LongProgressExactly(cfg, MirroredSetup(s), MirroredCandle(candle), MirroredShapes(shapes));
  }

  // ---------------------------------------------------------------------------
  // Everything else that moves a setup
  // ---------------------------------------------------------------------------

  // Nothing but one symbol's setup and the clock changed.
  predicate FiledOnly(b: Book, next: Book, symbol: string) {
    && symbol in b.setups && symbol in next.setups && next.paused == b.paused && next.clock == b.clock + 1
    && next.setups == b.setups[symbol := next.setups[symbol]] && next.setups[symbol].updatedAt == b.clock
  }

  /**
   What the setup service does with a candle, exactly. A stalking setup meets a newer candle
   of its own interval; a triggered one expires at the next newer candle, with its window
   used up; and nothing else changes anything.
   */
  lemma CandleUpdateExactly(cfg: Config, candle: Candle, shapes: Shapes, b: Book)
    requires forall k :: k in b.setups ==> b.setups[k].symbol == k
    ensures var (updated, next) := Update(cfg, candle, shapes, b); var known := candle.symbol in b.setups;
      if b.paused || !known then updated == None && next == b
      else
        var s := b.setups[candle.symbol];
        if s.progress == Stalking && s.interval == candle.interval && s.lastProcessed < candle.closeTime then
          && FiledOnly(b, next, candle.symbol) && updated == Some(next.setups[candle.symbol])
          && next.setups[candle.symbol] == Advanced(cfg, s, candle, shapes).(updatedAt := b.clock)
        else if s.progress == Stalking then updated == Some(s) && next == b
        else if s.progress == Triggered && s.lastProcessed < candle.closeTime then
          && FiledOnly(b, next, candle.symbol) && updated == Some(next.setups[candle.symbol])
          && next.setups[candle.symbol]
               == s.(progress := Expired, currentBar := s.maxBars,
                     lastProcessed := candle.closeTime, updatedAt := b.clock)
        else updated == None && next == b
  {
  }

  /** Ending a setup files its new progress alone; taking a trigger back needs a trigger, and bars to go on. */
  lemma EndingsExactly(b: Book, symbol: string, progress: Progress)
    requires forall k :: k in b.setups ==> b.setups[k].symbol == k
    ensures var (ended, next) := Ended(b, symbol, progress);
      if symbol !in b.setups then ended == None && next == b
      else
        && FiledOnly(b, next, symbol) && ended == Some(next.setups[symbol])
        && next.setups[symbol] == b.setups[symbol].(progress := progress, updatedAt := b.clock)
    ensures var (taken, next) := ResetTrigger(b, symbol);
      if symbol !in b.setups || b.setups[symbol].progress != Triggered then taken == None && next == b
      else
        var s := b.setups[symbol];
        && FiledOnly(b, next, symbol) && taken == Some(next.setups[symbol])
        && next.setups[symbol]
             == s.(progress := if s.currentBar < s.maxBars then Stalking else Expired, updatedAt := b.clock)
  {
  }

  /** Pausing forgets every setup, once; resuming forgets none. */
  lemma PausingExactly(b: Book, paused: bool)
    ensures var next := Pausing(b, paused);
      && next.paused == paused && next.clock == b.clock
      && next.setups == if paused && !b.paused then map[] else b.setups
  {
  }
}
