/** Entry safety of the LIVE cycle, over any number of cycles and environments. */
module LiveCycleSafety {
  import opened Prelude
  import opened LiveCycle

  // ---------------------------------------------------------------------------
  // What the trace says at a given moment
  // ---------------------------------------------------------------------------

  function LatestPortfolio(trace: seq<Event>): Option<Portfolio> {
    if trace == [] then None
    else
      var e := trace[|trace| - 1];
      if e.Reconciled? && e.portfolio.Some? then e.portfolio else LatestPortfolio(trace[..|trace| - 1])
  }

  function LatestLimit(trace: seq<Event>): Option<nat> {
    if trace == [] then None
    else
      var e := trace[|trace| - 1];
      if e.CapacityChecked? then Some(e.limit) else LatestLimit(trace[..|trace| - 1])
  }

  function LatestThrottle(trace: seq<Event>): Option<bool> {
    if trace == [] then None
    else
      var e := trace[|trace| - 1];
      if e.ThrottleChecked? then Some(e.throttled) else LatestThrottle(trace[..|trace| - 1])
  }

  function LatestIntent(trace: seq<Event>): Option<IntentStatus> {
    if trace == [] then None
    else
      var e := trace[|trace| - 1];
      if e.IntentDecided? then Some(e.status) else LatestIntent(trace[..|trace| - 1])
  }

  function LatestClaim(trace: seq<Event>): (claim: Option<Event>)
    ensures claim.Some? ==> claim.value.Claimed?
  {
    if trace == [] then None
    else
      var e := trace[|trace| - 1];
      if e.Claimed? then Some(e) else LatestClaim(trace[..|trace| - 1])
  }

  /**
   What the cycle itself checks before it enters: room under the limit last read,
   for the last portfolio a reconciliation returned; no throttling; an authorized
   intent; and a claim that was new.
   */
  predicate Cleared(before: seq<Event>) {
    && LatestPortfolio(before).Some? && LatestLimit(before).Some?
    && LatestPortfolio(before).value < LatestLimit(before).value
    && LatestThrottle(before) == Some(false)
    && LatestIntent(before) == Some(Authorized)
    && LatestClaim(before).Some? && LatestClaim(before).value.isNew
  }

  /** Everything an entry needs: cleared, claimed on this very candle, and not entered before. */
  predicate Justified(before: seq<Event>, key: ClaimKey) {
    && Cleared(before)
    && LatestClaim(before) == Some(Claimed(key, true))
    && Executed(key) !in before
  }

  // Risk evaluation decides about the candle it was asked about.
  predicate KeepsCandle(cfg: Config, c: Candidate) {
    c.evaluation.Returned? ==> KeyOf(c.evaluation.value.signal, cfg.interval) == KeyOf(c.signal, cfg.interval)
  }

  ghost predicate KeepsCandles(cfg: Config, t: Tape) {
    t.candidates.Returned? ==> forall c :: c in t.candidates.value ==> KeepsCandle(cfg, c)
  }

  // Every entry was cleared and, when evaluations keep their candle, justified.
  ghost predicate SafeTrace(trace: seq<Event>, kept: bool) {
    forall i :: 0 <= i < |trace| && trace[i].Executed? ==>
      Cleared(trace[..i]) && (kept ==> Justified(trace[..i], trace[i].key))
  }

  ghost predicate ClaimedWhatRan(w: World) {
    forall e :: e in w.trace && e.Executed? ==> e.key in w.claims
  }

  ghost predicate SafeWorld(w: World, kept: bool) {
    SafeTrace(w.trace, kept) && (kept ==> ClaimedWhatRan(w))
  }

  // ---------------------------------------------------------------------------
  // Steps
  // ---------------------------------------------------------------------------

  lemma LogIsSafe(w: World, e: Event, kept: bool)
    requires SafeWorld(w, kept)
    requires e.Executed? ==> Cleared(w.trace) && (kept ==> Justified(w.trace, e.key) && e.key in w.claims)
    ensures SafeWorld(w.Log(e), kept)
    ensures LatestPortfolio(w.Log(e).trace)
         == if e.Reconciled? && e.portfolio.Some? then e.portfolio else LatestPortfolio(w.trace)
  {
    var trace := w.trace + [e];
    assert trace[..|w.trace|] == w.trace;
    forall i | 0 <= i < |trace| && trace[i].Executed?
      ensures Cleared(trace[..i]) && (kept ==> Justified(trace[..i], trace[i].key))
    {
      if i < |w.trace| {
        assert trace[..i] == w.trace[..i] && trace[i] == w.trace[i];
      }
    }
  }

  lemma ClaimIsSafe(w: World, key: ClaimKey, kept: bool)
    requires SafeWorld(w, kept)
    ensures SafeWorld(w.Claim(key), kept)
    ensures LatestPortfolio(w.Claim(key).trace) == LatestPortfolio(w.trace)
  {
    LogIsSafe(w, Claimed(key, key !in w.claims), kept);
  }

  lemma StalkingIsSafe(cfg: Config, w: World, paused: bool, kept: bool)
    requires SafeWorld(w, kept)
    ensures SafeWorld(w.SetStalking(cfg, paused), kept)
    ensures LatestPortfolio(w.SetStalking(cfg, paused).trace) == LatestPortfolio(w.trace)
  {
    LogIsSafe(w, StalkingPaused(paused), kept);
  }

  lemma InvalidateIsSafe(cfg: Config, w: World, symbol: string, kept: bool)
    requires SafeWorld(w, kept)
    ensures SafeWorld(w.Invalidate(cfg, symbol), kept)
    ensures LatestPortfolio(w.Invalidate(cfg, symbol).trace) == LatestPortfolio(w.trace)
  {
    LogIsSafe(w, SetupInvalidated(symbol), kept);
  }

  /** The loop's own portfolio variable is the latest reconciled one. */
  ghost predicate Tracks(p: Progress, kept: bool) {
    SafeWorld(p.world, kept) && LatestPortfolio(p.world.trace) == Some(p.portfolio)
  }

  lemma AdoptIsSafe(cfg: Config, c: Candidate, p: Progress, kept: bool)
    requires Tracks(p, kept)
    ensures SafeWorld(Adopt(cfg, c, p).0.world, kept)
    ensures Adopt(cfg, c, p).1.Continue? || Adopt(cfg, c, p).1.Stop? ==> Tracks(Adopt(cfg, c, p).0, kept)
  {
    if c.portfolioAfter.Returned? {
      var seen := p.world.Log(Reconciled(c.portfolioAfter.value));
      LogIsSafe(p.world, Reconciled(c.portfolioAfter.value), kept);
      LogIsSafe(seen, CapacityChecked(c.limitAfter), kept);
      StalkingIsSafe(cfg, seen.Log(CapacityChecked(c.limitAfter)), true, kept);
    }
  }

  lemma ExecuteIsSafe(cfg: Config, c: Candidate, p: Progress, kept: bool)
    requires Tracks(p, kept)
    ensures SafeWorld(Execute(cfg, c, p).0.world, kept)
    ensures Execute(cfg, c, p).1.Continue? || Execute(cfg, c, p).1.Stop? ==> Tracks(Execute(cfg, c, p).0, kept)
  {
    if c.execution.Returned? && ToTradeResult(c.execution.value).Returned? {
      var done := p.(results := p.results + [ToTradeResult(c.execution.value).value]);
      AdoptIsSafe(cfg, c, done, kept);
      InvalidateIsSafe(cfg, p.world, c.signal.symbol, kept);
    }
  }

  /** The gates a candidate has passed when its claim turns out to be new. */
  ghost predicate Gated(trace: seq<Event>, key: ClaimKey, kept: bool) {
    && LatestPortfolio(trace).Some? && LatestLimit(trace).Some?
    && LatestPortfolio(trace).value < LatestLimit(trace).value
    && LatestClaim(trace) == Some(Claimed(key, true))
    && (kept ==> Executed(key) !in trace)
  }

  lemma GatesLeadToJustified(trace: seq<Event>, key: ClaimKey, kept: bool)
    requires Gated(trace, key, kept)
    ensures var entering := trace + [IntentDecided(Authorized)] + [ThrottleChecked(false)];
      Cleared(entering) && (kept ==> Justified(entering, key))
  {
    var t1 := trace + [IntentDecided(Authorized)];
    var t2 := t1 + [ThrottleChecked(false)];
    assert t1[..|trace|] == trace && t2[..|t1|] == t1;
  }

  lemma ProcessClaimedIsSafe(cfg: Config, c: Candidate, p: Progress, kept: bool)
    requires Tracks(p, kept) && Gated(p.world.trace, KeyOf(c.signal, cfg.interval), kept)
    requires kept ==> KeepsCandle(cfg, c)
    requires KeyOf(c.signal, cfg.interval) in p.world.claims
    ensures SafeWorld(ProcessClaimed(cfg, c, p).0.world, kept)
    ensures var (next, v) := ProcessClaimed(cfg, c, p); v.Continue? || v.Stop? ==> Tracks(next, kept)
  {
    if c.evaluation.Returned? && Authorize(cfg, c.evaluation.value).Returned? {
      var status := Authorize(cfg, c.evaluation.value).value;
      var decided := p.world.Log(IntentDecided(status));
      LogIsSafe(p.world, IntentDecided(status), kept);
      InvalidateIsSafe(cfg, decided, c.signal.symbol, kept);
      if status.Authorized? {
        var gated := decided.Log(ThrottleChecked(c.throttledAfter));
        LogIsSafe(decided, ThrottleChecked(c.throttledAfter), kept);
        InvalidateIsSafe(cfg, gated, c.signal.symbol, kept);
        if !c.throttledAfter {
          var key := KeyOf(c.signal, cfg.interval);
          GatesLeadToJustified(p.world.trace, key, kept);
          var ran := KeyOf(c.evaluation.value.signal, cfg.interval);
          LogIsSafe(gated, Executed(ran), kept);
          ExecuteIsSafe(cfg, c, p.(world := gated.Log(Executed(ran))), kept);
        }
      }
    }
  }

  lemma ClaimGates(p: Progress, limit: nat, key: ClaimKey, kept: bool)
    requires Tracks(p, kept) && p.portfolio < limit && key !in p.world.claims
    ensures Gated(p.world.Log(CapacityChecked(limit)).Log(ThrottleChecked(false)).Claim(key).trace, key, kept)
  {
    var t0 := p.world.trace;
    var t1 := t0 + [CapacityChecked(limit)];
    var t2 := t1 + [ThrottleChecked(false)];
    var t3 := t2 + [Claimed(key, true)];
    assert t1[..|t0|] == t0 && t2[..|t1|] == t1 && t3[..|t2|] == t2;
    assert LatestPortfolio(t1) == LatestPortfolio(t0) && LatestLimit(t1) == Some(limit);
    assert LatestPortfolio(t2) == LatestPortfolio(t1) && LatestLimit(t2) == LatestLimit(t1);
    assert LatestPortfolio(t3) == LatestPortfolio(t2) && LatestLimit(t3) == LatestLimit(t2);
    assert kept ==> Executed(key) !in t0;
  }

  lemma ProcessIsSafe(cfg: Config, c: Candidate, p: Progress, kept: bool)
    requires Tracks(p, kept) && (kept ==> KeepsCandle(cfg, c))
    ensures SafeWorld(Process(cfg, c, p).0.world, kept)
    ensures var (next, v) := Process(cfg, c, p); v.Continue? || v.Stop? ==> Tracks(next, kept)
  {
    var checked := p.world.Log(CapacityChecked(c.limitBefore));
    LogIsSafe(p.world, CapacityChecked(c.limitBefore), kept);
    StalkingIsSafe(cfg, checked, true, kept);
    if p.portfolio < c.limitBefore {
      var gated := checked.Log(ThrottleChecked(c.throttledBefore));
      LogIsSafe(checked, ThrottleChecked(c.throttledBefore), kept);
      if !c.throttledBefore && !c.claimRaises && Actionable(c.signal) {
        var key := KeyOf(c.signal, cfg.interval);
        ClaimIsSafe(gated, key, kept);
        if key !in gated.claims {
          ClaimGates(p, c.limitBefore, key, kept);
          ProcessClaimedIsSafe(cfg, c, p.(world := gated.Claim(key)), kept);
        }
      }
    }
  }

  lemma {:induction false} LoopIsSafe(cfg: Config, cs: seq<Candidate>, p: Progress, kept: bool)
    requires Tracks(p, kept) && (kept ==> forall c :: c in cs ==> KeepsCandle(cfg, c))
    ensures SafeWorld(Loop(cfg, cs, p).0.world, kept)
    ensures var (next, v) := Loop(cfg, cs, p); v.Continue? || v.Stop? ==> Tracks(next, kept)
    decreases |cs|
  {
    if cs != [] {
      assert cs[0] in cs;
      ProcessIsSafe(cfg, cs[0], p, kept);
      var (next, v) := Process(cfg, cs[0], p);
      if v.Continue? {
        assert forall c :: c in cs[1..] ==> c in cs;
        LoopIsSafe(cfg, cs[1..], next, kept);
      }
    }
  }

  lemma PreambleIsSafe(cfg: Config, t: Tape, w: World, kept: bool)
    requires SafeWorld(w, kept)
    ensures SafeWorld(Preamble(cfg, t, w).0, kept)
    ensures var (w1, portfolio) := Preamble(cfg, t, w);
      portfolio.Returned? && portfolio.value.Some? ==> LatestPortfolio(w1.trace) == portfolio.value
  {
    if t.first.Returned? {
      LogIsSafe(w, Reconciled(t.first.value), kept);
      if t.second.Returned? {
        LogIsSafe(w.Log(Reconciled(t.first.value)), Reconciled(t.second.value), kept);
      }
    }
  }

  lemma OpeningIsSafe(cfg: Config, t: Tape, w1: World, open: Portfolio, kept: bool)
    requires SafeWorld(w1, kept) && LatestPortfolio(w1.trace) == Some(open)
    ensures var w2 := w1.Log(CapacityChecked(t.limit));
      && SafeWorld(w2.SetStalking(cfg, true), kept)
      && var w3 := w2.SetStalking(cfg, false).Log(ThrottleChecked(t.throttled));
         SafeWorld(w3, kept) && LatestPortfolio(w3.trace) == Some(open)
  {
    var w2 := w1.Log(CapacityChecked(t.limit));
    LogIsSafe(w1, CapacityChecked(t.limit), kept);
    StalkingIsSafe(cfg, w2, true, kept);
    StalkingIsSafe(cfg, w2, false, kept);
    LogIsSafe(w2.SetStalking(cfg, false), ThrottleChecked(t.throttled), kept);
  }

  lemma CycleKeepsSafe(cfg: Config, t: Tape, w: World, kept: bool)
    requires SafeWorld(w, kept) && (kept ==> KeepsCandles(cfg, t))
    ensures SafeWorld(Cycle(cfg, t, w).1, kept)
  {
    PreambleIsSafe(cfg, t, w, kept);
    var (w1, portfolio) := Preamble(cfg, t, w);
    if portfolio.Returned? && portfolio.value.Some? {
      OpeningIsSafe(cfg, t, w1, portfolio.value.value, kept);
      if t.candidates.Returned? {
        var w3 := w1.Log(CapacityChecked(t.limit)).SetStalking(cfg, false).Log(ThrottleChecked(t.throttled));
        LoopIsSafe(cfg, t.candidates.value, Progress(w3, portfolio.value.value, [], false, false), kept);
      }
    }
  }

  /**
   One cycle against any environment, however it ends and whatever its providers
   answer: every entry had room, no throttling, an authorized intent and a new claim.
   */
  lemma EntriesAreCleared(cfg: Config, t: Tape, w: World)
    requires SafeWorld(w, false)
    ensures SafeWorld(Cycle(cfg, t, w).1, false)
  {
    CycleKeepsSafe(cfg, t, w, false);
  }

  /** When evaluations keep their candle, that claim is on the very candle executed, and none is executed again. */
  lemma CycleIsSafe(cfg: Config, t: Tape, w: World)
    requires SafeWorld(w, true) && KeepsCandles(cfg, t)
    ensures SafeWorld(Cycle(cfg, t, w).1, true)
  {
    CycleKeepsSafe(cfg, t, w, true);
  }

  // The candidate is executed: everything up to the submission went through.
  predicate Submits(cfg: Config, c: Candidate, p: Progress) {
    && p.portfolio < c.limitBefore && !c.throttledBefore && !c.claimRaises && Actionable(c.signal)
    && KeyOf(c.signal, cfg.interval) !in p.world.claims
    && c.evaluation.Returned? && Authorize(cfg, c.evaluation.value) == Returned(Authorized)
    && !c.throttledAfter
  }

  /**
   A candidate is executed under its own new claim exactly when its evaluation kept
   the candle; nothing else in the cycle ties the executed intent to the claim.
   */
  lemma RunsClaimedCandleExactlyWhenKept(cfg: Config, c: Candidate, p: Progress)
    requires Submits(cfg, c, p)
    ensures var trace := Process(cfg, c, p).0.world.trace; var at := |p.world.trace| + 5;
      && at < |trace| && trace[at].Executed?
      && (forall i :: |p.world.trace| <= i < |trace| && i != at ==> !trace[i].Executed?)
      && (LatestClaim(trace[..at]) == Some(Claimed(trace[at].key, true)) <==> KeepsCandle(cfg, c))
  {
    var key, ran := KeyOf(c.signal, cfg.interval), KeyOf(c.evaluation.value.signal, cfg.interval);
    var t0 := p.world.trace;
    var t3 := t0 + [CapacityChecked(c.limitBefore)] + [ThrottleChecked(false)] + [Claimed(key, true)];
    var t4 := t3 + [IntentDecided(Authorized)];
    var t5 := t4 + [ThrottleChecked(false)];
    var running := World(p.world.claims + {key}, p.world.stalkingPaused, t5 + [Executed(ran)]);
    assert Process(cfg, c, p).0 == Execute(cfg, c, p.(world := running)).0;
    ExecuteOnlyAppends(cfg, c, p.(world := running));
    var trace := Process(cfg, c, p).0.world.trace;
    assert trace[..|t5|] == t5;
    assert t5[..|t4|] == t4 && t4[..|t3|] == t3;
    assert LatestClaim(t3) == Some(Claimed(key, true));
    assert LatestClaim(t4) == LatestClaim(t3) && LatestClaim(t5) == LatestClaim(t4);
  }

  // The world in which a submitted candidate is executed.
  function Entering(cfg: Config, c: Candidate, p: Progress): World
    requires Submits(cfg, c, p)
  {
    var key := KeyOf(c.signal, cfg.interval);
    World(p.world.claims + {key}, p.world.stalkingPaused,
          p.world.trace + [CapacityChecked(c.limitBefore), ThrottleChecked(false), Claimed(key, true),
                           IntentDecided(Authorized), ThrottleChecked(false),
                           Executed(KeyOf(c.evaluation.value.signal, cfg.interval))])
  }

  lemma SubmissionExecutes(cfg: Config, c: Candidate, p: Progress)
    requires Submits(cfg, c, p)
    ensures Process(cfg, c, p) == Execute(cfg, c, p.(world := Entering(cfg, c, p)))
  {
    var key := KeyOf(c.signal, cfg.interval);
    var entered := p.world.Log(CapacityChecked(c.limitBefore)).Log(ThrottleChecked(false)).Claim(key)
      .Log(IntentDecided(Authorized)).Log(ThrottleChecked(false))
      .Log(Executed(KeyOf(c.evaluation.value.signal, cfg.interval)));
    assert entered.trace == Entering(cfg, c, p).trace;
    assert Process(cfg, c, p) == Execute(cfg, c, p.(world := entered));
  }

  lemma ExecuteOnlyAppends(cfg: Config, c: Candidate, p: Progress)
    ensures var trace := Execute(cfg, c, p).0.world.trace;
      && p.world.trace <= trace
      && (forall i :: |p.world.trace| <= i < |trace| ==> !trace[i].Executed?)
  {
    if c.execution.Returned? && ToTradeResult(c.execution.value).Returned? {
      AdoptOnlyAppends(cfg, c, p.(results := p.results + [ToTradeResult(c.execution.value).value]));
    }
  }

  lemma AdoptOnlyAppends(cfg: Config, c: Candidate, p: Progress)
    ensures var trace := Adopt(cfg, c, p).0.world.trace;
      && p.world.trace <= trace
      && (forall i :: |p.world.trace| <= i < |trace| ==> !trace[i].Executed?)
  {
  }

  // ---------------------------------------------------------------------------
  // Many cycles
  // ---------------------------------------------------------------------------

  // Cycles of one process lifetime; the claim table outlives each of them.
  function Cycles(cfg: Config, tapes: seq<Tape>, w: World): World {
    if tapes == [] then w
    else Cycle(cfg, tapes[|tapes| - 1], Cycles(cfg, tapes[..|tapes| - 1], w)).1
  }

  lemma {:induction false} CyclesAreSafe(cfg: Config, tapes: seq<Tape>, w: World)
    requires SafeWorld(w, true) && forall t :: t in tapes ==> KeepsCandles(cfg, t)
    ensures SafeWorld(Cycles(cfg, tapes, w), true)
  {
    if tapes != [] {
      assert tapes[|tapes| - 1] in tapes;
      assert forall t :: t in tapes[..|tapes| - 1] ==> t in tapes;
      CyclesAreSafe(cfg, tapes[..|tapes| - 1], w);
      CycleIsSafe(cfg, tapes[|tapes| - 1], Cycles(cfg, tapes[..|tapes| - 1], w));
    }
  }

  /** No closed candle is ever entered twice, in one cycle or across cycles. */
  lemma NoCandleRunsTwice(cfg: Config, tapes: seq<Tape>, claims: set<ClaimKey>, i: nat, j: nat)
    requires forall t :: t in tapes ==> KeepsCandles(cfg, t)
    requires var trace := Cycles(cfg, tapes, World(claims, false, [])).trace;
      i < j < |trace| && trace[i].Executed? && trace[j].Executed?
    ensures var trace := Cycles(cfg, tapes, World(claims, false, [])).trace;
      trace[i].key != trace[j].key
  {
    var start := World(claims, false, []);
    CyclesAreSafe(cfg, tapes, start);
    var trace := Cycles(cfg, tapes, start).trace;
    assert Justified(trace[..j], trace[j].key);
    assert trace[..j][i] == trace[i];
  }

  /** A candle claimed before the cycle, by this or an earlier process, is not entered. */
  lemma OldClaimsNeverRun(cfg: Config, t: Tape, w: World, i: nat)
    requires KeepsCandles(cfg, t)
    requires |w.trace| <= i < |Cycle(cfg, t, w).1.trace| && Cycle(cfg, t, w).1.trace[i].Executed?
    ensures Cycle(cfg, t, w).1.trace[i].key !in w.claims
  {
    CycleRunsNewKeys(cfg, t, w);
  }

  // A candidate that passes every gate and is executed for the signal decided about.
  function EntryFor(signal: Signal, decided: Signal): Candidate {
    var d := Decision(true, decided, Some(true), "approved");
    Candidate(signal, 9, false, false, Returned(d), false,
              Returned(Execution(ExecutedAndProtected, Some(d), Some(0))), Returned(Some(1)), 9)
  }

  function TwoEntries(a: Signal, b: Signal, decided: Signal): Tape {
    Tape(Returned(Some(0)), Returned(false), Returned(None), 9, false, Returned(Batch(2, 1, 2, 2)),
         Returned([EntryFor(a, decided), EntryFor(b, decided)]))
  }

  /**
   Without that obligation the claims protect nothing: if risk evaluation answers two
   claimed candidates about a third candle, that candle is executed twice in one
   cycle although nobody ever claimed it.
   */
  lemma StrayEvaluationsRunOneCandleTwice(cfg: Config, a: Signal, b: Signal, x: Signal)
    requires cfg.capable && !cfg.hasStalking && x.strategy == cfg.strategy
    requires Actionable(a) && Actionable(b) && Actionable(x)
    requires KeyOf(a, cfg.interval) != KeyOf(b, cfg.interval)
    requires KeyOf(x, cfg.interval) !in {KeyOf(a, cfg.interval), KeyOf(b, cfg.interval)}
    ensures var (outcome, w) := Cycle(cfg, TwoEntries(a, b, x), World({}, false, []));
      var ran := Executed(KeyOf(x, cfg.interval));
      && outcome.Completed?
      && |outcome.report.results| == 2 && outcome.report.results[0].executed && outcome.report.results[1].executed
      && Twice(w.trace, ran)
      && KeyOf(x, cfg.interval) !in w.claims
  {
    var start := World({}, false, []).Log(Reconciled(Some(0))).Log(CapacityChecked(9)).Log(ThrottleChecked(false));
    var p := BothEntriesRun(cfg, a, b, x, Progress(start, 0, [], false, false));
    assert Loop(cfg, [EntryFor(a, x), EntryFor(b, x)], Progress(start, 0, [], false, false)) == (p, Continue);
  }

  ghost predicate Twice(trace: seq<Event>, e: Event) {
    exists i, j :: 0 <= i < j < |trace| && trace[i] == e && trace[j] == e
  }

  lemma BothEntriesRun(cfg: Config, a: Signal, b: Signal, x: Signal, p0: Progress) returns (p: Progress)
    requires cfg.capable && !cfg.hasStalking && x.strategy == cfg.strategy
    requires Actionable(a) && Actionable(b) && Actionable(x)
    requires KeyOf(a, cfg.interval) != KeyOf(b, cfg.interval)
    requires p0.portfolio < 9 && p0.world.claims == {} && p0.results == []
    ensures Loop(cfg, [EntryFor(a, x), EntryFor(b, x)], p0) == (p, Continue)
    ensures |p.results| == 2 && p.results[0].executed && p.results[1].executed
    ensures p.world.claims == {KeyOf(a, cfg.interval), KeyOf(b, cfg.interval)}
    ensures Twice(p.world.trace, Executed(KeyOf(x, cfg.interval)))
  {
    var cs := [EntryFor(a, x), EntryFor(b, x)];
    assert cs[1..] == [EntryFor(b, x)] && cs[1..][1..] == [];
    var p1 := EntryRuns(cfg, a, x, p0);
    p := EntryRuns(cfg, b, x, p1);
    assert Loop(cfg, cs[1..], p1) == Loop(cfg, [], p) == (p, Continue);
    var i, j := |p0.world.trace| + 5, |p1.world.trace| + 5;
    assert p.world.trace[i] == p1.world.trace[i] == Executed(KeyOf(x, cfg.interval));
    assert p.world.trace[j] == Executed(KeyOf(x, cfg.interval));
  }

  lemma EntryRuns(cfg: Config, signal: Signal, decided: Signal, p: Progress) returns (next: Progress)
    requires cfg.capable && !cfg.hasStalking && decided.strategy == cfg.strategy
    requires Actionable(signal) && Actionable(decided)
    requires p.portfolio < 9 && KeyOf(signal, cfg.interval) !in p.world.claims
    ensures Process(cfg, EntryFor(signal, decided), p) == (next, Continue)
    ensures next.portfolio == 1 && next.world.claims == p.world.claims + {KeyOf(signal, cfg.interval)}
    ensures next.stoppedByCapacity == p.stoppedByCapacity && next.skippedRateLimit == p.skippedRateLimit
    ensures |next.results| == |p.results| + 1 && p.results <= next.results && next.results[|p.results|].executed
    ensures var at := |p.world.trace| + 5;
      && at < |next.world.trace| && p.world.trace <= next.world.trace
      && next.world.trace[at] == Executed(KeyOf(decided, cfg.interval))
  {
    next := Process(cfg, EntryFor(signal, decided), p).0;
  }

  ghost predicate RunsOnlyNew(w: World, base: set<ClaimKey>, from: nat) {
    && base <= w.claims
    && forall i :: from <= i < |w.trace| && w.trace[i].Executed? ==> w.trace[i].key !in base
  }

  lemma ExecuteRunsNew(cfg: Config, c: Candidate, p: Progress, base: set<ClaimKey>, from: nat)
    requires RunsOnlyNew(p.world, base, from)
    ensures RunsOnlyNew(Execute(cfg, c, p).0.world, base, from)
  {
    if c.execution.Returned? && ToTradeResult(c.execution.value).Returned?
       && c.execution.value.status.ExecutedAndProtected?
    {
      var done := p.(results := p.results + [ToTradeResult(c.execution.value).value]);
      assert RunsOnlyNew(Adopt(cfg, c, done).0.world, base, from);
    }
  }

  lemma ClaimedRunsNew(cfg: Config, c: Candidate, p: Progress, base: set<ClaimKey>, from: nat)
    requires RunsOnlyNew(p.world, base, from) && KeyOf(c.signal, cfg.interval) !in base && KeepsCandle(cfg, c)
    ensures RunsOnlyNew(ProcessClaimed(cfg, c, p).0.world, base, from)
  {
    if c.evaluation.Returned? && Authorize(cfg, c.evaluation.value) == Returned(Authorized) && !c.throttledAfter {
      var entered := p.world.Log(IntentDecided(Authorized)).Log(ThrottleChecked(false)).Log(
        Executed(KeyOf(c.evaluation.value.signal, cfg.interval)));
      assert RunsOnlyNew(entered, base, from);
      ExecuteRunsNew(cfg, c, p.(world := entered), base, from);
    }
  }

  lemma ProcessRunsNew(cfg: Config, c: Candidate, p: Progress, base: set<ClaimKey>, from: nat)
    requires RunsOnlyNew(p.world, base, from) && KeepsCandle(cfg, c)
    ensures RunsOnlyNew(Process(cfg, c, p).0.world, base, from)
  {
    var key := KeyOf(c.signal, cfg.interval);
    var claimed := p.world.Log(CapacityChecked(c.limitBefore)).Log(ThrottleChecked(false)).Claim(key);
    assert RunsOnlyNew(claimed, base, from);
    if key !in p.world.claims {
      ClaimedRunsNew(cfg, c, p.(world := claimed), base, from);
    }
  }

  lemma {:induction false} LoopRunsNew(cfg: Config, cs: seq<Candidate>, p: Progress, base: set<ClaimKey>, from: nat)
    requires RunsOnlyNew(p.world, base, from) && forall c :: c in cs ==> KeepsCandle(cfg, c)
    ensures RunsOnlyNew(Loop(cfg, cs, p).0.world, base, from)
    decreases |cs|
  {
    if cs != [] {
      assert cs[0] in cs;
      ProcessRunsNew(cfg, cs[0], p, base, from);
      var (next, v) := Process(cfg, cs[0], p);
      if v.Continue? {
        assert forall c :: c in cs[1..] ==> c in cs;
        LoopRunsNew(cfg, cs[1..], next, base, from);
      }
    }
  }

  lemma CycleRunsNewKeys(cfg: Config, t: Tape, w: World)
    requires KeepsCandles(cfg, t)
    ensures RunsOnlyNew(Cycle(cfg, t, w).1, w.claims, |w.trace|)
  {
    var (w1, portfolio) := Preamble(cfg, t, w);
    assert RunsOnlyNew(w1, w.claims, |w.trace|);
    if portfolio.Returned? && portfolio.value.Some? && t.candidates.Returned? {
      var w3 := w1.Log(CapacityChecked(t.limit)).SetStalking(cfg, false).Log(ThrottleChecked(t.throttled));
      assert RunsOnlyNew(w3, w.claims, |w.trace|);
      LoopRunsNew(cfg, t.candidates.value, Progress(w3, portfolio.value.value, [], false, false), w.claims, |w.trace|);
    }
  }

  // ---------------------------------------------------------------------------
  // Entries after a failed reconciliation
  // ---------------------------------------------------------------------------

  // The last reconciliation returned no portfolio.
  predicate LastReadFailed(trace: seq<Event>) {
    trace != [] &&
    var e := trace[|trace| - 1];
    if e.Reconciled? then e.portfolio.None? else LastReadFailed(trace[..|trace| - 1])
  }

  // The reconciliation after an early exit failed, and the cycle goes on with the portfolio before it.
  predicate ExitReadFails(cfg: Config, t: Tape) {
    && t.first.Returned? && t.first.value.Some? && t.first.value.value > 0 && cfg.hasExitService
    && t.shouldExit == Returned(true) && t.second == Returned(None)
  }

  // Nothing was reconciled between two moments.
  predicate NoReadSince(trace: seq<Event>, from: nat, to: nat)
    requires to <= |trace|
  {
    forall j :: from <= j < to ==> !trace[j].Reconciled?
  }

  // Whatever was reconciled from a moment on succeeded, up to the last execution.
  predicate FailsLast(trace: seq<Event>, from: nat) {
    forall j, i :: from <= j < i < |trace| && trace[j] == Reconciled(None) ==> !trace[i].Executed?
  }

  lemma {:induction false} ReadsSince(trace: seq<Event>, from: nat)
    requires from <= |trace| && forall j :: from <= j < |trace| ==> trace[j] != Reconciled(None)
    ensures LastReadFailed(trace) <==> LastReadFailed(trace[..from]) && NoReadSince(trace, from, |trace|)
    decreases |trace|
  {
    if from == |trace| {
      assert trace[..from] == trace;
    } else {
      var front := trace[..|trace| - 1];
      assert front[..from] == trace[..from];
      ReadsSince(front, from);
      assert forall j :: from <= j < |front| ==> front[j] == trace[j];
    }
  }

  lemma ExecuteReads(cfg: Config, c: Candidate, p: Progress)
    ensures var (next, v) := Execute(cfg, c, p);
      forall j :: |p.world.trace| <= j < |next.world.trace| && next.world.trace[j] == Reconciled(None) ==> v.NotAdopted?
  {
  }

  // Only the last candidate of a loop can end in a failed reconciliation, after its execution.
  lemma ProcessFailsLast(cfg: Config, c: Candidate, p: Progress)
    ensures var (next, v) := Process(cfg, c, p);
      && p.world.trace <= next.world.trace
      && FailsLast(next.world.trace, |p.world.trace|)
      && (!v.NotAdopted? ==>
            forall j :: |p.world.trace| <= j < |next.world.trace| ==> next.world.trace[j] != Reconciled(None))
  {
    if Submits(cfg, c, p) {
      var running := p.(world := Entering(cfg, c, p));
      SubmissionExecutes(cfg, c, p);
      ExecuteReads(cfg, c, running);
      ExecuteOnlyAppends(cfg, c, running);
      var trace := Execute(cfg, c, running).0.world.trace;
      assert forall j :: |p.world.trace| <= j < |running.world.trace| ==> trace[j] == running.world.trace[j];
    } else {
      RefusalReadsNothing(cfg, c, p);
    }
  }

  lemma RefusalReadsNothing(cfg: Config, c: Candidate, p: Progress)
    requires !Submits(cfg, c, p)
    ensures ReadsNothing(p, Process(cfg, c, p).0)
  {
    var gated := p.world.Log(CapacityChecked(c.limitBefore)).Log(ThrottleChecked(c.throttledBefore));
    var key := KeyOf(c.signal, cfg.interval);
    if p.portfolio < c.limitBefore && !c.throttledBefore && !c.claimRaises && Actionable(c.signal)
       && key !in p.world.claims
    {
      var claimed := p.(world := gated.Claim(key));
      ClaimedRefusalReadsNothing(cfg, c, claimed);
      ReadsNothingTogether(p, claimed, Process(cfg, c, p).0);
    }
  }

  predicate ReadsNothing(p: Progress, next: Progress) {
    p.world.trace <= next.world.trace && NoReadSince(next.world.trace, |p.world.trace|, |next.world.trace|)
  }

  lemma ReadsNothingTogether(p: Progress, middle: Progress, next: Progress)
    requires ReadsNothing(p, middle) && ReadsNothing(middle, next)
    ensures ReadsNothing(p, next)
  {
    forall j | |p.world.trace| <= j < |next.world.trace|
      ensures !next.world.trace[j].Reconciled?
    {
      if j < |middle.world.trace| {
        assert next.world.trace[j] == middle.world.trace[j];
      }
    }
  }

  lemma ClaimedRefusalReadsNothing(cfg: Config, c: Candidate, p: Progress)
    requires c.evaluation.Returned? && Authorize(cfg, c.evaluation.value) == Returned(Authorized) ==> c.throttledAfter
    ensures ReadsNothing(p, ProcessClaimed(cfg, c, p).0)
  {
  }

  lemma {:induction false} LoopFailsLast(cfg: Config, cs: seq<Candidate>, p: Progress)
    ensures var trace := Loop(cfg, cs, p).0.world.trace;
      p.world.trace <= trace && FailsLast(trace, |p.world.trace|)
    decreases |cs|
  {
    if cs != [] {
      ProcessFailsLast(cfg, cs[0], p);
      var (next, v) := Process(cfg, cs[0], p);
      if v.Continue? {
        LoopFailsLast(cfg, cs[1..], next);
        LaterFailsLast(next.world.trace, Loop(cfg, cs[1..], next).0.world.trace, |p.world.trace|);
      }
    }
  }

  lemma LaterFailsLast(early: seq<Event>, late: seq<Event>, from: nat)
    requires early <= late && from <= |early| && FailsLast(late, |early|)
    requires forall j :: from <= j < |early| ==> early[j] != Reconciled(None)
    ensures FailsLast(late, from)
  {
    assert forall j :: from <= j < |early| ==> late[j] == early[j];
  }

  // The moment discovery may start, after the portfolio has been settled.
  ghost function Discovering(cfg: Config, t: Tape, w: World): nat {
    |Preamble(cfg, t, w).0.trace|
  }

  lemma PreambleReads(cfg: Config, t: Tape, w: World)
    requires var (_, portfolio) := Preamble(cfg, t, w); portfolio.Returned? && portfolio.value.Some?
    ensures LastReadFailed(Preamble(cfg, t, w).0.trace) <==> ExitReadFails(cfg, t)
    ensures Preamble(cfg, t, w).0.trace <= Cycle(cfg, t, w).1.trace
  {
    var w1 := w.Log(Reconciled(t.first.value));
    assert w1.trace[|w1.trace| - 1] == Reconciled(t.first.value);
    CycleAppends(cfg, t, w);
  }

  lemma CycleAppends(cfg: Config, t: Tape, w: World)
    ensures Preamble(cfg, t, w).0.trace <= Cycle(cfg, t, w).1.trace
    ensures FailsLast(Cycle(cfg, t, w).1.trace, Discovering(cfg, t, w))
  {
    var (w1, portfolio) := Preamble(cfg, t, w);
    if portfolio.Returned? && portfolio.value.Some? && portfolio.value.value < t.limit && t.candidates.Returned? {
      DiscoveryFailsLast(cfg, t, w1, portfolio.value.value);
    }
  }

  lemma DiscoveryFailsLast(cfg: Config, t: Tape, w1: World, open: Portfolio)
    requires t.candidates.Returned?
    ensures var w3 := w1.Log(CapacityChecked(t.limit)).SetStalking(cfg, false).Log(ThrottleChecked(t.throttled));
      var trace := Loop(cfg, t.candidates.value, Progress(w3, open, [], false, false)).0.world.trace;
      w1.trace <= trace && FailsLast(trace, |w1.trace|)
  {
    var w3 := w1.Log(CapacityChecked(t.limit)).SetStalking(cfg, false).Log(ThrottleChecked(t.throttled));
    var p := Progress(w3, open, [], false, false);
    LoopFailsLast(cfg, t.candidates.value, p);
    LaterFailsLast(w3.trace, Loop(cfg, t.candidates.value, p).0.world.trace, |w1.trace|);
  }

  // Nothing is executed before discovery.
  lemma ExecutionsFollowDiscovery(cfg: Config, t: Tape, w: World, i: nat)
    requires |w.trace| <= i < |Cycle(cfg, t, w).1.trace| && Cycle(cfg, t, w).1.trace[i].Executed?
    ensures Discovering(cfg, t, w) <= i
    ensures Preamble(cfg, t, w).1.Returned? && Preamble(cfg, t, w).1.value.Some?
  {
    CycleAppends(cfg, t, w);
  }

  /**
   An entry follows a failed reconciliation if and only if the one after an early exit
   failed and nothing has been reconciled since: the cycle then goes on with the portfolio
   from before the exit, until an entry's adoption reads it again.
   */
  lemma EntersAfterFailedReadExactlyWhen(cfg: Config, t: Tape, w: World, i: nat)
    requires |w.trace| <= i < |Cycle(cfg, t, w).1.trace| && Cycle(cfg, t, w).1.trace[i].Executed?
    ensures Discovering(cfg, t, w) <= i
    ensures var trace := Cycle(cfg, t, w).1.trace;
      LastReadFailed(trace[..i]) <==> ExitReadFails(cfg, t) && NoReadSince(trace, Discovering(cfg, t, w), i)
  {
    var trace, from := Cycle(cfg, t, w).1.trace, Discovering(cfg, t, w);
    ExecutionsFollowDiscovery(cfg, t, w, i);
    PreambleReads(cfg, t, w);
    CycleAppends(cfg, t, w);
    ReadsBefore(trace, from, i);
    assert trace[..from] == Preamble(cfg, t, w).0.trace;
  }

  lemma ReadsBefore(trace: seq<Event>, from: nat, i: nat)
    requires from <= i < |trace| && trace[i].Executed? && FailsLast(trace, from)
    ensures LastReadFailed(trace[..i]) <==> LastReadFailed(trace[..from]) && NoReadSince(trace, from, i)
  {
    var before := trace[..i];
    forall j | from <= j < i
      ensures before[j] != Reconciled(None)
    {
      assert before[j] == trace[j];
    }
    ReadsSince(before, from);
    assert before[..from] == trace[..from];
    assert forall j :: from <= j < i ==> before[j] == trace[j];
  }

  function EntryAfterExit(a: Signal): Tape {
    Tape(Returned(Some(1)), Returned(true), Returned(None), 9, false, Returned(Batch(1, 1, 1, 1)),
         Returned([EntryFor(a, a)]))
  }

  /** So a new position is opened although the portfolio could not be read after the exit. */
  lemma FailedExitReadStillEnters(cfg: Config, a: Signal)
    requires cfg.capable && !cfg.hasStalking && cfg.hasExitService && a.strategy == cfg.strategy && Actionable(a)
    ensures var (outcome, w) := Cycle(cfg, EntryAfterExit(a), World({}, false, []));
      && outcome.Completed?
      && exists i: nat :: EntersUnread(w.trace, i)
  {
    var start := World({}, false, []).Log(Reconciled(Some(1))).Log(Reconciled(None))
      .Log(CapacityChecked(9)).Log(ThrottleChecked(false));
    var p0 := Progress(start, 1, [], false, false);
    var cs := [EntryFor(a, a)];
    var p := EntryRuns(cfg, a, a, p0);
    assert cs[1..] == [] && Loop(cfg, cs, p0) == (p, Continue);
    var t := EntryAfterExit(a);
    assert Cycle(cfg, t, World({}, false, [])).1 == p.world;
    EntersAfterFailedReadExactlyWhen(cfg, t, World({}, false, []), 9);
    ProcessReadsAfterEntry(cfg, EntryFor(a, a), p0);
    assert EntersUnread(p.world.trace, 9);
  }

  ghost predicate EntersUnread(trace: seq<Event>, i: nat) {
    i < |trace| && trace[i].Executed? && LastReadFailed(trace[..i])
  }

  lemma ProcessReadsAfterEntry(cfg: Config, c: Candidate, p: Progress)
    requires Submits(cfg, c, p)
    ensures var trace := Process(cfg, c, p).0.world.trace; var at := |p.world.trace| + 5;
      at < |trace| && NoReadSince(trace, |p.world.trace|, at)
  {
    SubmissionExecutes(cfg, c, p);
    ExecuteOnlyAppends(cfg, c, p.(world := Entering(cfg, c, p)));
  }
}
