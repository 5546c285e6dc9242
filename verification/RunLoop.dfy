/**
 The runner's main loop: which turns count as failures, which clear the count,
 and when the loop gives up. What happens in a turn comes from a tape.
 */
module RunLoop {
  // A recovery raises when its provider fails with an error that is not transient.
  datatype Recovery = Recovered | Unrecovered | RecoveryRaised

  datatype Turn =
    | Stop                             // stop requested while running or while paused
    | HealthOutage(recovery: Recovery) // unsafe health found before the cycle
    | GlobalCycle                      // a market-wide cycle completed
    | NothingDue                       // unauthorized batch, or no context due yet
    | Batch                            // every due context completed
    | ReconciliationNeeded             // a recovered portfolio changed hands mid-batch
    | UnsafeCycle(recovered: bool)     // the LIVE cycle refused its own portfolio
    | Outage(recovery: Recovery)       // transient error with unattended recovery available
    | Failure                          // any other exception

  datatype Outcome = Running(failures: nat) | Left(failures: nat) | Raised(failures: nat)

  function Failed(failures: nat, maximum: nat): Outcome {
    if failures + 1 >= maximum then Raised(failures + 1) else Running(failures + 1)
  }

  function Take(turn: Turn, failures: nat, maximum: nat): Outcome {
    match turn
    case Stop => Left(failures)
    case HealthOutage(recovery) =>
      // Health is checked inside the guarded block, so a raising recovery is one more failure.
      (match recovery
       case Recovered => Running(0)
       case Unrecovered => Left(failures)
       case RecoveryRaised => Failed(failures, maximum))
    case GlobalCycle => Running(failures)
    case NothingDue => Running(failures)
    case Batch => Running(0)
    case ReconciliationNeeded => Running(failures)
    case UnsafeCycle(recovered) => if recovered then Running(0) else Left(failures)
    case Outage(recovery) =>
      // An outage is handled in the exception handler, so a raising recovery leaves the loop.
      (match recovery
       case Recovered => Running(0)
       case Unrecovered => Left(failures)
       case RecoveryRaised => Raised(failures))
    case Failure => Failed(failures, maximum)
  }

  function Run(turns: seq<Turn>, failures: nat, maximum: nat): Outcome {
    if turns == [] then Running(failures)
    else
      var o := Take(turns[0], failures, maximum);
      if o.Running? then Run(turns[1..], o.failures, maximum) else o
  }

  method RunUntilDone(turns: seq<Turn>, maximum: nat) returns (o: Outcome)
    ensures o == Run(turns, 0, maximum)
  {
    var consecutiveFailures: nat := 0;
    var i := 0;
    while i < |turns|
      invariant 0 <= i <= |turns|
      invariant Run(turns, 0, maximum) == Run(turns[i..], consecutiveFailures, maximum)
    {
      assert turns[i..][0] == turns[i] && turns[i..][1..] == turns[i + 1..];
      match turns[i] {
        case Stop => return Left(consecutiveFailures);
        case HealthOutage(recovery) =>
          if recovery.Unrecovered? { return Left(consecutiveFailures); }
          consecutiveFailures := if recovery.Recovered? then 0 else consecutiveFailures + 1;
          if recovery.RecoveryRaised? && consecutiveFailures >= maximum { return Raised(consecutiveFailures); }
        case GlobalCycle =>
        case NothingDue =>
        case ReconciliationNeeded =>
        case UnsafeCycle(recovered) =>
          if !recovered { return Left(consecutiveFailures); }
          consecutiveFailures := 0;
        case Outage(recovery) =>
          if recovery.Unrecovered? { return Left(consecutiveFailures); }
          if recovery.RecoveryRaised? { return Raised(consecutiveFailures); }
          consecutiveFailures := 0;
        case Failure =>
          consecutiveFailures := consecutiveFailures + 1;
          if consecutiveFailures >= maximum { return Raised(consecutiveFailures); }
        case Batch => consecutiveFailures := 0;
      }
      i := i + 1;
    }
    return Running(consecutiveFailures);
  }

  // ---------------------------------------------------------------------------
  // What the counter counts
  // ---------------------------------------------------------------------------

  predicate Clears(turn: Turn) {
    turn.Batch? || turn == HealthOutage(Recovered) || turn == UnsafeCycle(true) || turn == Outage(Recovered)
  }

  predicate Ends(turn: Turn) {
    turn.Stop? || turn == HealthOutage(Unrecovered) || turn == UnsafeCycle(false) || turn == Outage(Unrecovered)
  }

  // The turn lets an exception out of the loop, whatever the count.
  predicate Escapes(turn: Turn) {
    turn == Outage(RecoveryRaised)
  }

  predicate Fails(turn: Turn) {
    turn.Failure? || turn == HealthOutage(RecoveryRaised)
  }

  // Failures after the last turn that clears the count.
  function Counted(turns: seq<Turn>): nat {
    if turns == [] then 0
    else
      var before, last := turns[..|turns| - 1], turns[|turns| - 1];
      if Clears(last) then 0 else Counted(before) + (if Fails(last) then 1 else 0)
  }

  // Failures in a row: no cycle of any kind has completed between them.
  function Streak(turns: seq<Turn>): nat {
    if turns == [] then 0
    else
      var before, last := turns[..|turns| - 1], turns[|turns| - 1];
      if Clears(last) || last.GlobalCycle? then 0 else Streak(before) + (if Fails(last) then 1 else 0)
  }

  ghost predicate Survives(turns: seq<Turn>, maximum: nat) {
    forall k :: 0 <= k < |turns| ==>
      !Ends(turns[k]) && !Escapes(turns[k]) && (Fails(turns[k]) ==> Counted(turns[..k + 1]) < maximum)
  }

  // The failure at k brings the count to the maximum.
  ghost predicate FailsAt(turns: seq<Turn>, k: nat, maximum: nat) {
    k < |turns| && Fails(turns[k]) && Counted(turns[..k + 1]) == maximum
  }

  lemma SurvivesLess(turns: seq<Turn>, j: nat, maximum: nat)
    requires j <= |turns| && Survives(turns, maximum)
    ensures Survives(turns[..j], maximum)
  {
    var front := turns[..j];
    forall i | 0 <= i < |front|
      ensures !Ends(front[i]) && !Escapes(front[i]) && (Fails(front[i]) ==> Counted(front[..i + 1]) < maximum)
    {
      assert front[i] == turns[i] && front[..i + 1] == turns[..i + 1];
    }
  }

  // A turn the loop survives leaves the count of the turns up to it.
  lemma RunOnce(turns: seq<Turn>, maximum: nat)
    requires turns != [] && Survives(turns, maximum)
    ensures var last, before := turns[|turns| - 1], Counted(turns[..|turns| - 1]);
      && !Ends(last) && !Escapes(last) && (Fails(last) ==> before + 1 < maximum)
      && Counted(turns) == if Clears(last) then 0 else before + (if Fails(last) then 1 else 0)
  {
    assert turns[..|turns| - 1 + 1] == turns;
  }

  lemma {:induction false} RunFromMiddle(turns: seq<Turn>, k: nat, maximum: nat)
    requires k <= |turns| && Survives(turns[..k], maximum)
    ensures Run(turns, 0, maximum) == Run(turns[k..], Counted(turns[..k]), maximum)
    decreases k
  {
    if k == 0 {
      assert turns[0..] == turns && turns[..0] == [];
    } else {
      var front, rest := turns[..k], turns[k - 1..];
      assert front[..k - 1] == turns[..k - 1];
      SurvivesLess(front, k - 1, maximum);
      RunFromMiddle(turns, k - 1, maximum);
      RunOnce(front, maximum);
      assert rest[0] == turns[k - 1] && rest[1..] == turns[k..];
    }
  }

  // The loop survives up to turn k, which lets an exception out of it.
  ghost predicate RaisesAt(turns: seq<Turn>, k: nat, maximum: nat) {
    k < |turns| && Survives(turns[..k], maximum) && (FailsAt(turns, k, maximum) || Escapes(turns[k]))
  }

  /**
   The first turn that ends the loop decides the outcome; without one it keeps running.
   It raises exactly at the failure that brings the count to the maximum, or at an
   outage whose recovery raises; the latter at whatever lower count has been reached.
   */
  lemma {:induction false} FirstFatalTurnDecides(turns: seq<Turn>, maximum: nat)
    requires maximum > 0
    ensures var o := Run(turns, 0, maximum);
      && (o.Running? <==> Survives(turns, maximum))
      && (o.Running? ==> o.failures == Counted(turns))
      && (o.Raised? <==> exists k: nat :: RaisesAt(turns, k, maximum))
      && (forall k: nat :: RaisesAt(turns, k, maximum) ==>
            if Escapes(turns[k]) then o == Raised(Counted(turns[..k])) && o.failures < maximum
            else o == Raised(maximum))
  {
    var k := Longest(turns, 0, maximum);
    RunFromMiddle(turns, k, maximum);
    assert turns[..|turns|] == turns;
    if k < |turns| {
      assert turns[k..][0] == turns[k];
      var front := turns[..k + 1];
      assert front[..k] == turns[..k] && front[k] == turns[k];
      CountStaysBelow(turns[..k], maximum);
      forall j: nat | j < |turns| && j != k
        ensures !RaisesAt(turns, j, maximum)
      {
        if j < k {
          var front := turns[..k];
          assert front[j] == turns[j] && front[..j + 1] == turns[..j + 1];
        } else {
          var front := turns[..j];
          assert front[k] == turns[k] && front[..k + 1] == turns[..k + 1];
        }
      }
      assert Run(turns, 0, maximum).Raised? ==> RaisesAt(turns, k, maximum);
    } else {
      forall j: nat
        ensures !RaisesAt(turns, j, maximum)
      {
      }
    }
  }

  /** An outage whose recovery raises ends any run at once, at the count it had reached. */
  lemma RaisingRecoveryEndsTheLoopAtAnyCount(turns: seq<Turn>, maximum: nat)
    requires maximum > 0 && Survives(turns, maximum)
    ensures Run(turns + [Outage(RecoveryRaised)], 0, maximum) == Raised(Counted(turns))
  {
    var all := turns + [Outage(RecoveryRaised)];
    assert all[..|turns|] == turns;
    FirstFatalTurnDecides(all, maximum);
    assert RaisesAt(all, |turns|, maximum);
  }

  // The turn ends the loop, one way or another.
  ghost predicate StopsAt(turns: seq<Turn>, k: nat, maximum: nat)
    requires k < |turns|
  {
    Ends(turns[k]) || Escapes(turns[k]) || (Fails(turns[k]) && Counted(turns[..k + 1]) >= maximum)
  }

  lemma SurvivesFurther(turns: seq<Turn>, k: nat, maximum: nat)
    requires k < |turns| && Survives(turns[..k], maximum) && !StopsAt(turns, k, maximum)
    ensures Survives(turns[..k + 1], maximum)
  {
    var longer := turns[..k + 1];
    forall j | 0 <= j < |longer|
      ensures !Ends(longer[j]) && !Escapes(longer[j]) && (Fails(longer[j]) ==> Counted(longer[..j + 1]) < maximum)
    {
      assert longer[..j + 1] == turns[..j + 1];
      if j < k {
        assert turns[..k][j] == turns[j] && turns[..k][..j + 1] == turns[..j + 1];
      }
    }
  }

  // The longest prefix the loop survives, searched from a prefix it does survive.
  ghost function Longest(turns: seq<Turn>, from: nat, maximum: nat): (k: nat)
    requires from <= |turns| && Survives(turns[..from], maximum)
    ensures from <= k <= |turns| && Survives(turns[..k], maximum)
    ensures k < |turns| ==> StopsAt(turns, k, maximum)
    decreases |turns| - from
  {
    if from == |turns| || StopsAt(turns, from, maximum) then from
    else
      SurvivesFurther(turns, from, maximum);
      Longest(turns, from + 1, maximum)
  }

  lemma {:induction false} CountStaysBelow(turns: seq<Turn>, maximum: nat)
    requires maximum > 0 && Survives(turns, maximum)
    ensures Counted(turns) < maximum
  {
    if turns != [] {
      var n := |turns|;
      var front := turns[..n - 1];
      assert turns[..n] == turns;
      forall j | 0 <= j < n - 1
        ensures !Ends(front[j]) && !Escapes(front[j]) && (Fails(front[j]) ==> Counted(front[..j + 1]) < maximum)
      {
        assert front[j] == turns[j] && front[..j + 1] == turns[..j + 1];
      }
      CountStaysBelow(front, maximum);
    }
  }

  // ---------------------------------------------------------------------------
  // The counter is not a count of consecutive failures
  // ---------------------------------------------------------------------------

  // A market-wide cycle completed at j with failures on the books, and nothing has
  // cleared them since.
  ghost predicate Forgotten(turns: seq<Turn>, j: nat) {
    && j < |turns|
    && turns[j].GlobalCycle?
    && Counted(turns[..j]) > 0
    && forall i :: j < i < |turns| ==> !Clears(turns[i])
  }

  /**
   The counter exceeds the number of failures in a row exactly when a completed
   market-wide cycle has left earlier failures standing.
   */
  lemma {:induction false} CountsConsecutiveUnlessForgotten(turns: seq<Turn>)
    ensures Streak(turns) <= Counted(turns)
    ensures Streak(turns) < Counted(turns) <==> exists j: nat :: Forgotten(turns, j)
  {
    if turns != [] {
      var n := |turns|;
      var front, last := turns[..n - 1], turns[n - 1];
      CountsConsecutiveUnlessForgotten(front);
      forall j: nat | j < n - 1
        ensures Forgotten(turns, j) <==> Forgotten(front, j) && !Clears(last)
      {
        assert front[..j] == turns[..j] && front[j] == turns[j];
        assert forall i :: j < i < n - 1 ==> front[i] == turns[i];
        assert Forgotten(turns, j) ==> !Clears(turns[n - 1]);
      }
      if Streak(turns) < Counted(turns) {
        if last.GlobalCycle? {
          assert Forgotten(turns, n - 1);
        } else {
          var j: nat :| Forgotten(front, j);
          assert Forgotten(turns, j);
        }
      }
      if j: nat :| Forgotten(turns, j) {
        if j < n - 1 {
          assert Forgotten(front, j);
        }
      }
    }
  }

  /** A loop that never runs a market-wide cycle gives up exactly on consecutive failures. */
  lemma BatchesCountConsecutively(turns: seq<Turn>)
    requires GlobalCycle !in turns
    ensures Counted(turns) == Streak(turns)
  {
    CountsConsecutiveUnlessForgotten(turns);
    forall j: nat
      ensures !Forgotten(turns, j)
    {
      if j < |turns| {
        assert turns[j] in turns;
      }
    }
  }

  function Failures(turns: seq<Turn>): nat {
    if turns == [] then 0 else Failures(turns[..|turns| - 1]) + (if Fails(turns[|turns| - 1]) then 1 else 0)
  }

  // Market-wide cycles and ordinary failures, and nothing else.
  ghost predicate MarketWide(turns: seq<Turn>) {
    forall t :: t in turns ==> t == GlobalCycle || t == Failure
  }

  /**
   In a market-wide runtime without outages the count is the total number of
   failures since the start, however many cycles completed between them.
   */
  lemma {:induction false} MarketWideRuntimeCountsEveryFailure(turns: seq<Turn>)
    requires MarketWide(turns)
    ensures Counted(turns) == Failures(turns)
  {
    if turns != [] {
      var front := turns[..|turns| - 1];
      assert turns[|turns| - 1] in turns;
      forall t | t in front
        ensures t == GlobalCycle || t == Failure
      {
        assert t in turns;
      }
      MarketWideRuntimeCountsEveryFailure(front);
    }
  }

  // Failures separated by n completed cycles each.
  function Alternating(failures: nat, n: nat): seq<Turn> {
    if failures == 0 then [] else Alternating(failures - 1, n) + Cycles(n) + [Failure]
  }

  function Cycles(n: nat): seq<Turn> {
    seq(n, _ => GlobalCycle)
  }

  /**
   So failures that are never consecutive still stop the runtime: with any number
   of completed cycles between them, the maximum-th failure is raised although only
   one failure in a row ever happened.
   */
  lemma {:induction false} IsolatedFailuresStopTheRuntime(maximum: nat, n: nat)
    requires maximum > 1 && n > 0
    ensures Run(Alternating(maximum, n), 0, maximum) == Raised(maximum)
    ensures Streak(Alternating(maximum, n)) == 1
  {
    var turns := Alternating(maximum, n);
    AlternatingShape(maximum, n);
    assert turns[..|turns| - 1] == Alternating(maximum - 1, n) + Cycles(n);
    StreakAfterCycles(Alternating(maximum - 1, n), n);
    MarketWideRuntimeCountsEveryFailure(turns);
    RunRaises(turns, maximum);
  }

  lemma RunRaises(turns: seq<Turn>, maximum: nat)
    requires maximum > 0 && Counted(turns) >= maximum
    requires MarketWide(turns)
    ensures Run(turns, 0, maximum) == Raised(maximum)
  {
    FirstFatalTurnDecides(turns, maximum);
    RunNeverLeaves(turns, 0, maximum);
    if Survives(turns, maximum) {
      CountStaysBelow(turns, maximum);
      assert false;
    }
    assert Run(turns, 0, maximum).Raised?;
    var k: nat :| RaisesAt(turns, k, maximum);
    assert turns[k] in turns;
  }

  lemma {:induction false} AlternatingShape(failures: nat, n: nat)
    ensures MarketWide(Alternating(failures, n))
    ensures Failures(Alternating(failures, n)) == failures
  {
    if failures > 0 {
      AlternatingShape(failures - 1, n);
      var before := Alternating(failures - 1, n) + Cycles(n);
      MarketWideTogether(Alternating(failures - 1, n), Cycles(n));
      MarketWideTogether(before, [Failure]);
      assert (before + [Failure])[..|before|] == before;
      FailuresIgnoreCycles(Alternating(failures - 1, n), n);
    }
  }

  lemma MarketWideTogether(a: seq<Turn>, b: seq<Turn>)
    requires MarketWide(a) && MarketWide(b)
    ensures MarketWide(a + b)
  {
  }

  lemma {:induction false} FailuresIgnoreCycles(turns: seq<Turn>, n: nat)
    ensures Failures(turns + Cycles(n)) == Failures(turns)
  {
    if n == 0 {
      assert turns + Cycles(0) == turns;
    } else {
      FailuresIgnoreCycles(turns, n - 1);
      assert (turns + Cycles(n))[..|turns| + n - 1] == turns + Cycles(n - 1);
    }
  }

  lemma StreakAfterCycles(turns: seq<Turn>, n: nat)
    requires n > 0
    ensures Streak(turns + Cycles(n)) == 0
  {
    assert (turns + Cycles(n))[|turns| + n - 1] == GlobalCycle;
  }

  lemma {:induction false} RunNeverLeaves(turns: seq<Turn>, failures: nat, maximum: nat)
    requires MarketWide(turns)
    ensures !Run(turns, failures, maximum).Left?
    decreases |turns|
  {
    if turns != [] {
      assert turns[0] in turns;
      assert forall t :: t in turns[1..] ==> t in turns;
      var o := Take(turns[0], failures, maximum);
      if o.Running? {
        RunNeverLeaves(turns[1..], o.failures, maximum);
      }
    }
  }
}
