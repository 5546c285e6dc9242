/**
 How LIVE recovery ends, read off the tape and the control: what makes a pass succeed,
 give up, raise or go on, and which pass decides for the loop.
 */
module RecoveryOutcomes {
  import opened Prelude
  import opened RuntimeControl
  import opened RuntimeHealth
  import opened Recovery

  // The failures that streams and monitors report.
  predicate Plausible(f: Facts) {
    && (f.streamFailure.Some? ==>
          f.streamFailure.value in {StreamMissing, StreamNotReady, StreamFailed, StreamStale})
    && (f.monitorFailure.Some? ==> f.monitorFailure.value in {MonitorMissing, MonitorUnhealthy})
  }

  // Every health answer of the pass is observed on the control.
  predicate Observed(p: Pass) {
    && p.before.Observes? && p.after.Observes? && p.activated.Observes?
    && Plausible(p.before.facts) && Plausible(p.after.facts) && Plausible(p.activated.facts)
  }

  // Something is wrong that another pass may repair.
  predicate Repairable(s: Control, f: Facts) {
    || !f.userDataReady
    || (s.contexts != []
        && (f.contextsMissing || s.reconciliation.Some? || f.streamFailure.Some? || f.monitorFailure.Some?))
  }

  lemma ObservedRetries(s: Control, f: Facts)
    requires Plausible(f)
    ensures IsReseedPending(Observe(s, f)) <==> !f.userDataReady
    ensures IsRetryable(Observe(s, f).reason) <==> Repairable(s, f)
  {
  }

  // ---------------------------------------------------------------------------
  // One pass
  // ---------------------------------------------------------------------------

  function Waited(p: Pass, s: Control): Control {
    Run(p.meanwhile, s)
  }

  // The control the provider leaves behind.
  function Left(p: Pass, s: Control): Control {
    Attempted(p.attempt, Waited(p, s)).0
  }

  predicate Asks(p: Pass)
    requires Observed(p)
  {
    p.before.facts.userDataReady && !p.stopsWhileWaiting
  }

  // The provider restored a protected, authoritative and unreserved runtime, and activating
  // it did not make that untrue.
  predicate Succeeds(p: Pass, s: Control)
    requires Observed(p)
  {
    var left := Left(p, s);
    && Asks(p) && p.attempt.verdict == Restored
    && left.protectionReady && Reservation(left).None?
    && Authoritative(left, p.after.facts) && Authoritative(left, p.activated.facts)
  }

  // It restored something that may be activated but is reserved, or that nothing can repair.
  predicate Hopeless(p: Pass, s: Control)
    requires Observed(p)
  {
    var left := Left(p, s);
    && Asks(p) && p.attempt.verdict == Restored
    && if left.protectionReady && Authoritative(left, p.after.facts) then
         || Reservation(left).Some?
         || (!Authoritative(left, p.activated.facts) && !Repairable(left, p.activated.facts))
       else !Repairable(left, p.after.facts)
  }

  predicate Raises(p: Pass)
    requires Observed(p)
  {
    Asks(p) && p.attempt.verdict == FatalFailure
  }

  lemma RestoredPassEnds(p: Pass, s: Control)
    requires Observed(p) && Asks(p) && p.attempt.verdict == Restored && !Left(p, s).active
    ensures var (c, next) := Evaluated(p, Left(p, s));
      && (c == Converged <==> Succeeds(p, s))
      && (c == UnsafeState <==> Hopeless(p, s))
      && next == if Succeeds(p, s) then Left(p, s).(active := true) else Closed(Left(p, s))
  {
    var left := Left(p, s);
    PolicyMeansAuthoritative(left, p.after.facts);
    PolicyMeansAuthoritative(left.(active := true), p.activated.facts);
    ObservedRetries(left, p.after.facts);
    ObservedRetries(left.(active := true), p.activated.facts);
    if ObservedReady(left, p.after.facts) {
      ReadyActivatesUnlessReserved(left, p.after.facts);
    }
  }

  /**
   How a pass over a paused runtime ends, exactly. It recovers if and only if it succeeds;
   it gives up when told to stop or when nothing can be repaired; it raises on a fatal
   provider error; and in every other case it goes on, after failed and transient attempts
   with the control the provider left, otherwise with that control closed.
   */
  lemma PassEndsExactly(p: Pass, s: Control)
    requires Observed(p) && (Asks(p) ==> !Left(p, s).active)
    ensures var (e, next, _) := Tried(p, s);
      && (e == Done(Recovered) <==> Succeeds(p, s))
      && (e == Done(Raised) <==> Raises(p))
      && (e == Done(GivenUp) <==> Hopeless(p, s) || (p.before.facts.userDataReady && p.stopsWhileWaiting))
      && e != Done(StillTrying)
      && next == (if !Asks(p) then Waited(p, s)
                  else if p.attempt.verdict != Restored then Left(p, s)
                  else if Succeeds(p, s) then Left(p, s).(active := true)
                  else Closed(Left(p, s)))
  {
    ObservedRetries(s, p.before.facts);
    if Asks(p) && p.attempt.verdict == Restored {
      RestoredPassEnds(p, s);
    }
  }

  // ---------------------------------------------------------------------------
  // The loop
  // ---------------------------------------------------------------------------

  // The control after the passes, as long as each of them goes on.
  function Carried(passes: seq<Pass>, s: Control): Control {
    if passes == [] then s else Tried(passes[|passes| - 1], Carried(passes[..|passes| - 1], s)).1
  }

  ghost predicate GoesOn(passes: seq<Pass>, k: nat, s: Control)
    requires k < |passes|
  {
    Tried(passes[k], Carried(passes[..k], s)).0.Again? && !passes[k].stopsAfterwards
  }

  // The first pass after which the loop does not go on.
  ghost predicate Decides(passes: seq<Pass>, k: nat, s: Control) {
    k < |passes| && !GoesOn(passes, k, s) && forall j :: 0 <= j < k ==> GoesOn(passes, j, s)
  }

  lemma {:induction false} CarriedFromFirst(passes: seq<Pass>, k: nat, s: Control)
    requires 0 < k <= |passes|
    ensures Carried(passes[..k], s) == Carried(passes[1..][..k - 1], Tried(passes[0], s).1)
  {
    var front := passes[..k];
    if k == 1 {
      assert front[..0] == [] && passes[1..][..0] == [];
    } else {
      CarriedFromFirst(passes, k - 1, s);
      assert front[..k - 1] == passes[..k - 1];
      assert passes[1..][..k - 1][..k - 2] == passes[1..][..k - 2] && passes[1..][..k - 1][k - 2] == front[k - 1];
    }
  }

  lemma LaterGoesOn(passes: seq<Pass>, k: nat, s: Control)
    requires 0 < k < |passes|
    ensures GoesOn(passes, k, s) <==> GoesOn(passes[1..], k - 1, Tried(passes[0], s).1)
  {
    CarriedFromFirst(passes, k, s);
  }

  /** The first pass that does not go on decides the loop, its ending and its last control. */
  lemma {:induction false} FirstDecisionEnds(passes: seq<Pass>, k: nat, s: Control)
    requires Decides(passes, k, s)
    ensures var (e, next, _) := Tried(passes[k], Carried(passes[..k], s));
      var (ending, final, _) := Recovering(passes, s);
      && ending == (match e case Done(done) => done case Again => GivenUp)
      && final == next
    decreases k
  {
    RecoveringHead(passes, s);
    assert passes[..0] == [];
    if k > 0 {
      assert GoesOn(passes, 0, s);
      forall j | 0 <= j < k - 1
        ensures GoesOn(passes[1..], j, Tried(passes[0], s).1)
      {
        LaterGoesOn(passes, j + 1, s);
      }
      LaterGoesOn(passes, k, s);
      CarriedFromFirst(passes, k, s);
      FirstDecisionEnds(passes[1..], k - 1, Tried(passes[0], s).1);
    }
  }

  /** Without such a pass the loop is still trying. */
  lemma {:induction false} UndecidedKeepsTrying(passes: seq<Pass>, s: Control)
    requires forall j :: 0 <= j < |passes| ==> GoesOn(passes, j, s)
    ensures Recovering(passes, s).0 == StillTrying
    decreases |passes|
  {
    if passes != [] {
      RecoveringHead(passes, s);
      assert passes[..0] == [] && GoesOn(passes, 0, s);
      forall j | 0 <= j < |passes| - 1
        ensures GoesOn(passes[1..], j, Tried(passes[0], s).1)
      {
        LaterGoesOn(passes, j + 1, s);
      }
      UndecidedKeepsTrying(passes[1..], Tried(passes[0], s).1);
    }
  }

  ghost predicate AllObserved(passes: seq<Pass>) {
    forall p :: p in passes ==> Observed(p)
  }

  // The provider leaves every runtime it is asked about paused.
  ghost predicate LeavesPaused(passes: seq<Pass>, s: Control) {
    forall k :: 0 <= k < |passes| ==> !Left(passes[k], Carried(passes[..k], s)).active
  }

  /**
   How recovery ends, exactly. Where the first pass that does not go on succeeds, the loop
   has recovered, and the runtime is the one the provider left, activated and otherwise
   unchanged. Where that pass raises, the loop raises; anywhere else it gives up.
   */
  lemma RecoveryEndsExactly(passes: seq<Pass>, k: nat, s: Control)
    requires AllObserved(passes) && LeavesPaused(passes, s) && Decides(passes, k, s)
    ensures var (ending, final, _) := Recovering(passes, s); var p, at := passes[k], Carried(passes[..k], s);
      && Observed(p)
      && (ending == Recovered <==> Succeeds(p, at))
      && (ending == Raised <==> Raises(p))
      && ending != StillTrying
      && (ending == Recovered ==> final == Left(p, at).(active := true))
  {
    assert passes[k] in passes;
    FirstDecisionEnds(passes, k, s);
    PassEndsExactly(passes[k], Carried(passes[..k], s));
  }

  /** Which passes go on: pending reseeds, failed or transient attempts, and repairable restorations. */
  lemma GoesOnExactly(passes: seq<Pass>, k: nat, s: Control)
    requires AllObserved(passes) && LeavesPaused(passes, s) && k < |passes|
    ensures var p, at := passes[k], Carried(passes[..k], s);
      && Observed(p)
      && (GoesOn(passes, k, s) <==>
            && !p.stopsAfterwards
            && (p.before.facts.userDataReady ==>
                  && !p.stopsWhileWaiting
                  && (|| p.attempt.verdict == NotRestored || p.attempt.verdict == TransientFailure
                      || (p.attempt.verdict == Restored && !Succeeds(p, at) && !Hopeless(p, at)))))
  {
    assert passes[k] in passes;
    PassEndsExactly(passes[k], Carried(passes[..k], s));
  }

  /** So one good pass is enough, whatever the passes after it would have been. */
  lemma GoodPassRecovers(p: Pass, rest: seq<Pass>, s: Control)
    requires Observed(p) && !Left(p, s).active && Succeeds(p, s)
    ensures var (ending, final, _) := Recovering([p] + rest, s);
      ending == Recovered && final == Left(p, s).(active := true)
  {
    var passes := [p] + rest;
    RecoveringHead(passes, s);
    PassEndsExactly(p, s);
  }

  // ---------------------------------------------------------------------------
  // Operational recovery
  // ---------------------------------------------------------------------------

  function OperatedTo(passes: seq<OperationalPass>, s: Control): Control {
    if passes == [] then s
    else
      var p := passes[|passes| - 1];
      Run(p.meanwhile, Attempted(p.attempt, OperatedTo(passes[..|passes| - 1], s)).0)
  }

  // What the provider leaves at pass k, if the loop gets there.
  function OperationLeft(passes: seq<OperationalPass>, k: nat, s: Control): Control
    requires k < |passes|
  {
    Attempted(passes[k].attempt, OperatedTo(passes[..k], s)).0
  }

  predicate Restarts(passes: seq<OperationalPass>, k: nat, s: Control)
    requires k < |passes|
  {
    passes[k].attempt.verdict == Restored && OperationLeft(passes, k, s).active
  }

  predicate Operates(passes: seq<OperationalPass>, k: nat, s: Control)
    requires k < |passes|
  {
    passes[k].attempt.verdict != FatalFailure && !Restarts(passes, k, s) && !passes[k].stopsAfterwards
  }

  lemma {:induction false} OperatedFromFirst(passes: seq<OperationalPass>, k: nat, s: Control)
    requires 0 < k <= |passes|
    ensures var p := passes[0];
      OperatedTo(passes[..k], s) == OperatedTo(passes[1..][..k - 1], Run(p.meanwhile, Attempted(p.attempt, s).0))
  {
    var front := passes[..k];
    if k == 1 {
      assert front[..0] == [] && passes[1..][..0] == [];
    } else {
      OperatedFromFirst(passes, k - 1, s);
      assert front[..k - 1] == passes[..k - 1];
      assert passes[1..][..k - 1][..k - 2] == passes[1..][..k - 2] && passes[1..][..k - 1][k - 2] == front[k - 1];
    }
  }

  /**
   How operational recovery ends, exactly: refused at the first fatal provider error,
   restarted at the first success that leaves the runtime active, stopped where it is told
   to, and pending otherwise; every pass made is counted.
   */
  lemma {:induction false} OperationEndsExactly(passes: seq<OperationalPass>, k: nat, s: Control, attempt: nat)
    requires k < |passes| && !Operates(passes, k, s) && forall j :: 0 <= j < k ==> Operates(passes, j, s)
    ensures var (end, final, attempts) := Operating(passes, s, attempt);
      && end == (if passes[k].attempt.verdict == FatalFailure then Refused
                 else if Restarts(passes, k, s) then Restarted else Stopped)
      && attempts == attempt + k + 1
      && final == (if end == Stopped then OperatedTo(passes[..k + 1], s) else OperationLeft(passes, k, s))
    decreases k
  {
    assert passes[..0] == [];
    if k == 0 {
      assert passes[..1][..0] == [];
    } else {
      var p := passes[0];
      var next := Run(p.meanwhile, Attempted(p.attempt, s).0);
      assert Operates(passes, 0, s);
      forall j | 0 <= j < k - 1
        ensures Operates(passes[1..], j, next)
      {
        assert Operates(passes, j + 1, s);
        OperatedFromFirst(passes, j + 1, s);
      }
      OperatedFromFirst(passes, k, s);
      OperatedFromFirst(passes, k + 1, s);
      OperationEndsExactly(passes[1..], k - 1, next, attempt + 1);
    }
  }

  lemma {:induction false} OperationStaysPending(passes: seq<OperationalPass>, s: Control, attempt: nat)
    requires forall j :: 0 <= j < |passes| ==> Operates(passes, j, s)
    ensures Operating(passes, s, attempt) == (StillPending, OperatedTo(passes, s), attempt + |passes|)
    decreases |passes|
  {
    if passes != [] {
      var p := passes[0];
      var next := Run(p.meanwhile, Attempted(p.attempt, s).0);
      assert passes[..0] == [] && Operates(passes, 0, s);
      forall j | 0 <= j < |passes| - 1
        ensures Operates(passes[1..], j, next)
      {
        assert Operates(passes, j + 1, s);
        OperatedFromFirst(passes, j + 1, s);
      }
      OperatedFromFirst(passes, |passes|, s);
      assert passes[..|passes|] == passes && passes[1..][..|passes| - 1] == passes[1..];
      OperationStaysPending(passes[1..], next, attempt + 1);
    }
  }

  // ---------------------------------------------------------------------------
  // Choosing the recovery
  // ---------------------------------------------------------------------------

  /**
   A runtime whose health is observed is recovered unattended if and only if something
   repairable is wrong with it, no reconciliation is pending for a position it still holds,
   and it has no positions or owns them exactly.
   */
  lemma UnattendedExactlyWhenOwned(s: Control, f: Facts)
    requires Plausible(f)
    ensures IsUnattendedRecoverySafe(Observe(s, f)) <==>
      && Repairable(s, f)
      && (f.userDataReady && !f.contextsMissing ==> s.reconciliation.None?)
      && (s.contexts == [] || Exact(s))
  {
  }

  /** An outage is closed first; told to stop it ends there, and otherwise it is the loop from that closed control. */
  lemma OutageStartsClosed(stopped: bool, passes: seq<Pass>, s: Control)
    ensures var (ending, final, awaited) := Unattended(stopped, passes, s);
      var closed := s.(active := false, protectionReady := false);
      if stopped then ending == GivenUp && final == closed && awaited == []
      else (ending, final, awaited) == Recovering(passes, closed)
  {
  }

  /** Operational recovery closes the runtime first, and starts, is refused or is stopped as its gate says. */
  lemma GateExactly(g: Gate, passes: seq<OperationalPass>, s: Control, used: nat)
    ensures var outcome := Handled(g, passes, s, used);
      var closed := s.(active := false, protectionReady := false);
      outcome == (if !(g.allowed && g.provided) then (Refused, closed, used)
                  else if g.stopped then (Stopped, closed, used)
                  else if g.liveGlobal then Operating(passes, closed, used)
                  else (Refused, closed, used + 1))
  {
  }

  /**
   What a health failure comes to: unattended recovery where that is safe, which forgets the
   attempts when it succeeds and never waits; operational recovery of degraded and exactly
   authorized health elsewhere, which keeps its attempts and waits exactly when it succeeds.
   */
  lemma HealthRecoveryExactly(
      h: Health, passes: seq<Pass>, operational: seq<OperationalPass>, g: Gate, s: Control, used: nat)
    ensures var r := RecoverFromHealth(h, passes, operational, g, s, used);
      if IsUnattendedRecoverySafe(h) then
        if g.provided && g.liveGlobal then
          var outcome := Unattended(g.stopped, passes, s);
          && (r.recovered <==> outcome.0 == Recovered) && r.control == outcome.1
          && r.attemptsUsed == (if r.recovered then 0 else used) && !r.waitForCadence
        else r == HealthRecovery(false, used, false, s)
      else
        var owned := h.status == Degraded && h.authorizationPresent && h.authorizationExact;
        var outcome := Handled(Gate(owned, g.provided, g.liveGlobal, g.stopped), operational, s, used);
        && (r.recovered <==> outcome.0 == Restarted) && r.control == outcome.1 && r.attemptsUsed == outcome.2
        && r.waitForCadence == r.recovered
  {
  }
}
