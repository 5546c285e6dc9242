/** LIVE runtime health: how it is derived, and what recovery may conclude from it. */
module RuntimeHealth {
  import opened Prelude
  import opened RuntimeControl

  datatype Status = Inactive | Active | Paused | Degraded | Blocked

  datatype Reason =
    | NoPositions
    | ReconciliationRequired
    | AuthorizationMissing
    | AuthorizationMismatched
    | StreamMissing
    | StreamNotReady
    | StreamFailed
    | StreamStale
    | UserDataStreamNotReady
    | MonitorMissing
    | MonitorUnhealthy
    | RunnerPaused

  datatype Health = Health(
    status: Status,
    reason: Option<Reason>,
    contexts: seq<Context>,
    authorizationPresent: bool,
    authorizationExact: bool,
    runnerPaused: bool)
  {
    // The combinations the snapshot's constructor lets through.
    predicate Valid() {
      if status.Inactive? then contexts == [] && reason == Some(NoPositions)
      else if reason.None? then status.Active?
      else !status.Active?
    }
  }

  // What streams and monitors report, beyond the control itself.
  datatype Facts = Facts(
    userDataReady: bool,
    contextsMissing: bool,
    streamFailure: Option<Reason>,
    monitorFailure: Option<Reason>)
  {
    predicate Clear() {
      userDataReady && !contextsMissing && streamFailure.None? && monitorFailure.None?
    }
  }

  // ---------------------------------------------------------------------------
  // The health service
  // ---------------------------------------------------------------------------

  function Observe(s: Control, f: Facts): (h: Health)
    ensures h.Valid()
  {
    var present := s.authorization.Some?;
    var exact := present && s.authorization.value.Authorizes(s.contexts);
    var base := Health(Degraded, Some(UserDataStreamNotReady), s.contexts, present, exact, !s.active);
    if !f.userDataReady then base
    else if s.contexts == [] then base.(status := Inactive, reason := Some(NoPositions))
    else if f.contextsMissing then base.(reason := Some(ReconciliationRequired))
    else if s.reconciliation.Some? then base.(status := Blocked, reason := Some(ReconciliationRequired))
    else if f.streamFailure.Some? then base.(reason := f.streamFailure)
    else if f.monitorFailure.Some? then base.(reason := f.monitorFailure)
    else if !present then base.(status := Blocked, reason := Some(AuthorizationMissing))
    else if !exact then base.(status := Blocked, reason := Some(AuthorizationMismatched))
    else if !s.active then base.(status := Paused, reason := Some(RunnerPaused))
    else base.(status := Active, reason := None)
  }

  // ---------------------------------------------------------------------------
  // The recovery policy
  // ---------------------------------------------------------------------------

  predicate IsRetryable(reason: Option<Reason>) {
    reason.Some? && match reason.value {
      case StreamMissing | StreamNotReady | StreamFailed | StreamStale => true
      case UserDataStreamNotReady | MonitorMissing | MonitorUnhealthy | ReconciliationRequired => true
      case _ => false
    }
  }

  predicate IsUnattendedRecoverySafe(h: Health) {
    !h.status.Blocked? && IsRetryable(h.reason)
    && (h.contexts == [] || (h.authorizationPresent && h.authorizationExact))
  }

  predicate IsReseedPending(h: Health) {
    h.reason == Some(UserDataStreamNotReady)
  }

  predicate IsReadyToActivate(h: Health, runnerPaused: bool, protectionReady: bool) {
    if !h.runnerPaused || !runnerPaused || !protectionReady then false
    else if h.contexts != [] then
      h.status.Paused? && h.reason == Some(RunnerPaused) && h.authorizationPresent && h.authorizationExact
    else h.status.Inactive? && h.reason == Some(NoPositions)
  }

  predicate HasConverged(h: Health, runnerPaused: bool, protectionReady: bool) {
    if h.runnerPaused || runnerPaused || !protectionReady then false
    else if h.status.Active? then h.reason.None? && h.authorizationPresent && h.authorizationExact
    else h.status.Inactive? && h.reason == Some(NoPositions) && h.contexts == []
  }

  // ---------------------------------------------------------------------------
  // What the policy means over observed health
  // ---------------------------------------------------------------------------

  // Authoritative ownership of every position, or authoritatively none.
  predicate Authoritative(s: Control, f: Facts) {
    if s.contexts == [] then f.userDataReady else f.Clear() && s.reconciliation.None? && Exact(s)
  }

  predicate ObservedReady(s: Control, f: Facts) {
    IsReadyToActivate(Observe(s, f), !s.active, s.protectionReady)
  }

  predicate ObservedConverged(s: Control, f: Facts) {
    HasConverged(Observe(s, f), !s.active, s.protectionReady)
  }

  /** Both gates, read against the control: the same substrate, paused and running. */
  lemma PolicyMeansAuthoritative(s: Control, f: Facts)
    ensures ObservedReady(s, f) <==> !s.active && s.protectionReady && Authoritative(s, f)
    ensures ObservedConverged(s, f) <==> s.active && s.protectionReady && Authoritative(s, f)
  {
  }

  function Activated(s: Control, h: Health): (Outcome, Control) {
    if h.contexts != [] then Resumed(s) else ResumedGlobally(s)
  }

  /**
   A substrate that passes the ready gate activates unless a reservation is held,
   and then converges as long as its facts hold.
   */
  lemma ReadyActivatesUnlessReserved(s: Control, f: Facts)
    requires ObservedReady(s, f)
    ensures var (r, next) := Activated(s, Observe(s, f));
      && (r.Success? <==> Reservation(s).None?)
      && (r.Success? ==> next == s.(active := true) && ObservedConverged(next, f))
      && (r.Failure? ==> next == s)
  {
    PolicyMeansAuthoritative(s, f);
    PolicyMeansAuthoritative(s.(active := true), f);
  }

  // ---------------------------------------------------------------------------
  // Health in its own terms
  // ---------------------------------------------------------------------------

  // Streams and monitors work, and the control agrees with what the exchange holds.
  predicate Sound(s: Control, f: Facts) {
    !f.contextsMissing && s.reconciliation.None? && f.streamFailure.None? && f.monitorFailure.None?
  }

  /** What each status stands for, over observed health. */
  lemma StatusExactly(s: Control, f: Facts)
    ensures var h := Observe(s, f); var held := f.userDataReady && s.contexts != [];
      && (h.status == Inactive <==> f.userDataReady && s.contexts == [])
      && (h.status == Active <==> held && Sound(s, f) && Exact(s) && s.active)
      && (h.status == Paused <==> held && Sound(s, f) && Exact(s) && !s.active)
      && (h.status == Blocked <==>
            held && !f.contextsMissing && (s.reconciliation.Some? || (Sound(s, f) && !Exact(s))))
      && h.contexts == s.contexts && h.runnerPaused == !s.active
      && h.authorizationPresent == s.authorization.Some? && h.authorizationExact == Exact(s)
  {
  }

  /** And what each reason stands for. */
  lemma ReasonExactly(s: Control, f: Facts)
    ensures var h := Observe(s, f);
      h.reason == (if !f.userDataReady then Some(UserDataStreamNotReady)
                   else if s.contexts == [] then Some(NoPositions)
                   else if f.contextsMissing || s.reconciliation.Some? then Some(ReconciliationRequired)
                   else if f.streamFailure.Some? then f.streamFailure
                   else if f.monitorFailure.Some? then f.monitorFailure
                   else if s.authorization.None? then Some(AuthorizationMissing)
                   else if !Exact(s) then Some(AuthorizationMismatched)
                   else if s.active then None
                   else Some(RunnerPaused))
  {
  }

  /** What the recovery policy asks of any snapshot, whoever made it. */
  lemma PolicyExactly(h: Health, runnerPaused: bool, protectionReady: bool)
    ensures IsReadyToActivate(h, runnerPaused, protectionReady) <==>
      && h.runnerPaused && runnerPaused && protectionReady
      && ((h.contexts == [] && h.status == Inactive && h.reason == Some(NoPositions))
          || (h.contexts != [] && h.status == Paused && h.reason == Some(RunnerPaused)
              && h.authorizationPresent && h.authorizationExact))
    ensures HasConverged(h, runnerPaused, protectionReady) <==>
      && !h.runnerPaused && !runnerPaused && protectionReady
      && ((h.contexts == [] && h.status == Inactive && h.reason == Some(NoPositions))
          || (h.status == Active && h.reason == None && h.authorizationPresent && h.authorizationExact))
    ensures IsUnattendedRecoverySafe(h) <==>
      && h.status != Blocked && h.reason.Some?
      && h.reason.value !in {NoPositions, AuthorizationMissing, AuthorizationMismatched, RunnerPaused}
      && (h.contexts == [] || (h.authorizationPresent && h.authorizationExact))
  {
  }
}
