/**
 Recovery of the LIVE runtime after an outage or an unsafe cycle. Health answers,
 recovery results, operator calls and stop requests come from a tape; the
 statements hold for every tape.
 */
module Recovery {
  import opened Prelude
  import opened RuntimeControl
  import opened RuntimeHealth

  // A health answer: produced by the health service, or by anything at all.
  datatype Oracle = Says(health: Health) | Observes(facts: Facts)

  function Look(o: Oracle, s: Control): Health {
    match o
    case Says(h) => h
    case Observes(f) => Observe(s, f)
  }

  datatype Verdict = Restored | NotRestored | TransientFailure | FatalFailure

  // Provider calls up to an await, and the calls others make during that await.
  datatype Segment = Segment(own: seq<Operation>, others: seq<Operation>)

  // One recovery call: its awaits, the calls after the last of them, and its verdict.
  datatype Attempt = Attempt(verdict: Verdict, segments: seq<Segment>, last: seq<Operation>)

  datatype Pass = Pass(
    before: Oracle,
    // Calls made by operators and streams while the runner sleeps.
    meanwhile: seq<Operation>,
    stopsWhileWaiting: bool,
    attempt: Attempt,
    after: Oracle,
    activated: Oracle,
    stopsAfterwards: bool)

  datatype Convergence = Converged | Retry | UnsafeState

  datatype Ending = Recovered | GivenUp | Raised | StillTrying

  function Closed(s: Control): Control {
    s.(protectionReady := false, active := false)
  }

  // The control before the calls and after each of them.
  function Visited(ops: seq<Operation>, s: Control): seq<Control> {
    if ops == [] then [s] else Visited(ops[..|ops| - 1], s) + [Run(ops, s)]
  }

  // The control after the last await, and at every moment of each await.
  function Through(segments: seq<Segment>, s: Control): (Control, seq<Control>) {
    if segments == [] then (s, [])
    else
      var left := Run(segments[0].own, s);
      var (end, later) := Through(segments[1..], Run(segments[0].others, left));
      (end, Visited(segments[0].others, left) + later)
  }

  function Attempted(a: Attempt, s: Control): (Control, seq<Control>) {
    var (end, awaited) := Through(a.segments, s);
    (Run(a.last, end), awaited)
  }

  // ---------------------------------------------------------------------------
  // Unattended recovery
  // ---------------------------------------------------------------------------

  function Settle(h: Health, s: Control): (Convergence, Control) {
    if HasConverged(h, !s.active, s.protectionReady) then (Converged, s)
    else if IsReseedPending(h) || IsRetryable(h.reason) then (Retry, Closed(s))
    else (UnsafeState, Closed(s))
  }

  function Evaluated(p: Pass, s: Control): (Convergence, Control) {
    var h := Look(p.after, s);
    if IsReadyToActivate(h, !s.active, s.protectionReady) then
      var (r, next) := Activated(s, h);
      if r.Failure? then (UnsafeState, Closed(next))
      else Settle(Look(p.activated, next), next)
    else Settle(h, s)
  }

  datatype PassEnd = Again | Done(ending: Ending)

  // The control after the pass, and at every moment the pass awaits.
  function Tried(p: Pass, s: Control): (PassEnd, Control, seq<Control>) {
    var waited, waiting := Run(p.meanwhile, s), Visited(p.meanwhile, s);
    if IsReseedPending(Look(p.before, s)) then (Again, waited, waiting)
    else if p.stopsWhileWaiting then (Done(GivenUp), waited, waiting)
    else
      var (left, recovering) := Attempted(p.attempt, waited);
      match p.attempt.verdict
      case FatalFailure => (Done(Raised), left, waiting + recovering)
      case TransientFailure => (Again, left, waiting + recovering)
      case NotRestored => (Again, left, waiting + recovering)
      case Restored =>
        var (c, next) := Evaluated(p, left);
        (match c case Converged => Done(Recovered) case Retry => Again case UnsafeState => Done(GivenUp),
         next, waiting + recovering)
  }

  function Recovering(passes: seq<Pass>, s: Control): (Ending, Control, seq<Control>) {
    if passes == [] then (StillTrying, s, [])
    else
      var (e, next, awaited) := Tried(passes[0], s);
      if e.Done? then (e.ending, next, awaited)
      else if passes[0].stopsAfterwards then (GivenUp, next, awaited)
      else
        var (ending, final, later) := Recovering(passes[1..], next);
        (ending, final, awaited + later)
  }

  // A whole outage: paused first, then tried until safe, hopeless or stopped.
  function Unattended(stopped: bool, passes: seq<Pass>, s: Control): (Ending, Control, seq<Control>) {
    if stopped then (GivenUp, Closed(s), []) else Recovering(passes, Closed(s))
  }

  // The outcome of the passes still to come, after what has been awaited already.
  function Together(awaited: seq<Control>, rest: (Ending, Control, seq<Control>)): (Ending, Control, seq<Control>) {
    (rest.0, rest.1, awaited + rest.2)
  }

  lemma RecoveringStep(passes: seq<Pass>, i: nat, s: Control, awaited: seq<Control>)
    requires i < |passes|
    ensures var (e, next, seen) := Tried(passes[i], s);
      Together(awaited, Recovering(passes[i..], s))
        == if e.Done? then (e.ending, next, awaited + seen)
           else if passes[i].stopsAfterwards then (GivenUp, next, awaited + seen)
           else Together(awaited + seen, Recovering(passes[i + 1..], next))
  {
    assert passes[i..][0] == passes[i] && passes[i..][1..] == passes[i + 1..];
    var (e, next, seen) := Tried(passes[i], s);
    var later := Recovering(passes[i + 1..], next).2;
    assert awaited + (seen + later) == (awaited + seen) + later;
  }

  class UnattendedRecovery {
    var control: Control
    var knownPositions: nat
    ghost var awaited: seq<Control>

    constructor (control: Control)
      ensures this.control == control && awaited == []
    {
      this.control := control;
      knownPositions := 0;
      awaited := [];
    }

    method FailClosed()
      modifies this`control
      ensures control == Closed(old(control))
    {
      var (_, unprotected) := Apply(SetProtectionReady(false), control);
      var (_, paused) := Apply(Pause, unprotected);
      control := paused;
    }

    method Evaluate(p: Pass) returns (c: Convergence)
      modifies this`control
      ensures (c, control) == Evaluated(p, old(control))
    {
      var health := Look(p.after, control);
      if IsReadyToActivate(health, !control.active, control.protectionReady) {
        var (r, next) := Activated(control, health);
        control := next;
        if r.Failure? {
          FailClosed();
          return UnsafeState;
        }
        health := Look(p.activated, control);
      }
      if HasConverged(health, !control.active, control.protectionReady) {
        return Converged;
      }
      FailClosed();
      if IsReseedPending(health) {
        return Retry;
      }
      return if IsRetryable(health.reason) then Retry else UnsafeState;
    }

    method Try(p: Pass) returns (e: PassEnd)
      modifies this
      ensures var (end, next, seen) := Tried(p, old(control));
        e == end && control == next && awaited == old(awaited) + seen
    {
      var pending := IsReseedPending(Look(p.before, control));
      awaited := awaited + Visited(p.meanwhile, control);
      control := Run(p.meanwhile, control);
      if pending {
        return Again;
      }
      if p.stopsWhileWaiting {
        return Done(GivenUp);
      }
      awaited := awaited + Attempted(p.attempt, control).1;
      control := Attempted(p.attempt, control).0;
      if p.attempt.verdict.FatalFailure? {
        return Done(Raised);
      }
      if |control.contexts| > knownPositions {
        knownPositions := |control.contexts|;
      }
      if !p.attempt.verdict.Restored? {
        return Again;
      }
      var c := Evaluate(p);
      match c
      case Converged => return Done(Recovered);
      case UnsafeState => return Done(GivenUp);
      case Retry => return Again;
    }

    method Recover(stopped: bool, passes: seq<Pass>) returns (ending: Ending)
      modifies this
      ensures var (end, next, seen) := Unattended(stopped, passes, old(control));
        ending == end && control == next && awaited == old(awaited) + seen
      ensures !ending.StillTrying? ==> knownPositions == 0
    {
      knownPositions := |control.contexts|;
      FailClosed();
      if stopped {
        knownPositions := 0;
        return GivenUp;
      }
      ghost var start := control;
      var i := 0;
      while i < |passes|
        invariant 0 <= i <= |passes|
        invariant Together(old(awaited), Recovering(passes, start))
               == Together(awaited, Recovering(passes[i..], control))
      {
        RecoveringStep(passes, i, control, awaited);
        var e := Try(passes[i]);
        if e.Done? {
          knownPositions := 0;
          return e.ending;
        }
        if passes[i].stopsAfterwards {
          knownPositions := 0;
          return GivenUp;
        }
        i := i + 1;
      }
      return StillTrying;
    }
  }

  // ---------------------------------------------------------------------------
  // Fail-closed, for every tape
  // ---------------------------------------------------------------------------

  // At every await the runtime is paused and unprotected, and nobody else vouches for it.
  ghost predicate Careful(segments: seq<Segment>, s: Control) {
    segments == [] ||
    var left := Run(segments[0].own, s);
    && !left.active && !left.protectionReady
    && SetProtectionReady(true) !in segments[0].others
    && Careful(segments[1..], Run(segments[0].others, left))
  }

  /**
   What the recovery provider owes, asked not to activate: it awaits nothing with
   protection verified, it never un-pauses, and when it fails it leaves protection
   unverified.
   */
  ghost predicate Dutiful(a: Attempt, s: Control) {
    var end := Attempted(a, s).0;
    && Careful(a.segments, s)
    && !end.active
    && (a.verdict.NotRestored? || a.verdict.TransientFailure? ==> !end.protectionReady)
  }

  // It owes that from every fail-closed control, and other callers never vouch for protection.
  ghost predicate Behaved(p: Pass) {
    && (forall s: Control :: !s.active && !s.protectionReady ==> Dutiful(p.attempt, s))
    && SetProtectionReady(true) !in p.meanwhile
  }

  predicate NeverResumes(ops: seq<Operation>) {
    Resume !in ops && ResumeGlobalCycle !in ops
  }

  // A wait in which nobody can activate a paused runtime: nobody resumes, or protection
  // is unverified and nobody vouches for it.
  predicate Harmless(others: seq<Operation>, s: Control) {
    NeverResumes(others) || (!s.protectionReady && SetProtectionReady(true) !in others)
  }

  // The provider awaits only while paused, and every wait is harmless.
  ghost predicate Guarded(segments: seq<Segment>, s: Control) {
    segments == [] ||
    var left := Run(segments[0].own, s);
    && !left.active && Harmless(segments[0].others, left)
    && Guarded(segments[1..], Run(segments[0].others, left))
  }

  // Neither a stop nor the private stream keeps the pass from calling the provider.
  predicate CallsProvider(p: Pass, s: Control) {
    !IsReseedPending(Look(p.before, s)) && !p.stopsWhileWaiting
  }

  ghost predicate WatchedPass(p: Pass, s: Control) {
    var waited := Run(p.meanwhile, s);
    && Harmless(p.meanwhile, s)
    && (CallsProvider(p, s) ==> Guarded(p.attempt.segments, waited) && !Attempted(p.attempt, waited).0.active)
  }

  /**
   What unattended recovery needs at every pass it makes: the provider never un-pauses,
   and every wait in which protection is verified passes without a resume.
   */
  ghost predicate Watched(passes: seq<Pass>, s: Control) {
    if passes == [] then true
    else
      && WatchedPass(passes[0], s)
      && (Tried(passes[0], s).0.Again? && !passes[0].stopsAfterwards ==> Watched(passes[1..], Tried(passes[0], s).1))
  }

  ghost predicate Restful(segments: seq<Segment>) {
    forall g :: g in segments ==> NeverResumes(g.own) && NeverResumes(g.others)
  }

  // Neither the provider nor anybody else resumes, whatever becomes of protection.
  ghost predicate Undisturbed(p: Pass) {
    NeverResumes(p.meanwhile) && Restful(p.attempt.segments) && NeverResumes(p.attempt.last)
  }

  ghost predicate AllPaused(awaited: seq<Control>) {
    forall c :: c in awaited ==> !c.active
  }

  ghost predicate Reopened(p: Pass, s: Control) {
    && s.active && s.protectionReady && Reservation(s).None?
    && HasConverged(Look(p.activated, s), !s.active, s.protectionReady)
  }

  // The pass restored the runtime from the given control, and its activation changed nothing else.
  ghost predicate ActivatedBy(p: Pass, waited: Control, final: Control) {
    var left := Attempted(p.attempt, waited).0;
    && p.attempt.verdict.Restored?
    && final == left.(active := true)
    && IsReadyToActivate(Look(p.after, left), true, left.protectionReady)
  }

  lemma {:induction false} UnprotectedIsNeverActive(ops: seq<Operation>, s: Control)
    requires !s.active && !s.protectionReady && SetProtectionReady(true) !in ops
    ensures AllPaused(Visited(ops, s))
  {
    if ops != [] {
      var front := ops[..|ops| - 1];
      assert forall op :: op in front ==> op in ops;
      UnprotectedIsNeverActive(front, s);
      UnprotectedStaysPaused(ops, s);
    }
  }

  lemma OnlyResumingCallActivates(op: Operation, s: Control)
    requires !s.active && op != Resume && op != ResumeGlobalCycle
    ensures !Apply(op, s).1.active
  {
  }

  lemma {:induction false} OnlyResumingActivates(ops: seq<Operation>, s: Control)
    requires !s.active && NeverResumes(ops)
    ensures !Run(ops, s).active && AllPaused(Visited(ops, s))
  {
    if ops != [] {
      var front := ops[..|ops| - 1];
      assert forall op :: op in front ==> op in ops;
      assert ops[|ops| - 1] in ops;
      OnlyResumingActivates(front, s);
      OnlyResumingCallActivates(ops[|ops| - 1], Run(front, s));
    }
  }

  lemma HarmlessStaysPaused(others: seq<Operation>, s: Control)
    requires !s.active && Harmless(others, s)
    ensures !Run(others, s).active && AllPaused(Visited(others, s))
  {
    if NeverResumes(others) {
      OnlyResumingActivates(others, s);
    } else {
      UnprotectedStaysPaused(others, s);
      UnprotectedIsNeverActive(others, s);
    }
  }

  lemma {:induction false} GuardedIsNeverActive(segments: seq<Segment>, s: Control)
    requires Guarded(segments, s) && !s.active
    ensures !Through(segments, s).0.active && AllPaused(Through(segments, s).1)
  {
    if segments != [] {
      var left := Run(segments[0].own, s);
      HarmlessStaysPaused(segments[0].others, left);
      GuardedIsNeverActive(segments[1..], Run(segments[0].others, left));
    }
  }

  lemma {:induction false} CarefulIsGuarded(segments: seq<Segment>, s: Control)
    requires Careful(segments, s)
    ensures Guarded(segments, s)
  {
    if segments != [] {
      CarefulIsGuarded(segments[1..], Run(segments[0].others, Run(segments[0].own, s)));
    }
  }

  lemma {:induction false} RestfulIsGuarded(segments: seq<Segment>, s: Control)
    requires !s.active && Restful(segments)
    ensures Guarded(segments, s) && !Through(segments, s).0.active
  {
    if segments != [] {
      assert segments[0] in segments && forall g :: g in segments[1..] ==> g in segments;
      var left := Run(segments[0].own, s);
      OnlyResumingActivates(segments[0].own, s);
      OnlyResumingActivates(segments[0].others, left);
      RestfulIsGuarded(segments[1..], Run(segments[0].others, left));
    }
  }

  lemma EvaluationIsFailClosed(p: Pass, s: Control)
    requires !s.active
    ensures var (c, next) := Evaluated(p, s);
      if c.Converged? then Reopened(p, next) && next == s.(active := true)
      else !next.active && !next.protectionReady
  {
  }

  lemma PassIsFailClosed(p: Pass, s: Control)
    requires !s.active && WatchedPass(p, s)
    ensures var (e, next, awaited) := Tried(p, s);
      && AllPaused(awaited)
      && (if e == Done(Recovered) then Reopened(p, next) else !next.active)
  {
    var waited := Run(p.meanwhile, s);
    HarmlessStaysPaused(p.meanwhile, s);
    if CallsProvider(p, s) {
      GuardedIsNeverActive(p.attempt.segments, waited);
      EvaluationIsFailClosed(p, Attempted(p.attempt, waited).0);
      AllPausedTogether(Visited(p.meanwhile, s), Attempted(p.attempt, waited).1);
    }
  }

  lemma AllPausedTogether(a: seq<Control>, b: seq<Control>)
    requires AllPaused(a) && AllPaused(b)
    ensures AllPaused(a + b)
  {
  }

  // Paused at every await and after every exit but success, which means a converged runtime.
  ghost predicate EndsClosed(passes: seq<Pass>, outcome: (Ending, Control, seq<Control>)) {
    && AllPaused(outcome.2)
    && (if outcome.0 == Recovered then exists p :: p in passes && Reopened(p, outcome.1) else !outcome.1.active)
  }

  /**
   As long as the provider never un-pauses and nobody resumes in a wait with protection
   verified: the runtime is paused at every moment it awaits, in the loop's waits and
   inside the recovery calls; every exit but success leaves it paused; and success means
   an active, protected and unreserved runtime with a converged snapshot.
   */
  lemma {:induction false} RecoveryIsFailClosed(passes: seq<Pass>, s: Control)
    requires !s.active && Watched(passes, s)
    ensures EndsClosed(passes, Recovering(passes, s))
    decreases |passes|
  {
    if passes != [] {
      assert passes[0] in passes;
      PassIsFailClosed(passes[0], s);
      var (e, next, awaited) := Tried(passes[0], s);
      if e.Again? && !passes[0].stopsAfterwards {
        assert forall p :: p in passes[1..] ==> p in passes;
        RecoveryIsFailClosed(passes[1..], next);
      }
    }
  }

  lemma UndisturbedPassIsWatched(p: Pass, s: Control)
    requires !s.active && Undisturbed(p)
    ensures WatchedPass(p, s)
  {
    var waited := Run(p.meanwhile, s);
    OnlyResumingActivates(p.meanwhile, s);
    RestfulIsGuarded(p.attempt.segments, waited);
    OnlyResumingActivates(p.attempt.last, Through(p.attempt.segments, waited).0);
  }

  // Where nobody resumes there is nothing to watch, with protection verified or not.
  lemma {:induction false} UndisturbedIsWatched(passes: seq<Pass>, s: Control)
    requires !s.active && forall p :: p in passes ==> Undisturbed(p)
    ensures Watched(passes, s)
    decreases |passes|
  {
    if passes != [] {
      assert passes[0] in passes && forall p :: p in passes[1..] ==> p in passes;
      UndisturbedPassIsWatched(passes[0], s);
      PassIsFailClosed(passes[0], s);
      if Tried(passes[0], s).0.Again? {
        UndisturbedIsWatched(passes[1..], Tried(passes[0], s).1);
      }
    }
  }

  lemma DutifulPassIsWatched(p: Pass, s: Control)
    requires !s.active && !s.protectionReady && SetProtectionReady(true) !in p.meanwhile
    requires Dutiful(p.attempt, Run(p.meanwhile, s))
    ensures WatchedPass(p, s)
  {
    CarefulIsGuarded(p.attempt.segments, Run(p.meanwhile, s));
  }

  lemma DutifulPassLeavesClosed(p: Pass, s: Control)
    requires !s.active && !s.protectionReady && SetProtectionReady(true) !in p.meanwhile
    requires Dutiful(p.attempt, Run(p.meanwhile, s))
    ensures Tried(p, s).0 == Again ==> !Tried(p, s).1.active && !Tried(p, s).1.protectionReady
  {
    UnprotectedStaysPaused(p.meanwhile, s);
    EvaluationIsFailClosed(p, Attempted(p.attempt, Run(p.meanwhile, s)).0);
  }

  // Where the provider meets its obligations, anybody may resume at any time.
  lemma {:induction false} BehavedIsWatched(passes: seq<Pass>, s: Control)
    requires !s.active && !s.protectionReady && forall p :: p in passes ==> Behaved(p)
    ensures Watched(passes, s)
    decreases |passes|
  {
    if passes != [] {
      assert passes[0] in passes && forall p :: p in passes[1..] ==> p in passes;
      UnprotectedStaysPaused(passes[0].meanwhile, s);
      DutifulPassIsWatched(passes[0], s);
      DutifulPassLeavesClosed(passes[0], s);
      if Tried(passes[0], s).0.Again? {
        BehavedIsWatched(passes[1..], Tried(passes[0], s).1);
      }
    }
  }

  /** The two plain cases: nobody ever resumes, or the provider meets its obligations. */
  lemma UndisturbedOrBehavedRecoveryIsFailClosed(passes: seq<Pass>, s: Control)
    requires !s.active
    requires (forall p :: p in passes ==> Undisturbed(p))
             || (!s.protectionReady && forall p :: p in passes ==> Behaved(p))
    ensures EndsClosed(passes, Recovering(passes, s))
  {
    if forall p :: p in passes ==> Undisturbed(p) {
      UndisturbedIsWatched(passes, s);
    } else {
      BehavedIsWatched(passes, s);
    }
    RecoveryIsFailClosed(passes, s);
  }

  // What the first pass decides and what it leaves to the rest.
  lemma RecoveringHead(passes: seq<Pass>, s: Control)
    requires passes != []
    ensures var (e, next, _) := Tried(passes[0], s);
      (Recovering(passes, s).0, Recovering(passes, s).1)
        == if e.Done? then (e.ending, next)
           else if passes[0].stopsAfterwards then (GivenUp, next)
           else (Recovering(passes[1..], next).0, Recovering(passes[1..], next).1)
  {
  }

  lemma RecoveredPassActivates(p: Pass, s: Control)
    requires !s.active && WatchedPass(p, s) && Tried(p, s).0 == Done(Recovered)
    ensures ActivatedBy(p, Run(p.meanwhile, s), Tried(p, s).1)
  {
    EvaluationIsFailClosed(p, Attempted(p.attempt, Run(p.meanwhile, s)).0);
  }

  ghost predicate SomeActivated(passes: seq<Pass>, final: Control) {
    exists p, waited :: p in passes && ActivatedBy(p, waited, final)
  }

  /** Activation is the only way out: success needs the pass that activated it. */
  lemma {:induction false} SuccessNeedsActivation(passes: seq<Pass>, s: Control)
    requires !s.active && Watched(passes, s)
    requires Recovering(passes, s).0 == Recovered
    ensures SomeActivated(passes, Recovering(passes, s).1)
    decreases |passes|
  {
    RecoveringHead(passes, s);
    assert passes[0] in passes;
    if Tried(passes[0], s).0.Again? {
      PassIsFailClosed(passes[0], s);
      assert forall p :: p in passes[1..] ==> p in passes;
      SuccessNeedsActivation(passes[1..], Tried(passes[0], s).1);
    } else {
      RecoveredPassActivates(passes[0], s);
    }
  }

  /** With health taken from the control itself, success means owned or no exposure. */
  lemma {:induction false} ObservedSuccessIsAuthoritative(passes: seq<Pass>, s: Control)
    requires forall p :: p in passes ==> p.activated.Observes?
    requires !s.active && Watched(passes, s)
    requires Recovering(passes, s).0 == Recovered
    ensures var final := Recovering(passes, s).1;
      final.active && final.protectionReady && (final.contexts == [] || (Exact(final) && final.reconciliation.None?))
  {
    RecoveryIsFailClosed(passes, s);
    var final := Recovering(passes, s).1;
    var p :| p in passes && Reopened(p, final);
    PolicyMeansAuthoritative(final, p.activated.facts);
  }

  const VOUCHING_FAILURE := Attempt(NotRestored, [], [SetProtectionReady(true)])

  /**
   A resume with protection verified is what has to be kept out. If one failed attempt leaves protection verified,
   the runtime control lets a resume during the next wait reopen entry while the
   outage is still unresolved.
   */
  lemma VouchingFailureLetsOperatorReopen(s: Control, outage: Health)
    requires !s.active && !s.protectionReady && Reservation(s).None? && !IsReseedPending(outage)
    ensures var p1 := Pass(Says(outage), [], false, VOUCHING_FAILURE, Says(outage), Says(outage), false);
      var p2 := p1.(meanwhile := [ResumeGlobalCycle]);
      !AllPaused(Recovering([p1, p2], s).2)
  {
    var p1 := Pass(Says(outage), [], false, VOUCHING_FAILURE, Says(outage), Says(outage), false);
    var p2 := p1.(meanwhile := [ResumeGlobalCycle]);
    assert [p1, p2][1..] == [p2];
    RunOne(SetProtectionReady(true), s);
    var vouched := s.(protectionReady := true);
    assert Tried(p1, s).0 == Again && Tried(p1, s).1 == vouched;
    RunOne(ResumeGlobalCycle, vouched);
    var open := vouched.(active := true);
    assert Visited([ResumeGlobalCycle], vouched)[1] == open;
    assert open in Tried(p2, vouched).2;
    assert open in Recovering([p2], vouched).2;
  }

  lemma RunOne(op: Operation, s: Control)
    ensures Run([op], s) == Apply(op, s).1
    ensures Visited([op], s) == [s, Apply(op, s).1]
  {
    assert [op][..0] == [] && Run([], s) == s;
  }

  // ---------------------------------------------------------------------------
  // Operational recovery
  // ---------------------------------------------------------------------------

  datatype OperationalPass = OperationalPass(attempt: Attempt, meanwhile: seq<Operation>, stopsAfterwards: bool)

  datatype OperationalEnd = Restarted | Refused | Stopped | StillPending

  function Operating(passes: seq<OperationalPass>, s: Control, attempt: nat): (OperationalEnd, Control, nat) {
    if passes == [] then (StillPending, s, attempt)
    else
      var p := passes[0];
      var left := Attempted(p.attempt, s).0;
      if p.attempt.verdict.FatalFailure? then (Refused, left, attempt + 1)
      else if p.attempt.verdict.Restored? && left.active then (Restarted, left, attempt + 1)
      else
        var waited := Run(p.meanwhile, left);
        if p.stopsAfterwards then (Stopped, waited, attempt + 1)
        else Operating(passes[1..], waited, attempt + 1)
  }

  // Whether recovery may run at all: allowed by the caller, a provider configured,
  // a LIVE market-wide runtime, and no stop requested yet.
  datatype Gate = Gate(allowed: bool, provided: bool, liveGlobal: bool, stopped: bool)

  function Handled(g: Gate, passes: seq<OperationalPass>, s: Control, used: nat)
    : (OperationalEnd, Control, nat)
  {
    if !g.allowed || !g.provided then (Refused, Closed(s), used)
    else if g.stopped then (Stopped, Closed(s), used)
    else if !g.liveGlobal then (Refused, Closed(s), used + 1)
    else Operating(passes, Closed(s), used)
  }

  // Asked to activate, the provider un-pauses only together with success, and leaves
  // protection unverified when the loop goes on.
  ghost predicate OperationallyDutiful(a: Attempt, s: Control) {
    var end := Attempted(a, s).0;
    && (end.active ==> a.verdict.Restored?)
    && (!end.active && !a.verdict.FatalFailure? ==> !end.protectionReady)
  }

  // It does so at every pass the loop makes, and nobody vouches for protection in between.
  ghost predicate OperatesDutifully(passes: seq<OperationalPass>, s: Control) {
    if passes == [] then true
    else
      var p, left := passes[0], Attempted(passes[0].attempt, s).0;
      && OperationallyDutiful(p.attempt, s)
      && (!left.active && !p.attempt.verdict.FatalFailure? ==>
            && SetProtectionReady(true) !in p.meanwhile
            && (!p.stopsAfterwards ==> OperatesDutifully(passes[1..], Run(p.meanwhile, left))))
  }

  method HandleFailure(g: Gate, passes: seq<OperationalPass>, start: Control, used: nat)
    returns (end: OperationalEnd, control: Control, attempt: nat)
    ensures (end, control, attempt) == Handled(g, passes, start, used)
  {
    control, attempt := Closed(start), used;
    if !g.allowed || !g.provided {
      return Refused, control, attempt;
    }
    if g.stopped {
      return Stopped, control, attempt;
    }
    if !g.liveGlobal {
      return Refused, control, attempt + 1;
    }
    var i := 0;
    while i < |passes|
      invariant 0 <= i <= |passes|
      invariant Operating(passes, Closed(start), used) == Operating(passes[i..], control, attempt)
    {
      assert passes[i..][0] == passes[i] && passes[i..][1..] == passes[i + 1..];
      attempt := attempt + 1;
      control := Attempted(passes[i].attempt, control).0;
      if passes[i].attempt.verdict.FatalFailure? {
        return Refused, control, attempt;
      }
      if passes[i].attempt.verdict.Restored? && control.active {
        return Restarted, control, attempt;
      }
      control := Run(passes[i].meanwhile, control);
      if passes[i].stopsAfterwards {
        return Stopped, control, attempt;
      }
      i := i + 1;
    }
    return StillPending, control, attempt;
  }

  /** Operational recovery reports success exactly when it leaves the runtime active. */
  lemma {:induction false} OperationalIsFailClosed(passes: seq<OperationalPass>, s: Control, attempt: nat)
    requires !s.active && !s.protectionReady && OperatesDutifully(passes, s)
    ensures var (end, final, attempts) := Operating(passes, s, attempt);
      && (end == Restarted <==> final.active)
      && attempt <= attempts <= attempt + |passes|
    decreases |passes|
  {
    if passes != [] {
      var p := passes[0];
      var left := Attempted(p.attempt, s).0;
      if !left.active && !p.attempt.verdict.FatalFailure? {
        UnprotectedStaysPaused(p.meanwhile, left);
        if !p.stopsAfterwards {
          OperationalIsFailClosed(passes[1..], Run(p.meanwhile, left), attempt + 1);
        }
      }
    }
  }

  // ---------------------------------------------------------------------------
  // Choosing the recovery
  // ---------------------------------------------------------------------------

  datatype HealthRecovery = HealthRecovery(recovered: bool, attemptsUsed: nat, waitForCadence: bool, control: Control)

  function RecoverFromHealth(
      h: Health, passes: seq<Pass>, operational: seq<OperationalPass>, g: Gate, s: Control, used: nat): HealthRecovery
  {
    if IsUnattendedRecoverySafe(h) then
      if !g.provided || !g.liveGlobal then HealthRecovery(false, used, false, s)
      else
        var (ending, final, _) := Unattended(g.stopped, passes, s);
        var ok := ending == Recovered;
        HealthRecovery(ok, if ok then 0 else used, false, final)
    else
      var allowed := h.status.Degraded? && h.authorizationPresent && h.authorizationExact;
      var (end, final, attempts) := Handled(g.(allowed := allowed), operational, s, used);
      HealthRecovery(end == Restarted, attempts, end == Restarted, final)
  }

  /** Blocked health and unowned exposure never reopen automatically. */
  lemma UnownedExposureNeverReopens(
      h: Health, passes: seq<Pass>, operational: seq<OperationalPass>, g: Gate, s: Control, used: nat)
    requires h.status.Blocked? || (h.contexts != [] && !(h.authorizationPresent && h.authorizationExact))
    ensures var r := RecoverFromHealth(h, passes, operational, g, s, used);
      !r.recovered && !r.control.active && !r.control.protectionReady && r.attemptsUsed == used
  {
  }

  /**
   Whichever recovery is chosen, it reports success exactly when it leaves the runtime
   active, with one exception: where unattended recovery is called for but no provider
   is configured, an active runtime is reported unrecovered and left as it was.
   */
  lemma HealthRecoveryIsFailClosed(
      h: Health, passes: seq<Pass>, operational: seq<OperationalPass>, g: Gate, s: Control, used: nat)
    requires Watched(passes, Closed(s)) && OperatesDutifully(operational, Closed(s))
    ensures var r := RecoverFromHealth(h, passes, operational, g, s, used);
      var untouched := IsUnattendedRecoverySafe(h) && !(g.provided && g.liveGlobal);
      && ((r.recovered <==> r.control.active) <==> !(untouched && s.active))
      && (untouched ==> !r.recovered && r.control == s)
  {
    RecoveryIsFailClosed(passes, Closed(s));
    OperationalIsFailClosed(operational, Closed(s), used);
  }
}
