/**
 The runtime control with its three clients interleaved: the runner, the durable
 risk-limit update and everything operators and streams may call. Each step is the
 code between two awaits.
 */
module RuntimeSystem {
  import opened Prelude
  import opened RuntimeControl

  // Where the runner is: about to look at the active event, waiting for it, woken by
  // it but not resumed yet, or in a cycle.
  datatype Runner = Polling | Blocked | Woken | Cycling

  datatype System = System(
    control: Control,
    limit: nat,
    // Limits read by the capacity checks of the cycle in progress, if any.
    readings: Option<seq<nat>>,
    // The limit a risk-limit update is still writing, if any.
    writing: Option<nat>,
    runner: Runner)

  datatype Step =
    // An active runtime is noticed at once. Without an await it leads to the cycle lock, or,
    // when health fails, the batch is unauthorized or nothing is due, to no cycle this time.
    | Poll(ready: bool)
    // The active event releases the waiting runner, which resumes at some later step.
    | Wake
    | StartCycle(ready: bool)
    | CheckCapacity
    // The next context of a batch follows without an await and without another look.
    | FinishCycle(more: bool)
    | StartLimitUpdate(candidate: nat)
    | FinishLimitUpdate(saved: bool)
    | Call(op: Operation)

  // Only the runner brackets cycles and only the limit service brackets updates.
  predicate Owned(op: Operation) {
    op.BeginCycle? || op.EndCycle? || op.BeginRiskLimitChange? || op.EndRiskLimitChange?
  }

  // A refused lock is a failed turn, after which the runner looks again.
  function TryLock(s: System): System {
    var (r, c) := Apply(BeginCycle, s.control);
    if r.Success? then s.(control := c, readings := Some([]), runner := Cycling)
    else s.(readings := None, runner := Polling)
  }

  function Turn(ready: bool, s: System): System {
    if ready then TryLock(s) else s.(readings := None, runner := Polling)
  }

  function Advance(step: Step, s: System): System {
    match step
    case Poll(ready) =>
      if !s.runner.Polling? then s
      else if s.control.active then Turn(ready, s)
      else s.(runner := Blocked)
    case Wake => if s.runner.Blocked? && s.control.active then s.(runner := Woken) else s
    case StartCycle(ready) => if s.runner.Woken? then Turn(ready, s) else s
    case CheckCapacity =>
      if s.readings.Some? then s.(readings := Some(s.readings.value + [s.limit])) else s
    case FinishCycle(more) =>
      if !s.runner.Cycling? then s
      else
        var released := s.(control := Apply(EndCycle, s.control).1, readings := None, runner := Polling);
        if more then TryLock(released) else released
    case StartLimitUpdate(candidate) =>
      if s.writing.Some? then s
      else
        var (r, c) := Apply(BeginRiskLimitChange, s.control);
        if r.Success? then s.(control := c, writing := Some(candidate)) else s
    case FinishLimitUpdate(saved) =>
      if s.writing.None? then s
      else
        s.(control := Apply(EndRiskLimitChange, s.control).1,
           limit := if saved then s.writing.value else s.limit,
           writing := None)
    case Call(op) => if Owned(op) then s else s.(control := Apply(op, s.control).1)
  }

  function Reached(steps: seq<Step>, start: System): System {
    if steps == [] then start else Advance(steps[|steps| - 1], Reached(steps[..|steps| - 1], start))
  }

  predicate Idle(s: System) {
    && Exclusive(s.control) && !s.control.cycle && !s.control.riskLimitChange
    && s.readings.None? && s.writing.None? && s.runner.Polling?
  }

  predicate Coherent(s: System) {
    && Exclusive(s.control)
    && (s.control.cycle <==> s.readings.Some?)
    && (s.control.cycle <==> s.runner.Cycling?)
    && (s.control.riskLimitChange <==> s.writing.Some?)
    && (s.readings.Some? ==> forall r :: r in s.readings.value ==> r == s.limit)
  }

  lemma CallKeepsOwnedBits(op: Operation, s: Control)
    requires !Owned(op)
    ensures Apply(op, s).1.cycle == s.cycle && Apply(op, s).1.riskLimitChange == s.riskLimitChange
  {
    if !TouchesGates(op) {
      ConfigurationKeepsGates(op, s);
    }
  }

  lemma StepIsCoherent(step: Step, s: System)
    requires Coherent(s)
    ensures Coherent(Advance(step, s))
  {
    match step
    case Call(op) =>
      if !Owned(op) {
        CallKeepsOwnedBits(op, s.control);
        StepIsExclusive(op, s.control);
      }
    case _ =>
  }

  /**
   In every reachable state at most one owner holds the runtime, a reservation
   implies paused, and all capacity checks of the running cycle have read the
   limit that is still in force.
   */
  lemma {:induction false} EveryRunIsCoherent(steps: seq<Step>, start: System)
    requires Idle(start)
    ensures Coherent(Reached(steps, start))
  {
    if steps != [] {
      EveryRunIsCoherent(steps[..|steps| - 1], start);
      StepIsCoherent(steps[|steps| - 1], Reached(steps[..|steps| - 1], start));
    }
  }

  /** So one cycle never decides capacity against two different limits. */
  lemma OneLimitPerCycle(steps: seq<Step>, start: System, i: nat, j: nat)
    requires Idle(start)
    requires Reached(steps, start).readings.Some?
    requires i < |Reached(steps, start).readings.value| && j < |Reached(steps, start).readings.value|
    ensures Reached(steps, start).readings.value[i] == Reached(steps, start).readings.value[j]
  {
    EveryRunIsCoherent(steps, start);
    var seen := Reached(steps, start).readings.value;
    assert seen[i] in seen && seen[j] in seen;
  }

  /** A limit update and a cycle exclude each other in both directions. */
  lemma LimitMovesOnlyBetweenCycles(steps: seq<Step>, step: Step, start: System)
    requires Idle(start)
    requires Advance(step, Reached(steps, start)).limit != Reached(steps, start).limit
    ensures var s := Reached(steps, start);
      step == FinishLimitUpdate(true) && !s.control.cycle && !s.control.active && !s.control.operatorExit
  {
    EveryRunIsCoherent(steps, start);
  }

  // ---------------------------------------------------------------------------
  // When a pause holds
  // ---------------------------------------------------------------------------

  // The step takes the runner into a cycle, or into the next one of its batch.
  predicate Enters(step: Step, s: System) {
    Advance(step, s).control.cycle && (!s.control.cycle || step == FinishCycle(true))
  }

  /**
   Which steps start a cycle, in every reachable state: a runner with something to run
   that looks starts one exactly when the runtime is active; once woken, exactly when
   nothing is reserved, paused again or not; the rest of a batch always follows, paused
   or not; and no other step starts one.
   */
  lemma CyclesStartExactlyWhen(steps: seq<Step>, step: Step, start: System)
    requires Idle(start)
    ensures var s := Reached(steps, start);
      Enters(step, s) <==>
        || (step == Poll(true) && s.runner.Polling? && s.control.active)
        || (step == StartCycle(true) && s.runner.Woken? && Reservation(s.control).None?)
        || (step == FinishCycle(true) && s.runner.Cycling?)
  {
    EveryRunIsCoherent(steps, start);
    var s := Reached(steps, start);
    match step
    case Call(op) =>
      if !Owned(op) {
        CallKeepsOwnedBits(op, s.control);
      }
    case _ =>
  }

  lemma ReachedNext(steps: seq<Step>, k: nat, start: System)
    requires k < |steps|
    ensures Reached(steps[..k + 1], start) == Advance(steps[k], Reached(steps[..k], start))
  {
    assert steps[..k + 1][..k] == steps[..k];
  }

  /**
   So a pause does not stop a woken runner: from every idle, paused and protected
   runtime a resume that is followed at once by a pause still leads to a cycle as soon
   as there is one to run, and it runs while the runtime is paused.
   */
  lemma PauseDoesNotStopAWokenCycle(start: System, ready: bool)
    requires Idle(start) && !start.control.active && start.control.protectionReady && Reservation(start.control).None?
    ensures var after := Reached([Poll(ready), Call(ResumeGlobalCycle), Wake, Call(Pause), StartCycle(true)], start);
      !after.control.active && after.control.cycle
  {
    var steps := [Poll(ready), Call(ResumeGlobalCycle), Wake, Call(Pause), StartCycle(true)];
    assert steps[..0] == [] && steps[..5] == steps;
    ReachedNext(steps, 0, start);
    ReachedNext(steps, 1, start);
    ReachedNext(steps, 2, start);
    ReachedNext(steps, 3, start);
    ReachedNext(steps, 4, start);
  }

  // ---------------------------------------------------------------------------
  // Single steps
  // ---------------------------------------------------------------------------

  // Where a runner that gets its turn goes: into a cycle, or back to looking.
  function Taking(ready: bool, s: System): Runner {
    if ready && !s.control.cycle && !s.control.riskLimitChange && !s.control.operatorExit then Cycling else Polling
  }

  /** Where the runner is after a step, exactly. */
  lemma RunnerExactly(step: Step, s: System)
    requires Coherent(s)
    ensures Advance(step, s).runner ==
      match step
      case Poll(ready) =>
        if s.runner != Polling then s.runner else if s.control.active then Taking(ready, s) else Blocked
      case Wake => if s.runner == Blocked && s.control.active then Woken else s.runner
      case StartCycle(ready) => if s.runner == Woken then Taking(ready, s) else s.runner
      case FinishCycle(more) => if s.runner == Cycling && !more then Polling else s.runner
      case _ => s.runner
  {
  }

  /** A cycle reads the limit in force at every check, from nothing on, and keeps no reading when it is over. */
  lemma ReadingsExactly(step: Step, s: System)
    requires Coherent(s)
    ensures var next := Advance(step, s);
      && (next.readings.Some? <==> next.runner == Cycling)
      && (next.runner == Cycling ==>
            next.readings == Some(if s.runner != Cycling || step.FinishCycle? then []
                                  else if step == CheckCapacity then s.readings.value + [s.limit]
                                  else s.readings.value))
  {
    StepIsCoherent(step, s);
  }

  /** A limit is written from the moment it is reserved until it is saved or given up, and moves only when saved. */
  lemma LimitExactly(step: Step, s: System)
    requires Coherent(s)
    ensures var next := Advance(step, s); var c := s.control;
      && next.limit == (if step == FinishLimitUpdate(true) && s.writing.Some? then s.writing.value else s.limit)
      && next.writing == (if step.StartLimitUpdate? && s.writing.None? && !c.active && !c.cycle && !c.operatorExit
                          then Some(step.candidate)
                          else if step.FinishLimitUpdate? then None
                          else s.writing)
  {
  }
}
