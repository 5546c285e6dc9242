/** Handing one validated restart request from the operator menu to the application session. */
module Restart {
  import opened Prelude

  // Members of four different enumerations.
  datatype Target =
    | MarketType(value: string)
    | ExecutionPolicy(value: string)
    | StrategyType(value: string)
    | ExchangeType(value: string)

  datatype Request = Request(
    market: Option<string>,
    policy: Option<string>,
    strategy: Option<string>,
    exchange: Option<string>)

  datatype RestartError = NotExactlyOneTarget | AlreadyStaged | NotStaged | NoTarget

  function Given(r: Request): seq<Target> {
    (if r.market.Some? then [MarketType(r.market.value)] else [])
    + (if r.policy.Some? then [ExecutionPolicy(r.policy.value)] else [])
    + (if r.strategy.Some? then [StrategyType(r.strategy.value)] else [])
    + (if r.exchange.Some? then [ExchangeType(r.exchange.value)] else [])
  }

  function ResolveTarget(r: Request): Result<Target, RestartError> {
    if |Given(r)| != 1 then Failure(NotExactlyOneTarget) else Success(Given(r)[0])
  }

  // The session waiting for the restart event. Setting the event releases it; it reads
  // the request when it resumes, which is a later step.
  datatype Waiter = NotWaiting | Blocked | Released

  datatype State = State(requested: Option<Target>, committed: bool, waiter: Waiter)

  const IDLE := State(None, false, NotWaiting)

  function Staging(s: State, r: Request): Result<State, RestartError> {
    if s.requested.Some? || s.committed then Failure(AlreadyStaged)
    else
      var target := ResolveTarget(r);
      if target.Failure? then Failure(target.error) else Success(s.(requested := Some(target.value)))
  }

  function Committing(s: State, r: Request): Result<State, RestartError> {
    var target := ResolveTarget(r);
    if target.Failure? then Failure(target.error)
    else if s.requested != Some(target.value) then Failure(NotStaged)
    else Success(s.(committed := true, waiter := if s.waiter.Blocked? then Released else s.waiter))
  }

  function Consuming(s: State): (Option<Target>, State) {
    if !s.committed then (None, s) else (s.requested, s.(requested := None, committed := false))
  }

  function Reading(s: State): Result<Target, RestartError> {
    if s.requested.None? then Failure(NoTarget) else Success(s.requested.value)
  }

  // Waiting returns at once when the event is set, and blocks otherwise.
  function Waiting(s: State): (Option<Result<Target, RestartError>>, State) {
    if s.committed then (Some(Reading(s)), s) else (None, s.(waiter := Blocked))
  }

  class RuntimeRestartCoordinator {
    var requestedTarget: Option<Target>
    var restartEvent: bool
    // The session waiting for the event.
    var waiter: Waiter

    ghost predicate Valid()
      reads this
    {
      restartEvent ==> requestedTarget.Some?
    }

    ghost function Abstract(): State
      reads this
    {
      State(requestedTarget, restartEvent, waiter)
    }

    constructor ()
      ensures Valid() && Abstract() == IDLE
    {
      requestedTarget, restartEvent, waiter := None, false, NotWaiting;
    }

    method Stage(r: Request) returns (done: Result<(), RestartError>)
      requires Valid()
      modifies this
      ensures Valid()
      ensures match Staging(old(Abstract()), r)
        case Success(next) => done.Success? && Abstract() == next
        case Failure(e) => done == Failure(e) && Abstract() == old(Abstract())
    {
      if requestedTarget.Some? || restartEvent {
        return Failure(AlreadyStaged);
      }
      var target := ResolveTarget(r);
      if target.Failure? {
        return Failure(target.error);
      }
      requestedTarget := Some(target.value);
      return Success(());
    }

    method Commit(r: Request) returns (done: Result<(), RestartError>)
      requires Valid()
      modifies this
      ensures Valid()
      ensures match Committing(old(Abstract()), r)
        case Success(next) => done.Success? && Abstract() == next
        case Failure(e) => done == Failure(e) && Abstract() == old(Abstract())
    {
      var target := ResolveTarget(r);
      if target.Failure? {
        return Failure(target.error);
      }
      if requestedTarget != Some(target.value) {
        return Failure(NotStaged);
      }
      restartEvent := true;
      if waiter.Blocked? {
        waiter := Released;
      }
      return Success(());
    }

    method Wait() returns (answer: Option<Result<Target, RestartError>>)
      requires Valid()
      modifies this`waiter
      ensures Valid() && (answer, Abstract()) == Waiting(old(Abstract()))
      ensures answer.Some? ==> answer.value.Success?
    {
      if restartEvent {
        return Some(Success(requestedTarget.value));
      }
      waiter := Blocked;
      return None;
    }

    // The released waiter runs again; the event is not looked at a second time.
    method ResumeWait() returns (target: Result<Target, RestartError>)
      requires Valid() && waiter.Released?
      modifies this`waiter
      ensures Valid() && target == Reading(old(Abstract())) && Abstract() == old(Abstract()).(waiter := NotWaiting)
    {
      waiter := NotWaiting;
      if requestedTarget.None? {
        return Failure(NoTarget);
      }
      return Success(requestedTarget.value);
    }

    method Consume() returns (target: Option<Target>)
      requires Valid()
      modifies this
      ensures Valid() && (target, Abstract()) == Consuming(old(Abstract()))
    {
      if !restartEvent {
        return None;
      }
      target := requestedTarget;
      requestedTarget := None;
      restartEvent := false;
    }
  }

  // ---------------------------------------------------------------------------
  // Whole runs
  // ---------------------------------------------------------------------------

  datatype Op = Stages(request: Request) | Commits(request: Request) | Consumes | Waits | Resumes

  function Step(s: State, op: Op): State {
    match op
    case Stages(r) => if Staging(s, r).Success? then Staging(s, r).value else s
    case Commits(r) => if Committing(s, r).Success? then Committing(s, r).value else s
    case Consumes => Consuming(s).1
    case Waits => Waiting(s).1
    case Resumes => if s.waiter.Released? then s.(waiter := NotWaiting) else s
  }

  function Run(ops: seq<Op>): State {
    if ops == [] then IDLE else Step(Run(ops[..|ops| - 1]), ops[|ops| - 1])
  }

  function StagedBy(s: State, op: Op): seq<Target> {
    if op.Stages? && Staging(s, op.request).Success? then [ResolveTarget(op.request).value] else []
  }

  function ConsumedBy(s: State, op: Op): seq<Target> {
    if op.Consumes? && Consuming(s).0.Some? then [Consuming(s).0.value] else []
  }

  // The targets successfully staged, and those consumed, in order.
  function Staged(ops: seq<Op>): seq<Target> {
    if ops == [] then []
    else
      var before, op := ops[..|ops| - 1], ops[|ops| - 1];
      Staged(before) + StagedBy(Run(before), op)
  }

  function Consumed(ops: seq<Op>): seq<Target> {
    if ops == [] then []
    else
      var before, op := ops[..|ops| - 1], ops[|ops| - 1];
      Consumed(before) + ConsumedBy(Run(before), op)
  }

  function Pending(s: State): seq<Target> {
    if s.requested.Some? then [s.requested.value] else []
  }

  /**
   Over every run the consumed targets are the staged ones in order, except one that
   may still be pending: nothing is lost, consumed twice, or staged over a pending
   request, and a committed event always has a target.
   */
  lemma {:induction false} ConsumedAreStagedInOrder(ops: seq<Op>)
    ensures Staged(ops) == Consumed(ops) + Pending(Run(ops))
    ensures Run(ops).committed ==> Run(ops).requested.Some?
  {
    if ops != [] {
      var before, op := ops[..|ops| - 1], ops[|ops| - 1];
      ConsumedAreStagedInOrder(before);
      StepMovesOneTarget(Run(before), op);
      Regroups(Consumed(before), Pending(Run(before)), StagedBy(Run(before), op),
               ConsumedBy(Run(before), op), Pending(Run(ops)));
    }
  }

  lemma Regroups(a: seq<Target>, b: seq<Target>, c: seq<Target>, d: seq<Target>, e: seq<Target>)
    requires b + c == d + e
    ensures (a + b) + c == (a + d) + e
  {
    assert (a + b) + c == a + (b + c);
    assert (a + d) + e == a + (d + e);
  }

  // A step stages into an empty place or takes what is there.
  lemma StepMovesOneTarget(s: State, op: Op)
    requires s.committed ==> s.requested.Some?
    ensures Step(s, op).committed ==> Step(s, op).requested.Some?
    ensures Pending(s) + StagedBy(s, op) == ConsumedBy(s, op) + Pending(Step(s, op))
  {
  }

  // The request names the target, and was committed between operations i and j.
  ghost predicate CommittedBetween(ops: seq<Op>, i: int, j: int, target: Target) {
    exists k :: 0 <= i < k < j <= |ops| && ops[k].Commits? && ResolveTarget(ops[k].request) == Success(target)
  }

  /** Whatever is consumed was the last target staged, and was committed since. */
  lemma {:induction false} ConsumedWasCommitted(ops: seq<Op>)
    requires Run(ops).committed
    ensures Staged(ops) != [] && Run(ops).requested == Some(Staged(ops)[|Staged(ops)| - 1])
    ensures exists i: nat :: Origin(ops, i)
  {
    ConsumedAreStagedInOrder(ops);
    CommitFollowsStage(ops);
  }

  ghost predicate StagesAt(ops: seq<Op>, i: nat, target: Target) {
    && i < |ops| && ops[i].Stages?
    && Staging(Run(ops[..i]), ops[i].request).Success?
    && ResolveTarget(ops[i].request) == Success(target)
  }

  // Operation i staged the pending target, and a committed one was committed after that.
  ghost predicate Origin(ops: seq<Op>, i: nat) {
    var s := Run(ops);
    && s.requested.Some? && StagesAt(ops, i, s.requested.value)
    && (s.committed ==> CommittedBetween(ops, i, |ops|, s.requested.value))
  }

  // A request that stays pending keeps its origin, and is committed only as what it names.
  lemma OriginStays(ops: seq<Op>, i: nat)
    requires ops != [] && Origin(ops[..|ops| - 1], i) && Run(ops).requested.Some?
    ensures Origin(ops, i)
  {
    var n := |ops|;
    var before := ops[..n - 1];
    assert before[..i] == ops[..i] && before[i] == ops[i];
    PendingStays(Run(before), ops[n - 1]);
    if Run(before).committed {
      CommitStays(ops, i, Run(before).requested.value);
    } else if Run(ops).committed {
      assert ops[n - 1].Commits? && ResolveTarget(ops[n - 1].request) == Success(Run(ops).requested.value);
    }
  }

  lemma CommitStays(ops: seq<Op>, i: nat, target: Target)
    requires ops != [] && CommittedBetween(ops[..|ops| - 1], i, |ops| - 1, target)
    ensures CommittedBetween(ops, i, |ops|, target)
  {
    var before := ops[..|ops| - 1];
    var k :| 0 <= i < k < |ops| - 1 && before[k].Commits? && ResolveTarget(before[k].request) == Success(target);
    assert ops[k] == before[k];
  }

  lemma PendingStays(s: State, op: Op)
    requires s.requested.Some? && Step(s, op).requested.Some?
    ensures Step(s, op).requested == s.requested
    ensures Step(s, op).committed && !s.committed ==>
      op.Commits? && ResolveTarget(op.request) == Success(s.requested.value)
  {
  }

  // Only staging fills an empty place, and leaves it uncommitted.
  lemma FillingStages(s: State, op: Op)
    requires s.requested.None? && !s.committed && Step(s, op).requested.Some?
    ensures op.Stages? && Staging(s, op.request).Success? && !Step(s, op).committed
    ensures ResolveTarget(op.request) == Success(Step(s, op).requested.value)
  {
  }

  lemma {:induction false} CommitFollowsStage(ops: seq<Op>)
    ensures Run(ops).requested.Some? ==> exists i: nat :: Origin(ops, i)
  {
    if ops != [] && Run(ops).requested.Some? {
      var n := |ops|;
      var before := ops[..n - 1];
      if Run(before).requested.Some? {
        CommitFollowsStage(before);
        var i: nat :| Origin(before, i);
        OriginStays(ops, i);
      } else {
        ConsumedAreStagedInOrder(before);
        FillingStages(Run(before), ops[n - 1]);
        assert Origin(ops, n - 1);
      }
    }
  }

  // ---------------------------------------------------------------------------
  // Single operations
  // ---------------------------------------------------------------------------

  /** A request resolves exactly when it names one thing, and to that thing. */
  lemma TargetExactly(r: Request)
    ensures ResolveTarget(r).Success? <==>
      || (r.market.Some? && r.policy.None? && r.strategy.None? && r.exchange.None?)
      || (r.market.None? && r.policy.Some? && r.strategy.None? && r.exchange.None?)
      || (r.market.None? && r.policy.None? && r.strategy.Some? && r.exchange.None?)
      || (r.market.None? && r.policy.None? && r.strategy.None? && r.exchange.Some?)
    ensures ResolveTarget(r).Success? ==>
      && (r.market.Some? ==> ResolveTarget(r).value == MarketType(r.market.value))
      && (r.policy.Some? ==> ResolveTarget(r).value == ExecutionPolicy(r.policy.value))
      && (r.strategy.Some? ==> ResolveTarget(r).value == StrategyType(r.strategy.value))
      && (r.exchange.Some? ==> ResolveTarget(r).value == ExchangeType(r.exchange.value))
    ensures ResolveTarget(r).Failure? ==> ResolveTarget(r).error == NotExactlyOneTarget
  {
  }

  /** Staging needs an empty place, whatever is asked for; committing needs the staged target itself. */
  lemma RequestsExactly(s: State, r: Request)
    ensures var target := ResolveTarget(r);
      && (Staging(s, r) == Failure(AlreadyStaged) <==> s.requested.Some? || s.committed)
      && (Staging(s, r).Success? <==> s.requested.None? && !s.committed && target.Success?)
      && (Staging(s, r).Success? ==> Staging(s, r).value == State(Some(target.value), false, s.waiter))
      && (Committing(s, r) == Failure(NotStaged) <==> target.Success? && s.requested != Some(target.value))
      && (Committing(s, r).Success? <==> target.Success? && s.requested == Some(target.value))
      && (Committing(s, r).Success? ==>
            Committing(s, r).value.committed && Committing(s, r).value.requested == s.requested)
  {
    TargetExactly(r);
  }

  /** Where the waiter stands: blocked by an unset event, released by a commit, and gone once it resumes. */
  lemma WaiterExactly(s: State, op: Op)
    ensures Step(s, op).waiter ==
      (if op.Waits? && !s.committed then Blocked
       else if op.Commits? && Committing(s, op.request).Success? && s.waiter == Blocked then Released
       else if op.Resumes? && s.waiter == Released then NotWaiting
       else s.waiter)
  {
  }

  // ---------------------------------------------------------------------------
  // The waiting session
  // ---------------------------------------------------------------------------

  /**
   A session that finds the event set always gets its target. One that was blocked
   reads only when it resumes: it gets the last staged target, committed or not, and
   it fails if and only if by then everything ever staged has been consumed.
   */
  lemma WaitingFailsExactlyWhenAllIsConsumed(ops: seq<Op>)
    ensures Waiting(Run(ops)).0.Some? ==> Waiting(Run(ops)).0.value.Success?
    ensures Reading(Run(ops)).Failure? <==> Staged(ops) == Consumed(ops)
    ensures Reading(Run(ops)).Success? ==>
      Staged(ops) != [] && Reading(Run(ops)).value == Staged(ops)[|Staged(ops)| - 1]
  {
    ConsumedAreStagedInOrder(ops);
  }

  // Operation i released the waiter, and it has not resumed since.
  ghost predicate ReleasedBy(ops: seq<Op>, i: nat) {
    && i < |ops| && ops[i].Commits? && Run(ops[..i]).waiter.Blocked?
    && Committing(Run(ops[..i]), ops[i].request).Success?
  }

  lemma {:induction false} ReleaseHasCommit(ops: seq<Op>)
    requires Run(ops).waiter.Released?
    ensures exists i: nat :: ReleasedBy(ops, i)
  {
    var n := |ops|;
    var before := ops[..n - 1];
    if Run(before).waiter.Released? {
      ReleaseHasCommit(before);
      var i: nat :| ReleasedBy(before, i);
      assert before[..i] == ops[..i] && before[i] == ops[i];
      assert ReleasedBy(ops, i);
    } else {
      assert ReleasedBy(ops, n - 1);
    }
  }

  lemma {:induction false} StagedOnlyGrows(ops: seq<Op>, i: nat)
    requires i <= |ops|
    ensures Staged(ops[..i]) <= Staged(ops) && Consumed(ops[..i]) <= Consumed(ops)
    decreases |ops|
  {
    if i == |ops| {
      assert ops[..i] == ops;
    } else {
      var before := ops[..|ops| - 1];
      assert before[..i] == ops[..i];
      StagedOnlyGrows(before, i);
    }
  }

  /**
   So a resumption fails only after the very request that woke it was taken away: the
   commit that released the waiter left a target pending, and a later consume took it.
   */
  lemma FailedResumptionWasOvertaken(ops: seq<Op>)
    requires Run(ops).waiter.Released? && Reading(Run(ops)).Failure?
    ensures exists i: nat :: ReleasedBy(ops, i) && |Consumed(ops[..i + 1])| < |Consumed(ops)|
  {
    ReleaseHasCommit(ops);
    var i: nat :| ReleasedBy(ops, i);
    var front := ops[..i + 1];
    assert front[..i] == ops[..i];
    assert Run(front).requested.Some?;
    ConsumedAreStagedInOrder(front);
    WaitingFailsExactlyWhenAllIsConsumed(ops);
    StagedOnlyGrows(ops, i + 1);
  }

  lemma RunTo(ops: seq<Op>, k: nat)
    requires k < |ops|
    ensures Run(ops[..k + 1]) == Step(Run(ops[..k]), ops[k])
  {
    assert ops[..k + 1][..k] == ops[..k];
  }

  /**
   Both late readings happen: consumed before the waiter resumes, the request is gone;
   and if another one has been staged meanwhile, the waiter takes that one although
   nobody has committed it.
   */
  lemma LateWaiterMissesItsRequest(request: Request, other: Request)
    requires ResolveTarget(request).Success? && ResolveTarget(other).Success?
    ensures var s := Run([Stages(request), Waits, Commits(request), Consumes]);
      s.waiter.Released? && Reading(s) == Failure(NoTarget)
    ensures var s := Run([Stages(request), Waits, Commits(request), Consumes, Stages(other)]);
      s.waiter.Released? && Reading(s) == ResolveTarget(other) && !s.committed
  {
    var ops := [Stages(request), Waits, Commits(request), Consumes, Stages(other)];
    assert ops[..0] == [] && ops[..5] == ops && ops[..4] == [Stages(request), Waits, Commits(request), Consumes];
    RunTo(ops, 0);
    RunTo(ops, 1);
    RunTo(ops, 2);
    RunTo(ops, 3);
    RunTo(ops, 4);
  }
}
