/**
 The recovery provider of a LIVE runtime with portfolio reconciliation: which calls
 it makes on the runtime control between its awaits, those of the services it hands
 over to included, and when that meets what the recovery loops rely on.
 */
module RecoveryProvider {
  import opened Prelude
  import opened RuntimeControl
  import opened RuntimeHealth
  import opened Recovery

  // Whether the streams and monitors of a portfolio became exact.
  datatype Readiness = Ready | NotReady(transient: bool)

  // The authoritative portfolio; stale says that a stream outside it has to be stopped.
  datatype Found =
    | Unsafe
    | Broken(transient: bool)
    | Portfolio(contexts: seq<Context>, stale: bool, readiness: Readiness)

  // The calls others make during each kind of await.
  datatype Interruptions = Interruptions(
    exit: seq<Operation>,
    clear: seq<Operation>,
    entry: seq<Operation>,
    reconcile: seq<Operation>,
    streams: seq<Operation>,
    close: seq<Operation>)

  // What operator-exit recovery does to the control before its next await.
  datatype ExitEvent =
    | Reserve
    | Reconcile(found: Found)
    | SendClose
    | RequireRecovery
    | Release

  datatype ExitStep = ExitStep(event: ExitEvent, o: Interruptions)

  // Recovery of an unfinished operator exit, in any number of rounds.
  datatype Exit =
    | NothingPending
    | Finished(steps: seq<ExitStep>)
    | StillPending(steps: seq<ExitStep>)
    | ExitRaised(transient: bool, steps: seq<ExitStep>)

  // Recovery of an unfinished entry; a resolved one may have a lifecycle to complete.
  datatype Entry =
    | NothingToRecover
    | Blocked(acknowledged: bool)
    | EntryRaised(transient: bool)
    | Completed
    | Resolved(lifecycle: bool)

  datatype Situation = Situation(
    exit: Exit,
    cleared: bool,
    entry: Entry,
    supportedMarket: bool,
    found: Found,
    entryAuthorized: bool)

  function Verdicts(transient: bool): Verdict {
    if transient then TransientFailure else NotRestored
  }

  function Raising(transient: bool): Verdict {
    if transient then TransientFailure else FatalFailure
  }

  function FailClosed(o: Interruptions): Segment {
    Segment([SetProtectionReady(false), ClearAuthorization, Pause], o.close)
  }

  const EMPTIED := [SetProtectionReady(true), SetRuntimeContexts([]), ClearAuthorization, SetProtectionReady(true)]

  // Stale streams are stopped and missing ones started.
  function Streaming(cs: seq<Context>, o: Interruptions): Segment {
    Segment(if cs == [] then [SetProtectionReady(true)] else [SetProtectionReady(|cs| == 1), SetRuntimeContexts(cs)],
            o.streams)
  }

  function Authorizing(cs: seq<Context>): seq<Operation> {
    [SetAuthorization(Authorization(cs, true)), SetProtectionReady(true)]
  }

  // What follows the portfolio read, which the given segments end with.
  function Adopting(f: Found, asked: seq<Segment>, o: Interruptions): Attempt {
    match f
    case Unsafe => Attempt(NotRestored, asked + [FailClosed(o)], [])
    case Broken(transient) => Attempt(Verdicts(transient), asked + [FailClosed(o)], [])
    case Portfolio(cs, stale, readiness) =>
      if cs == [] && !stale then Attempt(Restored, asked, EMPTIED)
      else if !DistinctSymbols(cs) then Attempt(NotRestored, asked + [FailClosed(o)], [])
      else
        var starting := asked + [Streaming(cs, o)];
        match readiness
        case NotReady(transient) => Attempt(Verdicts(transient), starting + [FailClosed(o)], [])
        case Ready => Attempt(Restored, starting, if cs == [] then EMPTIED else Authorizing(cs))
  }

  function AskingFor(before: seq<Operation>, o: Interruptions): Segment {
    Segment(before + [SetProtectionReady(false)], o.reconcile)
  }

  // One portfolio reconciliation, after calls made since the last await.
  function Reconciliation(f: Found, before: seq<Operation>, o: Interruptions): Attempt {
    Adopting(f, [AskingFor(before, o)], o)
  }

  function ExitCalls(e: ExitEvent): seq<Operation> {
    match e
    case Reserve => [Pause, BeginOperatorExit]
    case Reconcile(_) => []
    case SendClose => [SetProtectionReady(false)]
    case RequireRecovery => [Pause, SetProtectionReady(false)]
    case Release => [EndOperatorExit]
  }

  function StepSegments(e: ExitStep): seq<Segment> {
    if e.event.Reconcile? then
      var r := Reconciliation(e.event.found, [], e.o);
      r.segments + [Segment(r.last, e.o.exit)]
    else [Segment(ExitCalls(e.event), e.o.exit)]
  }

  function Rounds(steps: seq<ExitStep>): seq<Segment> {
    if steps == [] then [] else Rounds(steps[..|steps| - 1]) + StepSegments(steps[|steps| - 1])
  }

  function Steps(x: Exit): seq<ExitStep> {
    if x.NothingPending? then [] else x.steps
  }

  function Asking(o: Interruptions): Segment {
    Segment([], o.exit)
  }

  function Opened(o: Interruptions): seq<Segment> {
    [Asking(o)] + [Segment([Pause], o.exit)]
  }

  function ExitSegments(x: Exit, o: Interruptions): seq<Segment> {
    if x.NothingPending? then [Asking(o)]
    else Opened(o) + Rounds(x.steps) + [Asking(o)]
  }

  function Clearing(o: Interruptions): Segment {
    Segment([Pause, SetProtectionReady(false), SetRuntimeContexts([])], o.clear)
  }

  function EntrySegments(e: Entry, o: Interruptions): seq<Segment> {
    var looking := [Segment([], o.entry)];
    var recovering := looking + [Segment([SetProtectionReady(false)], o.entry)];
    match e
    case NothingToRecover => looking
    case Blocked(acknowledged) => if acknowledged then recovering else looking
    case EntryRaised(_) => looking
    case Completed => recovering
    case Resolved(lifecycle) =>
      if lifecycle then recovering + [Segment([SetProtectionReady(true)], o.entry)] else recovering
  }

  // What the recovery of the entry calls after its last await.
  function EntryCalls(e: Entry): seq<Operation> {
    if e.Completed? || (e.Resolved? && !e.lifecycle) then [SetProtectionReady(true)] else []
  }

  function ClearSegments(t: Situation, o: Interruptions): seq<Segment> {
    ExitSegments(t.exit, o) + [Clearing(o)]
  }

  function OpeningSegments(t: Situation, o: Interruptions): seq<Segment> {
    ClearSegments(t, o) + EntrySegments(t.entry, o)
  }

  // One pass of the provider, asked not to activate the runtime.
  function Script(t: Situation, o: Interruptions): Attempt {
    if t.exit.StillPending? then Attempt(NotRestored, ExitSegments(t.exit, o), [])
    else if t.exit.ExitRaised? then Attempt(Raising(t.exit.transient), ExitSegments(t.exit, o), [])
    else if !t.cleared then Attempt(NotRestored, ClearSegments(t, o), [])
    else if t.entry.Blocked? then Attempt(NotRestored, OpeningSegments(t, o), [])
    else if t.entry.EntryRaised? then Attempt(Raising(t.entry.transient), OpeningSegments(t, o), [])
    else if !t.supportedMarket then Attempt(NotRestored, OpeningSegments(t, o), EntryCalls(t.entry))
    else
      var r := Reconciliation(t.found, EntryCalls(t.entry), o);
      Attempt(if MayNotEnter(t) then NotRestored else r.verdict, OpeningSegments(t, o) + r.segments, r.last)
  }

  // A portfolio is owned only while the control still has its contexts after the wait for
  // its streams; otherwise its adoption fails, whatever became of streams and monitors.
  function Actual(f: Found, before: seq<Operation>, o: Interruptions, s: Control): Found {
    if f.Portfolio? && f.contexts != [] && DistinctSymbols(f.contexts) && f.readiness.Ready?
       && Through([AskingFor(before, o)] + [Streaming(f.contexts, o)], s).0.contexts != f.contexts
    then f.(readiness := NotReady(false))
    else f
  }

  function ActualStep(e: ExitStep, s: Control): ExitStep {
    if e.event.Reconcile? then e.(event := Reconcile(Actual(e.event.found, [], e.o, s))) else e
  }

  function ActualSteps(steps: seq<ExitStep>, s: Control): seq<ExitStep> {
    if steps == [] then []
    else
      var front := ActualSteps(steps[..|steps| - 1], s);
      front + [ActualStep(steps[|steps| - 1], Through(Rounds(front), s).0)]
  }

  function ActualExit(x: Exit, o: Interruptions, s: Control): Exit {
    if x.NothingPending? then x else x.(steps := ActualSteps(x.steps, Through(Opened(o), s).0))
  }

  // The situation as it turns out from the given control on.
  function Actually(t: Situation, o: Interruptions, s: Control): Situation {
    var finishing := t.(exit := ActualExit(t.exit, o, s));
    finishing.(found := Actual(t.found, EntryCalls(t.entry), o, Through(OpeningSegments(finishing, o), s).0))
  }

  /** One pass of the provider from the given control, asked not to activate the runtime. */
  function Prepare(t: Situation, o: Interruptions, s: Control): Attempt {
    Script(Actually(t, o, s), o)
  }

  // A prepared runtime is resumed at once; a refused call raises.
  function Resuming(p: Attempt, op: Operation, s: Control): Attempt {
    var answer := Apply(op, Attempted(p, s).0).0;
    Attempt(if answer.Success? then Restored else FatalFailure, p.segments, p.last + [op])
  }

  function ActivatingCall(t: Situation): Operation {
    if t.found.Portfolio? && t.found.contexts == [] then ResumeGlobalCycle else Resume
  }

  function ActivatingScript(t: Situation, o: Interruptions, s: Control): Attempt {
    var p := Script(t, o);
    if p.verdict.Restored? then Resuming(p, ActivatingCall(t), s) else p
  }

  /** The same pass, asked to activate. */
  function Activate(t: Situation, o: Interruptions, s: Control): Attempt {
    ActivatingScript(Actually(t, o, s), o, s)
  }

  // ---------------------------------------------------------------------------
  // When protection is verified
  // ---------------------------------------------------------------------------

  predicate Adopts(f: Found) {
    && f.Portfolio? && DistinctSymbols(f.contexts)
    && (f.readiness.Ready? || (f.contexts == [] && !f.stale))
  }

  // Streams are started or stopped with protection verified already.
  predicate VerifiesEarly(f: Found) {
    f.Portfolio? && (|f.contexts| == 1 || (f.contexts == [] && f.stale))
  }

  predicate StepVouches(e: ExitStep) {
    e.event.Reconcile? && (Adopts(e.event.found) || VerifiesEarly(e.event.found))
  }

  predicate StepsVouch(steps: seq<ExitStep>) {
    exists e :: e in steps && StepVouches(e)
  }

  predicate StepLeavesVerified(e: ExitStep, before: bool) {
    match e.event
    case Reserve => before
    case Release => before
    case Reconcile(f) => Adopts(f)
    case SendClose => false
    case RequireRecovery => false
  }

  // Whether the last of its calls on protection verified it.
  predicate LeftVerified(steps: seq<ExitStep>) {
    steps != [] && StepLeavesVerified(steps[|steps| - 1], LeftVerified(steps[..|steps| - 1]))
  }

  predicate Settled(t: Situation) {
    t.exit.NothingPending? || t.exit.Finished?
  }

  predicate EntrySettled(t: Situation) {
    Settled(t) && t.cleared && !t.entry.Blocked? && !t.entry.EntryRaised?
  }

  predicate EntryVerifies(e: Entry) {
    e.Completed? || e.Resolved?
  }

  // An empty portfolio without the authority to enter anything.
  predicate MayNotEnter(t: Situation) {
    Adopts(t.found) && t.found.contexts == [] && !t.entryAuthorized
  }

  /**
   The situations in which the pass awaits with protection verified, or verifies it for a
   failure: in the exit recovery, in the entry recovery, or for the portfolio it finds.
   */
  predicate Vouches(t: Situation) {
    || StepsVouch(Steps(t.exit))
    || (EntrySettled(t) && t.entry == Resolved(true))
    || (EntrySettled(t) && !t.supportedMarket && EntryVerifies(t.entry))
    || (EntrySettled(t) && t.supportedMarket && (VerifiesEarly(t.found) || MayNotEnter(t)))
  }

  // The situations that leave protection verified for a loop that goes on.
  predicate LeavesVerified(t: Situation) {
    match t.exit
    case StillPending(steps) => LeftVerified(steps)
    case ExitRaised(transient, steps) => transient && LeftVerified(steps)
    case _ =>
      EntrySettled(t) && (if t.supportedMarket then MayNotEnter(t) else EntryVerifies(t.entry))
  }

  predicate NobodyCalls(op: Operation, o: Interruptions) {
    op !in o.exit && op !in o.clear && op !in o.entry && op !in o.reconcile && op !in o.streams && op !in o.close
  }

  predicate NobodyCallsIn(op: Operation, steps: seq<ExitStep>) {
    forall e :: e in steps ==> NobodyCalls(op, e.o)
  }

  // No other caller, the steps of an operator exit included, makes the call.
  predicate NobodyElseCalls(op: Operation, t: Situation, o: Interruptions) {
    NobodyCalls(op, o) && NobodyCallsIn(op, Steps(t.exit))
  }

  predicate NobodyResumes(o: Interruptions) {
    NobodyCalls(Resume, o) && NobodyCalls(ResumeGlobalCycle, o)
  }

  predicate NobodyResumesIn(steps: seq<ExitStep>) {
    forall e :: e in steps ==> NobodyResumes(e.o)
  }

  predicate NobodyElseResumes(t: Situation, o: Interruptions) {
    NobodyResumes(o) && NobodyResumesIn(Steps(t.exit))
  }

  // Nobody resumes in the waits that the pass makes with protection verified.
  predicate Unresumed(t: Situation, o: Interruptions, verified: bool) {
    && (verified || StepsVouch(Steps(t.exit)) ==> NeverResumes(o.exit) && NobodyResumesIn(Steps(t.exit)))
    && (EntrySettled(t) && t.entry == Resolved(true) ==> NeverResumes(o.entry))
    && (EntrySettled(t) && t.supportedMarket && VerifiesEarly(t.found) ==> NeverResumes(o.streams))
  }

  predicate IsClosed(s: Control) {
    !s.active && !s.protectionReady
  }

  ghost predicate StaysClosed(segments: seq<Segment>, s: Control) {
    Careful(segments, s) && IsClosed(Through(segments, s).0)
  }

  // ---------------------------------------------------------------------------
  // Segments
  // ---------------------------------------------------------------------------

  lemma {:induction false} CarefulTogether(a: seq<Segment>, b: seq<Segment>, s: Control)
    ensures Through(a + b, s).0 == Through(b, Through(a, s).0).0
    ensures Careful(a + b, s) <==> Careful(a, s) && Careful(b, Through(a, s).0)
  {
    if a == [] {
      assert a + b == b;
    } else {
      assert (a + b)[0] == a[0] && (a + b)[1..] == a[1..] + b;
      CarefulTogether(a[1..], b, Run(a[0].others, Run(a[0].own, s)));
    }
  }

  lemma Alone(g: Segment, s: Control)
    ensures Through([g], s).0 == Run(g.others, Run(g.own, s))
    ensures Careful([g], s) <==> IsClosed(Run(g.own, s)) && SetProtectionReady(true) !in g.others
  {
    assert [g][1..] == [];
  }

  // Own calls that leave the runtime closed keep it closed through the await that follows.
  lemma ClosedSegment(g: Segment, s: Control)
    requires IsClosed(Run(g.own, s)) && SetProtectionReady(true) !in g.others
    ensures StaysClosed([g], s)
  {
    Alone(g, s);
    UnprotectedStaysPaused(g.others, Run(g.own, s));
  }

  lemma SilentSegment(g: Segment, s: Control)
    requires IsClosed(s) && SetProtectionReady(true) !in g.own && SetProtectionReady(true) !in g.others
    ensures StaysClosed([g], s)
  {
    UnprotectedStaysPaused(g.own, s);
    ClosedSegment(g, s);
  }

  lemma Extends(a: seq<Segment>, b: seq<Segment>, s: Control)
    requires StaysClosed(a, s)
    ensures Careful(a + b, s) <==> Careful(b, Through(a, s).0)
    ensures Through(a + b, s).0 == Through(b, Through(a, s).0).0
  {
    CarefulTogether(a, b, s);
  }

  lemma RunTwo(a: Operation, b: Operation, s: Control)
    ensures Run([a, b], s) == Apply(b, Apply(a, s).1).1
  {
    RunOne(a, s);
    assert [a, b][..1] == [a];
  }

  lemma RunThree(a: Operation, b: Operation, c: Operation, s: Control)
    ensures Run([a, b, c], s) == Apply(c, Apply(b, Apply(a, s).1).1).1
  {
    RunTwo(a, b, s);
    assert [a, b, c][..2] == [a, b];
  }

  lemma FailClosedCloses(o: Interruptions, s: Control)
    requires NobodyCalls(SetProtectionReady(true), o)
    ensures StaysClosed([FailClosed(o)], s)
  {
    RunThree(SetProtectionReady(false), ClearAuthorization, Pause, s);
    ClosedSegment(FailClosed(o), s);
  }

  lemma ClearingCloses(o: Interruptions, s: Control)
    requires NobodyCalls(SetProtectionReady(true), o)
    ensures StaysClosed([Clearing(o)], s)
  {
    RunThree(Pause, SetProtectionReady(false), SetRuntimeContexts([]), s);
    ClosedSegment(Clearing(o), s);
  }

  lemma EmptiedVerifies(s: Control)
    ensures var end := Run(EMPTIED, s); end.protectionReady && end.active == s.active
  {
    RunThree(SetProtectionReady(true), SetRuntimeContexts([]), ClearAuthorization, s);
    assert EMPTIED[..3] == [SetProtectionReady(true), SetRuntimeContexts([]), ClearAuthorization];
  }

  // ---------------------------------------------------------------------------
  // One reconciliation
  // ---------------------------------------------------------------------------

  predicate Before(before: seq<Operation>) {
    before == [] || before == [SetProtectionReady(true)]
  }

  lemma AskingCloses(before: seq<Operation>, o: Interruptions, s: Control)
    requires Before(before) && !s.active && NobodyCalls(SetProtectionReady(true), o)
    ensures StaysClosed([AskingFor(before, o)], s)
  {
    var own := before + [SetProtectionReady(false)];
    if before == [] {
      RunOne(SetProtectionReady(false), s);
    } else {
      assert own == [SetProtectionReady(true), SetProtectionReady(false)];
      RunTwo(SetProtectionReady(true), SetProtectionReady(false), s);
    }
    ClosedSegment(AskingFor(before, o), s);
  }

  lemma StreamingIsCareful(cs: seq<Context>, o: Interruptions, s: Control)
    requires IsClosed(s) && NobodyCalls(SetProtectionReady(true), o)
    ensures if |cs| > 1 then StaysClosed([Streaming(cs, o)], s) else !Careful([Streaming(cs, o)], s)
  {
    var g := Streaming(cs, o);
    if cs == [] {
      RunOne(SetProtectionReady(true), s);
    } else {
      RunTwo(SetProtectionReady(|cs| == 1), SetRuntimeContexts(cs), s);
    }
    Alone(g, s);
    if |cs| > 1 {
      ClosedSegment(g, s);
    }
  }

  lemma ThenFailsClosed(a: seq<Segment>, o: Interruptions, s: Control)
    requires NobodyCalls(SetProtectionReady(true), o)
    ensures Careful(a + [FailClosed(o)], s) <==> Careful(a, s)
    ensures IsClosed(Through(a + [FailClosed(o)], s).0)
  {
    CarefulTogether(a, [FailClosed(o)], s);
    FailClosedCloses(o, Through(a, s).0);
  }

  lemma ThenStreams(a: seq<Segment>, cs: seq<Context>, o: Interruptions, s: Control)
    requires StaysClosed(a, s) && NobodyCalls(SetProtectionReady(true), o)
    ensures if |cs| > 1 then StaysClosed(a + [Streaming(cs, o)], s) else !Careful(a + [Streaming(cs, o)], s)
  {
    CarefulTogether(a, [Streaming(cs, o)], s);
    StreamingIsCareful(cs, o, Through(a, s).0);
  }

  lemma AdoptingIsCareful(f: Found, asked: seq<Segment>, o: Interruptions, s: Control)
    requires StaysClosed(asked, s) && NobodyCalls(SetProtectionReady(true), o)
    ensures var r := Adopting(f, asked, o);
      if VerifiesEarly(f) then !Careful(r.segments, s) else StaysClosed(r.segments, s)
  {
    ThenFailsClosed(asked, o, s);
    if f.Portfolio? {
      ThenStreams(asked, f.contexts, o, s);
      ThenFailsClosed(asked + [Streaming(f.contexts, o)], o, s);
    }
  }

  lemma ReconciliationIsCareful(f: Found, before: seq<Operation>, o: Interruptions, s: Control)
    requires IsClosed(s) && Before(before) && NobodyCalls(SetProtectionReady(true), o)
    ensures var r := Reconciliation(f, before, o);
      if VerifiesEarly(f) then !Careful(r.segments, s) else StaysClosed(r.segments, s)
  {
    AskingCloses(before, o, s);
    AdoptingIsCareful(f, [AskingFor(before, o)], o, s);
  }

  // A portfolio is adopted exactly with protection verified; otherwise nothing follows the last await.
  lemma AdoptionVerifies(f: Found, before: seq<Operation>, o: Interruptions, s: Control)
    ensures var r := Reconciliation(f, before, o);
      && (r.verdict.Restored? <==> Adopts(f)) && !r.verdict.FatalFailure?
      && (if Adopts(f) then Run(r.last, s).protectionReady && Run(r.last, s).active == s.active else r.last == [])
  {
    EmptiedVerifies(s);
    if f.Portfolio? {
      RunTwo(SetAuthorization(Authorization(f.contexts, true)), SetProtectionReady(true), s);
    }
  }

  // A reconciliation that fails has closed the runtime, whatever state it was in.
  lemma FailedReconciliationCloses(f: Found, before: seq<Operation>, o: Interruptions, s: Control)
    requires !Adopts(f) && NobodyCalls(SetProtectionReady(true), o)
    ensures IsClosed(Through(Reconciliation(f, before, o).segments, s).0)
  {
    FailedAdoptionCloses(f, [AskingFor(before, o)], o, s);
  }

  lemma FailedAdoptionCloses(f: Found, asked: seq<Segment>, o: Interruptions, s: Control)
    requires !Adopts(f) && NobodyCalls(SetProtectionReady(true), o)
    ensures IsClosed(Through(Adopting(f, asked, o).segments, s).0)
  {
    ThenFailsClosed(asked, o, s);
    if f.Portfolio? {
      ThenFailsClosed(asked + [Streaming(f.contexts, o)], o, s);
    }
  }

  // ---------------------------------------------------------------------------
  // The operator exit
  // ---------------------------------------------------------------------------

  lemma StepIsCareful(e: ExitStep, s: Control)
    requires IsClosed(s) && NobodyCalls(SetProtectionReady(true), e.o)
    ensures if StepVouches(e) then !Careful(StepSegments(e), s) else StaysClosed(StepSegments(e), s)
  {
    if e.event.Reconcile? {
      var r, f := Reconciliation(e.event.found, [], e.o), e.event.found;
      var after := Segment(r.last, e.o.exit);
      ReconciliationIsCareful(f, [], e.o, s);
      CarefulTogether(r.segments, [after], s);
      var x := Through(r.segments, s).0;
      AdoptionVerifies(f, [], e.o, x);
      Alone(after, x);
      if !StepVouches(e) {
        SilentSegment(after, x);
      }
    } else {
      SilentSegment(StepSegments(e)[0], s);
    }
  }

  lemma {:induction false} RoundsAreCareful(steps: seq<ExitStep>, s: Control)
    requires IsClosed(s) && NobodyCallsIn(SetProtectionReady(true), steps)
    ensures if StepsVouch(steps) then !Careful(Rounds(steps), s) else StaysClosed(Rounds(steps), s)
  {
    if steps != [] {
      var front, last := steps[..|steps| - 1], steps[|steps| - 1];
      assert last in steps;
      assert forall e :: e in steps <==> e in front || e == last;
      RoundsAreCareful(front, s);
      CarefulTogether(Rounds(front), StepSegments(last), s);
      if !StepsVouch(front) {
        StepIsCareful(last, Through(Rounds(front), s).0);
      }
    }
  }

  lemma OpenedStaysClosed(o: Interruptions, s: Control)
    requires IsClosed(s) && NobodyCalls(SetProtectionReady(true), o)
    ensures StaysClosed([Asking(o)], s) && StaysClosed(Opened(o), s)
  {
    SilentSegment(Asking(o), s);
    Extends([Asking(o)], [Segment([Pause], o.exit)], s);
    SilentSegment(Segment([Pause], o.exit), Through([Asking(o)], s).0);
  }

  lemma ExitIsCareful(x: Exit, o: Interruptions, s: Control)
    requires IsClosed(s) && NobodyCalls(SetProtectionReady(true), o)
    requires NobodyCallsIn(SetProtectionReady(true), Steps(x))
    ensures if StepsVouch(Steps(x)) then !Careful(ExitSegments(x, o), s) else StaysClosed(ExitSegments(x, o), s)
  {
    OpenedStaysClosed(o, s);
    if !x.NothingPending? {
      Extends(Opened(o), Rounds(x.steps), s);
      RoundsAreCareful(x.steps, Through(Opened(o), s).0);
      CarefulTogether(Opened(o) + Rounds(x.steps), [Asking(o)], s);
      if !StepsVouch(x.steps) {
        SilentSegment(Asking(o), Through(Opened(o) + Rounds(x.steps), s).0);
      }
    }
  }

  // ---------------------------------------------------------------------------
  // The unfinished entry
  // ---------------------------------------------------------------------------

  lemma EntryIsCareful(e: Entry, o: Interruptions, s: Control)
    requires IsClosed(s) && NobodyCalls(SetProtectionReady(true), o)
    ensures if e == Resolved(true) then !Careful(EntrySegments(e, o), s) else StaysClosed(EntrySegments(e, o), s)
  {
    var looking, ensuring := Segment([], o.entry), Segment([SetProtectionReady(false)], o.entry);
    var completing := Segment([SetProtectionReady(true)], o.entry);
    SilentSegment(looking, s);
    Extends([looking], [ensuring], s);
    SilentSegment(ensuring, Through([looking], s).0);
    Extends([looking] + [ensuring], [completing], s);
    var resolved := Through([looking] + [ensuring], s).0;
    RunOne(SetProtectionReady(true), resolved);
    Alone(completing, resolved);
  }

  lemma OpeningIsCareful(t: Situation, o: Interruptions, s: Control)
    requires IsClosed(s) && NobodyElseCalls(SetProtectionReady(true), t, o) && !StepsVouch(Steps(t.exit))
    ensures StaysClosed(ExitSegments(t.exit, o), s) && StaysClosed(ClearSegments(t, o), s)
    ensures var opening := OpeningSegments(t, o);
      if t.entry == Resolved(true) then !Careful(opening, s) else StaysClosed(opening, s)
  {
    ExitIsCareful(t.exit, o, s);
    Extends(ExitSegments(t.exit, o), [Clearing(o)], s);
    ClearingCloses(o, Through(ExitSegments(t.exit, o), s).0);
    Extends(ClearSegments(t, o), EntrySegments(t.entry, o), s);
    EntryIsCareful(t.entry, o, Through(ClearSegments(t, o), s).0);
  }

  // ---------------------------------------------------------------------------
  // Preparing
  // ---------------------------------------------------------------------------

  lemma VouchingExitIsCareless(t: Situation, o: Interruptions, s: Control)
    requires IsClosed(s) && NobodyElseCalls(SetProtectionReady(true), t, o) && StepsVouch(Steps(t.exit))
    ensures !Careful(Script(t, o).segments, s)
  {
    ExitIsCareful(t.exit, o, s);
    var opening, entry := ExitSegments(t.exit, o), EntrySegments(t.entry, o);
    CarefulTogether(opening, [Clearing(o)], s);
    CarefulTogether(ClearSegments(t, o), entry, s);
    CarefulTogether(OpeningSegments(t, o), Reconciliation(t.found, EntryCalls(t.entry), o).segments, s);
  }

  lemma ReconcilingIsDutiful(t: Situation, o: Interruptions, s: Control)
    requires IsClosed(s) && NobodyElseCalls(SetProtectionReady(true), t, o) && !StepsVouch(Steps(t.exit))
    requires EntrySettled(t) && t.supportedMarket
    ensures Dutiful(Script(t, o), s) <==> !Vouches(t)
  {
    OpeningIsCareful(t, o, s);
    var opening, before := OpeningSegments(t, o), EntryCalls(t.entry);
    var r := Reconciliation(t.found, before, o);
    CarefulTogether(opening, r.segments, s);
    if t.entry != Resolved(true) {
      ReconciliationIsCareful(t.found, before, o, Through(opening, s).0);
      AdoptionVerifies(t.found, before, o, Through(opening + r.segments, s).0);
    }
  }

  lemma ScriptIsDutiful(t: Situation, o: Interruptions, s: Control)
    requires IsClosed(s) && NobodyElseCalls(SetProtectionReady(true), t, o)
    ensures Dutiful(Script(t, o), s) <==> !Vouches(t)
  {
    if StepsVouch(Steps(t.exit)) {
      VouchingExitIsCareless(t, o, s);
    } else if EntrySettled(t) && t.supportedMarket {
      ReconcilingIsDutiful(t, o, s);
    } else {
      OpeningIsCareful(t, o, s);
      RunOne(SetProtectionReady(true), Through(OpeningSegments(t, o), s).0);
    }
  }

  // What turns out differently is a portfolio, never who calls what.
  lemma ActualStepsNext(steps: seq<ExitStep>, s: Control) returns (turned: ExitStep)
    requires steps != []
    ensures turned.o == steps[|steps| - 1].o
    ensures ActualSteps(steps, s) == ActualSteps(steps[..|steps| - 1], s) + [turned]
  {
    var front := ActualSteps(steps[..|steps| - 1], s);
    turned := ActualStep(steps[|steps| - 1], Through(Rounds(front), s).0);
  }

  lemma {:induction false} ActualStepsKeepOthers(steps: seq<ExitStep>, s: Control)
    ensures SameOthers(steps, ActualSteps(steps, s))
  {
    if steps != [] {
      var n := |steps| - 1;
      var turned := ActualStepsNext(steps, s);
      ActualStepsKeepOthers(steps[..n], s);
      OneMoreKeepsOthers(steps[..n], ActualSteps(steps[..n], s), steps[n], turned);
      assert steps == steps[..n] + [steps[n]];
    }
  }

  ghost predicate SameOthers(steps: seq<ExitStep>, actual: seq<ExitStep>) {
    |actual| == |steps| && forall i :: 0 <= i < |steps| ==> actual[i].o == steps[i].o
  }

  lemma OneMoreKeepsOthers(steps: seq<ExitStep>, actual: seq<ExitStep>, e: ExitStep, turned: ExitStep)
    requires SameOthers(steps, actual) && turned.o == e.o
    ensures SameOthers(steps + [e], actual + [turned])
  {
  }

  lemma SameOthersCallAlike(steps: seq<ExitStep>, actual: seq<ExitStep>)
    requires SameOthers(steps, actual)
    ensures forall op :: NobodyCallsIn(op, steps) ==> NobodyCallsIn(op, actual)
    ensures NobodyResumesIn(steps) ==> NobodyResumesIn(actual)
  {
    forall e | e in actual
      ensures exists d :: d in steps && d.o == e.o
    {
      var i :| 0 <= i < |actual| && actual[i] == e;
      assert steps[i] in steps;
    }
  }

  lemma ActuallyKeepsOthers(t: Situation, o: Interruptions, s: Control)
    ensures forall op :: NobodyElseCalls(op, t, o) ==> NobodyElseCalls(op, Actually(t, o, s), o)
    ensures NobodyElseResumes(t, o) ==> NobodyElseResumes(Actually(t, o, s), o)
  {
    var actual := Actually(t, o, s);
    if !t.exit.NothingPending? {
      ActualStepsKeepOthers(t.exit.steps, Through(Opened(o), s).0);
    }
    SameOthersCallAlike(Steps(t.exit), Steps(actual.exit));
  }

  /**
   From every closed control, a recovery pass through this provider meets its obligations
   if and only if neither the exit nor the entry it finishes, nor the portfolio it finds,
   makes it verify protection before an await or for a failure.
   */
  lemma PreparingIsDutifulUnlessItVouches(t: Situation, o: Interruptions, s: Control)
    requires IsClosed(s) && NobodyElseCalls(SetProtectionReady(true), t, o)
    ensures Dutiful(Prepare(t, o, s), s) <==> !Vouches(Actually(t, o, s))
  {
    ActuallyKeepsOthers(t, o, s);
    ScriptIsDutiful(Actually(t, o, s), o, s);
  }

  // ---------------------------------------------------------------------------
  // Recovery through it
  // ---------------------------------------------------------------------------

  lemma {:induction false} GuardedTogether(a: seq<Segment>, b: seq<Segment>, s: Control)
    requires Guarded(a, s) && Guarded(b, Through(a, s).0)
    ensures Guarded(a + b, s)
  {
    if a == [] {
      assert a + b == b;
    } else {
      assert (a + b)[0] == a[0] && (a + b)[1..] == a[1..] + b;
      GuardedTogether(a[1..], b, Run(a[0].others, Run(a[0].own, s)));
    }
  }

  // A wait that leaves the runtime paused, after others that did.
  ghost predicate Shut(segments: seq<Segment>, s: Control) {
    Guarded(segments, s) && !Through(segments, s).0.active
  }

  lemma ThenShut(a: seq<Segment>, b: seq<Segment>, s: Control)
    requires Shut(a, s) && Shut(b, Through(a, s).0)
    ensures Shut(a + b, s)
  {
    GuardedTogether(a, b, s);
    CarefulTogether(a, b, s);
  }

  lemma ClosedIsShut(segments: seq<Segment>, s: Control)
    requires StaysClosed(segments, s)
    ensures Shut(segments, s)
  {
    CarefulIsGuarded(segments, s);
  }

  lemma FoundIsRestful(f: Found, asked: seq<Segment>, o: Interruptions)
    requires Restful(asked) && NobodyResumes(o)
    ensures var r := Adopting(f, asked, o); Restful(r.segments) && NeverResumes(r.last)
  {
    assert Restful([FailClosed(o)]);
    if f.Portfolio? {
      assert Restful([Streaming(f.contexts, o)]);
    }
  }

  lemma StepIsRestful(e: ExitStep)
    requires NobodyResumes(e.o)
    ensures Restful(StepSegments(e))
  {
    if e.event.Reconcile? {
      assert Restful([AskingFor([], e.o)]);
      FoundIsRestful(e.event.found, [AskingFor([], e.o)], e.o);
      assert Restful([Segment(Reconciliation(e.event.found, [], e.o).last, e.o.exit)]);
    }
  }

  lemma {:induction false} RoundsAreRestful(steps: seq<ExitStep>)
    requires NobodyResumesIn(steps)
    ensures Restful(Rounds(steps))
  {
    if steps != [] {
      assert steps[|steps| - 1] in steps && forall e :: e in steps[..|steps| - 1] ==> e in steps;
      RoundsAreRestful(steps[..|steps| - 1]);
      StepIsRestful(steps[|steps| - 1]);
    }
  }

  lemma ExitIsRestful(x: Exit, o: Interruptions)
    requires NeverResumes(o.exit) && NobodyResumesIn(Steps(x))
    ensures Restful(ExitSegments(x, o))
  {
    assert Restful([Asking(o)]) && Restful([Segment([Pause], o.exit)]);
    RoundsAreRestful(Steps(x));
  }

  lemma EntryIsRestful(e: Entry, o: Interruptions)
    requires NeverResumes(o.entry)
    ensures Restful(EntrySegments(e, o))
  {
    assert Restful([Segment([], o.entry)]) && Restful([Segment([SetProtectionReady(false)], o.entry)]);
    assert Restful([Segment([SetProtectionReady(true)], o.entry)]);
  }

  lemma ExitIsShut(x: Exit, o: Interruptions, s: Control)
    requires !s.active && NobodyCalls(SetProtectionReady(true), o) && NobodyCallsIn(SetProtectionReady(true), Steps(x))
    requires s.protectionReady || StepsVouch(Steps(x)) ==> NeverResumes(o.exit) && NobodyResumesIn(Steps(x))
    ensures Shut(ExitSegments(x, o), s)
  {
    if s.protectionReady || StepsVouch(Steps(x)) {
      ExitIsRestful(x, o);
      RestfulIsGuarded(ExitSegments(x, o), s);
    } else {
      ExitIsCareful(x, o, s);
      ClosedIsShut(ExitSegments(x, o), s);
    }
  }

  lemma EntryIsShut(e: Entry, o: Interruptions, s: Control)
    requires IsClosed(s) && NobodyCalls(SetProtectionReady(true), o)
    requires e == Resolved(true) ==> NeverResumes(o.entry)
    ensures Shut(EntrySegments(e, o), s)
  {
    if e == Resolved(true) {
      EntryIsRestful(e, o);
      RestfulIsGuarded(EntrySegments(e, o), s);
    } else {
      EntryIsCareful(e, o, s);
      ClosedIsShut(EntrySegments(e, o), s);
    }
  }

  lemma ClearIsShut(t: Situation, o: Interruptions, s: Control)
    requires !s.active && NobodyElseCalls(SetProtectionReady(true), t, o) && Unresumed(t, o, s.protectionReady)
    ensures Shut(ExitSegments(t.exit, o), s) && Shut(ClearSegments(t, o), s)
    ensures IsClosed(Through(ClearSegments(t, o), s).0)
  {
    var finished := Through(ExitSegments(t.exit, o), s).0;
    ExitIsShut(t.exit, o, s);
    ClearingCloses(o, finished);
    ClosedIsShut([Clearing(o)], finished);
    ThenShut(ExitSegments(t.exit, o), [Clearing(o)], s);
    CarefulTogether(ExitSegments(t.exit, o), [Clearing(o)], s);
  }

  lemma OpeningIsShut(t: Situation, o: Interruptions, s: Control)
    requires !s.active && NobodyElseCalls(SetProtectionReady(true), t, o) && Unresumed(t, o, s.protectionReady)
    requires Settled(t) && t.cleared
    ensures Shut(OpeningSegments(t, o), s)
  {
    ClearIsShut(t, o, s);
    EntryIsShut(t.entry, o, Through(ClearSegments(t, o), s).0);
    ThenShut(ClearSegments(t, o), EntrySegments(t.entry, o), s);
  }

  lemma AdoptingIsShut(f: Found, asked: seq<Segment>, o: Interruptions, s: Control)
    requires StaysClosed(asked, s) && NobodyCalls(SetProtectionReady(true), o)
    requires VerifiesEarly(f) ==> NeverResumes(o.streams)
    ensures Shut(Adopting(f, asked, o).segments, s)
  {
    ClosedIsShut(asked, s);
    if VerifiesEarly(f) {
      var g := [Streaming(f.contexts, o)];
      RestfulIsGuarded(g, Through(asked, s).0);
      ThenShut(asked, g, s);
      FailClosedCloses(o, Through(asked + g, s).0);
      ClosedIsShut([FailClosed(o)], Through(asked + g, s).0);
      ThenShut(asked + g, [FailClosed(o)], s);
      assert DistinctSymbols(f.contexts);
    } else {
      AdoptingIsCareful(f, asked, o, s);
      ClosedIsShut(Adopting(f, asked, o).segments, s);
    }
  }

  lemma ScriptNeverResumesLast(t: Situation, o: Interruptions)
    ensures NeverResumes(Script(t, o).last)
  {
  }

  lemma ReconcilingIsShut(t: Situation, o: Interruptions, s: Control)
    requires !s.active && NobodyElseCalls(SetProtectionReady(true), t, o) && Unresumed(t, o, s.protectionReady)
    requires EntrySettled(t) && t.supportedMarket
    ensures Shut(Script(t, o).segments, s)
  {
    var opening, before := OpeningSegments(t, o), EntryCalls(t.entry);
    var x := Through(opening, s).0;
    OpeningIsShut(t, o, s);
    AskingCloses(before, o, x);
    AdoptingIsShut(t.found, [AskingFor(before, o)], o, x);
    ThenShut(opening, Reconciliation(t.found, before, o).segments, s);
  }

  lemma ScriptIsShut(t: Situation, o: Interruptions, s: Control)
    requires !s.active && NobodyElseCalls(SetProtectionReady(true), t, o) && Unresumed(t, o, s.protectionReady)
    ensures Guarded(Script(t, o).segments, s) && !Attempted(Script(t, o), s).0.active
  {
    ClearIsShut(t, o, s);
    if EntrySettled(t) && t.supportedMarket {
      ReconcilingIsShut(t, o, s);
    } else if Settled(t) && t.cleared {
      OpeningIsShut(t, o, s);
    }
    ScriptNeverResumesLast(t, o);
    OnlyResumingActivates(Script(t, o).last, Through(Script(t, o).segments, s).0);
  }

  lemma ScriptIsRestful(t: Situation, o: Interruptions)
    requires NobodyElseResumes(t, o)
    ensures Restful(Script(t, o).segments) && NeverResumes(Script(t, o).last)
  {
    ExitIsRestful(t.exit, o);
    EntryIsRestful(t.entry, o);
    assert Restful([Clearing(o)]);
    var before := EntryCalls(t.entry);
    assert Restful([AskingFor(before, o)]);
    FoundIsRestful(t.found, [AskingFor(before, o)], o);
    ScriptNeverResumesLast(t, o);
  }

  // One call of the provider, in a pass whose other answers are given.
  datatype Preparation = Preparation(t: Situation, o: Interruptions, pass: Pass)

  function PassOf(c: Preparation, s: Control): Pass {
    c.pass.(attempt := Prepare(c.t, c.o, Run(c.pass.meanwhile, s)))
  }

  // The passes that such calls make, from the control each of them meets.
  function Preparations(calls: seq<Preparation>, s: Control): seq<Pass> {
    if calls == [] then []
    else
      var p := PassOf(calls[0], s);
      [p] + Preparations(calls[1..], Tried(p, s).1)
  }

  // Nobody resumes; or nobody else vouches, and nobody resumes in the waits with protection verified.
  ghost predicate Attended(c: Preparation, s: Control) {
    var meanwhile := c.pass.meanwhile;
    var waited := Run(meanwhile, s);
    || (NeverResumes(meanwhile) && NobodyElseResumes(c.t, c.o))
    || (&& SetProtectionReady(true) !in meanwhile && NobodyElseCalls(SetProtectionReady(true), c.t, c.o)
        && (s.protectionReady ==> NeverResumes(meanwhile))
        && Unresumed(Actually(c.t, c.o, waited), c.o, waited.protectionReady))
  }

  ghost predicate AllAttended(calls: seq<Preparation>, s: Control) {
    if calls == [] then true
    else
      var p := PassOf(calls[0], s);
      && Attended(calls[0], s)
      && (Tried(p, s).0.Again? && !p.stopsAfterwards ==> AllAttended(calls[1..], Tried(p, s).1))
  }

  lemma AttendedIsWatched(c: Preparation, s: Control)
    requires !s.active && Attended(c, s)
    ensures WatchedPass(PassOf(c, s), s)
  {
    var p := PassOf(c, s);
    var waited := Run(p.meanwhile, s);
    ActuallyKeepsOthers(c.t, c.o, waited);
    var t := Actually(c.t, c.o, waited);
    if NeverResumes(p.meanwhile) && NobodyElseResumes(c.t, c.o) {
      ScriptIsRestful(t, c.o);
      UndisturbedPassIsWatched(p, s);
    } else {
      HarmlessStaysPaused(p.meanwhile, s);
      ScriptIsShut(t, c.o, waited);
    }
  }

  lemma {:induction false} AllAttendedIsWatched(calls: seq<Preparation>, s: Control)
    requires !s.active && AllAttended(calls, s)
    ensures Watched(Preparations(calls, s), s)
    decreases |calls|
  {
    if calls != [] {
      var p := PassOf(calls[0], s);
      AttendedIsWatched(calls[0], s);
      PassIsFailClosed(p, s);
      var passes := Preparations(calls, s);
      assert passes[0] == p && passes[1..] == Preparations(calls[1..], Tried(p, s).1);
      if Tried(p, s).0.Again? && !p.stopsAfterwards {
        AllAttendedIsWatched(calls[1..], Tried(p, s).1);
      }
    }
  }

  /**
   Recovery through this provider is fail-closed, whatever the passes find, as long as
   nobody resumes in the waits they make with protection verified: a pass that does not
   vouch has none.
   */
  lemma RecoveryThroughProviderIsFailClosed(calls: seq<Preparation>, s: Control)
    requires !s.active && AllAttended(calls, s)
    ensures EndsClosed(Preparations(calls, s), Recovering(Preparations(calls, s), s))
  {
    AllAttendedIsWatched(calls, s);
    RecoveryIsFailClosed(Preparations(calls, s), s);
  }

  // A pass that does not vouch, called on a closed runtime, may be resumed at any time.
  lemma SafePassIsAttended(c: Preparation, s: Control)
    requires IsClosed(s) && !Vouches(Actually(c.t, c.o, Run(c.pass.meanwhile, s)))
    requires SetProtectionReady(true) !in c.pass.meanwhile && NobodyElseCalls(SetProtectionReady(true), c.t, c.o)
    ensures Attended(c, s)
  {
    UnprotectedStaysPaused(c.pass.meanwhile, s);
  }

  // A pass that finds one position while somebody resumes during the wait for its stream.
  function SingleFound(c: Context, readiness: Readiness): Situation {
    Situation(NothingPending, true, NothingToRecover, true, Portfolio([c], false, readiness), true)
  }

  const RESUMED := Interruptions([], [], [], [], [ResumeGlobalCycle], [])

  /**
   The obligation is not idle: with a single position, a resume during the wait for its
   stream reopens the runtime in the middle of the recovery, whatever the pass comes to.
   */
  lemma ResumeDuringStreamsReopens(c: Context, readiness: Readiness, outage: Health, s: Control)
    requires IsClosed(s) && Reservation(s).None? && !IsReseedPending(outage)
    ensures NobodyElseCalls(SetProtectionReady(true), SingleFound(c, readiness), RESUMED)
    ensures var a := Prepare(SingleFound(c, readiness), RESUMED, s);
      var p := Pass(Says(outage), [], false, a, Says(outage), Says(outage), false);
      !AllPaused(Recovering([p], s).2)
  {
    var a := Prepare(SingleFound(c, readiness), RESUMED, s);
    var actual := Actually(SingleFound(c, readiness), RESUMED, s);
    assert actual == SingleFound(c, actual.found.readiness);
    SinglePass(c, actual.found.readiness, s);
    OnePass(Pass(Says(outage), [], false, a, Says(outage), Says(outage), false), s);
  }

  // What a single pass lets happen, the loop lets happen.
  lemma OnePass(p: Pass, s: Control)
    requires p.meanwhile == [] && CallsProvider(p, s) && !AllPaused(Attempted(p.attempt, s).1)
    ensures !AllPaused(Recovering([p], s).2)
  {
    assert Visited([], s) == [s] && Run([], s) == s;
    var open :| open in Attempted(p.attempt, s).1 && open.active;
    assert open in Tried(p, s).2;
    assert [p][1..] == [];
  }

  lemma SinglePass(c: Context, readiness: Readiness, s: Control)
    requires IsClosed(s) && Reservation(s).None?
    ensures !AllPaused(Attempted(Script(SingleFound(c, readiness), RESUMED), s).1)
  {
    var t, o := SingleFound(c, readiness), RESUMED;
    var opening, asked := OpeningSegments(t, o), AskingFor([], o);
    var rest := if readiness.Ready? then [] else [FailClosed(o)];
    assert Reconciliation(t.found, [], o).segments == [asked] + ([Streaming([c], o)] + rest);
    assert opening + ([asked] + ([Streaming([c], o)] + rest)) == (opening + [asked]) + ([Streaming([c], o)] + rest);
    OpeningKeepsReservation(t, o, s);
    AwaitsResumed(opening + [asked], c, rest, s);
  }

  predicate Free(s: Control) {
    IsClosed(s) && Reservation(s).None?
  }

  // An undisturbed segment, after others that left the runtime free.
  lemma StaysFree(a: seq<Segment>, g: Segment, s: Control)
    requires Free(Through(a, s).0) && g.others == [] && Free(Run(g.own, Through(a, s).0))
    ensures Free(Through(a + [g], s).0)
  {
    CarefulTogether(a, [g], s);
    Alone(g, Through(a, s).0);
  }

  lemma OpeningKeepsReservation(t: Situation, o: Interruptions, s: Control)
    requires Free(s) && o == RESUMED && t.exit == NothingPending && t.entry == NothingToRecover
    ensures Free(Through(OpeningSegments(t, o) + [AskingFor([], o)], s).0)
  {
    StaysFree([], Asking(o), s);
    assert [] + [Asking(o)] == [Asking(o)] == ExitSegments(t.exit, o);
    var x := Through([Asking(o)], s).0;
    RunThree(Pause, SetProtectionReady(false), SetRuntimeContexts([]), x);
    StaysFree([Asking(o)], Clearing(o), s);
    StaysFree(ClearSegments(t, o), Segment([], o.entry), s);
    assert EntrySegments(t.entry, o) == [Segment([], o.entry)];
    assert [] + [SetProtectionReady(false)] == [SetProtectionReady(false)];
    RunOne(SetProtectionReady(false), Through(OpeningSegments(t, o), s).0);
    StaysFree(OpeningSegments(t, o), AskingFor([], o), s);
  }

  lemma {:induction false} AwaitsResumed(opening: seq<Segment>, c: Context, rest: seq<Segment>, s: Control)
    requires Free(Through(opening, s).0)
    ensures !AllPaused(Through(opening + ([Streaming([c], RESUMED)] + rest), s).1)
    decreases |opening|
  {
    var g := Streaming([c], RESUMED);
    if opening == [] {
      assert [] + ([g] + rest) == [g] + rest;
      RunTwo(SetProtectionReady(true), SetRuntimeContexts([c]), s);
      var left := Run(g.own, s);
      RunOne(ResumeGlobalCycle, left);
      assert Visited(g.others, left)[1].active;
      assert Visited(g.others, left)[1] in Through([g] + rest, s).1;
    } else {
      var all := opening + ([g] + rest);
      assert all[0] == opening[0] && all[1..] == opening[1..] + ([g] + rest);
      AwaitsResumed(opening[1..], c, rest, Run(opening[0].others, Run(opening[0].own, s)));
    }
  }

  // ---------------------------------------------------------------------------
  // Activating
  // ---------------------------------------------------------------------------

  lemma ProtectionFollowsCall(op: Operation, s: Control)
    ensures op != SetProtectionReady(true) && Apply(op, s).1.protectionReady ==> s.protectionReady
    ensures op != SetProtectionReady(false) && s.protectionReady ==> Apply(op, s).1.protectionReady
  {
  }

  // Only calls on protection change it.
  lemma {:induction false} ProtectionFollows(ops: seq<Operation>, s: Control)
    ensures SetProtectionReady(true) !in ops && Run(ops, s).protectionReady ==> s.protectionReady
    ensures SetProtectionReady(false) !in ops && s.protectionReady ==> Run(ops, s).protectionReady
  {
    if ops != [] {
      var front := ops[..|ops| - 1];
      assert forall op :: op in front ==> op in ops;
      assert ops[|ops| - 1] in ops;
      ProtectionFollows(front, s);
      ProtectionFollowsCall(ops[|ops| - 1], Run(front, s));
    }
  }

  predicate ReservedIsPaused(s: Control) {
    s.active ==> Reservation(s).None?
  }

  lemma CallKeepsReservedPaused(op: Operation, s: Control)
    requires ReservedIsPaused(s)
    ensures ReservedIsPaused(Apply(op, s).1)
  {
  }

  lemma {:induction false} RunKeepsReservedPaused(ops: seq<Operation>, s: Control)
    requires ReservedIsPaused(s)
    ensures ReservedIsPaused(Run(ops, s))
  {
    if ops != [] {
      RunKeepsReservedPaused(ops[..|ops| - 1], s);
      CallKeepsReservedPaused(ops[|ops| - 1], Run(ops[..|ops| - 1], s));
    }
  }

  lemma {:induction false} ThroughKeepsReservedPaused(segments: seq<Segment>, s: Control)
    requires ReservedIsPaused(s)
    ensures ReservedIsPaused(Through(segments, s).0)
  {
    if segments != [] {
      RunKeepsReservedPaused(segments[0].own, s);
      RunKeepsReservedPaused(segments[0].others, Run(segments[0].own, s));
      ThroughKeepsReservedPaused(segments[1..], Run(segments[0].others, Run(segments[0].own, s)));
    }
  }

  lemma SegmentProtection(g: Segment, s: Control)
    requires SetProtectionReady(true) !in g.others
    ensures Through([g], s).0.protectionReady ==> Run(g.own, s).protectionReady
    ensures SetProtectionReady(false) !in g.others && Run(g.own, s).protectionReady ==>
      Through([g], s).0.protectionReady
  {
    Alone(g, s);
    ProtectionFollows(g.others, Run(g.own, s));
  }

  lemma ReconcilingProtection(f: Found, o: Interruptions, s: Control)
    requires NobodyCalls(SetProtectionReady(true), o)
    ensures var after := Through(StepSegments(ExitStep(Reconcile(f), o)), s).0.protectionReady;
      && (after ==> Adopts(f))
      && (NobodyCalls(SetProtectionReady(false), o) && Adopts(f) ==> after)
  {
    var r := Reconciliation(f, [], o);
    var x, g := Through(r.segments, s).0, Segment(r.last, o.exit);
    CarefulTogether(r.segments, [g], s);
    SegmentProtection(g, x);
    AdoptionVerifies(f, [], o, x);
    if !Adopts(f) {
      FailedReconciliationCloses(f, [], o, s);
    }
  }

  lemma ExitCallsProtection(e: ExitEvent, s: Control)
    requires !e.Reconcile?
    ensures Run(ExitCalls(e), s).protectionReady == ((e.Reserve? || e.Release?) && s.protectionReady)
  {
    RunTwo(Pause, BeginOperatorExit, s);
    RunTwo(Pause, SetProtectionReady(false), s);
    RunOne(SetProtectionReady(false), s);
    RunOne(EndOperatorExit, s);
  }

  lemma StepProtection(e: ExitStep, s: Control)
    requires NobodyCalls(SetProtectionReady(true), e.o)
    ensures var after := Through(StepSegments(e), s).0.protectionReady;
      && (after ==> StepLeavesVerified(e, s.protectionReady))
      && (NobodyCalls(SetProtectionReady(false), e.o) && StepLeavesVerified(e, s.protectionReady) ==> after)
  {
    if e.event.Reconcile? {
      ReconcilingProtection(e.event.found, e.o, s);
    } else {
      ExitCallsProtection(e.event, s);
      SegmentProtection(Segment(ExitCalls(e.event), e.o.exit), s);
    }
  }

  lemma {:induction false} RoundsProtection(steps: seq<ExitStep>, s: Control)
    requires !s.protectionReady && NobodyCallsIn(SetProtectionReady(true), steps)
    ensures var after := Through(Rounds(steps), s).0.protectionReady;
      && (after ==> LeftVerified(steps))
      && (NobodyCallsIn(SetProtectionReady(false), steps) && LeftVerified(steps) ==> after)
  {
    if steps != [] {
      var front, last := steps[..|steps| - 1], steps[|steps| - 1];
      assert last in steps && forall e :: e in front ==> e in steps;
      RoundsProtection(front, s);
      CarefulTogether(Rounds(front), StepSegments(last), s);
      StepProtection(last, Through(Rounds(front), s).0);
    }
  }

  lemma ExitProtection(x: Exit, o: Interruptions, s: Control)
    requires IsClosed(s) && NobodyCalls(SetProtectionReady(true), o)
    requires NobodyCallsIn(SetProtectionReady(true), Steps(x))
    ensures var after := Through(ExitSegments(x, o), s).0.protectionReady;
      && (after ==> LeftVerified(Steps(x)))
      && (NobodyCalls(SetProtectionReady(false), o) && NobodyCallsIn(SetProtectionReady(false), Steps(x)) ==>
            LeftVerified(Steps(x)) ==> after)
  {
    OpenedStaysClosed(o, s);
    if !x.NothingPending? {
      var front, rounds := Opened(o), Rounds(x.steps);
      CarefulTogether(front, rounds, s);
      CarefulTogether(front + rounds, [Asking(o)], s);
      RoundsProtection(x.steps, Through(front, s).0);
      SegmentProtection(Asking(o), Through(front + rounds, s).0);
    }
  }

  // How a pass that does not reopen ends without leaving the runtime closed. Where it ends
  // in or after waits with protection verified, the calls made there decide.
  predicate LeavesOpen(t: Situation, o: Interruptions, s: Control) {
    if !Settled(t) then
      var end := Through(ExitSegments(t.exit, o), s).0;
      end.active || (end.protectionReady && (t.exit.ExitRaised? ==> t.exit.transient))
    else if !EntrySettled(t) then false
    else if t.supportedMarket then MayNotEnter(t)
    else if t.entry == Resolved(true) then
      var end := Through(OpeningSegments(t, o), s).0;
      end.active || end.protectionReady
    else EntryVerifies(t.entry)
  }

  lemma UnsettledExitIsDutiful(t: Situation, o: Interruptions, s: Control)
    requires !Settled(t)
    ensures OperationallyDutiful(ActivatingScript(t, o, s), s) <==> !LeavesOpen(t, o, s)
  {
  }

  // Whatever the exit recovery did, the rest of the pass starts from a closed runtime.
  lemma ClearedIsClosed(t: Situation, o: Interruptions, s: Control)
    requires NobodyCalls(SetProtectionReady(true), o)
    ensures IsClosed(Through(ClearSegments(t, o), s).0)
    ensures t.entry != Resolved(true) ==> IsClosed(Through(OpeningSegments(t, o), s).0)
  {
    CarefulTogether(ExitSegments(t.exit, o), [Clearing(o)], s);
    ClearingCloses(o, Through(ExitSegments(t.exit, o), s).0);
    CarefulTogether(ClearSegments(t, o), EntrySegments(t.entry, o), s);
    EntryIsCareful(t.entry, o, Through(ClearSegments(t, o), s).0);
  }

  lemma UnsupportedIsDutiful(t: Situation, o: Interruptions, s: Control)
    requires NobodyElseCalls(SetProtectionReady(true), t, o) && Settled(t) && !(EntrySettled(t) && t.supportedMarket)
    ensures OperationallyDutiful(ActivatingScript(t, o, s), s) <==> !LeavesOpen(t, o, s)
  {
    ClearedIsClosed(t, o, s);
    RunOne(SetProtectionReady(true), Through(OpeningSegments(t, o), s).0);
  }

  // A resume call succeeds exactly when it leaves the runtime active.
  lemma ResumingSucceedsWhenActive(op: Operation, s: Control)
    requires (op == Resume || op == ResumeGlobalCycle) && ReservedIsPaused(s)
    ensures Apply(op, s).0.Success? <==> Apply(op, s).1.active
  {
  }

  lemma ResumingIsDutiful(p: Attempt, op: Operation, s: Control)
    requires (op == Resume || op == ResumeGlobalCycle) && ReservedIsPaused(s)
    ensures OperationallyDutiful(Resuming(p, op, s), s)
  {
    var x, last := Through(p.segments, s).0, p.last + [op];
    ThroughKeepsReservedPaused(p.segments, s);
    RunKeepsReservedPaused(p.last, x);
    ResumingSucceedsWhenActive(op, Run(p.last, x));
    assert last[..|last| - 1] == p.last;
  }

  lemma ClosedPassIsDutiful(p: Attempt, s: Control)
    requires IsClosed(Through(p.segments, s).0) && p.last == []
    ensures OperationallyDutiful(p, s)
  {
  }

  lemma VerifiedPassIsNot(p: Attempt, s: Control)
    requires Attempted(p, s).0.protectionReady && !p.verdict.Restored? && !p.verdict.FatalFailure?
    ensures !OperationallyDutiful(p, s)
  {
  }

  lemma SupportedIsDutiful(t: Situation, o: Interruptions, s: Control)
    requires IsClosed(s) && NobodyElseCalls(SetProtectionReady(true), t, o) && EntrySettled(t) && t.supportedMarket
    ensures OperationallyDutiful(ActivatingScript(t, o, s), s) <==> !LeavesOpen(t, o, s)
  {
    var p, r := Script(t, o), Reconciliation(t.found, EntryCalls(t.entry), o);
    AdoptionVerifies(t.found, EntryCalls(t.entry), o, Through(p.segments, s).0);
    if !Adopts(t.found) {
      CarefulTogether(OpeningSegments(t, o), r.segments, s);
      FailedReconciliationCloses(t.found, EntryCalls(t.entry), o, Through(OpeningSegments(t, o), s).0);
      ClosedPassIsDutiful(p, s);
    } else if MayNotEnter(t) {
      VerifiedPassIsNot(p, s);
    } else {
      ResumingIsDutiful(p, ActivatingCall(t), s);
    }
  }

  /**
   Asked to activate from a closed control, the provider meets its obligations if and only
   if the pass does not leave the runtime open for a loop that goes on.
   */
  lemma ActivatingIsDutifulUnlessItLeavesOpen(t: Situation, o: Interruptions, s: Control)
    requires IsClosed(s) && NobodyElseCalls(SetProtectionReady(true), t, o)
    ensures OperationallyDutiful(Activate(t, o, s), s) <==> !LeavesOpen(Actually(t, o, s), o, s)
  {
    var actual := Actually(t, o, s);
    ActuallyKeepsOthers(t, o, s);
    if !Settled(actual) {
      UnsettledExitIsDutiful(actual, o, s);
    } else if EntrySettled(actual) && actual.supportedMarket {
      SupportedIsDutiful(actual, o, s);
    } else {
      UnsupportedIsDutiful(actual, o, s);
    }
  }

  lemma CompletingIsVerified(t: Situation, o: Interruptions, s: Control)
    requires NobodyCalls(SetProtectionReady(false), o) && NobodyCalls(SetProtectionReady(true), o)
    requires t.entry == Resolved(true)
    ensures Through(OpeningSegments(t, o), s).0.protectionReady
  {
    var completing := Segment([SetProtectionReady(true)], o.entry);
    var front := ClearSegments(t, o) + [Segment([], o.entry), Segment([SetProtectionReady(false)], o.entry)];
    assert OpeningSegments(t, o) == front + [completing];
    CarefulTogether(front, [completing], s);
    RunOne(SetProtectionReady(true), Through(front, s).0);
    SegmentProtection(completing, Through(front, s).0);
  }

  /**
   What that comes to: a pass that leaves the runtime open has verified protection last,
   after an exit still pending, an entry finished on an unsupported market or an empty
   portfolio without authority to enter; or somebody resumed while an exit it could not
   settle had protection verified. Unless others withdraw the protection, each of the
   former does leave it open.
   */
  lemma LeavingOpenMeansLeavingVerified(t: Situation, o: Interruptions, s: Control)
    requires IsClosed(s) && NobodyElseCalls(SetProtectionReady(true), t, o)
    ensures LeavesOpen(t, o, s) ==>
      LeavesVerified(t) || (!Settled(t) && StepsVouch(Steps(t.exit)) && !NobodyElseResumes(t, o))
    ensures LeavesVerified(t) && NobodyElseCalls(SetProtectionReady(false), t, o) ==> LeavesOpen(t, o, s)
  {
    ExitProtection(t.exit, o, s);
    if !StepsVouch(Steps(t.exit)) {
      ExitIsCareful(t.exit, o, s);
    } else if NobodyElseResumes(t, o) {
      ExitIsRestful(t.exit, o);
      RestfulIsGuarded(ExitSegments(t.exit, o), s);
    }
    if t.entry == Resolved(true) && NobodyCalls(SetProtectionReady(false), o) {
      CompletingIsVerified(t, o, s);
    }
  }

  datatype Call = Call(t: Situation, o: Interruptions, meanwhile: seq<Operation>, stopsAfterwards: bool)

  // The passes that a sequence of such calls makes.
  function Activations(calls: seq<Call>, s: Control): seq<OperationalPass> {
    if calls == [] then []
    else
      var a := Activate(calls[0].t, calls[0].o, s);
      [OperationalPass(a, calls[0].meanwhile, calls[0].stopsAfterwards)]
      + Activations(calls[1..], Run(calls[0].meanwhile, Attempted(a, s).0))
  }

  // No pass leaves the runtime open, and nobody else vouches for protection.
  ghost predicate NoneLeavesOpen(calls: seq<Call>, s: Control) {
    if calls == [] then true
    else
      var c := calls[0];
      var left := Attempted(Activate(c.t, c.o, s), s).0;
      && NobodyElseCalls(SetProtectionReady(true), c.t, c.o) && SetProtectionReady(true) !in c.meanwhile
      && !LeavesOpen(Actually(c.t, c.o, s), c.o, s)
      && (IsClosed(left) ==> NoneLeavesOpen(calls[1..], Run(c.meanwhile, left)))
  }

  lemma {:induction false} ActivationsAreDutiful(calls: seq<Call>, s: Control)
    requires IsClosed(s) && NoneLeavesOpen(calls, s)
    ensures OperatesDutifully(Activations(calls, s), s)
  {
    if calls != [] {
      var c := calls[0];
      ActivatingIsDutifulUnlessItLeavesOpen(c.t, c.o, s);
      var a := Activate(c.t, c.o, s);
      var left := Attempted(a, s).0;
      assert Activations(calls, s)[1..] == Activations(calls[1..], Run(c.meanwhile, left));
      if IsClosed(left) {
        UnprotectedStaysPaused(c.meanwhile, left);
        ActivationsAreDutiful(calls[1..], Run(c.meanwhile, left));
      }
    }
  }

  /** Operational recovery through this provider reports success exactly when it reopens. */
  lemma OperationThroughProviderIsFailClosed(calls: seq<Call>, s: Control, attempt: nat)
    requires IsClosed(s) && NoneLeavesOpen(calls, s)
    ensures var (end, final, _) := Operating(Activations(calls, s), s, attempt);
      end == Restarted <==> final.active
  {
    ActivationsAreDutiful(calls, s);
    OperationalIsFailClosed(Activations(calls, s), s, attempt);
  }

  // ---------------------------------------------------------------------------
  // What a restored pass leaves
  // ---------------------------------------------------------------------------

  lemma AuthorizingIsExact(cs: seq<Context>, s: Control)
    requires s.contexts == cs
    ensures var end := Run(Authorizing(cs), s);
      Exact(end) && end.contexts == cs && end.protectionReady
  {
    RunTwo(SetAuthorization(Authorization(cs, true)), SetProtectionReady(true), s);
  }

  lemma EmptiedIsEmpty(s: Control)
    ensures var end := Run(EMPTIED, s); end.contexts == [] && end.authorization.None? && end.protectionReady
  {
    RunThree(SetProtectionReady(true), SetRuntimeContexts([]), ClearAuthorization, s);
    assert EMPTIED[..3] == [SetProtectionReady(true), SetRuntimeContexts([]), ClearAuthorization];
  }

  lemma AdoptedIsExact(f: Found, before: seq<Operation>, o: Interruptions, s: Control)
    requires Adopts(Actual(f, before, o, s))
    ensures var r := Reconciliation(Actual(f, before, o, s), before, o);
      var end := Attempted(r, s).0;
      && end.protectionReady && end.contexts == f.contexts
      && (if f.contexts == [] then end.authorization.None? else Exact(end))
  {
    var r := Reconciliation(Actual(f, before, o, s), before, o);
    var x := Through(r.segments, s).0;
    if f.contexts == [] {
      EmptiedIsEmpty(x);
    } else {
      AuthorizingIsExact(f.contexts, x);
    }
  }

  lemma RestoredScriptAdopts(t: Situation, o: Interruptions, s: Control)
    requires Script(t, o).verdict.Restored?
    ensures Adopts(t.found) && (t.found.contexts == [] ==> t.entryAuthorized)
    ensures var r := Reconciliation(t.found, EntryCalls(t.entry), o);
      Attempted(Script(t, o), s).0 == Attempted(r, Through(OpeningSegments(t, o), s).0).0
  {
    var r := Reconciliation(t.found, EntryCalls(t.entry), o);
    RestoredScript(t, o);
    CarefulTogether(OpeningSegments(t, o), r.segments, s);
  }

  lemma RestoredScript(t: Situation, o: Interruptions)
    requires Script(t, o).verdict.Restored?
    ensures Adopts(t.found) && (t.found.contexts == [] ==> t.entryAuthorized)
    ensures var r := Reconciliation(t.found, EntryCalls(t.entry), o);
      Script(t, o).segments == OpeningSegments(t, o) + r.segments && Script(t, o).last == r.last
  {
  }

  /**
   A pass that reports success leaves exactly the portfolio it found, exactly authorized
   and with protection verified, or nothing at all; whatever others did during its waits.
   */
  lemma RestoredPassIsExact(t: Situation, o: Interruptions, s: Control)
    requires Prepare(t, o, s).verdict.Restored?
    ensures var end := Attempted(Prepare(t, o, s), s).0;
      && t.found.Portfolio? && end.protectionReady && end.contexts == t.found.contexts
      && (if end.contexts == [] then end.authorization.None? && t.entryAuthorized else Exact(end))
  {
    var actual := Actually(t, o, s);
    RestoredScriptAdopts(actual, o, s);
    AdoptedIsExact(t.found, EntryCalls(t.entry), o, Through(OpeningSegments(actual, o), s).0);
  }

  // ---------------------------------------------------------------------------
  // What a pass reports
  // ---------------------------------------------------------------------------

  // A portfolio that is kept through its reconciliation.
  predicate IsKept(f: Found) {
    && f.Portfolio?
    && (forall i, j :: 0 <= i < j < |f.contexts| ==> f.contexts[i].symbol != f.contexts[j].symbol)
    && (f.readiness == Ready || (f.contexts == [] && !f.stale))
  }

  predicate FailsTransiently(f: Found) {
    || f == Broken(true)
    || (f.Portfolio? && (f.contexts != [] || f.stale) && DistinctSymbols(f.contexts) && f.readiness == NotReady(true))
  }

  /**
   What a pass reports, exactly: success when nothing pending is left before the portfolio
   and the portfolio is kept and empty only with authority; a transient failure when one of
   its calls failed transiently; a fatal one when finishing an exit or an entry raised.
   */
  lemma VerdictExactly(t: Situation, o: Interruptions)
    ensures var verdict := Script(t, o).verdict;
      var clear := Settled(t) && t.cleared && !t.entry.Blocked? && !t.entry.EntryRaised?;
      && (verdict == Restored <==>
            clear && t.supportedMarket && IsKept(t.found) && (t.found.contexts == [] ==> t.entryAuthorized))
      && (verdict == FatalFailure <==>
            || (t.exit.ExitRaised? && !t.exit.transient)
            || (Settled(t) && t.cleared && t.entry == EntryRaised(false)))
      && (verdict == TransientFailure <==>
            || (t.exit.ExitRaised? && t.exit.transient)
            || (Settled(t) && t.cleared && t.entry == EntryRaised(true))
            || (clear && t.supportedMarket && FailsTransiently(t.found)))
  {
    if t.found.Portfolio? {
      assert DistinctSymbols(t.found.contexts) <==>
        forall i, j :: 0 <= i < j < |t.found.contexts| ==> t.found.contexts[i].symbol != t.found.contexts[j].symbol;
    }
  }

  /** A portfolio is displaced exactly when the control no longer has its contexts after the wait for its streams. */
  lemma ActualExactly(f: Found, before: seq<Operation>, o: Interruptions, s: Control)
    ensures var displaced := IsKept(f) && f.contexts != []
        && Through([AskingFor(before, o)] + [Streaming(f.contexts, o)], s).0.contexts != f.contexts;
      Actual(f, before, o, s) == if displaced then Portfolio(f.contexts, f.stale, NotReady(false)) else f
  {
  }

  lemma ActivatingExactly(t: Situation, x: Control)
    requires t.found.Portfolio? && x.contexts == t.found.contexts && x.protectionReady && ReservedIsPaused(x)
    requires x.contexts != [] ==> Exact(x)
    ensures var (r, next) := Apply(ActivatingCall(t), x);
      && (r.Success? <==> Reservation(x).None?)
      && next == if Reservation(x).None? then x.(active := true) else x
  {
  }

  /**
   Asked to activate, a pass that restores the runtime succeeds exactly when nothing is
   reserved, and then activates what it restored and changes nothing else; otherwise it
   raises and leaves it paused.
   */
  lemma ActivationSucceedsUnlessReserved(t: Situation, o: Interruptions, s: Control)
    requires IsClosed(s) && Prepare(t, o, s).verdict.Restored?
    ensures var left, a := Attempted(Prepare(t, o, s), s).0, Activate(t, o, s);
      && a.verdict == (if Reservation(left).None? then Restored else FatalFailure)
      && Attempted(a, s).0 == (if Reservation(left).None? then left.(active := true) else left)
  {
    var p, actual := Prepare(t, o, s), Actually(t, o, s);
    var x := Through(p.segments, s).0;
    RestoredPassIsExact(t, o, s);
    ThroughKeepsReservedPaused(p.segments, s);
    RunKeepsReservedPaused(p.last, x);
    ActivatingExactly(actual, Run(p.last, x));
    var last := p.last + [ActivatingCall(actual)];
    assert last[..|last| - 1] == p.last;
  }
}
