/**
 Cadence scheduling: when each runtime context may run its next cycle, over whole
 runs of the runner's batch, mark and wait steps. Clock readings are inputs.
 */
module Scheduler {
  import opened Intervals
  import opened Prelude
  import opened RuntimeControl

  type Schedule = map<Context, real>

  function Due(s: Schedule, c: Context): real {
    if c in s then s[c] else 0.0
  }

  // The explicit override, or the context's own candle interval.
  function Cadence(c: Context, override: Option<real>): real {
    if override.Some? then override.value else c.interval.Seconds() as real
  }

  function Eligible(s: Schedule, contexts: seq<Context>, now: real): seq<Context> {
    if contexts == [] then []
    else (if Due(s, contexts[0]) <= now then [contexts[0]] else []) + Eligible(s, contexts[1..], now)
  }

  function NextDeadline(s: Schedule, contexts: seq<Context>, now: real): real {
    if contexts == [] then now
    else if |contexts| == 1 then Due(s, contexts[0])
    else
      var later := NextDeadline(s, contexts[1..], now);
      if Due(s, contexts[0]) <= later then Due(s, contexts[0]) else later
  }

  function Marked(s: Schedule, contexts: seq<Context>, at: real, override: Option<real>): Schedule {
    map c | c in s.Keys + (set x | x in contexts) :: if c in contexts then at + Cadence(c, override) else s[c]
  }

  function Pruned(s: Schedule, contexts: seq<Context>): Schedule {
    map c | c in s && c in contexts :: s[c]
  }

  lemma MarkedNone(s: Schedule, none: seq<Context>, at: real, override: Option<real>)
    requires none == []
    ensures Marked(s, none, at, override) == s
  {
  }

  lemma MarkedNext(s: Schedule, contexts: seq<Context>, i: nat, at: real, override: Option<real>)
    requires i < |contexts|
    ensures Marked(s, contexts[..i + 1], at, override)
      == Marked(s, contexts[..i], at, override)[contexts[i] := at + Cadence(contexts[i], override)]
  {
    var front, next, c := contexts[..i], contexts[..i + 1], contexts[i];
    assert next == front + [c];
    MarkedOneMore(s, front, next, c, at, override);
  }

  lemma MarkedOneMore(
      s: Schedule, front: seq<Context>, next: seq<Context>, c: Context, at: real, override: Option<real>)
    requires forall x :: x in next <==> x in front || x == c
    ensures Marked(s, next, at, override) == Marked(s, front, at, override)[c := at + Cadence(c, override)]
  {
    var before, after := Marked(s, front, at, override), Marked(s, next, at, override);
    assert after.Keys == before.Keys + {c};
  }

  class ContextCycleScheduler {
    var nextEligible: Schedule

    constructor ()
      ensures nextEligible == map[]
    {
      nextEligible := map[];
    }

    method MarkCompleted(contexts: seq<Context>, completedAt: real, override: Option<real>)
      modifies this
      ensures nextEligible == Marked(old(nextEligible), contexts, completedAt, override)
    {
      var i := 0;
      MarkedNone(nextEligible, contexts[..0], completedAt, override);
      while i < |contexts|
        invariant 0 <= i <= |contexts|
        invariant nextEligible == Marked(old(nextEligible), contexts[..i], completedAt, override)
      {
        nextEligible := nextEligible[contexts[i] := completedAt + Cadence(contexts[i], override)];
        MarkedNext(old(nextEligible), contexts, i, completedAt, override);
        i := i + 1;
      }
      assert contexts[..|contexts|] == contexts;
    }

    method Prune(contexts: seq<Context>)
      modifies this
      ensures nextEligible == Pruned(old(nextEligible), contexts)
    {
      var keys := nextEligible.Keys;
      while keys != {}
        invariant keys <= nextEligible.Keys <= old(nextEligible).Keys
        invariant forall c :: c in nextEligible ==> nextEligible[c] == old(nextEligible)[c]
        invariant forall c :: c in old(nextEligible) && c in contexts ==> c in nextEligible
        invariant forall c :: c in nextEligible ==> c in keys || c in contexts
        decreases keys
      {
        var c :| c in keys;
        keys := keys - {c};
        if c !in contexts {
          nextEligible := nextEligible - {c};
        }
      }
    }
  }

  // ---------------------------------------------------------------------------
  // One round of the runner
  // ---------------------------------------------------------------------------

  // A failed batch has started some of its contexts and completed no batch.
  datatype Ending = Finished(at: real) | Failed(started: nat)

  datatype Round = Round(contexts: seq<Context>, authorized: bool, now: real, ending: Ending)

  function Batch(r: Round, s: Schedule): seq<Context> {
    if r.authorized then Eligible(Pruned(s, r.contexts), r.contexts, r.now) else []
  }

  function Started(r: Round, s: Schedule): seq<Context> {
    var batch := Batch(r, s);
    if r.ending.Finished? || |batch| <= r.ending.started then batch else batch[..r.ending.started]
  }

  function After(r: Round, s: Schedule, override: Option<real>): Schedule {
    var owned := Pruned(s, r.contexts);
    if Batch(r, s) != [] && r.ending.Finished? then Marked(owned, Batch(r, s), r.ending.at, override) else owned
  }

  method RunRound(scheduler: ContextCycleScheduler, r: Round, override: Option<real>) returns (started: seq<Context>)
    modifies scheduler
    ensures started == Started(r, old(scheduler.nextEligible))
    ensures scheduler.nextEligible == After(r, old(scheduler.nextEligible), override)
  {
    scheduler.Prune(r.contexts);
    if !r.authorized {
      return [];
    }
    var eligible := Eligible(scheduler.nextEligible, r.contexts, r.now);
    if eligible == [] {
      return [];
    }
    match r.ending
    case Failed(n) =>
      started := if |eligible| <= n then eligible else eligible[..n];
    case Finished(at) =>
      started := eligible;
      scheduler.MarkCompleted(eligible, at, override);
  }

  function Schedules(rounds: seq<Round>, override: Option<real>): Schedule {
    if rounds == [] then map[]
    else After(rounds[|rounds| - 1], Schedules(rounds[..|rounds| - 1], override), override)
  }

  // ---------------------------------------------------------------------------
  // Selection and waiting
  // ---------------------------------------------------------------------------

  /** Batches are cut from the owned contexts in order: selecting commutes with concatenation. */
  lemma {:induction false} EligibleKeepsOrder(s: Schedule, a: seq<Context>, b: seq<Context>, now: real)
    ensures Eligible(s, a + b, now) == Eligible(s, a, now) + Eligible(s, b, now)
  {
    if a == [] {
      assert a + b == b;
    } else {
      assert (a + b)[1..] == a[1..] + b;
      EligibleKeepsOrder(s, a[1..], b, now);
    }
  }

  lemma {:induction false} EligibleAreDue(s: Schedule, contexts: seq<Context>, now: real, c: Context)
    ensures c in Eligible(s, contexts, now) <==> c in contexts && Due(s, c) <= now
  {
    if contexts != [] {
      EligibleAreDue(s, contexts[1..], now, c);
    }
  }

  /** The next deadline is exactly the first moment at which some owned context is due. */
  lemma {:induction false} DeadlineIsFirstDue(s: Schedule, contexts: seq<Context>, now: real, at: real)
    requires contexts != []
    ensures Eligible(s, contexts, at) != [] <==> NextDeadline(s, contexts, now) <= at
  {
    if |contexts| > 1 {
      DeadlineIsFirstDue(s, contexts[1..], now, at);
    } else {
      assert contexts[1..] == [];
    }
  }

  /**
   An idle round has a later deadline, and a wait that reaches it is followed by a
   round that starts something, as long as the same contexts stay owned.
   */
  lemma IdleRoundsDoNotRepeat(s: Schedule, idle: Round, next: Round, override: Option<real>)
    requires idle.authorized && next.authorized && idle.contexts == next.contexts && idle.contexts != []
    requires Batch(idle, s) == []
    ensures var deadline := NextDeadline(After(idle, s, override), idle.contexts, idle.now);
      idle.now < deadline && (Batch(next, After(idle, s, override)) != [] <==> deadline <= next.now)
  {
    var owned := Pruned(s, idle.contexts);
    assert Pruned(owned, idle.contexts) == owned;
    DeadlineIsFirstDue(owned, idle.contexts, idle.now, idle.now);
    DeadlineIsFirstDue(owned, idle.contexts, idle.now, next.now);
  }

  // ---------------------------------------------------------------------------
  // Whole runs
  // ---------------------------------------------------------------------------

  // When the context last completed a batch, if it has been owned ever since.
  function LastCompletion(rounds: seq<Round>, c: Context, override: Option<real>): Option<real> {
    if rounds == [] then None
    else
      var before, last := rounds[..|rounds| - 1], rounds[|rounds| - 1];
      if c !in last.contexts then None
      else if c in Batch(last, Schedules(before, override)) && last.ending.Finished? then Some(last.ending.at)
      else LastCompletion(before, c, override)
  }

  /** The schedule remembers exactly the last completion of each context still owned. */
  lemma {:induction false} ScheduleIsLastCompletion(rounds: seq<Round>, c: Context, override: Option<real>)
    ensures var s := Schedules(rounds, override);
      var last := LastCompletion(rounds, c, override);
      && (c in s <==> last.Some?)
      && (c in s ==> s[c] == last.value + Cadence(c, override))
  {
    if rounds != [] {
      var before, last := rounds[..|rounds| - 1], rounds[|rounds| - 1];
      var s := Schedules(before, override);
      ScheduleIsLastCompletion(before, c, override);
      EligibleAreDue(Pruned(s, last.contexts), last.contexts, last.now, c);
    }
  }

  /**
   Over every run: a context is in the next batch exactly when it is owned, the batch is
   authorized, and its cadence since its last completion has passed. A context that
   never completed while owned is due from clock instant zero.
   */
  lemma StartsExactlyWhenCadencePassed(rounds: seq<Round>, r: Round, c: Context, override: Option<real>)
    ensures var last := if c in r.contexts then LastCompletion(rounds, c, override) else None;
      c in Batch(r, Schedules(rounds, override)) <==>
        && r.authorized && c in r.contexts
        && (if last.Some? then last.value + Cadence(c, override) else 0.0) <= r.now
  {
    var s := Schedules(rounds, override);
    ScheduleIsLastCompletion(rounds, c, override);
    EligibleAreDue(Pruned(s, r.contexts), r.contexts, r.now, c);
  }

  // The clock never goes back.
  ghost predicate ClockAdvances(rounds: seq<Round>) {
    && (forall i :: 0 <= i < |rounds| && rounds[i].ending.Finished? ==> rounds[i].now <= rounds[i].ending.at)
    && (forall i, j :: 0 <= i < j < |rounds| && rounds[i].ending.Finished? ==> rounds[i].ending.at <= rounds[j].now)
  }

  // Round i completed a batch with the context in it, and it has been owned since.
  ghost predicate CompletedAndKept(rounds: seq<Round>, i: nat, c: Context, override: Option<real>) {
    && i < |rounds|
    && rounds[i].ending.Finished?
    && c in Batch(rounds[i], Schedules(rounds[..i], override))
    && forall k :: i < k < |rounds| ==> c in rounds[k].contexts
  }

  lemma LastCompletionStep(rounds: seq<Round>, c: Context, override: Option<real>)
    requires rounds != []
    ensures var before, last := rounds[..|rounds| - 1], rounds[|rounds| - 1];
      LastCompletion(rounds, c, override)
        == if c !in last.contexts then None
           else if c in Batch(last, Schedules(before, override)) && last.ending.Finished? then Some(last.ending.at)
           else LastCompletion(before, c, override)
  {
  }

  predicate AtLeast(time: Option<real>, bound: real) {
    time.Some? && bound <= time.value
  }

  lemma CompletesLast(rounds: seq<Round>, i: nat, c: Context, override: Option<real>)
    requires i < |rounds| && rounds[i].ending.Finished? && c in Batch(rounds[i], Schedules(rounds[..i], override))
    ensures LastCompletion(rounds[..i + 1], c, override) == Some(rounds[i].ending.at)
  {
    BatchIsOwned(rounds[i], Schedules(rounds[..i], override), c);
    assert rounds[..i + 1][..i] == rounds[..i];
    LastCompletionStep(rounds[..i + 1], c, override);
  }

  // The round owns the context and finishes nothing before the given instant.
  predicate Keeps(r: Round, c: Context, bound: real) {
    c in r.contexts && (r.ending.Finished? ==> bound <= r.ending.at)
  }

  ghost predicate AllKeep(rounds: seq<Round>, i: nat, k: nat, c: Context, bound: real)
    requires k <= |rounds|
  {
    forall j {:trigger Keeps(rounds[j], c, bound)} :: i < j < k ==> Keeps(rounds[j], c, bound)
  }

  lemma RoundKeepsBound(rounds: seq<Round>, k: nat, c: Context, override: Option<real>, bound: real)
    requires k < |rounds| && Keeps(rounds[k], c, bound)
    requires AtLeast(LastCompletion(rounds[..k], c, override), bound)
    ensures AtLeast(LastCompletion(rounds[..k + 1], c, override), bound)
  {
    assert rounds[..k + 1][..k] == rounds[..k];
    LastCompletionStep(rounds[..k + 1], c, override);
  }

  lemma {:induction false} CompletionStays(
      rounds: seq<Round>, i: nat, k: nat, c: Context, override: Option<real>, bound: real)
    requires i < k <= |rounds| && AtLeast(LastCompletion(rounds[..i + 1], c, override), bound)
    requires AllKeep(rounds, i, k, c, bound)
    ensures AtLeast(LastCompletion(rounds[..k], c, override), bound)
    decreases k
  {
    if k > i + 1 {
      CompletionStays(rounds, i, k - 1, c, override, bound);
      RoundKeepsBound(rounds, k - 1, c, override, bound);
    }
  }

  lemma LastCompletionIsNoEarlier(rounds: seq<Round>, i: nat, c: Context, override: Option<real>)
    requires ClockAdvances(rounds) && CompletedAndKept(rounds, i, c, override)
    ensures AtLeast(LastCompletion(rounds, c, override), rounds[i].ending.at)
  {
    var bound := rounds[i].ending.at;
    CompletesLast(rounds, i, c, override);
    LaterRoundsKeep(rounds, i, c, override);
    CompletionStays(rounds, i, |rounds|, c, override, bound);
    assert rounds[..|rounds|] == rounds;
  }

  lemma LaterRoundsKeep(rounds: seq<Round>, i: nat, c: Context, override: Option<real>)
    requires ClockAdvances(rounds) && CompletedAndKept(rounds, i, c, override)
    ensures AllKeep(rounds, i, |rounds|, c, rounds[i].ending.at)
  {
    forall j | i < j < |rounds|
      ensures Keeps(rounds[j], c, rounds[i].ending.at)
    {
      assert rounds[i].ending.at <= rounds[j].now;
    }
  }

  /** While a context stays owned it never starts before any earlier completion plus its cadence. */
  lemma NeverEarly(rounds: seq<Round>, i: nat, r: Round, c: Context, override: Option<real>)
    requires ClockAdvances(rounds) && CompletedAndKept(rounds, i, c, override)
    requires c in Batch(r, Schedules(rounds, override))
    ensures rounds[i].ending.at + Cadence(c, override) <= r.now
  {
    LastCompletionIsNoEarlier(rounds, i, c, override);
    StartsExactlyWhenCadencePassed(rounds, r, c, override);
  }

  lemma BatchIsOwned(r: Round, s: Schedule, c: Context)
    requires c in Batch(r, s)
    ensures c in r.contexts
  {
    EligibleAreDue(Pruned(s, r.contexts), r.contexts, r.now, c);
  }

  /**
   Cadence is kept per successful batch, not per context: after a batch fails every
   context in it is due again at once, those whose own cycle had finished included.
   */
  lemma FailedBatchIsDueAgain(rounds: seq<Round>, failed: Round, next: Round, c: Context, override: Option<real>)
    requires failed.ending.Failed? && c in Started(failed, Schedules(rounds, override))
    requires next.authorized && c in next.contexts && failed.now <= next.now
    ensures c in Batch(next, Schedules(rounds + [failed], override))
  {
    var s := Schedules(rounds, override);
    assert (rounds + [failed])[..|rounds|] == rounds;
    EligibleAreDue(Pruned(s, failed.contexts), failed.contexts, failed.now, c);
    EligibleAreDue(Pruned(Pruned(s, failed.contexts), next.contexts), next.contexts, next.now, c);
  }
}
