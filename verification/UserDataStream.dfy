/**
 Freshness of the private Futures user-data stream: a reconnect loop that may call
 its state ready only on the strength of an authoritative REST read. Stream events,
 REST answers and interruptions come from a tape.
 */
module UserDataStream {
  datatype Status = Starting | Ready | Resyncing | Stale

  // Symbols are already upper-case.
  datatype Position = Position(symbol: string, quantity: real)

  datatype Rest = Answers(positions: seq<Position>) | Fails(transient: bool)

  // Each event carries the REST answer it would get if it asked for one.
  datatype Event =
    | Connected(rest: Rest)
    | AccountUpdate(positions: seq<Position>, rest: Rest)
    | OrderOrAlgoUpdate

  datatype Interruption = StreamEnds | StreamBreaks(transient: bool) | ServiceCloses

  datatype Session = Session(events: seq<Event>, ending: Interruption)

  datatype Startup = Pending | Started | Refused

  // `positions` are the symbols with a REST-seeded open position, `streamed` those with
  // an open position in the stream.
  datatype State = State(
    status: Status,
    cache: Status,
    positions: set<string>,
    streamed: set<string>,
    seeded: bool,
    startup: Startup,
    attempt: nat,
    outage: bool)

  const NEW := State(Starting, Starting, {}, {}, false, Pending, 0, false)

  // ---------------------------------------------------------------------------
  // The cache
  // ---------------------------------------------------------------------------

  function Open(positions: seq<Position>): set<string> {
    set p | p in positions && p.quantity != 0.0 :: p.symbol
  }

  function Seed(s: State, positions: seq<Position>): State {
    s.(cache := Ready, positions := Open(positions), streamed := Open(positions))
  }

  // The stream update laid over the cache, and the symbols REST has not confirmed.
  function Overlay(s: State, updates: seq<Position>): (State, set<string>) {
    if updates == [] then (s, {})
    else
      var (before, unseeded) := Overlay(s, updates[..|updates| - 1]);
      var p := updates[|updates| - 1];
      if p.quantity == 0.0 then
        (before.(positions := before.positions - {p.symbol}, streamed := before.streamed - {p.symbol}), unseeded)
      else
        (before.(streamed := before.streamed + {p.symbol}),
         if p.symbol in before.positions then unseeded else unseeded + {p.symbol})
  }

  function Applied(s: State, updates: seq<Position>): (State, set<string>) {
    var (next, unseeded) := Overlay(s, updates);
    (next.(cache := if unseeded != {} then Resyncing else Ready), unseeded)
  }

  // ---------------------------------------------------------------------------
  // Events and interruptions
  // ---------------------------------------------------------------------------

  datatype Step = Continue | Raise(transient: bool)

  // The step, the state after it and the state at each await inside it.
  function Handle(e: Event, s: State): (Step, State, seq<State>) {
    match e
    case Connected(rest) => Synchronize(rest, s)
    case AccountUpdate(updates, rest) =>
      var (applied, unseeded) := Applied(s, updates);
      if unseeded == {} then (Continue, applied, [applied]) else Reseed(rest, unseeded, applied)
    case OrderOrAlgoUpdate =>
      var applied := s.(cache := Ready);
      (Continue, applied, [])
  }

  function Synchronize(rest: Rest, s: State): (Step, State, seq<State>) {
    match rest
    case Fails(transient) =>
      var stale := s.(cache := Stale);
      (Raise(transient), stale.(startup := if s.startup.Pending? then Refused else s.startup), [s, stale])
    case Answers(positions) =>
      var seed := Seed(s, positions);
      (Continue,
       seed.(seeded := true, status := Ready, outage := false, attempt := 0,
             startup := if s.startup.Pending? then Started else s.startup),
       [s, seed])
  }

  function Reseed(rest: Rest, unseeded: set<string>, s: State): (Step, State, seq<State>) {
    var asking := s.(status := Resyncing);
    match rest
    case Fails(transient) => (Raise(transient), asking, [asking])
    case Answers(positions) =>
      var seed := Seed(asking, positions);
      if unseeded - seed.positions != {} then (Raise(false), seed.(cache := Resyncing), [asking, seed])
      else
        var ready := seed.(status := Ready);
        (Continue, ready, [asking, seed, ready])
  }

  // Handling an interruption: the loop goes on, or startup has failed for good.
  function Interrupted(transient: bool, s: State): (bool, State) {
    if !s.seeded && !transient then
      (false, s.(cache := Stale, status := Stale, startup := if s.startup.Pending? then Refused else s.startup))
    else
      (true, s.(cache := Resyncing, status := Resyncing, attempt := s.attempt + 1, outage := true))
  }

  function Events(events: seq<Event>, s: State): (Step, State) {
    if events == [] then (Continue, s)
    else
      var (step, next, _) := Handle(events[0], s);
      if step.Raise? then (step, next) else Events(events[1..], next)
  }

  function Consumed(session: Session, s: State): (bool, State) {
    var (step, after) := Events(session.events, s);
    if step.Raise? then Interrupted(step.transient, after)
    else match session.ending
      case StreamEnds => Interrupted(false, after)
      case StreamBreaks(transient) => Interrupted(transient, after)
      case ServiceCloses => (false, after)
  }

  function Forever(sessions: seq<Session>, s: State): (bool, State) {
    if sessions == [] then (true, s)
    else
      var (alive, next) := Consumed(sessions[0], s);
      if alive then Forever(sessions[1..], next) else (alive, next)
  }

  // ---------------------------------------------------------------------------
  // The service
  // ---------------------------------------------------------------------------

  // A future may be settled once; settling it again is an error.
  class Initialization {
    var outcome: Startup

    constructor ()
      ensures outcome == Pending
    {
      outcome := Pending;
    }

    method SetResult()
      requires outcome.Pending?
      modifies this
      ensures outcome == Started
    {
      outcome := Started;
    }

    method SetException()
      requires outcome.Pending?
      modifies this
      ensures outcome == Refused
    {
      outcome := Refused;
    }
  }

  class LiveFuturesUserDataService {
    var status: Status
    var cache: Status
    var positions: set<string>
    var streamed: set<string>
    var seeded: bool
    var attempt: nat
    var outage: bool
    const initialization: Initialization
    ghost var awaited: seq<State>

    ghost function Abstract(): State
      reads this, initialization
    {
      State(status, cache, positions, streamed, seeded, initialization.outcome, attempt, outage)
    }

    constructor ()
      ensures fresh(initialization) && Abstract() == NEW && awaited == []
    {
      status, cache, positions, streamed := Starting, Starting, {}, {};
      seeded, attempt, outage := false, 0, false;
      initialization := new Initialization();
      awaited := [];
    }

    method FailInitialization()
      modifies initialization
      ensures initialization.outcome
        == if old(initialization.outcome).Pending? then Refused else old(initialization.outcome)
    {
      if initialization.outcome.Pending? {
        initialization.SetException();
      }
    }

    method Initialize(rest: seq<Position>)
      modifies this`cache, this`positions, this`streamed
      ensures Abstract() == Seed(old(Abstract()), rest)
    {
      positions := Open(rest);
      streamed := Open(rest);
      cache := Ready;
    }

    method Apply(updates: seq<Position>) returns (unseeded: set<string>)
      modifies this`cache, this`positions, this`streamed
      ensures (Abstract(), unseeded) == Applied(old(Abstract()), updates)
    {
      unseeded := {};
      ghost var start := Abstract();
      var i := 0;
      while i < |updates|
        invariant 0 <= i <= |updates|
        invariant (Abstract(), unseeded) == Overlay(start, updates[..i])
      {
        assert updates[..i + 1][..i] == updates[..i];
        var p := updates[i];
        if p.quantity == 0.0 {
          streamed := streamed - {p.symbol};
          positions := positions - {p.symbol};
        } else {
          streamed := streamed + {p.symbol};
          if p.symbol !in positions {
            unseeded := unseeded + {p.symbol};
          }
        }
        i := i + 1;
      }
      assert updates[..|updates|] == updates;
      cache := if unseeded != {} then Resyncing else Ready;
    }

    method SynchronizeAfterConnection(rest: Rest) returns (step: Step)
      modifies this, initialization
      ensures var (r, next, seen) := Synchronize(rest, old(Abstract()));
        step == r && Abstract() == next && awaited == old(awaited) + seen
    {
      awaited := awaited + [Abstract()];
      match rest
      case Fails(transient) =>
        cache := Stale;
        awaited := awaited + [Abstract()];
        FailInitialization();
        return Raise(transient);
      case Answers(answer) =>
        Initialize(answer);
        awaited := awaited + [Abstract()];
        seeded := true;
        status := Ready;
        outage := false;
        attempt := 0;
        if initialization.outcome.Pending? {
          initialization.SetResult();
        }
        return Continue;
    }

    method ReseedUnseededPositions(rest: Rest, symbols: set<string>) returns (step: Step)
      modifies this
      ensures var (r, next, seen) := Reseed(rest, symbols, old(Abstract()));
        step == r && Abstract() == next && awaited == old(awaited) + seen
    {
      status := Resyncing;
      awaited := awaited + [Abstract()];
      match rest
      case Fails(transient) => return Raise(transient);
      case Answers(answer) =>
        Initialize(answer);
        awaited := awaited + [Abstract()];
        var missing := symbols - positions;
        if missing != {} {
          cache := Resyncing;
          return Raise(false);
        }
        status := Ready;
        awaited := awaited + [Abstract()];
        return Continue;
    }

    method HandleEvent(e: Event) returns (step: Step)
      modifies this, initialization
      ensures var (r, next, seen) := Handle(e, old(Abstract()));
        step == r && Abstract() == next && awaited == old(awaited) + seen
    {
      match e
      case Connected(rest) =>
        step := SynchronizeAfterConnection(rest);
      case AccountUpdate(updates, rest) =>
        var unseeded := Apply(updates);
        if unseeded == {} {
          awaited := awaited + [Abstract()];
          return Continue;
        }
        step := ReseedUnseededPositions(rest, unseeded);
      case OrderOrAlgoUpdate =>
        cache := Ready;
        step := Continue;
    }

    method HandleInterruption(transient: bool) returns (alive: bool)
      modifies this, initialization
      ensures (alive, Abstract()) == Interrupted(transient, old(Abstract())) && awaited == old(awaited)
    {
      if !seeded && !transient {
        cache := Stale;
        status := Stale;
        FailInitialization();
        return false;
      }
      attempt := attempt + 1;
      cache := Resyncing;
      status := Resyncing;
      outage := true;
      return true;
    }

    method ConsumeSession(session: Session) returns (alive: bool)
      modifies this, initialization
      ensures (alive, Abstract()) == Consumed(session, old(Abstract()))
    {
      var events := session.events;
      ghost var start := Abstract();
      var i := 0;
      while i < |events|
        invariant 0 <= i <= |events|
        invariant Events(events, start) == Events(events[i..], Abstract())
      {
        assert events[i..][0] == events[i] && events[i..][1..] == events[i + 1..];
        var step := HandleEvent(events[i]);
        if step.Raise? {
          alive := HandleInterruption(step.transient);
          return;
        }
        i := i + 1;
      }
      match session.ending
      case ServiceCloses => return false;
      case StreamEnds => alive := HandleInterruption(false);
      case StreamBreaks(transient) => alive := HandleInterruption(transient);
    }

    method ConsumeForever(sessions: seq<Session>) returns (alive: bool)
      modifies this, initialization
      ensures (alive, Abstract()) == Forever(sessions, old(Abstract()))
    {
      alive := true;
      ghost var start := Abstract();
      var i := 0;
      while i < |sessions|
        invariant 0 <= i <= |sessions|
        invariant alive && Forever(sessions, start) == Forever(sessions[i..], Abstract())
      {
        assert sessions[i..][0] == sessions[i] && sessions[i..][1..] == sessions[i + 1..];
        alive := ConsumeSession(sessions[i]);
        if !alive {
          return;
        }
        i := i + 1;
      }
    }
  }

  // ---------------------------------------------------------------------------
  // Ready means freshly read from REST
  // ---------------------------------------------------------------------------

  // Between sessions the service never claims to be ready.
  lemma {:induction false} SessionsStartUnready(sessions: seq<Session>, s: State)
    requires !s.status.Ready?
    ensures var (alive, next) := Forever(sessions, s);
      alive ==> !next.status.Ready?
    decreases |sessions|
  {
    if sessions != [] {
      var (alive, next) := Consumed(sessions[0], s);
      if alive {
        SessionsStartUnready(sessions[1..], next);
      }
    }
  }

  // The event made an authoritative REST read that confirmed everything it had to.
  ghost predicate Confirms(e: Event, s: State) {
    match e
    case Connected(rest) => rest.Answers?
    case AccountUpdate(updates, rest) =>
      Applied(s, updates).1 != {} && rest.Answers? && Applied(s, updates).1 <= Open(rest.positions)
    case OrderOrAlgoUpdate => false
  }

  lemma EmptyDifference(a: set<string>, b: set<string>)
    ensures a - b == {} <==> a <= b
  {
    if a - b == {} {
      forall x | x in a
        ensures x in b
      {
        assert x !in a - b;
      }
    }
  }

  lemma ReadyNeedsConfirmation(e: Event, s: State)
    ensures var (step, next, awaited) := Handle(e, s);
      && (step.Continue? && next.status.Ready? ==> s.status.Ready? || Confirms(e, s))
      && (forall a :: a in awaited && a.status.Ready? ==> s.status.Ready? || Confirms(e, s))
      && (Confirms(e, s) ==> step.Continue? && next.status.Ready?)
  {
    if e.AccountUpdate? {
      OverlayKeepsStatus(s, e.positions);
      if e.rest.Answers? {
        EmptyDifference(Applied(s, e.positions).1, Open(e.rest.positions));
      }
    }
  }

  lemma {:induction false} OverlayKeepsStatus(s: State, updates: seq<Position>)
    ensures var after := Overlay(s, updates).0;
      after == s.(positions := after.positions, streamed := after.streamed)
  {
    if updates != [] {
      OverlayKeepsStatus(s, updates[..|updates| - 1]);
    }
  }

  /**
   At every event boundary and at every await inside an event: ready means that an
   authoritative REST read succeeded in this session, so after the last handled
   interruption.
   */
  lemma {:induction false} ReadyIsFresh(events: seq<Event>, s: State, e: Event)
    requires !s.status.Ready? && Events(events, s).0.Continue?
    ensures var now := Events(events, s).1;
      var (_, _, awaited) := Handle(e, now);
      && (now.status.Ready? ==> exists k: nat :: k < |events| && Confirms(events[k], Events(events[..k], s).1))
      && (forall a :: a in awaited && a.status.Ready? ==>
            Confirms(e, now) || exists k: nat :: k < |events| && Confirms(events[k], Events(events[..k], s).1))
  {
    var n := |events|;
    if n > 0 {
      var before := events[..n - 1];
      EventsSplit(events, n - 1, s);
      assert events[n - 1..] == [events[n - 1]] && events[n - 1..][1..] == [];
      var was := Events(before, s).1;
      assert Events([events[n - 1]], was) == (Handle(events[n - 1], was).0, Handle(events[n - 1], was).1);
      ReadyNeedsConfirmation(events[n - 1], was);
      ReadyIsFresh(before, s, e);
      if !Confirms(events[n - 1], was) && was.status.Ready? {
        var k: nat :| k < |before| && Confirms(before[k], Events(before[..k], s).1);
        assert before[..k] == events[..k] && before[k] == events[k];
      }
    }
    ReadyNeedsConfirmation(e, Events(events, s).1);
  }

  lemma {:induction false} EventsSplit(events: seq<Event>, k: nat, s: State)
    requires k <= |events|
    ensures var (step, mid) := Events(events[..k], s);
      Events(events, s) == if step.Raise? then (step, mid) else Events(events[k..], mid)
    decreases k
  {
    if k == 0 {
      assert events[..0] == [] && events[0..] == events;
    } else {
      var (step, next, _) := Handle(events[0], s);
      assert events[..k][0] == events[0] && events[..k][1..] == events[1..][..k - 1];
      assert events[k..] == events[1..][k - 1..];
      if step.Continue? {
        EventsSplit(events[1..], k - 1, next);
      }
    }
  }

  // ---------------------------------------------------------------------------
  // Ready hides no unconfirmed exposure
  // ---------------------------------------------------------------------------

  ghost predicate Accounted(s: State) {
    && s.positions <= s.streamed
    && (s.status.Ready? ==> s.streamed == s.positions)
  }

  lemma {:induction false} OverlayAccounts(s: State, updates: seq<Position>)
    requires s.positions <= s.streamed
    ensures var (next, unseeded) := Overlay(s, updates);
      next.positions <= next.streamed && next.streamed - next.positions <= (s.streamed - s.positions) + unseeded
  {
    if updates != [] {
      OverlayAccounts(s, updates[..|updates| - 1]);
      var (before, unseeded) := Overlay(s, updates[..|updates| - 1]);
      var (next, more) := Overlay(s, updates);
      forall x | x in next.streamed && x !in next.positions
        ensures x in (s.streamed - s.positions) + more
      {
        if x in before.streamed && x !in before.positions {
          assert x in before.streamed - before.positions;
        }
      }
    }
  }

  lemma EventsAreAccounted(e: Event, s: State)
    requires Accounted(s)
    ensures var (step, next, awaited) := Handle(e, s);
      Accounted(next) && forall a :: a in awaited ==> Accounted(a)
  {
    if e.AccountUpdate? {
      OverlayAccounts(s, e.positions);
      OverlayKeepsStatus(s, e.positions);
      var (applied, unseeded) := Applied(s, e.positions);
      if unseeded == {} && s.status.Ready? {
        EmptyDifference(s.streamed, s.positions);
        EmptyDifference(applied.streamed, applied.positions);
        assert applied.streamed - applied.positions <= {} + {};
      }
    }
  }

  lemma {:induction false} SessionIsAccounted(events: seq<Event>, s: State)
    requires Accounted(s)
    ensures Accounted(Events(events, s).1)
    decreases |events|
  {
    if events != [] {
      EventsAreAccounted(events[0], s);
      var (step, next, _) := Handle(events[0], s);
      if step.Continue? {
        SessionIsAccounted(events[1..], next);
      }
    }
  }

  /** While ready, every open position the stream has reported is one REST has confirmed. */
  lemma {:induction false} ReadyHidesNoExposure(sessions: seq<Session>, s: State)
    requires Accounted(s)
    ensures Accounted(Forever(sessions, s).1)
    decreases |sessions|
  {
    if sessions != [] {
      SessionIsAccounted(sessions[0].events, s);
      var (alive, next) := Consumed(sessions[0], s);
      if alive {
        ReadyHidesNoExposure(sessions[1..], next);
      }
    }
  }

  /**
   A reseed reaches ready exactly when REST answers and confirms every symbol the
   stream reported without a seed.
   */
  lemma ReseedReadyExactlyWhenConfirmed(updates: seq<Position>, rest: Rest, s: State)
    requires Applied(s, updates).1 != {}
    ensures var (step, next, _) := Handle(AccountUpdate(updates, rest), s);
      && (next.status.Ready? <==> step.Continue?)
      && (step.Continue? <==> rest.Answers? && forall symbol :: symbol in Applied(s, updates).1 ==>
            exists p :: p in rest.positions && p.symbol == symbol && p.quantity != 0.0)
  {
    var unseeded := Applied(s, updates).1;
    if rest.Answers? {
      EmptyDifference(unseeded, Open(rest.positions));
    }
  }

  // ---------------------------------------------------------------------------
  // Startup
  // ---------------------------------------------------------------------------

  ghost predicate Settled(before: State, after: State) {
    && (!before.startup.Pending? ==> after.startup == before.startup)
    && (after.startup.Started? ==> after.seeded || before.startup.Started?)
    && (before.seeded ==> after.seeded)
  }

  lemma {:induction false} EventsSettle(events: seq<Event>, s: State)
    ensures Settled(s, Events(events, s).1)
    decreases |events|
  {
    if events != [] {
      if events[0].AccountUpdate? {
        OverlayKeepsStatus(s, events[0].positions);
      }
      var (step, next, _) := Handle(events[0], s);
      if step.Continue? {
        EventsSettle(events[1..], next);
      }
    }
  }

  /**
   Startup is answered at most once and stays as answered; a successful answer means
   the snapshot was seeded; and unless it is closed the loop only gives up once
   startup has been answered, with stale status and nothing seeded.
   */
  lemma {:induction false} StartupIsAnsweredOnce(sessions: seq<Session>, s: State)
    ensures var (alive, next) := Forever(sessions, s);
      && Settled(s, next)
      && (!alive && (forall x :: x in sessions ==> !x.ending.ServiceCloses?) ==>
            !next.startup.Pending? && next.status.Stale? && !next.seeded)
    decreases |sessions|
  {
    if sessions != [] {
      EventsSettle(sessions[0].events, s);
      assert sessions[0] in sessions;
      var (alive, next) := Consumed(sessions[0], s);
      if alive {
        StartupIsAnsweredOnce(sessions[1..], next);
        assert forall x :: x in sessions[1..] ==> x in sessions;
      }
    }
  }

  // ---------------------------------------------------------------------------
  // Outages
  // ---------------------------------------------------------------------------

  predicate ConnectionAnswered(e: Event) {
    e.Connected? && e.rest.Answers?
  }

  // How an event ends the session, if it does: as its REST call failed, or not transiently
  // when REST answers without confirming.
  function FailureOf(e: Event): Step {
    match e
    case Connected(Fails(transient)) => Raise(transient)
    case AccountUpdate(_, Fails(transient)) => Raise(transient)
    case AccountUpdate(_, Answers(_)) => Raise(false)
    case _ => Continue
  }

  /**
   What one event does beside the cache: an answered connection ends the outage, resets the
   attempts and answers startup; a refused one fails startup; and every failure is as
   transient as the REST failure behind it.
   */
  lemma EventBookkeeping(e: Event, s: State)
    ensures var (step, next, _) := Handle(e, s);
      && next.attempt == (if ConnectionAnswered(e) then 0 else s.attempt)
      && next.outage == (!ConnectionAnswered(e) && s.outage)
      && next.seeded == (ConnectionAnswered(e) || s.seeded)
      && (!s.startup.Pending? || !e.Connected? ==> next.startup == s.startup)
      && (s.startup.Pending? && e.Connected? ==> next.startup == if e.rest.Answers? then Started else Refused)
      && (step.Raise? ==> step == FailureOf(e))
      && (ConnectionAnswered(e) ==> step.Continue?)
      && (e.Connected? && step.Raise? ==> next.cache == Stale)
      && (e.AccountUpdate? && step.Raise? ==> next.cache == Resyncing && next.status == Resyncing)
  {
    if e.AccountUpdate? {
      OverlayKeepsStatus(s, e.positions);
    }
  }

  lemma {:induction false} SilentSessionKeepsOutage(events: seq<Event>, s: State)
    requires forall e :: e in events ==> !ConnectionAnswered(e)
    ensures var after := Events(events, s).1;
      after.attempt == s.attempt && after.outage == s.outage && after.seeded == s.seeded
    decreases |events|
  {
    if events != [] {
      assert events[0] in events && forall e :: e in events[1..] ==> e in events;
      EventBookkeeping(events[0], s);
      var (step, next, _) := Handle(events[0], s);
      if step.Continue? {
        SilentSessionKeepsOutage(events[1..], next);
      }
    }
  }

  /**
   Over sessions in which no connection is answered, every session is one more attempt of
   the same outage.
   */
  lemma {:induction false} AttemptsCountSessions(sessions: seq<Session>, s: State)
    requires forall x, e :: x in sessions && e in x.events ==> !ConnectionAnswered(e)
    ensures var (alive, next) := Forever(sessions, s);
      alive ==> next.attempt == s.attempt + |sessions| && next.outage == (s.outage || sessions != [])
    decreases |sessions|
  {
    if sessions != [] {
      assert sessions[0] in sessions && forall x :: x in sessions[1..] ==> x in sessions;
      SilentSessionKeepsOutage(sessions[0].events, s);
      var (alive, next) := Consumed(sessions[0], s);
      if alive {
        AttemptsCountSessions(sessions[1..], next);
      }
    }
  }

  /** A session ends the loop exactly when it is closed, or when it fails for good before anything was seeded. */
  lemma SessionEndsTheLoopExactlyWhen(session: Session, s: State)
    ensures var (step, after) := Events(session.events, s);
      var closed := step.Continue? && session.ending == ServiceCloses;
      var transient := step == Raise(true) || (step.Continue? && session.ending == StreamBreaks(true));
      && (Consumed(session, s).0 <==> !closed && (after.seeded || transient))
      && (!closed ==> Consumed(session, s).1.status == (if after.seeded || transient then Resyncing else Stale)
                      && Consumed(session, s).1.cache == Consumed(session, s).1.status)
  {
    var (step, after) := Events(session.events, s);
    if step.Raise? {
      assert Consumed(session, s) == Interrupted(step.transient, after);
    }
  }
}
