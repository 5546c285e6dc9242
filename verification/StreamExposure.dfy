/**
 What the private stream and REST have said about open positions, kept as a plain log
 of answers and updates, and how the service's readiness relates to it.
 */
module StreamExposure {
  import opened UserDataStream

  // An authoritative answer, or one position of a stream update.
  datatype Heard = Read(positions: seq<Position>) | Update(position: Position)

  // ---------------------------------------------------------------------------
  // Reading the log
  // ---------------------------------------------------------------------------

  predicate OpenIn(positions: seq<Position>, symbol: string) {
    exists p :: p in positions && p.symbol == symbol && p.quantity != 0.0
  }

  // The last REST answer had the position open.
  predicate ReadOpen(log: seq<Heard>, symbol: string) {
    log != [] &&
    match log[|log| - 1]
    case Read(positions) => OpenIn(positions, symbol)
    case Update(_) => ReadOpen(log[..|log| - 1], symbol)
  }

  // The stream closed the position after the last REST answer, reopened since or not.
  predicate ClosedSince(log: seq<Heard>, symbol: string) {
    log != [] &&
    match log[|log| - 1]
    case Read(_) => false
    case Update(p) => (p.symbol == symbol && p.quantity == 0.0) || ClosedSince(log[..|log| - 1], symbol)
  }

  // The stream's last word on the symbol after the last REST answer, if it spoke at all.
  function LastQuantity(log: seq<Heard>, symbol: string): (q: seq<real>) {
    if log == [] then []
    else match log[|log| - 1]
      case Read(_) => []
      case Update(p) => if p.symbol == symbol then [p.quantity] else LastQuantity(log[..|log| - 1], symbol)
  }

  predicate StreamOpen(log: seq<Heard>, symbol: string) {
    LastQuantity(log, symbol) != [] && LastQuantity(log, symbol)[0] != 0.0
  }

  // REST had it open, and the stream has not closed it since.
  predicate Confirmed(log: seq<Heard>, symbol: string) {
    ReadOpen(log, symbol) && !ClosedSince(log, symbol)
  }

  function Updates(positions: seq<Position>): seq<Heard> {
    seq(|positions|, i requires 0 <= i < |positions| => Update(positions[i]))
  }

  // ---------------------------------------------------------------------------
  // What is heard
  // ---------------------------------------------------------------------------

  // The update opens a position that REST has not confirmed at that point.
  ghost predicate Unseeded(log: seq<Heard>, updates: seq<Position>, symbol: string) {
    exists i :: 0 <= i < |updates| && updates[i].symbol == symbol && updates[i].quantity != 0.0
      && !Confirmed(log + Updates(updates[..i]), symbol)
  }

  ghost predicate Asks(log: seq<Heard>, updates: seq<Position>) {
    exists symbol :: Unseeded(log, updates, symbol)
  }

  ghost predicate ConfirmsAll(log: seq<Heard>, updates: seq<Position>, answer: seq<Position>) {
    forall symbol :: Unseeded(log, updates, symbol) ==> OpenIn(answer, symbol)
  }

  // Whether the session survives the event, and the log after it.
  ghost function Hear(e: Event, log: seq<Heard>): (bool, seq<Heard>) {
    match e
    case Connected(Fails(_)) => (false, log)
    case Connected(Answers(positions)) => (true, log + [Read(positions)])
    case OrderOrAlgoUpdate => (true, log)
    case AccountUpdate(updates, rest) =>
      var heard := log + Updates(updates);
      if !Asks(log, updates) then (true, heard)
      else match rest
        case Fails(_) => (false, heard)
        case Answers(positions) => (ConfirmsAll(log, updates, positions), heard + [Read(positions)])
  }

  ghost function HearAll(events: seq<Event>, log: seq<Heard>): (bool, seq<Heard>) {
    if events == [] then (true, log)
    else
      var (survives, next) := Hear(events[0], log);
      if survives then HearAll(events[1..], next) else (false, next)
  }

  ghost function HearSessions(sessions: seq<Session>, log: seq<Heard>): seq<Heard> {
    if sessions == [] then log else HearSessions(sessions[1..], HearAll(sessions[0].events, log).1)
  }

  // ---------------------------------------------------------------------------
  // The cache is the log
  // ---------------------------------------------------------------------------

  // The cached positions are the confirmed ones, the streamed ones those last said to be open.
  ghost predicate Agrees(s: State, log: seq<Heard>) {
    forall symbol ::
      && (symbol in s.positions <==> Confirmed(log, symbol))
      && (symbol in s.streamed <==>
            StreamOpen(log, symbol) || (LastQuantity(log, symbol) == [] && ReadOpen(log, symbol)))
  }

  lemma UpdateIsHeard(log: seq<Heard>, p: Position, symbol: string)
    ensures var next := log + [Update(p)];
      && (ReadOpen(next, symbol) <==> ReadOpen(log, symbol))
      && (ClosedSince(next, symbol) <==> (p.symbol == symbol && p.quantity == 0.0) || ClosedSince(log, symbol))
      && LastQuantity(next, symbol) == (if p.symbol == symbol then [p.quantity] else LastQuantity(log, symbol))
  {
    assert (log + [Update(p)])[..|log|] == log;
  }

  lemma UpdatesNext(updates: seq<Position>, log: seq<Heard>)
    requires updates != []
    ensures var n := |updates| - 1;
      log + Updates(updates) == (log + Updates(updates[..n])) + [Update(updates[n])]
  {
    var n := |updates| - 1;
    assert Updates(updates) == Updates(updates[..n]) + [Update(updates[n])];
  }

  lemma UnseededNext(log: seq<Heard>, updates: seq<Position>, symbol: string)
    requires updates != []
    ensures var n := |updates| - 1; var p := updates[n];
      Unseeded(log, updates, symbol) <==>
        || Unseeded(log, updates[..n], symbol)
        || (p.symbol == symbol && p.quantity != 0.0 && !Confirmed(log + Updates(updates[..n]), symbol))
  {
    var n := |updates| - 1;
    var front := updates[..n];
    assert forall i :: 0 <= i < n ==> front[i] == updates[i] && front[..i] == updates[..i];
  }

  lemma {:induction false} OverlayAgrees(s: State, updates: seq<Position>, log: seq<Heard>)
    requires Agrees(s, log)
    ensures Agrees(Overlay(s, updates).0, log + Updates(updates))
    ensures forall symbol :: symbol in Overlay(s, updates).1 <==> Unseeded(log, updates, symbol)
  {
    if updates == [] {
      assert log + Updates(updates) == log;
    } else {
      var n := |updates| - 1;
      OverlayAgrees(s, updates[..n], log);
      UpdatesNext(updates, log);
      OneMoreAgrees(Overlay(s, updates[..n]).0, updates[n], log + Updates(updates[..n]), Overlay(s, updates).0);
      forall symbol
        ensures symbol in Overlay(s, updates).1 <==> Unseeded(log, updates, symbol)
      {
        UnseededNext(log, updates, symbol);
      }
    }
  }

  lemma OneMoreAgrees(s: State, p: Position, log: seq<Heard>, next: State)
    requires Agrees(s, log)
    requires next.positions == (if p.quantity == 0.0 then s.positions - {p.symbol} else s.positions)
    requires next.streamed == (if p.quantity == 0.0 then s.streamed - {p.symbol} else s.streamed + {p.symbol})
    ensures Agrees(next, log + [Update(p)])
  {
    forall symbol
      ensures symbol in next.positions <==> Confirmed(log + [Update(p)], symbol)
      ensures symbol in next.streamed <==>
        (StreamOpen(log + [Update(p)], symbol)
         || (LastQuantity(log + [Update(p)], symbol) == [] && ReadOpen(log + [Update(p)], symbol)))
    {
      UpdateIsHeard(log, p, symbol);
    }
  }

  lemma SeedAgrees(s: State, positions: seq<Position>, log: seq<Heard>)
    ensures Agrees(Seed(s, positions), log + [Read(positions)])
  {
    var next := log + [Read(positions)];
    forall symbol
      ensures symbol in Open(positions) <==> OpenIn(positions, symbol)
      ensures ReadOpen(next, symbol) <==> OpenIn(positions, symbol)
      ensures !ClosedSince(next, symbol) && LastQuantity(next, symbol) == []
    {
    }
  }

  lemma SameCacheAgrees(s: State, next: State, log: seq<Heard>)
    requires Agrees(s, log) && next.positions == s.positions && next.streamed == s.streamed
    ensures Agrees(next, log)
  {
  }

  /** The service survives exactly the events that the log survives, and its cache stays the log's. */
  lemma EventIsHeard(e: Event, s: State, log: seq<Heard>)
    requires Agrees(s, log)
    ensures var (step, next, _) := Handle(e, s); var (survives, heard) := Hear(e, log);
      (step.Continue? <==> survives) && Agrees(next, heard)
  {
    match e
    case Connected(rest) =>
      if rest.Answers? {
        SeedAgrees(s, rest.positions, log);
      }
    case OrderOrAlgoUpdate =>
    case AccountUpdate(updates, rest) =>
      UpdateIsAnswered(updates, rest, s, log);
  }

  lemma UpdateIsAnswered(updates: seq<Position>, rest: Rest, s: State, log: seq<Heard>)
    requires Agrees(s, log)
    ensures var (step, next, _) := Handle(AccountUpdate(updates, rest), s);
      var (survives, heard) := Hear(AccountUpdate(updates, rest), log);
      (step.Continue? <==> survives) && Agrees(next, heard)
  {
    var (applied, unseeded) := Applied(s, updates);
    OverlayAgrees(s, updates, log);
    SameCacheAgrees(Overlay(s, updates).0, applied, log + Updates(updates));
    if unseeded == {} {
      assert !Asks(log, updates);
    } else {
      var symbol :| symbol in unseeded;
      assert Unseeded(log, updates, symbol);
      if rest.Answers? {
        SeedAgrees(applied.(status := Resyncing), rest.positions, log + Updates(updates));
        EmptyDifference(unseeded, Open(rest.positions));
        assert forall x :: x in Open(rest.positions) <==> OpenIn(rest.positions, x);
      }
    }
  }

  lemma {:induction false} SessionIsHeard(events: seq<Event>, s: State, log: seq<Heard>)
    requires Agrees(s, log)
    ensures var (step, next) := Events(events, s); var (survives, heard) := HearAll(events, log);
      (step.Continue? <==> survives) && Agrees(next, heard)
    decreases |events|
  {
    if events != [] {
      EventIsHeard(events[0], s, log);
      var (survives, heard) := Hear(events[0], log);
      if survives {
        SessionIsHeard(events[1..], Handle(events[0], s).1, heard);
      }
    }
  }

  lemma {:induction false} SessionsAreHeard(sessions: seq<Session>, s: State, log: seq<Heard>)
    requires Agrees(s, log) && Forever(sessions, s).0
    ensures Agrees(Forever(sessions, s).1, HearSessions(sessions, log))
    decreases |sessions|
  {
    if sessions != [] {
      var after := Events(sessions[0].events, s).1;
      var heard := HearAll(sessions[0].events, log).1;
      SessionIsHeard(sessions[0].events, s, log);
      SameCacheAgrees(after, Consumed(sessions[0], s).1, heard);
      SessionsAreHeard(sessions[1..], Consumed(sessions[0], s).1, heard);
    }
  }

  lemma {:induction false} SessionsAreAccounted(sessions: seq<Session>, s: State)
    requires Accounted(s) && Forever(sessions, s).0
    ensures Accounted(Forever(sessions, s).1)
    decreases |sessions|
  {
    ReadyHidesNoExposure(sessions, s);
  }

  // ---------------------------------------------------------------------------
  // Ready
  // ---------------------------------------------------------------------------

  /**
   After any sessions and at any event of the next one: while the service is ready, every
   position that the stream last said to be open is one the last REST answer had open and
   that the stream has not closed since.
   */
  lemma ReadyMeansConfirmed(sessions: seq<Session>, events: seq<Event>)
    requires Forever(sessions, NEW).0
    ensures var now := Events(events, Forever(sessions, NEW).1).1;
      var log := HearAll(events, HearSessions(sessions, [])).1;
      now.status.Ready? ==> forall symbol :: StreamOpen(log, symbol) ==> Confirmed(log, symbol)
  {
    var s := Forever(sessions, NEW).1;
    SessionsAreHeard(sessions, NEW, []);
    ReadyHidesNoExposure(sessions, NEW);
    SessionIsHeard(events, s, HearSessions(sessions, []));
    SessionIsAccounted(events, s);
  }

  /** And what it holds is what was confirmed: the cached positions, at any event, ready or not. */
  lemma CacheIsWhatWasConfirmed(sessions: seq<Session>, events: seq<Event>, symbol: string)
    requires Forever(sessions, NEW).0
    ensures var now := Events(events, Forever(sessions, NEW).1).1;
      var log := HearAll(events, HearSessions(sessions, [])).1;
      symbol in now.positions <==> Confirmed(log, symbol)
  {
    SessionsAreHeard(sessions, NEW, []);
    SessionIsHeard(events, Forever(sessions, NEW).1, HearSessions(sessions, []));
  }

  /** A session goes on through an event exactly when REST confirms what the event makes it ask about. */
  lemma SessionSurvivesExactlyWhenConfirmed(sessions: seq<Session>, events: seq<Event>)
    requires Forever(sessions, NEW).0
    ensures Events(events, Forever(sessions, NEW).1).0.Continue? <==> HearAll(events, HearSessions(sessions, [])).0
  {
    SessionsAreHeard(sessions, NEW, []);
    SessionIsHeard(events, Forever(sessions, NEW).1, HearSessions(sessions, []));
  }

  // ---------------------------------------------------------------------------
  // One update
  // ---------------------------------------------------------------------------

  predicate ClosedBy(updates: seq<Position>, symbol: string) {
    exists j :: 0 <= j < |updates| && updates[j].symbol == symbol && updates[j].quantity == 0.0
  }

  lemma {:induction false} OverlayKeeps(s: State, updates: seq<Position>, symbol: string)
    ensures symbol in Overlay(s, updates).0.positions <==> symbol in s.positions && !ClosedBy(updates, symbol)
  {
    if updates != [] {
      var n := |updates| - 1;
      OverlayKeeps(s, updates[..n], symbol);
      assert forall j :: 0 <= j < n ==> updates[..n][j] == updates[j];
    }
  }

  // Some element opens the symbol while it is absent, or after the same update has closed it.
  predicate OpensUnknown(s: State, updates: seq<Position>, symbol: string) {
    exists i :: 0 <= i < |updates| && updates[i].symbol == symbol && updates[i].quantity != 0.0
      && (symbol !in s.positions || ClosedBy(updates[..i], symbol))
  }

  /** One update reports exactly the symbols it opens without, or after, a confirmed position. */
  lemma {:induction false} UnseededExactly(s: State, updates: seq<Position>, symbol: string)
    ensures symbol in Applied(s, updates).1 <==> OpensUnknown(s, updates, symbol)
  {
    if updates != [] {
      var n := |updates| - 1;
      var front := updates[..n];
      UnseededExactly(s, front, symbol);
      OverlayKeeps(s, front, symbol);
      assert forall i :: 0 <= i < n ==> front[i] == updates[i] && front[..i] == updates[..i];
    }
  }

  // ---------------------------------------------------------------------------
  // The published cache
  // ---------------------------------------------------------------------------

  ghost predicate Published(s: State) {
    s.status.Ready? ==> s.cache.Ready?
  }

  lemma EventPublishes(e: Event, s: State)
    requires Published(s) && Handle(e, s).0.Continue?
    ensures Published(Handle(e, s).1)
  {
    if e.AccountUpdate? {
      OverlayKeepsStatus(s, e.positions);
    }
  }

  /** Wherever a session has got to, a ready service has a ready cache. */
  lemma {:induction false} ReadyCacheIsPublished(events: seq<Event>, s: State)
    requires Published(s) && Events(events, s).0.Continue?
    ensures Published(Events(events, s).1)
    decreases |events|
  {
    if events != [] {
      EventPublishes(events[0], s);
      ReadyCacheIsPublished(events[1..], Handle(events[0], s).1);
    }
  }
}
