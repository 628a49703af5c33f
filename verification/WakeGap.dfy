/**
 Commits that wake nobody: what the scheduler frees without a word to the worker server, when that
 leaves a worker parked beside a game, and how the fallback timer ends it.
 */
module WakeGap {
  import opened Common
  import opened Assignments
  import opened AssignmentInvariant
  import opened WakeProtocol

  predicate Announces(event: Event)
  {
    !event.SkipWake? && (event.Commit? && !Quiet(event.step) ==> event.origin != Scheduler)
  }

  lemma {:induction false} AnnouncedThroughout(v: Server, events: seq<Event>)
    requires !v.unannounced && forall k :: 0 <= k < |events| ==> Announces(events[k])
    ensures !RunServer(v, events).unannounced
    decreases |events|
  {
    hide Pass, Apply, HasWork;
    if events != [] {
      AnnouncedThroughout(v, events[..|events| - 1]);
      PassAnnouncesNothing(RunServer(v, events[..|events| - 1]), events[|events| - 1]);
    }
  }

  lemma {:induction false} PassAnnouncesNothing(v: Server, event: Event)
    ensures event.TryClaim? ==> Next(v, event).unannounced == v.unannounced
  {
    hide Claim, Chosen;
  }

  /** As long as only the worker server and the web application free work, no wake-up is lost at all. */
  lemma {:induction false} NoLostWakeUpWithoutScheduler(history: seq<Step>, events: seq<Event>, session: SessionId)
    requires forall k :: 0 <= k < |events| ==> Announces(events[k])
    ensures var v := RunServer(NewServer(Run(Empty(), history)), events);
            ParkedWithWork(v, session) || CutShort(v, session) ==> WakeComing(v)
  {
    hide Next, RunServer, Run, ParkedWithWork, CutShort;
    NoLostWakeUp(history, events, session);
    AnnouncedThroughout(NewServer(Run(Empty(), history)), events);
  }

  /** Parked with work, and no wake on its way. */
  ghost predicate Stranded(v: Server, session: SessionId)
  {
    ParkedWithWork(v, session) && !WakeComing(v)
  }

  /** The tournament still takes a game for a worker of this capability, were it running. */
  predicate TakesOneMore(db: State, capability: Capability, t: TournamentId)
  {
    && t in db.tournaments && Suits(WorkerOf(capability), db.tournaments[t])
    && ActiveCount(db.games, t, db.nextGame) < db.tournaments[t].config.concurrency
  }

  /** The scheduler's commit frees a game for the capability. */
  predicate Frees(db: State, step: Step, capability: Capability)
  {
    match step
    case DoStartTournament(t) =>
      && TakesOneMore(db, capability, t) && db.tournaments[t].status == Scheduled
      && FirstPending(db.games, t, db.nextGame).Some?
    case DoAddGame(t, _) => TakesOneMore(db, capability, t) && db.tournaments[t].status == Running
    case _ => false
  }

  /**
   Exactly when a commit of the scheduler strands a parked loop: when it starts a tournament with a
   game the worker could take, or adds a game to a running one that suits the worker and is not full.
   */
  lemma {:induction false} SchedulerStrands(v: Server, step: Step, session: SessionId)
    requires ServerInv(v) && !Covered(v) && Issues(Scheduler, step)
    requires session in v.loops && v.loops[session].phase == Parked && v.loops[session].generation == v.generation
    ensures Stranded(Next(v, Commit(step, Scheduler)), session) <==> Frees(v.db, step, v.loops[session].capability)
  {
    hide Inv, HasWork, Apply, Frees;
    assert LoopOk(v, session);
    StepFrees(v.db, step, v.loops[session].capability);
  }

  lemma {:induction false} StepFrees(db: State, step: Step, capability: Capability)
    requires Inv(db) && Issues(Scheduler, step) && !HasWork(db, capability)
    ensures HasWork(Apply(db, step), capability) <==> Frees(db, step, capability)
  {
    hide Inv, HasWork, Apply, TakesOneMore;
    if Quiet(step) {
      QuietStepsShrink(db, step);
      if HasWork(Apply(db, step), capability) {
        ShrinkingAddsNoWork(db, Apply(db, step), capability);
      }
    } else if step.DoStartTournament? {
      StartFrees(db, step.tournament, capability);
    } else {
      AddFrees(db, step.tournament, step.opening, capability);
    }
  }

  lemma {:induction false} StartFrees(db: State, t: TournamentId, capability: Capability)
    requires Inv(db) && !HasWork(db, capability)
    ensures HasWork(Apply(db, DoStartTournament(t)), capability) <==> Frees(db, DoStartTournament(t), capability)
  {
    hide Inv, ActiveCount, FirstPending;
    var after := Apply(db, DoStartTournament(t));
    TournamentsAreBelow(db);
    OnlyThisOne(db, after, t, capability);
  }

  /** Only one tournament may have become claimable. */
  lemma {:induction false} OnlyThisOne(db: State, after: State, t: TournamentId, capability: Capability)
    requires !HasWork(db, capability) && after.nextTournament == db.nextTournament
    requires forall u | 0 <= u < db.nextTournament && u != t :: Claimable(after, WorkerOf(capability), u) ==> Claimable(db, WorkerOf(capability), u)
    ensures HasWork(after, capability) <==> t < db.nextTournament && Claimable(after, WorkerOf(capability), t)
  {
    hide Claimable;
  }

  lemma {:induction false} AddFrees(db: State, t: TournamentId, opening: Opening, capability: Capability)
    requires Inv(db) && !HasWork(db, capability)
    ensures HasWork(Apply(db, DoAddGame(t, opening)), capability) <==> Frees(db, DoAddGame(t, opening), capability)
  {
    hide Inv, ActiveCount, FirstPending, Suits;
    var after := Apply(db, DoAddGame(t, opening));
    TournamentsAreBelow(db);
    NextGameIsFree(db);
    if after != db {
      forall u | 0 <= u < db.nextTournament
        ensures ActiveCount(after.games, u, after.nextGame) == ActiveCount(db.games, u, db.nextGame)
        ensures u != t ==> (FirstPending(after.games, u, after.nextGame).Some? <==> FirstPending(db.games, u, db.nextGame).Some?)
      {
        NewGameCounts(db.games, after.games, u, db.nextGame);
      }
      assert PendingIn(after.games, t, db.nextGame);
    }
    OnlyThisOne(db, after, t, capability);
  }

  lemma {:induction false} NextGameIsFree(db: State)
    requires Inv(db)
    ensures db.nextGame !in db.games
  {
    hide RowOk, WorkerOk, Apart, TournamentOk, HandlerOk;
    forall g | g in db.games ensures g != db.nextGame {
      assert GameOk(db, g);
    }
  }

  lemma {:induction false} NewGameCounts(games: map<GameId, Game>, after: map<GameId, Game>, t: TournamentId, n: nat)
    requires n !in games && n in after && after[n].status == Pending && after == games[n := after[n]]
    ensures ActiveCount(after, t, n + 1) == ActiveCount(games, t, n)
    ensures after[n].tournament != t ==> (FirstPending(after, t, n + 1).Some? <==> FirstPending(games, t, n).Some?)
  {
    hide ActiveCount, FirstPending;
    forall g: nat | g < n ensures ActiveIn(after, t, g) <==> ActiveIn(games, t, g) {
    }
    FewerActive(games, after, t, n);
    FewerActive(after, games, t, n);
    OneStepOfCount(after, t, n);
    forall g: nat | g < n ensures PendingIn(after, t, g) <==> PendingIn(games, t, g) {
    }
  }

  lemma {:induction false} OneStepOfCount(games: map<GameId, Game>, t: TournamentId, n: nat)
    requires n in games && games[n].status == Pending
    ensures ActiveCount(games, t, n + 1) == ActiveCount(games, t, n)
  {
  }

  /** Only a wake call ends it: until one is made, a parked loop stays parked, whatever else happens. */
  lemma {:induction false} OnlyAWakeHelps(v: Server, events: seq<Event>, session: SessionId)
    requires !v.pending && session in v.loops && v.loops[session].phase == Parked && v.loops[session].generation == v.generation
    requires forall k :: 0 <= k < |events| ==> !events[k].BeginWake? && events[k] != CloseLoop(session)
    ensures var w := RunServer(v, events);
            !w.pending && w.generation == v.generation && session in w.loops && w.loops[session] == v.loops[session]
    decreases |events|
  {
    hide Claim, Chosen, Apply, CachedEmpty, HasWork;
    if events != [] {
      OnlyAWakeHelps(v, events[..|events| - 1], session);
    }
  }

  // ---------------------------------------------------------------- one such run

  const CONFIG := Config(1, 1, 16)

  const HARDWARE := Hardware(Profile("cpu", 4, 8, "linux"), 8192)

  const CAPABILITY := Capability(DEFAULT_RESOURCES, Some(HARDWARE))

  const WORKER := Worker(Connected, Some(0), DEFAULT_RESOURCES, Some(HARDWARE))

  /** A tournament is added and scheduled, and a worker connects, finds nothing and parks. */
  const PARKING: seq<Event> := [
    Commit(DoAddTournament(CONFIG), Web),
    Commit(DoMintWorker(DEFAULT_RESOURCES), Web),
    Commit(DoAdminAction(0, Scheduled), Web),
    Commit(DoConnect(0, HARDWARE), WorkerSide),
    BeginWake(true),
    FinishWake,
    OpenLoop(0),
    TryClaim(0)
  ]

  /** Then the scheduler adds a game and starts the tournament. */
  const STARTING: seq<Event> := [
    Commit(DoAddGame(0, Opening("startpos", 0)), Scheduler),
    Commit(DoStartTournament(0), Scheduler)
  ]

  const RESCUE: seq<Event> := [BeginWake(false), FinishWake, Resume(0), TryClaim(0)]

  const TABLES := State(map[], map[], map[0 := Tournament(Scheduled, CONFIG, None)], map[0 := WORKER],
                        map[0 := Handler(0, None, None)], 0, 0, 1, 1, 1, 0)

  const PARKED := Server(TABLES, 1, false, 0, false, map[CAPABILITY := 1], map[0 := Loop(CAPABILITY, Parked, 1)])

  lemma {:induction false} OneMoreEvent(v: Server, events: seq<Event>, k: nat)
    requires k < |events|
    ensures RunServer(v, events[..k + 1]) == Next(RunServer(v, events[..k]), events[k])
  {
    hide Next;
    assert events[..k + 1][..k] == events[..k];
  }

  /** The tables before the worker connects. */
  const BEFORE := State(map[], map[], map[0 := Tournament(Scheduled, CONFIG, None)],
                        map[0 := Worker(Minted, None, DEFAULT_RESOURCES, None)], map[], 0, 0, 1, 1, 0, 0)

  lemma {:induction false} SettingUp()
    ensures RunServer(NewServer(Empty()), PARKING[..3]) == NewServer(BEFORE)
  {
    var v := NewServer(Empty());
    assert PARKING[..0] == [];
    OneMoreEvent(v, PARKING, 0);
    OneMoreEvent(v, PARKING, 1);
    OneMoreEvent(v, PARKING, 2);
    var t0 := map[0 := Tournament(Draft, CONFIG, None)];
    assert RunServer(v, PARKING[..1]).db.tournaments == t0;
    assert RunServer(v, PARKING[..2]).db.workers == BEFORE.workers;
    assert RunServer(v, PARKING[..3]).db.tournaments == BEFORE.tournaments;
  }

  lemma {:induction false} Connecting()
    ensures RunServer(NewServer(Empty()), PARKING[..6]) == NewServer(TABLES).(generation := 1)
  {
    hide RunServer;
    var v := NewServer(Empty());
    SettingUp();
    OneMoreEvent(v, PARKING, 3);
    OneMoreEvent(v, PARKING, 4);
    OneMoreEvent(v, PARKING, 5);
    ConnectingDb();
    assert RunServer(v, PARKING[..4]) == NewServer(TABLES).(owed := 1);
    assert RunServer(v, PARKING[..5]) == NewServer(TABLES).(pending := true);
  }

  lemma {:induction false} ConnectingDb()
    ensures Apply(BEFORE, DoConnect(0, HARDWARE)) == TABLES
  {
    var after := Apply(BEFORE, DoConnect(0, HARDWARE));
    assert after.games == map[] && after.rows == map[];
    assert after.workers == TABLES.workers && after.handlers == TABLES.handlers;
  }

  lemma {:induction false} WorkerParks()
    ensures RunServer(NewServer(Empty()), PARKING) == PARKED
  {
    hide RunServer;
    var v := NewServer(Empty());
    Connecting();
    OneMoreEvent(v, PARKING, 6);
    OneMoreEvent(v, PARKING, 7);
    assert PARKING[..8] == PARKING;
    assert Chosen(TABLES, WORKER, 1).None?;
    assert RunServer(v, PARKING[..7]).loops == map[0 := Loop(CAPABILITY, Scanning, 1)];
    assert RunServer(v, PARKING[..8]).loops == PARKED.loops;
  }

  lemma {:induction false} RunsFollow(v: Server, first: seq<Event>, second: seq<Event>)
    ensures RunServer(v, first + second) == RunServer(RunServer(v, first), second)
    decreases |second|
  {
    hide Next;
    if second == [] {
      assert first + second == first;
    } else {
      var k := |second| - 1;
      assert (first + second)[..|first| + k] == first + second[..k];
      RunsFollow(v, first, second[..k]);
    }
  }

  /** The tables after the start. */
  const STARTED := TABLES.(games := map[0 := Game(0, Pending, None, Opening("startpos", 0), [])],
                           tournaments := map[0 := Tournament(Running, CONFIG, None)], nextGame := 1)

  lemma {:induction false} StartingDb()
    ensures Apply(Apply(TABLES, DoAddGame(0, Opening("startpos", 0))), DoStartTournament(0)) == STARTED
  {
    var added := Apply(TABLES, DoAddGame(0, Opening("startpos", 0)));
    assert added.games == STARTED.games;
    assert StartTournament(added, 0).tournaments == STARTED.tournaments;
  }

  lemma {:induction false} StartedHasWork()
    ensures HasWork(STARTED, CAPABILITY)
  {
    assert PendingIn(STARTED.games, 0, 0);
    assert ActiveCount(STARTED.games, 0, 0) == 0;
    assert ActiveCount(STARTED.games, 0, 1) == 0;
    assert Claimable(STARTED, WorkerOf(CAPABILITY), 0);
  }

  /** The start frees a game for the parked worker. */
  lemma {:induction false} StartStrands()
    ensures RunServer(PARKED, STARTING) == PARKED.(db := STARTED, unannounced := true)
    ensures Stranded(RunServer(PARKED, STARTING), 0) && Current(STARTED, 0) && STARTED.handlers[0].holding.None?
  {
    hide Apply, HasWork, RunServer;
    assert STARTING[..0] == [] && STARTING[..2] == STARTING;
    NoEvents(PARKED);
    OneMoreEvent(PARKED, STARTING, 0);
    OneMoreEvent(PARKED, STARTING, 1);
    StartingDb();
    StartedHasWork();
  }

  lemma {:induction false} NoEvents(v: Server)
    ensures RunServer(v, []) == v
  {
  }

  /**
   The wake that is not sent: after these events the worker is parked on the current generation with
   a game to play, no wake is pending and none is owed; only the timer's wake gives it the game.
   */
  lemma {:induction false} SchedulerStartStrands()
    ensures var v := RunServer(NewServer(Empty()), PARKING + STARTING);
            Stranded(v, 0) && !v.pending && v.owed == 0
    ensures var w := RunServer(NewServer(Empty()), PARKING + STARTING + RESCUE);
            0 in w.loops && w.loops[0].phase == Working && Holds(w.db, 0)
  {
    hide RunServer, ParkedWithWork, Next, ServerInv, HasWork, Current;
    var start := NewServer(Empty());
    RunsFollow(start, PARKING, STARTING);
    WorkerParks();
    StartStrands();
    var v := RunServer(start, PARKING + STARTING);
    RunsFollow(start, PARKING + STARTING, RESCUE);
    FourEvents(v, RESCUE);
    Rescued(v);
  }

  lemma {:induction false} FourEvents(v: Server, events: seq<Event>)
    requires |events| == 4
    ensures RunServer(v, events) == Next(Next(Next(Next(v, events[0]), events[1]), events[2]), events[3])
  {
    hide Next;
    assert events[..0] == [] && events[..4] == events;
    OneMoreEvent(v, events, 0);
    OneMoreEvent(v, events, 1);
    OneMoreEvent(v, events, 2);
    OneMoreEvent(v, events, 3);
  }

  lemma {:induction false} Rescued(v: Server)
    requires v == RunServer(NewServer(Empty()), PARKING + STARTING) && Stranded(v, 0)
    requires Current(v.db, 0) && v.db.handlers[0].holding.None?
    ensures var w := Next(Next(Next(Next(v, BeginWake(false)), FinishWake), Resume(0)), TryClaim(0));
            0 in w.loops && w.loops[0].phase == Working && Holds(w.db, 0)
  {
    hide RunServer, Next, HasWork, Current, ServerInv;
    RunServerKeepsInv([], PARKING + STARTING);
    WakeBringsTheGame(v, 0, false);
  }
}
