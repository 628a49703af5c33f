/**
 What holds over every run of the assignment transactions, in any interleaving
 (cope/db/repo.py, cope/runner/local.py, cope/runner/worker_server.py).
 */
module AssignmentSafety {
  import opened Common
  import opened Assignments
  import opened AssignmentInvariant
  import opened AssignmentSteps
  import opened AssignmentWorkers
  import opened AssignmentHandlers

  // ---------------------------------------------------------------- the invariant over runs

  lemma {:induction false} StepKeepsInv(s: State, step: Step)
    requires Inv(s)
    ensures Inv(Apply(s, step))
  {
    hide Inv, AddTournament, EditTournament, SetStatus, AddGame, DeleteTournament, MintWorker, Connect, Disconnect, Revoke,
      DeleteWorker, ReportStatus, Claim, Acknowledge, GoLive, RecordMove, FinishGame, FailAssignment;
    match step
    case DoAddTournament(config) => AddTournamentKeeps(s, config);
    case DoEditTournament(t, config) => EditTournamentKeeps(s, t, config);
    case DoAdminAction(t, target) =>
      if target != Draft {
        SetStatusKeeps(s, t, target);
      }
    case DoStartTournament(t) => SetStatusKeeps(s, t, Running);
    case DoAddGame(t, basePly) => AddGameKeeps(s, t, basePly);
    case DoFinishTournament(t) =>
      SetStatusKeeps(s, t, Aborted);
      SetStatusKeeps(s, t, Complete);
    case DoDeleteTournament(t) => DeleteTournamentKeeps(s, t);
    case DoMintWorker(resources) => MintWorkerKeeps(s, resources);
    case DoConnect(w, hw) => ConnectKeeps(s, w, hw);
    case DoDisconnect(w, session) => DisconnectKeeps(s, w, session);
    case DoRevoke(w) => RevokeKeeps(s, w);
    case DoDeleteWorker(w) => RevokeKeeps(s, w);
    case DoReportStatus(session, status) => ReportStatusKeeps(s, session, status);
    case DoClaim(session) => ClaimKeeps(s, session);
    case DoAcknowledge(session) => AcknowledgeKeeps(s, session);
    case DoGoLive(session) => GoLiveKeeps(s, session);
    case DoRecordMove(session, move) => RecordMoveKeeps(s, session, move);
    case DoFinishGame(session, result) => FinishGameKeeps(s, session, result);
    case DoFailAssignment(session) => FailAssignmentKeeps(s, session);
  }

  lemma {:induction false} RunKeepsInv(s: State, steps: seq<Step>)
    requires Inv(s)
    ensures Inv(Run(s, steps))
  {
    hide Inv, Apply;
    if steps != [] {
      RunKeepsInv(s, steps[..|steps| - 1]);
      StepKeepsInv(Run(s, steps[..|steps| - 1]), steps[|steps| - 1]);
    }
  }

  // ---------------------------------------------------------------- terminal games

  /** What a game knows for good: its record may vanish with its tournament, but never changes or comes back. */
  ghost predicate Frozen(s: State, a: State, g: GameId)
    requires g in s.games
  {
    s.nextGame <= a.nextGame && (g in a.games ==> a.games[g] == s.games[g])
  }

  lemma {:induction false} TerminalIsNotValidated(s: State, session: SessionId)
    requires Coupled(s) && Holds(s, session) && Validated(s, s.handlers[session].holding.value)
    ensures s.handlers[session].holding.value.game in s.games
    ensures !Terminal(s.games[s.handlers[session].holding.value.game])
  {
    hide HeldWell, LogOk;
    ValidatedIsHeld(s, session);
  }

  /** The steps of a handler that holds an assignment. */
  predicate RunningAssignment(step: Step)
  {
    step.DoAcknowledge? || step.DoGoLive? || step.DoRecordMove? || step.DoFinishGame? || step.DoFailAssignment?
  }

  lemma {:induction false} TerminalWhileRunning(s: State, step: Step, g: GameId)
    requires Inv(s) && g in s.games && Terminal(s.games[g]) && RunningAssignment(step)
    ensures Frozen(s, Apply(s, step), g)
  {
    hide Coupled, Bounded;
    if Playing(s, step.session) {
      TerminalIsNotValidated(s, step.session);
    }
  }

  lemma {:induction false} TerminalUnderAdmin(s: State, step: Step, g: GameId)
    requires Inv(s) && g in s.games && Terminal(s.games[g]) && !RunningAssignment(step)
    ensures Frozen(s, Apply(s, step), g)
  {
    hide Coupled, Bounded, ActiveCount, Chosen, Suits;
    GamesBelowNext(s);
  }

  lemma {:induction false} TerminalStep(s: State, step: Step, g: GameId)
    requires Inv(s) && g in s.games && Terminal(s.games[g])
    ensures Frozen(s, Apply(s, step), g)
  {
    hide Inv, Apply, Frozen;
    if RunningAssignment(step) {
      TerminalWhileRunning(s, step, g);
    } else {
      TerminalUnderAdmin(s, step, g);
    }
  }

  /** Ids are handed out once: a game that is gone stays gone. */
  lemma {:induction false} GoneStep(s: State, step: Step, g: GameId)
    requires Inv(s) && g !in s.games && g < s.nextGame
    ensures g !in Apply(s, step).games && g < Apply(s, step).nextGame
  {
    hide Coupled, Bounded, ActiveCount, Chosen, Suits;
    if RunningAssignment(step) && Holds(s, step.session) && Validated(s, s.handlers[step.session].holding.value) {
      TerminalIsNotValidated(s, step.session);
    }
  }

  /**
   Finished and abandoned are absorbing: whatever happens afterwards, the record of the game, its
   result and its moves included, is what it was, for as long as the game exists. So a result is
   written at most once.
   */
  lemma {:induction false} TerminalForever(s: State, steps: seq<Step>, g: GameId)
    requires Inv(s) && g in s.games && Terminal(s.games[g])
    ensures g in Run(s, steps).games ==> Run(s, steps).games[g] == s.games[g]
    ensures g < Run(s, steps).nextGame
  {
    hide Inv, Apply;
    if steps == [] {
      GamesBelow(s, g);
    } else {
      var before := steps[..|steps| - 1];
      RunKeepsInv(s, before);
      TerminalForever(s, before, g);
      if g in Run(s, before).games {
        GamesBelow(Run(s, before), g);
        TerminalStep(Run(s, before), steps[|steps| - 1], g);
      } else {
        GoneStep(Run(s, before), steps[|steps| - 1], g);
      }
    }
  }

  lemma {:induction false} GamesBelow(s: State, g: GameId)
    requires Inv(s) && g in s.games
    ensures g < s.nextGame
  {
    hide Coupled, Bounded;
    GamesBelowNext(s);
  }

  // ---------------------------------------------------------------- superseded assignments

  /** A step under an assignment that is not current and active any more touches no table. */
  lemma {:induction false} StaleStepChangesNothing(s: State, session: SessionId, move: Move, result: Result)
    requires Inv(s) && Holds(s, session) && !Validated(s, s.handlers[session].holding.value)
    ensures Acknowledge(s, session) == s && GoLive(s, session) == s
    ensures RecordMove(s, session, move) == s && FinishGame(s, session, result) == s
    ensures FailAssignment(s, session) == PutDown(s, session)
  {
    hide Coupled, Bounded;
    InactivePayload(s, s.handlers[session].holding.value);
  }

  /** Once a payload is no longer validated, it never is again. */
  ghost predicate Dead(s: State, p: Payload)
  {
    p.key < s.nextKey && !Validated(s, p)
  }

  lemma {:induction false} DeadWhileRunning(s: State, step: Step, p: Payload)
    requires Inv(s) && Dead(s, p) && RunningAssignment(step)
    ensures Dead(Apply(s, step), p)
  {
    hide Coupled, Bounded;
    if Holds(s, step.session) && !Validated(s, s.handlers[step.session].holding.value) {
      StaleStepChangesNothing(s, step.session, 0, Drawn);
    }
  }

  lemma {:induction false} DeadUnderAdmin(s: State, step: Step, p: Payload)
    requires Inv(s) && Dead(s, p) && !RunningAssignment(step)
    ensures Dead(Apply(s, step), p)
  {
    hide Coupled, Bounded, ActiveCount, Chosen, Suits;
  }

  /** An assignment once lost, by failure, disconnect, revocation, abort or a new claim, is lost for good. */
  lemma {:induction false} DeadForever(s: State, steps: seq<Step>, p: Payload)
    requires Inv(s) && Dead(s, p)
    ensures Dead(Run(s, steps), p)
  {
    hide Inv, Apply, Dead;
    if steps != [] {
      var before := steps[..|steps| - 1];
      RunKeepsInv(s, before);
      DeadForever(s, before, p);
      if RunningAssignment(steps[|steps| - 1]) {
        DeadWhileRunning(Run(s, before), steps[|steps| - 1], p);
      } else {
        DeadUnderAdmin(Run(s, before), steps[|steps| - 1], p);
      }
    }
  }

  // ---------------------------------------------------------------- claim safety

  lemma {:induction false} SuitsInNumbers(w: Worker, t: Tournament)
    requires Suits(w, t) && t.profile == Some(w.hw.value.profile)
    ensures w.resources.threads >= t.config.engineThreads
    ensures w.resources.hashMb >= t.config.engineHashMb + t.config.engineHashMb
    ensures w.hw.Some? && t.profile.Some? && t.profile.value == w.hw.value.profile
  {
  }

  /**
   An active assignment belongs to an active game and is held by a connected worker with enough
   threads for an engine and enough memory for two, on the tournament's pinned hardware; and two
   active assignments never share a worker.
   */
  lemma {:induction false} ActiveAssignmentsAreSafe(steps: seq<Step>, g: GameId, h: GameId)
    requires g in Run(Empty(), steps).rows && Run(Empty(), steps).rows[g].status in {RowAssigned, RowAcked, RowLive}
    requires h in Run(Empty(), steps).rows && Run(Empty(), steps).rows[h].status in {RowAssigned, RowAcked, RowLive}
    ensures var s := Run(Empty(), steps);
            && g in s.games && ActiveGame(s.games[g])
            && s.rows[g].worker.Some? && s.rows[g].worker.value in s.workers
            && s.games[g].tournament in s.tournaments
            && s.tournaments[s.games[g].tournament].profile.Some?
            && Suits(s.workers[s.rows[g].worker.value], s.tournaments[s.games[g].tournament])
            && (var w, t := s.workers[s.rows[g].worker.value], s.tournaments[s.games[g].tournament];
                && w.resources.threads >= t.config.engineThreads
                && w.resources.hashMb >= t.config.engineHashMb + t.config.engineHashMb
                && w.hw.Some? && t.profile == Some(w.hw.value.profile)
                && w.status in {Connected, Downloading, Ready, Busy} && w.session.Some?)
            && (g != h ==> s.rows[g].worker != s.rows[h].worker)
  {
    hide Run, GameOk, Suits, HandlerOk, WorkerOk;
    var s := Run(Empty(), steps);
    EmptyInv();
    RunKeepsInv(Empty(), steps);
    HolderOf(s, g);
    HolderOf(s, h);
    RowHasGame(s, g);
    assert RowOk(s, g) && RowOk(s, h);
    assert GameOk(s, g);
    ActiveRowActiveGame(s, g);
    SuitsInNumbers(s.workers[s.rows[g].worker.value], s.tournaments[s.games[g].tournament]);
    assert Apart(s, g, h);
  }

  lemma {:induction false} ActiveRowActiveGame(s: State, g: GameId)
    requires g in s.games && g in s.rows && GameOk(s, g)
    ensures ActiveGame(s.games[g]) <==> ActiveRow(s.rows[g])
  {
  }

  /** At any time a tournament has no more active games than its concurrency. */
  lemma {:induction false} ConcurrencyIsRespected(steps: seq<Step>, t: TournamentId)
    requires t in Run(Empty(), steps).tournaments
    ensures var s := Run(Empty(), steps);
            ActiveCount(s.games, t, s.nextGame) <= s.tournaments[t].config.concurrency
  {
    hide Run, Coupled, ActiveCount;
    EmptyInv();
    RunKeepsInv(Empty(), steps);
    assert TournamentOk(Run(Empty(), steps), t);
  }

  /** A finished game has a result, and no other game has one; it is active just when its assignment is. */
  lemma {:induction false} GamesAndRowsAgree(steps: seq<Step>, g: GameId)
    requires g in Run(Empty(), steps).games
    ensures var s := Run(Empty(), steps);
            && (ActiveGame(s.games[g]) <==> g in s.rows && ActiveRow(s.rows[g]))
            && (s.games[g].status == Live <==> g in s.rows && s.rows[g].status == RowLive)
            && (s.games[g].status == Finished <==> s.games[g].result.Some?)
  {
    hide Run, RowOk, HandlerOk, WorkerOk, Apart, TournamentOk, LogOk;
    EmptyInv();
    RunKeepsInv(Empty(), steps);
    assert GameOk(Run(Empty(), steps), g);
  }

  lemma {:induction false} PinnedWhileRunning(s: State, step: Step, t: TournamentId)
    requires RunningAssignment(step)
    ensures Apply(s, step).tournaments == s.tournaments && Apply(s, step).nextTournament == s.nextTournament
  {
    hide Validated;
  }

  lemma {:induction false} PinnedUnderAdmin(s: State, step: Step, t: TournamentId)
    requires t in s.tournaments && t < s.nextTournament && s.tournaments[t].profile.Some? && !RunningAssignment(step)
    ensures var a := Apply(s, step);
            t in a.tournaments ==> a.tournaments[t].profile == s.tournaments[t].profile
  {
    hide ActiveCount, FirstPending, ReleaseAs, RemoveWorker, OpenSession, ReportStatus, MintWorker;
    ReleaseKeepsTournaments(s, step);
  }

  lemma {:induction false} ReleaseKeepsTournaments(s: State, step: Step)
    ensures step.DoConnect? || step.DoDisconnect? || step.DoRevoke? || step.DoDeleteWorker? || step.DoReportStatus? || step.DoMintWorker? ==>
              Apply(s, step).tournaments == s.tournaments && Apply(s, step).nextTournament == s.nextTournament
  {
  }

  lemma {:induction false} PinnedStep(s: State, step: Step, t: TournamentId)
    requires Inv(s) && t in s.tournaments && s.tournaments[t].profile.Some?
    ensures var a := Apply(s, step);
            t in a.tournaments ==> a.tournaments[t].profile == s.tournaments[t].profile
  {
    hide Inv, Apply;
    TournamentBelow(s, t);
    if RunningAssignment(step) {
      PinnedWhileRunning(s, step, t);
    } else {
      PinnedUnderAdmin(s, step, t);
    }
  }

  lemma {:induction false} TournamentBelow(s: State, t: TournamentId)
    requires Inv(s) && t in s.tournaments
    ensures t < s.nextTournament
  {
    hide GameOk, RowOk, HandlerOk, WorkerOk, Apart, TournamentOk;
  }

  lemma {:induction false} TournamentIds(s: State, step: Step, t: TournamentId)
    requires Inv(s) && t < s.nextTournament
    ensures t < Apply(s, step).nextTournament
    ensures t !in s.tournaments ==> t !in Apply(s, step).tournaments
  {
    hide Coupled, Bounded, ActiveCount, Chosen, Suits, FirstPending, ReleaseAs, RemoveWorker, OpenSession, ReportStatus, MintWorker;
    ReleaseKeepsTournaments(s, step);
    if RunningAssignment(step) {
      PinnedWhileRunning(s, step, t);
    }
  }

  /** The hardware profile a tournament is pinned to never changes. */
  lemma {:induction false} PinnedForever(s: State, steps: seq<Step>, t: TournamentId)
    requires Inv(s) && t in s.tournaments && s.tournaments[t].profile.Some?
    ensures var a := Run(s, steps);
            && t < a.nextTournament
            && (t in a.tournaments ==> a.tournaments[t].profile == s.tournaments[t].profile)
  {
    hide Coupled, Bounded, Apply;
    TournamentBelow(s, t);
    if steps != [] {
      var before := steps[..|steps| - 1];
      RunKeepsInv(s, before);
      PinnedForever(s, before, t);
      TournamentIds(Run(s, before), steps[|steps| - 1], t);
      if t in Run(s, before).tournaments {
        PinnedStep(Run(s, before), steps[|steps| - 1], t);
      }
    }
  }

  // ---------------------------------------------------------------- rows

  ghost predicate RowStep(s: State, a: State, g: GameId)
  {
    g in s.rows && g in a.rows ==>
      a.rows[g].id == s.rows[g].id && (a.rows[g].key == s.rows[g].key || a.rows[g].key == s.nextKey)
  }

  lemma {:induction false} RowWhileRunning(s: State, step: Step, g: GameId)
    requires RunningAssignment(step)
    ensures RowStep(s, Apply(s, step), g)
  {
    hide Validated;
  }

  lemma {:induction false} RowUnderAdmin(s: State, step: Step, g: GameId)
    requires !RunningAssignment(step)
    ensures RowStep(s, Apply(s, step), g)
  {
    hide ActiveCount, Chosen, Suits;
  }

  /** A game keeps its assignment row: the id stays, and a new claim brings a key that was never used. */
  lemma {:induction false} RowIdentity(s: State, step: Step, g: GameId)
    requires g in s.rows && g in Apply(s, step).rows
    ensures var a := Apply(s, step);
            a.rows[g].id == s.rows[g].id && (a.rows[g].key == s.rows[g].key || a.rows[g].key == s.nextKey)
  {
    hide Apply;
    if RunningAssignment(step) {
      RowWhileRunning(s, step, g);
    } else {
      RowUnderAdmin(s, step, g);
    }
  }
}
