/**
 The moves table over failed, interrupted and reassigned runs of a game
 (cope/runner/local.py, cope/runner/worker_server.py).

 Chess itself is not modelled: a legality predicate says which move may follow which moves from
 which starting position.
 */
module AssignmentLog {
  import opened Common
  import opened Assignments
  import opened AssignmentInvariant
  import opened AssignmentSteps
  import opened AssignmentWorkers
  import opened AssignmentHandlers
  import opened AssignmentSafety

  type Legality = (string, seq<Move>, Move) -> bool

  /** Every recorded move is legal after the moves recorded before it. */
  ghost predicate LegalLog(legal: Legality, g: Game)
  {
    forall i :: 0 <= i < |g.log| ==> legal(g.opening.fen, MovesOf(g.log)[..i], g.log[i].move)
  }

  ghost predicate LegalLogs(legal: Legality, s: State)
  {
    forall g | g in s.games :: LegalLog(legal, s.games[g])
  }

  /** The runner only plays moves that are legal on its own board. */
  ghost predicate LegalStep(legal: Legality, s: State, step: Step)
  {
    step.DoRecordMove? && Playing(s, step.session) ==>
      legal(s.games[s.handlers[step.session].holding.value.game].opening.fen, s.handlers[step.session].board.value, step.move)
  }

  ghost predicate LegalRun(legal: Legality, s: State, steps: seq<Step>)
  {
    forall k {:trigger steps[..k]} :: 0 <= k < |steps| ==> LegalStep(legal, Run(s, steps[..k]), steps[k])
  }

  /** The board of the runner whose assignment is current is the recorded game, whoever recorded it. */
  lemma {:induction false} CurrentBoardIsTheLog(s: State, session: SessionId)
    requires Inv(s) && Playing(s, session)
    ensures var g := s.handlers[session].holding.value.game;
            s.handlers[session].board.value == MovesOf(s.games[g].log)
  {
    hide Coupled, Bounded, GameOk, RowOk, Suits;
    ValidatedIsHeld(s, session);
  }

  // ---------------------------------------------------------------- what writes the log

  /** The step adds one row to the moves of the game, keyed by the next ply, under the current key. */
  ghost predicate AppendsMove(s: State, a: State, step: Step, g: GameId)
    requires g in s.games && g in a.games
  {
    && step.DoRecordMove? && Playing(s, step.session) && s.handlers[step.session].holding.value.game == g
    && var board := s.handlers[step.session].board.value;
    a.games[g].log == s.games[g].log + [LoggedMove(s.games[g].opening.ply + |board| + 1, step.move, s.rows[g].key)]
  }

  ghost predicate LogStepOk(s: State, step: Step, g: GameId)
  {
    var a := Apply(s, step);
    g in s.games && g in a.games ==>
      && a.games[g].opening == s.games[g].opening
      && (a.games[g].log == s.games[g].log || AppendsMove(s, a, step, g))
  }

  lemma {:induction false} LogWhileRunning(s: State, step: Step, g: GameId)
    requires RunningAssignment(step)
    ensures LogStepOk(s, step, g)
  {
  }

  lemma {:induction false} LogUnderAdmin(s: State, step: Step, g: GameId)
    requires !RunningAssignment(step) && g < s.nextGame
    ensures LogStepOk(s, step, g)
  {
    hide ActiveCount, Chosen, Suits, Playing;
  }

  /** Only a runner with the current assignment adds to a game's log, and it adds the next ply. */
  lemma {:induction false} LogGrowsByCurrentMoves(s: State, step: Step, g: GameId)
    requires g in s.games && g in Apply(s, step).games && g < s.nextGame
    ensures var a := Apply(s, step);
            && a.games[g].opening == s.games[g].opening
            && (a.games[g].log == s.games[g].log || AppendsMove(s, a, step, g))
  {
    hide Apply, AppendsMove;
    if RunningAssignment(step) {
      LogWhileRunning(s, step, g);
    } else {
      LogUnderAdmin(s, step, g);
    }
  }

  lemma {:induction false} RunningAddsNoGame(s: State, step: Step)
    requires RunningAssignment(step)
    ensures Apply(s, step).games.Keys == s.games.Keys
  {
    hide Validated, AbandonedRow;
  }

  lemma {:induction false} NewUnderAdmin(s: State, step: Step, g: GameId)
    requires !RunningAssignment(step) && g !in s.games && g in Apply(s, step).games
    ensures Apply(s, step).games[g].log == []
  {
    hide ActiveCount, Chosen, Suits;
  }

  lemma {:induction false} NewGamesAreEmpty(s: State, step: Step, g: GameId)
    requires g !in s.games && g in Apply(s, step).games
    ensures Apply(s, step).games[g].log == []
  {
    hide Apply;
    if RunningAssignment(step) {
      RunningAddsNoGame(s, step);
    } else {
      NewUnderAdmin(s, step, g);
    }
  }

  // ---------------------------------------------------------------- legality over runs

  lemma {:induction false} LegalAppend(legal: Legality, before: Game, after: Game, move: LoggedMove)
    requires LegalLog(legal, before) && after.opening == before.opening && after.log == before.log + [move]
    requires legal(before.opening.fen, MovesOf(before.log), move.move)
    ensures LegalLog(legal, after)
  {
    forall i | 0 <= i < |after.log| ensures legal(after.opening.fen, MovesOf(after.log)[..i], after.log[i].move) {
      if i < |before.log| {
        assert MovesOf(after.log)[..i] == MovesOf(before.log)[..i];
      } else {
        assert MovesOf(after.log)[..i] == MovesOf(before.log);
      }
    }
  }

  lemma {:induction false} StepKeepsLogsLegal(legal: Legality, s: State, step: Step)
    requires Inv(s) && LegalLogs(legal, s) && LegalStep(legal, s, step)
    ensures LegalLogs(legal, Apply(s, step))
  {
    hide Coupled, Bounded, Apply, LegalLog;
    var a := Apply(s, step);
    forall g | g in a.games ensures LegalLog(legal, a.games[g]) {
      if g in s.games {
        GamesBelow(s, g);
        LogGrowsByCurrentMoves(s, step, g);
        if a.games[g].log != s.games[g].log {
          CurrentBoardIsTheLog(s, step.session);
          LegalAppend(legal, s.games[g], a.games[g], a.games[g].log[|s.games[g].log|]);
        } else {
          SameLogIsLegal(legal, s.games[g], a.games[g]);
        }
      } else {
        NewGamesAreEmpty(s, step, g);
        EmptyLogIsLegal(legal, a.games[g]);
      }
    }
  }

  lemma {:induction false} SameLogIsLegal(legal: Legality, before: Game, after: Game)
    requires LegalLog(legal, before) && after.opening == before.opening && after.log == before.log
    ensures LegalLog(legal, after)
  {
  }

  lemma {:induction false} EmptyLogIsLegal(legal: Legality, g: Game)
    requires g.log == []
    ensures LegalLog(legal, g)
  {
  }

  /**
   The move log survives crashes: after any run in which every runner, current or stale, only
   plays moves legal on its own board, the recorded moves of each game are one legal game from
   its opening, without a gap in the plies, and written under keys that never go back.
   */
  lemma {:induction false} LogsAreGapFreeAndLegal(legal: Legality, steps: seq<Step>, g: GameId)
    requires LegalRun(legal, Empty(), steps) && g in Run(Empty(), steps).games
    ensures var game := Run(Empty(), steps).games[g];
            && LegalLog(legal, game)
            && (forall i :: 0 <= i < |game.log| ==> game.log[i].ply == game.opening.ply + i + 1)
            && (forall i, j :: 0 <= i < j < |game.log| ==> game.log[i].key <= game.log[j].key)
  {
    hide LegalRun, RowOk, HandlerOk, WorkerOk, Apart, TournamentOk, Run, LegalLog;
    EmptyInv();
    RunKeepsInv(Empty(), steps);
    RunKeepsLogsLegal(legal, Empty(), steps);
    assert GameOk(Run(Empty(), steps), g);
  }

  lemma {:induction false} RunKeepsLogsLegal(legal: Legality, s: State, steps: seq<Step>)
    requires Inv(s) && LegalLogs(legal, s) && LegalRun(legal, s, steps)
    ensures LegalLogs(legal, Run(s, steps))
  {
    hide Coupled, Bounded, Apply, LegalLogs, LegalStep;
    if steps != [] {
      var before := steps[..|steps| - 1];
      forall k {:trigger before[..k]} | 0 <= k < |before| ensures LegalStep(legal, Run(s, before[..k]), before[k]) {
        assert before[..k] == steps[..k];
      }
      RunKeepsInv(s, before);
      RunKeepsLogsLegal(legal, s, before);
      assert LegalStep(legal, Run(s, before), steps[|steps| - 1]);
      StepKeepsLogsLegal(legal, Run(s, before), steps[|steps| - 1]);
    }
  }

  /** Setting up the board from the recorded moves, as every run of a game begins, never meets an illegal one. */
  method ApplyRecordedMoves(legal: Legality, game: Game) returns (board: seq<Move>, illegalAt: Option<nat>)
    ensures illegalAt.None? ==> board == MovesOf(game.log)
    ensures illegalAt.None? <==> LegalLog(legal, game)
  {
    board, illegalAt := [], None;
    for i := 0 to |game.log|
      invariant board == MovesOf(game.log)[..i]
      invariant forall j :: 0 <= j < i ==> legal(game.opening.fen, MovesOf(game.log)[..j], game.log[j].move)
    {
      var move := game.log[i].move;
      if !legal(game.opening.fen, board, move) {
        illegalAt := Some(game.log[i].ply);
        return;
      }
      board := board + [move];
    }
  }
}
