/**
 Playing one assigned game (cope/runner/local.py, cope/tournament/game_runner.py,
 cope/tournament/game_state.py): the move loop, its end by outcome, loss or move limit, and what
 an interrupted run leaves for the next one.

 Chess is a pair of functions: which move may follow which moves, and which result a position has
 on the board (draw claims included). Engines and clocks are replies: each run has its own, one for
 every position it comes to, because a new run starts new clocks and searches again.
 */
module GameRun {
  import opened Common

  type Move = int

  datatype Color = White | Black

  datatype Result = WhiteWins | BlackWins | Drawn

  datatype Rules = Rules(legal: (string, seq<Move>, Move) -> bool, outcome: (string, seq<Move>) -> Option<Result>)

  datatype Opening = Opening(fen: string, ply: nat)

  /** A row of the moves table, as far as the result depends on it. */
  datatype Recorded = Recorded(ply: nat, move: Move, evalMate: Option<int>, evalCp: Option<int>)

  /** How a search ends: an answer, perhaps past the flag, a timeout, or an engine error. */
  datatype Reply =
    | Answer(move: Option<Move>, flagged: bool, evalMate: Option<int>, evalCp: Option<int>)
    | TimedOut
    | Failed

  function Other(c: Color): Color { if c == White then Black else White }

  function WinFor(c: Color): Result { if c == White then WhiteWins else BlackWins }

  /** The side to move at a ply count. */
  function ToMove(ply: nat): Color { if ply % 2 == 0 then White else Black }

  function MovesOf(log: seq<Recorded>): (moves: seq<Move>)
    ensures |moves| == |log|
  {
    seq(|log|, i requires 0 <= i < |log| => log[i].move)
  }

  function PlyAfter(o: Opening, log: seq<Recorded>): nat { o.ply + |log| }

  /** Plies follow each other from the opening, and every move is legal after the ones before it. */
  ghost predicate GoodLog(rules: Rules, o: Opening, log: seq<Recorded>)
  {
    forall i :: 0 <= i < |log| ==> log[i].ply == o.ply + i + 1 && rules.legal(o.fen, MovesOf(log)[..i], log[i].move)
  }

  // ---------------------------------------------------------------- the move limit

  /** The last evaluation on record, seen from white's side. */
  datatype Score = NoScore | MateIn(n: int) | Centipawns(cp: int)

  function MoverSign(ply: nat): int { if ply % 2 == 1 then 1 else -1 }

  function RowScore(row: Recorded): Score
  {
    if row.evalMate.Some? then MateIn(MoverSign(row.ply) * row.evalMate.value)
    else if row.evalCp.Some? then Centipawns(MoverSign(row.ply) * row.evalCp.value)
    else NoScore
  }

  function LatestScore(log: seq<Recorded>): Score
  {
    if log == [] then NoScore
    else if RowScore(log[|log| - 1]) != NoScore then RowScore(log[|log| - 1])
    else LatestScore(log[..|log| - 1])
  }

  method LatestWhiteRelativeScore(log: seq<Recorded>) returns (score: Score)
    ensures score == LatestScore(log)
  {
    var i := |log|;
    assert log[..i] == log;
    while i > 0
      invariant i <= |log| && LatestScore(log) == LatestScore(log[..i])
    {
      assert log[..i][..i - 1] == log[..i - 1];
      i := i - 1;
      var row := log[i];
      var moverSign := if row.ply % 2 == 1 then 1 else -1;
      if row.evalMate.Some? {
        return MateIn(moverSign * row.evalMate.value);
      }
      if row.evalCp.Some? {
        return Centipawns(moverSign * row.evalCp.value);
      }
    }
    return NoScore;
  }

  function MaxMovesResult(log: seq<Recorded>, threshold: nat): Result
  {
    match LatestScore(log)
    case NoScore => Drawn
    case MateIn(n) => if n > 0 then WhiteWins else if n < 0 then BlackWins else Drawn
    case Centipawns(cp) => if cp >= threshold then WhiteWins else if cp <= 0 - threshold then BlackWins else Drawn
  }

  /** The result the mover of a row claims with its evaluation, in the mover's own terms. */
  function MoverVerdict(row: Recorded, mover: Color, threshold: nat): Result
    requires row.evalMate.Some? || row.evalCp.Some?
  {
    if row.evalMate.Some? then
      if row.evalMate.value > 0 then WinFor(mover) else if row.evalMate.value < 0 then WinFor(Other(mover)) else Drawn
    else if row.evalCp.value >= threshold then WinFor(mover)
    else if row.evalCp.value <= 0 - threshold then WinFor(Other(mover))
    else Drawn
  }

  /**
   At the move limit the last evaluated move decides, as its own mover sees it: whichever side
   that was, a good score for the mover wins for the mover and a bad one for the opponent.
   */
  lemma {:induction false} MaxMovesIsTheMoversVerdict(o: Opening, log: seq<Recorded>, i: nat, threshold: nat)
    requires i < |log| && threshold > 0 && log[i].ply == o.ply + i + 1
    requires log[i].evalMate.Some? || log[i].evalCp.Some?
    requires forall j :: i < j < |log| ==> log[j].evalMate.None? && log[j].evalCp.None?
    ensures MaxMovesResult(log, threshold) == MoverVerdict(log[i], ToMove(o.ply + i), threshold)
    decreases |log|
  {
    if i < |log| - 1 {
      MaxMovesIsTheMoversVerdict(o, log[..|log| - 1], i, threshold);
    }
  }

  lemma {:induction false} NoEvaluationIsADraw(log: seq<Recorded>, threshold: nat)
    requires forall j :: 0 <= j < |log| ==> log[j].evalMate.None? && log[j].evalCp.None?
    ensures MaxMovesResult(log, threshold) == Drawn
  {
    if log != [] {
      NoEvaluationIsADraw(log[..|log| - 1], threshold);
    }
  }

  // ---------------------------------------------------------------- one move

  datatype Turn = Moved(row: Recorded) | LostBy(loser: Color)

  /** What becomes of a reply: a legal move in time, or a loss for the side to move. */
  function TakeTurn(rules: Rules, o: Opening, log: seq<Recorded>, reply: Reply): Turn
  {
    var ply := PlyAfter(o, log);
    match reply
    case TimedOut => LostBy(ToMove(ply))
    case Failed => LostBy(ToMove(ply))
    case Answer(move, flagged, mate, cp) =>
      if flagged || move.None? || !rules.legal(o.fen, MovesOf(log), move.value) then LostBy(ToMove(ply))
      else Moved(Recorded(ply + 1, move.value, mate, cp))
  }

  /** A legal move, given before the flag fell. */
  ghost predicate GoodAnswer(rules: Rules, o: Opening, moves: seq<Move>, reply: Reply)
  {
    reply.Answer? && !reply.flagged && reply.move.Some? && rules.legal(o.fen, moves, reply.move.value)
  }

  /** A reply makes a move exactly when it is a good answer; a timeout, an error, a flag, no move or an illegal one loses. */
  lemma {:induction false} TurnsAreDecidedByReplies(rules: Rules, o: Opening, log: seq<Recorded>, reply: Reply)
    ensures var turn := TakeTurn(rules, o, log, reply);
            && (turn.Moved? <==> reply.Answer? && !reply.flagged && reply.move.Some? && rules.legal(o.fen, MovesOf(log), reply.move.value))
            && (turn.Moved? ==> turn.row == Recorded(o.ply + |log| + 1, reply.move.value, reply.evalMate, reply.evalCp))
            && (turn.LostBy? ==> turn.loser == if (o.ply + |log|) % 2 == 0 then White else Black)
  {
  }

  /** What a run leaves: the moves on record, and the result if it came to one. */
  datatype Ran = Ran(log: seq<Recorded>, result: Option<Result>)

  /** One run from what is on record; it may be cut short after some number of moves of its own. */
  function RunOnce(
    rules: Rules, o: Opening, log: seq<Recorded>, replies: seq<Recorded> -> Reply, stop: Option<nat>, maxPlies: nat, threshold: nat): Ran
    decreases maxPlies - PlyAfter(o, log)
  {
    var outcome := rules.outcome(o.fen, MovesOf(log));
    if stop == Some(0) then Ran(log, None)
    else if outcome.Some? then Ran(log, outcome)
    else if PlyAfter(o, log) >= maxPlies then Ran(log, Some(MaxMovesResult(log, threshold)))
    else
      match TakeTurn(rules, o, log, replies(log))
      case LostBy(loser) => Ran(log, Some(WinFor(Other(loser))))
      case Moved(row) => RunOnce(rules, o, log + [row], replies, Fewer(stop), maxPlies, threshold)
  }

  function Fewer(stop: Option<nat>): Option<nat>
  {
    if stop.Some? && stop.value > 0 then Some(stop.value - 1) else stop
  }

  // ---------------------------------------------------------------- the run

  lemma {:induction false} GoodAppend(rules: Rules, o: Opening, log: seq<Recorded>, reply: Reply)
    requires GoodLog(rules, o, log) && TakeTurn(rules, o, log, reply).Moved?
    ensures GoodLog(rules, o, log + [TakeTurn(rules, o, log, reply).row])
    ensures MovesOf(log + [TakeTurn(rules, o, log, reply).row]) == MovesOf(log) + [reply.move.value]
  {
    var row := TakeTurn(rules, o, log, reply).row;
    var after := log + [row];
    forall i | 0 <= i < |after| ensures after[i].ply == o.ply + i + 1 && rules.legal(o.fen, MovesOf(after)[..i], after[i].move) {
      if i < |log| {
        assert MovesOf(after)[..i] == MovesOf(log)[..i];
      } else {
        assert MovesOf(after)[..i] == MovesOf(log);
      }
    }
  }

  /** GameRunner and GameState over the recorded moves of one game. */
  class RunningGame {
    const rules: Rules
    const opening: Opening
    /** The rows of the moves table. */
    var log: seq<Recorded>
    /** The runner's own board. */
    var board: seq<Move>
    var result: Option<Result>

    /** A new run of the game: the board is set up from the recorded moves. */
    constructor (rules: Rules, opening: Opening, log: seq<Recorded>)
      ensures this.rules == rules && this.opening == opening && this.log == log && board == MovesOf(log)
      ensures result == rules.outcome(opening.fen, MovesOf(log))
    {
      this.rules := rules;
      this.opening := opening;
      this.log := log;
      board := MovesOf(log);
      result := rules.outcome(opening.fen, MovesOf(log));
    }

    /** record_timeout, record_illegal_move and record_engine_error */
    method RecordLoss(loser: Color)
      modifies this`result
      ensures result == Some(WinFor(Other(loser)))
    {
      result := Some(if loser == White then BlackWins else WhiteWins);
    }

    /** run_next_move: no move comes back only from a game that is decided. */
    method RunNextMove(reply: Reply) returns (move: Option<Move>)
      requires board == MovesOf(log)
      modifies this`board, this`result
      ensures old(result).Some? ==> move.None? && board == old(board) && result == old(result)
      ensures old(result).None? && GoodAnswer(rules, opening, old(board), reply) ==>
                && move == reply.move && board == old(board) + [reply.move.value]
                && result == rules.outcome(opening.fen, board)
      ensures old(result).None? && !GoodAnswer(rules, opening, old(board), reply) ==>
                && move.None? && board == old(board)
                && result == Some(if (opening.ply + |board|) % 2 == 0 then BlackWins else WhiteWins)
      ensures move.None? ==> result.Some?
    {
      if result.Some? {
        return None;
      }
      var sideToMove := ToMove(opening.ply + |board|);
      move := None;
      if reply.TimedOut? || reply.Failed? {
        RecordLoss(sideToMove);
        return;
      }
      if reply.flagged {
        RecordLoss(sideToMove);
        return;
      }
      if reply.move.None? {
        RecordLoss(sideToMove);
        return;
      }
      if !rules.legal(opening.fen, board, reply.move.value) {
        RecordLoss(sideToMove);
        return;
      }
      board := board + [reply.move.value];
      result := rules.outcome(opening.fen, board);
      move := reply.move;
    }

    /**
     The loop of run_worker_assignment_game. The assignment may turn out stale at any validation;
     then the run ends without a result after the moves it has recorded.
     */
    method Play(replies: seq<Recorded> -> Reply, current: nat -> bool, maxPlies: nat, threshold: nat)
      returns (final: Option<Result>, ghost stop: Option<nat>)
      requires board == MovesOf(log) && result == rules.outcome(opening.fen, MovesOf(log)) && GoodLog(rules, opening, log)
      modifies this
      ensures old(log) <= log && GoodLog(rules, opening, log)
      ensures Ran(log, final) == RunOnce(rules, opening, old(log), replies, stop, maxPlies, threshold)
      ensures final.Some? <==> stop.None?
      ensures (forall k: nat :: current(k)) ==> final.Some?
    {
      hide MaxMovesResult, GoodLog, RunOnce;
      var check: nat := 0;
      ghost var found := log;
      stop := Some(0);
      StopAtOnce(rules, opening, log, replies, maxPlies, threshold);
      while result.None? && opening.ply + |board| < maxPlies
        invariant found <= log && GoodLog(rules, opening, log) && board == MovesOf(log)
        invariant stop == Some(|log| - |found|)
        invariant RunOnce(rules, opening, found, replies, stop, maxPlies, threshold) == Ran(log, None)
        invariant RunOnce(rules, opening, found, replies, None, maxPlies, threshold) ==
                  RunOnce(rules, opening, log, replies, None, maxPlies, threshold)
        invariant result == rules.outcome(opening.fen, MovesOf(log)) ||
                  (result.Some? && Ran(log, result) == RunOnce(rules, opening, found, replies, None, maxPlies, threshold))
        decreases result.None?, maxPlies - (opening.ply + |board|)
      {
        OneTurn(rules, opening, log, replies, maxPlies, threshold);
        if !current(check) {
          return None, stop;
        }
        check := check + 1;
        var reply := replies(log);
        var move := RunNextMove(reply);
        if move.None? {
          break;
        }
        if !current(check) {
          return None, stop;
        }
        check := check + 1;
        GoodAppend(rules, opening, log, reply);
        StopOneLater(rules, opening, found, log, replies, maxPlies, threshold);
        log := log + [Recorded(opening.ply + |board|, move.value, reply.evalMate, reply.evalCp)];
        stop := Some(|log| - |found|);
      }
      if !current(check) {
        return None, stop;
      }
      OneTurn(rules, opening, log, replies, maxPlies, threshold);
      if result.None? {
        return Some(MaxMovesResult(log, threshold)), None;
      }
      return result, None;
    }
  }

  lemma {:induction false} StopAtOnce(
    rules: Rules, o: Opening, log: seq<Recorded>, replies: seq<Recorded> -> Reply, maxPlies: nat, threshold: nat)
    ensures RunOnce(rules, o, log, replies, Some(0), maxPlies, threshold) == Ran(log, None)
  {
  }

  lemma {:induction false} OneTurn(
    rules: Rules, o: Opening, log: seq<Recorded>, replies: seq<Recorded> -> Reply, maxPlies: nat, threshold: nat)
    ensures var outcome := rules.outcome(o.fen, MovesOf(log));
            RunOnce(rules, o, log, replies, None, maxPlies, threshold)
            == if outcome.Some? then Ran(log, outcome)
               else if PlyAfter(o, log) >= maxPlies then Ran(log, Some(MaxMovesResult(log, threshold)))
               else
                 match TakeTurn(rules, o, log, replies(log))
                 case LostBy(loser) => Ran(log, Some(WinFor(Other(loser))))
                 case Moved(row) => RunOnce(rules, o, log + [row], replies, None, maxPlies, threshold)
  {
  }

  /** A run that stopped after its moves so far would have stopped one move later with one move more. */
  lemma {:induction false} StopOneLater(
    rules: Rules, o: Opening, found: seq<Recorded>, log: seq<Recorded>, replies: seq<Recorded> -> Reply, maxPlies: nat, threshold: nat)
    requires found <= log
    requires RunOnce(rules, o, found, replies, Some(|log| - |found|), maxPlies, threshold) == Ran(log, None)
    requires rules.outcome(o.fen, MovesOf(log)).None? && PlyAfter(o, log) < maxPlies
    requires TakeTurn(rules, o, log, replies(log)).Moved?
    ensures var row := TakeTurn(rules, o, log, replies(log)).row;
            RunOnce(rules, o, found, replies, Some(|log| + 1 - |found|), maxPlies, threshold) == Ran(log + [row], None)
    decreases |log| - |found|
  {
    hide MaxMovesResult, TakeTurn;
    var row := TakeTurn(rules, o, log, replies(log)).row;
    StopAtOnce(rules, o, log + [row], replies, maxPlies, threshold);
    if |log| == |found| {
      assert found == log;
    } else {
      RunExtends(rules, o, found, replies, Some(|log| - |found|), maxPlies, threshold);
      var next := TakeTurn(rules, o, found, replies(found)).row;
      RunExtends(rules, o, found + [next], replies, Some(|log| - |found| - 1), maxPlies, threshold);
      StopOneLater(rules, o, found + [next], log, replies, maxPlies, threshold);
    }
  }

  lemma {:induction false} RunExtends(
    rules: Rules, o: Opening, log: seq<Recorded>, replies: seq<Recorded> -> Reply, stop: Option<nat>, maxPlies: nat, threshold: nat)
    ensures log <= RunOnce(rules, o, log, replies, stop, maxPlies, threshold).log
    decreases maxPlies - PlyAfter(o, log)
  {
    hide MaxMovesResult, TakeTurn;
    if stop != Some(0) && rules.outcome(o.fen, MovesOf(log)).None? && PlyAfter(o, log) < maxPlies {
      var turn := TakeTurn(rules, o, log, replies(log));
      if turn.Moved? {
        RunExtends(rules, o, log + [turn.row], replies, Fewer(stop), maxPlies, threshold);
      }
    }
  }

  // ---------------------------------------------------------------- what a run leaves

  /** Why a game ended: the position says so, the limit was reached, or the side to move gave no good answer and lost. */
  ghost predicate Justified(
    rules: Rules, o: Opening, log: seq<Recorded>, result: Result, replies: seq<Recorded> -> Reply, maxPlies: nat, threshold: nat)
  {
    || rules.outcome(o.fen, MovesOf(log)) == Some(result)
    || (rules.outcome(o.fen, MovesOf(log)).None? && o.ply + |log| >= maxPlies && result == MaxMovesResult(log, threshold))
    || (&& rules.outcome(o.fen, MovesOf(log)).None? && o.ply + |log| < maxPlies
        && !GoodAnswer(rules, o, MovesOf(log), replies(log))
        && result == if (o.ply + |log|) % 2 == 0 then BlackWins else WhiteWins)
  }

  /** The row at an index is the good answer that the replies give in the position before it, which is undecided and below the limit. */
  ghost predicate PlayedAt(rules: Rules, o: Opening, log: seq<Recorded>, j: nat, replies: seq<Recorded> -> Reply, maxPlies: nat)
    requires j < |log|
  {
    && rules.outcome(o.fen, MovesOf(log[..j])).None? && o.ply + j < maxPlies
    && var reply := replies(log[..j]);
    && GoodAnswer(rules, o, MovesOf(log[..j]), reply)
    && log[j] == Recorded(o.ply + j + 1, reply.move.value, reply.evalMate, reply.evalCp)
  }

  /** A run extends the record by its own legal moves, and any result it comes to is justified by its own replies. */
  lemma {:induction false} FinalIsJustified(
    rules: Rules, o: Opening, log: seq<Recorded>, replies: seq<Recorded> -> Reply, stop: Option<nat>, maxPlies: nat, threshold: nat)
    requires GoodLog(rules, o, log)
    ensures var ran := RunOnce(rules, o, log, replies, stop, maxPlies, threshold);
            && log <= ran.log && GoodLog(rules, o, ran.log)
            && (forall j | |log| <= j < |ran.log| :: PlayedAt(rules, o, ran.log, j, replies, maxPlies))
            && (ran.result.None? ==> stop.Some? && |ran.log| == |log| + stop.value)
            && (ran.result.Some? ==> Justified(rules, o, ran.log, ran.result.value, replies, maxPlies, threshold))
    decreases maxPlies - PlyAfter(o, log)
  {
    hide GoodLog, MaxMovesResult;
    if stop != Some(0) && rules.outcome(o.fen, MovesOf(log)).None? && PlyAfter(o, log) < maxPlies {
      var turn := TakeTurn(rules, o, log, replies(log));
      if turn.Moved? {
        GoodAppend(rules, o, log, replies(log));
        FinalIsJustified(rules, o, log + [turn.row], replies, Fewer(stop), maxPlies, threshold);
        assert RunOnce(rules, o, log, replies, stop, maxPlies, threshold).log[..|log|] == log;
      }
    }
  }

  // ---------------------------------------------------------------- any number of runs

  /** A run with its own engines and clocks, and where it is cut short if it is. */
  datatype Attempt = Attempt(replies: seq<Recorded> -> Reply, stop: Option<nat>)

  /** Runs one after the other, each from the record of those before, until one comes to a result. */
  function AllRuns(rules: Rules, o: Opening, log: seq<Recorded>, runs: seq<Attempt>, maxPlies: nat, threshold: nat): Ran
  {
    if runs == [] then Ran(log, None)
    else
      var k := |runs| - 1;
      var before := AllRuns(rules, o, log, runs[..k], maxPlies, threshold);
      if before.result.Some? then before
      else RunOnce(rules, o, before.log, runs[k].replies, runs[k].stop, maxPlies, threshold)
  }

  /** Some run played the row at the index. */
  ghost predicate PlayedBySome(rules: Rules, o: Opening, log: seq<Recorded>, j: nat, runs: seq<Attempt>, maxPlies: nat)
    requires j < |log|
  {
    exists i :: 0 <= i < |runs| && PlayedAt(rules, o, log, j, runs[i].replies, maxPlies)
  }

  /** The run came to the result: there was none before it, there is no later one, and its replies justify it. */
  ghost predicate DecidedBy(rules: Rules, o: Opening, log: seq<Recorded>, runs: seq<Attempt>, i: nat, maxPlies: nat, threshold: nat)
  {
    var ran := AllRuns(rules, o, log, runs, maxPlies, threshold);
    && i < |runs| && ran.result.Some?
    && AllRuns(rules, o, log, runs[..i], maxPlies, threshold).result.None?
    && AllRuns(rules, o, log, runs[..i + 1], maxPlies, threshold) == ran
    && Justified(rules, o, ran.log, ran.result.value, runs[i].replies, maxPlies, threshold)
  }

  /**
   Crash tolerance: whatever runs there are, each with its own replies and its own end, together they
   leave one gap-free legal game that extends the record they found. Every row is the reply of some
   run in its position, a result is justified by the replies of the run that came to it, and without
   a result every run was cut short.
   */
  lemma {:induction false} AnyRunsLeaveOneGame(
    rules: Rules, o: Opening, log: seq<Recorded>, runs: seq<Attempt>, maxPlies: nat, threshold: nat)
    requires GoodLog(rules, o, log)
    ensures var ran := AllRuns(rules, o, log, runs, maxPlies, threshold);
            && log <= ran.log && GoodLog(rules, o, ran.log)
            && (forall j | |log| <= j < |ran.log| :: PlayedBySome(rules, o, ran.log, j, runs, maxPlies))
            && (ran.result.None? ==> forall i :: 0 <= i < |runs| ==> runs[i].stop.Some?)
            && (ran.result.Some? ==> exists i: nat :: DecidedBy(rules, o, log, runs, i, maxPlies, threshold))
    decreases |runs|
  {
    hide GoodLog, RunOnce, PlayedAt, Justified;
    if runs != [] {
      var k := |runs| - 1;
      var before := AllRuns(rules, o, log, runs[..k], maxPlies, threshold);
      var ran := AllRuns(rules, o, log, runs, maxPlies, threshold);
      AnyRunsLeaveOneGame(rules, o, log, runs[..k], maxPlies, threshold);
      if before.result.Some? {
        EarlierFinish(rules, o, log, runs, runs[..k], maxPlies, threshold);
      } else {
        FinalIsJustified(rules, o, before.log, runs[k].replies, runs[k].stop, maxPlies, threshold);
        assert runs[..k + 1] == runs;
        assert ran.result.Some? ==> DecidedBy(rules, o, log, runs, k, maxPlies, threshold);
      }
      forall j | |log| <= j < |ran.log| ensures PlayedBySome(rules, o, ran.log, j, runs, maxPlies) {
        if j < |before.log| {
          EarlierRow(rules, o, before.log, ran.log, j, runs, maxPlies);
        } else {
          assert PlayedAt(rules, o, ran.log, j, runs[k].replies, maxPlies);
        }
      }
    }
  }

  lemma {:induction false} EarlierRow(
    rules: Rules, o: Opening, before: seq<Recorded>, log: seq<Recorded>, j: nat, runs: seq<Attempt>, maxPlies: nat)
    requires runs != [] && before <= log && j < |before| && PlayedBySome(rules, o, before, j, runs[..|runs| - 1], maxPlies)
    ensures PlayedBySome(rules, o, log, j, runs, maxPlies)
  {
    hide TakeTurn;
    assert before[..j] == log[..j];
    var i :| 0 <= i < |runs| - 1 && PlayedAt(rules, o, before, j, runs[..|runs| - 1][i].replies, maxPlies);
    assert PlayedAt(rules, o, log, j, runs[i].replies, maxPlies);
  }

  lemma {:induction false} EarlierFinish(
    rules: Rules, o: Opening, log: seq<Recorded>, runs: seq<Attempt>, front: seq<Attempt>, maxPlies: nat, threshold: nat)
    requires runs != [] && front == runs[..|runs| - 1] && AllRuns(rules, o, log, front, maxPlies, threshold).result.Some?
    requires exists i: nat :: DecidedBy(rules, o, log, front, i, maxPlies, threshold)
    ensures exists i: nat :: DecidedBy(rules, o, log, runs, i, maxPlies, threshold)
  {
    hide RunOnce, Justified;
    var i: nat :| DecidedBy(rules, o, log, front, i, maxPlies, threshold);
    assert front[..i] == runs[..i] && front[..i + 1] == runs[..i + 1];
    assert DecidedBy(rules, o, log, runs, i, maxPlies, threshold);
  }

  function Plays(move: Move): seq<Recorded> -> Reply { log => Answer(Some(move), false, None, None) }

  function Sleeps(): seq<Recorded> -> Reply { log => TimedOut }

  /** Left alone the game is drawn at the limit; cut short after a move it is won, for the next run loses on time. */
  lemma {:induction false} InterruptionMayChangeTheResult()
    ensures var rules := Rules((fen, moves, move) => true, (fen, moves) => None);
            var o := Opening("startpos", 0);
            && AllRuns(rules, o, [], [Attempt(Plays(1), None)], 2, 800).result == Some(Drawn)
            && AllRuns(rules, o, [], [Attempt(Plays(1), Some(1)), Attempt(Sleeps(), None)], 2, 800).result == Some(WhiteWins)
  {
    var rules := Rules((fen, moves, move) => true, (fen, moves) => None);
    var o := Opening("startpos", 0);
    var first, second := Recorded(1, 1, None, None), Recorded(2, 1, None, None);
    assert rules.outcome(o.fen, []).None? && rules.legal(o.fen, [], 1);
    OneTurn(rules, o, [], Plays(1), 2, 800);
    OneTurn(rules, o, [first], Plays(1), 2, 800);
    OneTurn(rules, o, [first, second], Plays(1), 2, 800);
    assert [first] + [second] == [first, second];
    NoEvaluationIsADraw([first, second], 800);
    assert [] + [first] == [first];
    assert PlyAfter(o, [first]) == 1 && PlyAfter(o, [first, second]) == 2;
    assert TakeTurn(rules, o, [], Plays(1)([])) == Moved(first);
    assert TakeTurn(rules, o, [first], Plays(1)([first])) == Moved(second);
    assert RunOnce(rules, o, [], Plays(1), None, 2, 800).result == Some(Drawn);
    assert RunOnce(rules, o, [], Plays(1), Some(1), 2, 800) == Ran([first], None);
    OneTurn(rules, o, [first], Sleeps(), 2, 800);
    var runs := [Attempt(Plays(1), Some(1)), Attempt(Sleeps(), None)];
    assert runs[..1] == [runs[0]] && runs[..1][..0] == [];
    assert AllRuns(rules, o, [], runs[..1], 2, 800) == Ran([first], None);
  }
}
