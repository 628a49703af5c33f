/**
 What the other transactions write, in the columns of the tables (cope/db/repo.py:668-756, 1144-1262,
 1803-1966, cope/runner/local.py:700-724): for every row which new value it gets, and which rows stay.
 */
module AssignmentEffects {
  import opened Common
  import opened Assignments

  // ---------------------------------------------------------------- rows that an operation may end

  ghost predicate Unfinished(r: Row) { r.status in {RowAssigned, RowAcked, RowLive} }

  /** The row is held by the worker and still under way. */
  ghost predicate HeldBy(s: State, g: GameId, w: WorkerId)
  {
    g in s.rows && s.rows[g].worker == Some(w) && Unfinished(s.rows[g])
  }

  ghost predicate OnlyGamesAndRows(s: State, a: State)
  {
    a == s.(games := a.games, rows := a.rows) && a.games.Keys == s.games.Keys && a.rows.Keys == s.rows.Keys
  }

  // ---------------------------------------------------------------- tournaments

  /** What an administrator may do to a tournament in each status. */
  lemma {:induction false} ActionsByStatus(source: TournamentStatus, target: TournamentStatus)
    ensures AllowedAction(source, target) <==>
              || (source == Draft && target == Scheduled)
              || (source in {Scheduled, Running} && target in {Paused, Aborted})
              || (source == Paused && target in {Scheduled, Aborted})
  {
  }

  /** Aborting abandons every unfinished game of the tournament and the assignments still under way on them. */
  lemma {:induction false} AbortAbandons(s: State, t: TournamentId)
    requires t in s.tournaments
    ensures var a := SetStatus(s, t, Aborted);
            && OnlyGamesAndRows(s.(tournaments := s.tournaments[t := s.tournaments[t].(status := Aborted)]), a)
            && (forall g | g in s.games ::
                  a.games[g] == if s.games[g].tournament == t && s.games[g].status != Finished
                                then s.games[g].(status := Abandoned) else s.games[g])
            && (forall g | g in s.rows ::
                  a.rows[g] == if g in s.games && s.games[g].tournament == t && s.games[g].status != Finished && Unfinished(s.rows[g])
                               then s.rows[g].(status := RowAbandoned) else s.rows[g])
  {
  }

  /** Any other status only changes the tournament. */
  lemma {:induction false} OtherStatusOnly(s: State, t: TournamentId, status: TournamentStatus)
    requires t in s.tournaments && status != Aborted
    ensures SetStatus(s, t, status) == s.(tournaments := s.tournaments[t := s.tournaments[t].(status := status)])
  {
  }

  /** A running tournament all of whose games are finished or abandoned, and that has some, is finished, or aborted with an abandoned game. */
  lemma {:induction false} CompletionIsExact(s: State, t: TournamentId)
    ensures var a := FinishTournament(s, t);
            var complete :=
              && t in s.tournaments && s.tournaments[t].status == Running
              && (exists g | g in s.games :: s.games[g].tournament == t)
              && (forall g | g in s.games :: s.games[g].tournament == t ==> s.games[g].status in {Finished, Abandoned});
            && (!complete ==> a == s)
            && (complete ==>
                  && t in a.tournaments
                  && (a.tournaments[t].status == Aborted <==>
                        exists g | g in s.games :: s.games[g].tournament == t && s.games[g].status == Abandoned)
                  && (a.tournaments[t].status != Aborted ==> a.tournaments[t].status == Complete)
                  && a.games == s.games)
  {
    hide AbandonTournamentGames;
    if t in s.tournaments && s.tournaments[t].status == Running && AnyGame(s, t) && AllTerminal(s, t) {
      AbandonedStay(s.(tournaments := s.tournaments[t := s.tournaments[t].(status := Aborted)]), t);
    }
  }

  lemma {:induction false} AbandonedStay(s: State, t: TournamentId)
    requires AllTerminal(s, t)
    ensures AbandonTournamentGames(s, t).games == s.games && AbandonTournamentGames(s, t).tournaments == s.tournaments
  {
  }

  /** Only a tournament that is neither scheduled nor running can be deleted; then exactly its games and their assignments go. */
  lemma {:induction false} DeletionIsExact(s: State, t: TournamentId)
    ensures var a := DeleteTournament(s, t);
            if t in s.tournaments && s.tournaments[t].status in {Draft, Paused, Complete, Aborted} then
              && a == s.(tournaments := a.tournaments, games := a.games, rows := a.rows)
              && (forall u :: u in a.tournaments <==> u in s.tournaments && u != t)
              && (forall u | u in a.tournaments :: a.tournaments[u] == s.tournaments[u])
              && (forall g :: g in a.games <==> g in s.games && s.games[g].tournament != t)
              && (forall g | g in a.games :: a.games[g] == s.games[g])
              && (forall g :: g in a.rows <==> g in s.rows && !(g in s.games && s.games[g].tournament == t))
              && (forall g | g in a.rows :: a.rows[g] == s.rows[g])
            else a == s
  {
  }

  // ---------------------------------------------------------------- workers

  /** Releasing a worker ends what it holds and returns those games to the pool; everything else stays. */
  lemma {:induction false} ReleaseFrees(s: State, w: WorkerId, status: RowStatus)
    ensures var a := ReleaseAs(s, w, status);
            && OnlyGamesAndRows(s, a)
            && (forall g | g in s.rows ::
                  a.rows[g] == if HeldBy(s, g, w) then Row(s.rows[g].id, s.rows[g].key, None, status) else s.rows[g])
            && (forall g | g in s.games ::
                  a.games[g] == if HeldBy(s, g, w) && s.games[g].status in {Assigned, Live}
                                then s.games[g].(status := Pending) else s.games[g])
  {
  }

  /** A disconnect releases the worker and takes it offline, unless it is for another session than the current one. */
  lemma {:induction false} DisconnectIsGuarded(s: State, w: WorkerId, session: Option<SessionId>)
    ensures var a := Disconnect(s, w, session);
            if w in s.workers && (session == None || s.workers[w].session == session)
            then a == ReleaseAs(s, w, RowAbandoned).(workers := s.workers[w := s.workers[w].(status := Offline)])
            else a == s
  {
    hide ReleaseAs;
    assert ReleaseAs(s, w, RowAbandoned).workers == s.workers by {
      ReleaseFrees(s, w, RowAbandoned);
    }
  }

  /** A connection releases what the worker held, gives it a new session and the reported hardware, and keeps its reservation. */
  lemma {:induction false} ConnectionIsNew(s: State, w: WorkerId, hw: Hardware)
    requires w < s.nextWorker
    ensures var a := Connect(s, w, hw);
            && w in a.workers && a.workers[w].status == Connected && a.workers[w].session == Some(s.nextSession)
            && a.workers[w].hw == Some(hw)
            && a.workers[w].resources == (if w in s.workers then s.workers[w].resources else Resources(1, 32))
            && (forall u :: u != w ==> (u in a.workers <==> u in s.workers) && (u in s.workers ==> a.workers[u] == s.workers[u]))
            && a.handlers == s.handlers[s.nextSession := Handler(w, None, None)] && a.nextSession > s.nextSession
            && a.tournaments == s.tournaments
            && (if w in s.workers then
                  a.games == ReleaseAs(s, w, RowAbandoned).games && a.rows == ReleaseAs(s, w, RowAbandoned).rows
                else a.games == s.games && a.rows == s.rows)
  {
  }

  /** Revoking and deleting release the worker, one as abandoned, the other as expired, remove its row and every reference to it. */
  lemma {:induction false} RemovalIsExact(s: State, w: WorkerId)
    ensures var a, b := Revoke(s, w), DeleteWorker(s, w);
            && a.games == ReleaseAs(s, w, RowAbandoned).games && b.games == ReleaseAs(s, w, RowExpired).games
            && (forall u :: u in a.workers <==> u in s.workers && u != w)
            && (forall u | u in a.workers :: a.workers[u] == s.workers[u])
            && b.workers == a.workers && a.rows.Keys == b.rows.Keys == s.rows.Keys
            && (forall g | g in s.rows ::
                  && a.rows[g].worker == b.rows[g].worker == (if s.rows[g].worker == Some(w) then None else s.rows[g].worker)
                  && a.rows[g].status == (if HeldBy(s, g, w) then RowAbandoned else s.rows[g].status)
                  && b.rows[g].status == (if HeldBy(s, g, w) then RowExpired else s.rows[g].status)
                  && a.rows[g].id == b.rows[g].id == s.rows[g].id && a.rows[g].key == b.rows[g].key == s.rows[g].key)
            && a.tournaments == b.tournaments == s.tournaments && a.handlers == b.handlers == s.handlers
  {
  }

  /** A status report is taken from the current session of a worker only, and only the statuses of a connected one. */
  lemma {:induction false} StatusIsGuarded(s: State, session: SessionId, status: WorkerStatus)
    ensures var a := ReportStatus(s, session, status);
            if session in s.handlers && s.handlers[session].worker in s.workers
               && s.workers[s.handlers[session].worker].session == Some(session)
               && status in {Connected, Downloading, Ready, Busy} then
              var w := s.handlers[session].worker;
              a == s.(workers := s.workers[w := s.workers[w].(status := status)])
            else a == s
  {
  }

  /** New tournaments are drafts and can be edited only then; scheduled ones are started; scheduled and running ones take games. */
  lemma {:induction false} SettingUpWrites(s: State, t: TournamentId, config: Config, opening: Opening, resources: Resources)
    ensures AddTournament(s, config)
            == s.(tournaments := s.tournaments[s.nextTournament := Tournament(Draft, config, None)], nextTournament := s.nextTournament + 1)
    ensures EditTournament(s, t, config)
            == if t in s.tournaments && s.tournaments[t].status == Draft
               then s.(tournaments := s.tournaments[t := Tournament(Draft, config, s.tournaments[t].profile)]) else s
    ensures StartTournament(s, t)
            == if t in s.tournaments && s.tournaments[t].status == Scheduled
               then s.(tournaments := s.tournaments[t := s.tournaments[t].(status := Running)]) else s
    ensures AddGame(s, t, opening)
            == if t in s.tournaments && s.tournaments[t].status in {Scheduled, Running}
               then s.(games := s.games[s.nextGame := Game(t, Pending, None, opening, [])], nextGame := s.nextGame + 1) else s
    ensures MintWorker(s, resources)
            == s.(workers := s.workers[s.nextWorker := Worker(Minted, None, resources, None)], nextWorker := s.nextWorker + 1)
  {
  }

  // ---------------------------------------------------------------- a running assignment

  /** The handler's assignment is the current one of its game, under its own key, and still under way. */
  ghost predicate InCharge(s: State, session: SessionId)
  {
    && session in s.handlers && s.handlers[session].holding.Some?
    && var p := s.handlers[session].holding.value;
    p.game in s.rows && s.rows[p.game].id == p.row && s.rows[p.game].key == p.key && Unfinished(s.rows[p.game])
  }

  ghost function InHand(s: State, session: SessionId): GameId
    requires InCharge(s, session)
  {
    s.handlers[session].holding.value.game
  }

  /** Acknowledging marks the row, unless the game is already live. */
  lemma {:induction false} AcknowledgeMarks(s: State, session: SessionId)
    ensures var a := Acknowledge(s, session);
            if InCharge(s, session) && s.rows[InHand(s, session)].status != RowLive
            then a == s.(rows := s.rows[InHand(s, session) := s.rows[InHand(s, session)].(status := RowAcked)])
            else a == s
  {
  }

  /** A game goes live with its row, on a board set up from the recorded moves; once, and only before it is over. */
  lemma {:induction false} GoLiveMarks(s: State, session: SessionId)
    ensures var a := GoLive(s, session);
            if InCharge(s, session) && s.handlers[session].board == None && InHand(s, session) in s.games
               && s.games[InHand(s, session)].status !in {Finished, Abandoned} then
              var g := InHand(s, session);
              && a.games == s.games[g := s.games[g].(status := Live)]
              && a.rows == s.rows[g := s.rows[g].(status := RowLive)]
              && a.handlers.Keys == s.handlers.Keys && a.handlers[session].holding == s.handlers[session].holding
              && a.handlers[session].board.Some? && |a.handlers[session].board.value| == |s.games[g].log|
              && (forall i :: 0 <= i < |s.games[g].log| ==> a.handlers[session].board.value[i] == s.games[g].log[i].move)
            else a == s
  {
  }

  ghost predicate MayPlay(s: State, session: SessionId)
  {
    InCharge(s, session) && s.handlers[session].board.Some? && InHand(s, session) in s.games
  }

  /** A move is recorded as the next ply of the board, under the handler's key, exactly by the handler in charge. */
  lemma {:induction false} MoveIsRecorded(s: State, session: SessionId, move: Move)
    ensures var a := RecordMove(s, session, move);
            if MayPlay(s, session) then
              var g, h := InHand(s, session), s.handlers[session];
              var row := LoggedMove(s.games[g].opening.ply + |h.board.value| + 1, move, h.holding.value.key);
              && a.games == s.games[g := s.games[g].(log := s.games[g].log + [row])]
              && a.handlers == s.handlers[session := h.(board := Some(h.board.value + [move]))]
              && a.rows == s.rows
            else a == s
  {
  }

  /** The result is stored with the end of the assignment, exactly by the handler in charge, which then has nothing in hand. */
  lemma {:induction false} ResultIsStored(s: State, session: SessionId, result: Result)
    ensures var a := FinishGame(s, session, result);
            if MayPlay(s, session) then
              var g := InHand(s, session);
              && a.games == s.games[g := s.games[g].(status := Finished, result := Some(result))]
              && a.rows == s.rows[g := s.rows[g].(status := RowFinished)]
              && a.handlers == s.handlers[session := Handler(s.handlers[session].worker, None, None)]
            else a == s
  {
  }

  /**
   A failure under the current key ends the row if it is under way and returns the game to the pool if it
   is assigned or live; under any other key it only empties the handler's hands.
   */
  lemma {:induction false} FailureReturnsTheGame(s: State, session: SessionId)
    ensures var a := FailAssignment(s, session);
            if session in s.handlers && s.handlers[session].holding.Some? then
              var p := s.handlers[session].holding.value;
              && a.handlers == s.handlers[session := Handler(s.handlers[session].worker, None, None)]
              && (if p.game in s.rows && s.rows[p.game].id == p.row && s.rows[p.game].key == p.key then
                    && a.rows == s.rows[p.game := if Unfinished(s.rows[p.game]) then s.rows[p.game].(status := RowAbandoned)
                                                  else s.rows[p.game]]
                    && a.games == (if p.game in s.games && s.games[p.game].status in {Assigned, Live}
                                   then s.games[p.game := s.games[p.game].(status := Pending)] else s.games)
                  else a.rows == s.rows && a.games == s.games)
            else a == s
  {
  }
}
