/**
 The assignment tables as the runner uses them (cope/db/repo.py, cope/runner/local.py,
 cope/runner/worker_server.py): each method is one committed transaction, made of the
 statements the program issues.
 */
module AssignmentDatabase {
  import opened Common
  import S = Assignments
  import I = AssignmentInvariant
  import W = AssignmentWorkers
  import H = AssignmentHandlers
  import Safety = AssignmentSafety

  // ---------------------------------------------------------------- scans that only read

  /** The sum over list_games in next_worker_assignment. */
  method CountActive(games: map<S.GameId, S.Game>, t: S.TournamentId, n: nat) returns (active: nat)
    ensures active == S.ActiveCount(games, t, n)
  {
    active := 0;
    for g := 0 to n
      invariant active == S.ActiveCount(games, t, g)
    {
      if g in games && games[g].tournament == t && S.ActiveGame(games[g]) {
        active := active + 1;
      }
    }
  }

  method NextPlayableGame(games: map<S.GameId, S.Game>, t: S.TournamentId, n: nat) returns (r: Option<S.GameId>)
    ensures r == S.FirstPending(games, t, n)
  {
    r := None;
    for g := 0 to n
      invariant r.None? && S.FirstPending(games, t, g) == None
    {
      if S.PendingIn(games, t, g) {
        return Some(g);
      }
    }
  }

  /** The scan of next_worker_assignment: running tournaments, newest first. */
  method NextWorkerAssignment(db: S.State, worker: S.Worker) returns (chosen: Option<(S.TournamentId, S.GameId)>)
    ensures chosen.None? <==> forall t :: 0 <= t < db.nextTournament ==> !S.Claimable(db, worker, t)
    ensures chosen.Some? ==>
              && S.Chosen(db, worker, db.nextTournament) == Some(chosen.value.0)
              && S.FirstPending(db.games, chosen.value.0, db.nextGame) == Some(chosen.value.1)
  {
    hide S.ActiveCount, S.FirstPending, S.PendingIn;
    var t: nat := db.nextTournament;
    while t > 0
      invariant t <= db.nextTournament && S.Chosen(db, worker, db.nextTournament) == S.Chosen(db, worker, t)
    {
      t := t - 1;
      if t in db.tournaments && db.tournaments[t].status == S.Running {
        var active := CountActive(db.games, t, db.nextGame);
        if active < db.tournaments[t].config.concurrency && S.Suits(worker, db.tournaments[t]) {
          var game := NextPlayableGame(db.games, t, db.nextGame);
          if game.Some? {
            return Some((t, game.value));
          }
        }
      }
    }
    return None;
  }

  lemma {:induction false} ClaimableNow(s: S.State, w: S.Worker, t: S.TournamentId)
    requires S.Chosen(s, w, s.nextTournament) == Some(t)
    ensures t in s.tournaments && S.Suits(w, s.tournaments[t]) && S.FirstPending(s.games, t, s.nextGame).Some?
  {
  }

  lemma {:induction false} ValidatedGameRuns(s: S.State, session: S.SessionId)
    requires I.Inv(s) && S.Holds(s, session)
    ensures var p := s.handlers[session].holding.value;
            S.Validated(s, p) ==> p.game in s.games && !S.Terminal(s.games[p.game])
  {
    hide I.Coupled, I.Bounded;
    if S.Validated(s, s.handlers[session].holding.value) {
      H.ValidatedIsHeld(s, session);
      Safety.TerminalIsNotValidated(s, session);
    }
  }

  lemma {:induction false} ReleaseStatements(s: S.State, w: S.WorkerId)
    ensures (map g | g in s.games ::
               if S.ActiveGame(s.games[g]) && g in s.rows && s.rows[g].worker == Some(w) && S.ActiveRow(s.rows[g])
               then s.games[g].(status := S.Pending) else s.games[g])
            == S.Release(s, w).games
    ensures (map g | g in s.rows ::
               if s.rows[g].worker == Some(w) && S.ActiveRow(s.rows[g])
               then s.rows[g].(status := S.RowAbandoned, worker := None) else s.rows[g])
            == S.Release(s, w).rows
  {
  }

  // ---------------------------------------------------------------- transactions

  class Database {
    var db: S.State

    ghost predicate Valid()
      reads this
    {
      I.Inv(db)
    }

    constructor ()
      ensures Valid() && db == S.Empty()
    {
      db := S.Empty();
      new;
      I.EmptyInv();
    }

    /** The claim transaction of one session: profile, game, then the assignment row, reused when the game has one. */
    method Claim(session: S.SessionId) returns (payload: Option<S.Payload>)
      requires Valid()
      modifies this
      ensures Valid() && db == S.Claim(old(db), session)
      ensures payload.Some? ==> S.Holds(db, session) && db.handlers[session].holding == payload && S.Validated(db, payload.value)
      ensures S.Current(old(db), session) && old(db).handlers[session].holding.None? ==>
                (payload.None? <==>
                   S.Chosen(old(db), old(db).workers[old(db).handlers[session].worker], old(db).nextTournament).None?)
    {
      hide I.Coupled, I.Bounded, S.Chosen, S.Claimable, S.Suits;
      H.ClaimKeeps(db, session);
      if !S.Current(db, session) || db.handlers[session].holding.Some? {
        return None;
      }
      var handler := db.handlers[session];
      var chosen := NextWorkerAssignment(db, db.workers[handler.worker]);
      if chosen.None? {
        return None;
      }
      var (t, g) := chosen.value;
      ClaimableNow(db, db.workers[handler.worker], t);
      payload := Assign(session, t, g);
    }

    method Assign(session: S.SessionId, t: S.TournamentId, g: S.GameId) returns (payload: Option<S.Payload>)
      requires session in db.handlers && t in db.tournaments && g in db.games
      requires db.handlers[session].worker in db.workers
      requires S.Suits(db.workers[db.handlers[session].worker], db.tournaments[t])
      modifies this
      ensures db == S.Assign(old(db), session, t, g)
      ensures payload.Some? && S.Holds(db, session) && db.handlers[session].holding == payload && S.Validated(db, payload.value)
    {
      var handler := db.handlers[session];
      var profile := db.workers[handler.worker].hw.value.profile;
      if db.tournaments[t].profile.None? {
        db := db.(tournaments := db.tournaments[t := db.tournaments[t].(profile := Some(profile))]);
      } else {
        assert db.tournaments[t := db.tournaments[t].(profile := Some(profile))] == db.tournaments;
      }
      db := db.(games := db.games[g := db.games[g].(status := S.Assigned)]);
      var id := if g in db.rows then db.rows[g].id else db.nextRow;
      payload := Some(S.Payload(g, id, db.nextKey));
      db := db.(rows := db.rows[g := S.Row(id, db.nextKey, Some(handler.worker), S.RowAssigned)], nextRow := db.nextRow + 1);
      db := db.(handlers := db.handlers[session := S.Handler(handler.worker, payload, None)], nextKey := db.nextKey + 1);
    }

    /** acknowledge_game_assignment; a stale or already live assignment raises. */
    method Acknowledge(session: S.SessionId) returns (ok: bool)
      requires Valid() && S.Holds(db, session)
      modifies this
      ensures Valid() && db == S.Acknowledge(old(db), session)
      ensures !ok ==> db == old(db)
    {
      hide I.Coupled, I.Bounded;
      H.AcknowledgeKeeps(db, session);
      var p := db.handlers[session].holding.value;
      ok := S.Validated(db, p) && db.rows[p.game].status != S.RowLive;
      if ok {
        db := db.(rows := db.rows[p.game := db.rows[p.game].(status := S.RowAcked)]);
      }
    }

    /**
     mark_worker_assignment_live between two validations: the marking statements look at the row's
     status but not at its key, so a stale key is found by the second validation and rolled back.
     */
    method GoLive(session: S.SessionId) returns (ok: bool)
      requires Valid() && S.Holds(db, session) && db.handlers[session].board.None?
      modifies this
      ensures Valid() && db == S.GoLive(old(db), session)
      ensures ok <==> S.Validated(old(db), old(db).handlers[session].holding.value)
    {
      hide I.Coupled, I.Bounded;
      H.GoLiveKeeps(db, session);
      ValidatedGameRuns(db, session);
      var before := db;
      var p := db.handlers[session].holding.value;
      if p.game !in db.games || S.Terminal(db.games[p.game]) {
        return false;
      }
      if p.game !in db.rows || db.rows[p.game].id != p.row || !S.ActiveRow(db.rows[p.game]) {
        return false;
      }
      db := db.(rows := db.rows[p.game := db.rows[p.game].(status := S.RowLive)]);
      db := db.(games := db.games[p.game := db.games[p.game].(status := S.Live)]);
      if !S.Validated(db, p) {
        db := before;
        return false;
      }
      var board := S.MovesOf(db.games[p.game].log);
      db := db.(handlers := db.handlers[session := db.handlers[session].(board := Some(board))]);
      ok := true;
    }

    /** One iteration of the game loop: the move is recorded only under the current assignment. */
    method RecordMove(session: S.SessionId, move: S.Move) returns (ok: bool)
      requires Valid() && S.Holds(db, session) && db.handlers[session].board.Some?
      modifies this
      ensures Valid() && db == S.RecordMove(old(db), session, move)
      ensures ok <==> S.Validated(old(db), old(db).handlers[session].holding.value)
    {
      hide I.Coupled, I.Bounded;
      H.RecordMoveKeeps(db, session, move);
      ValidatedGameRuns(db, session);
      var p := db.handlers[session].holding.value;
      ok := S.Validated(db, p);
      if ok {
        var board := db.handlers[session].board.value + [move];
        var row := S.LoggedMove(db.games[p.game].opening.ply + |board|, move, p.key);
        db := db.(handlers := db.handlers[session := db.handlers[session].(board := Some(board))]);
        db := db.(games := db.games[p.game := db.games[p.game].(log := db.games[p.game].log + [row])]);
      }
    }

    /** The end of a run: finish_game has no guard of its own, finish_game_assignment is guarded by the key. */
    method FinishGame(session: S.SessionId, result: S.Result) returns (ok: bool)
      requires Valid() && S.Holds(db, session) && db.handlers[session].board.Some?
      modifies this
      ensures Valid() && db == S.FinishGame(old(db), session, result)
      ensures ok <==> S.Validated(old(db), old(db).handlers[session].holding.value)
    {
      hide I.Coupled, I.Bounded;
      H.FinishGameKeeps(db, session, result);
      ValidatedGameRuns(db, session);
      var p := db.handlers[session].holding.value;
      ok := S.Validated(db, p);
      if ok {
        db := db.(games := db.games[p.game := db.games[p.game].(status := S.Finished, result := Some(result))]);
        if db.rows[p.game].id == p.row && db.rows[p.game].key == p.key {
          db := db.(rows := db.rows[p.game := db.rows[p.game].(status := S.RowFinished)]);
        }
        db := db.(handlers := db.handlers[session := S.Handler(db.handlers[session].worker, None, None)]);
      }
    }

    /** fail_game_assignment: the first statement is guarded by key and status, the second only by the game's status. */
    method FailAssignment(session: S.SessionId)
      requires Valid() && S.Holds(db, session)
      modifies this
      ensures Valid() && db == S.FailAssignment(old(db), session)
    {
      hide I.Coupled, I.Bounded;
      H.FailAssignmentKeeps(db, session);
      var p := db.handlers[session].holding.value;
      if p.game in db.rows && db.rows[p.game].id == p.row && db.rows[p.game].key == p.key {
        if S.ActiveRow(db.rows[p.game]) {
          db := db.(rows := db.rows[p.game := db.rows[p.game].(status := S.RowAbandoned)]);
        } else {
          assert db.rows[p.game := db.rows[p.game]] == db.rows;
        }
        if p.game in db.games && S.ActiveGame(db.games[p.game]) {
          db := db.(games := db.games[p.game := db.games[p.game].(status := S.Pending)]);
        }
      }
      db := db.(handlers := db.handlers[session := S.Handler(db.handlers[session].worker, None, None)]);
    }

    // ---------------------------------------------------------------- workers

    /** _release_worker_active_assignments: the games first, while the rows still name the worker. */
    method Release(w: S.WorkerId)
      requires Valid()
      modifies this
      ensures Valid() && db == S.Release(old(db), w) && W.NoneHeld(db, w)
    {
      hide I.Coupled, I.Bounded, W.NoneHeld;
      W.ReleaseKeeps(db, w, S.RowAbandoned);
      ReleaseStatements(db, w);
      var released := map g | g in db.games ::
        if S.ActiveGame(db.games[g]) && g in db.rows && db.rows[g].worker == Some(w) && S.ActiveRow(db.rows[g])
        then db.games[g].(status := S.Pending) else db.games[g];
      db := db.(games := released);
      var abandoned := map g | g in db.rows ::
        if db.rows[g].worker == Some(w) && S.ActiveRow(db.rows[g])
        then db.rows[g].(status := S.RowAbandoned, worker := None) else db.rows[g];
      db := db.(rows := abandoned);
    }

    method Disconnect(w: S.WorkerId, session: Option<S.SessionId>)
      requires Valid()
      modifies this
      ensures Valid() && db == S.Disconnect(old(db), w, session)
    {
      hide I.Coupled, I.Bounded, W.NoneHeld, S.ReleaseAs;
      W.DisconnectKeeps(db, w, session);
      if w !in db.workers || (session.Some? && db.workers[w].session != session) {
        return;
      }
      W.ReleaseTouchesNoWorker(db, w, S.RowAbandoned);
      Release(w);
      db := db.(workers := db.workers[w := db.workers[w].(status := S.Offline)]);
    }

    /** _record_connection: the row is created again when the worker was deleted in the meantime. */
    method Connect(w: S.WorkerId, hw: S.Hardware) returns (session: S.SessionId)
      requires Valid() && w < db.nextWorker
      modifies this
      ensures Valid() && db == S.Connect(old(db), w, hw) && session == old(db).nextSession
    {
      hide I.Coupled, I.Bounded, W.NoneHeld, S.ReleaseAs;
      W.ConnectKeeps(db, w, hw);
      W.ReleaseTouchesNoWorker(db, w, S.RowAbandoned);
      Disconnect(w, None);
      session := db.nextSession;
      var resources := if w in db.workers then db.workers[w].resources else S.DEFAULT_RESOURCES;
      db := db.(workers := db.workers[w := S.Worker(S.Connected, Some(session), resources, Some(hw))]);
      db := db.(handlers := db.handlers[session := S.Handler(w, None, None)], nextSession := session + 1);
    }

    method Revoke(w: S.WorkerId)
      requires Valid()
      modifies this
      ensures Valid() && db == S.Revoke(old(db), w)
    {
      hide I.Coupled, I.Bounded, W.NoneHeld, S.ReleaseAs;
      W.RevokeKeeps(db, w);
      Release(w);
      db := db.(rows := map g | g in db.rows :: if db.rows[g].worker == Some(w) then db.rows[g].(worker := None) else db.rows[g]);
      db := db.(workers := map u | u in db.workers && u != w :: db.workers[u]);
    }

    method ReportStatus(session: S.SessionId, status: S.WorkerStatus) returns (updated: bool)
      requires Valid() && session in db.handlers && S.Assignable(status)
      modifies this
      ensures Valid() && db == S.ReportStatus(old(db), session, status)
      ensures !updated ==> db == old(db)
    {
      hide I.Coupled, I.Bounded;
      W.ReportStatusKeeps(db, session, status);
      var w := db.handlers[session].worker;
      updated := w in db.workers && db.workers[w].session == Some(session);
      if updated {
        db := db.(workers := db.workers[w := db.workers[w].(status := status)]);
      }
    }
  }
}
