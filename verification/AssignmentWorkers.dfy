/** Worker transactions keep the tables coupled (cope/db/repo.py, cope/runner/worker_server.py). */
module AssignmentWorkers {
  import opened Common
  import opened Assignments
  import opened AssignmentInvariant
  import opened AssignmentSteps

  // ---------------------------------------------------------------- releasing

  ghost predicate NoneHeld(s: State, w: WorkerId)
  {
    forall g | g in s.rows && ActiveRow(s.rows[g]) :: s.rows[g].worker != Some(w)
  }

  lemma {:induction false} ReleasedGame(s: State, w: WorkerId, status: RowStatus, g: GameId)
    requires g in s.games && GameOk(s, g) && (status == RowAbandoned || status == RowExpired)
    ensures GameOk(ReleaseAs(s, w, status), g)
  {
  }

  lemma {:induction false} ReleasedRow(s: State, w: WorkerId, status: RowStatus, g: GameId)
    requires g in s.rows && RowOk(s, g) && (status == RowAbandoned || status == RowExpired)
    ensures RowOk(ReleaseAs(s, w, status), g)
  {
    hide LogOk;
  }

  lemma {:induction false} ReleaseKeeps(s: State, w: WorkerId, status: RowStatus)
    requires Inv(s) && (status == RowAbandoned || status == RowExpired)
    ensures Inv(ReleaseAs(s, w, status)) && NoneHeld(ReleaseAs(s, w, status), w)
  {
    hide GameOk, RowOk, ActiveCount;
    var a := ReleaseAs(s, w, status);
    forall g | g in a.games ensures GameOk(a, g) {
      ReleasedGame(s, w, status, g);
    }
    forall g | g in a.rows ensures RowOk(a, g) {
      ReleasedRow(s, w, status, g);
    }
    forall x | x in a.workers ensures WorkerOk(a, x) {
      assert WorkerOk(s, x);
    }
    forall h | h in a.handlers ensures HandlerOk(a, h) {
      assert HandlerOk(s, h);
    }
    forall g, h | g in a.rows && h in a.rows ensures Apart(a, g, h) {
      assert Apart(s, g, h);
    }
    BoundKept(s, a);
  }

  // ---------------------------------------------------------------- workers without an assignment

  /** Only an idle worker changes; every handler stays, and new handlers are in order. */
  lemma {:induction false} IdleWorkerChanges(s: State, a: State, w: WorkerId)
    requires Inv(s) && NoneHeld(s, w)
    requires a == s.(workers := a.workers, handlers := a.handlers, nextWorker := a.nextWorker, nextSession := a.nextSession)
    requires CountersGrow(s, a)
    requires forall u | u in s.workers && u != w :: u in a.workers && Serves(s.workers[u], a.workers[u])
    requires forall h | h in s.handlers :: h in a.handlers && a.handlers[h] == s.handlers[h]
    requires PeopleOk(a)
    ensures Inv(a)
  {
    hide GameOk, RowOk, WorkerOk, HandlerOk, Apart, Serves, HolderStays, HomesStay, PeopleOk, ActiveCount;
    forall g | g in s.rows && ActiveRow(s.rows[g]) ensures HolderStays(s, a, g) {
      HolderOf(s, g);
      HolderNotIdle(s, a, w, g);
    }
    SameTournaments(s, a);
    SurroundingsChange(s, a);
    BoundKept(s, a);
  }

  lemma {:induction false} HolderNotIdle(s: State, a: State, w: WorkerId, g: GameId)
    requires NoneHeld(s, w) && g in s.rows && ActiveRow(s.rows[g]) && g in s.games && HeldWell(s, g)
    requires forall u | u in s.workers && u != w :: u in a.workers && Serves(s.workers[u], a.workers[u])
    requires forall h | h in s.handlers :: h in a.handlers && a.handlers[h] == s.handlers[h]
    ensures HolderStays(s, a, g)
  {
    hide Serves, LogOk, Suits;
  }

  lemma {:induction false} GoOfflineKeeps(s: State, w: WorkerId)
    requires Inv(s) && NoneHeld(s, w) && w in s.workers
    ensures Inv(GoOffline(s, w))
  {
    hide GameOk, RowOk, Apart, NoneHeld, ActiveCount;
    var a := GoOffline(s, w);
    forall u | u in a.workers ensures WorkerOk(a, u) {
      assert WorkerOk(s, u);
    }
    forall h | h in a.handlers ensures HandlerOk(a, h) {
      assert HandlerOk(s, h);
    }
    IdleWorkerChanges(s, a, w);
  }

  lemma {:induction false} DisconnectKeeps(s: State, w: WorkerId, session: Option<SessionId>)
    requires Inv(s)
    ensures Inv(Disconnect(s, w, session))
    ensures session.None? ==> NoneHeld(Disconnect(s, w, session), w)
  {
    hide Coupled, Bounded, ReleaseAs;
    ReleaseKeeps(s, w, RowAbandoned);
    ReleaseTouchesNoWorker(s, w, RowAbandoned);
    if w in s.workers {
      GoOfflineKeeps(Release(s, w), w);
    } else {
      NobodyHoldsNothing(s, w);
    }
  }

  lemma {:induction false} ReleaseTouchesNoWorker(s: State, w: WorkerId, status: RowStatus)
    ensures ReleaseAs(s, w, status).workers == s.workers && ReleaseAs(s, w, status).nextWorker == s.nextWorker
    ensures ReleaseAs(s, w, status).handlers == s.handlers && ReleaseAs(s, w, status).nextSession == s.nextSession
  {
  }

  lemma {:induction false} NobodyHoldsNothing(s: State, w: WorkerId)
    requires Coupled(s) && w !in s.workers
    ensures NoneHeld(s, w)
  {
    hide GameOk, RowOk, WorkerOk, HandlerOk, Apart;
    forall g | g in s.rows && ActiveRow(s.rows[g]) ensures s.rows[g].worker != Some(w) {
      HolderOf(s, g);
    }
  }

  lemma {:induction false} OpenSessionKeeps(s: State, w: WorkerId, hw: Hardware)
    requires Inv(s) && NoneHeld(s, w) && w < s.nextWorker
    ensures Inv(OpenSession(s, w, hw))
  {
    hide GameOk, RowOk, Apart, NoneHeld, ActiveCount;
    var a := OpenSession(s, w, hw);
    forall u | u in a.workers ensures WorkerOk(a, u) {
      if u != w {
        assert WorkerOk(s, u);
      }
    }
    forall h | h in a.handlers ensures HandlerOk(a, h) {
      if h in s.handlers {
        assert HandlerOk(s, h);
      }
    }
    IdleWorkerChanges(s, a, w);
  }

  /** A reconnecting worker may report other hardware: by then it holds nothing. */
  lemma {:induction false} ConnectKeeps(s: State, w: WorkerId, hw: Hardware)
    requires Inv(s)
    ensures Inv(Connect(s, w, hw))
  {
    hide Coupled, Bounded, NoneHeld, OpenSession, ReleaseAs;
    if w < s.nextWorker {
      DisconnectKeeps(s, w, None);
      ReleaseTouchesNoWorker(s, w, RowAbandoned);
      OpenSessionKeeps(Disconnect(s, w, None), w, hw);
    }
  }

  lemma {:induction false} MintWorkerKeeps(s: State, resources: Resources)
    requires Inv(s)
    ensures Inv(MintWorker(s, resources))
  {
    hide GameOk, RowOk, Apart, NoneHeld, ActiveCount;
    var a := MintWorker(s, resources);
    forall u | u in s.workers ensures u != s.nextWorker {
      assert WorkerOk(s, u);
    }
    NobodyHoldsNothing(s, s.nextWorker);
    forall u | u in a.workers ensures WorkerOk(a, u) {
      if u in s.workers {
        assert WorkerOk(s, u);
      }
    }
    forall h | h in a.handlers ensures HandlerOk(a, h) {
      assert HandlerOk(s, h);
    }
    IdleWorkerChanges(s, a, s.nextWorker);
  }

  // ---------------------------------------------------------------- deleting a worker

  lemma {:induction false} GameWithoutWorker(s: State, w: WorkerId, g: GameId)
    requires g in s.games && GameOk(s, g)
    ensures GameOk(RemoveWorker(s, w), g)
  {
  }

  lemma {:induction false} RowWithoutWorker(s: State, w: WorkerId, g: GameId)
    requires g in s.rows && RowOk(s, g) && (ActiveRow(s.rows[g]) ==> s.rows[g].worker != Some(w))
    ensures RowOk(RemoveWorker(s, w), g)
  {
    hide LogOk;
  }

  lemma {:induction false} RemoveWorkerKeeps(s: State, w: WorkerId)
    requires Inv(s) && NoneHeld(s, w)
    ensures Inv(RemoveWorker(s, w))
  {
    hide GameOk, RowOk, ActiveCount;
    var a := RemoveWorker(s, w);
    forall g | g in a.games ensures GameOk(a, g) {
      GameWithoutWorker(s, w, g);
    }
    forall g | g in a.rows ensures RowOk(a, g) {
      RowWithoutWorker(s, w, g);
    }
    forall x | x in a.workers ensures WorkerOk(a, x) {
      assert WorkerOk(s, x);
    }
    forall h | h in a.handlers ensures HandlerOk(a, h) {
      assert HandlerOk(s, h);
    }
    forall g, h | g in a.rows && h in a.rows ensures Apart(a, g, h) {
      assert Apart(s, g, h);
    }
    BoundKept(s, a);
  }

  lemma {:induction false} RevokeKeeps(s: State, w: WorkerId)
    requires Inv(s)
    ensures Inv(Revoke(s, w)) && Inv(DeleteWorker(s, w))
  {
    hide Coupled, Bounded, NoneHeld, ReleaseAs, RemoveWorker;
    ReleaseKeeps(s, w, RowAbandoned);
    ReleaseKeeps(s, w, RowExpired);
    RemoveWorkerKeeps(ReleaseAs(s, w, RowAbandoned), w);
    RemoveWorkerKeeps(ReleaseAs(s, w, RowExpired), w);
  }

  // ---------------------------------------------------------------- status reports

  lemma {:induction false} ReportStatusKeeps(s: State, session: SessionId, status: WorkerStatus)
    requires Inv(s)
    ensures Inv(ReportStatus(s, session, status))
  {
    hide GameOk, RowOk, Apart, ActiveCount, HolderStays, HomesStay;
    var a := ReportStatus(s, session, status);
    forall u | u in a.workers ensures WorkerOk(a, u) {
      assert WorkerOk(s, u);
    }
    forall h | h in a.handlers ensures HandlerOk(a, h) {
      assert HandlerOk(s, h);
    }
    AllHoldersStay(s, a);
    SameTournaments(s, a);
    SurroundingsChange(s, a);
    BoundKept(s, a);
  }
}
