/**
 Claiming and running an assignment keeps the tables coupled (cope/db/repo.py,
 cope/runner/local.py): steps that touch one game, its row and the handler at work.
 */
module AssignmentHandlers {
  import opened Common
  import opened Assignments
  import opened AssignmentInvariant
  import opened AssignmentSteps

  // ---------------------------------------------------------------- one game, one handler

  /** The handler at work holds nothing, or an assignment of the game. */
  ghost predicate WorksOn(s: State, session: SessionId, g: GameId)
  {
    session in s.handlers && (s.handlers[session].holding.Some? ==> s.handlers[session].holding.value.game == g)
  }

  ghost predicate OnlyTouches(s: State, a: State, session: SessionId, g: GameId)
  {
    && a.workers == s.workers && CountersGrow(s, a) && a.nextGame == s.nextGame
    && a.tournaments.Keys == s.tournaments.Keys && a.nextTournament == s.nextTournament
    && a.games.Keys == s.games.Keys && g in s.games && a.games[g].tournament == s.games[g].tournament
    && (forall h | h in s.games && h != g :: a.games[h] == s.games[h])
    && g in a.rows && a.rows.Keys == s.rows.Keys + {g}
    && (forall h | h in s.rows && h != g :: a.rows[h] == s.rows[h])
    && session in a.handlers && a.handlers.Keys == s.handlers.Keys
    && a.handlers[session].worker == s.handlers[session].worker
    && (forall h | h in s.handlers && h != session :: a.handlers[h] == s.handlers[h])
  }

  /** The key and the id of the row are its own: unchanged, or new. */
  ghost predicate OwnKey(s: State, a: State, g: GameId)
    requires g in a.rows
  {
    && (a.rows[g].key == s.nextKey || (g in s.rows && a.rows[g].key == s.rows[g].key))
    && (a.rows[g].id == s.nextRow || (g in s.rows && a.rows[g].id == s.rows[g].id))
  }

  lemma {:induction false} OtherHolderStays(s: State, a: State, session: SessionId, g: GameId, h: GameId)
    requires Coupled(s) && WorksOn(s, session, g) && OnlyTouches(s, a, session, g)
    requires h in s.rows && h != g && ActiveRow(s.rows[h])
    ensures HolderStays(s, a, h)
  {
    hide GameOk, RowOk, WorkerOk, HandlerOk, Apart, Suits;
    HolderOf(s, h);
  }

  lemma {:induction false} OtherApart(s: State, a: State, session: SessionId, g: GameId, h: GameId, k: GameId)
    requires Coupled(s) && OnlyTouches(s, a, session, g) && OwnKey(s, a, g) && h in a.rows && k in a.rows && k != g
    ensures Apart(a, h, k)
  {
    hide GameOk, WorkerOk, HandlerOk, HeldWell, CountersGrow;
    assert RowOk(s, k);
    if h in s.rows {
      assert Apart(s, h, k);
    }
  }

  /** The handler at work keeps its assignment, puts it down, or was given a new key. */
  ghost predicate OwnHolding(s: State, a: State, session: SessionId)
    requires session in s.handlers && session in a.handlers
  {
    var before, after := s.handlers[session].holding, a.handlers[session].holding;
    after.None? || after == before || (after.value.key == s.nextKey && s.nextKey < a.nextKey && after.value.row < a.nextRow)
  }

  lemma {:induction false} HandlersStayApart(s: State, a: State, session: SessionId, g: GameId, h: SessionId)
    requires Coupled(s) && WorksOn(s, session, g) && OnlyTouches(s, a, session, g) && OwnHolding(s, a, session)
    requires h in a.handlers
    ensures HandlerOk(a, h)
  {
    hide GameOk, RowOk, WorkerOk, Apart;
    assert HandlerOk(s, h);
    forall k | k in a.handlers && k != h && a.handlers[k].holding.Some? && a.handlers[h].holding.Some?
      ensures a.handlers[k].holding.value.key != a.handlers[h].holding.value.key
    {
      assert HandlerOk(s, k);
    }
  }

  /** When one game, its row and one handler change, only those have to be checked. */
  lemma {:induction false} OneGameChanges(s: State, a: State, session: SessionId, g: GameId)
    requires Coupled(s) && WorksOn(s, session, g) && OnlyTouches(s, a, session, g) && OwnKey(s, a, g) && HomesStay(s, a)
    requires GameOk(a, g) && RowOk(a, g) && OwnHolding(s, a, session)
    ensures Coupled(a)
  {
    hide GameOk, RowOk, HandlerOk, HomesStay, HolderStays, Apart, WorksOn, OwnKey, OwnHolding;
    forall h | h in a.games ensures GameOk(a, h) {
      if h != g {
        GameAfter(s, a, h);
      }
    }
    forall h | h in a.rows ensures RowOk(a, h) {
      if h != g {
        if ActiveRow(s.rows[h]) {
          OtherHolderStays(s, a, session, g, h);
        }
        RowAfter(s, a, h);
      }
    }
    forall w | w in a.workers ensures WorkerOk(a, w) {
      assert WorkerOk(s, w);
    }
    forall h | h in a.handlers ensures HandlerOk(a, h) {
      HandlersStayApart(s, a, session, g, h);
    }
    forall h, k | h in a.rows && k in a.rows ensures Apart(a, h, k) {
      PairApart(s, a, session, g, h, k);
    }
  }

  lemma {:induction false} PairApart(s: State, a: State, session: SessionId, g: GameId, h: GameId, k: GameId)
    requires Coupled(s) && OnlyTouches(s, a, session, g) && OwnKey(s, a, g) && h in a.rows && k in a.rows
    ensures Apart(a, h, k)
  {
    hide Coupled, OnlyTouches, OwnKey;
    if k != g {
      OtherApart(s, a, session, g, h, k);
    } else if h != g {
      OtherApart(s, a, session, g, k, h);
    }
  }

  // ---------------------------------------------------------------- claiming

  lemma {:induction false} AssignKeeps(s: State, session: SessionId, t: TournamentId, g: GameId)
    requires Inv(s) && Current(s, session) && s.handlers[session].holding.None?
    requires Claimable(s, s.workers[s.handlers[session].worker], t) && PendingIn(s.games, t, g)
    ensures Inv(Assign(s, session, t, g))
  {
    hide GameOk, RowOk, HandlerOk, WorkerOk, Apart, ActiveCount, HomeStays;
    var a := Assign(s, session, t, g);
    GamesBelowNext(s);
    AssignedHomes(s, session, t, g);
    AssignedGame(s, session, t, g);
    AssignedRow(s, session, t, g);
    AssignedHandler(s, session, t, g);
    OneGameChanges(s, a, session, g);
    AssignedBound(s, session, t, g);
  }

  lemma {:induction false} AssignedHomes(s: State, session: SessionId, t: TournamentId, g: GameId)
    requires Current(s, session) && Claimable(s, s.workers[s.handlers[session].worker], t) && g in s.games
    ensures HomesStay(s, Assign(s, session, t, g))
  {
    hide ActiveCount, FirstPending;
  }

  lemma {:induction false} AssignedGame(s: State, session: SessionId, t: TournamentId, g: GameId)
    requires Coupled(s) && Current(s, session) && Claimable(s, s.workers[s.handlers[session].worker], t)
    requires PendingIn(s.games, t, g)
    ensures GameOk(Assign(s, session, t, g), g)
  {
    hide ActiveCount, FirstPending, WorkerOk, HandlerOk, Apart, HeldWell;
    assert GameOk(s, g);
    if g in s.rows {
      assert RowOk(s, g);
    }
  }

  lemma {:induction false} AssignedRow(s: State, session: SessionId, t: TournamentId, g: GameId)
    requires Coupled(s) && Current(s, session) && Claimable(s, s.workers[s.handlers[session].worker], t)
    requires PendingIn(s.games, t, g)
    ensures RowOk(Assign(s, session, t, g), g)
  {
    hide ActiveCount, FirstPending, WorkerOk, HandlerOk, Apart, GameOk;
    if g in s.rows {
      assert RowOk(s, g);
    }
  }

  lemma {:induction false} AssignedHandler(s: State, session: SessionId, t: TournamentId, g: GameId)
    requires Coupled(s) && Current(s, session) && Claimable(s, s.workers[s.handlers[session].worker], t)
    requires PendingIn(s.games, t, g)
    ensures OwnHolding(s, Assign(s, session, t, g), session)
  {
    hide ActiveCount, FirstPending, WorkerOk, Apart, GameOk, HeldWell, HandlerOk;
    if g in s.rows {
      assert RowOk(s, g);
    }
  }

  lemma {:induction false} AssignedBound(s: State, session: SessionId, t: TournamentId, g: GameId)
    requires Bounded(s) && Current(s, session) && Claimable(s, s.workers[s.handlers[session].worker], t)
    requires PendingIn(s.games, t, g)
    ensures Bounded(Assign(s, session, t, g))
  {
    hide FirstPending, ActiveCount;
    var a := Assign(s, session, t, g);
    forall u | u in a.tournaments ensures TournamentOk(a, u) {
      assert TournamentOk(s, u);
      if u == t {
        OneMoreActive(s.games, a.games, t, s.nextGame, g);
      } else {
        FewerActive(s.games, a.games, u, s.nextGame);
      }
    }
  }

  lemma {:induction false} ClaimKeeps(s: State, session: SessionId)
    requires Inv(s)
    ensures Inv(Claim(s, session))
  {
    hide Coupled, Bounded, Assign, ActiveCount;
    if Current(s, session) && s.handlers[session].holding.None? {
      var chosen := Chosen(s, s.workers[s.handlers[session].worker], s.nextTournament);
      if chosen.Some? {
        AssignKeeps(s, session, chosen.value, FirstPending(s.games, chosen.value, s.nextGame).value);
      }
    }
  }

  // ---------------------------------------------------------------- running

  /** The handler with a validated payload is the one that the worker of the row answers to. */
  lemma {:induction false} ValidatedIsHeld(s: State, session: SessionId)
    requires Coupled(s) && Holds(s, session) && Validated(s, s.handlers[session].holding.value)
    ensures var g := s.handlers[session].holding.value.game;
            && g in s.games && GameOk(s, g) && RowOk(s, g) && HeldWell(s, g)
            && s.workers[s.rows[g].worker.value].session == Some(session)
  {
    hide WorkerOk, Apart, GameOk;
    var g := s.handlers[session].holding.value.game;
    assert RowOk(s, g);
    assert GameOk(s, g);
    var holder := s.workers[s.rows[g].worker.value].session.value;
    assert HandlerOk(s, session);
    assert s.handlers[holder].holding.Some?;
  }

  /** A step of a running assignment: the tables stay coupled once its own game, row and handler are in order. */
  lemma {:induction false} RunningStep(s: State, a: State, session: SessionId, g: GameId)
    requires Inv(s) && WorksOn(s, session, g) && OnlyTouches(s, a, session, g) && OwnKey(s, a, g)
    requires a.tournaments == s.tournaments && NothingActivated(s, a)
    requires GameOk(a, g) && RowOk(a, g) && OwnHolding(s, a, session)
    ensures Inv(a)
  {
    hide Coupled, Bounded, WorksOn, OnlyTouches, OwnKey, GameOk, RowOk, OwnHolding, HomesStay;
    SameTournaments(s, a);
    OneGameChanges(s, a, session, g);
    assert a.nextGame == s.nextGame by {
      TouchesNoCounter(s, a, session, g);
    }
    BoundKept(s, a);
  }

  lemma {:induction false} TouchesNoCounter(s: State, a: State, session: SessionId, g: GameId)
    requires OnlyTouches(s, a, session, g)
    ensures a.nextGame == s.nextGame
  {
  }

  lemma {:induction false} AcknowledgeKeeps(s: State, session: SessionId)
    requires Inv(s)
    ensures Inv(Acknowledge(s, session))
  {
    hide Coupled, Bounded, LogOk, ActiveCount;
    var a := Acknowledge(s, session);
    if a != s {
      ValidatedIsHeld(s, session);
      RunningStep(s, a, session, s.handlers[session].holding.value.game);
    }
  }

  lemma {:induction false} GoLiveKeeps(s: State, session: SessionId)
    requires Inv(s)
    ensures Inv(GoLive(s, session))
  {
    hide Coupled, Bounded, ActiveCount;
    var a := GoLive(s, session);
    if a != s {
      ValidatedIsHeld(s, session);
      RunningStep(s, a, session, s.handlers[session].holding.value.game);
    }
  }

  lemma {:induction false} RecordMoveKeeps(s: State, session: SessionId, move: Move)
    requires Inv(s)
    ensures Inv(RecordMove(s, session, move))
  {
    hide Coupled, Bounded, ActiveCount;
    var a := RecordMove(s, session, move);
    if a != s {
      ValidatedIsHeld(s, session);
      RunningStep(s, a, session, s.handlers[session].holding.value.game);
    }
  }

  lemma {:induction false} FinishGameKeeps(s: State, session: SessionId, result: Result)
    requires Inv(s)
    ensures Inv(FinishGame(s, session, result))
  {
    hide Coupled, Bounded, ActiveCount;
    var a := FinishGame(s, session, result);
    if a != s {
      ValidatedIsHeld(s, session);
      RunningStep(s, a, session, s.handlers[session].holding.value.game);
    }
  }

  // ---------------------------------------------------------------- failing

  lemma {:induction false} StaleHoldsNothing(s: State, session: SessionId, g: GameId)
    requires Coupled(s) && Holds(s, session) && !Validated(s, s.handlers[session].holding.value)
    requires g in s.rows && ActiveRow(s.rows[g])
    ensures HolderStays(s, PutDown(s, session), g)
  {
    hide GameOk, RowOk, WorkerOk, HandlerOk, Apart, Suits, LogOk;
    HolderOf(s, g);
  }

  lemma {:induction false} PutDownKeeps(s: State, session: SessionId)
    requires Inv(s) && Holds(s, session) && !Validated(s, s.handlers[session].holding.value)
    ensures Inv(PutDown(s, session))
  {
    hide GameOk, RowOk, Apart, ActiveCount, HolderStays, HomesStay, Validated;
    var a := PutDown(s, session);
    forall g | g in s.rows && ActiveRow(s.rows[g]) ensures HolderStays(s, a, g) {
      StaleHoldsNothing(s, session, g);
    }
    forall w | w in a.workers ensures WorkerOk(a, w) {
      assert WorkerOk(s, w);
    }
    forall h | h in a.handlers ensures HandlerOk(a, h) {
      assert HandlerOk(s, h);
    }
    SameTournaments(s, a);
    SurroundingsChange(s, a);
    BoundKept(s, a);
  }

  lemma {:induction false} InactivePayload(s: State, p: Payload)
    requires Coupled(s) && !Validated(s, p)
    ensures FailPayload(s, p) == s
  {
    hide WorkerOk, HandlerOk, Apart, HeldWell, LogOk;
    if p.game in s.rows {
      assert RowOk(s, p.game);
      assert GameOk(s, p.game);
      assert s.rows[p.game := s.rows[p.game]] == s.rows;
    }
  }

  lemma {:induction false} FailActive(s: State, session: SessionId)
    requires Inv(s) && Holds(s, session) && Validated(s, s.handlers[session].holding.value)
    ensures var a := FailPayload(s, s.handlers[session].holding.value);
            Inv(a) && Holds(a, session) && a.handlers == s.handlers && !Validated(a, a.handlers[session].holding.value)
  {
    hide Coupled, Bounded, ActiveCount;
    ValidatedIsHeld(s, session);
    RunningStep(s, FailPayload(s, s.handlers[session].holding.value), session, s.handlers[session].holding.value.game);
  }

  lemma {:induction false} FailAssignmentKeeps(s: State, session: SessionId)
    requires Inv(s)
    ensures Inv(FailAssignment(s, session))
  {
    hide Coupled, Bounded, FailPayload, Validated;
    if Holds(s, session) {
      var p := s.handlers[session].holding.value;
      if Validated(s, p) {
        FailActive(s, session);
      } else {
        InactivePayload(s, p);
      }
      PutDownKeeps(FailPayload(s, p), session);
    }
  }
}
