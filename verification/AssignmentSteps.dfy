/** Every transaction on the assignment tables keeps them coupled (cope/db/repo.py). */
module AssignmentSteps {
  import opened Common
  import opened Assignments
  import opened AssignmentInvariant

  // ---------------------------------------------------------------- what a step leaves alone

  ghost predicate SameAt(s: State, a: State, g: GameId)
  {
    && (g in s.games <==> g in a.games) && (g in s.games ==> s.games[g] == a.games[g])
    && (g in s.rows <==> g in a.rows) && (g in s.rows ==> s.rows[g] == a.rows[g])
  }

  ghost predicate CountersGrow(s: State, a: State)
  {
    && s.nextGame <= a.nextGame && s.nextRow <= a.nextRow && s.nextTournament <= a.nextTournament
    && s.nextWorker <= a.nextWorker && s.nextSession <= a.nextSession && s.nextKey <= a.nextKey
  }

  /** The tournament still has games, with the same configuration; a profile once set stays. */
  ghost predicate HomeStays(s: State, a: State, t: TournamentId)
  {
    && t in s.tournaments && t in a.tournaments && a.tournaments[t].status != Draft
    && a.tournaments[t].config == s.tournaments[t].config
    && (s.tournaments[t].profile.Some? ==> a.tournaments[t].profile == s.tournaments[t].profile)
  }

  /** All an assignment needs of its worker. */
  ghost predicate Serves(before: Worker, after: Worker)
  {
    && before.session == after.session && before.resources == after.resources && before.hw == after.hw
    && (Assignable(before.status) ==> Assignable(after.status))
  }

  /** The worker of an active row still serves it, and its handler is as it was. */
  ghost predicate HolderStays(s: State, a: State, g: GameId)
    requires g in s.rows
  {
    && s.rows[g].worker.Some? && s.rows[g].worker.value in s.workers
    && var w := s.rows[g].worker.value;
    && w in a.workers && Serves(s.workers[w], a.workers[w])
    && (s.workers[w].session.Some? ==>
          && s.workers[w].session.value in s.handlers && s.workers[w].session.value in a.handlers
          && a.handlers[s.workers[w].session.value] == s.handlers[s.workers[w].session.value])
  }

  lemma {:induction false} GameStays(s: State, a: State, g: GameId)
    requires g in s.games && GameOk(s, g) && SameAt(s, a, g) && s.nextGame <= a.nextGame
    requires HomeStays(s, a, s.games[g].tournament)
    ensures GameOk(a, g)
  {
  }

  lemma {:induction false} RowStays(s: State, a: State, g: GameId)
    requires g in s.rows && RowOk(s, g) && SameAt(s, a, g) && s.nextRow <= a.nextRow && s.nextKey <= a.nextKey
    requires ActiveRow(s.rows[g]) ==> HolderStays(s, a, g) && HomeStays(s, a, s.games[g].tournament)
    ensures RowOk(a, g)
  {
  }

  ghost predicate HomesStay(s: State, a: State)
  {
    forall t | t in s.tournaments && s.tournaments[t].status != Draft :: HomeStays(s, a, t)
  }

  ghost predicate HoldersStay(s: State, a: State)
  {
    forall g | g in s.rows && ActiveRow(s.rows[g]) :: HolderStays(s, a, g)
  }

  lemma {:induction false} HomeOf(s: State, a: State, g: GameId)
    requires Coupled(s) && g in s.games && HomesStay(s, a)
    ensures HomeStays(s, a, s.games[g].tournament)
  {
    hide RowOk, WorkerOk, HandlerOk, Apart, LogOk, HomeStays;
    assert GameOk(s, g);
  }

  lemma {:induction false} HolderOf(s: State, g: GameId)
    requires Coupled(s) && g in s.rows && ActiveRow(s.rows[g])
    ensures g in s.games && HeldWell(s, g)
  {
    hide GameOk, WorkerOk, HandlerOk, Apart, LogOk, HeldWell;
    assert RowOk(s, g);
  }

  lemma {:induction false} GameAfter(s: State, a: State, g: GameId)
    requires Coupled(s) && g in s.games && SameAt(s, a, g) && CountersGrow(s, a) && HomesStay(s, a)
    ensures GameOk(a, g)
  {
    hide GameOk, RowOk, WorkerOk, HandlerOk, Apart, HomeStays;
    assert GameOk(s, g);
    HomeOf(s, a, g);
    GameStays(s, a, g);
  }

  lemma {:induction false} RowAfter(s: State, a: State, g: GameId)
    requires Coupled(s) && g in s.rows && SameAt(s, a, g) && CountersGrow(s, a) && HomesStay(s, a)
    requires ActiveRow(s.rows[g]) ==> HolderStays(s, a, g)
    ensures RowOk(a, g)
  {
    hide GameOk, WorkerOk, HandlerOk, HomeStays, HeldWell, LogOk, Apart, HolderStays;
    assert RowOk(s, g);
    HomeOf(s, a, g);
    RowStays(s, a, g);
  }

  // ---------------------------------------------------------------- games and rows stay, the rest changes

  /** Workers and handlers are in order on their own. */
  ghost predicate PeopleOk(a: State)
  {
    && (forall w | w in a.workers :: WorkerOk(a, w))
    && (forall h | h in a.handlers :: HandlerOk(a, h))
  }

  lemma {:induction false} SurroundingsChange(s: State, a: State)
    requires Coupled(s) && a.games == s.games && a.rows == s.rows && CountersGrow(s, a)
    requires HomesStay(s, a) && HoldersStay(s, a) && PeopleOk(a)
    requires forall t | t in a.tournaments :: t < a.nextTournament
    ensures Coupled(a)
  {
    hide GameOk, RowOk, WorkerOk, HandlerOk, HolderStays, HomesStay;
    forall g | g in a.games ensures GameOk(a, g) {
      GameAfter(s, a, g);
    }
    forall g | g in a.rows ensures RowOk(a, g) {
      RowAfter(s, a, g);
    }
    forall g, h | g in a.rows && h in a.rows ensures Apart(a, g, h) {
      assert Apart(s, g, h);
    }
  }

  lemma {:induction false} AllHoldersStay(s: State, a: State)
    requires Coupled(s)
    requires forall w | w in s.workers :: w in a.workers && Serves(s.workers[w], a.workers[w])
    requires forall h | h in s.handlers :: h in a.handlers && a.handlers[h] == s.handlers[h]
    ensures HoldersStay(s, a)
  {
    hide GameOk, RowOk, WorkerOk, HandlerOk, Apart, Serves;
    forall g | g in s.rows && ActiveRow(s.rows[g]) ensures HolderStays(s, a, g) {
      HolderOf(s, g);
    }
  }

  lemma {:induction false} TournamentsChange(s: State, a: State)
    requires Coupled(s) && HomesStay(s, a)
    requires a == s.(tournaments := a.tournaments, nextTournament := a.nextTournament)
    requires s.nextTournament <= a.nextTournament && forall t | t in a.tournaments :: t < a.nextTournament
    ensures Coupled(a)
  {
    hide GameOk, RowOk, Apart, HomesStay, HolderStays;
    AllHoldersStay(s, a);
    forall w | w in a.workers ensures WorkerOk(a, w) {
      assert WorkerOk(s, w);
    }
    forall h | h in a.handlers ensures HandlerOk(a, h) {
      assert HandlerOk(s, h);
    }
    SurroundingsChange(s, a);
  }

  // ---------------------------------------------------------------- tournaments

  lemma {:induction false} AddTournamentKeeps(s: State, config: Config)
    requires Inv(s)
    ensures Inv(AddTournament(s, config))
  {
    hide GameOk, RowOk, WorkerOk, HandlerOk, Apart, TournamentOk;
    var a := AddTournament(s, config);
    TournamentsChange(s, a);
    forall t | t in a.tournaments ensures TournamentOk(a, t) {
      NewTournamentBound(s, config, t);
    }
  }

  lemma {:induction false} NoGamesYet(s: State, t: TournamentId)
    requires Coupled(s) && (t !in s.tournaments || s.tournaments[t].status == Draft)
    ensures ActiveCount(s.games, t, s.nextGame) == 0
  {
    hide RowOk, WorkerOk, HandlerOk, Apart, LogOk;
    forall g: nat | g < s.nextGame ensures !ActiveIn(s.games, t, g) {
      if g in s.games {
        assert GameOk(s, g);
      }
    }
    NoneActive(s.games, t, s.nextGame);
  }

  lemma {:induction false} NewTournamentBound(s: State, config: Config, t: TournamentId)
    requires Inv(s) && t in AddTournament(s, config).tournaments
    ensures TournamentOk(AddTournament(s, config), t)
  {
    hide GameOk, RowOk, WorkerOk, HandlerOk, Apart, ActiveCount;
    if t == s.nextTournament {
      NoGamesYet(s, t);
    } else {
      assert TournamentOk(s, t);
    }
  }

  /** Drafts have no games yet, so a draft's concurrency may be edited freely. */
  lemma {:induction false} EditTournamentKeeps(s: State, t: TournamentId, config: Config)
    requires Inv(s)
    ensures Inv(EditTournament(s, t, config))
  {
    hide GameOk, RowOk, WorkerOk, HandlerOk, Apart, ActiveCount;
    var a := EditTournament(s, t, config);
    if t in s.tournaments && s.tournaments[t].status == Draft {
      TournamentsChange(s, a);
      NoGamesYet(s, t);
      forall u | u in a.tournaments ensures TournamentOk(a, u) {
        assert TournamentOk(s, u);
      }
    }
  }

  lemma {:induction false} SetStatusKeeps(s: State, t: TournamentId, status: TournamentStatus)
    requires Inv(s) && status != Draft
    ensures Inv(SetStatus(s, t, status))
  {
    hide GameOk, RowOk, WorkerOk, HandlerOk, Apart, ActiveCount, AbandonTournamentGames;
    if t in s.tournaments {
      var a := s.(tournaments := s.tournaments[t := s.tournaments[t].(status := status)]);
      TournamentsChange(s, a);
      BoundKept(s, a);
      if status == Aborted {
        AbandonKeeps(a, t);
      }
    }
  }

  lemma {:induction false} AbandonGame(s: State, t: TournamentId, g: GameId)
    requires g in s.games && GameOk(s, g)
    ensures GameOk(AbandonTournamentGames(s, t), g)
  {
  }

  lemma {:induction false} AbandonRow(s: State, t: TournamentId, g: GameId)
    requires g in s.rows && RowOk(s, g) && g in s.games && GameOk(s, g)
    ensures RowOk(AbandonTournamentGames(s, t), g)
  {
    hide LogOk;
  }

  lemma {:induction false} AbandonKeeps(s: State, t: TournamentId)
    requires Inv(s)
    ensures Inv(AbandonTournamentGames(s, t))
  {
    hide GameOk, RowOk, ActiveCount;
    var a := AbandonTournamentGames(s, t);
    forall g | g in a.games ensures GameOk(a, g) {
      AbandonGame(s, t, g);
    }
    forall g | g in a.rows ensures RowOk(a, g) {
      assert RowOk(s, g) && (g in s.games ==> GameOk(s, g));
      RowHasGame(s, g);
      AbandonRow(s, t, g);
    }
    forall w | w in a.workers ensures WorkerOk(a, w) {
      assert WorkerOk(s, w);
    }
    forall h | h in a.handlers ensures HandlerOk(a, h) {
      assert HandlerOk(s, h);
    }
    forall g, h | g in a.rows && h in a.rows ensures Apart(a, g, h) {
      assert Apart(s, g, h);
    }
    BoundKept(s, a);
  }

  lemma {:induction false} RowHasGame(s: State, g: GameId)
    requires Coupled(s) && g in s.rows
    ensures g in s.games && GameOk(s, g)
  {
    hide WorkerOk, HandlerOk, Apart, LogOk, HeldWell;
    assert RowOk(s, g);
  }

  lemma {:induction false} AddGameKeeps(s: State, t: TournamentId, opening: Opening)
    requires Inv(s)
    ensures Inv(AddGame(s, t, opening))
  {
    hide GameOk, RowOk, ActiveCount, HolderStays, HomesStay;
    var a := AddGame(s, t, opening);
    if a != s {
      assert HomesStay(s, a) by {
        SameTournaments(s, a);
      }
      AllHoldersStay(s, a);
      GamesBelowNext(s);
      forall g | g in a.games ensures GameOk(a, g) {
        if g in s.games {
          GameAfter(s, a, g);
        } else {
          NewGameOk(s, t, opening);
        }
      }
      forall g | g in a.rows ensures RowOk(a, g) {
        RowAfter(s, a, g);
      }
      forall w | w in a.workers ensures WorkerOk(a, w) {
        assert WorkerOk(s, w);
      }
      forall h | h in a.handlers ensures HandlerOk(a, h) {
        assert HandlerOk(s, h);
      }
      forall g, h | g in a.rows && h in a.rows ensures Apart(a, g, h) {
        assert Apart(s, g, h);
      }
      forall u | u in a.tournaments ensures TournamentOk(a, u) {
        NewGameBound(s, t, opening, u);
      }
    }
  }

  lemma {:induction false} SameTournaments(s: State, a: State)
    requires s.tournaments == a.tournaments
    ensures HomesStay(s, a)
  {
  }

  lemma {:induction false} GamesBelowNext(s: State)
    requires Coupled(s)
    ensures forall g | g in s.games :: g < s.nextGame
    ensures forall g | g in s.rows :: g < s.nextGame
  {
    hide WorkerOk, HandlerOk, Apart, LogOk, HeldWell;
    forall g | g in s.games ensures g < s.nextGame {
      assert GameOk(s, g);
    }
    forall g | g in s.rows ensures g < s.nextGame {
      assert RowOk(s, g);
      assert GameOk(s, g);
    }
  }

  lemma {:induction false} NewGameOk(s: State, t: TournamentId, opening: Opening)
    requires s.nextGame !in s.rows && t in s.tournaments && s.tournaments[t].status != Draft
    ensures var a := s.(games := s.games[s.nextGame := Game(t, Pending, None, opening, [])], nextGame := s.nextGame + 1);
            GameOk(a, s.nextGame)
  {
  }

  lemma {:induction false} NewGameBound(s: State, t: TournamentId, opening: Opening, u: TournamentId)
    requires Inv(s) && u in s.tournaments
    ensures var a := s.(games := s.games[s.nextGame := Game(t, Pending, None, opening, [])], nextGame := s.nextGame + 1);
            TournamentOk(a, u)
  {
    hide GameOk, RowOk, WorkerOk, HandlerOk, Apart;
    var games := s.games[s.nextGame := Game(t, Pending, None, opening, [])];
    assert TournamentOk(s, u);
    FewerActive(s.games, games, u, s.nextGame);
  }

  lemma {:induction false} DeleteTournamentKeeps(s: State, t: TournamentId)
    requires Inv(s)
    ensures Inv(DeleteTournament(s, t))
  {
    hide GameOk, RowOk, ActiveCount;
    var a := DeleteTournament(s, t);
    if a != s {
      forall g | g in a.games ensures GameOk(a, g) {
        DeletedGame(s, t, g);
      }
      forall g | g in a.rows ensures RowOk(a, g) {
        RowHasGame(s, g);
        DeletedRow(s, t, g);
      }
      forall w | w in a.workers ensures WorkerOk(a, w) {
        assert WorkerOk(s, w);
      }
      forall h | h in a.handlers ensures HandlerOk(a, h) {
        assert HandlerOk(s, h);
      }
      forall g, h | g in a.rows && h in a.rows ensures Apart(a, g, h) {
        assert Apart(s, g, h);
      }
      BoundKept(s, a);
    }
  }

  lemma {:induction false} DeletedGame(s: State, t: TournamentId, g: GameId)
    requires g in DeleteTournament(s, t).games && GameOk(s, g)
    ensures GameOk(DeleteTournament(s, t), g)
  {
  }

  lemma {:induction false} DeletedRow(s: State, t: TournamentId, g: GameId)
    requires g in DeleteTournament(s, t).rows && RowOk(s, g)
    ensures RowOk(DeleteTournament(s, t), g)
  {
  }
}
