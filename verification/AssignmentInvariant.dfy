/**
 The invariant that couples games, assignment rows, workers and handlers, and the proof that
 every transaction keeps it.
 */
module AssignmentInvariant {
  import opened Common
  import opened Assignments

  // ---------------------------------------------------------------- the invariant

  /** Plies without a gap, written under keys that never go back, none beyond the current one. */
  ghost predicate LogOk(g: Game, lastKey: int)
  {
    && (forall i :: 0 <= i < |g.log| ==> g.log[i].ply == g.opening.ply + i + 1)
    && (forall i, j :: 0 <= i < j < |g.log| ==> g.log[i].key <= g.log[j].key)
    && (forall i :: 0 <= i < |g.log| ==> g.log[i].key <= lastKey)
  }

  ghost predicate GameOk(s: State, g: GameId)
    requires g in s.games
  {
    && g < s.nextGame
    && s.games[g].tournament in s.tournaments && s.tournaments[s.games[g].tournament].status != Draft
    && (ActiveGame(s.games[g]) <==> g in s.rows && ActiveRow(s.rows[g]))
    && (s.games[g].status == Live <==> g in s.rows && s.rows[g].status == RowLive)
    && (s.games[g].status == Finished <==> s.games[g].result.Some?)
    && LogOk(s.games[g], if g in s.rows then s.rows[g].key else -1)
  }

  /** The worker of an active row is connected, suits the tournament, and its handler has this very assignment in hand. */
  ghost predicate HeldWell(s: State, g: GameId)
    requires g in s.rows && g in s.games
  {
    var row := s.rows[g];
    && row.worker.Some? && row.worker.value in s.workers
    && var w := s.workers[row.worker.value];
    && Assignable(w.status) && w.session.Some? && w.session.value in s.handlers
    && var h := s.handlers[w.session.value];
    && h.worker == row.worker.value && h.holding == Some(Payload(g, row.id, row.key))
    && (h.board.Some? <==> row.status == RowLive)
    && (h.board.Some? ==> h.board.value == MovesOf(s.games[g].log))
    && s.games[g].tournament in s.tournaments
    && var t := s.tournaments[s.games[g].tournament];
    Suits(w, t) && t.profile == Some(w.hw.value.profile)
  }

  ghost predicate RowOk(s: State, g: GameId)
    requires g in s.rows
  {
    && g in s.games && s.rows[g].id < s.nextRow && s.rows[g].key < s.nextKey
    && (ActiveRow(s.rows[g]) ==> HeldWell(s, g))
  }

  ghost predicate WorkerOk(s: State, w: WorkerId)
    requires w in s.workers
  {
    && w < s.nextWorker
    && (s.workers[w].session.Some? ==>
          s.workers[w].session.value in s.handlers && s.handlers[s.workers[w].session.value].worker == w)
  }

  /** No two handlers were given the same key. */
  ghost predicate HandlerOk(s: State, session: SessionId)
    requires session in s.handlers
  {
    && session < s.nextSession
    && (s.handlers[session].holding.Some? ==>
          && s.handlers[session].holding.value.key < s.nextKey && s.handlers[session].holding.value.row < s.nextRow
          && forall k | k in s.handlers && k != session && s.handlers[k].holding.Some? ::
               s.handlers[k].holding.value.key != s.handlers[session].holding.value.key)
  }

  ghost predicate TournamentOk(s: State, t: TournamentId)
    requires t in s.tournaments
  {
    ActiveCount(s.games, t, s.nextGame) <= s.tournaments[t].config.concurrency
  }

  /** No two rows share a key or an id. */
  ghost predicate Apart(s: State, g: GameId, h: GameId)
    requires g in s.rows && h in s.rows
  {
    g != h ==> s.rows[g].key != s.rows[h].key && s.rows[g].id != s.rows[h].id
  }

  /** Games, rows, workers and handlers agree with each other. */
  ghost predicate Coupled(s: State)
  {
    && (forall g | g in s.games :: GameOk(s, g))
    && (forall g | g in s.rows :: RowOk(s, g))
    && (forall w | w in s.workers :: WorkerOk(s, w))
    && (forall h | h in s.handlers :: HandlerOk(s, h))
    && (forall t | t in s.tournaments :: t < s.nextTournament)
    && (forall g, h | g in s.rows && h in s.rows :: Apart(s, g, h))
  }

  /** No tournament has more active games than its concurrency. */
  ghost predicate Bounded(s: State)
  {
    forall t | t in s.tournaments :: TournamentOk(s, t)
  }

  ghost predicate Inv(s: State)
  {
    Coupled(s) && Bounded(s)
  }

  lemma {:induction false} EmptyInv()
    ensures Inv(Empty())
  {
  }

  // ---------------------------------------------------------------- counting active games

  predicate ActiveIn(games: map<GameId, Game>, t: TournamentId, g: GameId)
  {
    g in games && games[g].tournament == t && ActiveGame(games[g])
  }

  lemma {:induction false} FewerActive(games: map<GameId, Game>, after: map<GameId, Game>, t: TournamentId, n: nat)
    requires forall g: nat | g < n && ActiveIn(after, t, g) :: ActiveIn(games, t, g)
    ensures ActiveCount(after, t, n) <= ActiveCount(games, t, n)
  {
    if n > 0 {
      FewerActive(games, after, t, n - 1);
      assert ActiveIn(after, t, n - 1) ==> ActiveIn(games, t, n - 1);
    }
  }

  lemma {:induction false} OneMoreActive(games: map<GameId, Game>, after: map<GameId, Game>, t: TournamentId, n: nat, added: GameId)
    requires forall g: nat | g < n && g != added && ActiveIn(after, t, g) :: ActiveIn(games, t, g)
    ensures ActiveCount(after, t, n) <= ActiveCount(games, t, n) + 1
    ensures added >= n ==> ActiveCount(after, t, n) <= ActiveCount(games, t, n)
  {
    if n > 0 {
      OneMoreActive(games, after, t, n - 1, added);
      assert n - 1 != added && ActiveIn(after, t, n - 1) ==> ActiveIn(games, t, n - 1);
    }
  }

  lemma {:induction false} NoneActive(games: map<GameId, Game>, t: TournamentId, n: nat)
    requires forall g: nat | g < n :: !ActiveIn(games, t, g)
    ensures ActiveCount(games, t, n) == 0
  {
    if n > 0 {
      NoneActive(games, t, n - 1);
      assert !ActiveIn(games, t, n - 1);
    }
  }

  /** No game becomes active, none changes its tournament. */
  ghost predicate NothingActivated(s: State, after: State)
  {
    forall t: TournamentId, g: GameId | ActiveIn(after.games, t, g) :: ActiveIn(s.games, t, g)
  }

  /** A step that activates no game keeps every tournament within its concurrency. */
  lemma {:induction false} BoundKept(s: State, after: State)
    requires Bounded(s) && NothingActivated(s, after) && after.nextGame == s.nextGame
    requires forall t | t in after.tournaments ::
               t in s.tournaments && after.tournaments[t].config == s.tournaments[t].config
    ensures Bounded(after)
  {
    hide ActiveIn, ActiveCount;
    forall t | t in after.tournaments ensures TournamentOk(after, t) {
      assert TournamentOk(s, t);
      FewerActive(s.games, after.games, t, s.nextGame);
    }
  }
}
