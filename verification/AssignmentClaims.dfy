/**
 What a claim gives, in the columns of the tables (cope/runner/local.py:204-261): which worker gets
 which game of which tournament, exactly when, and what is written for it.
 */
module AssignmentClaims {
  import opened Common
  import opened Assignments
  import opened AssignmentInvariant
  import AssignmentSafety

  // ---------------------------------------------------------------- in columns

  /** The games of a tournament that are assigned or live. */
  ghost function ActiveGames(s: State, t: TournamentId): set<GameId>
  {
    set g | g in s.games && s.games[g].tournament == t && (s.games[g].status == Assigned || s.games[g].status == Live)
  }

  ghost predicate Waits(s: State, t: TournamentId, g: GameId)
  {
    g in s.games && s.games[g].tournament == t && s.games[g].status == Pending
  }

  /** Enough threads for one engine, enough memory for both, and the hardware the tournament is pinned to, if it is. */
  ghost predicate MeetsNeeds(w: Worker, t: Tournament)
  {
    && w.resources.threads >= t.config.engineThreads
    && w.resources.hashMb >= t.config.engineHashMb + t.config.engineHashMb
    && w.hw.Some?
    && (t.profile.None? || t.profile.value == w.hw.value.profile)
  }

  /** The tournament has a game for the worker now. */
  ghost predicate Offers(s: State, w: Worker, t: TournamentId)
  {
    && t in s.tournaments && s.tournaments[t].status == Running
    && |ActiveGames(s, t)| < s.tournaments[t].config.concurrency
    && MeetsNeeds(w, s.tournaments[t])
    && exists g :: Waits(s, t, g)
  }

  /** The session is the one its connected worker answers to, and its loop has nothing in hand. */
  ghost predicate Idle(s: State, session: SessionId)
  {
    && session in s.handlers && s.handlers[session].holding.None? && s.handlers[session].worker in s.workers
    && var w := s.workers[s.handlers[session].worker];
    w.session == Some(session) && w.status in {Connected, Downloading, Ready, Busy}
  }

  ghost function WorkerOf(s: State, session: SessionId): Worker
    requires Idle(s, session)
  {
    s.workers[s.handlers[session].worker]
  }

  // ---------------------------------------------------------------- the loops count and find what the columns say

  lemma {:induction false} CountIsCardinality(games: map<GameId, Game>, t: TournamentId, n: nat)
    ensures ActiveCount(games, t, n) == |set g | g in games && g < n && ActiveIn(games, t, g)|
  {
    var active := set g | g in games && g < n && ActiveIn(games, t, g);
    if n == 0 {
      assert active == {};
    } else {
      CountIsCardinality(games, t, n - 1);
      var before := set g | g in games && g < n - 1 && ActiveIn(games, t, g);
      assert active == if ActiveIn(games, t, n - 1) then before + {n - 1} else before;
    }
  }

  lemma {:induction false} ActiveGamesAreCounted(s: State, t: TournamentId)
    requires Inv(s)
    ensures ActiveCount(s.games, t, s.nextGame) == |ActiveGames(s, t)|
  {
    hide RowOk, WorkerOk, HandlerOk, Apart, Bounded;
    CountIsCardinality(s.games, t, s.nextGame);
    forall g | g in s.games ensures g < s.nextGame {
      assert GameOk(s, g);
    }
    assert ActiveGames(s, t) == set g | g in s.games && g < s.nextGame && ActiveIn(s.games, t, g);
  }

  lemma {:induction false} NeedsAreResources(w: Worker, t: Tournament)
    ensures Suits(w, t) <==> MeetsNeeds(w, t)
  {
  }

  lemma {:induction false} FirstWaits(s: State, t: TournamentId)
    requires Inv(s)
    ensures var r := FirstPending(s.games, t, s.nextGame);
            && (r.Some? <==> exists g :: Waits(s, t, g))
            && (r.Some? ==> Waits(s, t, r.value) && forall g :: Waits(s, t, g) ==> r.value <= g)
  {
    hide RowOk, WorkerOk, HandlerOk, Apart, Bounded, FirstPending;
    forall g | g in s.games ensures g < s.nextGame {
      assert GameOk(s, g);
    }
    assert forall g :: Waits(s, t, g) <==> PendingIn(s.games, t, g);
  }

  lemma {:induction false} OffersAreClaimable(s: State, w: Worker, t: TournamentId)
    requires Inv(s)
    ensures Offers(s, w, t) <==> Claimable(s, w, t)
  {
    hide Inv, ActiveCount, ActiveGames, FirstPending, Suits, MeetsNeeds, Waits;
    if t in s.tournaments {
      ActiveGamesAreCounted(s, t);
      NeedsAreResources(w, s.tournaments[t]);
      FirstWaits(s, t);
    }
  }

  lemma {:induction false} ChosenIsNewest(s: State, w: Worker)
    requires Inv(s)
    ensures var r := Chosen(s, w, s.nextTournament);
            && (r.Some? <==> exists t :: Offers(s, w, t))
            && (r.Some? ==> Offers(s, w, r.value) && forall t: TournamentId :: Offers(s, w, t) ==> t <= r.value)
  {
    hide Inv, Chosen, Claimable, Offers;
    forall t ensures Offers(s, w, t) <==> Claimable(s, w, t) {
      OffersAreClaimable(s, w, t);
    }
    forall t: TournamentId | Offers(s, w, t) ensures t < s.nextTournament {
      OfferedIsKnown(s, w, t);
    }
  }

  lemma {:induction false} OfferedIsKnown(s: State, w: Worker, t: TournamentId)
    requires Inv(s) && Offers(s, w, t)
    ensures t < s.nextTournament
  {
    hide GameOk, RowOk, WorkerOk, HandlerOk, Apart, Bounded, MeetsNeeds;
  }

  // ---------------------------------------------------------------- main results

  /** The newest tournament with a game for the worker, and its first waiting game. */
  ghost predicate Next(s: State, w: Worker, t: TournamentId, g: GameId)
  {
    && Offers(s, w, t) && (forall u: TournamentId :: Offers(s, w, u) ==> u <= t)
    && Waits(s, t, g) && (forall h :: Waits(s, t, h) ==> g <= h)
  }

  /** What a claim writes: the game is assigned, its one row is the worker's under a new key, and the tournament is pinned. */
  ghost predicate Written(s: State, a: State, session: SessionId, t: TournamentId, g: GameId)
    requires Idle(s, session) && t in s.tournaments && g in s.games && WorkerOf(s, session).hw.Some?
  {
    var worker := s.handlers[session].worker;
    && a.games == s.games[g := s.games[g].(status := Assigned)]
    && g in a.rows && (forall h :: h != g ==> (h in a.rows <==> h in s.rows) && (h in s.rows ==> a.rows[h] == s.rows[h]))
    && a.rows[g].worker == Some(worker) && a.rows[g].status == RowAssigned
    && a.rows[g].key == s.nextKey && a.nextKey > s.nextKey
    && a.rows[g].id == (if g in s.rows then s.rows[g].id else s.nextRow)
    && a.tournaments == s.tournaments[t := s.tournaments[t].(profile := Some(WorkerOf(s, session).hw.value.profile))]
    && a.workers == s.workers
    && a.handlers == s.handlers[session := Handler(worker, Some(Payload(g, a.rows[g].id, a.rows[g].key)), None)]
  }

  /**
   A claim by an idle session gives its worker the first waiting game of the newest tournament that
   has one for it, and nothing exactly when no running tournament below its concurrency that the
   worker is strong enough for, on the hardware it is pinned to, has a game waiting.
   */
  lemma {:induction false} ClaimGives(s: State, session: SessionId)
    requires Inv(s) && Idle(s, session)
    ensures (forall t :: !Offers(s, WorkerOf(s, session), t)) <==> Claim(s, session) == s
    ensures (exists t :: Offers(s, WorkerOf(s, session), t)) ==>
              exists t, g :: Next(s, WorkerOf(s, session), t, g) && Written(s, Claim(s, session), session, t, g)
  {
    hide Inv, Chosen, Offers, FirstPending, Waits;
    var w := WorkerOf(s, session);
    ChosenIsNewest(s, w);
    if Chosen(s, w, s.nextTournament).Some? {
      var t := Chosen(s, w, s.nextTournament).value;
      OfferIsOpen(s, w, t);
      FirstWaits(s, t);
      var g := FirstPending(s.games, t, s.nextGame).value;
      AssignWrites(s, session, t, g);
      assert Next(s, w, t, g);
    }
  }

  lemma {:induction false} OfferIsOpen(s: State, w: Worker, t: TournamentId)
    requires Offers(s, w, t)
    ensures t in s.tournaments && w.hw.Some? && exists g :: Waits(s, t, g)
  {
  }

  lemma {:induction false} AssignWrites(s: State, session: SessionId, t: TournamentId, g: GameId)
    requires Idle(s, session) && t in s.tournaments && Waits(s, t, g) && WorkerOf(s, session).hw.Some?
    ensures Written(s, Assign(s, session, t, g), session, t, g)
    ensures Assign(s, session, t, g) != s
  {
  }

  /** In every reachable state the games of a tournament that are assigned or live are at most its concurrency. */
  lemma {:induction false} ActiveGamesAreBounded(steps: seq<Step>, t: TournamentId)
    requires t in Run(Empty(), steps).tournaments
    ensures var s := Run(Empty(), steps);
            |ActiveGames(s, t)| <= s.tournaments[t].config.concurrency
  {
    hide Run, Inv, ActiveCount, ActiveGames;
    EmptyInv();
    AssignmentSafety.RunKeepsInv(Empty(), steps);
    AssignmentSafety.ConcurrencyIsRespected(steps, t);
    ActiveGamesAreCounted(Run(Empty(), steps), t);
  }
}
