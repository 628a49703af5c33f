/**
 The rules of rating commits in the columns of the tables (cope/ratings.py, cope/runner/commands.py,
 cope/db/repo.py:2255-2314): when a request is queued, when a command applies and when it fails, which
 games are rated, and what each writes.
 */
module RatingRules {
  import opened Common
  import opened Elo
  import opened RatingBook
  import opened RatingCommits
  import RatingSafety

  // ---------------------------------------------------------------- the games that count

  /** All games of a finished tournament count, and of an aborted one those with a result. */
  ghost predicate CountsAt(t: Tournament, i: nat)
  {
    i < |t.games| && (t.status == Aborted ==> t.games[i].result.Some?)
  }

  ghost function CountingBelow(t: Tournament, n: nat): set<nat>
  {
    set i | 0 <= i < n && CountsAt(t, i)
  }

  ghost function DecidedBelow(games: seq<Game>, n: nat): set<nat>
    requires n <= |games|
  {
    set i | 0 <= i < n && games[i].result.Some?
  }

  lemma {:induction false} DecidedAt(games: seq<Game>, i: nat)
    requires i < |games| && games[i].result.Some?
    ensures var place := |DecidedBelow(games, i)|;
            place < |Decided(games)| && Decided(games)[place] == games[i]
    decreases |games|
  {
    var k := |games| - 1;
    DecidedSize(games[..k]);
    assert DecidedBelow(games[..k], i) == DecidedBelow(games, i);
    if i < k {
      DecidedAt(games[..k], i);
    }
  }

  lemma {:induction false} DecidedSize(games: seq<Game>)
    ensures |Decided(games)| == |DecidedBelow(games, |games|)|
    decreases |games|
  {
    if games == [] {
      NobodyDecided();
    } else {
      var k := |games| - 1;
      DecidedSize(games[..k]);
      assert DecidedBelow(games, |games|) == DecidedBelow(games[..k], k) + if games[k].result.Some? then {k} else {};
    }
  }

  lemma {:induction false} NobodyDecided()
    ensures DecidedBelow([], 0) == {}
  {
  }

  /** The counted games are the games that count, in the order of the table. */
  lemma {:induction false} CountedExactly(t: Tournament, i: nat)
    ensures |Counted(t)| == |CountingBelow(t, |t.games|)|
    ensures CountsAt(t, i) ==>
              |CountingBelow(t, i)| < |Counted(t)| && Counted(t)[|CountingBelow(t, i)|] == t.games[i]
  {
    if t.status == Aborted {
      DecidedSize(t.games);
      assert CountingBelow(t, |t.games|) == DecidedBelow(t.games, |t.games|);
      if CountsAt(t, i) {
        DecidedAt(t.games, i);
        assert CountingBelow(t, i) == DecidedBelow(t.games, i);
      }
    } else {
      EverythingCounts(t, |t.games|);
      if i < |t.games| {
        EverythingCounts(t, i);
      }
    }
  }

  lemma {:induction false} EverythingCounts(t: Tournament, n: nat)
    requires t.status != Aborted && n <= |t.games|
    ensures |CountingBelow(t, n)| == n
  {
    if n == 0 {
      assert CountingBelow(t, n) == {};
    } else {
      EverythingCounts(t, n - 1);
      assert CountingBelow(t, n) == CountingBelow(t, n - 1) + {n - 1};
    }
  }

  lemma {:induction false} CountedElement(t: Tournament, k: nat)
    requires k < |Counted(t)|
    ensures exists i: nat :: CountsAt(t, i) && t.games[i] == Counted(t)[k]
  {
    if t.status == Aborted {
      DecidedElement(t.games, k);
      var i :| 0 <= i < |t.games| && t.games[i].result.Some? && t.games[i] == Decided(t.games)[k];
      assert CountsAt(t, i);
    } else {
      assert CountsAt(t, k);
    }
  }

  lemma {:induction false} DecidedElement(games: seq<Game>, k: nat)
    requires k < |Decided(games)|
    ensures exists i :: 0 <= i < |games| && games[i].result.Some? && games[i] == Decided(games)[k]
    decreases |games|
  {
    var n := |games| - 1;
    if k < |Decided(games[..n])| {
      DecidedElement(games[..n], k);
      var i :| 0 <= i < n && games[..n][i].result.Some? && games[..n][i] == Decided(games[..n])[k];
      assert games[i] == Decided(games)[k];
    }
  }

  // ---------------------------------------------------------------- requests

  ghost predicate SomeDecided(t: Tournament)
  {
    exists i :: 0 <= i < |t.games| && t.games[i].result.Some?
  }

  /** There is something to commit: the tournament is finished, or aborted with a finished game. */
  ghost predicate Played(t: Tournament)
  {
    t.status == Finished || (t.status == Aborted && SomeDecided(t))
  }

  /** A commit that is claimed, applied, or waiting with its command still to be processed. */
  ghost predicate InProgress(s: Store, t: TournamentId)
  {
    && t in s.commits
    && var commit := s.commits[t];
    || commit.status in {CommitClaimed, CommitApplied}
    || (commit.status == CommitPending && commit.command.Some? && commit.command.value in s.commands
        && s.commands[commit.command.value].status in {Pending, Claimed})
  }

  lemma {:induction false} NothingDecided(t: Tournament)
    ensures Decided(t.games) == [] <==> !SomeDecided(t)
  {
    if SomeDecided(t) {
      var i :| 0 <= i < |t.games| && t.games[i].result.Some?;
      DecidedAt(t.games, i);
    }
    if Decided(t.games) != [] {
      DecidedElement(t.games, 0);
    }
  }

  /** Each answer to a request, in the columns of the tournament and its commit. */
  lemma {:induction false} RequestsAreAnswered(s: Store, t: TournamentId)
    ensures var answer := AnswerTo(s, t);
            if t !in s.tournaments then answer == Refused(UnknownTournament)
            else
              var record := s.tournaments[t];
              && (answer == Refused(NotOver) <==> record.status == Open)
              && (answer == Refused(NothingFinished) <==> record.status == Aborted && !SomeDecided(record))
              && (answer == Refused(Unrated) <==> Played(record) && !record.rated)
              && (answer == Refused(CustomSettings) <==>
                    Played(record) && record.rated && (record.category.None? || !record.linked))
              && (answer == AlreadyRequested <==>
                    Played(record) && record.rated && record.category.Some? && record.linked && InProgress(s, t))
              && (answer == Queued(s.nextCommand) <==>
                    Played(record) && record.rated && record.category.Some? && record.linked && !InProgress(s, t))
  {
    hide Decided, SomeDecided;
    if t in s.tournaments {
      NothingDecided(s.tournaments[t]);
    }
  }

  /** A queued request adds one pending command and points the commit at it; nothing else changes. */
  lemma {:induction false} RequestsAreQueued(s: Store, t: TournamentId)
    requires AnswerTo(s, t).Queued?
    ensures var after := Request(s, t);
            && s.tournaments[t].category.Some?
            && var category := s.tournaments[t].category.value;
            && after.commands == s.commands[s.nextCommand := Command(CommitResults(t, category), Pending)]
            && after.commits == s.commits[t := Commit(category, Some(s.nextCommand), CommitPending)]
            && after.book == s.book && after.tournaments == s.tournaments && after.nextCommand == s.nextCommand + 1
  {
  }

  // ---------------------------------------------------------------- when a command applies

  /** Played, rated in this category by its own settings, and all games that count are decided games of participants. */
  ghost predicate Rateable(t: Tournament, category: Category)
  {
    && t.status in {Finished, Aborted} && t.rated && t.linked && t.category == Some(category)
    && (exists i: nat :: CountsAt(t, i))
    && forall i: nat :: CountsAt(t, i) ==>
         t.games[i].result.Some? && t.games[i].white in t.participants && t.games[i].black in t.participants
  }

  /** The commit is the command's own, or one without a command that it takes over. */
  ghost predicate Owned(commit: Commit, id: CommandId)
  {
    || (commit.command == Some(id) && commit.status in {CommitPending, CommitClaimed})
    || (commit.command == None && commit.status == CommitPending)
  }

  ghost predicate Applicable(s: Store, id: CommandId)
    requires id in s.commands
  {
    && s.commands[id].payload.CommitResults?
    && var t, category := s.commands[id].payload.tournament, s.commands[id].payload.category;
    && t > 0 && category > 0 && t in s.commits && t in s.tournaments
    && Owned(s.commits[t], id) && s.commits[t].category == category
    && Rateable(s.tournaments[t], category)
    && forall i :: 0 <= i < |s.book.history| ==> s.book.history[i].tournament != t
  }

  lemma {:induction false} RateableIsMayCommit(t: Tournament, category: Category)
    ensures MayCommit(t, category) <==> Rateable(t, category)
  {
    hide Counted;
    if Rateable(t, category) {
      forall k | 0 <= k < |Counted(t)|
        ensures var g := Counted(t)[k]; g.result.Some? && g.white in t.participants && g.black in t.participants
      {
        CountedElement(t, k);
        var i: nat :| CountsAt(t, i) && t.games[i] == Counted(t)[k];
      }
      var i: nat :| CountsAt(t, i);
      CountedExactly(t, i);
    }
    if MayCommit(t, category) {
      CountedElement(t, 0);
      forall i: nat | CountsAt(t, i)
        ensures t.games[i].result.Some? && t.games[i].white in t.participants && t.games[i].black in t.participants
      {
        CountedExactly(t, i);
        assert Counted(t)[|CountingBelow(t, i)|] == t.games[i];
      }
    }
  }

  /** A commit applies exactly when every column allows it. */
  lemma {:induction false} AppliesExactly(s: Store, expected: Expected, id: CommandId)
    requires id in s.commands
    ensures ApplyCommit(s, expected, id).Some? <==> Applicable(s, id)
  {
    hide MayCommit, Rateable, AddGames, Counted;
    var payload := s.commands[id].payload;
    if payload.CommitResults? && payload.tournament in s.tournaments {
      RateableIsMayCommit(s.tournaments[payload.tournament], payload.category);
    }
  }

  // ---------------------------------------------------------------- what a command leaves

  /** The commit a failed command takes down with it. */
  ghost predicate FailsWith(s: Store, id: CommandId, t: TournamentId)
    requires id in s.commands && t in s.commits
  {
    && s.commands[id].payload.CommitResults? && s.commits[t].status in {CommitPending, CommitClaimed}
    && (|| s.commits[t].command == Some(id)
        || (&& s.commits[t].command == None && s.commands[id].payload.tournament == t
            && s.commands[id].payload.category == s.commits[t].category))
  }

  /**
   A command ends applied, with its tournament's commit applied and its counted games on record, exactly
   when it is applicable and the announcement works; otherwise it ends failed, together with the
   commits that are linked to it, and the ratings and the history stay.
   */
  lemma {:induction false} CommandsEnd(s: Store, expected: Expected, id: CommandId, announcementFails: bool)
    requires id in s.commands
    ensures var after := ProcessOne(s, expected, id, announcementFails);
            && id in after.commands && after.tournaments == s.tournaments && after.nextCommand == s.nextCommand
            && (forall other | other in s.commands && other != id ::
                  other in after.commands && after.commands[other] == s.commands[other])
            && after.commits.Keys == s.commits.Keys
            && if Applicable(s, id) && !announcementFails then
                 var t := s.commands[id].payload.tournament;
                 && after.commands[id].status == Applied
                 && after.commits == s.commits[t := Commit(s.commits[t].category, Some(id), CommitApplied)]
                 && after.book == AddGames(expected, s.book, t, s.commits[t].category, Rated(Counted(s.tournaments[t])))
               else
                 && after.commands[id].status == Failed && after.book == s.book
                 && forall t | t in s.commits ::
                      if FailsWith(s, id, t) then after.commits[t] == Commit(s.commits[t].category, Some(id), CommitFailed)
                      else after.commits[t] == s.commits[t]
  {
    hide Applicable, AddGames, Counted, MayCommit, Rated;
    var claimed := WithStatus(s, id, Claimed);
    ClaimedIsApplicable(s, id);
    AppliesExactly(claimed, expected, id);
    if Applicable(s, id) && !announcementFails {
      ApplicableOwns(s, id);
    }
  }

  lemma {:induction false} ClaimedIsApplicable(s: Store, id: CommandId)
    requires id in s.commands
    ensures Applicable(WithStatus(s, id, Claimed), id) <==> Applicable(s, id)
  {
  }

  lemma {:induction false} ApplicableOwns(s: Store, id: CommandId)
    requires id in s.commands && Applicable(s, id)
    ensures s.commands[id].payload.CommitResults?
    ensures s.commands[id].payload.tournament in s.tournaments && s.commands[id].payload.tournament in s.commits
    ensures var t := s.commands[id].payload.tournament;
            s.commits[t].category == s.commands[id].payload.category && MayCommit(s.tournaments[t], s.commits[t].category)
  {
    RateableIsMayCommit(s.tournaments[s.commands[id].payload.tournament], s.commands[id].payload.category);
  }

  /** A tournament goes, with its commit, only without history and without a commit other than a failed one. */
  lemma {:induction false} DeletionsAreGuarded(s: Store, t: TournamentId)
    ensures var a := Delete(s, t);
            if t in s.tournaments && (t !in s.commits || s.commits[t].status == CommitFailed)
               && (forall i :: 0 <= i < |s.book.history| ==> s.book.history[i].tournament != t) then
              && a == s.(tournaments := a.tournaments, commits := a.commits)
              && (forall u :: u in a.tournaments <==> u in s.tournaments && u != t)
              && (forall u | u in a.tournaments :: a.tournaments[u] == s.tournaments[u])
              && (forall u :: u in a.commits <==> u in s.commits && u != t)
              && (forall u | u in a.commits :: a.commits[u] == s.commits[u])
            else a == s
  {
  }

  // ---------------------------------------------------------------- what is written for a game

  /** The two rows of a game: who, against whom, where, with which score, from which ratings to which. */
  ghost predicate Writes(
    expected: Expected, history: seq<HistoryRow>, place: nat, g: RatedGame, tournament: int, c: Category)
  {
    && place + 1 < |history|
    && var white, black := history[place], history[place + 1];
    && white.engine == g.white && white.opponent == g.black && black.engine == g.black && black.opponent == g.white
    && white.tournament == tournament && black.tournament == tournament && white.game == g.id && black.game == g.id
    && white.category == c && black.category == c
    && white.score == (if g.result == WhiteWins then 1.0 else if g.result == BlackWins then 0.0 else 0.5)
    && black.score == (if g.result == BlackWins then 1.0 else if g.result == WhiteWins then 0.0 else 0.5)
    && (white.elo, black.elo) == AfterGame(expected, white.eloBefore, black.eloBefore, g.result)
    && white.eloChange == white.elo - white.eloBefore && black.eloChange == black.elo - black.eloBefore
  }

  lemma {:induction false} GameWrites(expected: Expected, book: Book, tournament: int, c: Category, g: RatedGame)
    ensures var after := AddGame(expected, book, tournament, c, g);
            && |after.history| == |book.history| + 2 && after.history[..|book.history|] == book.history
            && Writes(expected, after.history, |book.history|, g, tournament, c)
  {
    hide AfterGame;
  }

  /** Every game of a commit writes its two rows, in order, behind what was on record. */
  lemma {:induction false} GamesWrite(expected: Expected, book: Book, tournament: int, c: Category, games: seq<RatedGame>, i: nat)
    requires i <= |games|
    ensures var after := AddGames(expected, book, tournament, c, games);
            && |after.history| == |book.history| + 2 * |games| && after.history[..|book.history|] == book.history
            && (i < |games| ==> Writes(expected, after.history, |book.history| + 2 * i, games[i], tournament, c))
    decreases |games|
  {
    hide AfterGame, AddGame;
    if games != [] {
      var k := |games| - 1;
      GamesWrite(expected, book, tournament, c, games[..k], if i < k then i else k);
      GameWrites(expected, AddGames(expected, book, tournament, c, games[..k]), tournament, c, games[k]);
    }
  }

  /** What is rated are the ids, engines and results of the counted games. */
  lemma {:induction false} RatedExactly(games: seq<Game>, i: nat)
    requires (forall k :: 0 <= k < |games| ==> games[k].result.Some?) && i < |games|
    ensures var g := Rated(games)[i];
            g.id == games[i].id && g.white == games[i].white && g.black == games[i].black && Some(g.result) == games[i].result
  {
  }
}
