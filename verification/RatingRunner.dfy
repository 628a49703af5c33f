/**
 The runner's side of rating commits (cope/ratings.py, cope/runner/commands.py): the loop over the
 games with its dictionaries, and the loop over the commands with its savepoint.
 */
module RatingRunner {
  import opened Common
  import opened Elo
  import opened RatingBook
  import opened RatingCommits
  import opened RatingSafety

  // ---------------------------------------------------------------- the loop over the games

  ghost predicate PlaysIn(games: seq<RatedGame>, e: Engine)
  {
    exists i :: 0 <= i < |games| && (games[i].white == e || games[i].black == e)
  }

  /** The engines of a list of games, each once. */
  method EnginesOf(games: seq<RatedGame>) returns (ids: seq<Engine>)
    ensures Distinct(ids)
    ensures forall i :: 0 <= i < |games| ==> games[i].white in ids && games[i].black in ids
    ensures forall j :: 0 <= j < |ids| ==> PlaysIn(games, ids[j])
  {
    ids := [];
    for k := 0 to |games|
      invariant Distinct(ids)
      invariant forall i :: 0 <= i < k ==> games[i].white in ids && games[i].black in ids
      invariant forall j :: 0 <= j < |ids| ==> PlaysIn(games, ids[j])
    {
      assert PlaysIn(games, games[k].white) && PlaysIn(games, games[k].black);
      hide PlaysIn;
      ids := WithEngine(ids, games[k].white);
      ids := WithEngine(ids, games[k].black);
    }
  }

  function WithEngine(ids: seq<Engine>, e: Engine): (more: seq<Engine>)
    ensures Distinct(ids) ==> Distinct(more)
    ensures e in more && forall x | x in ids :: x in more
    ensures forall j :: 0 <= j < |more| ==> more[j] == e || (j < |ids| && more[j] == ids[j])
  {
    if e in ids then ids else ids + [e]
  }

  /** A game touches the two keys of its engines. */
  lemma {:induction false} TableAfterGame(expected: Expected, book: Book, t: TournamentId, c: Category, g: RatedGame, e: Engine, d: Category)
    requires g.white != g.black
    ensures var after := AddGame(expected, book, t, c, g).table;
            var (w, b) := AfterGame(expected, EloOf(book.table, g.white, c), EloOf(book.table, g.black, c), g.result);
            && EloOf(after, e, d) == (if d == c && e == g.white then w else if d == c && e == g.black then b else EloOf(book.table, e, d))
            && GamesOf(after, e, d) == GamesOf(book.table, e, d) + (if d == c && (e == g.white || e == g.black) then 1 else 0)
            && ((e, d) in after <==> (e, d) in book.table || (d == c && (e == g.white || e == g.black)))
  {
    hide AfterGame;
  }

  /** The dictionaries of the loop hold what the table would after the same games. */
  ghost predicate Mirrors(ratings: map<Engine, int>, added: map<Engine, nat>, start: Table, after: Table, ids: seq<Engine>, c: Category)
  {
    && (forall i :: 0 <= i < |ids| ==> ids[i] in ratings && ids[i] in added)
    && (forall i :: 0 <= i < |ids| ==> ratings[ids[i]] == EloOf(after, ids[i], c))
    && (forall i :: 0 <= i < |ids| ==> GamesOf(start, ids[i], c) + added[ids[i]] == GamesOf(after, ids[i], c))
  }

  lemma {:induction false} MirrorsAfterGame(
    expected: Expected, start: Table, book: Book, t: TournamentId, c: Category, g: RatedGame, ids: seq<Engine>,
    ratings: map<Engine, int>, added: map<Engine, nat>)
    requires g.white != g.black && g.white in ids && g.black in ids && Mirrors(ratings, added, start, book.table, ids, c)
    ensures g.white in ratings && g.black in ratings && g.white in added && g.black in added
    ensures ratings[g.white] == EloOf(book.table, g.white, c) && ratings[g.black] == EloOf(book.table, g.black, c)
    ensures var (w, b) := AfterGame(expected, ratings[g.white], ratings[g.black], g.result);
            Mirrors(ratings[g.white := w][g.black := b], added[g.white := added[g.white] + 1][g.black := added[g.black] + 1],
                    start, AddGame(expected, book, t, c, g).table, ids, c)
  {
    hide AfterGame, AddGame, EloOf, GamesOf;
    var i :| 0 <= i < |ids| && ids[i] == g.white;
    var j :| 0 <= j < |ids| && ids[j] == g.black;
    assert ratings[ids[i]] == EloOf(book.table, ids[i], c) && ratings[ids[j]] == EloOf(book.table, ids[j], c);
    var after := AddGame(expected, book, t, c, g).table;
    var (w, b) := AfterGame(expected, ratings[g.white], ratings[g.black], g.result);
    var ratings2 := ratings[g.white := w][g.black := b];
    var added2 := added[g.white := added[g.white] + 1][g.black := added[g.black] + 1];
    forall k | 0 <= k < |ids|
      ensures ratings2[ids[k]] == EloOf(after, ids[k], c)
      ensures GamesOf(start, ids[k], c) + added2[ids[k]] == GamesOf(after, ids[k], c)
    {
      TableAfterGame(expected, book, t, c, g, ids[k], c);
    }
  }

  /** Keys the games do not name stay as they are. */
  ghost predicate OutsideSame(start: Table, after: Table, ids: seq<Engine>, c: Category)
  {
    && (forall k | k in after :: k in start || (k.1 == c && k.0 in ids))
    && (forall k | k in start :: k in after)
    && (forall k | k in start && !(k.1 == c && k.0 in ids) :: after[k] == start[k])
  }

  lemma {:induction false} OutsideAfterGame(
    expected: Expected, start: Table, book: Book, t: TournamentId, c: Category, g: RatedGame, ids: seq<Engine>)
    requires OutsideSame(start, book.table, ids, c) && g.white in ids && g.black in ids
    ensures OutsideSame(start, AddGame(expected, book, t, c, g).table, ids, c)
  {
    hide AfterGame;
  }

  lemma {:induction false} EveryEngineIsListed(expected: Expected, book: Book, t: TournamentId, c: Category, games: seq<RatedGame>, e: Engine)
    requires NoSelfGames(games)
    requires PlaysIn(games, e)
    ensures (e, c) in AddGames(expected, book, t, c, games).table
  {
    hide AddGame, AfterGame;
    var k := |games| - 1;
    var before := AddGames(expected, book, t, c, games[..k]);
    var i :| 0 <= i < |games| && (games[i].white == e || games[i].black == e);
    if i < k {
      assert games[..k][i] == games[i];
      EveryEngineIsListed(expected, book, t, c, games[..k], e);
    }
    TableAfterGame(expected, before, t, c, games[k], e, c);
  }

  /** One game: two history rows, and the dictionaries of the loop. */
  method RateGame(
    expected: Expected, t: TournamentId, c: Category, game: RatedGame, ratings: map<Engine, int>, gamesAdded: map<Engine, nat>,
    history: seq<HistoryRow>, ghost start: Table, ghost book: Book, ghost ids: seq<Engine>)
    returns (ratings2: map<Engine, int>, added2: map<Engine, nat>, history2: seq<HistoryRow>)
    requires game.white != game.black && game.white in ids && game.black in ids && history == book.history
    requires Mirrors(ratings, gamesAdded, start, book.table, ids, c)
    ensures history2 == AddGame(expected, book, t, c, game).history
    ensures Mirrors(ratings2, added2, start, AddGame(expected, book, t, c, game).table, ids, c)
  {
    hide AddGame, AfterGame, Mirrors, EloOf, GamesOf;
    MirrorsAfterGame(expected, start, book, t, c, game, ids, ratings, gamesAdded);
    var whiteBefore, blackBefore := ratings[game.white], ratings[game.black];
    var whiteScore := WhiteScore(game.result);
    var (whiteAfter, blackAfter) := AfterGame(expected, whiteBefore, blackBefore, game.result);
    var white := HistoryRow(game.white, game.black, c, t, game.id, whiteBefore, whiteAfter, whiteAfter - whiteBefore, whiteScore);
    var black := HistoryRow(game.black, game.white, c, t, game.id, blackBefore, blackAfter, blackAfter - blackBefore, 1.0 - whiteScore);
    RowsAreThese(expected, book, t, c, game, white, black);
    history2 := history + [white] + [black];
    ratings2 := ratings[game.white := whiteAfter][game.black := blackAfter];
    added2 := gamesAdded[game.white := gamesAdded[game.white] + 1][game.black := gamesAdded[game.black] + 1];
  }

  /** The loop over the games, in their order. */
  method RateInOrder(
    expected: Expected, book: Book, t: TournamentId, c: Category, games: seq<RatedGame>, ids: seq<Engine>,
    start: map<Engine, int>, none: map<Engine, nat>)
    returns (ratings: map<Engine, int>, gamesAdded: map<Engine, nat>, history: seq<HistoryRow>)
    requires NoSelfGames(games) && forall i :: 0 <= i < |games| ==> games[i].white in ids && games[i].black in ids
    requires Mirrors(start, none, book.table, book.table, ids, c) && OutsideSame(book.table, book.table, ids, c)
    ensures history == AddGames(expected, book, t, c, games).history
    ensures Mirrors(ratings, gamesAdded, book.table, AddGames(expected, book, t, c, games).table, ids, c)
    ensures OutsideSame(book.table, AddGames(expected, book, t, c, games).table, ids, c)
  {
    hide AddGame, AfterGame, Mirrors, OutsideSame, NoSelfGames;
    ratings, gamesAdded, history := start, none, book.history;
    ghost var soFar := book;
    assert games[..0] == [];
    for k := 0 to |games|
      invariant soFar == AddGames(expected, book, t, c, games[..k]) && history == soFar.history
      invariant Mirrors(ratings, gamesAdded, book.table, soFar.table, ids, c)
      invariant OutsideSame(book.table, soFar.table, ids, c)
    {
      assert games[..k + 1][..k] == games[..k] && games[..k + 1][k] == games[k];
      NotItself(games, k);
      OutsideAfterGame(expected, book.table, soFar, t, c, games[k], ids);
      ratings, gamesAdded, history := RateGame(expected, t, c, games[k], ratings, gamesAdded, history, book.table, soFar, ids);
      soFar := AddGame(expected, soFar, t, c, games[k]);
    }
    assert games[..|games|] == games;
  }

  /** The part of apply_tournament_rating_commit that writes ratings and history. */
  method RateGames(expected: Expected, book: Book, t: TournamentId, c: Category, games: seq<RatedGame>) returns (after: Book)
    requires NoSelfGames(games)
    ensures after == AddGames(expected, book, t, c, games)
  {
    hide AddGames, Mirrors, OutsideSame, NoSelfGames, EloOf, GamesOf, Distinct, PlaysIn;
    var ids := EnginesOf(games);
    var ratings: map<Engine, int> := map e | e in ids :: EloOf(book.table, e, c);
    var gamesPlayed: map<Engine, nat> := map e | e in ids :: GamesOf(book.table, e, c);
    var gamesAdded: map<Engine, nat> := map e | e in ids :: 0;
    StartMirrors(book.table, ids, c, ratings, gamesAdded);
    var history;
    ratings, gamesAdded, history := RateInOrder(expected, book, t, c, games, ids, ratings, gamesAdded);
    ghost var goal := AddGames(expected, book, t, c, games).table;
    var table := UpsertRatings(book.table, ids, ratings, gamesPlayed, gamesAdded, goal, c);
    TablesAgree(expected, book, t, c, games, ids, table, goal);
    after := Book(table, history);
  }

  lemma {:induction false} NotItself(games: seq<RatedGame>, k: nat)
    requires NoSelfGames(games) && k < |games|
    ensures games[k].white != games[k].black
  {
  }

  lemma {:induction false} StartMirrors(start: Table, ids: seq<Engine>, c: Category, ratings: map<Engine, int>, added: map<Engine, nat>)
    requires ratings == map e | e in ids :: EloOf(start, e, c)
    requires added == map e | e in ids :: 0
    ensures Mirrors(ratings, added, start, start, ids, c)
    ensures OutsideSame(start, start, ids, c)
  {
  }

  lemma {:induction false} RowsAreThese(
    expected: Expected, book: Book, t: TournamentId, c: Category, g: RatedGame, white: HistoryRow, black: HistoryRow)
    requires white == WhiteRow(expected, book.table, t, c, g) && black == BlackRow(expected, book.table, t, c, g)
    ensures AddGame(expected, book, t, c, g).history == book.history + [white] + [black]
  {
    hide AfterGame;
  }

  /** The loop of upserts at the end. */
  method UpsertRatings(
    start: Table, ids: seq<Engine>, ratings: map<Engine, int>, gamesPlayed: map<Engine, nat>, gamesAdded: map<Engine, nat>,
    ghost after: Table, c: Category)
    returns (table: Table)
    requires Mirrors(ratings, gamesAdded, start, after, ids, c)
    requires gamesPlayed == map e | e in ids :: GamesOf(start, e, c)
    ensures forall k | k in table :: k in start || (k.1 == c && k.0 in ids)
    ensures forall k | k in start :: k in table
    ensures forall k | k in start && !(k.1 == c && k.0 in ids) :: table[k] == start[k]
    ensures forall i :: 0 <= i < |ids| ==>
              (ids[i], c) in table && table[(ids[i], c)] == Rating(EloOf(after, ids[i], c), GamesOf(after, ids[i], c))
  {
    hide EloOf, GamesOf;
    table := start;
    for i := 0 to |ids|
      invariant forall k | k in table :: k in start || (k.1 == c && k.0 in ids)
      invariant forall k | k in start :: k in table
      invariant forall k | k in start && !(k.1 == c && k.0 in ids) :: table[k] == start[k]
      invariant forall j :: 0 <= j < i ==>
                  (ids[j], c) in table && table[(ids[j], c)] == Rating(EloOf(after, ids[j], c), GamesOf(after, ids[j], c))
    {
      table := table[(ids[i], c) := Rating(ratings[ids[i]], gamesPlayed[ids[i]] + gamesAdded[ids[i]])];
    }
  }

  lemma {:induction false} TablesAgree(
    expected: Expected, book: Book, t: TournamentId, c: Category, games: seq<RatedGame>, ids: seq<Engine>, table: Table, after: Table)
    requires NoSelfGames(games) && after == AddGames(expected, book, t, c, games).table && OutsideSame(book.table, after, ids, c)
    requires forall j :: 0 <= j < |ids| ==> PlaysIn(games, ids[j])
    requires forall k | k in table :: k in book.table || (k.1 == c && k.0 in ids)
    requires forall k | k in book.table :: k in table
    requires forall k | k in book.table && !(k.1 == c && k.0 in ids) :: table[k] == book.table[k]
    requires forall i :: 0 <= i < |ids| ==>
               (ids[i], c) in table && table[(ids[i], c)] == Rating(EloOf(after, ids[i], c), GamesOf(after, ids[i], c))
    ensures table == after
  {
    hide AddGames, NoSelfGames, PlaysIn;
    forall k | k in table ensures k in after && table[k] == after[k] {
      if k.1 == c && k.0 in ids {
        var i :| 0 <= i < |ids| && ids[i] == k.0;
        EveryEngineIsListed(expected, book, t, c, games, ids[i]);
        assert table[(ids[i], c)] == Rating(EloOf(after, ids[i], c), GamesOf(after, ids[i], c));
        assert k == (ids[i], c);
      }
    }
    forall k | k in after ensures k in table {
      if k.1 == c && k.0 in ids {
        var i :| 0 <= i < |ids| && ids[i] == k.0;
        assert k == (ids[i], c);
      }
    }
  }

  // ---------------------------------------------------------------- the loop over the commands

  class CommandRunner {
    var store: Store

    ghost predicate Valid()
      reads this
    {
      StoreInv(store)
    }

    constructor ()
      ensures Valid() && store == Empty()
    {
      store := Empty();
      new;
      EmptyInv();
    }

    /** request_tournament_rating_commit: an error, False or True, which the answer tells apart. */
    method RequestCommit(t: TournamentId) returns (answer: Answer)
      requires Valid()
      modifies this
      ensures Valid() && store == Request(old(store), t)
      ensures answer == AnswerTo(old(store), t)
      ensures answer.Queued? ==> answer.command in store.commands && store.commands[answer.command].status == Pending
      ensures !answer.Queued? ==> store == old(store)
    {
      hide StoreInv;
      RequestKeepsInv(store, t);
      if t !in store.tournaments {
        return Refused(UnknownTournament);
      }
      var tournament := store.tournaments[t];
      if !Over(tournament) {
        return Refused(NotOver);
      }
      if tournament.status == Aborted && Decided(tournament.games) == [] {
        return Refused(NothingFinished);
      }
      if !tournament.rated {
        return Refused(Unrated);
      }
      if tournament.category.None? || !tournament.linked {
        return Refused(CustomSettings);
      }
      if t in store.commits {
        var existing := store.commits[t];
        if existing.status == CommitClaimed || existing.status == CommitApplied {
          return AlreadyRequested;
        }
        if existing.status == CommitPending && UnderWay(store, existing) {
          return AlreadyRequested;
        }
      }
      var id := store.nextCommand;
      var category := tournament.category.value;
      store := store.(commands := store.commands[id := Command(CommitResults(t, category), Pending)], nextCommand := id + 1);
      store := store.(commits := store.commits[t := Commit(category, Some(id), CommitPending)]);
      return Queued(id);
    }

    /**
     apply_tournament_rating_commit. When it raises, it may have changed the store already: the
     commit is marked as claimed before the tournament is even looked at.
     */
    method ApplyTournamentRatingCommit(expected: Expected, id: CommandId) returns (raised: bool)
      requires Valid() && id in store.commands
      modifies this
      ensures raised <==> ApplyCommit(old(store), expected, id).None?
      ensures !raised ==> store == ApplyCommit(old(store), expected, id).value
    {
      hide BookOk, AddGames, Counted, Decided, CommitOk, Rated;
      var payload := store.commands[id].payload;
      if payload.OtherCommand? || payload.tournament <= 0 || payload.category <= 0 {
        return true;
      }
      var t, category := payload.tournament, payload.category;
      if t !in store.commits {
        return true;
      }
      if store.commits[t].command.None? && store.commits[t].status == CommitPending {
        store := store.(commits := store.commits[t := store.commits[t].(command := Some(id))]);
      }
      var commit := store.commits[t];
      if commit.command != Some(id) || commit.category != category {
        return true;
      }
      if commit.status != CommitPending && commit.status != CommitClaimed {
        return true;
      }
      store := store.(commits := store.commits[t := commit.(status := CommitClaimed)]);
      if t !in store.tournaments || !MayCommit(store.tournaments[t], category) {
        return true;
      }
      if HasHistory(store.book.history, t) {
        return true;
      }
      var games := Counted(store.tournaments[t]);
      RatedNoSelf(store.tournaments[t]);
      var book := RateGames(expected, store.book, t, category, Rated(games));
      store := store.(book := book, commits := store.commits[t := Commit(category, Some(id), CommitApplied)]);
      return false;
    }

    /** One round of the loop: claim, savepoint, dispatch, and either keep or roll back. */
    method ProcessCommand(expected: Expected, id: CommandId, announcementFails: bool) returns (applied: bool)
      requires Valid() && id in store.commands
      modifies this
      ensures Valid() && store == ProcessOne(old(store), expected, id, announcementFails)
      ensures applied <==> store.commands[id].status == Applied
    {
      hide StoreInv, ApplyCommit, FailedCommit;
      ghost var start := store;
      ProcessOneKeepsInv(store, expected, id, announcementFails);
      FailedCommandLeavesTheBook(store, expected, id, announcementFails);
      StatusKeepsInv(store, id, Claimed);
      store := store.(commands := store.commands[id := store.commands[id].(status := Claimed)]);
      var savepoint := store;
      ghost var outcome := ApplyCommit(savepoint, expected, id);
      var raised := ApplyTournamentRatingCommit(expected, id);
      if raised || announcementFails {
        store := savepoint;
        store := store.(commands := store.commands[id := store.commands[id].(status := Failed)]);
        store := store.(commits := map t | t in store.commits :: FailedCommit(store, id, t));
        return false;
      }
      ApplyKeepsCommands(savepoint, expected, id);
      store := store.(commands := store.commands[id := store.commands[id].(status := Applied)]);
      return true;
    }

    /** claim_next_runner_command picks the pending command with the lowest id. */
    method NextPending(from: CommandId) returns (id: CommandId)
      requires from <= store.nextCommand
      ensures from <= id <= store.nextCommand
      ensures forall k :: from <= k < id ==> k !in store.commands || store.commands[k].status != Pending
      ensures id < store.nextCommand ==> id in store.commands && store.commands[id].status == Pending
    {
      id := from;
      while id < store.nextCommand
        invariant from <= id <= store.nextCommand
        invariant forall k :: from <= k < id ==> k !in store.commands || store.commands[k].status != Pending
      {
        if id in store.commands && store.commands[id].status == Pending {
          return;
        }
        id := id + 1;
      }
    }

    /** process_pending_runner_commands: afterwards no command is pending. */
    method ProcessPendingRunnerCommands(expected: Expected, failing: set<CommandId>) returns (applied: nat, failed: nat)
      requires Valid()
      modifies this
      ensures Valid() && store == ProcessBelow(old(store), expected, failing, old(store).nextCommand)
      ensures forall k | k in store.commands :: store.commands[k].status != Pending
    {
      hide StoreInv, ProcessOne;
      ghost var start := store;
      applied, failed := 0, 0;
      var next: CommandId := 0;
      while true
        invariant Valid() && store.nextCommand == start.nextCommand && next <= store.nextCommand
        invariant store == ProcessBelow(start, expected, failing, next)
        invariant forall k | k in store.commands && k < next :: store.commands[k].status != Pending
        decreases start.nextCommand as int - next as int
      {
        var id := NextPending(next);
        NothingToSkip(start, expected, failing, next, id);
        if id >= store.nextCommand {
          CommandsAreBelow(store);
          return;
        }
        ProcessOneCommands(store, expected, id, id in failing);
        ghost var before := store;
        var ok := ProcessCommand(expected, id, id in failing);
        if ok {
          applied := applied + 1;
        } else {
          failed := failed + 1;
        }
        FailedCommandLeavesTheBook(before, expected, id, id in failing);
        next := id + 1;
      }
    }
  }

  lemma {:induction false} CommandsAreBelow(s: Store)
    requires StoreInv(s)
    ensures forall k | k in s.commands :: k < s.nextCommand
  {
    hide BookOk, CommitOk, GoodGames;
  }

  /** Commands that are not pending do nothing. */
  lemma {:induction false} NothingToSkip(s: Store, expected: Expected, failing: set<CommandId>, first: nat, last: nat)
    requires first <= last
    requires var before := ProcessBelow(s, expected, failing, first);
             forall k :: first <= k < last ==> k !in before.commands || before.commands[k].status != Pending
    ensures ProcessBelow(s, expected, failing, last) == ProcessBelow(s, expected, failing, first)
    decreases last
  {
    hide ProcessOne;
    if first < last {
      NothingToSkip(s, expected, failing, first, last - 1);
    }
  }
}
