/**
 The ratings table and the history log of rating commits (cope/ratings.py): applying a list of
 games, and the replay that the table must equal at all times.
 */
module RatingBook {
  import opened Common
  import opened Elo

  type Engine = int
  type Category = int

  datatype RatedGame = RatedGame(id: int, white: Engine, black: Engine, result: Result)

  /** A row of the ratings table. */
  datatype Rating = Rating(elo: int, gamesPlayed: nat)

  /** A row of rating_history. */
  datatype HistoryRow = HistoryRow(
    engine: Engine, opponent: Engine, category: Category, tournament: int, game: int,
    eloBefore: int, elo: int, eloChange: int, score: real)

  type Table = map<(Engine, Category), Rating>

  datatype Book = Book(table: Table, history: seq<HistoryRow>)

  function EloOf(table: Table, e: Engine, c: Category): int
  {
    if (e, c) in table then table[(e, c)].elo else DEFAULT_ELO
  }

  function GamesOf(table: Table, e: Engine, c: Category): nat
  {
    if (e, c) in table then table[(e, c)].gamesPlayed else 0
  }

  // ---------------------------------------------------------------- one game, a list of games

  function WhiteRow(expected: Expected, table: Table, tournament: int, c: Category, g: RatedGame): HistoryRow
  {
    var white, black := EloOf(table, g.white, c), EloOf(table, g.black, c);
    var after := AfterGame(expected, white, black, g.result).0;
    HistoryRow(g.white, g.black, c, tournament, g.id, white, after, after - white, WhiteScore(g.result))
  }

  function BlackRow(expected: Expected, table: Table, tournament: int, c: Category, g: RatedGame): HistoryRow
  {
    var white, black := EloOf(table, g.white, c), EloOf(table, g.black, c);
    var after := AfterGame(expected, white, black, g.result).1;
    HistoryRow(g.black, g.white, c, tournament, g.id, black, after, after - black, 1.0 - WhiteScore(g.result))
  }

  function WithRating(table: Table, row: HistoryRow): Table
  {
    table[(row.engine, row.category) := Rating(row.elo, GamesOf(table, row.engine, row.category) + 1)]
  }

  function AddRow(book: Book, row: HistoryRow): Book
  {
    Book(WithRating(book.table, row), book.history + [row])
  }

  function AddGame(expected: Expected, book: Book, tournament: int, c: Category, g: RatedGame): Book
  {
    var white, black := WhiteRow(expected, book.table, tournament, c, g), BlackRow(expected, book.table, tournament, c, g);
    AddRow(AddRow(book, white), black)
  }

  function AddGames(expected: Expected, book: Book, tournament: int, c: Category, games: seq<RatedGame>): Book
  {
    if games == [] then book
    else AddGame(expected, AddGames(expected, book, tournament, c, games[..|games| - 1]), tournament, c, games[|games| - 1])
  }

  ghost predicate NoSelfGames(games: seq<RatedGame>)
  {
    forall i :: 0 <= i < |games| ==> games[i].white != games[i].black
  }

  // ---------------------------------------------------------------- replaying the log

  /** The sum of an engine's changes in a category. */
  function Changes(history: seq<HistoryRow>, e: Engine, c: Category): int
  {
    if history == [] then 0
    else
      var last := history[|history| - 1];
      Changes(history[..|history| - 1], e, c) + if last.engine == e && last.category == c then last.eloChange else 0
  }

  function RowCount(history: seq<HistoryRow>, e: Engine, c: Category): nat
  {
    if history == [] then 0
    else
      var last := history[|history| - 1];
      RowCount(history[..|history| - 1], e, c) + if last.engine == e && last.category == c then 1 else 0
  }

  /** Every row starts at the rating the rows before it lead to. */
  ghost predicate Chained(history: seq<HistoryRow>)
  {
    forall i {:trigger history[..i]} :: 0 <= i < |history| ==>
      && history[i].eloBefore == DEFAULT_ELO + Changes(history[..i], history[i].engine, history[i].category)
      && history[i].elo == history[i].eloBefore + history[i].eloChange
  }

  /** The table is what the log amounts to: for every engine and category, the sum and the number of its rows. */
  ghost predicate ReplayAgrees(book: Book)
  {
    forall e, c ::
      && EloOf(book.table, e, c) == DEFAULT_ELO + Changes(book.history, e, c)
      && GamesOf(book.table, e, c) == RowCount(book.history, e, c)
      && ((e, c) in book.table <==> RowCount(book.history, e, c) > 0)
  }

  ghost predicate BookOk(book: Book)
  {
    Chained(book.history) && ReplayAgrees(book)
  }

  lemma {:induction false} RowKeepsBook(book: Book, row: HistoryRow)
    requires BookOk(book) && row.eloBefore == EloOf(book.table, row.engine, row.category)
    requires row.elo == row.eloBefore + row.eloChange
    ensures BookOk(AddRow(book, row))
  {
    var after := AddRow(book, row);
    assert after.history[..|book.history|] == book.history;
    forall i {:trigger after.history[..i]} | 0 <= i < |after.history|
      ensures after.history[i].eloBefore == DEFAULT_ELO + Changes(after.history[..i], after.history[i].engine, after.history[i].category)
      ensures after.history[i].elo == after.history[i].eloBefore + after.history[i].eloChange
    {
      if i < |book.history| {
        assert after.history[..i] == book.history[..i];
      }
    }
  }

  lemma {:induction false} GameKeepsBook(expected: Expected, book: Book, tournament: int, c: Category, g: RatedGame)
    requires BookOk(book) && g.white != g.black
    ensures BookOk(AddGame(expected, book, tournament, c, g))
  {
    hide BookOk, AfterGame;
    var white, black := WhiteRow(expected, book.table, tournament, c, g), BlackRow(expected, book.table, tournament, c, g);
    RowKeepsBook(book, white);
    RowKeepsBook(AddRow(book, white), black);
  }

  lemma {:induction false} GamesKeepBook(expected: Expected, book: Book, tournament: int, c: Category, games: seq<RatedGame>)
    requires BookOk(book) && NoSelfGames(games)
    ensures BookOk(AddGames(expected, book, tournament, c, games))
  {
    hide BookOk, AddGame;
    if games != [] {
      GamesKeepBook(expected, book, tournament, c, games[..|games| - 1]);
      GameKeepsBook(expected, AddGames(expected, book, tournament, c, games[..|games| - 1]), tournament, c, games[|games| - 1]);
    }
  }

  lemma {:induction false} SelfGameChange(expected: Expected, elo: int, result: Result)
    requires IsExpectation(expected)
    ensures AfterGame(expected, elo, elo, result).0 == elo <==> result == Drawn
    ensures result == Drawn ==> AfterGame(expected, elo, elo, result).1 == elo
  {
    hide IsExpectation, AfterGame;
    BetweenEquals(expected, elo);
  }

  /**
   Why the two engines of a game must differ, as the scheduler sees to: a decided game of an engine
   against itself writes two rows that both start from the old rating and disagree on the new one.
   */
  lemma {:induction false} ReplayNeedsTwoEngines(expected: Expected, book: Book, tournament: int, c: Category, g: RatedGame)
    requires BookOk(book) && IsExpectation(expected)
    ensures BookOk(AddGame(expected, book, tournament, c, g)) <==> g.white != g.black || g.result == Drawn
  {
    hide AfterGame, IsExpectation;
    if g.white != g.black {
      GameKeepsBook(expected, book, tournament, c, g);
    } else {
      var white, black := WhiteRow(expected, book.table, tournament, c, g), BlackRow(expected, book.table, tournament, c, g);
      var once := AddRow(book, white);
      var twice := AddRow(once, black);
      RowKeepsBook(book, white);
      SelfGameChange(expected, white.eloBefore, g.result);
      assert twice.history[..|once.history|] == once.history;
      if g.result == Drawn {
        RowKeepsBook(once, black);
      } else {
        var i := |once.history|;
        assert twice.history[i] == black && twice.history[..i] == once.history;
        assert black.eloBefore != DEFAULT_ELO + Changes(once.history, g.white, c);
      }
    }
  }

  // ---------------------------------------------------------------- what a list of games writes

  /** The two rows of the i-th game. */
  ghost predicate RowsOfGame(white: HistoryRow, black: HistoryRow, g: RatedGame, tournament: int, c: Category)
  {
    && white.tournament == black.tournament == tournament && white.game == black.game == g.id
    && white.category == black.category == c
    && white.engine == black.opponent == g.white && black.engine == white.opponent == g.black
    && white.score == WhiteScore(g.result) && black.score == 1.0 - white.score
  }

  /** Every game adds exactly two rows, in the order of the games, and nothing is rewritten. */
  lemma {:induction false} GamesWriteTwoRowsEach(expected: Expected, book: Book, tournament: int, c: Category, games: seq<RatedGame>)
    ensures var after := AddGames(expected, book, tournament, c, games);
            && |after.history| == |book.history| + 2 * |games|
            && after.history[..|book.history|] == book.history
            && forall i :: 0 <= i < |games| ==>
                 RowsOfGame(after.history[|book.history| + 2 * i], after.history[|book.history| + 2 * i + 1], games[i], tournament, c)
  {
    hide AfterGame, RowsOfGame;
    if games != [] {
      var k := |games| - 1;
      var before := AddGames(expected, book, tournament, c, games[..k]);
      GamesWriteTwoRowsEach(expected, book, tournament, c, games[..k]);
      GameRows(expected, before, tournament, c, games[k]);
    }
  }

  lemma {:induction false} GameRows(expected: Expected, book: Book, tournament: int, c: Category, g: RatedGame)
    ensures var after := AddGame(expected, book, tournament, c, g);
            && |after.history| == |book.history| + 2 && after.history[..|book.history|] == book.history
            && RowsOfGame(after.history[|book.history|], after.history[|book.history| + 1], g, tournament, c)
  {
    hide AfterGame;
  }

  // ---------------------------------------------------------------- drift of a category

  /** The sum of the ratings of a list of engines. */
  function TotalElo(engines: seq<Engine>, table: Table, c: Category): int
  {
    if engines == [] then 0 else TotalElo(engines[..|engines| - 1], table, c) + EloOf(table, engines[|engines| - 1], c)
  }

  lemma {:induction false} TotalAfterRow(engines: seq<Engine>, table: Table, row: HistoryRow)
    requires Distinct(engines) && row.eloBefore == EloOf(table, row.engine, row.category)
    ensures TotalElo(engines, WithRating(table, row), row.category) ==
            TotalElo(engines, table, row.category) + if row.engine in engines then row.elo - row.eloBefore else 0
  {
    if engines != [] {
      var k := |engines| - 1;
      TotalAfterRow(engines[..k], table, row);
      assert engines == engines[..k] + [engines[k]];
      if engines[k] == row.engine {
        assert row.engine !in engines[..k];
      }
    }
  }

  /** Over a whole commit the ratings of a category drift by at most one micro-point per game. */
  lemma {:induction false} CategoryDrift(expected: Expected, book: Book, tournament: int, c: Category, games: seq<RatedGame>, engines: seq<Engine>)
    requires IsExpectation(expected) && NoSelfGames(games) && Distinct(engines)
    requires forall i :: 0 <= i < |games| ==> games[i].white in engines && games[i].black in engines
    ensures var drift := TotalElo(engines, AddGames(expected, book, tournament, c, games).table, c) - TotalElo(engines, book.table, c);
            -|games| <= drift <= |games|
  {
    hide IsExpectation, AfterGame, Distinct, TotalElo;
    if games != [] {
      var k := |games| - 1;
      CategoryDrift(expected, book, tournament, c, games[..k], engines);
      GameDrift(expected, AddGames(expected, book, tournament, c, games[..k]), tournament, c, games[k], engines);
    }
  }

  lemma {:induction false} GameDrift(expected: Expected, book: Book, tournament: int, c: Category, g: RatedGame, engines: seq<Engine>)
    requires IsExpectation(expected) && g.white != g.black && Distinct(engines) && g.white in engines && g.black in engines
    ensures var drift := TotalElo(engines, AddGame(expected, book, tournament, c, g).table, c) - TotalElo(engines, book.table, c);
            -1 <= drift <= 1
  {
    hide IsExpectation, AfterGame, Distinct, TotalElo;
    var white, black := WhiteRow(expected, book.table, tournament, c, g), BlackRow(expected, book.table, tournament, c, g);
    GameIsBounded(expected, white.eloBefore, black.eloBefore, g.result);
    TotalAfterRow(engines, book.table, white);
    TotalAfterRow(engines, WithRating(book.table, white), black);
  }
}
