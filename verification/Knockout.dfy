/**
 Knockout tournaments (cope/runner/scheduler.py): seeding the bracket, byes, resolving a match
 by points, extra pairs or an armageddon game, and advancing round by round.

 The match table is kept as the list of its rounds, each in match order, and every match row
 carries its games in game-number order. Points are half points.
 */
module Knockout {
  import opened Common
  import opened Bracket

  type Engine = int

  datatype Result = WhiteWins | BlackWins | Drawn

  datatype Kind = Regular | ExtraPair | Armageddon

  datatype Game = Game(gameNumber: nat, white: Engine, black: Engine, kind: Kind, result: Option<Result>)

  datatype Status = Pending | Finished | Bye

  datatype Match =
    Match(matchIndex: nat, engine1: Engine, engine2: Option<Engine>, status: Status, winner: Option<Engine>, games: seq<Game>)

  datatype Options = Options(gamesPerMatch: nat, armageddon: bool)

  // ---------------------------------------------------------------- resolving a match

  function GameWinner(g: Game): Option<Engine>
  {
    match g.result
    case Some(WhiteWins) => Some(g.white)
    case Some(BlackWins) => Some(g.black)
    case _ => None
  }

  /** What one game adds to the points of an engine; armageddon games do not score. */
  function Score(g: Game, e: Engine): nat
  {
    if g.kind == Armageddon then 0
    else if g.result == Some(Drawn) then 1
    else if GameWinner(g) == Some(e) then 2
    else 0
  }

  function MatchScore(games: seq<Game>, e: Engine): nat
  {
    if games == [] then 0 else MatchScore(games[..|games| - 1], e) + Score(games[|games| - 1], e)
  }

  method MatchPoints(engine1: Engine, engine2: Engine, games: seq<Game>) returns (first: nat, second: nat)
    requires engine1 != engine2
    ensures first == MatchScore(games, engine1) && second == MatchScore(games, engine2)
  {
    first, second := 0, 0;
    for i := 0 to |games|
      invariant first == MatchScore(games[..i], engine1) && second == MatchScore(games[..i], engine2)
    {
      assert games[..i + 1][..i] == games[..i];
      var game := games[i];
      if game.kind != Armageddon {
        if game.result == Some(Drawn) {
          first, second := first + 1, second + 1;
        } else if GameWinner(game) == Some(engine1) {
          first := first + 2;
        } else if GameWinner(game) == Some(engine2) {
          second := second + 2;
        }
      }
    }
    assert games[..|games|] == games;
  }

  function FirstArmageddon(games: seq<Game>): (r: Option<Game>)
    ensures r.Some? ==> r.value in games && r.value.kind == Armageddon
  {
    if games == [] then None
    else if games[0].kind == Armageddon then Some(games[0])
    else FirstArmageddon(games[1..])
  }

  function ExtraCount(games: seq<Game>): nat
  {
    if games == [] then 0
    else ExtraCount(games[..|games| - 1]) + if games[|games| - 1].kind == ExtraPair then 1 else 0
  }

  /** The next games of a match, colours alternating with the game number. */
  function NextGames(engine1: Engine, engine2: Engine, from: nat, count: nat, kind: Kind): (games: seq<Game>)
    ensures |games| == count
  {
    seq(count, i requires 0 <= i < count =>
      var number := from + i;
      if number % 2 == 1 then Game(number, engine1, engine2, kind, None) else Game(number, engine2, engine1, kind, None))
  }

  datatype Resolution = Winner(engine: Engine) | MoreGames(games: seq<Game>)

  /** _resolve_knockout_match, for a match whose games are all decided. */
  function Resolve(engine1: Engine, engine2: Engine, games: seq<Game>, options: Options): (r: Resolution)
  {
    var armageddon := FirstArmageddon(games);
    if armageddon.Some? then
      (match GameWinner(armageddon.value) case Some(e) => Winner(e) case None => Winner(armageddon.value.black))
    else
      var first, second := MatchScore(games, engine1), MatchScore(games, engine2);
      var baseComplete := |games| >= options.gamesPerMatch;
      var extraComplete := ExtraCount(games) % 2 == 0;
      if baseComplete && extraComplete && first != second then Winner(if first > second then engine1 else engine2)
      else if !baseComplete || !extraComplete then MoreGames([])
      else if options.armageddon then MoreGames(NextGames(engine1, engine2, |games| + 1, 1, Armageddon))
      else MoreGames(NextGames(engine1, engine2, |games| + 1, 2, ExtraPair))
  }

  predicate AllDecided(games: seq<Game>)
  {
    forall i :: 0 <= i < |games| ==> games[i].result.Some?
  }

  /** A pending match with only decided games gets its winner, or more games. */
  function StepMatch(m: Match, options: Options): Match
  {
    if m.status != Pending || m.engine2.None? || m.games == [] || !AllDecided(m.games) then m
    else
      match Resolve(m.engine1, m.engine2.value, m.games, options)
      case Winner(e) => m.(status := Finished, winner := Some(e))
      case MoreGames(games) => m.(games := m.games + games)
  }

  function StepRound(matches: seq<Match>, options: Options): (after: seq<Match>)
    ensures |after| == |matches|
  {
    seq(|matches|, i requires 0 <= i < |matches| => StepMatch(matches[i], options))
  }

  // ---------------------------------------------------------------- rows in good order

  /** Games are numbered from 1 and colours alternate with the number. */
  ghost predicate Numbered(games: seq<Game>, engine1: Engine, engine2: Engine)
  {
    forall j :: 0 <= j < |games| ==>
      && games[j].gameNumber == j + 1
      && (if j % 2 == 0 then games[j].white == engine1 && games[j].black == engine2
          else games[j].white == engine2 && games[j].black == engine1)
  }

  /** What the rows of one match look like, whatever its games brought so far. */
  ghost predicate MatchOk(m: Match, options: Options)
  {
    match m.status
    case Bye => m.engine2.None? && m.winner == Some(m.engine1) && m.games == []
    case Pending =>
      && m.engine2.Some? && m.engine2.value != m.engine1 && m.winner.None? && Numbered(m.games, m.engine1, m.engine2.value)
      && |m.games| >= options.gamesPerMatch && ExtraCount(m.games) % 2 == 0
    case Finished =>
      && m.engine2.Some? && m.engine2.value != m.engine1 && Numbered(m.games, m.engine1, m.engine2.value)
      && (m.winner == Some(m.engine1) || m.winner == m.engine2) && AllDecided(m.games)
  }

  /** Every winner of a resolved match is one of its two engines. */
  lemma {:induction false} ResolvePicksAnEntrant(games: seq<Game>, engine1: Engine, engine2: Engine, options: Options)
    requires Numbered(games, engine1, engine2)
    ensures var r := Resolve(engine1, engine2, games, options);
            r.Winner? ==> r.engine == engine1 || r.engine == engine2
  {
    var armageddon := FirstArmageddon(games);
    if armageddon.Some? {
      var j :| 0 <= j < |games| && games[j] == armageddon.value;
    }
  }

  lemma {:induction false} ExtrasInOneMore(games: seq<Game>, more: seq<Game>)
    requires |more| <= 2 && forall i, j :: 0 <= i < j < |more| ==> more[i].kind == more[j].kind
    ensures ExtraCount(games + more) ==
            ExtraCount(games) + if more != [] && more[0].kind == ExtraPair then |more| else 0
  {
    if more == [] {
      assert games + more == games;
    } else if |more| == 1 {
      assert (games + more)[..|games|] == games;
    } else {
      var one := games + [more[0]];
      assert one[..|games|] == games;
      assert (games + more)[..|one|] == one;
    }
  }

  /** Games added by a tiebreak continue the numbering and the colours, and extra games come in pairs. */
  lemma {:induction false} ResolveAddsGoodGames(games: seq<Game>, engine1: Engine, engine2: Engine, options: Options)
    requires Numbered(games, engine1, engine2) && ExtraCount(games) % 2 == 0
    ensures var r := Resolve(engine1, engine2, games, options);
            r.MoreGames? ==>
              Numbered(games + r.games, engine1, engine2) && ExtraCount(games + r.games) % 2 == 0
  {
    hide MatchScore, FirstArmageddon, ExtraCount;
    var r := Resolve(engine1, engine2, games, options);
    if r.MoreGames? {
      ExtrasInOneMore(games, r.games);
    }
  }

  /** A resolved match keeps good rows, and a match whose games are decided always moves on. */
  lemma {:induction false} StepMatchKeepsOk(m: Match, options: Options)
    requires MatchOk(m, options) && options.gamesPerMatch >= 1
    ensures MatchOk(StepMatch(m, options), options)
    ensures m.status == Pending && AllDecided(m.games) ==> StepMatch(m, options) != m
    ensures var after := StepMatch(m, options);
            after.engine1 == m.engine1 && after.engine2 == m.engine2 && m.games <= after.games
  {
    if m.status == Pending && AllDecided(m.games) {
      ResolvePicksAnEntrant(m.games, m.engine1, m.engine2.value, options);
      ResolveAddsGoodGames(m.games, m.engine1, m.engine2.value, options);
      ResolveMovesOn(m.games, m.engine1, m.engine2.value, options);
      hide Resolve, MatchScore, FirstArmageddon, ExtraCount, Numbered, AllDecided;
    }
  }

  lemma {:induction false} ResolveMovesOn(games: seq<Game>, engine1: Engine, engine2: Engine, options: Options)
    requires |games| >= options.gamesPerMatch && ExtraCount(games) % 2 == 0
    ensures Resolve(engine1, engine2, games, options) != MoreGames([])
  {
  }

  // ---------------------------------------------------------------- what a resolution means

  /** The engine sat at this board and won it. */
  ghost predicate Won(g: Game, e: Engine)
  {
    (g.white == e && g.result == Some(WhiteWins)) || (g.black == e && g.result == Some(BlackWins))
  }

  ghost predicate Shared(g: Game, e: Engine)
  {
    (g.white == e || g.black == e) && g.result == Some(Drawn)
  }

  /** The places of the games other than armageddon that the engine won, and of those it drew. */
  ghost function WinsOf(games: seq<Game>, e: Engine): set<nat>
  {
    set j | 0 <= j < |games| && games[j].kind != Armageddon && Won(games[j], e)
  }

  ghost function DrawsOf(games: seq<Game>, e: Engine): set<nat>
  {
    set j | 0 <= j < |games| && games[j].kind != Armageddon && Shared(games[j], e)
  }

  ghost function ExtrasOf(games: seq<Game>): set<nat>
  {
    set j | 0 <= j < |games| && games[j].kind == ExtraPair
  }

  /** Two half points for a win, one for a draw. */
  ghost function Tally(games: seq<Game>, e: Engine): nat { 2 * |WinsOf(games, e)| + |DrawsOf(games, e)| }

  /** A game gives its two half points to the winner, or one to each side. */
  lemma {:induction false} ScoreOfOneGame(g: Game, e: Engine)
    requires g.kind != Armageddon && g.white != g.black && (e == g.white || e == g.black)
    ensures g.result == Some(WhiteWins) ==> Score(g, g.white) == 2 && Score(g, g.black) == 0
    ensures g.result == Some(BlackWins) ==> Score(g, g.white) == 0 && Score(g, g.black) == 2
    ensures g.result == Some(Drawn) ==> Score(g, g.white) == 1 && Score(g, g.black) == 1
    ensures Score(g, e) == (if Won(g, e) then 2 else 0) + if Shared(g, e) then 1 else 0
  {
  }

  lemma {:induction false} OneMoreWin(games: seq<Game>, e: Engine)
    requires games != []
    ensures var k := |games| - 1;
            var scores := games[k].kind != Armageddon;
            && WinsOf(games, e) == WinsOf(games[..k], e) + (if scores && Won(games[k], e) then {k} else {})
            && DrawsOf(games, e) == DrawsOf(games[..k], e) + (if scores && Shared(games[k], e) then {k} else {})
            && k !in WinsOf(games[..k], e) && k !in DrawsOf(games[..k], e)
  {
    hide Won, Shared;
  }

  /** The points of a match count its wins and draws. */
  lemma {:induction false} ScoreIsTally(games: seq<Game>, e: Engine, opponent: Engine)
    requires e != opponent
    requires forall j :: 0 <= j < |games| ==>
               (games[j].white == e && games[j].black == opponent) || (games[j].white == opponent && games[j].black == e)
    ensures MatchScore(games, e) == Tally(games, e)
    decreases |games|
  {
    hide WinsOf, DrawsOf, Won, Shared, Score;
    if games == [] {
      NothingPlayed(e);
    } else {
      var k := |games| - 1;
      OneMoreWin(games, e);
      ScoreIsTally(games[..k], e, opponent);
      if games[k].kind == Armageddon {
        ArmageddonScoresNothing(games[k], e);
      } else {
        ScoreOfOneGame(games[k], e);
      }
    }
  }

  lemma {:induction false} NothingPlayed(e: Engine)
    ensures WinsOf([], e) == {} && DrawsOf([], e) == {} && ExtrasOf([]) == {}
  {
  }

  lemma {:induction false} ArmageddonScoresNothing(g: Game, e: Engine)
    requires g.kind == Armageddon
    ensures Score(g, e) == 0
  {
  }

  /** White has to win an armageddon game: black wins it with anything else. */
  ghost predicate TakesArmageddon(g: Game, e: Engine)
  {
    if g.result == Some(WhiteWins) then e == g.white else e == g.black
  }

  /** The first armageddon game of a match is at this place. */
  ghost predicate ArmageddonAt(games: seq<Game>, j: nat)
  {
    j < |games| && games[j].kind == Armageddon && forall i :: 0 <= i < j ==> games[i].kind != Armageddon
  }

  lemma {:induction false} FirstArmageddonAt(games: seq<Game>)
    ensures FirstArmageddon(games).None? ==> forall i :: 0 <= i < |games| ==> games[i].kind != Armageddon
    ensures FirstArmageddon(games).Some? ==> exists j: nat :: ArmageddonAt(games, j) && games[j] == FirstArmageddon(games).value
    decreases |games|
  {
    if games != [] && games[0].kind != Armageddon {
      FirstArmageddonAt(games[1..]);
      if FirstArmageddon(games).Some? {
        var j: nat :| ArmageddonAt(games[1..], j) && games[1..][j] == FirstArmageddon(games).value;
        assert forall i :: 0 < i < |games| ==> games[i] == games[1..][i - 1];
        assert ArmageddonAt(games, j + 1);
      }
    } else if games != [] {
      assert ArmageddonAt(games, 0);
    }
  }

  /** How many of the games are extra games. */
  lemma {:induction false} ExtrasAreCounted(games: seq<Game>)
    ensures ExtraCount(games) == |ExtrasOf(games)|
    decreases |games|
  {
    if games == [] {
      NothingPlayed(0);
    } else {
      var k := |games| - 1;
      ExtrasAreCounted(games[..k]);
      assert ExtrasOf(games) == ExtrasOf(games[..k]) + if games[k].kind == ExtraPair then {k} else {};
    }
  }

  /** All regular games are there, and extra games in pairs. */
  ghost predicate InFull(games: seq<Game>, options: Options)
  {
    |games| >= options.gamesPerMatch && |ExtrasOf(games)| % 2 == 0
  }

  /** An engine goes on: it took the first armageddon game, or the match is played in full and it has the larger tally. */
  ghost predicate Earned(games: seq<Game>, options: Options, e: Engine, opponent: Engine)
  {
    if exists j :: 0 <= j < |games| && games[j].kind == Armageddon
    then exists j: nat :: ArmageddonAt(games, j) && TakesArmageddon(games[j], e)
    else InFull(games, options) && Tally(games, e) > Tally(games, opponent)
  }

  /** The games a tiebreak adds: one armageddon game or a pair of extra games, white first for the odd numbers. */
  ghost predicate IsTiebreak(more: seq<Game>, engine1: Engine, engine2: Engine, played: nat, options: Options)
  {
    && |more| == (if options.armageddon then 1 else 2)
    && forall i :: 0 <= i < |more| ==>
         && more[i].gameNumber == played + 1 + i && more[i].result.None?
         && more[i].kind == (if options.armageddon then Armageddon else ExtraPair)
         && (if (played + i) % 2 == 0 then more[i].white == engine1 && more[i].black == engine2
             else more[i].white == engine2 && more[i].black == engine1)
  }

  /**
   What resolving a match comes to: an engine wins exactly when it earned it; a match that is played
   in full and tied, without an armageddon game so far, gets its tiebreak; anything else waits.
   */
  lemma {:induction false} ResolveDecides(games: seq<Game>, engine1: Engine, engine2: Engine, options: Options)
    requires Numbered(games, engine1, engine2) && engine1 != engine2
    ensures var r := Resolve(engine1, engine2, games, options);
            && (r == Winner(engine1) <==> Earned(games, options, engine1, engine2))
            && (r == Winner(engine2) <==> Earned(games, options, engine2, engine1))
            && (r.Winner? ==> r.engine == engine1 || r.engine == engine2)
            && (r.MoreGames? ==>
                  if InFull(games, options) then IsTiebreak(r.games, engine1, engine2, |games|, options) else r.games == [])
  {
    FirstArmageddonAt(games);
    if FirstArmageddon(games).Some? {
      ArmageddonDecides(games, engine1, engine2, options);
    } else {
      PointsDecide(games, engine1, engine2, options);
    }
  }

  lemma {:induction false} ArmageddonDecides(games: seq<Game>, engine1: Engine, engine2: Engine, options: Options)
    requires Numbered(games, engine1, engine2) && engine1 != engine2 && FirstArmageddon(games).Some?
    ensures var r := Resolve(engine1, engine2, games, options);
            && (r == Winner(engine1) || r == Winner(engine2))
            && (r == Winner(engine1) <==> Earned(games, options, engine1, engine2))
            && (r == Winner(engine2) <==> Earned(games, options, engine2, engine1))
  {
    hide MatchScore, ExtraCount, FirstArmageddon, Tally, InFull;
    FirstArmageddonAt(games);
    var j: nat :| ArmageddonAt(games, j) && games[j] == FirstArmageddon(games).value;
    forall i: nat | ArmageddonAt(games, i) ensures i == j {
    }
  }

  lemma {:induction false} PointsDecide(games: seq<Game>, engine1: Engine, engine2: Engine, options: Options)
    requires Numbered(games, engine1, engine2) && engine1 != engine2 && FirstArmageddon(games).None?
    ensures var r := Resolve(engine1, engine2, games, options);
            && (r == Winner(engine1) <==> Earned(games, options, engine1, engine2))
            && (r == Winner(engine2) <==> Earned(games, options, engine2, engine1))
            && (r.Winner? ==> r.engine == engine1 || r.engine == engine2)
            && (r.MoreGames? ==>
                  if InFull(games, options) then IsTiebreak(r.games, engine1, engine2, |games|, options) else r.games == [])
  {
    hide MatchScore, ExtraCount, FirstArmageddon, Tally, ExtrasOf;
    FirstArmageddonAt(games);
    ExtrasAreCounted(games);
    ScoreIsTally(games, engine1, engine2);
    ScoreIsTally(games, engine2, engine1);
  }

  /** What a winner means: it took an armageddon game, or has more points over the games that score. */
  lemma {:induction false} WinnerIsEarned(games: seq<Game>, engine1: Engine, engine2: Engine, options: Options)
    requires Numbered(games, engine1, engine2) && engine1 != engine2
    ensures var r := Resolve(engine1, engine2, games, options);
            r.Winner? ==>
              || (exists j :: 0 <= j < |games| && games[j].kind == Armageddon && TakesArmageddon(games[j], r.engine))
              || Tally(games, r.engine) > Tally(games, if r.engine == engine1 then engine2 else engine1)
  {
    hide Tally, Resolve, TakesArmageddon, Numbered;
    ResolveDecides(games, engine1, engine2, options);
  }

  // ---------------------------------------------------------------- creating a round

  function NewMatch(matchIndex: nat, first: Option<Engine>, second: Option<Engine>, options: Options): Match
    requires first.Some? || second.Some?
  {
    var entrant := if first.Some? then first.value else second.value;
    if first.None? || second.None? then Match(matchIndex, entrant, None, Bye, Some(entrant), [])
    else Match(matchIndex, first.value, second, Pending, None,
               NextGames(first.value, second.value, 1, options.gamesPerMatch, Regular))
  }

  /** The rows for the first i pairings; an empty pairing adds no row. */
  function RoundRows(entrants: seq<Option<Engine>>, options: Options, i: nat): (rows: seq<Match>)
    requires 2 * i <= |entrants|
  {
    if i == 0 then []
    else
      var first, second := entrants[2 * i - 2], entrants[2 * i - 1];
      RoundRows(entrants, options, i - 1) + if first.None? && second.None? then [] else [NewMatch(i, first, second, options)]
  }

  function GamesIn(rows: seq<Match>): nat
  {
    if rows == [] then 0 else GamesIn(rows[..|rows| - 1]) + |rows[|rows| - 1].games|
  }

  /** No rows hold no games, and every row adds its own. */
  lemma {:induction false} GamesAppend(rows: seq<Match>, m: Match)
    ensures GamesIn([]) == 0 && GamesIn(rows + [m]) == GamesIn(rows) + |m.games|
  {
    assert (rows + [m])[..|rows|] == rows;
  }

  method CreateRound(entrants: seq<Option<Engine>>, options: Options) returns (rows: seq<Match>, createdGames: nat)
    ensures rows == RoundRows(entrants, options, |entrants| / 2) && createdGames == GamesIn(rows)
  {
    hide NewMatch;
    rows, createdGames := [], 0;
    for i := 0 to |entrants| / 2
      invariant rows == RoundRows(entrants, options, i) && createdGames == GamesIn(rows)
    {
      var first, second := entrants[2 * i], entrants[2 * i + 1];
      if first.Some? || second.Some? {
        var row := NewMatch(i + 1, first, second, options);
        GamesAppend(rows, row);
        rows := rows + [row];
        createdGames := createdGames + |row.games|;
      }
    }
  }

  /** No pairing of the round is empty. */
  ghost predicate NoEmptyPairing(entrants: seq<Option<Engine>>)
  {
    forall i :: 0 <= i < |entrants| / 2 ==> entrants[2 * i].Some? || entrants[2 * i + 1].Some?
  }

  ghost predicate DistinctEntrants(entrants: seq<Option<Engine>>)
  {
    forall i, j :: 0 <= i < j < |entrants| && entrants[i].Some? ==> entrants[i] != entrants[j]
  }

  lemma {:induction false} RoundRowsAt(entrants: seq<Option<Engine>>, options: Options, i: nat)
    requires 2 * i <= |entrants| && NoEmptyPairing(entrants)
    ensures |RoundRows(entrants, options, i)| == i
    ensures forall j :: 0 <= j < i ==>
              RoundRows(entrants, options, i)[j] == NewMatch(j + 1, entrants[2 * j], entrants[2 * j + 1], options)
  {
    if i > 0 {
      RoundRowsAt(entrants, options, i - 1);
      assert entrants[2 * (i - 1)].Some? || entrants[2 * (i - 1) + 1].Some?;
    }
  }

  // ---------------------------------------------------------------- seeding

  /** The number of rounds: the least k with at least n places. */
  function Depth(n: nat): (k: nat)
    ensures Pow2(k) >= n && (k > 0 ==> Pow2(k - 1) < n)
  {
    if n <= 1 then 0
    else
      var half := (n + 1) / 2;
      var k := Depth(half);
      k + 1
  }

  /** The bracket: each place holds the participant with its seed, or nobody. */
  function Seeded(participants: seq<Engine>, k: nat): (entrants: seq<Option<Engine>>)
    ensures |entrants| == Pow2(k)
  {
    seq(Pow2(k), i requires 0 <= i < Pow2(k) =>
      SeedOrderIsPermutation(k, i, 1);
      var seed := SeedOrder(k)[i];
      if seed <= |participants| then Some(participants[seed - 1]) else None)
  }

  method BracketSize(n: nat) returns (size: nat)
    ensures size == Pow2(Depth(n))
  {
    size := 1;
    ghost var k := 0;
    while size < n
      invariant size == Pow2(k) && (k > 0 ==> Pow2(k - 1) < n)
      decreases n - size
    {
      size := size * 2;
      k := k + 1;
    }
    var d := Depth(n);
    if k < d {
      Pow2Monotone(k, d - 1);
    } else if d < k {
      Pow2Monotone(d, k - 1);
    }
  }

  method SeedBracket(participants: seq<Engine>) returns (entrants: seq<Option<Engine>>)
    ensures entrants == Seeded(participants, Depth(|participants|))
  {
    var size := BracketSize(|participants|);
    var order := BracketSeedOrder(size);
    ghost var k := Depth(|participants|);
    entrants := [];
    for i := 0 to size
      invariant entrants == Seeded(participants, k)[..i]
    {
      SeedOrderIsPermutation(k, i, 1);
      var seed := order[i];
      entrants := entrants + [if seed <= |participants| then Some(participants[seed - 1]) else None];
    }
  }

  lemma {:induction false} SeededIsProper(participants: seq<Engine>)
    requires Distinct(participants) && |participants| >= 2
    ensures NoEmptyPairing(Seeded(participants, Depth(|participants|)))
    ensures DistinctEntrants(Seeded(participants, Depth(|participants|)))
  {
    var n := |participants|;
    var k := Depth(n);
    var entrants := Seeded(participants, k);
    assert k > 0 by {
      assert Pow2(0) == 1;
    }
    forall i | 0 <= i < |entrants| / 2 ensures entrants[2 * i].Some? || entrants[2 * i + 1].Some? {
      NoEmptyMatch(k, i, n);
    }
    forall i, j | 0 <= i < j < |entrants| && entrants[i].Some? ensures entrants[i] != entrants[j] {
      SeedOrderIsPermutation(k, i, 1);
      SeedOrderIsPermutation(k, j, 1);
      SeedOrderIsPermutation(k, i, SeedOrder(k)[i]);
      SeedOrderIsPermutation(k, j, SeedOrder(k)[i]);
    }
  }
}
