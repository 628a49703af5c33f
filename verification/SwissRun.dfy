/**
 Swiss tournaments over whole runs (cope/runner/scheduler.py): scores, ranking, byes, the
 generation of a round and the advance step, with the accounting that every run keeps.

 Scores are half points. A match is identified by its position in the match table.
 */
module SwissRun {
  import opened Common
  import Pairing = SwissPairing
  import Colours = SwissColours

  type Engine = int

  datatype Result = WhiteWins | BlackWins | Drawn

  datatype Game = Game(round: nat, pairIndex: nat, matchId: nat, white: Engine, black: Engine, result: Option<Result>)

  datatype MatchStatus = Pending | Finished | Bye

  datatype Match =
    Match(round: nat, matchIndex: nat, engine1: Engine, engine2: Option<Engine>, status: MatchStatus, winner: Option<Engine>)

  // ---------------------------------------------------------------- scores

  function GamePoints(g: Game, e: Engine): nat
  {
    match g.result
    case None => 0
    case Some(WhiteWins) => if g.white == e then 2 else 0
    case Some(BlackWins) => if g.black == e then 2 else 0
    case Some(Drawn) => (if g.white == e then 1 else 0) + (if g.black == e then 1 else 0)
  }

  function GamesPoints(games: seq<Game>, e: Engine): nat
  {
    if games == [] then 0 else GamesPoints(games[..|games| - 1], e) + GamePoints(games[|games| - 1], e)
  }

  function ByePoints(matches: seq<Match>, e: Engine): nat
  {
    if matches == [] then 0
    else
      var m := matches[|matches| - 1];
      ByePoints(matches[..|matches| - 1], e) + if m.status == Bye && m.engine1 == e then 2 else 0
  }

  function Points(games: seq<Game>, matches: seq<Match>, e: Engine): nat
  {
    GamesPoints(games, e) + ByePoints(matches, e)
  }

  function PointsTable(participants: seq<Engine>, games: seq<Game>, matches: seq<Match>): map<Engine, int>
  {
    map e | e in participants :: Points(games, matches, e)
  }

  /** Every game is between participants; every bye goes to one. */
  ghost predicate PlayedBy(participants: seq<Engine>, games: seq<Game>, matches: seq<Match>)
  {
    && (forall i :: 0 <= i < |games| ==>
          games[i].white in participants && games[i].black in participants && games[i].white != games[i].black)
    && (forall i :: 0 <= i < |matches| ==> matches[i].engine1 in participants)
  }

  method SwissPoints(participants: seq<Engine>, games: seq<Game>, matches: seq<Match>) returns (points: map<Engine, int>)
    requires PlayedBy(participants, games, matches)
    ensures points == PointsTable(participants, games, matches)
  {
    points := TallyGames(participants, games);
    points := TallyByes(participants, matches, points);
  }

  method TallyGames(participants: seq<Engine>, games: seq<Game>) returns (points: map<Engine, int>)
    requires PlayedBy(participants, games, [])
    ensures points == map e | e in participants :: GamesPoints(games, e)
  {
    points := map e | e in participants :: 0;
    for i := 0 to |games|
      invariant points == map e | e in participants :: GamesPoints(games[..i], e)
    {
      points := AddGame(participants, games, i, points);
    }
    assert games[..|games|] == games;
  }

  method TallyByes(participants: seq<Engine>, matches: seq<Match>, start: map<Engine, int>) returns (points: map<Engine, int>)
    requires PlayedBy(participants, [], matches) && start.Keys == set e | e in participants
    ensures points == map e | e in start :: start[e] + ByePoints(matches, e)
  {
    points := start;
    for i := 0 to |matches|
      invariant points == map e | e in start :: start[e] + ByePoints(matches[..i], e)
    {
      assert matches[..i + 1][..i] == matches[..i];
      if matches[i].status == Bye {
        var e := matches[i].engine1;
        points := points[e := points[e] + 2];
      }
    }
    assert matches[..|matches|] == matches;
  }

  /** One turn of the loop over games. */
  method AddGame(participants: seq<Engine>, games: seq<Game>, i: nat, points: map<Engine, int>)
    returns (updated: map<Engine, int>)
    requires PlayedBy(participants, games, []) && i < |games|
    requires points == map e | e in participants :: GamesPoints(games[..i], e)
    ensures updated == map e | e in participants :: GamesPoints(games[..i + 1], e)
  {
    var game := games[i];
    assert games[..i + 1][..i] == games[..i];
    assert forall e :: GamesPoints(games[..i + 1], e) == GamesPoints(games[..i], e) + GamePoints(game, e);
    updated := points;
    match game.result
    case Some(WhiteWins) => updated := updated[game.white := updated[game.white] + 2];
    case Some(BlackWins) => updated := updated[game.black := updated[game.black] + 2];
    case Some(Drawn) =>
      updated := updated[game.white := updated[game.white] + 1];
      updated := updated[game.black := updated[game.black] + 1];
    case None =>
  }

  // ---------------------------------------------------------------- ranking

  function Buchholz(games: seq<Game>, points: map<Engine, int>, e: Engine): int
  {
    if games == [] then 0
    else
      var g := games[|games| - 1];
      Buchholz(games[..|games| - 1], points, e)
      + (if g.result.Some? && g.white == e then Pairing.Lookup(points, g.black, 0) else 0)
      + (if g.result.Some? && g.black == e then Pairing.Lookup(points, g.white, 0) else 0)
  }

  /** The sort key: more points, then more Buchholz, then the better seed. */
  datatype RankKey = RankKey(points: int, buchholz: int, seed: nat)

  predicate RanksBefore(a: RankKey, b: RankKey)
  {
    if a.points != b.points then a.points > b.points
    else if a.buchholz != b.buchholz then a.buchholz > b.buchholz
    else a.seed < b.seed
  }

  function InsertByRank(keys: map<Engine, RankKey>, e: Engine, ranked: seq<Engine>): seq<Engine>
    requires e in keys && forall i :: 0 <= i < |ranked| ==> ranked[i] in keys
  {
    if ranked == [] then [e]
    else if RanksBefore(keys[ranked[0]], keys[e]) then [ranked[0]] + InsertByRank(keys, e, ranked[1..])
    else [e] + ranked
  }

  function RankedBy(keys: map<Engine, RankKey>, engines: seq<Engine>): (ranked: seq<Engine>)
    requires forall i :: 0 <= i < |engines| ==> engines[i] in keys
    ensures multiset(ranked) == multiset(engines)
  {
    if engines == [] then []
    else
      var rest := RankedBy(keys, engines[1..]);
      assert engines == [engines[0]] + engines[1..];
      forall i | 0 <= i < |rest| ensures rest[i] in keys {
        assert rest[i] in multiset(rest);
        assert rest[i] in engines[1..];
      }
      InsertPermutes(keys, engines[0], rest);
      InsertByRank(keys, engines[0], rest)
  }

  lemma {:induction false} InsertPermutes(keys: map<Engine, RankKey>, e: Engine, ranked: seq<Engine>)
    requires e in keys && forall i :: 0 <= i < |ranked| ==> ranked[i] in keys
    ensures multiset(InsertByRank(keys, e, ranked)) == multiset(ranked) + multiset{e}
  {
    if ranked != [] {
      assert ranked == [ranked[0]] + ranked[1..];
      InsertPermutes(keys, e, ranked[1..]);
    }
  }

  /** Higher-ranked engines stand first: no engine ranks before one listed above it. */
  ghost predicate InRankingOrder(keys: map<Engine, RankKey>, ranked: seq<Engine>)
  {
    && (forall i :: 0 <= i < |ranked| ==> ranked[i] in keys)
    && (forall i, j :: 0 <= i < j < |ranked| ==> !RanksBefore(keys[ranked[j]], keys[ranked[i]]))
  }

  lemma {:induction false} InsertKeepsRanking(keys: map<Engine, RankKey>, e: Engine, ranked: seq<Engine>)
    requires e in keys && InRankingOrder(keys, ranked)
    ensures InRankingOrder(keys, InsertByRank(keys, e, ranked))
    ensures forall x :: x in InsertByRank(keys, e, ranked) <==> x == e || x in ranked
  {
    if ranked != [] {
      if RanksBefore(keys[ranked[0]], keys[e]) {
        InsertKeepsRanking(keys, e, ranked[1..]);
        var tail := InsertByRank(keys, e, ranked[1..]);
        forall j | 0 <= j < |tail| ensures !RanksBefore(keys[tail[j]], keys[ranked[0]]) {
          assert tail[j] == e || tail[j] in ranked[1..];
        }
      } else {
        forall j | 0 <= j < |ranked| ensures !RanksBefore(keys[ranked[j]], keys[e]) {
          assert j == 0 || !RanksBefore(keys[ranked[j]], keys[ranked[0]]);
        }
      }
    }
  }

  /** The ranking lists every engine once, in order of points, Buchholz and seed. */
  lemma {:induction false} RankedByIsSorted(keys: map<Engine, RankKey>, engines: seq<Engine>)
    requires forall i :: 0 <= i < |engines| ==> engines[i] in keys
    ensures InRankingOrder(keys, RankedBy(keys, engines))
  {
    if engines != [] {
      RankedByIsSorted(keys, engines[1..]);
      assert engines[0] in keys;
      InsertKeepsRanking(keys, engines[0], RankedBy(keys, engines[1..]));
    }
  }

  function SeedOf(participants: seq<Engine>, e: Engine): (i: nat)
    requires e in participants
    ensures i < |participants| && participants[i] == e
  {
    if participants[0] == e then 0 else 1 + SeedOf(participants[1..], e)
  }

  function RankKeys(participants: seq<Engine>, games: seq<Game>, points: map<Engine, int>): map<Engine, RankKey>
    requires forall e :: e in participants ==> e in points
  {
    map e | e in participants :: RankKey(points[e], Buchholz(games, points, e), SeedOf(participants, e))
  }

  // ---------------------------------------------------------------- opponents

  function Opponents(games: seq<Game>): (m: map<Engine, set<Engine>>)
  {
    if games == [] then map[]
    else
      var g := games[|games| - 1];
      var m := Opponents(games[..|games| - 1]);
      var m1 := m[g.white := Pairing.Lookup(m, g.white, {}) + {g.black}];
      m1[g.black := Pairing.Lookup(m1, g.black, {}) + {g.white}]
  }

  method OpponentHistory(games: seq<Game>) returns (opponents: map<Engine, set<Engine>>)
    ensures opponents == Opponents(games)
  {
    opponents := map[];
    for i := 0 to |games|
      invariant opponents == Opponents(games[..i])
    {
      var g := games[i];
      assert games[..i + 1][..i] == games[..i];
      opponents := opponents[g.white := Pairing.Lookup(opponents, g.white, {}) + {g.black}];
      opponents := opponents[g.black := Pairing.Lookup(opponents, g.black, {}) + {g.white}];
    }
    assert games[..|games|] == games;
  }

  /** Two engines are opponents of each other, or of neither: exactly when some game had them both. */
  lemma {:induction false} OpponentsAreMutual(games: seq<Game>, a: Engine, b: Engine)
    ensures b in Pairing.Lookup(Opponents(games), a, {}) <==>
              exists i :: 0 <= i < |games| && Between(games[i], a, b)
  {
    if games != [] {
      var front := games[..|games| - 1];
      OpponentsAreMutual(front, a, b);
      assert forall i :: 0 <= i < |front| ==> front[i] == games[i];
      if i :| 0 <= i < |games| && Between(games[i], a, b) {
        if i < |front| {
          assert Between(front[i], a, b);
        }
      }
    }
  }

  ghost predicate Between(g: Game, a: Engine, b: Engine)
  {
    (g.white == a && g.black == b) || (g.white == b && g.black == a)
  }

  // ---------------------------------------------------------------- planning a round

  function ByeSet(matches: seq<Match>): set<Engine>
  {
    set i | 0 <= i < |matches| && matches[i].status == Bye && matches[i].engine2 == None :: matches[i].engine1
  }

  /** The lowest-ranked engine without a bye so far, or the lowest-ranked one when all have had one. */
  function ByeIndex(ranked: seq<Engine>, previous: set<Engine>, k: nat): (i: nat)
    requires 0 < |ranked| && k <= |ranked|
    requires forall j :: k <= j < |ranked| ==> ranked[j] in previous
    ensures i < |ranked|
    ensures ranked[i] in previous ==> i == |ranked| - 1 && forall j :: 0 <= j < |ranked| ==> ranked[j] in previous
    ensures ranked[i] !in previous ==> forall j :: i < j < |ranked| ==> ranked[j] in previous
  {
    if k == 0 then |ranked| - 1
    else if ranked[k - 1] !in previous then k - 1
    else ByeIndex(ranked, previous, k - 1)
  }

  datatype Plan = Plan(pairs: seq<(Engine, Engine)>, bye: Option<Engine>)

  function Zip(xs: seq<Engine>, ys: seq<Engine>): (pairs: seq<(Engine, Engine)>)
    requires |xs| == |ys|
    ensures |pairs| == |xs|
  {
    seq(|xs|, i requires 0 <= i < |xs| => (xs[i], ys[i]))
  }

  /** Top half against bottom half in the first round, the search afterwards. */
  function PairUp(ranked: seq<Engine>, round: nat, points: map<Engine, int>, opponents: map<Engine, set<Engine>>)
    : (pairs: seq<(Engine, Engine)>)
    requires |ranked| % 2 == 0
  {
    if round == 1 then Zip(ranked[..|ranked| / 2], ranked[|ranked| / 2..])
    else Pairing.SwissPairings(ranked, points, opponents)
  }

  function PlanFor(
    ranked: seq<Engine>, round: nat, points: map<Engine, int>, opponents: map<Engine, set<Engine>>, previousByes: set<Engine>)
    : (plan: Plan)
  {
    if |ranked| % 2 == 0 then Plan(PairUp(ranked, round, points, opponents), None)
    else
      var b := ByeIndex(ranked, previousByes, |ranked|);
      Plan(PairUp(ranked[..b] + ranked[b + 1..], round, points, opponents), Some(ranked[b]))
  }

  function PlanRound(participants: seq<Engine>, games: seq<Game>, matches: seq<Match>, round: nat): (plan: Plan)
  {
    var points := PointsTable(participants, games, matches);
    var ranked := RankedBy(RankKeys(participants, games, points), participants);
    PlanFor(ranked, round, points, Opponents(games), ByeSet(matches))
  }

  function PlanEngines(plan: Plan): seq<Engine>
  {
    PairEngines(plan.pairs) + (if plan.bye.Some? then [plan.bye.value] else [])
  }

  function PairEngines(pairs: seq<(Engine, Engine)>): seq<Engine>
  {
    if pairs == [] then [] else PairEngines(pairs[..|pairs| - 1]) + [pairs[|pairs| - 1].0, pairs[|pairs| - 1].1]
  }

  lemma {:induction false} ZipEngines(xs: seq<Engine>, ys: seq<Engine>)
    requires |xs| == |ys|
    ensures multiset(PairEngines(Zip(xs, ys))) == multiset(xs) + multiset(ys)
  {
    if xs != [] {
      var k := |xs| - 1;
      ZipEngines(xs[..k], ys[..k]);
      assert Zip(xs, ys)[..k] == Zip(xs[..k], ys[..k]);
      SplitLast(xs);
      SplitLast(ys);
    }
  }

  lemma {:induction false} SplitLast(xs: seq<Engine>)
    requires xs != []
    ensures multiset(xs) == multiset(xs[..|xs| - 1]) + multiset{xs[|xs| - 1]}
  {
    assert xs == xs[..|xs| - 1] + [xs[|xs| - 1]];
  }

  lemma {:induction false} PairEnginesConcat(xs: seq<(Engine, Engine)>, ys: seq<(Engine, Engine)>)
    ensures PairEngines(xs + ys) == PairEngines(xs) + PairEngines(ys)
  {
    if ys == [] {
      assert xs + ys == xs;
    } else {
      var k := |ys| - 1;
      assert (xs + ys)[..|xs| + k] == xs + ys[..k];
      PairEnginesConcat(xs, ys[..k]);
    }
  }

  /** The two ways of listing the engines of a pairing agree. */
  lemma {:induction false} FlattenIsPairEngines(m: seq<(Engine, Engine)>)
    ensures Pairing.Flatten(m) == PairEngines(m)
  {
    if m != [] {
      FlattenIsPairEngines(m[1..]);
      PairEnginesConcat([m[0]], m[1..]);
      assert [m[0]] + m[1..] == m;
      assert PairEngines([m[0]]) == [m[0].0, m[0].1];
    }
  }

  lemma {:induction false} OpponentsSymmetric(games: seq<Game>)
    ensures Pairing.SymmetricHistory(Opponents(games))
  {
    var opponents := Opponents(games);
    forall a, b ensures Pairing.Met(opponents, a, b) <==> Pairing.Met(opponents, b, a) {
      OpponentsAreMutual(games, a, b);
      OpponentsAreMutual(games, b, a);
      assert forall g :: Between(g, a, b) <==> Between(g, b, a);
    }
  }

  lemma {:induction false} PairUpUsesAll(ranked: seq<Engine>, round: nat, points: map<Engine, int>, games: seq<Game>)
    requires Distinct(ranked) && |ranked| % 2 == 0
    ensures multiset(PairEngines(PairUp(ranked, round, points, Opponents(games)))) == multiset(ranked)
  {
    if round == 1 {
      ZipEngines(ranked[..|ranked| / 2], ranked[|ranked| / 2..]);
      assert ranked == ranked[..|ranked| / 2] + ranked[|ranked| / 2..];
    } else {
      OpponentsSymmetric(games);
      Pairing.SwissPairingsCorrect(ranked, points, Opponents(games));
      FlattenIsPairEngines(Pairing.SwissPairings(ranked, points, Opponents(games)));
    }
  }

  /** A plan for an odd field seats everyone: its pairs and its bye list every engine exactly once. */
  lemma {:induction false} PlanForUsesAll(
    ranked: seq<Engine>, round: nat, points: map<Engine, int>, games: seq<Game>, previousByes: set<Engine>)
    requires Distinct(ranked)
    ensures var plan := PlanFor(ranked, round, points, Opponents(games), previousByes);
            && multiset(PlanEngines(plan)) == multiset(ranked)
            && (plan.bye.Some? <==> |ranked| % 2 == 1)
            && (plan.bye.Some? && plan.bye.value in previousByes ==> forall e :: e in ranked ==> e in previousByes)
  {
    hide PairUp, ByeIndex, PairEngines, Opponents, Distinct;
    if |ranked| % 2 == 0 {
      PairUpUsesAll(ranked, round, points, games);
      var plan := PlanFor(ranked, round, points, Opponents(games), previousByes);
      assert PlanEngines(plan) == PairEngines(plan.pairs);
    } else {
      PlanForOdd(ranked, round, points, games, previousByes, ByeIndex(ranked, previousByes, |ranked|));
    }
  }

  lemma {:induction false} PlanForOdd(
    ranked: seq<Engine>, round: nat, points: map<Engine, int>, games: seq<Game>, previousByes: set<Engine>, b: nat)
    requires Distinct(ranked) && |ranked| % 2 == 1 && b == ByeIndex(ranked, previousByes, |ranked|)
    ensures var pairs := PairUp(ranked[..b] + ranked[b + 1..], round, points, Opponents(games));
            multiset(PairEngines(pairs) + [ranked[b]]) == multiset(ranked)
    ensures ranked[b] in previousByes ==> forall e :: e in ranked ==> e in previousByes
  {
    PairUpUsesAll(ranked[..b] + ranked[b + 1..], round, points, games);
    SplitAt(ranked, b);
  }

  lemma {:induction false} SplitAt(xs: seq<Engine>, b: nat)
    requires b < |xs|
    ensures multiset(xs) == multiset(xs[..b] + xs[b + 1..]) + multiset{xs[b]}
  {
    assert xs == xs[..b] + [xs[b]] + xs[b + 1..];
  }

  lemma {:induction false} PairEnginesLength(pairs: seq<(Engine, Engine)>)
    ensures |PairEngines(pairs)| == 2 * |pairs|
  {
    if pairs != [] {
      PairEnginesLength(pairs[..|pairs| - 1]);
    }
  }

  /** Every round pairs each participant once or gives it the only bye, fairly. */
  lemma {:induction false} PlanRoundCoversField(participants: seq<Engine>, games: seq<Game>, matches: seq<Match>, round: nat)
    requires Distinct(participants)
    ensures var plan := PlanRound(participants, games, matches, round);
            && multiset(PlanEngines(plan)) == multiset(participants)
            && |plan.pairs| == |participants| / 2
            && (plan.bye.Some? <==> |participants| % 2 == 1)
            && (plan.bye.Some? && plan.bye.value in ByeSet(matches) ==> forall e :: e in participants ==> e in ByeSet(matches))
  {
    var points := PointsTable(participants, games, matches);
    var ranked := RankedBy(RankKeys(participants, games, points), participants);
    DistinctByMultiset(participants, ranked);
    PlanForUsesAll(ranked, round, points, games, ByeSet(matches));
    var plan := PlanRound(participants, games, matches, round);
    PairEnginesLength(plan.pairs);
    assert |multiset(PlanEngines(plan))| == |PlanEngines(plan)|;
    assert |multiset(participants)| == |participants|;
    assert |multiset(ranked)| == |ranked|;
    forall e | e in participants ensures e in ranked {
      assert e in multiset(participants);
      assert e in multiset(ranked);
    }
  }

  // ---------------------------------------------------------------- the tables of a run

  function PairMatches(pairs: seq<(Engine, Engine)>, round: nat): (rows: seq<Match>)
    ensures |rows| == |pairs|
  {
    seq(|pairs|, i requires 0 <= i < |pairs| => Match(round, i + 1, pairs[i].0, Some(pairs[i].1), Pending, None))
  }

  function ByeMatch(e: Engine, round: nat, matchIndex: nat): Match
  {
    Match(round, matchIndex, e, None, Bye, Some(e))
  }

  /** The match rows of a planned round: the pairs, then the bye if there is one. */
  function PlanMatches(plan: Plan, round: nat): (rows: seq<Match>)
  {
    PairMatches(plan.pairs, round)
    + (if plan.bye.Some? then [ByeMatch(plan.bye.value, round, |plan.pairs| + 1)] else [])
  }

  function Seatings(games: seq<Game>): (s: seq<Colours.Seating>)
    ensures |s| == |games|
  {
    seq(|games|, i requires 0 <= i < |games| => Colours.Seating(games[i].white, games[i].black))
  }

  /** The game rows of a planned round, one per pair, colours from the games played before the round. */
  function PlanGames(pairs: seq<(Engine, Engine)>, round: nat, firstMatch: nat, before: seq<Game>): (rows: seq<Game>)
    ensures |rows| == |pairs|
  {
    seq(|pairs|, i requires 0 <= i < |pairs| =>
      var (white, black) := Colours.Colours(pairs[i].0, pairs[i].1, Seatings(before));
      Game(round, i + 1, firstMatch + i, white, black, None))
  }

  function MatchEngines(m: Match): seq<Engine>
  {
    if m.engine2.Some? then [m.engine1, m.engine2.value] else [m.engine1]
  }

  /** The engines listed by the matches of one round. */
  function EnginesOfRound(matches: seq<Match>, round: nat): seq<Engine>
  {
    if matches == [] then []
    else
      var m := matches[|matches| - 1];
      EnginesOfRound(matches[..|matches| - 1], round) + if m.round == round then MatchEngines(m) else []
  }

  function ByeCount(matches: seq<Match>): nat
  {
    if matches == [] then 0
    else ByeCount(matches[..|matches| - 1]) + if matches[|matches| - 1].status == Bye then 1 else 0
  }

  function LastRound(matches: seq<Match>): nat
  {
    if matches == [] then 0
    else
      var front := LastRound(matches[..|matches| - 1]);
      if matches[|matches| - 1].round > front then matches[|matches| - 1].round else front
  }

  /** A second bye comes only after every participant has had one. */
  ghost predicate ByesAreFair(participants: seq<Engine>, matches: seq<Match>)
  {
    forall i :: 0 <= i < |matches| && matches[i].status == Bye && matches[i].engine1 in ByeSet(matches[..i]) ==>
      forall e :: e in participants ==> e in ByeSet(matches[..i])
  }

  ghost predicate ByeRowsAreByes(matches: seq<Match>)
  {
    forall i :: 0 <= i < |matches| ==> (matches[i].status == Bye <==> matches[i].engine2 == None)
  }

  ghost predicate RoundsCoverField(participants: seq<Engine>, matches: seq<Match>)
  {
    forall r :: 1 <= r <= LastRound(matches) ==> multiset(EnginesOfRound(matches, r)) == multiset(participants)
  }

  /** What every reachable pair of tables satisfies. */
  ghost predicate SwissInv(participants: seq<Engine>, games: seq<Game>, matches: seq<Match>)
  {
    && Distinct(participants) && |participants| >= 2
    && PlayedBy(participants, games, matches)
    && ByeRowsAreByes(matches)
    && ByesAreFair(participants, matches)
    && RoundsCoverField(participants, matches)
    && |games| == LastRound(matches) * (|participants| / 2)
    && ByeCount(matches) == LastRound(matches) * (|participants| % 2)
  }
}
