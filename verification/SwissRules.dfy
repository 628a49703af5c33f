/**
 The rules of a Swiss round in words of the tables (cope/runner/scheduler.py): what an engine's
 points, Buchholz and place in the ranking are, who gets the bye, who is paired and with which
 colours. Every definition here counts rows; none uses the functions of the program.
 */
module SwissRules {
  import opened Common
  import opened SwissRun
  import Pairing = SwissPairing
  import Colours = SwissColours

  // ---------------------------------------------------------------- points

  /** The places of the games an engine won, of those it drew, and of the byes it was given. */
  ghost function WonBy(games: seq<Game>, e: Engine): set<nat>
  {
    set j | 0 <= j < |games|
      && ((games[j].white == e && games[j].result == Some(WhiteWins)) || (games[j].black == e && games[j].result == Some(BlackWins)))
  }

  ghost function DrawnBy(games: seq<Game>, e: Engine): set<nat>
  {
    set j | 0 <= j < |games| && (games[j].white == e || games[j].black == e) && games[j].result == Some(Drawn)
  }

  ghost function ByesOf(matches: seq<Match>, e: Engine): set<nat>
  {
    set j | 0 <= j < |matches| && matches[j].engine1 == e && matches[j].status == Bye
  }

  /** Two half points for a win or a bye, one for a draw. */
  ghost function Tally(games: seq<Game>, matches: seq<Match>, e: Engine): nat
  {
    2 * |WonBy(games, e)| + |DrawnBy(games, e)| + 2 * |ByesOf(matches, e)|
  }

  ghost predicate NobodyAlone(games: seq<Game>)
  {
    forall j :: 0 <= j < |games| ==> games[j].white != games[j].black
  }

  lemma {:induction false} OneMoreGame(games: seq<Game>, e: Engine)
    requires games != []
    ensures var k := |games| - 1;
            var g := games[k];
            var won := (g.white == e && g.result == Some(WhiteWins)) || (g.black == e && g.result == Some(BlackWins));
            var drawn := (g.white == e || g.black == e) && g.result == Some(Drawn);
            && WonBy(games, e) == WonBy(games[..k], e) + (if won then {k} else {}) && k !in WonBy(games[..k], e)
            && DrawnBy(games, e) == DrawnBy(games[..k], e) + (if drawn then {k} else {}) && k !in DrawnBy(games[..k], e)
  {
  }

  lemma {:induction false} OneMoreMatch(matches: seq<Match>, e: Engine)
    requires matches != []
    ensures var k := |matches| - 1;
            var bye := matches[k].engine1 == e && matches[k].status == Bye;
            && ByesOf(matches, e) == ByesOf(matches[..k], e) + (if bye then {k} else {}) && k !in ByesOf(matches[..k], e)
  {
  }

  lemma {:induction false} NothingYet(e: Engine)
    ensures WonBy([], e) == {} && DrawnBy([], e) == {} && ByesOf([], e) == {}
  {
  }

  lemma {:induction false} GamesAreTallied(games: seq<Game>, e: Engine)
    requires NobodyAlone(games)
    ensures GamesPoints(games, e) == 2 * |WonBy(games, e)| + |DrawnBy(games, e)|
    decreases |games|
  {
    hide WonBy, DrawnBy;
    if games == [] {
      NothingYet(e);
    } else {
      OneMoreGame(games, e);
      GamesAreTallied(games[..|games| - 1], e);
    }
  }

  lemma {:induction false} ByesAreTallied(matches: seq<Match>, e: Engine)
    ensures ByePoints(matches, e) == 2 * |ByesOf(matches, e)|
    decreases |matches|
  {
    hide ByesOf;
    if matches == [] {
      NothingYet(e);
    } else {
      OneMoreMatch(matches, e);
      ByesAreTallied(matches[..|matches| - 1], e);
    }
  }

  /** The table of points counts wins, draws and byes. */
  lemma {:induction false} PointsAreTallied(participants: seq<Engine>, games: seq<Game>, matches: seq<Match>, e: Engine)
    requires NobodyAlone(games)
    ensures e in participants <==> e in PointsTable(participants, games, matches)
    ensures e in participants ==> PointsTable(participants, games, matches)[e] == Tally(games, matches, e)
  {
    hide WonBy, DrawnBy, ByesOf, GamesPoints, ByePoints;
    GamesAreTallied(games, e);
    ByesAreTallied(matches, e);
  }

  // ---------------------------------------------------------------- Buchholz

  /** The decided games between two engines. */
  ghost function DecidedBetween(games: seq<Game>, a: Engine, b: Engine): set<nat>
  {
    set j | 0 <= j < |games| && games[j].result.Some?
      && ((games[j].white == a && games[j].black == b) || (games[j].white == b && games[j].black == a))
  }

  ghost function PointsOf(points: map<Engine, int>, e: Engine): int { if e in points then points[e] else 0 }

  /** The points of each engine of the field, once for every decided game against it. */
  ghost function OpponentPoints(field: seq<Engine>, games: seq<Game>, points: map<Engine, int>, e: Engine): int
  {
    if field == [] then 0
    else
      OpponentPoints(field[1..], games, points, e) + |DecidedBetween(games, e, field[0])| * PointsOf(points, field[0])
  }

  lemma {:induction false} OneMoreDecided(games: seq<Game>, a: Engine, b: Engine)
    requires games != []
    ensures var k := |games| - 1;
            var g := games[k];
            var added := g.result.Some? && ((g.white == a && g.black == b) || (g.white == b && g.black == a));
            && DecidedBetween(games, a, b) == DecidedBetween(games[..k], a, b) + (if added then {k} else {})
            && k !in DecidedBetween(games[..k], a, b)
  {
  }

  /** What the last game adds to the sum over a field without repetitions. */
  lemma {:induction false} LastGameAdds(field: seq<Engine>, games: seq<Game>, points: map<Engine, int>, e: Engine)
    requires games != [] && games[|games| - 1].white != games[|games| - 1].black
    requires forall i, j :: 0 <= i < j < |field| ==> field[i] != field[j]
    ensures var g := games[|games| - 1];
            var opponent := if g.white == e then g.black else g.white;
            var met := g.result.Some? && (g.white == e || g.black == e) && opponent in field;
            OpponentPoints(field, games, points, e)
            == OpponentPoints(field, games[..|games| - 1], points, e) + if met then PointsOf(points, opponent) else 0
    decreases |field|
  {
    hide DecidedBetween, PointsOf;
    if field != [] {
      OneMoreDecided(games, e, field[0]);
      LastGameAdds(field[1..], games, points, e);
      var n := |DecidedBetween(games[..|games| - 1], e, field[0])|;
      OneTimesMore(n, PointsOf(points, field[0]));
    }
  }

  lemma {:induction false} OneTimesMore(n: int, x: int)
    ensures (n + 1) * x == n * x + x
  {
  }

  lemma {:induction false} NoGames(field: seq<Engine>, points: map<Engine, int>, e: Engine)
    ensures OpponentPoints(field, [], points, e) == 0
    decreases |field|
  {
    if field != [] {
      NoGames(field[1..], points, e);
      assert DecidedBetween([], e, field[0]) == {};
    }
  }

  /** Buchholz adds up the points of the opponents of all decided games. */
  lemma {:induction false} BuchholzIsOpponentPoints(field: seq<Engine>, games: seq<Game>, points: map<Engine, int>, e: Engine)
    requires NobodyAlone(games) && Distinct(field)
    requires forall j :: 0 <= j < |games| ==> games[j].white in field && games[j].black in field
    ensures Buchholz(games, points, e) == OpponentPoints(field, games, points, e)
    decreases |games|
  {
    hide OpponentPoints;
    if games == [] {
      NoGames(field, points, e);
    } else {
      LastGameAdds(field, games, points, e);
      BuchholzIsOpponentPoints(field, games[..|games| - 1], points, e);
    }
  }

  // ---------------------------------------------------------------- the ranking

  function Ranking(participants: seq<Engine>, games: seq<Game>, matches: seq<Match>): seq<Engine>
  {
    RankedBy(RankKeys(participants, games, PointsTable(participants, games, matches)), participants)
  }

  ghost predicate StandsAt(participants: seq<Engine>, i: nat, e: Engine) { i < |participants| && participants[i] == e }

  /** More points, then more points of opponents, then the earlier place in the field. */
  ghost predicate Above(participants: seq<Engine>, games: seq<Game>, matches: seq<Match>, points: map<Engine, int>, a: Engine, b: Engine)
  {
    var ahead := Tally(games, matches, a) - Tally(games, matches, b);
    var harder := OpponentPoints(participants, games, points, a) - OpponentPoints(participants, games, points, b);
    || ahead > 0
    || (ahead == 0 && harder > 0)
    || (ahead == 0 && harder == 0 && exists i: nat, j: nat :: i < j && StandsAt(participants, i, a) && StandsAt(participants, j, b))
  }

  lemma {:induction false} SeedIsPlace(participants: seq<Engine>, e: Engine)
    requires e in participants
    ensures StandsAt(participants, SeedOf(participants, e), e)
  {
  }

  lemma {:induction false} KeysMeanAbove(participants: seq<Engine>, games: seq<Game>, matches: seq<Match>, a: Engine, b: Engine)
    requires Distinct(participants) && PlayedBy(participants, games, matches) && a in participants && b in participants && a != b
    ensures var points := PointsTable(participants, games, matches);
            var keys := RankKeys(participants, games, points);
            !RanksBefore(keys[b], keys[a]) ==> Above(participants, games, matches, points, a, b)
  {
    hide Buchholz, OpponentPoints, PointsTable, Tally, SeedOf;
    var points := PointsTable(participants, games, matches);
    forall e | e in participants
      ensures e in points && points[e] == Tally(games, matches, e)
      ensures Buchholz(games, points, e) == OpponentPoints(participants, games, points, e)
      ensures StandsAt(participants, SeedOf(participants, e), e)
    {
      PointsAreTallied(participants, games, matches, e);
      BuchholzIsOpponentPoints(participants, games, points, e);
      SeedIsPlace(participants, e);
    }
  }

  /** The ranking holds the field once, and whoever stands higher is above whoever stands lower. */
  lemma {:induction false} RankingIsByScore(participants: seq<Engine>, games: seq<Game>, matches: seq<Match>, i: nat, j: nat)
    requires Distinct(participants) && PlayedBy(participants, games, matches)
    requires i < j < |Ranking(participants, games, matches)|
    ensures var ranked := Ranking(participants, games, matches);
            && multiset(ranked) == multiset(participants)
            && Above(participants, games, matches, PointsTable(participants, games, matches), ranked[i], ranked[j])
  {
    hide Above, RanksBefore, RankKeys, RankedBy, PlayedBy;
    var keys := RankKeys(participants, games, PointsTable(participants, games, matches));
    var ranked := Ranking(participants, games, matches);
    KeysOfField(participants, games, matches);
    RankedByIsSorted(keys, participants);
    DistinctByMultiset(participants, ranked);
    assert ranked[i] in multiset(ranked) && ranked[j] in multiset(ranked);
    KeysMeanAbove(participants, games, matches, ranked[i], ranked[j]);
  }

  lemma {:induction false} KeysOfField(participants: seq<Engine>, games: seq<Game>, matches: seq<Match>)
    ensures var keys := RankKeys(participants, games, PointsTable(participants, games, matches));
            forall i :: 0 <= i < |participants| ==> participants[i] in keys
  {
  }

  // ---------------------------------------------------------------- the bye and the pairs

  ghost predicate HadBye(matches: seq<Match>, e: Engine)
  {
    exists j :: 0 <= j < |matches| && matches[j].engine1 == e && matches[j].engine2 == None && matches[j].status == Bye
  }

  /** The bye of a ranking of odd length: the lowest engine without one so far, or the lowest of all when everybody had one. */
  ghost predicate IsBye(ranked: seq<Engine>, matches: seq<Match>, b: nat)
  {
    && b < |ranked| && |ranked| % 2 == 1
    && if forall j :: 0 <= j < |ranked| ==> HadBye(matches, ranked[j]) then b == |ranked| - 1
       else !HadBye(matches, ranked[b]) && forall j :: b < j < |ranked| ==> HadBye(matches, ranked[j])
  }

  ghost predicate HaveMet(games: seq<Game>, a: Engine, b: Engine)
  {
    exists j :: 0 <= j < |games| && ((games[j].white == a && games[j].black == b) || (games[j].white == b && games[j].black == a))
  }

  /** In the first round the upper half meets the lower half, place by place. */
  ghost predicate HalvesMeet(seated: seq<Engine>, pairs: seq<(Engine, Engine)>)
  {
    && 2 * |pairs| == |seated|
    && forall i :: 0 <= i < |pairs| ==> pairs[i] == (seated[i], seated[|pairs| + i])
  }

  /** Opponents as the games on record tell. */
  ghost predicate TellsHistory(opponents: map<Engine, set<Engine>>, games: seq<Game>)
  {
    forall a, b :: Pairing.Met(opponents, a, b) <==> HaveMet(games, a, b)
  }

  /** Later rounds: everybody is paired, without rematches if that is possible, and nobody could be better served from the top down. */
  ghost predicate BestPairs(
    seated: seq<Engine>, points: map<Engine, int>, opponents: map<Engine, set<Engine>>, pairs: seq<(Engine, Engine)>)
  {
    && multiset(PairEngines(pairs)) == multiset(seated)
    && (Pairing.FreshPairing(opponents, pairs) <==> exists partner :: Pairing.FreshMatching(opponents, seated, partner))
    && forall m :: Pairing.NotBeaten(seated, points, opponents, pairs, m)
  }

  /** The rest of the ranking when one engine has the bye. */
  ghost function Seated(ranked: seq<Engine>, bye: Option<nat>): seq<Engine>
    requires bye.Some? ==> bye.value < |ranked|
  {
    if bye.None? then ranked else ranked[..bye.value] + ranked[bye.value + 1..]
  }

  lemma {:induction false} HistoryIsTold(games: seq<Game>)
    ensures TellsHistory(Opponents(games), games)
  {
    forall a, b ensures Pairing.Met(Opponents(games), a, b) <==> HaveMet(games, a, b) {
      OpponentsAreMutual(games, a, b);
      if HaveMet(games, a, b) {
        var j :| 0 <= j < |games| && ((games[j].white == a && games[j].black == b) || (games[j].white == b && games[j].black == a));
        assert Between(games[j], a, b);
      }
    }
  }

  lemma {:induction false} PairsOf(seated: seq<Engine>, round: nat, points: map<Engine, int>, games: seq<Game>)
    requires Distinct(seated) && |seated| % 2 == 0
    ensures var pairs := PairUp(seated, round, points, Opponents(games));
            if round == 1 then HalvesMeet(seated, pairs) else BestPairs(seated, points, Opponents(games), pairs)
  {
    hide Opponents;
    if round != 1 {
      OpponentsSymmetric(games);
      Pairing.SwissPairingsCorrect(seated, points, Opponents(games));
      FlattenIsPairEngines(Pairing.SwissPairings(seated, points, Opponents(games)));
    }
  }

  lemma {:induction false} ByeIsLowest(ranked: seq<Engine>, matches: seq<Match>)
    requires |ranked| % 2 == 1
    ensures IsBye(ranked, matches, ByeIndex(ranked, ByeSet(matches), |ranked|))
  {
    forall e ensures e in ByeSet(matches) <==> HadBye(matches, e) {
    }
    hide HadBye, ByeSet;
    var b := ByeIndex(ranked, ByeSet(matches), |ranked|);
  }

  /** A planned round: the bye, and the pairs of everybody else, all from the ranking. */
  ghost predicate IsPlan(
    ranked: seq<Engine>, round: nat, points: map<Engine, int>, opponents: map<Engine, set<Engine>>, matches: seq<Match>,
    plan: Plan, bye: Option<nat>)
  {
    && (bye.Some? <==> |ranked| % 2 == 1) && (bye.Some? ==> IsBye(ranked, matches, bye.value))
    && plan.bye == (if bye.Some? then Some(ranked[bye.value]) else None)
    && var seated := Seated(ranked, bye);
    if round == 1 then HalvesMeet(seated, plan.pairs) else BestPairs(seated, points, opponents, plan.pairs)
  }

  lemma {:induction false} LeavingOneOut(ranked: seq<Engine>, b: nat)
    requires Distinct(ranked) && b < |ranked|
    ensures Distinct(ranked[..b] + ranked[b + 1..])
  {
    var rest := ranked[..b] + ranked[b + 1..];
    forall i, j | 0 <= i < j < |rest| ensures rest[i] != rest[j] {
      assert rest[i] == ranked[if i < b then i else i + 1] && rest[j] == ranked[if j < b then j else j + 1];
    }
  }

  /** Every round is planned by these rules, from the ranking by score. */
  lemma {:induction false} RoundsFollowTheRules(participants: seq<Engine>, games: seq<Game>, matches: seq<Match>, round: nat)
    requires Distinct(participants)
    ensures TellsHistory(Opponents(games), games)
    ensures exists bye: Option<nat> :: IsPlan(
              Ranking(participants, games, matches), round, PointsTable(participants, games, matches), Opponents(games), matches,
              PlanRound(participants, games, matches, round), bye)
  {
    hide PairUp, HalvesMeet, BestPairs, IsBye, ByeIndex, RankedBy, RankKeys, PointsTable, Opponents, ByeSet, TellsHistory;
    HistoryIsTold(games);
    var ranked := Ranking(participants, games, matches);
    var points := PointsTable(participants, games, matches);
    RankingIsDistinct(participants, games, matches);
    var bye: Option<nat> := None;
    if |ranked| % 2 == 1 {
      var b := ByeIndex(ranked, ByeSet(matches), |ranked|);
      bye := Some(b);
      ByeIsLowest(ranked, matches);
      LeavingOneOut(ranked, b);
    }
    PairsOf(Seated(ranked, bye), round, points, games);
    assert IsPlan(ranked, round, points, Opponents(games), matches, PlanRound(participants, games, matches, round), bye);
  }

  lemma {:induction false} RankingIsDistinct(participants: seq<Engine>, games: seq<Game>, matches: seq<Match>)
    requires Distinct(participants)
    ensures Distinct(Ranking(participants, games, matches))
  {
    KeysOfField(participants, games, matches);
    DistinctByMultiset(participants, Ranking(participants, games, matches));
  }

  // ---------------------------------------------------------------- colours

  ghost function WhiteIn(games: seq<Colours.Seating>, e: Engine): set<nat>
  {
    set j | 0 <= j < |games| && games[j].white == e
  }

  ghost function BlackIn(games: seq<Colours.Seating>, e: Engine): set<nat>
  {
    set j | 0 <= j < |games| && games[j].black == e
  }

  ghost predicate Plays(g: Colours.Seating, e: Engine) { g.white == e || g.black == e }

  /** The latest game of an engine. */
  ghost predicate LatestAt(games: seq<Colours.Seating>, e: Engine, j: nat)
  {
    j < |games| && Plays(games[j], e) && forall i :: j < i < |games| ==> !Plays(games[i], e)
  }

  ghost predicate HadColour(g: Colours.Seating, e: Engine, white: bool) { if white then g.white == e else g.black == e }

  /** The engine's latest game was with this colour. */
  ghost predicate OneBefore(games: seq<Colours.Seating>, e: Engine, white: bool)
  {
    exists j: nat :: LatestAt(games, e, j) && HadColour(games[j], e, white)
  }

  /** Its latest two games were. */
  ghost predicate TwoBefore(games: seq<Colours.Seating>, e: Engine, white: bool)
  {
    exists j: nat :: LatestAt(games, e, j) && HadColour(games[j], e, white) && OneBefore(games[..j], e, white)
  }

  /** How far the colours of an engine are apart once it plays this game. */
  ghost function Imbalance(games: seq<Colours.Seating>, e: Engine, white: bool): int
  {
    var ahead := |WhiteIn(games, e)| - |BlackIn(games, e)| + if white then 1 else -1;
    if ahead >= 0 then ahead else 0 - ahead
  }

  /** One point for each game of imbalance, two for repeating a colour, eight more for a third game in a row with it. */
  ghost function Burden(games: seq<Colours.Seating>, e: Engine, white: bool): int
  {
    Imbalance(games, e, white) + (if OneBefore(games, e, white) then 2 else 0) + (if TwoBefore(games, e, white) then 8 else 0)
  }

  ghost predicate Seats(games: seq<Colours.Seating>) { forall j :: 0 <= j < |games| ==> games[j].white != games[j].black }

  lemma {:induction false} BalanceIsCounted(games: seq<Colours.Seating>, e: Engine)
    ensures Colours.Balance(e, games) == |WhiteIn(games, e)| - |BlackIn(games, e)|
    decreases |games|
  {
    if games == [] {
      assert WhiteIn(games, e) == {} && BlackIn(games, e) == {};
    } else {
      var k := |games| - 1;
      BalanceIsCounted(games[..k], e);
      assert WhiteIn(games, e) == WhiteIn(games[..k], e) + if games[k].white == e then {k} else {};
      assert BlackIn(games, e) == BlackIn(games[..k], e) + if games[k].black == e then {k} else {};
    }
  }

  lemma {:induction false} LatestOfFront(games: seq<Colours.Seating>, e: Engine, white: bool)
    requires games != [] && Seats(games)
    ensures var k := |games| - 1;
            && (Plays(games[k], e) ==>
                  && (OneBefore(games, e, white) <==> HadColour(games[k], e, white))
                  && (TwoBefore(games, e, white) <==> HadColour(games[k], e, white) && OneBefore(games[..k], e, white)))
            && (!Plays(games[k], e) ==>
                  && (OneBefore(games, e, white) <==> OneBefore(games[..k], e, white))
                  && (TwoBefore(games, e, white) <==> TwoBefore(games[..k], e, white)))
  {
    var k := |games| - 1;
    var front := games[..k];
    if Plays(games[k], e) {
      assert LatestAt(games, e, k);
    } else {
      forall j: nat ensures LatestAt(games, e, j) <==> LatestAt(front, e, j) {
      }
      forall j: nat | LatestAt(games, e, j) ensures games[..j] == front[..j] && games[j] == front[j] {
      }
    }
  }

  lemma {:induction false} OneColourMore(history: seq<bool>, latest: bool, colour: bool)
    ensures Colours.LastWere(history + [latest], colour, 1) <==> latest == colour
    ensures Colours.LastWere(history + [latest], colour, 2) <==> latest == colour && Colours.LastWere(history, colour, 1)
  {
    var longer := history + [latest];
    assert longer[|longer| - 1] == latest;
    if |history| > 0 {
      assert longer[|longer| - 2] == history[|history| - 1];
    }
  }

  /** The history of colours tells the latest one and two games. */
  lemma {:induction false} HistoryTellsLatest(games: seq<Colours.Seating>, e: Engine, white: bool)
    requires Seats(games)
    ensures Colours.LastWere(Colours.History(e, games), white, 1) <==> OneBefore(games, e, white)
    ensures Colours.LastWere(Colours.History(e, games), white, 2) <==> TwoBefore(games, e, white)
    decreases |games|
  {
    hide OneBefore, TwoBefore;
    if games == [] {
      NobodyPlayed(e, white);
    } else {
      var k := |games| - 1;
      HistoryTellsLatest(games[..k], e, white);
      LatestOfFront(games, e, white);
      var before := Colours.History(e, games[..k]);
      if Plays(games[k], e) {
        OneColourMore(before, games[k].white == e, white);
        assert Colours.History(e, games) == before + [games[k].white == e];
      } else {
        assert Colours.History(e, games) == before;
      }
    }
  }

  lemma {:induction false} NobodyPlayed(e: Engine, white: bool)
    ensures !OneBefore([], e, white) && !TwoBefore([], e, white)
  {
  }

  lemma {:induction false} CostIsBurden(games: seq<Colours.Seating>, e: Engine, white: bool)
    requires Seats(games)
    ensures Colours.SideCost(Colours.Balance(e, games), Colours.History(e, games), white) == Burden(games, e, white)
  {
    hide OneBefore, TwoBefore, Colours.LastWere;
    BalanceIsCounted(games, e);
    HistoryTellsLatest(games, e, white);
  }

  /** The two engines are seated the way that burdens them less; the listed way when both burden them alike. */
  lemma {:induction false} ColoursBurdenLeast(first: Engine, second: Engine, games: seq<Colours.Seating>)
    requires Seats(games)
    ensures var listed := Burden(games, first, true) + Burden(games, second, false);
            var swapped := Burden(games, second, true) + Burden(games, first, false);
            Colours.Colours(first, second, games) == if swapped < listed then (second, first) else (first, second)
  {
    hide Burden, Colours.SideCost;
    CostIsBurden(games, first, true);
    CostIsBurden(games, first, false);
    CostIsBurden(games, second, true);
    CostIsBurden(games, second, false);
  }
}
