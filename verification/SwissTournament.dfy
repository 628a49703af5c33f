/**
 A running Swiss tournament (cope/runner/scheduler.py): its two tables, the generation of a
 round, the results that arrive from outside, and the advance step.
 */
module SwissTournament {
  import opened Common
  import opened SwissRun
  import opened SwissAccounting
  import opened SwissStreaks

  // ---------------------------------------------------------------- games and their matches

  ghost predicate LinksTo(g: Game, m: Match)
  {
    && g.round == m.round && m.engine2.Some?
    && ((g.white == m.engine1 && g.black == m.engine2.value) || (g.white == m.engine2.value && g.black == m.engine1))
  }

  ghost predicate HasGame(games: seq<Game>, id: nat)
  {
    exists j :: 0 <= j < |games| && games[j].matchId == id
  }

  /** Every match that is not a bye has exactly one game, between its two engines. */
  ghost predicate Linked(games: seq<Game>, matches: seq<Match>)
  {
    && (forall j :: 0 <= j < |games| ==> games[j].matchId < |matches| && LinksTo(games[j], matches[games[j].matchId]))
    && (forall j, k :: 0 <= j < k < |games| ==> games[j].matchId != games[k].matchId)
    && (forall i :: 0 <= i < |matches| && matches[i].engine2.Some? ==> HasGame(games, i))
  }

  lemma {:induction false} PlanKeepsLinks(games: seq<Game>, matches: seq<Match>, plan: Plan, round: nat)
    requires Linked(games, matches)
    ensures Linked(games + PlanGames(plan.pairs, round, |matches|, games), matches + PlanMatches(plan, round))
  {
    var newGames, newMatches := PlanGames(plan.pairs, round, |matches|, games), PlanMatches(plan, round);
    var games2, matches2 := games + newGames, matches + newMatches;
    forall j | 0 <= j < |games2|
      ensures games2[j].matchId < |matches2| && LinksTo(games2[j], matches2[games2[j].matchId])
    {
      if j < |games| {
        assert LinksTo(games[j], matches[games[j].matchId]);
      } else {
        var i := j - |games|;
        Colours.ColoursSeatBoth(plan.pairs[i].0, plan.pairs[i].1, Seatings(games));
        assert games2[j] == newGames[i] && matches2[|matches| + i] == newMatches[i];
      }
    }
    forall i | 0 <= i < |matches2| && matches2[i].engine2.Some? ensures HasGame(games2, i) {
      if i < |matches| {
        assert HasGame(games, i);
        var j :| 0 <= j < |games| && games[j].matchId == i;
        assert games2[j].matchId == i;
      } else {
        assert i - |matches| < |plan.pairs|;
        assert games2[|games| + (i - |matches|)].matchId == i;
      }
    }
  }

  lemma {:induction false} PlanPairsDiffer(
    participants: seq<Engine>, games: seq<Game>, matches: seq<Match>, plan: Plan, round: nat)
    requires SwissInv(participants, games, matches) && plan == PlanRound(participants, games, matches, round)
    ensures forall i :: 0 <= i < |plan.pairs| ==> plan.pairs[i].0 != plan.pairs[i].1
  {
    hide PlanRound, PlayedBy, ByesAreFair, RoundsCoverField;
    PlanRoundCoversField(participants, games, matches, round);
    PlanSeatsParticipants(participants, plan);
  }

  // ---------------------------------------------------------------- finishing a round

  /** The first game row of a match. */
  function GameOf(games: seq<Game>, id: nat): (r: Option<Game>)
    ensures r.Some? ==> r.value in games && r.value.matchId == id
    ensures r.None? <==> !HasGame(games, id)
  {
    if games == [] then None
    else if games[0].matchId == id then Some(games[0])
    else
      var r := GameOf(games[1..], id);
      assert forall j :: 0 <= j < |games| - 1 ==> games[1..][j] == games[j + 1];
      r
  }

  function WinnerOf(g: Game): Option<Engine>
  {
    match g.result
    case Some(WhiteWins) => Some(g.white)
    case Some(BlackWins) => Some(g.black)
    case _ => None
  }

  function Finish(m: Match, games: seq<Game>, id: nat, round: nat): Match
  {
    var game := GameOf(games, id);
    if m.round == round && m.status == Pending && game.Some?
    then m.(status := Finished, winner := WinnerOf(game.value)) else m
  }

  /** The match table after every pending match of the round took the result of its game. */
  function FinishRound(matches: seq<Match>, games: seq<Game>, round: nat): (after: seq<Match>)
    ensures |after| == |matches|
  {
    seq(|matches|, i requires 0 <= i < |matches| => Finish(matches[i], games, i, round))
  }

  /** Some game of the round is still to be played. */
  predicate Waiting(games: seq<Game>, round: nat)
  {
    exists j :: 0 <= j < |games| && games[j].round == round && games[j].result.None?
  }

  /** The rows agree on everything that scores, byes and pairings read. */
  ghost predicate SameSkeleton(xs: seq<Match>, ys: seq<Match>)
  {
    && |xs| == |ys|
    && forall i :: 0 <= i < |xs| ==>
         && xs[i].round == ys[i].round && xs[i].engine1 == ys[i].engine1 && xs[i].engine2 == ys[i].engine2
         && (xs[i].status == Bye <==> ys[i].status == Bye)
  }

  lemma {:induction false} SkeletonKeepsScores(xs: seq<Match>, ys: seq<Match>, r: nat)
    requires SameSkeleton(xs, ys)
    ensures EnginesOfRound(xs, r) == EnginesOfRound(ys, r) && ByeCount(xs) == ByeCount(ys) && LastRound(xs) == LastRound(ys)
  {
    if xs != [] {
      SkeletonKeepsScores(xs[..|xs| - 1], ys[..|ys| - 1], r);
    }
  }

  lemma {:induction false} SkeletonKeepsByeSet(xs: seq<Match>, ys: seq<Match>, i: nat)
    requires SameSkeleton(xs, ys) && i <= |xs|
    ensures ByeSet(xs[..i]) == ByeSet(ys[..i])
  {
    forall e | e in ByeSet(xs[..i]) ensures e in ByeSet(ys[..i]) {
      var k :| 0 <= k < i && xs[k].status == Bye && xs[k].engine2 == None && xs[k].engine1 == e;
      assert ys[..i][k] == ys[k];
    }
    forall e | e in ByeSet(ys[..i]) ensures e in ByeSet(xs[..i]) {
      var k :| 0 <= k < i && ys[k].status == Bye && ys[k].engine2 == None && ys[k].engine1 == e;
      assert xs[..i][k] == xs[k];
    }
  }

  /** Taking results into the match table keeps every invariant. */
  lemma {:induction false} SkeletonKeepsInv(participants: seq<Engine>, games: seq<Game>, xs: seq<Match>, ys: seq<Match>)
    requires SwissInv(participants, games, xs) && Linked(games, xs) && SameSkeleton(xs, ys)
    ensures SwissInv(participants, games, ys) && Linked(games, ys) && LastRound(ys) == LastRound(xs)
  {
    SkeletonKeepsScores(xs, ys, 0);
    forall r | 1 <= r <= LastRound(ys) ensures multiset(EnginesOfRound(ys, r)) == multiset(participants) {
      SkeletonKeepsScores(xs, ys, r);
    }
    forall i | 0 <= i < |ys| ensures ByeSet(xs[..i]) == ByeSet(ys[..i]) {
      SkeletonKeepsByeSet(xs, ys, i);
    }
    assert ByesAreFair(participants, ys);
    assert Linked(games, ys);
  }

  lemma {:induction false} FinishRoundSkeleton(matches: seq<Match>, games: seq<Game>, round: nat)
    ensures SameSkeleton(matches, FinishRound(matches, games, round))
  {
  }

  ghost predicate TakesResultOf(m: Match, g: Game, id: nat)
  {
    g.matchId == id && g.result.Some? && m.winner == WinnerOf(g)
  }

  /** No match of the round is left pending once all its games are decided. */
  lemma {:induction false} SettledRoundHasNoPending(matches: seq<Match>, games: seq<Game>, i: nat)
    requires Linked(games, matches) && i < |matches| && matches[i].engine2.Some?
    requires !Waiting(games, matches[i].round)
    ensures var after := FinishRound(matches, games, matches[i].round)[i];
            && after.status != Pending
            && (matches[i].status == Pending ==> exists j :: 0 <= j < |games| && TakesResultOf(after, games[j], i))
  {
    hide WinnerOf;
    assert HasGame(games, i);
    var game := GameOf(games, i).value;
    var j :| 0 <= j < |games| && games[j] == game;
    assert LinksTo(games[j], matches[i]);
  }

  // ---------------------------------------------------------------- the advance step

  /** The two tables of a tournament. */
  datatype Tables = Tables(games: seq<Game>, matches: seq<Match>)

  /** generate_swiss_round: the planned rows, or nothing outside 1..rounds. */
  function Generated(participants: seq<Engine>, rounds: nat, t: Tables, round: nat): Tables
  {
    if round < 1 || round > rounds then t
    else
      var plan := PlanRound(participants, t.games, t.matches, round);
      Tables(t.games + PlanGames(plan.pairs, round, |t.matches|, t.games), t.matches + PlanMatches(plan, round))
  }

  function Settled(t: Tables): Tables
  {
    t.(matches := FinishRound(t.matches, t.games, LastRound(t.matches)))
  }

  /** _advance_swiss: the first round, nothing while a game is open, otherwise settle and draw the next round if there is one. */
  function Advanced(participants: seq<Engine>, rounds: nat, t: Tables): Tables
  {
    var round := LastRound(t.matches);
    if t.matches == [] then Generated(participants, rounds, t, 1)
    else if Waiting(t.games, round) then t
    else if round >= rounds then Settled(t)
    else Generated(participants, rounds, Settled(t), round + 1)
  }

  /** The answer of the advance step. */
  predicate Complete(rounds: nat, t: Tables)
  {
    t.matches != [] && !Waiting(t.games, LastRound(t.matches)) && LastRound(t.matches) >= rounds
  }

  ghost predicate InOrder(participants: seq<Engine>, t: Tables)
  {
    SwissInv(participants, t.games, t.matches) && Linked(t.games, t.matches)
  }

  lemma {:induction false} SettledKeepsOrder(participants: seq<Engine>, t: Tables)
    requires InOrder(participants, t)
    ensures InOrder(participants, Settled(t)) && LastRound(Settled(t).matches) == LastRound(t.matches)
  {
    hide SwissInv, Linked, FinishRound, SameSkeleton;
    FinishRoundSkeleton(t.matches, t.games, LastRound(t.matches));
    SkeletonKeepsInv(participants, t.games, t.matches, Settled(t).matches);
  }

  lemma {:induction false} FieldMakesAPair(participants: seq<Engine>, t: Tables)
    requires InOrder(participants, t)
    ensures |participants| / 2 >= 1
  {
  }

  /** A round that has just been drawn has games to wait for. */
  lemma {:induction false} NewRoundWaits(participants: seq<Engine>, rounds: nat, t: Tables)
    requires InOrder(participants, t) && LastRound(t.matches) + 1 <= rounds
    ensures var after := Generated(participants, rounds, t, LastRound(t.matches) + 1);
            after.matches != [] && LastRound(after.matches) == LastRound(t.matches) + 1
            && Waiting(after.games, LastRound(after.matches))
  {
    hide SwissInv, Linked, PlanRound, LastRound, Colours.Colours;
    var round := LastRound(t.matches) + 1;
    var plan := PlanRound(participants, t.games, t.matches, round);
    FieldMakesAPair(participants, t);
    NextRoundKeepsInv(participants, t.games, t.matches, plan, round);
    var games := t.games + PlanGames(plan.pairs, round, |t.matches|, t.games);
    assert games[|t.games|].round == round && games[|t.games|].result.None?;
  }

  lemma {:induction false} SettledTwice(t: Tables)
    requires LastRound(Settled(t).matches) == LastRound(t.matches)
    ensures Settled(Settled(t)) == Settled(t)
  {
    hide GameOf, WinnerOf, LastRound;
  }

  /** Advancing again with no new result changes nothing, wherever the tournament stands. */
  lemma {:induction false} AdvancingAgainIsHarmless(participants: seq<Engine>, rounds: nat, t: Tables)
    requires InOrder(participants, t)
    ensures var once := Advanced(participants, rounds, t);
            Advanced(participants, rounds, once) == once
  {
    hide InOrder, Generated, Waiting, Settled;
    if t.matches == [] {
      if rounds >= 1 {
        NewRoundWaits(participants, rounds, t);
      } else {
        NoRounds(participants, t);
      }
    } else if !Waiting(t.games, LastRound(t.matches)) {
      SettledKeepsOrder(participants, t);
      SettledFacts(t);
      if LastRound(t.matches) >= rounds {
        SettledTwice(t);
      } else {
        NewRoundWaits(participants, rounds, Settled(t));
      }
    }
  }

  lemma {:induction false} NoRounds(participants: seq<Engine>, t: Tables)
    ensures Generated(participants, 0, t, 1) == t
  {
  }

  lemma {:induction false} SettledFacts(t: Tables)
    ensures Settled(t).games == t.games && |Settled(t).matches| == |t.matches|
  {
  }

  // ---------------------------------------------------------------- results

  /** Recording the result of one unplayed game. */
  function WithResult(games: seq<Game>, j: nat, result: Result): (after: seq<Game>)
    requires j < |games|
  {
    games[j := games[j].(result := Some(result))]
  }

  lemma {:induction false} ResultKeepsInv(
    participants: seq<Engine>, games: seq<Game>, matches: seq<Match>, j: nat, result: Result)
    requires SwissInv(participants, games, matches) && Linked(games, matches) && j < |games|
    ensures SwissInv(participants, WithResult(games, j, result), matches)
    ensures Linked(WithResult(games, j, result), matches)
  {
    hide ByesAreFair, RoundsCoverField, ByeRowsAreByes, Distinct;
    var after := WithResult(games, j, result);
    forall i | 0 <= i < |matches| && matches[i].engine2.Some? ensures HasGame(after, i) {
      assert HasGame(games, i);
      var k :| 0 <= k < |games| && games[k].matchId == i;
      assert after[k].matchId == i;
    }
  }

  // ---------------------------------------------------------------- the tournament

  class SwissTournament {
    const participants: seq<Engine>
    const rounds: nat
    var games: seq<Game>
    var matches: seq<Match>

    ghost function View(): Tables
      reads this
    {
      Tables(games, matches)
    }

    ghost predicate Valid()
      reads this
    {
      SwissInv(participants, games, matches) && Linked(games, matches) && StreaksOk(games, LastRound(matches))
    }

    constructor (participants: seq<Engine>, rounds: nat)
      requires Distinct(participants) && |participants| >= 2
      ensures Valid() && this.participants == participants && this.rounds == rounds
      ensures games == [] && matches == []
    {
      this.participants := participants;
      this.rounds := rounds;
      games := [];
      matches := [];
    }

    /** generate_swiss_round: nothing outside 1..rounds, otherwise the planned rows. */
    method GenerateRound(roundNumber: nat) returns (createdGames: nat)
      requires Valid() && roundNumber == LastRound(matches) + 1
      modifies this
      ensures Valid() && View() == Generated(participants, rounds, old(View()), roundNumber)
      ensures createdGames == |games| - |old(games)| == if roundNumber > rounds then 0 else |participants| / 2
    {
      if roundNumber < 1 || roundNumber > rounds {
        return 0;
      }
      var plan := MakePlan(roundNumber);
      createdGames := AppendPlan(plan, roundNumber);
    }

    /** Scores, ranking, bye and pairings of the next round. */
    method MakePlan(roundNumber: nat) returns (plan: Plan)
      requires Valid()
      ensures plan == PlanRound(participants, games, matches, roundNumber)
    {
      assert PlayedBy(participants, games, matches);
      hide SwissInv, Linked, StreaksOk, PlayedBy, PointsTable, RankedBy, RankKeys, Opponents, ByeSet, PlanFor;
      var points := SwissPoints(participants, games, matches);
      var ranked := RankedBy(RankKeys(participants, games, points), participants);
      var opponents := OpponentHistory(games);
      plan := PlanFor(ranked, roundNumber, points, opponents, ByeSet(matches));
    }

    /** The insertion loop: one match and one game per pair, then the bye. */
    method AppendPlan(plan: Plan, roundNumber: nat) returns (createdGames: nat)
      requires Valid() && roundNumber == LastRound(matches) + 1
      requires plan == PlanRound(participants, games, matches, roundNumber)
      modifies this
      ensures Valid() && LastRound(matches) == roundNumber
      ensures createdGames == |participants| / 2 == |games| - |old(games)|
      ensures games == old(games) + PlanGames(plan.pairs, roundNumber, |old(matches)|, old(games))
      ensures matches == old(matches) + PlanMatches(plan, roundNumber)
    {
      hide SwissInv, Linked, PlanRound, PlanGames, PlanMatches, StreaksOk;
      PlanPairsDiffer(participants, games, matches, plan, roundNumber);
      PlanKeepsLinks(games, matches, plan, roundNumber);
      NextRoundKeepsInv(participants, games, matches, plan, roundNumber);
      PlanKeepsStreaks(games, plan.pairs, roundNumber, |matches|);
      InsertRows(plan, roundNumber);
      createdGames := |plan.pairs|;
    }

    method InsertRows(plan: Plan, roundNumber: nat)
      requires forall i :: 0 <= i < |plan.pairs| ==> plan.pairs[i].0 != plan.pairs[i].1
      modifies this
      ensures games == old(games) + PlanGames(plan.pairs, roundNumber, |old(matches)|, old(games))
      ensures matches == old(matches) + PlanMatches(plan, roundNumber)
    {
      hide Colours.Colours, SwissInv, Linked;
      var before := games;
      var firstMatch := |matches|;
      var gameRows: seq<Game> := [];
      var matchRows: seq<Match> := [];
      for i := 0 to |plan.pairs|
        invariant games == before == old(games) && matches == old(matches)
        invariant gameRows == PlanGames(plan.pairs, roundNumber, firstMatch, before)[..i]
        invariant matchRows == PairMatches(plan.pairs, roundNumber)[..i]
      {
        var (first, second) := plan.pairs[i];
        var white, black := Colours.SwissColours(first, second, Seatings(before));
        matchRows := matchRows + [Match(roundNumber, i + 1, first, Some(second), Pending, None)];
        gameRows := gameRows + [Game(roundNumber, i + 1, firstMatch + i, white, black, None)];
      }
      assert gameRows == PlanGames(plan.pairs, roundNumber, firstMatch, before);
      assert matchRows == PairMatches(plan.pairs, roundNumber);
      if plan.bye.Some? {
        matchRows := matchRows + [ByeMatch(plan.bye.value, roundNumber, |plan.pairs| + 1)];
      }
      games := games + gameRows;
      matches := matches + matchRows;
    }

    /** A result arrives for a game that had none. */
    method RecordResult(j: nat, result: Result)
      requires Valid() && j < |games| && games[j].result.None?
      modifies this
      ensures Valid() && games == WithResult(old(games), j, result) && matches == old(matches)
    {
      ResultKeepsInv(participants, games, matches, j, result);
      ResultsKeepStreaks(games, WithResult(games, j, result), LastRound(matches));
      hide SwissInv, Linked, StreaksOk;
      games := games[j := games[j].(result := Some(result))];
    }

    /** _advance_swiss */
    method Advance() returns (createdGames: nat, complete: bool)
      requires Valid()
      modifies this
      ensures Valid() && View() == Advanced(participants, rounds, old(View()))
      ensures complete == Complete(rounds, old(View()))
      ensures createdGames == |games| - |old(games)|
    {
      hide SwissInv, Linked, PlanRound, PlanGames, PlanMatches, FinishRound, StreaksOk;
      if matches == [] {
        createdGames := GenerateRound(1);
        return createdGames, false;
      }
      var currentRound := LastRound(matches);
      if Waiting(games, currentRound) {
        return 0, false;
      }
      FinishMatches(currentRound);
      if currentRound >= rounds {
        return 0, true;
      }
      createdGames := GenerateRound(currentRound + 1);
      complete := false;
    }

    /** Every pending match of the round takes the result of its game. */
    method FinishMatches(round: nat)
      requires Valid()
      modifies this`matches
      ensures Valid() && matches == FinishRound(old(matches), games, round) && LastRound(matches) == LastRound(old(matches))
    {
      hide SwissInv, Linked, FinishRound, SameSkeleton, StreaksOk;
      FinishRoundSkeleton(matches, games, round);
      SkeletonKeepsInv(participants, games, matches, FinishRound(matches, games, round));
      matches := Settle(matches, games, round);
    }

    static method Settle(matches: seq<Match>, games: seq<Game>, round: nat) returns (settled: seq<Match>)
      ensures settled == FinishRound(matches, games, round)
    {
      hide HasGame, WinnerOf;
      settled := [];
      for i := 0 to |matches|
        invariant |settled| == i
        invariant forall k :: 0 <= k < i ==> settled[k] == Finish(matches[k], games, k, round)
      {
        var row := matches[i];
        if row.round == round && row.status == Pending {
          var game := GameOf(games, i);
          if game.Some? {
            row := row.(status := Finished, winner := WinnerOf(game.value));
          }
        }
        settled := settled + [row];
      }
    }
  }
}
