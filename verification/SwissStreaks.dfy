/** Colour streaks over whole Swiss runs (cope/runner/scheduler.py). */
module SwissStreaks {
  import opened Common
  import opened SwissRun
  import Colours = SwissColours

  /** Where the games of a round begin. */
  function FirstOfRound(games: seq<Game>, round: nat): (i: nat)
    ensures i <= |games| && (i < |games| ==> games[i].round == round)
    ensures forall k :: 0 <= k < i ==> games[k].round != round
  {
    if games == [] || games[0].round == round then 0 else 1 + FirstOfRound(games[1..], round)
  }

  /** Who comes off two games with a colour gets it again only against somebody who does, too. */
  ghost predicate ThirdOnlyAgainstStreak(before: seq<Game>, white: Engine, black: Engine)
  {
    var played := Seatings(before);
    && (Colours.LastWere(Colours.History(white, played), true, 2) ==> Colours.LastWere(Colours.History(black, played), true, 2))
    && (Colours.LastWere(Colours.History(black, played), false, 2) ==> Colours.LastWere(Colours.History(white, played), false, 2))
  }

  ghost predicate StreakRuleAt(games: seq<Game>, k: nat)
    requires k < |games|
  {
    ThirdOnlyAgainstStreak(games[..FirstOfRound(games, games[k].round)], games[k].white, games[k].black)
  }

  /** The rule holds for every game, seen from the rounds before its own. */
  ghost predicate StreaksOk(games: seq<Game>, lastRound: nat)
  {
    && (forall k :: 0 <= k < |games| ==> games[k].round <= lastRound)
    && forall k :: 0 <= k < |games| ==> StreakRuleAt(games, k)
  }

  lemma {:induction false} FirstInLonger(games: seq<Game>, more: seq<Game>, round: nat)
    ensures FirstOfRound(games, round) < |games| ==> FirstOfRound(games + more, round) == FirstOfRound(games, round)
  {
    var i, j := FirstOfRound(games, round), FirstOfRound(games + more, round);
    if i < |games| {
      assert (games + more)[i] == games[i];
      assert j < |games| ==> (games + more)[j] == games[j];
    }
  }

  lemma {:induction false} OldRulesStay(games: seq<Game>, more: seq<Game>, k: nat)
    requires k < |games| && StreakRuleAt(games, k)
    ensures StreakRuleAt(games + more, k)
  {
    hide ThirdOnlyAgainstStreak;
    var round := games[k].round;
    var i := FirstOfRound(games, round);
    assert i < |games|;
    FirstInLonger(games, more, round);
    assert (games + more)[..i] == games[..i];
  }

  lemma {:induction false} NewGameFollowsRule(before: seq<Game>, first: Engine, second: Engine)
    requires first != second
    ensures var (white, black) := Colours.Colours(first, second, Seatings(before));
            ThirdOnlyAgainstStreak(before, white, black)
  {
    hide Colours.LastWere, Colours.History, Seatings;
    var played := Seatings(before);
    var (white, black) := Colours.Colours(first, second, played);
    if Colours.LastWere(Colours.History(white, played), true, 2) {
      Colours.ThirdInARowOnlyAgainstSameStreak(first, second, played, white, true);
    }
    if Colours.LastWere(Colours.History(black, played), false, 2) {
      Colours.ThirdInARowOnlyAgainstSameStreak(first, second, played, black, false);
    }
  }

  lemma {:induction false} NewRulesHold(games: seq<Game>, pairs: seq<(Engine, Engine)>, round: nat, firstMatch: nat, i: nat)
    requires i < |pairs| && pairs[i].0 != pairs[i].1 && forall k :: 0 <= k < |games| ==> games[k].round != round
    ensures StreakRuleAt(games + PlanGames(pairs, round, firstMatch, games), |games| + i)
  {
    hide ThirdOnlyAgainstStreak, Colours.Colours;
    var after := games + PlanGames(pairs, round, firstMatch, games);
    NewGameFollowsRule(games, pairs[i].0, pairs[i].1);
    var j := FirstOfRound(after, round);
    assert after[|games| + i].round == round;
    assert after[|games|].round == round;
    assert forall k :: 0 <= k < |games| ==> after[k] == games[k];
    assert j == |games|;
    assert after[..j] == games;
  }

  /** A round drawn by the colour rule keeps it over the whole table. */
  lemma {:induction false} PlanKeepsStreaks(games: seq<Game>, pairs: seq<(Engine, Engine)>, round: nat, firstMatch: nat)
    requires round > 0 && StreaksOk(games, round - 1) && forall i :: 0 <= i < |pairs| ==> pairs[i].0 != pairs[i].1
    ensures StreaksOk(games + PlanGames(pairs, round, firstMatch, games), round)
  {
    hide StreakRuleAt, Colours.Colours;
    var rows := PlanGames(pairs, round, firstMatch, games);
    var after := games + rows;
    forall k | 0 <= k < |after| ensures after[k].round <= round && StreakRuleAt(after, k) {
      if k < |games| {
        OldRulesStay(games, rows, k);
      } else {
        assert after[k] == rows[k - |games|];
        NewRulesHold(games, pairs, round, firstMatch, k - |games|);
      }
    }
  }

  /** Results do not touch the colours. */
  lemma {:induction false} ResultsKeepStreaks(games: seq<Game>, after: seq<Game>, lastRound: nat)
    requires StreaksOk(games, lastRound) && |after| == |games|
    requires forall k :: 0 <= k < |games| ==>
               after[k].round == games[k].round && after[k].white == games[k].white && after[k].black == games[k].black
    ensures StreaksOk(after, lastRound)
  {
    hide ThirdOnlyAgainstStreak;
    forall k | 0 <= k < |after| ensures StreakRuleAt(after, k) {
      assert StreakRuleAt(games, k);
      var i, j := FirstOfRound(games, games[k].round), FirstOfRound(after, games[k].round);
      assert i == j by {
        SameFirst(games, after, games[k].round);
      }
      SameColours(games[..i], after[..i], games[k].white, games[k].black);
    }
  }

  lemma {:induction false} SameFirst(games: seq<Game>, after: seq<Game>, round: nat)
    requires |after| == |games| && forall k :: 0 <= k < |games| ==> after[k].round == games[k].round
    ensures FirstOfRound(after, round) == FirstOfRound(games, round)
  {
    var i, j := FirstOfRound(games, round), FirstOfRound(after, round);
    assert i < |games| ==> games[i].round == round;
    assert j < |games| ==> after[j].round == round;
  }

  lemma {:induction false} SameColours(before: seq<Game>, after: seq<Game>, white: Engine, black: Engine)
    requires |after| == |before|
    requires forall k :: 0 <= k < |before| ==> after[k].white == before[k].white && after[k].black == before[k].black
    ensures ThirdOnlyAgainstStreak(before, white, black) ==> ThirdOnlyAgainstStreak(after, white, black)
  {
    assert Seatings(before) == Seatings(after);
  }
}
