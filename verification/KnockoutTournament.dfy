/**
 The knockout tournament as the runner drives it (cope/runner/scheduler.py): results arrive,
 advancing resolves matches, appends tiebreak games and draws the next round.
 */
module KnockoutTournament {
  import opened Common
  import opened Bracket
  import opened Knockout
  import opened KnockoutRun

  // ---------------------------------------------------------------- counting games

  function TotalGames(rounds: seq<seq<Match>>): nat
  {
    if rounds == [] then 0 else TotalGames(rounds[..|rounds| - 1]) + GamesIn(rounds[|rounds| - 1])
  }

  // ---------------------------------------------------------------- facts about the last round

  lemma {:induction false} LastEntrants(participants: seq<Engine>, rounds: seq<seq<Match>>)
    requires rounds != []
    ensures EntrantsOf(participants, rounds, |rounds|) == Winners(Last(rounds))
  {
  }

  lemma {:induction false} NextRoundIsHalf(participants: seq<Engine>, options: Options, rounds: seq<seq<Match>>)
    requires KnockoutInv(participants, options, rounds) && rounds != [] && Done(Last(rounds)) && |Last(rounds)| != 1
    ensures |NextRound(participants, options, rounds)| < |Last(rounds)|
  {
    hide RoundOk, NextRound, Distinct, Done;
    assert RoundAt(participants, options, rounds, |rounds| - 1);
    MoreThanOneMatchLeft(participants, options, rounds);
    NextRoundOk(participants, options, rounds);
  }

  lemma {:induction false} LastRowsDiffer(participants: seq<Engine>, options: Options, rounds: seq<seq<Match>>)
    requires KnockoutInv(participants, options, rounds) && rounds != []
    ensures forall i :: 0 <= i < |Last(rounds)| ==> Last(rounds)[i].engine2 != Some(Last(rounds)[i].engine1)
  {
    hide Numbered, Seated, DistinctEntrants, EntrantsOf, Distinct, Done, ExtraCount, AllDecided;
    assert RoundAt(participants, options, rounds, |rounds| - 1);
  }

  /** Nothing to resolve, and something to wait for. */
  ghost predicate Fresh(rows: seq<Match>, options: Options)
  {
    StepRound(rows, options) == rows && !Done(rows)
  }

  lemma {:induction false} FirstRoundOpen(participants: seq<Engine>, options: Options)
    requires KnockoutInv(participants, options, [])
    ensures Fresh(NextRound(participants, options, []), options)
  {
    hide StepRound, NextRound, Done;
    TwoNeedARound(|participants|);
    NextRoundWaits(participants, options, []);
  }

  /** Results only ever arrive for matches of the current round that are still open. */
  lemma {:induction false} ResultKeepsInv(
    participants: seq<Engine>, options: Options, rounds: seq<seq<Match>>, i: nat, j: nat, result: Result)
    requires KnockoutInv(participants, options, rounds) && rounds != [] && i < |Last(rounds)|
    requires j < |Last(rounds)[i].games| && Last(rounds)[i].games[j].result.None?
    ensures KnockoutInv(participants, options,
                        rounds[..|rounds| - 1] + [Last(rounds)[i := WithResult(Last(rounds)[i], j, result)]])
  {
    hide RoundOk, Distinct, Done, WithResult, EntrantsOf;
    var r := |rounds| - 1;
    assert RoundAt(participants, options, rounds, r);
    hide KnockoutInv, RoundAt;
    ResultKeepsRound(rounds[r], EntrantsOf(participants, rounds, r), options, i, j, result);
    LastRoundKeepsInv(participants, options, rounds, rounds[r][i := WithResult(rounds[r][i], j, result)]);
  }

  /** An open game belongs to a match of the current round: earlier rounds are closed for good. */
  lemma {:induction false} OpenGamesAreInTheLastRound(
    participants: seq<Engine>, options: Options, rounds: seq<seq<Match>>, r: nat, i: nat, j: nat)
    requires KnockoutInv(participants, options, rounds) && r < |rounds| && i < |rounds[r]| && j < |rounds[r][i].games|
    requires rounds[r][i].games[j].result.None?
    ensures r == |rounds| - 1 && rounds[r][i].status == Pending
  {
    hide Numbered, Seated, DistinctEntrants, EntrantsOf, Distinct, ExtraCount;
    assert RoundAt(participants, options, rounds, r);
  }

  // ---------------------------------------------------------------- the tournament

  class KnockoutTournament {
    const participants: seq<Engine>
    const options: Options
    var rounds: seq<seq<Match>>

    ghost predicate Valid()
      reads this
    {
      KnockoutInv(participants, options, rounds)
    }

    constructor (participants: seq<Engine>, options: Options)
      requires Distinct(participants) && |participants| >= 2 && options.gamesPerMatch >= 1
      ensures Valid() && this.participants == participants && this.options == options && rounds == []
    {
      this.participants := participants;
      this.options := options;
      rounds := [];
    }

    /** generate_knockout_first_round */
    method GenerateFirstRound() returns (createdGames: nat)
      requires Valid() && rounds == []
      modifies this
      ensures Valid() && rounds == [NextRound(participants, options, [])]
      ensures createdGames == GamesIn(rounds[0])
    {
      hide RoundAt, Seeded, RoundRows, Distinct;
      TwoNeedARound(|participants|);
      NextRoundKeepsInv(participants, options, rounds);
      var seeded := SeedBracket(participants);
      var rows;
      rows, createdGames := CreateRound(seeded, options);
      assert rounds + [rows] == [rows];
      rounds := [rows];
    }

    /** The loop over the matches of the current round. */
    static method ResolveRound(rows: seq<Match>, options: Options) returns (after: seq<Match>, waiting: bool, createdGames: nat)
      requires forall i :: 0 <= i < |rows| ==> rows[i].engine2 != Some(rows[i].engine1)
      ensures after == StepRound(rows, options)
      ensures waiting == !Done(after)
      ensures GamesIn(after) == GamesIn(rows) + createdGames
    {
      hide StepMatch, FirstArmageddon, ExtraCount, MatchScore, NextGames;
      after, waiting, createdGames := [], false, 0;
      for i := 0 to |rows|
        invariant |after| == i && forall k :: 0 <= k < i ==> after[k] == StepMatch(rows[k], options)
        invariant waiting == exists k :: 0 <= k < i && after[k].status == Pending
        invariant GamesIn(after) == GamesIn(rows[..i]) + createdGames
      {
        var row, created := ResolveMatch(rows[i], options);
        assert rows[..i + 1][..i] == rows[..i];
        GamesAppend(after, row);
        waiting := waiting || row.status == Pending;
        createdGames := createdGames + created;
        after := after + [row];
      }
      assert rows[..|rows|] == rows;
    }

    /** What the loop does to one match: nothing, a winner, or tiebreak games. */
    static method ResolveMatch(m: Match, options: Options) returns (after: Match, createdGames: nat)
      requires m.engine2 != Some(m.engine1)
      ensures after == StepMatch(m, options) && |after.games| == |m.games| + createdGames
    {
      hide FirstArmageddon, ExtraCount, NextGames;
      after, createdGames := m, 0;
      if m.status != Pending || m.engine2.None? || m.games == [] || !AllDecided(m.games) {
        return;
      }
      var engine1, engine2 := m.engine1, m.engine2.value;
      var armageddon := FirstArmageddon(m.games);
      if armageddon.Some? {
        var winner := GameWinner(armageddon.value);
        after := m.(status := Finished, winner := if winner.None? then Some(armageddon.value.black) else winner);
        return;
      }
      var first, second := MatchPoints(engine1, engine2, m.games);
      var baseComplete := |m.games| >= options.gamesPerMatch;
      var extraComplete := ExtraCount(m.games) % 2 == 0;
      if baseComplete && extraComplete && first != second {
        after := m.(status := Finished, winner := Some(if first > second then engine1 else engine2));
      } else if baseComplete && extraComplete {
        createdGames := if options.armageddon then 1 else 2;
        var kind := if options.armageddon then Armageddon else ExtraPair;
        after := m.(games := m.games + NextGames(engine1, engine2, |m.games| + 1, createdGames, kind));
      } else {
        assert m.games + [] == m.games;
      }
    }

    method DrawNextRound() returns (createdGames: nat)
      requires Valid() && rounds != [] && Done(Last(rounds)) && |Last(rounds)| != 1
      modifies this
      ensures Valid() && rounds == old(rounds) + [NextRound(participants, options, old(rounds))]
      ensures |Last(rounds)| < |Last(old(rounds))| && Fresh(Last(rounds), options)
      ensures TotalGames(rounds) == TotalGames(old(rounds)) + createdGames
    {
      hide RoundAt, RoundRows, Distinct, Done, Depth, Pow2, EntrantsOf, KnockoutInv;
      MoreThanOneMatchLeft(participants, options, rounds);
      NextRoundKeepsInv(participants, options, rounds);
      NextRoundIsHalf(participants, options, rounds);
      NextRoundWaits(participants, options, rounds);
      var winners := Winners(Last(rounds));
      var rows;
      rows, createdGames := CreateRound(winners, options);
      assert EntrantsOf(participants, rounds, |rounds|) == winners by {
        LastEntrants(participants, rounds);
      }
      rounds := rounds + [rows];
    }

    /** The first half of the loop body: the current round takes the results of its matches. */
    method SettleRound() returns (waiting: bool, createdGames: nat)
      requires Valid() && rounds != []
      modifies this
      ensures Valid() && rounds == Settled(old(rounds), options)
      ensures waiting == !Done(Last(rounds)) && TotalGames(rounds) == TotalGames(old(rounds)) + createdGames
    {
      hide RoundAt, KnockoutInv, StepRound, Done;
      SettledKeepsInv(participants, options, rounds);
      LastRowsDiffer(participants, options, rounds);
      var earlier := rounds[..|rounds| - 1];
      var rows;
      rows, waiting, createdGames := ResolveRound(Last(rounds), options);
      rounds := earlier + [rows];
    }

    /** _advance_knockout */
    method Advance() returns (createdGames: nat, complete: bool)
      requires Valid()
      modifies this
      ensures Valid() && rounds == Advanced(participants, options, old(rounds))
      ensures complete == Complete(rounds)
      ensures TotalGames(rounds) == TotalGames(old(rounds)) + createdGames
    {
      hide KnockoutInv, StepRound, NextRound, Done;
      createdGames := 0;
      if rounds == [] {
        createdGames := GenerateFirstRound();
        FirstRoundOpen(participants, options);
        assert TotalGames(rounds) == createdGames by {
          assert [] + [rounds[0]] == rounds;
        }
        return createdGames, false;
      }
      ghost var start := rounds;
      while true
        invariant Valid() && rounds != []
        invariant rounds == start || (rounds == Advanced(participants, options, start) && Fresh(Last(rounds), options))
        invariant TotalGames(rounds) == TotalGames(start) + createdGames
        decreases |Last(rounds)|
      {
        var waiting, added := SettleRound();
        createdGames := createdGames + added;
        if waiting {
          return createdGames, false;
        }
        if |Last(rounds)| == 1 {
          return createdGames, true;
        }
        added := DrawNextRound();
        createdGames := createdGames + added;
      }
    }

    /** A result arrives for a game that had none. */
    method RecordResult(i: nat, j: nat, result: Result)
      requires Valid() && rounds != [] && i < |Last(rounds)|
      requires j < |Last(rounds)[i].games| && Last(rounds)[i].games[j].result.None?
      modifies this
      ensures Valid()
      ensures rounds == old(rounds[..|rounds| - 1] + [Last(rounds)[i := WithResult(Last(rounds)[i], j, result)]])
    {
      hide KnockoutInv;
      ResultKeepsInv(participants, options, rounds, i, j, result);
      var row := Last(rounds)[i];
      row := row.(games := row.games[j := row.games[j].(result := Some(result))]);
      rounds := rounds[..|rounds| - 1] + [Last(rounds)[i := row]];
    }
  }
}
