/**
 A running knockout tournament (cope/runner/scheduler.py): the rounds played so far, the results
 that arrive from outside, and the advance step that resolves matches and draws the next round.
 */
module KnockoutRun {
  import opened Common
  import opened Bracket
  import opened Knockout

  // ---------------------------------------------------------------- the bracket so far

  function Winners(rows: seq<Match>): (entrants: seq<Option<Engine>>)
    ensures |entrants| == |rows|
  {
    seq(|rows|, i requires 0 <= i < |rows| => rows[i].winner)
  }

  /** Who enters round r + 1: the seeded field, then the winners of the round before. */
  function EntrantsOf(participants: seq<Engine>, rounds: seq<seq<Match>>, r: nat): seq<Option<Engine>>
    requires r <= |rounds|
  {
    if r == 0 then Seeded(participants, Depth(|participants|)) else Winners(rounds[r - 1])
  }

  /** The row is the match of these two entrants, or the bye of the only one. */
  ghost predicate Seated(m: Match, first: Option<Engine>, second: Option<Engine>)
  {
    if first.Some? && second.Some? then m.status != Bye && m.engine1 == first.value && m.engine2 == second
    else m.status == Bye && Some(m.engine1) == if first.Some? then first else second
  }

  ghost predicate RoundOk(rows: seq<Match>, entrants: seq<Option<Engine>>, options: Options)
  {
    && |entrants| == 2 * |rows|
    && DistinctEntrants(entrants)
    && forall i :: 0 <= i < |rows| ==>
         MatchOk(rows[i], options) && rows[i].matchIndex == i + 1 && Seated(rows[i], entrants[2 * i], entrants[2 * i + 1])
  }

  predicate Done(rows: seq<Match>)
  {
    forall i :: 0 <= i < |rows| ==> rows[i].status != Pending
  }

  /** Round r + 1 has its number of places, and is finished unless it is the last one so far. */
  ghost predicate RoundAt(participants: seq<Engine>, options: Options, rounds: seq<seq<Match>>, r: nat)
    requires r < |rounds|
  {
    && r < Depth(|participants|) && |rounds[r]| == Pow2(Depth(|participants|) - 1 - r)
    && RoundOk(rounds[r], EntrantsOf(participants, rounds, r), options)
    && (r < |rounds| - 1 ==> Done(rounds[r]))
  }

  ghost predicate KnockoutInv(participants: seq<Engine>, options: Options, rounds: seq<seq<Match>>)
  {
    && Distinct(participants) && |participants| >= 2 && options.gamesPerMatch >= 1
    && forall r :: 0 <= r < |rounds| ==> RoundAt(participants, options, rounds, r)
  }

  // ---------------------------------------------------------------- one round

  lemma {:induction false} RegularGamesAreNoExtras(games: seq<Game>)
    requires forall j :: 0 <= j < |games| ==> games[j].kind == Regular
    ensures ExtraCount(games) == 0
  {
    if games != [] {
      RegularGamesAreNoExtras(games[..|games| - 1]);
    }
  }

  lemma {:induction false} NewMatchOk(index: nat, first: Option<Engine>, second: Option<Engine>, options: Options)
    requires (first.Some? || second.Some?) && first != second
    ensures var m := NewMatch(index, first, second, options);
            && MatchOk(m, options) && Seated(m, first, second) && m.matchIndex == index
            && (forall j :: 0 <= j < |m.games| ==> m.games[j].result.None?)
            && (m.status == Pending ==> |m.games| == options.gamesPerMatch)
  {
    if first.Some? && second.Some? {
      RegularGamesAreNoExtras(NextGames(first.value, second.value, 1, options.gamesPerMatch, Regular));
    }
  }

  /** A round drawn from distinct entrants is in good order. */
  lemma {:induction false} NewRoundOk(entrants: seq<Option<Engine>>, options: Options)
    requires |entrants| % 2 == 0 && NoEmptyPairing(entrants) && DistinctEntrants(entrants)
    ensures RoundOk(RoundRows(entrants, options, |entrants| / 2), entrants, options)
    ensures |RoundRows(entrants, options, |entrants| / 2)| == |entrants| / 2
  {
    hide RoundRows, NewMatch, MatchOk, Seated;
    var rows := RoundRows(entrants, options, |entrants| / 2);
    RoundRowsAt(entrants, options, |entrants| / 2);
    forall i | 0 <= i < |rows|
      ensures MatchOk(rows[i], options) && rows[i].matchIndex == i + 1 && Seated(rows[i], entrants[2 * i], entrants[2 * i + 1])
    {
      assert entrants[2 * i].Some? || entrants[2 * i + 1].Some?;
      NewMatchOk(i + 1, entrants[2 * i], entrants[2 * i + 1], options);
    }
  }

  lemma {:induction false} StepRoundOk(rows: seq<Match>, entrants: seq<Option<Engine>>, options: Options)
    requires RoundOk(rows, entrants, options) && options.gamesPerMatch >= 1
    ensures RoundOk(StepRound(rows, options), entrants, options)
  {
    hide DistinctEntrants, Numbered, Resolve;
    var after := StepRound(rows, options);
    forall i | 0 <= i < |after|
      ensures MatchOk(after[i], options) && after[i].matchIndex == i + 1 && Seated(after[i], entrants[2 * i], entrants[2 * i + 1])
    {
      StepMatchKeepsOk(rows[i], options);
    }
  }

  /** The winner of a finished match or of a bye is one of the two entrants of its place. */
  lemma {:induction false} WinnerCameIn(m: Match, first: Option<Engine>, second: Option<Engine>, options: Options)
    requires MatchOk(m, options) && Seated(m, first, second) && m.status != Pending
    ensures m.winner.Some? && (m.winner == first || m.winner == second)
  {
  }

  /** The winners of a finished round are distinct, and none is missing. */
  lemma {:induction false} WinnersAreProper(rows: seq<Match>, entrants: seq<Option<Engine>>, options: Options)
    requires RoundOk(rows, entrants, options) && Done(rows)
    ensures DistinctEntrants(Winners(rows)) && NoEmptyPairing(Winners(rows))
    ensures forall i :: 0 <= i < |rows| ==> rows[i].winner.Some?
  {
    hide MatchOk, Seated;
    var winners := Winners(rows);
    forall i | 0 <= i < |rows|
      ensures rows[i].winner.Some? && (rows[i].winner == entrants[2 * i] || rows[i].winner == entrants[2 * i + 1])
    {
      WinnerCameIn(rows[i], entrants[2 * i], entrants[2 * i + 1], options);
    }
  }

  // ---------------------------------------------------------------- results

  function WithResult(m: Match, j: nat, result: Result): (after: Match)
    requires j < |m.games|
  {
    m.(games := m.games[j := m.games[j].(result := Some(result))])
  }

  lemma {:induction false} KindsDecideExtras(games: seq<Game>, after: seq<Game>)
    requires |games| == |after| && forall i :: 0 <= i < |games| ==> games[i].kind == after[i].kind
    ensures ExtraCount(games) == ExtraCount(after)
  {
    if games != [] {
      KindsDecideExtras(games[..|games| - 1], after[..|games| - 1]);
    }
  }

  lemma {:induction false} ResultKeepsRound(
    rows: seq<Match>, entrants: seq<Option<Engine>>, options: Options, i: nat, j: nat, result: Result)
    requires RoundOk(rows, entrants, options) && i < |rows| && j < |rows[i].games| && rows[i].games[j].result.None?
    ensures RoundOk(rows[i := WithResult(rows[i], j, result)], entrants, options)
    ensures rows[i].status == Pending
  {
    KindsDecideExtras(rows[i].games, WithResult(rows[i], j, result).games);
    hide ExtraCount;
  }

  // ---------------------------------------------------------------- the invariant over a run

  function Last<T>(xs: seq<T>): T
    requires xs != []
  {
    xs[|xs| - 1]
  }

  lemma {:induction false} SameEntrants(participants: seq<Engine>, rounds: seq<seq<Match>>, after: seq<seq<Match>>, r: nat)
    requires r <= |rounds| && r <= |after| && (r > 0 ==> rounds[r - 1] == after[r - 1])
    ensures EntrantsOf(participants, rounds, r) == EntrantsOf(participants, after, r)
  {
  }

  lemma {:induction false} SameRoundAt(
    participants: seq<Engine>, options: Options, rounds: seq<seq<Match>>, after: seq<seq<Match>>, r: nat)
    requires r < |rounds| && RoundAt(participants, options, rounds, r)
    requires r < |after| && rounds[r] == after[r] && (r > 0 ==> rounds[r - 1] == after[r - 1])
    requires r < |after| - 1 ==> r < |rounds| - 1 || Done(rounds[r])
    ensures RoundAt(participants, options, after, r)
  {
    hide RoundOk, EntrantsOf, Done, Depth, Pow2;
    SameEntrants(participants, rounds, after, r);
  }

  lemma {:induction false} NewRoundAt(
    participants: seq<Engine>, options: Options, rounds: seq<seq<Match>>, rows: seq<Match>, entrants: seq<Option<Engine>>)
    requires |rounds| < Depth(|participants|) && |rows| == Pow2(Depth(|participants|) - 1 - |rounds|)
    requires entrants == EntrantsOf(participants, rounds, |rounds|) && RoundOk(rows, entrants, options)
    ensures RoundAt(participants, options, rounds + [rows], |rounds|)
  {
    hide RoundOk, EntrantsOf, Done, Depth, Pow2;
    SameEntrants(participants, rounds, rounds + [rows], |rounds|);
  }

  /** Only the last round changes, and it stays in good order. */
  lemma {:induction false} LastRoundKeepsInv(participants: seq<Engine>, options: Options, rounds: seq<seq<Match>>, rows: seq<Match>)
    requires KnockoutInv(participants, options, rounds) && rounds != [] && |rows| == |Last(rounds)|
    requires RoundOk(rows, EntrantsOf(participants, rounds, |rounds| - 1), options)
    ensures KnockoutInv(participants, options, rounds[..|rounds| - 1] + [rows])
  {
    hide RoundOk, EntrantsOf, Distinct, Done, Depth, Pow2;
    var r := |rounds| - 1;
    var before := rounds[..r];
    assert RoundAt(participants, options, rounds, r);
    SameEntrants(participants, rounds, before, r);
    NewRoundAt(participants, options, before, rows, EntrantsOf(participants, rounds, r));
    hide RoundAt;
    forall q | 0 <= q < r ensures RoundAt(participants, options, before + [rows], q) {
      SameRoundAt(participants, options, rounds, before + [rows], q);
    }
  }

  lemma {:induction false} EntrantsAreProper(participants: seq<Engine>, options: Options, rounds: seq<seq<Match>>)
    requires KnockoutInv(participants, options, rounds) && |rounds| < Depth(|participants|)
    requires rounds != [] ==> Done(Last(rounds))
    ensures var entrants := EntrantsOf(participants, rounds, |rounds|);
            && |entrants| == Pow2(Depth(|participants|) - |rounds|)
            && DistinctEntrants(entrants) && NoEmptyPairing(entrants)
  {
    hide RoundOk, DistinctEntrants, NoEmptyPairing, Depth, Pow2;
    if rounds == [] {
      SeededIsProper(participants);
    } else {
      var r := |rounds| - 1;
      assert RoundAt(participants, options, rounds, r);
      hide KnockoutInv;
      WinnersAreProper(rounds[r], EntrantsOf(participants, rounds, r), options);
    }
  }

  /** The rows drawn for the round after the last one. */
  function NextRound(participants: seq<Engine>, options: Options, rounds: seq<seq<Match>>): seq<Match>
  {
    var entrants := EntrantsOf(participants, rounds, |rounds|);
    RoundRows(entrants, options, |entrants| / 2)
  }

  lemma {:induction false} NextRoundOk(participants: seq<Engine>, options: Options, rounds: seq<seq<Match>>)
    requires KnockoutInv(participants, options, rounds) && |rounds| < Depth(|participants|)
    requires rounds != [] ==> Done(Last(rounds))
    ensures var rows := NextRound(participants, options, rounds);
            && RoundOk(rows, EntrantsOf(participants, rounds, |rounds|), options)
            && |rows| == Pow2(Depth(|participants|) - 1 - |rounds|)
  {
    hide KnockoutInv, EntrantsOf, Done, DistinctEntrants, NoEmptyPairing, RoundRows, Depth;
    EntrantsAreProper(participants, options, rounds);
    NewRoundOk(EntrantsOf(participants, rounds, |rounds|), options);
  }

  /** Drawing the next round from the winners keeps the invariant. */
  lemma {:induction false} NextRoundKeepsInv(participants: seq<Engine>, options: Options, rounds: seq<seq<Match>>)
    requires KnockoutInv(participants, options, rounds) && |rounds| < Depth(|participants|)
    requires rounds != [] ==> Done(Last(rounds))
    ensures KnockoutInv(participants, options, rounds + [NextRound(participants, options, rounds)])
  {
    hide RoundOk, EntrantsOf, Distinct, Done, NextRound, Pow2, Depth, RoundAt;
    var rows := NextRound(participants, options, rounds);
    NextRoundOk(participants, options, rounds);
    NewRoundAt(participants, options, rounds, rows, EntrantsOf(participants, rounds, |rounds|));
    forall q | 0 <= q < |rounds| ensures RoundAt(participants, options, rounds + [rows], q) {
      SameRoundAt(participants, options, rounds, rounds + [rows], q);
    }
  }

  // ---------------------------------------------------------------- advancing

  /** The last round after every match that can be resolved was resolved. */
  function Settled(rounds: seq<seq<Match>>, options: Options): seq<seq<Match>>
    requires rounds != []
  {
    rounds[..|rounds| - 1] + [StepRound(Last(rounds), options)]
  }

  /** _advance_knockout as one step: draw the first round, or resolve and draw the next one when all is decided. */
  function Advanced(participants: seq<Engine>, options: Options, rounds: seq<seq<Match>>): seq<seq<Match>>
  {
    if rounds == [] then [NextRound(participants, options, rounds)]
    else
      var settled := Settled(rounds, options);
      if !Done(Last(settled)) || |Last(settled)| == 1 then settled
      else settled + [NextRound(participants, options, settled)]
  }

  /** A single finished match is left in the last round. */
  predicate Complete(rounds: seq<seq<Match>>)
  {
    rounds != [] && |Last(rounds)| == 1 && Done(Last(rounds))
  }

  lemma {:induction false} SettledKeepsInv(participants: seq<Engine>, options: Options, rounds: seq<seq<Match>>)
    requires KnockoutInv(participants, options, rounds) && rounds != []
    ensures KnockoutInv(participants, options, Settled(rounds, options))
  {
    hide RoundOk, EntrantsOf, StepRound, Distinct, Depth, Pow2;
    var r := |rounds| - 1;
    assert RoundAt(participants, options, rounds, r);
    StepRoundOk(rounds[r], EntrantsOf(participants, rounds, r), options);
    LastRoundKeepsInv(participants, options, rounds, StepRound(rounds[r], options));
  }

  /** A round of more than one match is not the last one of the bracket. */
  lemma {:induction false} MoreThanOneMatchLeft(participants: seq<Engine>, options: Options, rounds: seq<seq<Match>>)
    requires KnockoutInv(participants, options, rounds) && rounds != []
    ensures |Last(rounds)| == 1 <==> |rounds| == Depth(|participants|)
    ensures |rounds| <= Depth(|participants|)
  {
    hide RoundOk, EntrantsOf, Distinct, Depth;
    assert RoundAt(participants, options, rounds, |rounds| - 1);
  }

  lemma {:induction false} TwoNeedARound(n: nat)
    requires n >= 2
    ensures Depth(n) >= 1
  {
  }

  lemma {:induction false} AdvancedKeepsInv(participants: seq<Engine>, options: Options, rounds: seq<seq<Match>>)
    requires KnockoutInv(participants, options, rounds)
    ensures KnockoutInv(participants, options, Advanced(participants, options, rounds))
  {
    hide RoundAt, EntrantsOf, StepRound, Distinct, Depth, Pow2, NextRound, Done;
    if rounds == [] {
      TwoNeedARound(|participants|);
      NextRoundKeepsInv(participants, options, rounds);
      assert rounds + [NextRound(participants, options, rounds)] == [NextRound(participants, options, rounds)];
    } else {
      var settled := Settled(rounds, options);
      SettledKeepsInv(participants, options, rounds);
      MoreThanOneMatchLeft(participants, options, settled);
      if Done(Last(settled)) && |Last(settled)| != 1 {
        NextRoundKeepsInv(participants, options, settled);
      }
    }
  }

  // ---------------------------------------------------------------- advancing twice

  lemma {:induction false} StepMatchTwice(m: Match, options: Options)
    ensures StepMatch(StepMatch(m, options), options) == StepMatch(m, options)
  {
    var after := StepMatch(m, options);
    if after != m && after.status == Pending {
      var r := Resolve(m.engine1, m.engine2.value, m.games, options);
      assert m.games + [] == m.games;
      assert after.games[|m.games|].result.None?;
    }
  }

  lemma {:induction false} StepRoundTwice(rows: seq<Match>, options: Options)
    ensures StepRound(StepRound(rows, options), options) == StepRound(rows, options)
  {
    hide StepMatch;
    forall i | 0 <= i < |rows| ensures StepMatch(StepMatch(rows[i], options), options) == StepMatch(rows[i], options) {
      StepMatchTwice(rows[i], options);
    }
  }

  lemma {:induction false} NewMatchWaits(index: nat, first: Option<Engine>, second: Option<Engine>, options: Options)
    requires (first.Some? || second.Some?) && options.gamesPerMatch >= 1
    ensures StepMatch(NewMatch(index, first, second, options), options) == NewMatch(index, first, second, options)
    ensures first.Some? && second.Some? ==> NewMatch(index, first, second, options).status == Pending
  {
    var m := NewMatch(index, first, second, options);
    if m.status == Pending {
      assert m.games[0].result.None?;
    }
  }

  /** A round that was just drawn has nothing to resolve; a round drawn from winners has a match to play. */
  lemma {:induction false} FreshRoundWaits(entrants: seq<Option<Engine>>, options: Options)
    requires NoEmptyPairing(entrants) && options.gamesPerMatch >= 1 && |entrants| % 2 == 0
    ensures var rows := RoundRows(entrants, options, |entrants| / 2);
            && StepRound(rows, options) == rows
            && (forall i :: 0 <= i < |entrants| / 2 && entrants[2 * i].Some? && entrants[2 * i + 1].Some? ==> !Done(rows))
  {
    hide NewMatch, StepMatch, RoundRows;
    var rows := RoundRows(entrants, options, |entrants| / 2);
    RoundRowsAt(entrants, options, |entrants| / 2);
    forall i | 0 <= i < |rows| ensures StepMatch(rows[i], options) == rows[i] {
      assert entrants[2 * i].Some? || entrants[2 * i + 1].Some?;
      NewMatchWaits(i + 1, entrants[2 * i], entrants[2 * i + 1], options);
    }
    forall i | 0 <= i < |entrants| / 2 && entrants[2 * i].Some? && entrants[2 * i + 1].Some? ensures !Done(rows) {
      NewMatchWaits(i + 1, entrants[2 * i], entrants[2 * i + 1], options);
      assert rows[i].status == Pending;
    }
  }

  /** The seeds in the middle of the bracket always meet: the first round is never all byes. */
  lemma {:induction false} FirstRoundHasAMatch(participants: seq<Engine>) returns (i: nat)
    requires |participants| >= 2
    ensures var entrants := Seeded(participants, Depth(|participants|));
            i < |entrants| / 2 && entrants[2 * i].Some? && entrants[2 * i + 1].Some?
  {
    hide SeedOrder, Position, Depth;
    var k := Depth(|participants|);
    TwoNeedARound(|participants|);
    var middle := Pow2(k - 1);
    i := Position(k - 1, middle);
    FavouritesAdvance(k, i);
    SeedOrderIsPermutation(k - 1, i, middle);
    SeedOrderIsPermutation(k, 2 * i, 1);
    SeedOrderIsPermutation(k, 2 * i + 1, 1);
  }

  lemma {:induction false} WinnersAllThere(participants: seq<Engine>, options: Options, rounds: seq<seq<Match>>)
    requires KnockoutInv(participants, options, rounds) && rounds != [] && Done(Last(rounds))
    ensures forall i :: 0 <= i < |Last(rounds)| ==> EntrantsOf(participants, rounds, |rounds|)[i].Some?
  {
    hide RoundOk, DistinctEntrants, NoEmptyPairing, Depth, Pow2;
    var r := |rounds| - 1;
    assert RoundAt(participants, options, rounds, r);
    WinnersAreProper(rounds[r], EntrantsOf(participants, rounds, r), options);
  }

  lemma {:induction false} NextRoundWaits(participants: seq<Engine>, options: Options, rounds: seq<seq<Match>>)
    requires KnockoutInv(participants, options, rounds) && |rounds| < Depth(|participants|)
    requires rounds != [] ==> Done(Last(rounds))
    ensures var rows := NextRound(participants, options, rounds);
            StepRound(rows, options) == rows && !Done(rows)
  {
    hide Done, DistinctEntrants, NoEmptyPairing, RoundRows, Depth, StepRound, RoundAt, Distinct;
    var entrants := EntrantsOf(participants, rounds, |rounds|);
    EntrantsAreProper(participants, options, rounds);
    assert Pow2(Depth(|participants|) - |rounds|) % 2 == 0 && Pow2(Depth(|participants|) - |rounds|) >= 2;
    FreshRoundWaits(entrants, options);
    if rounds == [] {
      var i := FirstRoundHasAMatch(participants);
    } else {
      WinnersAllThere(participants, options, rounds);
      assert entrants[2 * 0].Some? && entrants[2 * 0 + 1].Some?;
    }
  }

  /** Advancing again with no new result changes nothing. */
  lemma {:induction false} AdvancingAgainChangesNothing(participants: seq<Engine>, options: Options, rounds: seq<seq<Match>>)
    requires KnockoutInv(participants, options, rounds)
    ensures var once := Advanced(participants, options, rounds);
            Advanced(participants, options, once) == once
  {
    hide RoundAt, EntrantsOf, StepRound, Distinct, Depth, Pow2, NextRound, Done;
    if rounds == [] {
      TwoNeedARound(|participants|);
      NextRoundWaits(participants, options, rounds);
    } else {
      var settled := Settled(rounds, options);
      SettledKeepsInv(participants, options, rounds);
      MoreThanOneMatchLeft(participants, options, settled);
      if Done(Last(settled)) && |Last(settled)| != 1 {
        NextRoundWaits(participants, options, settled);
      } else {
        StepRoundTwice(Last(rounds), options);
      }
    }
  }
}
