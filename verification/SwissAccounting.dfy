/**
 Accounting of Swiss runs: appending a planned round keeps every invariant of the tables, and
 complete rounds hand out a fixed number of half points.
 */
module SwissAccounting {
  import opened Common
  import opened SwissRun

  // ---------------------------------------------------------------- table concatenation

  lemma {:induction false} EnginesOfRoundConcat(xs: seq<Match>, ys: seq<Match>, r: nat)
    ensures EnginesOfRound(xs + ys, r) == EnginesOfRound(xs, r) + EnginesOfRound(ys, r)
  {
    if ys == [] {
      assert xs + ys == xs;
    } else {
      var front := ys[..|ys| - 1];
      assert (xs + ys)[..|xs + ys| - 1] == xs + front;
      EnginesOfRoundConcat(xs, front, r);
    }
  }

  lemma {:induction false} ByeCountConcat(xs: seq<Match>, ys: seq<Match>)
    ensures ByeCount(xs + ys) == ByeCount(xs) + ByeCount(ys)
  {
    if ys == [] {
      assert xs + ys == xs;
    } else {
      var front := ys[..|ys| - 1];
      assert (xs + ys)[..|xs + ys| - 1] == xs + front;
      ByeCountConcat(xs, front);
    }
  }

  lemma {:induction false} LastRoundConcat(xs: seq<Match>, ys: seq<Match>)
    ensures LastRound(xs + ys) == if LastRound(xs) >= LastRound(ys) then LastRound(xs) else LastRound(ys)
  {
    if ys == [] {
      assert xs + ys == xs;
    } else {
      var front := ys[..|ys| - 1];
      assert (xs + ys)[..|xs + ys| - 1] == xs + front;
      LastRoundConcat(xs, front);
    }
  }

  lemma {:induction false} NoEnginesBeyondLastRound(xs: seq<Match>, r: nat)
    requires r > LastRound(xs)
    ensures EnginesOfRound(xs, r) == []
  {
    if xs != [] {
      NoEnginesBeyondLastRound(xs[..|xs| - 1], r);
    }
  }

  lemma {:induction false} PairMatchesRows(pairs: seq<(Engine, Engine)>, round: nat, r: nat)
    ensures EnginesOfRound(PairMatches(pairs, round), r) == if r == round then PairEngines(pairs) else []
    ensures ByeCount(PairMatches(pairs, round)) == 0
    ensures LastRound(PairMatches(pairs, round)) == if pairs == [] then 0 else round
  {
    if pairs != [] {
      var front := pairs[..|pairs| - 1];
      var rows := PairMatches(pairs, round);
      assert rows[..|rows| - 1] == PairMatches(front, round);
      PairMatchesRows(front, round, r);
    }
  }

  /** What the match rows of a plan contribute. */
  lemma {:induction false} PlanMatchesRows(plan: Plan, round: nat, r: nat)
    requires plan.pairs != [] && round > 0
    ensures var rows := PlanMatches(plan, round);
            && EnginesOfRound(rows, r) == (if r == round then PlanEngines(plan) else [])
            && ByeCount(rows) == (if plan.bye.Some? then 1 else 0)
            && LastRound(rows) == round
  {
    var pairRows := PairMatches(plan.pairs, round);
    PairMatchesRows(plan.pairs, round, r);
    if plan.bye.Some? {
      var bye := [ByeMatch(plan.bye.value, round, |plan.pairs| + 1)];
      EnginesOfRoundConcat(pairRows, bye, r);
      ByeCountConcat(pairRows, bye);
      LastRoundConcat(pairRows, bye);
      assert bye[..0] == [];
      assert ByeCount(bye) == 1 && LastRound(bye) == round;
    } else {
      assert PlanMatches(plan, round) == pairRows;
      assert PlanEngines(plan) == PairEngines(plan.pairs);
    }
  }

  // ---------------------------------------------------------------- engines of a plan

  lemma {:induction false} PairEnginesAt(pairs: seq<(Engine, Engine)>, i: nat)
    requires i < |pairs|
    ensures |PairEngines(pairs)| == 2 * |pairs|
    ensures PairEngines(pairs)[2 * i] == pairs[i].0 && PairEngines(pairs)[2 * i + 1] == pairs[i].1
  {
    PairEnginesLength(pairs);
    if i < |pairs| - 1 {
      PairEnginesAt(pairs[..|pairs| - 1], i);
    } else {
      PairEnginesLength(pairs[..|pairs| - 1]);
    }
  }

  /** A plan that lists the field once seats participants only, and nobody against itself. */
  lemma {:induction false} PlanSeatsParticipants(participants: seq<Engine>, plan: Plan)
    requires Distinct(participants) && multiset(PlanEngines(plan)) == multiset(participants)
    ensures forall i :: 0 <= i < |plan.pairs| ==>
              plan.pairs[i].0 in participants && plan.pairs[i].1 in participants && plan.pairs[i].0 != plan.pairs[i].1
    ensures plan.bye.Some? ==> plan.bye.value in participants
  {
    var all := PlanEngines(plan);
    DistinctByMultiset(participants, all);
    forall k | 0 <= k < |all| ensures all[k] in participants {
      assert all[k] in multiset(all);
      assert all[k] in multiset(participants);
    }
    forall i | 0 <= i < |plan.pairs|
      ensures plan.pairs[i].0 in participants && plan.pairs[i].1 in participants && plan.pairs[i].0 != plan.pairs[i].1
    {
      PairEnginesAt(plan.pairs, i);
      assert all[2 * i] == plan.pairs[i].0 && all[2 * i + 1] == plan.pairs[i].1;
    }
    if plan.bye.Some? {
      assert all[|all| - 1] == plan.bye.value;
    }
  }

  // ---------------------------------------------------------------- appending a round

  /** The match rows the plan adds stay within the field and mark byes as byes. */
  lemma {:induction false} PlanKeepsPlayers(participants: seq<Engine>, games: seq<Game>, matches: seq<Match>, plan: Plan, round: nat)
    requires Distinct(participants) && multiset(PlanEngines(plan)) == multiset(participants)
    requires PlayedBy(participants, games, matches) && ByeRowsAreByes(matches)
    ensures PlayedBy(participants, games + PlanGames(plan.pairs, round, |matches|, games), matches + PlanMatches(plan, round))
    ensures ByeRowsAreByes(matches + PlanMatches(plan, round))
  {
    PlanSeatsParticipants(participants, plan);
    var rows := PlanGames(plan.pairs, round, |matches|, games);
    forall i | 0 <= i < |rows|
      ensures rows[i].white in participants && rows[i].black in participants && rows[i].white != rows[i].black
    {
      Colours.ColoursSeatBoth(plan.pairs[i].0, plan.pairs[i].1, Seatings(games));
    }
    var added := PlanMatches(plan, round);
    assert forall i :: 0 <= i < |added| ==> added[i].engine1 in participants;
  }

  lemma {:induction false} ByeSetPrefix(matches: seq<Match>, added: seq<Match>, i: nat)
    requires i <= |added|
    requires forall j :: 0 <= j < i ==> added[j].status != Bye
    ensures ByeSet((matches + added)[..|matches| + i]) == ByeSet(matches)
  {
    var all := (matches + added)[..|matches| + i];
    forall e | e in ByeSet(all) ensures e in ByeSet(matches) {
      var k :| 0 <= k < |all| && all[k].status == Bye && all[k].engine2 == None && all[k].engine1 == e;
      assert k < |matches| && matches[k] == all[k];
    }
    forall e | e in ByeSet(matches) ensures e in ByeSet(all) {
      var k :| 0 <= k < |matches| && matches[k].status == Bye && matches[k].engine2 == None && matches[k].engine1 == e;
      assert all[k] == matches[k];
    }
  }

  lemma {:induction false} PlanKeepsByesFair(participants: seq<Engine>, matches: seq<Match>, plan: Plan, round: nat)
    requires ByesAreFair(participants, matches)
    requires plan.bye.Some? && plan.bye.value in ByeSet(matches) ==> forall e :: e in participants ==> e in ByeSet(matches)
    ensures ByesAreFair(participants, matches + PlanMatches(plan, round))
  {
    var added := PlanMatches(plan, round);
    var all := matches + added;
    forall i | 0 <= i < |all| && all[i].status == Bye && all[i].engine1 in ByeSet(all[..i])
      ensures forall e :: e in participants ==> e in ByeSet(all[..i])
    {
      if i < |matches| {
        assert all[..i] == matches[..i] && all[i] == matches[i];
      } else {
        assert all[i] == added[i - |matches|];
        assert i - |matches| == |plan.pairs|;
        ByeSetPrefix(matches, added, |plan.pairs|);
      }
    }
  }

  /** The engines of an earlier round are untouched; those of the new round are the plan's. */
  lemma {:induction false} CoverageOfRound(matches: seq<Match>, plan: Plan, r: nat)
    requires plan.pairs != []
    ensures var round := LastRound(matches) + 1;
            EnginesOfRound(matches + PlanMatches(plan, round), r) ==
              (if r == round then PlanEngines(plan) else EnginesOfRound(matches, r))
  {
    var round := LastRound(matches) + 1;
    EnginesOfRoundConcat(matches, PlanMatches(plan, round), r);
    PlanMatchesRows(plan, round, r);
    if r == round {
      NoEnginesBeyondLastRound(matches, r);
    }
  }

  lemma {:induction false} LastRoundAfterPlan(matches: seq<Match>, plan: Plan)
    requires plan.pairs != []
    ensures var all := matches + PlanMatches(plan, LastRound(matches) + 1);
            && LastRound(all) == LastRound(matches) + 1
            && ByeCount(all) == ByeCount(matches) + (if plan.bye.Some? then 1 else 0)
  {
    var added := PlanMatches(plan, LastRound(matches) + 1);
    LastRoundConcat(matches, added);
    ByeCountConcat(matches, added);
    PlanMatchesRows(plan, LastRound(matches) + 1, 0);
  }

  lemma {:induction false} PlanKeepsCoverage(participants: seq<Engine>, matches: seq<Match>, plan: Plan)
    requires RoundsCoverField(participants, matches) && plan.pairs != []
    requires multiset(PlanEngines(plan)) == multiset(participants)
    ensures RoundsCoverField(participants, matches + PlanMatches(plan, LastRound(matches) + 1))
  {
    hide PlanMatches, PlanEngines, EnginesOfRound;
    var all := matches + PlanMatches(plan, LastRound(matches) + 1);
    LastRoundAfterPlan(matches, plan);
    forall r | 1 <= r <= LastRound(all) ensures multiset(EnginesOfRound(all, r)) == multiset(participants) {
      CoverageOfRound(matches, plan, r);
    }
  }

  /** A plan that seats the field once, with a fair bye when the field is odd. */
  ghost predicate GoodPlan(participants: seq<Engine>, matches: seq<Match>, plan: Plan)
  {
    && multiset(PlanEngines(plan)) == multiset(participants)
    && |plan.pairs| == |participants| / 2
    && (plan.bye.Some? <==> |participants| % 2 == 1)
    && (plan.bye.Some? && plan.bye.value in ByeSet(matches) ==> forall e :: e in participants ==> e in ByeSet(matches))
  }

  lemma {:induction false} GoodPlanKeepsInv(
    participants: seq<Engine>, games: seq<Game>, matches: seq<Match>, plan: Plan, games2: seq<Game>, matches2: seq<Match>)
    requires SwissInv(participants, games, matches) && GoodPlan(participants, matches, plan)
    requires games2 == games + PlanGames(plan.pairs, LastRound(matches) + 1, |matches|, games)
    requires matches2 == matches + PlanMatches(plan, LastRound(matches) + 1)
    ensures SwissInv(participants, games2, matches2) && LastRound(matches2) == LastRound(matches) + 1
  {
    hide PlayedBy, ByesAreFair, ByeRowsAreByes, RoundsCoverField, Distinct;
    PlanKeepsPlayers(participants, games, matches, plan, LastRound(matches) + 1);
    PlanKeepsByesFair(participants, matches, plan, LastRound(matches) + 1);
    PlanKeepsCoverage(participants, matches, plan);
    LastRoundAfterPlan(matches, plan);
    CountsGrow(LastRound(matches), |participants|, |games|, |games2|, ByeCount(matches), ByeCount(matches2));
  }

  lemma {:induction false} CountsGrow(k: nat, n: nat, games: nat, games2: nat, byes: nat, byes2: nat)
    requires games == k * (n / 2) && games2 == games + n / 2
    requires byes == k * (n % 2) && byes2 == byes + n % 2
    ensures games2 == (k + 1) * (n / 2) && byes2 == (k + 1) * (n % 2)
  {
    NextProduct(k, n / 2);
    NextProduct(k, n % 2);
  }

  /** Generating the next round keeps every invariant of the tables. */
  lemma {:induction false} NextRoundKeepsInv(participants: seq<Engine>, games: seq<Game>, matches: seq<Match>, plan: Plan, round: nat)
    requires SwissInv(participants, games, matches)
    requires round == LastRound(matches) + 1 && plan == PlanRound(participants, games, matches, round)
    ensures SwissInv(participants, games + PlanGames(plan.pairs, round, |matches|, games), matches + PlanMatches(plan, round))
    ensures LastRound(matches + PlanMatches(plan, round)) == round && |plan.pairs| == |participants| / 2
  {
    PlanRoundCoversField(participants, games, matches, round);
    GoodPlanKeepsInv(participants, games, matches, plan,
                     games + PlanGames(plan.pairs, round, |matches|, games), matches + PlanMatches(plan, round));
  }

  lemma {:induction false} NextProduct(k: nat, c: nat)
    ensures (k + 1) * c == k * c + c
  {
  }

  // ---------------------------------------------------------------- total scores

  /** The half points of all listed engines together. */
  function TotalPoints(engines: seq<Engine>, games: seq<Game>, matches: seq<Match>): nat
  {
    if engines == [] then 0 else TotalPoints(engines[1..], games, matches) + Points(games, matches, engines[0])
  }

  function GameTotal(engines: seq<Engine>, g: Game): nat
  {
    if engines == [] then 0 else GameTotal(engines[1..], g) + GamePoints(g, engines[0])
  }

  function ByeTotal(engines: seq<Engine>, m: Match): nat
  {
    if engines == [] then 0 else ByeTotal(engines[1..], m) + if m.status == Bye && m.engine1 == engines[0] then 2 else 0
  }

  lemma {:induction false} SplitLastGame(engines: seq<Engine>, games: seq<Game>, matches: seq<Match>)
    requires games != []
    ensures TotalPoints(engines, games, matches)
         == TotalPoints(engines, games[..|games| - 1], matches) + GameTotal(engines, games[|games| - 1])
  {
    if engines != [] {
      SplitLastGame(engines[1..], games, matches);
    }
  }

  lemma {:induction false} SplitLastMatch(engines: seq<Engine>, games: seq<Game>, matches: seq<Match>)
    requires matches != []
    ensures TotalPoints(engines, games, matches)
         == TotalPoints(engines, games, matches[..|matches| - 1]) + ByeTotal(engines, matches[|matches| - 1])
  {
    if engines != [] {
      SplitLastMatch(engines[1..], games, matches);
    }
  }

  lemma {:induction false} GameTotalCounts(engines: seq<Engine>, g: Game)
    ensures GameTotal(engines, g) ==
              match g.result
              case None => 0
              case Some(WhiteWins) => 2 * multiset(engines)[g.white]
              case Some(BlackWins) => 2 * multiset(engines)[g.black]
              case Some(Drawn) => multiset(engines)[g.white] + multiset(engines)[g.black]
  {
    if engines != [] {
      GameTotalCounts(engines[1..], g);
      assert engines == [engines[0]] + engines[1..];
    }
  }

  lemma {:induction false} ByeTotalCounts(engines: seq<Engine>, m: Match)
    ensures ByeTotal(engines, m) == if m.status == Bye then 2 * multiset(engines)[m.engine1] else 0
  {
    if engines != [] {
      ByeTotalCounts(engines[1..], m);
      assert engines == [engines[0]] + engines[1..];
    }
  }

  lemma {:induction false} ParticipantsCountOnce(participants: seq<Engine>, e: Engine)
    requires Distinct(participants) && e in participants
    ensures multiset(participants)[e] == 1
  {
    DistinctCountsOnce(participants, e);
    assert e in multiset(participants);
  }

  ghost predicate AllDecided(games: seq<Game>)
  {
    forall i :: 0 <= i < |games| ==> games[i].result.Some?
  }

  /** Every decided game and every bye hands out two half points. */
  lemma {:induction false} TotalIsTwicePerGameAndBye(participants: seq<Engine>, games: seq<Game>, matches: seq<Match>)
    requires Distinct(participants) && PlayedBy(participants, games, matches) && AllDecided(games)
    ensures TotalPoints(participants, games, matches) == 2 * |games| + 2 * ByeCount(matches)
    decreases |games| + |matches|
  {
    if games != [] {
      var last := games[|games| - 1];
      SplitLastGame(participants, games, matches);
      GameTotalCounts(participants, last);
      ParticipantsCountOnce(participants, last.white);
      ParticipantsCountOnce(participants, last.black);
      TotalIsTwicePerGameAndBye(participants, games[..|games| - 1], matches);
    } else if matches != [] {
      var last := matches[|matches| - 1];
      SplitLastMatch(participants, games, matches);
      ByeTotalCounts(participants, last);
      ParticipantsCountOnce(participants, last.engine1);
      TotalIsTwicePerGameAndBye(participants, games, matches[..|matches| - 1]);
    } else {
      NoPointsAtAll(participants);
    }
  }

  lemma {:induction false} NoPointsAtAll(engines: seq<Engine>)
    ensures TotalPoints(engines, [], []) == 0
  {
    if engines != [] {
      NoPointsAtAll(engines[1..]);
    }
  }

  /** After k complete rounds of n engines the half points sum to 2k * ceil(n/2). */
  lemma {:induction false} CompleteRoundsTotal(participants: seq<Engine>, games: seq<Game>, matches: seq<Match>)
    requires SwissInv(participants, games, matches) && AllDecided(games)
    ensures TotalPoints(participants, games, matches) == 2 * LastRound(matches) * ((|participants| + 1) / 2)
  {
    TotalIsTwicePerGameAndBye(participants, games, matches);
    var k, n := LastRound(matches), |participants|;
    HalvesProduct(k, n);
  }

  lemma {:induction false} HalvesProduct(k: nat, n: nat)
    ensures 2 * (k * (n / 2)) + 2 * (k * (n % 2)) == 2 * k * ((n + 1) / 2)
  {
    assert (n + 1) / 2 == n / 2 + n % 2;
    var a, b := n / 2, n % 2;
    assert 2 * k * (a + b) == 2 * (k * a) + 2 * (k * b);
  }
}
