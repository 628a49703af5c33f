/**
 What a finished knockout run adds up to (cope/runner/scheduler.py): how often everybody lost
 and how many matches were played.
 */
module KnockoutAccounting {
  import opened Common
  import opened Bracket
  import opened Knockout
  import opened KnockoutRun

  /** The engines among the entrants, in order. */
  function Engines(entrants: seq<Option<Engine>>): seq<Engine>
  {
    if entrants == [] then []
    else
      var last := entrants[|entrants| - 1];
      Engines(entrants[..|entrants| - 1]) + if last.Some? then [last.value] else []
  }

  function MatchEngines(m: Match): seq<Engine>
  {
    if m.engine2.Some? then [m.engine1, m.engine2.value] else [m.engine1]
  }

  function RoundEngines(rows: seq<Match>): seq<Engine>
  {
    if rows == [] then [] else RoundEngines(rows[..|rows| - 1]) + MatchEngines(rows[|rows| - 1])
  }

  /** The engine that played the match and did not win it; a bye has none. */
  function MatchLoser(m: Match): seq<Engine>
  {
    if m.status != Finished || m.engine2.None? then []
    else if m.winner == Some(m.engine1) then [m.engine2.value]
    else [m.engine1]
  }

  function Losers(rows: seq<Match>): seq<Engine>
  {
    if rows == [] then [] else Losers(rows[..|rows| - 1]) + MatchLoser(rows[|rows| - 1])
  }

  /** The losers of all rounds before round r + 1, match by match. */
  function LosersBefore(rounds: seq<seq<Match>>, r: nat): seq<Engine>
    requires r <= |rounds|
  {
    if r == 0 then [] else LosersBefore(rounds, r - 1) + Losers(rounds[r - 1])
  }

  /** The matches of a round that were played, so not the byes. */
  function Played(rows: seq<Match>): nat
  {
    if rows == [] then 0 else Played(rows[..|rows| - 1]) + if rows[|rows| - 1].status == Bye then 0 else 1
  }

  function PlayedBefore(rounds: seq<seq<Match>>, r: nat): nat
    requires r <= |rounds|
  {
    if r == 0 then 0 else PlayedBefore(rounds, r - 1) + Played(rounds[r - 1])
  }

  // ---------------------------------------------------------------- one round

  /** The engines on the rows are the entrants, in order. */
  lemma {:induction false} RowsSeatTheEntrants(rows: seq<Match>, entrants: seq<Option<Engine>>, options: Options)
    requires |entrants| == 2 * |rows|
    requires forall i :: 0 <= i < |rows| ==> MatchOk(rows[i], options) && Seated(rows[i], entrants[2 * i], entrants[2 * i + 1])
    ensures RoundEngines(rows) == Engines(entrants)
  {
    if rows != [] {
      var k := |rows| - 1;
      RowsSeatTheEntrants(rows[..k], entrants[..2 * k], options);
      assert Seated(rows[k], entrants[2 * k], entrants[2 * k + 1]);
      assert entrants[..2 * k + 1][..2 * k] == entrants[..2 * k];
    }
  }

  lemma {:induction false} WinnerAndLoser(m: Match, options: Options)
    requires MatchOk(m, options) && m.status != Pending
    ensures m.winner.Some? && multiset(MatchEngines(m)) == multiset{m.winner.value} + multiset(MatchLoser(m))
    ensures |MatchLoser(m)| == if m.status == Bye then 0 else 1
  {
  }

  /** Everybody in a finished round either goes on or loses. */
  lemma {:induction false} RoundSplits(rows: seq<Match>, options: Options)
    requires forall i :: 0 <= i < |rows| ==> MatchOk(rows[i], options) && rows[i].status != Pending
    ensures multiset(RoundEngines(rows)) == multiset(Engines(Winners(rows))) + multiset(Losers(rows))
    ensures |Losers(rows)| == Played(rows)
  {
    hide MatchOk, MatchEngines, MatchLoser;
    if rows != [] {
      var k := |rows| - 1;
      RoundSplits(rows[..k], options);
      WinnerAndLoser(rows[k], options);
      LastWinner(rows);
      var w := rows[k].winner.value;
      AddParts(RoundEngines(rows[..k]), Engines(Winners(rows[..k])), Losers(rows[..k]),
               MatchEngines(rows[k]), [w], MatchLoser(rows[k]));
      hide RoundEngines, Engines, Winners, Losers;
    }
  }

  lemma {:induction false} LastWinner(rows: seq<Match>)
    requires rows != [] && rows[|rows| - 1].winner.Some?
    ensures Engines(Winners(rows)) == Engines(Winners(rows[..|rows| - 1])) + [rows[|rows| - 1].winner.value]
  {
    assert Winners(rows)[..|rows| - 1] == Winners(rows[..|rows| - 1]);
  }

  lemma {:induction false} AddParts(a: seq<Engine>, b: seq<Engine>, c: seq<Engine>, x: seq<Engine>, y: seq<Engine>, z: seq<Engine>)
    requires multiset(a) == multiset(b) + multiset(c) && multiset(x) == multiset(y) + multiset(z)
    ensures multiset(a + x) == multiset(b + y) + multiset(c + z)
  {
  }

  // ---------------------------------------------------------------- the seeded field

  lemma {:induction false} EnginesAreTheSomes(entrants: seq<Option<Engine>>, e: Engine)
    ensures e in Engines(entrants) <==> Some(e) in entrants
  {
    if entrants != [] {
      var k := |entrants| - 1;
      EnginesAreTheSomes(entrants[..k], e);
      assert entrants == entrants[..k] + [entrants[k]];
    }
  }

  lemma {:induction false} EnginesAreDistinct(entrants: seq<Option<Engine>>)
    requires DistinctEntrants(entrants)
    ensures Distinct(Engines(entrants))
  {
    if entrants != [] {
      var k := |entrants| - 1;
      EnginesAreDistinct(entrants[..k]);
      if entrants[k].Some? {
        EnginesAreTheSomes(entrants[..k], entrants[k].value);
      }
    }
  }

  /** The bracket holds exactly the participants. */
  lemma {:induction false} SeededHoldsTheField(participants: seq<Engine>)
    requires Distinct(participants) && |participants| >= 2
    ensures var k := Depth(|participants|);
            multiset(Engines(Seeded(participants, k))) == multiset(participants)
  {
    var k := Depth(|participants|);
    var entrants := Seeded(participants, k);
    SeededIsProper(participants);
    EnginesAreDistinct(entrants);
    forall i | 0 <= i < |participants| ensures participants[i] in Engines(entrants) {
      ParticipantHasAPlace(participants, k, i);
      EnginesAreTheSomes(entrants, participants[i]);
    }
    var engines := Engines(entrants);
    forall i | 0 <= i < |engines| ensures engines[i] in participants {
      EnginesAreTheSomes(entrants, engines[i]);
      PlacesHoldParticipants(participants, k, engines[i]);
    }
    SameDistinctElements(engines, participants);
  }

  lemma {:induction false} ParticipantHasAPlace(participants: seq<Engine>, k: nat, i: nat)
    requires i < |participants| <= Pow2(k)
    ensures Some(participants[i]) in Seeded(participants, k)
  {
    var place := Position(k, i + 1);
    SeedOrderIsPermutation(k, place, i + 1);
    assert Seeded(participants, k)[place] == Some(participants[i]);
  }

  lemma {:induction false} PlacesHoldParticipants(participants: seq<Engine>, k: nat, e: Engine)
    requires Some(e) in Seeded(participants, k)
    ensures e in participants
  {
    var entrants := Seeded(participants, k);
    var place :| 0 <= place < |entrants| && entrants[place] == Some(e);
    SeedOrderIsPermutation(k, place, 1);
    assert participants[SeedOrder(k)[place] - 1] == e;
  }

  // ---------------------------------------------------------------- the whole run

  lemma {:induction false} RoundAccount(participants: seq<Engine>, options: Options, rounds: seq<seq<Match>>, r: nat)
    requires KnockoutInv(participants, options, rounds) && r < |rounds| && Done(rounds[r])
    ensures multiset(Engines(EntrantsOf(participants, rounds, r))) ==
            multiset(Engines(EntrantsOf(participants, rounds, r + 1))) + multiset(Losers(rounds[r]))
    ensures |Losers(rounds[r])| == Played(rounds[r])
  {
    hide MatchOk, Seated, Distinct, Engines, Losers, Played, RoundEngines, Depth, Pow2, Seeded, DistinctEntrants;
    assert RoundAt(participants, options, rounds, r);
    hide KnockoutInv;
    RowsSeatTheEntrants(rounds[r], EntrantsOf(participants, rounds, r), options);
    RoundSplits(rounds[r], options);
  }

  lemma {:induction false} FieldAtStart(participants: seq<Engine>, options: Options, rounds: seq<seq<Match>>)
    requires KnockoutInv(participants, options, rounds)
    ensures multiset(Engines(EntrantsOf(participants, rounds, 0))) == multiset(participants)
  {
    hide RoundAt, Distinct, Depth, Engines, Seeded;
    SeededHoldsTheField(participants);
  }

  lemma {:induction false} EarlierRoundsAreDone(participants: seq<Engine>, options: Options, rounds: seq<seq<Match>>, r: nat)
    requires KnockoutInv(participants, options, rounds) && r < |rounds| - 1
    ensures Done(rounds[r])
  {
    hide RoundOk, Distinct, Done, Depth, Pow2;
    assert RoundAt(participants, options, rounds, r);
  }

  lemma {:induction false} FieldSplits(participants: seq<Engine>, options: Options, rounds: seq<seq<Match>>, r: nat)
    requires KnockoutInv(participants, options, rounds) && r <= |rounds|
    requires r == |rounds| > 0 ==> Done(Last(rounds))
    ensures multiset(participants) ==
            multiset(Engines(EntrantsOf(participants, rounds, r))) + multiset(LosersBefore(rounds, r))
    ensures |LosersBefore(rounds, r)| == PlayedBefore(rounds, r)
  {
    hide KnockoutInv, EntrantsOf, Engines, Losers, Played, Done;
    if r == 0 {
      FieldAtStart(participants, options, rounds);
    } else {
      if r < |rounds| {
        EarlierRoundsAreDone(participants, options, rounds, r - 1);
      }
      FieldSplits(participants, options, rounds, r - 1);
      RoundAccount(participants, options, rounds, r - 1);
    }
  }

  /**
   A completed run has as many rounds as the bracket is deep and one played match per
   participant but one: the champion never lost, everybody else lost exactly once.
   */
  lemma {:induction false} EverybodyElseLostOnce(participants: seq<Engine>, options: Options, rounds: seq<seq<Match>>, champion: Engine)
    requires KnockoutInv(participants, options, rounds) && Complete(rounds) && Last(rounds)[0].winner == Some(champion)
    ensures |rounds| == Depth(|participants|)
    ensures multiset(participants) == multiset([champion] + LosersBefore(rounds, |rounds|))
    ensures PlayedBefore(rounds, |rounds|) == |participants| - 1
  {
    hide KnockoutInv, Distinct, LosersBefore, PlayedBefore, Depth, Pow2, Done;
    MoreThanOneMatchLeft(participants, options, rounds);
    FieldSplits(participants, options, rounds, |rounds|);
    var entrants := EntrantsOf(participants, rounds, |rounds|);
    assert entrants == [Some(champion)];
    assert Engines([Some(champion)]) == [champion] by {
      assert Engines([]) == [];
    }
    assert |multiset(participants)| == |participants|;
    assert |multiset([champion] + LosersBefore(rounds, |rounds|))| == 1 + |LosersBefore(rounds, |rounds|)|;
  }

  /** A completed run has a champion, and it is one of the participants. */
  lemma {:induction false} ThereIsAChampion(participants: seq<Engine>, options: Options, rounds: seq<seq<Match>>)
    requires KnockoutInv(participants, options, rounds) && Complete(rounds)
    ensures Last(rounds)[0].winner.Some? && Last(rounds)[0].winner.value in participants
  {
    hide KnockoutInv, Distinct, Depth, Pow2, Done;
    WinnersAllThere(participants, options, rounds);
    var champion := EntrantsOf(participants, rounds, |rounds|)[0].value;
    EverybodyElseLostOnce(participants, options, rounds, champion);
    assert champion in multiset([champion] + LosersBefore(rounds, |rounds|));
    assert champion in multiset(participants);
  }
}
