/**
 The circle method (cope/runner/scheduler.py): the rotating player list, the games it
 schedules over several cycles, and the theorem that every two engines meet exactly once
 in every cycle.

 Slots are indices into the padded player list: slot 0 never moves, the others rotate.
 Everything is stated with additions and comparisons only, so that the modular argument
 (two rotating slots face each other in the round that solves 2(r+1) = -(i+j) modulo an
 odd number) stays linear for the verifier.
 */
module RoundRobin {
  import opened Common

  type Engine = int

  datatype ScheduledGame =
    ScheduledGame(round: nat, pairIndex: nat, white: Engine, black: Engine, gameNumber: nat)

  // ---------------------------------------------------------------- the rotation

  /** The slot sitting at table position pos after r rotations of a list of m slots. */
  function SlotAt(m: nat, r: nat, pos: nat): (slot: nat)
    requires m >= 2 && r < m && pos < m
    ensures slot < m
  {
    if pos == 0 then 0 else if pos > r then pos - r else pos + (m - 1) - r
  }

  /** Where a slot sits after r rotations. */
  function PosOf(m: nat, r: nat, slot: nat): (pos: nat)
    requires m >= 2 && r < m && slot < m
    ensures pos < m
    ensures r < m - 1 ==> SlotAt(m, r, pos) == slot
  {
    if slot == 0 then 0 else if slot + r < m then slot + r else slot + r - (m - 1)
  }

  lemma {:induction false} SlotAtInverse(m: nat, r: nat, pos: nat)
    requires m >= 2 && r < m - 1 && pos < m
    ensures PosOf(m, r, SlotAt(m, r, pos)) == pos
  {
  }

  /** The round in which two different slots face each other. */
  function MeetRound(m: nat, i: nat, j: nat): (r: nat)
    requires m >= 2 && m % 2 == 0 && i < m && j < m && i != j
    ensures r < m - 1
  {
    var n := m - 1;
    if i == 0 then n - j
    else if j == 0 then n - i
    else
      var s := (i - 1) + (j - 1);
      if s % 2 == 0 then n - s / 2 - 1
      else if s < n then (n - s) / 2 - 1
      else (3 * n - s) / 2 - 1
  }

  /** Two different slots sit on facing chairs in one round and in no other. */
  lemma {:induction false} FacingExactlyOnce(m: nat, i: nat, j: nat, r: nat)
    requires m >= 2 && m % 2 == 0 && i < m && j < m && i != j && r < m - 1
    ensures PosOf(m, r, i) + PosOf(m, r, j) == m - 1 <==> r == MeetRound(m, i, j)
  {
  }

  // ---------------------------------------------------------------- one round

  /** The participants, with an idle slot appended when their number is odd. */
  function Padded(participants: seq<Engine>): (players: seq<Option<Engine>>)
    ensures |players| % 2 == 0
    ensures |players| == |participants| + |participants| % 2
    ensures forall i :: 0 <= i < |participants| ==> players[i] == Some(participants[i])
    ensures forall i :: |participants| <= i < |players| ==> players[i] == None
  {
    var players := seq(|participants|, i requires 0 <= i < |participants| => Some(participants[i]));
    if |participants| % 2 == 1 then players + [None] else players
  }

  ghost function Seated(padded: seq<Option<Engine>>, r: nat): (players: seq<Option<Engine>>)
    requires |padded| >= 2 && r < |padded|
  {
    seq(|padded|, pos requires 0 <= pos < |padded| => padded[SlotAt(|padded|, r, pos)])
  }

  /** Moving the last player behind the first one is one more rotation. */
  lemma {:induction false} RotateOnce(padded: seq<Option<Engine>>, r: nat)
    requires |padded| >= 2 && r < |padded| - 1
    ensures var players := Seated(padded, r);
            Seated(padded, r + 1) == [players[0], players[|players| - 1]] + players[1..|players| - 1]
  {
  }

  /** The slot that plays white at board k of round r. */
  function WhiteSlot(m: nat, r: nat, k: nat): (slot: nat)
    requires m >= 2 && m % 2 == 0 && r < m - 1 && k < m / 2
    ensures slot < m
  {
    if (r + k) % 2 == 0 then SlotAt(m, r, k) else SlotAt(m, r, m - 1 - k)
  }

  function BlackSlot(m: nat, r: nat, k: nat): (slot: nat)
    requires m >= 2 && m % 2 == 0 && r < m - 1 && k < m / 2
    ensures slot < m
  {
    if (r + k) % 2 == 0 then SlotAt(m, r, m - 1 - k) else SlotAt(m, r, k)
  }

  /** The game at board k of round r, or nothing when one of its chairs is the idle slot. */
  function BoardPair(padded: seq<Option<Engine>>, r: nat, k: nat): (pairs: seq<(Engine, Engine)>)
    requires |padded| >= 2 && |padded| % 2 == 0 && r < |padded| - 1 && k < |padded| / 2
  {
    var white := padded[WhiteSlot(|padded|, r, k)];
    var black := padded[BlackSlot(|padded|, r, k)];
    if white.None? || black.None? then [] else [(white.value, black.value)]
  }

  /** The boards of round r, each holding one pair or none. */
  function Boards(padded: seq<Option<Engine>>, r: nat): (boards: seq<seq<(Engine, Engine)>>)
    requires |padded| >= 2 && |padded| % 2 == 0 && r < |padded| - 1
    ensures |boards| == |padded| / 2
  {
    seq(|padded| / 2, k requires 0 <= k < |padded| / 2 => BoardPair(padded, r, k))
  }

  /** The pairs on the first k boards, in board order. */
  function Join(boards: seq<seq<(Engine, Engine)>>, k: nat): (pairs: seq<(Engine, Engine)>)
    requires k <= |boards|
  {
    if k == 0 then [] else Join(boards, k - 1) + boards[k - 1]
  }

  function RoundPairs(padded: seq<Option<Engine>>, r: nat): (pairs: seq<(Engine, Engine)>)
    requires |padded| >= 2 && |padded| % 2 == 0 && r < |padded| - 1
  {
    var boards := Boards(padded, r);
    Join(boards, |boards|)
  }

  function AllRounds(padded: seq<Option<Engine>>): (rounds: seq<seq<(Engine, Engine)>>)
    requires |padded| >= 2 && |padded| % 2 == 0
    ensures |rounds| == |padded| - 1
  {
    seq(|padded| - 1, r requires 0 <= r < |padded| - 1 => RoundPairs(padded, r))
  }

  /** The boards of a seated list: its two ends, white on the first when round + board is even. */
  ghost function EndBoards(players: seq<Option<Engine>>, r: nat): (boards: seq<seq<(Engine, Engine)>>)
  {
    seq(|players| / 2, k requires 0 <= k < |players| / 2 =>
      var first, second := players[k], players[|players| - 1 - k];
      if first.None? || second.None? then []
      else if (r + k) % 2 == 0 then [(first.value, second.value)] else [(second.value, first.value)])
  }

  lemma {:induction false} BoardsFromSeats(padded: seq<Option<Engine>>, r: nat)
    requires |padded| >= 2 && |padded| % 2 == 0 && r < |padded| - 1
    ensures EndBoards(Seated(padded, r), r) == Boards(padded, r)
  {
  }

  /** The scheduler's loop: pair the two ends of the list, then rotate all but the first player. */
  method RoundRobinPairings(participants: seq<Engine>) returns (rounds: seq<seq<(Engine, Engine)>>)
    ensures |participants| < 2 ==> rounds == []
    ensures |participants| >= 2 ==> rounds == AllRounds(Padded(participants))
  {
    rounds := [];
    if |participants| < 2 {
      return;
    }
    var players := Padded(participants);
    ghost var padded := players;
    assert Seated(padded, 0) == padded;
    var roundIndex := 0;
    while roundIndex < |players| - 1
      invariant |players| == |padded| && 0 <= roundIndex <= |padded| - 1
      invariant players == Seated(padded, roundIndex)
      invariant rounds == AllRounds(padded)[..roundIndex]
    {
      var pairings;
      pairings, players := PlayRound(padded, players, roundIndex);
      rounds := rounds + [pairings];
      roundIndex := roundIndex + 1;
    }
  }

  /** One round: pair the ends of the list, then move the last player behind the first. */
  method PlayRound(ghost padded: seq<Option<Engine>>, players: seq<Option<Engine>>, roundIndex: nat)
    returns (pairings: seq<(Engine, Engine)>, rotated: seq<Option<Engine>>)
    requires |padded| >= 2 && |padded| % 2 == 0 && roundIndex < |padded| - 1
    requires players == Seated(padded, roundIndex)
    ensures pairings == RoundPairs(padded, roundIndex)
    ensures rotated == Seated(padded, roundIndex + 1)
  {
    pairings := PairEnds(players, roundIndex);
    BoardsFromSeats(padded, roundIndex);
    RotateOnce(padded, roundIndex);
    rotated := [players[0], players[|players| - 1]] + players[1..|players| - 1];
  }

  /** The inner loop of one round. */
  method PairEnds(players: seq<Option<Engine>>, roundIndex: nat) returns (pairings: seq<(Engine, Engine)>)
    ensures pairings == Join(EndBoards(players, roundIndex), |players| / 2)
  {
    pairings := [];
    for pairIndex := 0 to |players| / 2
      invariant pairings == Join(EndBoards(players, roundIndex), pairIndex)
    {
      var first := players[pairIndex];
      var second := players[|players| - 1 - pairIndex];
      if first.Some? && second.Some? {
        if (roundIndex + pairIndex) % 2 == 0 {
          pairings := pairings + [(first.value, second.value)];
        } else {
          pairings := pairings + [(second.value, first.value)];
        }
      }
    }
  }

  // ---------------------------------------------------------------- the schedule

  /** The rows one round adds: colours are swapped in every second cycle. */
  function RoundRows(pairs: seq<(Engine, Engine)>, round: nat, cycle: nat): (rows: seq<ScheduledGame>)
    ensures |rows| == |pairs|
  {
    seq(|pairs|, i requires 0 <= i < |pairs| =>
      if cycle % 2 == 1
      then ScheduledGame(round, i + 1, pairs[i].1, pairs[i].0, cycle + 1)
      else ScheduledGame(round, i + 1, pairs[i].0, pairs[i].1, cycle + 1))
  }

  function RoundNumber(baseRound: nat, cycle: nat, roundsPerCycle: nat): nat
  {
    baseRound + cycle * roundsPerCycle
  }

  /** The rows of the first r rounds of one cycle. */
  function CycleRows(rounds: seq<seq<(Engine, Engine)>>, cycle: nat, r: nat): (rows: seq<ScheduledGame>)
    requires r <= |rounds|
  {
    if r == 0 then []
    else CycleRows(rounds, cycle, r - 1) + RoundRows(rounds[r - 1], RoundNumber(r, cycle, |rounds|), cycle)
  }

  function Schedule(rounds: seq<seq<(Engine, Engine)>>, cycles: nat): (rows: seq<ScheduledGame>)
  {
    if cycles == 0 then []
    else Schedule(rounds, cycles - 1) + CycleRows(rounds, cycles - 1, |rounds|)
  }

  method GenerateRoundRobinGames(participants: seq<Engine>, gamesPerPairing: nat)
    returns (games: seq<ScheduledGame>, createdGames: nat)
    ensures createdGames == |games|
    ensures |participants| < 2 ==> games == []
    ensures |participants| >= 2 ==> games == Schedule(AllRounds(Padded(participants)), gamesPerPairing)
  {
    games := [];
    createdGames := 0;
    var roundPairings := RoundRobinPairings(participants);
    for cycleIndex := 0 to gamesPerPairing
      invariant games == Schedule(roundPairings, cycleIndex)
      invariant createdGames == |games|
    {
      var cycleGames := GenerateCycle(roundPairings, cycleIndex);
      games := games + cycleGames;
      createdGames := createdGames + |cycleGames|;
    }
    if |participants| < 2 {
      EmptySchedule(gamesPerPairing);
    }
  }

  /** The two inner loops: every pairing of every round, colours swapped in odd cycles. */
  method GenerateCycle(roundPairings: seq<seq<(Engine, Engine)>>, cycleIndex: nat)
    returns (games: seq<ScheduledGame>)
    ensures games == CycleRows(roundPairings, cycleIndex, |roundPairings|)
  {
    games := [];
    for base := 0 to |roundPairings|
      invariant games == CycleRows(roundPairings, cycleIndex, base)
    {
      var pairings := roundPairings[base];
      var roundNumber := RoundNumber(base + 1, cycleIndex, |roundPairings|);
      var rows: seq<ScheduledGame> := [];
      for pairIndex := 0 to |pairings|
        invariant rows == RoundRows(pairings, roundNumber, cycleIndex)[..pairIndex]
      {
        var (white, black) := pairings[pairIndex];
        if cycleIndex % 2 == 1 {
          white, black := black, white;
        }
        rows := rows + [ScheduledGame(roundNumber, pairIndex + 1, white, black, cycleIndex + 1)];
      }
      games := games + rows;
    }
  }

  lemma {:induction false} EmptySchedule(cycles: nat)
    ensures Schedule([], cycles) == []
  {
    if cycles > 0 {
      EmptySchedule(cycles - 1);
    }
  }

  // ---------------------------------------------------------------- counting meetings

  /** How often white a meets black b in a list of pairs. */
  function PairCount(pairs: seq<(Engine, Engine)>, a: Engine, b: Engine): nat
  {
    if pairs == [] then 0
    else PairCount(pairs[..|pairs| - 1], a, b) + (if pairs[|pairs| - 1] == (a, b) then 1 else 0)
  }

  /** How often a has white against b among scheduled games. */
  function WhiteGames(rows: seq<ScheduledGame>, a: Engine, b: Engine): nat
  {
    if rows == [] then 0
    else
      var last := rows[|rows| - 1];
      WhiteGames(rows[..|rows| - 1], a, b) + (if last.white == a && last.black == b then 1 else 0)
  }

  lemma {:induction false} WhiteGamesConcat(xs: seq<ScheduledGame>, ys: seq<ScheduledGame>, a: Engine, b: Engine)
    ensures WhiteGames(xs + ys, a, b) == WhiteGames(xs, a, b) + WhiteGames(ys, a, b)
  {
    if ys == [] {
      assert xs + ys == xs;
    } else {
      var front := ys[..|ys| - 1];
      assert (xs + ys)[..|xs + ys| - 1] == xs + front;
      WhiteGamesConcat(xs, front, a, b);
    }
  }

  lemma {:induction false} RoundRowsCount(pairs: seq<(Engine, Engine)>, round: nat, cycle: nat, a: Engine, b: Engine)
    ensures WhiteGames(RoundRows(pairs, round, cycle), a, b)
         == if cycle % 2 == 1 then PairCount(pairs, b, a) else PairCount(pairs, a, b)
  {
    if pairs != [] {
      var front := pairs[..|pairs| - 1];
      var rows := RoundRows(pairs, round, cycle);
      assert rows[..|rows| - 1] == RoundRows(front, round, cycle);
      RoundRowsCount(front, round, cycle, a, b);
    }
  }

  /** The slots i (white) and j (black) meet at the board where i sits in their meeting round. */
  ghost predicate WhiteInMeeting(m: nat, i: nat, j: nat)
    requires m >= 2 && m % 2 == 0 && i < m && j < m && i != j
  {
    var r := MeetRound(m, i, j);
    FacingExactlyOnce(m, i, j, r);
    var k := PosOf(m, r, i);
    if k < m / 2 then (r + k) % 2 == 0 else (r + (m - 1 - k)) % 2 == 1
  }

  lemma {:induction false} OneOfThemIsWhite(m: nat, i: nat, j: nat)
    requires m >= 2 && m % 2 == 0 && i < m && j < m && i != j
    ensures WhiteInMeeting(m, i, j) <==> !WhiteInMeeting(m, j, i)
  {
    FacingExactlyOnce(m, i, j, MeetRound(m, i, j));
    assert MeetRound(m, i, j) == MeetRound(m, j, i);
  }

  /** Board k of round r seats white i against black j exactly when they meet there with those colours. */
  lemma {:induction false} BoardSeats(m: nat, r: nat, k: nat, i: nat, j: nat)
    requires m >= 2 && m % 2 == 0 && i < m && j < m && i != j && r < m - 1 && k < m / 2
    ensures (WhiteSlot(m, r, k) == i && BlackSlot(m, r, k) == j) <==>
              (r == MeetRound(m, i, j) && WhiteInMeeting(m, i, j) && (k == PosOf(m, r, i) || k == PosOf(m, r, j)))
  {
    FacingExactlyOnce(m, i, j, r);
    SlotAtInverse(m, r, k);
    SlotAtInverse(m, r, m - 1 - k);
  }

  /** The board at which i has white against j in round r, or -1. */
  ghost function MeetBoard(m: nat, r: nat, i: nat, j: nat): (k: int)
    requires m >= 2 && m % 2 == 0 && i < m && j < m && i != j && r < m - 1
    ensures -1 <= k < m / 2
    ensures k >= 0 <==> (r == MeetRound(m, i, j) && WhiteInMeeting(m, i, j))
  {
    FacingExactlyOnce(m, i, j, r);
    if r == MeetRound(m, i, j) && WhiteInMeeting(m, i, j)
    then if PosOf(m, r, i) < m / 2 then PosOf(m, r, i) else PosOf(m, r, j)
    else -1
  }

  lemma {:induction false} OnlyMeetBoard(m: nat, r: nat, k: nat, i: nat, j: nat)
    requires m >= 2 && m % 2 == 0 && i < m && j < m && i != j && r < m - 1 && k < m / 2
    ensures (WhiteSlot(m, r, k) == i && BlackSlot(m, r, k) == j) <==> k == MeetBoard(m, r, i, j)
  {
    BoardSeats(m, r, k, i, j);
    FacingExactlyOnce(m, i, j, r);
  }

  /** The padded list of distinct participants. */
  ghost predicate IsField(participants: seq<Engine>, padded: seq<Option<Engine>>)
  {
    && Distinct(participants) && |participants| >= 2
    && |padded| % 2 == 0 && |padded| == |participants| + |participants| % 2
    && (forall i :: 0 <= i < |participants| ==> padded[i] == Some(participants[i]))
    && (forall i :: |participants| <= i < |padded| ==> padded[i] == None)
  }

  lemma {:induction false} BoardOf(participants: seq<Engine>, padded: seq<Option<Engine>>, r: nat, k: nat, i: nat, j: nat)
    requires IsField(participants, padded) && r < |padded| - 1 && k < |padded| / 2
    requires i < |participants| && j < |participants|
    ensures BoardPair(padded, r, k) == [(participants[i], participants[j])] <==>
              (WhiteSlot(|padded|, r, k) == i && BlackSlot(|padded|, r, k) == j)
  {
    var w, b := WhiteSlot(|padded|, r, k), BlackSlot(|padded|, r, k);
    if w < |participants| && b < |participants| {
      assert BoardPair(padded, r, k) == [(participants[w], participants[b])];
    }
  }

  lemma {:induction false} PairCountAppend(pairs: seq<(Engine, Engine)>, board: seq<(Engine, Engine)>, a: Engine, b: Engine)
    requires |board| <= 1
    ensures PairCount(pairs + board, a, b) == PairCount(pairs, a, b) + if board == [(a, b)] then 1 else 0
  {
    if board == [] {
      assert pairs + board == pairs;
    } else {
      assert (pairs + board)[..|pairs|] == pairs;
    }
  }

  lemma {:induction false} CountHits(boards: seq<seq<(Engine, Engine)>>, k: nat, a: Engine, b: Engine, hit: int)
    requires k <= |boards|
    requires forall l :: 0 <= l < |boards| ==> |boards[l]| <= 1 && (boards[l] == [(a, b)] <==> l == hit)
    ensures PairCount(Join(boards, k), a, b) == if 0 <= hit < k then 1 else 0
  {
    if k > 0 {
      CountHits(boards, k - 1, a, b, hit);
      PairCountAppend(Join(boards, k - 1), boards[k - 1], a, b);
    }
  }

  lemma {:induction false} RoundPairsCount(participants: seq<Engine>, padded: seq<Option<Engine>>, r: nat, i: nat, j: nat)
    requires IsField(participants, padded)
    requires i < |participants| && j < |participants| && i != j && r < |padded| - 1
    ensures PairCount(RoundPairs(padded, r), participants[i], participants[j]) ==
              (if r == MeetRound(|padded|, i, j) && WhiteInMeeting(|padded|, i, j) then 1 else 0)
  {
    var hit := MeetBoard(|padded|, r, i, j);
    forall l | 0 <= l < |padded| / 2
      ensures BoardPair(padded, r, l) == [(participants[i], participants[j])] <==> l == hit
    {
      BoardOf(participants, padded, r, l, i, j);
      OnlyMeetBoard(|padded|, r, l, i, j);
    }
    CountHits(Boards(padded, r), |padded| / 2, participants[i], participants[j], hit);
  }

  /** The meetings of one full round, with the colours of its cycle. */
  lemma {:induction false} RoundCount(
    participants: seq<Engine>, padded: seq<Option<Engine>>, r: nat, round: nat, cycle: nat, i: nat, j: nat)
    requires IsField(participants, padded)
    requires i < |participants| && j < |participants| && i != j && r < |padded| - 1
    ensures WhiteGames(RoundRows(RoundPairs(padded, r), round, cycle), participants[i], participants[j]) ==
              (if r == MeetRound(|padded|, i, j) && (WhiteInMeeting(|padded|, i, j) <==> cycle % 2 == 0) then 1 else 0)
  {
    RoundRowsCount(RoundPairs(padded, r), round, cycle, participants[i], participants[j]);
    RoundPairsCount(participants, padded, r, i, j);
    RoundPairsCount(participants, padded, r, j, i);
    OneOfThemIsWhite(|padded|, i, j);
    assert MeetRound(|padded|, i, j) == MeetRound(|padded|, j, i);
  }

  lemma {:induction false} CycleCountBy(
    rounds: seq<seq<(Engine, Engine)>>, cycle: nat, r: nat, a: Engine, b: Engine, hit: int)
    requires r <= |rounds|
    requires forall q, round: nat :: 0 <= q < |rounds| ==>
               WhiteGames(RoundRows(rounds[q], round, cycle), a, b) == if q == hit then 1 else 0
    ensures WhiteGames(CycleRows(rounds, cycle, r), a, b) == if 0 <= hit < r then 1 else 0
  {
    if r > 0 {
      CycleCountBy(rounds, cycle, r - 1, a, b, hit);
      var round := RoundNumber(r, cycle, |rounds|);
      WhiteGamesConcat(CycleRows(rounds, cycle, r - 1), RoundRows(rounds[r - 1], round, cycle), a, b);
    }
  }

  lemma {:induction false} CycleCount(
    participants: seq<Engine>, padded: seq<Option<Engine>>, rounds: seq<seq<(Engine, Engine)>>,
    cycle: nat, i: nat, j: nat)
    requires IsField(participants, padded) && rounds == AllRounds(padded)
    requires i < |participants| && j < |participants| && i != j
    ensures WhiteGames(CycleRows(rounds, cycle, |rounds|), participants[i], participants[j]) ==
              (if WhiteInMeeting(|padded|, i, j) <==> cycle % 2 == 0 then 1 else 0)
  {
    var a, b := participants[i], participants[j];
    var now := WhiteInMeeting(|padded|, i, j) <==> cycle % 2 == 0;
    var hit := if now then MeetRound(|padded|, i, j) else -1;
    forall q, round: nat | 0 <= q < |rounds|
      ensures WhiteGames(RoundRows(rounds[q], round, cycle), a, b) == if q == hit then 1 else 0
    {
      RoundCount(participants, padded, q, round, cycle, i, j);
    }
    CycleCountBy(rounds, cycle, |rounds|, a, b, hit);
  }

  /** The value of a white-games count that alternates between cycles. */
  function AlternatingSum(g: nat, first: bool): nat
  {
    if first then (g + 1) / 2 else g / 2
  }

  lemma {:induction false} AlternatingStep(g: nat, first: bool)
    ensures AlternatingSum(g + 1, first) == AlternatingSum(g, first) + if first <==> g % 2 == 0 then 1 else 0
  {
  }

  /** a has white against b once in an even cycle when first, in an odd cycle otherwise. */
  ghost predicate WhiteInCycle(rounds: seq<seq<(Engine, Engine)>>, cycle: nat, a: Engine, b: Engine, first: bool)
  {
    WhiteGames(CycleRows(rounds, cycle, |rounds|), a, b) == if first <==> cycle % 2 == 0 then 1 else 0
  }

  lemma {:induction false} AlternatingCount(rounds: seq<seq<(Engine, Engine)>>, g: nat, a: Engine, b: Engine, first: bool)
    requires forall cycle: nat :: cycle < g ==> WhiteInCycle(rounds, cycle, a, b, first)
    ensures WhiteGames(Schedule(rounds, g), a, b) == AlternatingSum(g, first)
  {
    if g > 0 {
      AlternatingCount(rounds, g - 1, a, b, first);
      assert WhiteInCycle(rounds, g - 1, a, b, first);
      WhiteGamesConcat(Schedule(rounds, g - 1), CycleRows(rounds, g - 1, |rounds|), a, b);
      AlternatingStep(g - 1, first);
    }
  }

  /** White games of i against j over g cycles. */
  lemma {:induction false} WhiteHalf(participants: seq<Engine>, padded: seq<Option<Engine>>, g: nat, i: nat, j: nat)
    requires IsField(participants, padded)
    requires i < |participants| && j < |participants| && i != j
    ensures WhiteGames(Schedule(AllRounds(padded), g), participants[i], participants[j]) ==
              (if WhiteInMeeting(|padded|, i, j) then (g + 1) / 2 else g / 2)
  {
    var rounds := AllRounds(padded);
    forall cycle: nat | cycle < g
      ensures WhiteInCycle(rounds, cycle, participants[i], participants[j], WhiteInMeeting(|padded|, i, j))
    {
      CycleCount(participants, padded, rounds, cycle, i, j);
    }
    AlternatingCount(rounds, g, participants[i], participants[j], WhiteInMeeting(|padded|, i, j));
  }

  /**
   Over g cycles two different engines play each other g times; the one with white in the
   first cycle has white half the time, rounded up, and the other half the time, rounded down.
   */
  lemma {:induction false} EveryPairMeetsOncePerCycle(participants: seq<Engine>, g: nat, i: nat, j: nat)
    requires Distinct(participants)
    requires i < |participants| && j < |participants| && i != j
    ensures var games := Schedule(AllRounds(Padded(participants)), g);
            var asWhite := WhiteGames(games, participants[i], participants[j]);
            var asBlack := WhiteGames(games, participants[j], participants[i]);
            asWhite + asBlack == g && (asWhite == g / 2 || asBlack == g / 2)
  {
    var padded := Padded(participants);
    OneOfThemIsWhite(|padded|, i, j);
    WhiteHalf(participants, padded, g, i, j);
    WhiteHalf(participants, padded, g, j, i);
  }

  /** The meeting of one cycle: exactly one game between two different engines, whatever the cycle. */
  lemma {:induction false} OneMeetingInEachCycle(participants: seq<Engine>, cycle: nat, i: nat, j: nat)
    requires Distinct(participants)
    requires i < |participants| && j < |participants| && i != j
    ensures var rounds := AllRounds(Padded(participants));
            var games := CycleRows(rounds, cycle, |rounds|);
            WhiteGames(games, participants[i], participants[j]) + WhiteGames(games, participants[j], participants[i]) == 1
  {
    var padded := Padded(participants);
    var rounds := AllRounds(padded);
    OneOfThemIsWhite(|padded|, i, j);
    CycleCount(participants, padded, rounds, cycle, i, j);
    CycleCount(participants, padded, rounds, cycle, j, i);
  }

  // ---------------------------------------------------------------- rounds and keys

  /** Both engines of a pair are participants, and they differ. */
  ghost predicate ProperPair(participants: seq<Engine>, pair: (Engine, Engine))
  {
    pair.0 in participants && pair.1 in participants && pair.0 != pair.1
  }

  ghost predicate Disjoint(p: (Engine, Engine), q: (Engine, Engine))
  {
    p.0 != q.0 && p.0 != q.1 && p.1 != q.0 && p.1 != q.1
  }

  /** The two slots seated at board k of round r differ, and no other board of that round uses them. */
  lemma {:induction false} BoardsDisjoint(m: nat, r: nat, k: nat, l: nat)
    requires m >= 2 && m % 2 == 0 && r < m - 1 && k < m / 2 && l < m / 2
    ensures WhiteSlot(m, r, k) != BlackSlot(m, r, k)
    ensures k != l ==> Disjoint((WhiteSlot(m, r, k), BlackSlot(m, r, k)), (WhiteSlot(m, r, l), BlackSlot(m, r, l)))
  {
    SlotAtInverse(m, r, k);
    SlotAtInverse(m, r, l);
    SlotAtInverse(m, r, m - 1 - k);
    SlotAtInverse(m, r, m - 1 - l);
  }

  lemma {:induction false} PairFromBoard(participants: seq<Engine>, padded: seq<Option<Engine>>, r: nat, k: nat)
    requires IsField(participants, padded) && r < |padded| - 1 && k < |padded| / 2
    ensures BoardPair(padded, r, k) != [] ==>
              var pair := BoardPair(padded, r, k)[0];
              var white, black := WhiteSlot(|padded|, r, k), BlackSlot(|padded|, r, k);
              && ProperPair(participants, pair)
              && white < |participants| && black < |participants|
              && pair == (participants[white], participants[black])
  {
    BoardsDisjoint(|padded|, r, k, k);
  }

  ghost predicate BoardsApart(b: seq<(Engine, Engine)>, c: seq<(Engine, Engine)>)
  {
    forall p, q :: p in b && q in c ==> Disjoint(p, q)
  }

  ghost predicate PairwiseDisjoint(pairs: seq<(Engine, Engine)>)
  {
    forall p, q :: 0 <= p < q < |pairs| ==> Disjoint(pairs[p], pairs[q])
  }

  lemma {:induction false} TwoBoardsApart(participants: seq<Engine>, padded: seq<Option<Engine>>, r: nat, k: nat, l: nat)
    requires IsField(participants, padded) && r < |padded| - 1 && k < l < |padded| / 2
    ensures BoardsApart(BoardPair(padded, r, k), BoardPair(padded, r, l))
  {
    PairFromBoard(participants, padded, r, k);
    PairFromBoard(participants, padded, r, l);
    BoardsDisjoint(|padded|, r, k, l);
  }

  lemma {:induction false} JoinIsMatching(participants: seq<Engine>, boards: seq<seq<(Engine, Engine)>>, k: nat)
    requires k <= |boards|
    requires forall l :: 0 <= l < |boards| ==> |boards[l]| <= 1 && forall p :: p in boards[l] ==> ProperPair(participants, p)
    requires forall x, y :: 0 <= x < y < |boards| ==> BoardsApart(boards[x], boards[y])
    ensures forall p :: p in Join(boards, k) ==> ProperPair(participants, p)
    ensures forall l :: k <= l < |boards| ==> BoardsApart(Join(boards, k), boards[l])
    ensures PairwiseDisjoint(Join(boards, k))
  {
    if k > 0 {
      JoinIsMatching(participants, boards, k - 1);
      var front, board := Join(boards, k - 1), boards[k - 1];
      assert forall p :: p in front + board ==> p in front || p in board;
      assert BoardsApart(front, board);
    }
  }

  /** No engine plays twice in a round: the pairs of a round are proper and pairwise disjoint. */
  lemma {:induction false} RoundIsMatching(participants: seq<Engine>, padded: seq<Option<Engine>>, r: nat)
    requires IsField(participants, padded) && r < |padded| - 1
    ensures forall p :: p in RoundPairs(padded, r) ==> ProperPair(participants, p)
    ensures PairwiseDisjoint(RoundPairs(padded, r))
  {
    var boards := Boards(padded, r);
    forall l | 0 <= l < |boards| ensures forall p :: p in boards[l] ==> ProperPair(participants, p) {
      PairFromBoard(participants, padded, r, l);
    }
    forall x, y | 0 <= x < y < |boards| ensures BoardsApart(boards[x], boards[y]) {
      TwoBoardsApart(participants, padded, r, x, y);
    }
    JoinIsMatching(participants, boards, |boards|);
  }

  /** The keys (round, pair index) strictly increase along the schedule, so they are all distinct. */
  ghost predicate KeysIncrease(rows: seq<ScheduledGame>)
  {
    forall p, q :: 0 <= p < q < |rows| ==>
      rows[p].round < rows[q].round || (rows[p].round == rows[q].round && rows[p].pairIndex < rows[q].pairIndex)
  }

  lemma {:induction false} CycleKeys(rounds: seq<seq<(Engine, Engine)>>, cycle: nat, r: nat)
    requires r <= |rounds|
    ensures KeysIncrease(CycleRows(rounds, cycle, r))
    ensures forall p :: 0 <= p < |CycleRows(rounds, cycle, r)| ==>
              cycle * |rounds| < CycleRows(rounds, cycle, r)[p].round <= r + cycle * |rounds|
  {
    if r > 0 {
      CycleKeys(rounds, cycle, r - 1);
    }
  }

  lemma {:induction false} ScheduleKeysIncrease(rounds: seq<seq<(Engine, Engine)>>, g: nat)
    ensures KeysIncrease(Schedule(rounds, g))
    ensures forall p :: 0 <= p < |Schedule(rounds, g)| ==> Schedule(rounds, g)[p].round <= g * |rounds|
  {
    if g > 0 {
      ScheduleKeysIncrease(rounds, g - 1);
      CycleKeys(rounds, g - 1, |rounds|);
      assert g * |rounds| == (g - 1) * |rounds| + |rounds|;
    }
  }

  // ---------------------------------------------------------------- rounds, game numbers and colours of the rows

  /** The row of cycle c, base round r and pair k, all counted from zero. */
  ghost predicate IsRow(row: ScheduledGame, rounds: seq<seq<(Engine, Engine)>>, c: nat, r: nat, k: nat)
  {
    && r < |rounds| && k < |rounds[r]|
    && row.round == c * |rounds| + r + 1 && row.pairIndex == k + 1 && row.gameNumber == c + 1
    && (if c % 2 == 0 then row.white == rounds[r][k].0 && row.black == rounds[r][k].1
        else row.white == rounds[r][k].1 && row.black == rounds[r][k].0)
  }

  lemma {:induction false} CycleRowIs(rounds: seq<seq<(Engine, Engine)>>, c: nat, r: nat, j: nat)
    returns (base: nat, k: nat)
    requires r <= |rounds| && j < |CycleRows(rounds, c, r)|
    ensures base < r && IsRow(CycleRows(rounds, c, r)[j], rounds, c, base, k)
  {
    var before := CycleRows(rounds, c, r - 1);
    if j < |before| {
      base, k := CycleRowIs(rounds, c, r - 1, j);
    } else {
      base, k := r - 1, j - |before|;
    }
  }

  /**
   Every row of the schedule belongs to one round of one cycle: its game number counts the cycle, and
   colours are those of the pairing in the first, third, fifth cycle and swapped in the others.
   */
  lemma {:induction false} ScheduleRowIs(rounds: seq<seq<(Engine, Engine)>>, cycles: nat, j: nat)
    returns (c: nat, r: nat, k: nat)
    requires j < |Schedule(rounds, cycles)|
    ensures c < cycles && IsRow(Schedule(rounds, cycles)[j], rounds, c, r, k)
  {
    hide IsRow;
    var before := Schedule(rounds, cycles - 1);
    if j < |before| {
      c, r, k := ScheduleRowIs(rounds, cycles - 1, j);
    } else {
      c := cycles - 1;
      r, k := CycleRowIs(rounds, c, |rounds|, j - |before|);
    }
  }

  /** The first seat has white in the first, third, fifth round, and black in the others. */
  lemma {:induction false} FirstSeatAlternates(m: nat, r: nat, k: nat)
    requires m >= 2 && m % 2 == 0 && r < m - 1 && k < m / 2
    ensures WhiteSlot(m, r, k) == 0 <==> k == 0 && r % 2 == 0
    ensures BlackSlot(m, r, k) == 0 <==> k == 0 && r % 2 == 1
  {
  }

  /** The second seat has black in every round of the method, so that only the swapped cycles give it white. */
  lemma {:induction false} SecondSeatIsAlwaysBlack(m: nat, r: nat, k: nat)
    requires m >= 2 && m % 2 == 0 && r < m - 1 && k < m / 2
    ensures WhiteSlot(m, r, k) != 1
  {
  }

  // ---------------------------------------------------------------- the number of games

  /** The board that the idle slot occupies in round r. */
  function IdleBoard(m: nat, r: nat): nat
    requires m >= 2 && m % 2 == 0 && r < m - 1
  {
    var pos := PosOf(m, r, m - 1);
    if pos < m / 2 then pos else m - 1 - pos
  }

  lemma {:induction false} IdleBoardIsIdle(participants: seq<Engine>, padded: seq<Option<Engine>>, r: nat, k: nat)
    requires IsField(participants, padded) && r < |padded| - 1 && k < |padded| / 2
    ensures BoardPair(padded, r, k) == [] <==> (|participants| % 2 == 1 && IdleBoard(|padded|, r) == k)
  {
    var m := |padded|;
    SlotAtInverse(m, r, k);
    SlotAtInverse(m, r, m - 1 - k);
  }

  lemma {:induction false} JoinSize(boards: seq<seq<(Engine, Engine)>>, k: nat, idle: int)
    requires k <= |boards|
    requires forall l :: 0 <= l < |boards| ==> |boards[l]| == if l == idle then 0 else 1
    ensures |Join(boards, k)| == if 0 <= idle < k then k - 1 else k
  {
    if k > 0 {
      JoinSize(boards, k - 1, idle);
    }
  }

  /** Every round has floor(n/2) games. */
  lemma {:induction false} FullRoundSize(participants: seq<Engine>, padded: seq<Option<Engine>>, r: nat)
    requires IsField(participants, padded) && r < |padded| - 1
    ensures |RoundPairs(padded, r)| == |participants| / 2
  {
    var boards := Boards(padded, r);
    var idle := if |participants| % 2 == 1 then IdleBoard(|padded|, r) as int else -1;
    forall l | 0 <= l < |boards| ensures |boards[l]| == if l == idle then 0 else 1 {
      IdleBoardIsIdle(participants, padded, r, l);
    }
    JoinSize(boards, |boards|, idle);
  }

  lemma {:induction false} CycleSize(
    participants: seq<Engine>, padded: seq<Option<Engine>>, rounds: seq<seq<(Engine, Engine)>>, cycle: nat, r: nat)
    requires IsField(participants, padded) && rounds == AllRounds(padded) && r <= |rounds|
    ensures |CycleRows(rounds, cycle, r)| == r * (|participants| / 2)
  {
    if r > 0 {
      CycleSize(participants, padded, rounds, cycle, r - 1);
      FullRoundSize(participants, padded, r - 1);
      var half := |participants| / 2;
      assert r * half == (r - 1) * half + half;
    }
  }

  lemma {:induction false} HalfProduct(n: nat)
    requires n >= 1
    ensures (n + n % 2 - 1) * (n / 2) == n * (n - 1) / 2
  {
    var h := n / 2;
    if n % 2 == 0 {
      assert n == 2 * h;
      assert n * (n - 1) == 2 * ((n - 1) * h);
    } else {
      assert n == 2 * h + 1;
      assert n * (n - 1) == 2 * (n * h);
    }
  }

  lemma {:induction false} ScheduleSizeBy(rounds: seq<seq<(Engine, Engine)>>, g: nat, perCycle: nat)
    requires forall cycle: nat :: |CycleRows(rounds, cycle, |rounds|)| == perCycle
    ensures |Schedule(rounds, g)| == g * perCycle
  {
    if g > 0 {
      ScheduleSizeBy(rounds, g - 1, perCycle);
      assert g * perCycle == (g - 1) * perCycle + perCycle;
    }
  }

  /** g cycles of n engines are g * n(n-1)/2 games. */
  lemma {:induction false} ScheduleSize(participants: seq<Engine>, g: nat)
    requires Distinct(participants) && |participants| >= 2
    ensures |Schedule(AllRounds(Padded(participants)), g)| == g * (|participants| * (|participants| - 1) / 2)
  {
    var padded := Padded(participants);
    var rounds := AllRounds(padded);
    forall cycle: nat ensures |CycleRows(rounds, cycle, |rounds|)| == |rounds| * (|participants| / 2) {
      CycleSize(participants, padded, rounds, cycle, |rounds|);
    }
    ScheduleSizeBy(rounds, g, |rounds| * (|participants| / 2));
    HalfProduct(|participants|);
  }
}
