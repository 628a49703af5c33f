/**
 Elo arithmetic of a rating commit (cope/ratings.py).

 Ratings are integers of a millionth of a point, the precision the program rounds to. The expected
 score is any function with values strictly between 0 and 1 in which the two sides add up to 1.
 */
module Elo {
  import opened Common

  const MICRO := 1_000_000
  const DEFAULT_ELO := 1500 * MICRO
  const K_FACTOR := 32 * MICRO

  datatype Result = WhiteWins | BlackWins | Drawn

  type Expected = (int, int) -> real

  ghost predicate IsExpectation(expected: Expected)
  {
    forall a: int, b: int {:trigger expected(a, b)} :: 0.0 < expected(a, b) < 1.0 && expected(a, b) + expected(b, a) == 1.0
  }

  function WhiteScore(result: Result): real
  {
    match result
    case WhiteWins => 1.0
    case BlackWins => 0.0
    case Drawn => 0.5
  }

  /** Rounding to the nearest integer, ties to the even one. */
  function Round(x: real): (n: int)
    ensures -0.5 <= n as real - x <= 0.5
    ensures n as real - x == 0.5 || n as real - x == -0.5 ==> n % 2 == 0
  {
    var below := x.Floor;
    var part := x - below as real;
    if part < 0.5 then below
    else if part > 0.5 then below + 1
    else if below % 2 == 0 then below
    else below + 1
  }

  predicate IsTie(x: real)
  {
    x - x.Floor as real == 0.5
  }

  function WhiteChange(expected: Expected, white: int, black: int, result: Result): real
  {
    K_FACTOR as real * (WhiteScore(result) - expected(white, black))
  }

  /** The two ratings after a game. */
  function AfterGame(expected: Expected, white: int, black: int, result: Result): (int, int)
  {
    var change := WhiteChange(expected, white, black, result);
    (Round(white as real + change), Round(black as real - change))
  }

  // ---------------------------------------------------------------- rounding

  lemma {:induction false} NearestIsUnique(x: real, n: int)
    requires -0.5 < n as real - x < 0.5
    ensures Round(x) == n
  {
    var gap := Round(x) - n;
    assert gap as real == Round(x) as real - n as real;
  }

  lemma {:induction false} RoundStaysAbove(x: real, n: int)
    requires x > n as real
    ensures Round(x) >= n
  {
    assert Round(x) < n ==> Round(x) as real <= n as real - 1.0;
  }

  /** What one side rounds up the other rounds down, unless both sit exactly in the middle. */
  lemma {:induction false} OppositeChanges(white: int, black: int, change: real)
    ensures var drift := Round(white as real + change) + Round(black as real - change) - (white + black);
            -1 <= drift <= 1 && (!IsTie(change) ==> drift == 0)
  {
    var w, b := Round(white as real + change), Round(black as real - change);
    var drift := w + b - (white + black);
    assert drift as real == (w as real - (white as real + change)) + (b as real - (black as real - change));
    if !IsTie(change) {
      var n := change.Floor;
      var nearest := if change - n as real < 0.5 then n else n + 1;
      NearestIsUnique(white as real + change, white + nearest);
      NearestIsUnique(black as real - change, black - nearest);
    }
  }

  // ---------------------------------------------------------------- one game

  lemma {:induction false} ChangeIsSmall(expected: Expected, white: int, black: int, result: Result)
    requires IsExpectation(expected)
    ensures var change := WhiteChange(expected, white, black, result);
            && -32_000_000.0 < change < 32_000_000.0
            && (result == WhiteWins ==> change > 0.0) && (result == BlackWins ==> change < 0.0)
  {
    var e := expected(white, black);
  }

  /**
   A game leaves the sum of the two ratings within one micro-point of what it was, and exactly
   there unless the change is a rounding tie; neither side moves by more than 32 points; and the
   winner does not lose rating, nor the loser gain.
   */
  lemma {:induction false} GameIsBounded(expected: Expected, white: int, black: int, result: Result)
    requires IsExpectation(expected)
    ensures var (w, b) := AfterGame(expected, white, black, result);
            && -1 <= w + b - (white + black) <= 1
            && (!IsTie(WhiteChange(expected, white, black, result)) ==> w + b == white + black)
            && -32_000_000 <= w - white <= 32_000_000 && -32_000_000 <= b - black <= 32_000_000
            && (result == WhiteWins ==> w >= white && b <= black)
            && (result == BlackWins ==> b >= black && w <= white)
  {
    var change := WhiteChange(expected, white, black, result);
    hide IsExpectation, Round, WhiteChange, IsTie;
    ChangeIsSmall(expected, white, black, result);
    OppositeChanges(white, black, change);
    RoundStaysAbove(white as real + change, white - 32_000_000);
    RoundStaysAbove(black as real - change, black - 32_000_000);
    if result == WhiteWins {
      RoundStaysAbove(white as real + change, white);
    } else if result == BlackWins {
      RoundStaysAbove(black as real - change, black);
    }
  }

  /**
   The change is by the engine's own expectation: with the same result, whoever was expected to score
   less gains more.
   */
  lemma {:induction false} LessExpectedGainsMore(expected: Expected, a: int, b: int, c: int, d: int, result: Result)
    requires expected(a, b) < expected(c, d)
    ensures WhiteChange(expected, a, b, result) > WhiteChange(expected, c, d, result)
  {
  }

  /** A better result is worth 16 points more, each time. */
  lemma {:induction false} BetterResultGainsMore(expected: Expected, white: int, black: int)
    ensures WhiteChange(expected, white, black, WhiteWins) == WhiteChange(expected, white, black, Drawn) + 16_000_000.0
    ensures WhiteChange(expected, white, black, Drawn) == WhiteChange(expected, white, black, BlackWins) + 16_000_000.0
  {
  }

  /** Between equals a win moves both engines by 16 points, and a draw nobody. */
  lemma {:induction false} BetweenEquals(expected: Expected, elo: int)
    requires IsExpectation(expected)
    ensures AfterGame(expected, elo, elo, WhiteWins) == (elo + 16_000_000, elo - 16_000_000)
    ensures AfterGame(expected, elo, elo, BlackWins) == (elo - 16_000_000, elo + 16_000_000)
    ensures AfterGame(expected, elo, elo, Drawn) == (elo, elo)
  {
    hide Round;
    assert expected(elo, elo) == 0.5;
    WholeChange(elo, 16_000_000);
    WholeChange(elo, -16_000_000);
    WholeChange(elo, 0);
  }

  lemma {:induction false} WholeChange(elo: int, change: int)
    ensures Round(elo as real + change as real) == elo + change
    ensures Round(elo as real - change as real) == elo - change
  {
    hide Round;
    NearestIsUnique(elo as real + change as real, elo + change);
    NearestIsUnique(elo as real - change as real, elo - change);
  }

  function Mirrored(result: Result): Result
  {
    match result
    case WhiteWins => BlackWins
    case BlackWins => WhiteWins
    case Drawn => Drawn
  }

  /** Colours do not matter: the game seen from the other side gives both engines the same ratings. */
  lemma {:induction false} ColoursDoNotMatter(expected: Expected, white: int, black: int, result: Result)
    requires IsExpectation(expected)
    ensures var (w, b) := AfterGame(expected, white, black, result);
            AfterGame(expected, black, white, Mirrored(result)) == (b, w)
  {
    var mine, theirs := WhiteChange(expected, white, black, result), WhiteChange(expected, black, white, Mirrored(result));
    assert expected(black, white) == 1.0 - expected(white, black);
    assert mine == -theirs;
  }
}
