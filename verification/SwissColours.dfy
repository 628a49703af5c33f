/**
 Colour allocation of a Swiss game (cope/runner/scheduler.py): the cheaper of the two
 seatings under balance, repetition and streak costs, the listed order winning ties.
 */
module SwissColours {
  import opened Common

  type Engine = int

  /** The colours of a game already in the table. */
  datatype Seating = Seating(white: Engine, black: Engine)

  /** White games minus black games of an engine. */
  function Balance(e: Engine, games: seq<Seating>): int
  {
    if games == [] then 0
    else
      var g := games[|games| - 1];
      Balance(e, games[..|games| - 1]) + (if g.white == e then 1 else 0) - (if g.black == e then 1 else 0)
  }

  /** The colours an engine has had, in order; true is white. */
  function History(e: Engine, games: seq<Seating>): seq<bool>
  {
    if games == [] then []
    else
      var g := games[|games| - 1];
      History(e, games[..|games| - 1]) + (if g.white == e then [true] else []) + (if g.black == e then [false] else [])
  }

  /** The last k colours were all the given one. */
  predicate LastWere(history: seq<bool>, colour: bool, k: nat)
  {
    |history| >= k && forall i :: |history| - k <= i < |history| ==> history[i] == colour
  }

  function Abs(x: int): nat { if x < 0 then -x else x }

  /** What seating an engine with this balance and history on this colour costs. */
  function SideCost(balance: int, history: seq<bool>, colour: bool): nat
  {
    Abs(if colour then balance + 1 else balance - 1)
    + (if LastWere(history, colour, 1) then 2 else 0)
    + (if LastWere(history, colour, 2) then 8 else 0)
  }

  function Cost(white: Engine, black: Engine, games: seq<Seating>): nat
  {
    SideCost(Balance(white, games), History(white, games), true)
    + SideCost(Balance(black, games), History(black, games), false)
  }

  /** min() keeps the first of two equal costs. */
  function Colours(first: Engine, second: Engine, games: seq<Seating>): (Engine, Engine)
  {
    if Cost(second, first, games) < Cost(first, second, games) then (second, first) else (first, second)
  }

  /** One game of the loop: whoever of the two played it gets its colour on record. */
  method RecordSeating(balances: map<Engine, int>, histories: map<Engine, seq<bool>>, game: Seating)
    returns (balances2: map<Engine, int>, histories2: map<Engine, seq<bool>>)
    requires balances.Keys == histories.Keys
    ensures balances2.Keys == histories2.Keys == balances.Keys
    ensures forall e | e in balances ::
              balances2[e] == balances[e] + (if game.white == e then 1 else 0) - (if game.black == e then 1 else 0)
    ensures forall e | e in balances ::
              histories2[e] == histories[e] + (if game.white == e then [true] else []) + (if game.black == e then [false] else [])
  {
    balances2, histories2 := balances, histories;
    if game.white in balances {
      balances2 := balances2[game.white := balances2[game.white] + 1];
      histories2 := histories2[game.white := histories2[game.white] + [true]];
    }
    if game.black in balances {
      balances2 := balances2[game.black := balances2[game.black] - 1];
      histories2 := histories2[game.black := histories2[game.black] + [false]];
    }
  }

  method SwissColours(first: Engine, second: Engine, games: seq<Seating>) returns (white: Engine, black: Engine)
    requires first != second
    ensures (white, black) == Colours(first, second, games)
  {
    hide SideCost;
    var balances := map[first := 0, second := 0];
    var histories: map<Engine, seq<bool>> := map[first := [], second := []];
    for i := 0 to |games|
      invariant balances.Keys == {first, second} == histories.Keys
      invariant balances[first] == Balance(first, games[..i]) && balances[second] == Balance(second, games[..i])
      invariant histories[first] == History(first, games[..i]) && histories[second] == History(second, games[..i])
    {
      assert games[..i + 1][..i] == games[..i];
      balances, histories := RecordSeating(balances, histories, games[i]);
    }
    assert games[..|games|] == games;
    var straight := SideCost(balances[first], histories[first], true) + SideCost(balances[second], histories[second], false);
    var swapped := SideCost(balances[second], histories[second], true) + SideCost(balances[first], histories[first], false);
    if swapped < straight {
      white, black := second, first;
    } else {
      white, black := first, second;
    }
  }

  /** The same two engines are seated, whichever colours they get. */
  lemma {:induction false} ColoursSeatBoth(first: Engine, second: Engine, games: seq<Seating>)
    ensures Colours(first, second, games) == (first, second) || Colours(first, second, games) == (second, first)
  {
  }

  /** Switching the seating moves the two balance terms by at most four together, less than one streak penalty. */
  lemma {:induction false} BalanceTermsAreSmall(b1: int, b2: int)
    ensures Abs((Abs(b1 + 1) + Abs(b2 - 1)) - (Abs(b2 + 1) + Abs(b1 - 1))) <= 4 < 8
  {
  }

  /** An engine that comes off two games with one colour, against one that does not, gets the other colour. */
  lemma {:induction false} StreakIsBroken(first: Engine, second: Engine, games: seq<Seating>, colour: bool)
    requires first != second
    requires LastWere(History(first, games), colour, 2) && !LastWere(History(second, games), colour, 2)
    ensures Colours(first, second, games) == (if colour then (second, first) else (first, second))
    ensures Colours(second, first, games) == (if colour then (second, first) else (first, second))
  {
    var h1, h2 := History(first, games), History(second, games);
    assert h1[|h1| - 1] == colour;
    assert |h2| > 0 ==> h2[|h2| - 1] == colour || h2[|h2| - 1] == !colour;
    BalanceTermsAreSmall(Balance(first, games), Balance(second, games));
  }

  /**
   A third game in a row with one colour goes to an engine only when its opponent's last two
   games had that colour too.
   */
  lemma {:induction false} ThirdInARowOnlyAgainstSameStreak(first: Engine, second: Engine, games: seq<Seating>, e: Engine, colour: bool)
    requires first != second && (e == first || e == second)
    requires LastWere(History(e, games), colour, 2)
    requires e == (if colour then Colours(first, second, games).0 else Colours(first, second, games).1)
    ensures LastWere(History(if e == first then second else first, games), colour, 2)
  {
    var other := if e == first then second else first;
    if !LastWere(History(other, games), colour, 2) {
      StreakIsBroken(e, other, games, colour);
    }
  }
}
