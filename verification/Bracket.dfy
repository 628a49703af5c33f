/**
 Bracket seeding (cope/runner/scheduler.py): the order in which seed numbers enter a
 knockout bracket, for every power of two.
 */
module Bracket {
  import opened Common

  function Pow2(k: nat): (p: nat)
    ensures p >= 1
  {
    if k == 0 then 1 else 2 * Pow2(k - 1)
  }

  /** Each seed followed by its mirror image. */
  function Expand(order: seq<int>, mirror: int): (wider: seq<int>)
    ensures |wider| == 2 * |order|
  {
    seq(2 * |order|, i requires 0 <= i < 2 * |order| => if i % 2 == 0 then order[i / 2] else mirror - order[i / 2])
  }

  /** The seed order of a bracket of 2^k places. */
  function SeedOrder(k: nat): (order: seq<int>)
    ensures |order| == Pow2(k)
  {
    if k == 0 then [1] else Expand(SeedOrder(k - 1), Pow2(k) + 1)
  }

  method BracketSeedOrder(size: nat) returns (order: seq<int>)
    ensures |order| == size
    ensures forall k :: size == Pow2(k) ==> order == SeedOrder(k)
  {
    order := [1, 2];
    ghost var k := 1;
    assert SeedOrder(0) == [1] && SeedOrder(1) == [1, 2];
    while |order| < size
      invariant k >= 1 && order == SeedOrder(k)
      invariant k == 1 || Pow2(k - 1) < size
      decreases size - |order|
    {
      var mirror := |order| * 2 + 1;
      order := Expand(order, mirror);
      k := k + 1;
    }
    CutOrder(size, k);
    order := order[..size];
  }

  /** Cutting the first order that is long enough down to a power of two gives the order of that size. */
  lemma {:induction false} CutOrder(size: nat, k: nat)
    requires k >= 1 && size <= Pow2(k) && (k == 1 || Pow2(k - 1) < size)
    ensures forall j: nat :: size == Pow2(j) ==> SeedOrder(k)[..size] == SeedOrder(j)
  {
    assert SeedOrder(0) == [1] && SeedOrder(1) == [1, 2];
    forall j: nat | size == Pow2(j) ensures SeedOrder(k)[..size] == SeedOrder(j) {
      if j < k {
        Pow2Monotone(j, k - 1);
      } else if k < j {
        Pow2Monotone(k, j - 1);
      }
    }
  }

  lemma {:induction false} Pow2Monotone(j: nat, k: nat)
    requires j <= k
    ensures Pow2(j) <= Pow2(k)
    decreases k - j
  {
    if j < k {
      Pow2Monotone(j, k - 1);
    }
  }

  /** One unfolding of the order. */
  lemma {:induction false} OrderStep(k: nat, i: nat)
    requires k >= 1 && i / 2 < Pow2(k - 1)
    ensures Pow2(k) == 2 * Pow2(k - 1)
    ensures SeedOrder(k)[i] == if i % 2 == 0 then SeedOrder(k - 1)[i / 2] else Pow2(k) + 1 - SeedOrder(k - 1)[i / 2]
  {
  }

  // ---------------------------------------------------------------- permutation

  /** Where a seed stands. */
  function Position(k: nat, seed: int): (i: nat)
    requires 1 <= seed <= Pow2(k)
    ensures i < Pow2(k)
  {
    if k == 0 then 0
    else if seed <= Pow2(k - 1) then 2 * Position(k - 1, seed)
    else 2 * Position(k - 1, Pow2(k) + 1 - seed) + 1
  }

  /** Every seed from 1 to 2^k stands at exactly one place. */
  lemma {:induction false} SeedOrderIsPermutation(k: nat, i: nat, seed: int)
    requires i < Pow2(k) && 1 <= seed <= Pow2(k)
    ensures 1 <= SeedOrder(k)[i] <= Pow2(k)
    ensures SeedOrder(k)[i] == seed <==> i == Position(k, seed)
  {
    if k > 0 {
      OrderStep(k, i);
      var s := if seed <= Pow2(k - 1) then seed else Pow2(k) + 1 - seed;
      SeedOrderIsPermutation(k - 1, i / 2, s);
    }
  }

  // ---------------------------------------------------------------- the shape of the bracket

  /** First-round neighbours add up to 2^k + 1, the better of them is the seed order one round on. */
  lemma {:induction false} FavouritesAdvance(k: nat, i: nat)
    requires k >= 1 && i < Pow2(k - 1)
    ensures var first, second := SeedOrder(k)[2 * i], SeedOrder(k)[2 * i + 1];
            && first + second == Pow2(k) + 1
            && (if first < second then first else second) == SeedOrder(k - 1)[i]
            && SeedOrder(k - 1)[i] <= Pow2(k - 1)
  {
    hide SeedOrder, Pow2, Position;
    OrderStep(k, 2 * i);
    OrderStep(k, 2 * i + 1);
    SeedOrderIsPermutation(k - 1, i, 1);
  }

  /** With more than half the places taken, no first-round match is empty. */
  lemma {:induction false} NoEmptyMatch(k: nat, i: nat, entrants: nat)
    requires k >= 1 && i < Pow2(k - 1) && Pow2(k - 1) < entrants
    ensures SeedOrder(k)[2 * i] <= entrants || SeedOrder(k)[2 * i + 1] <= entrants
  {
    FavouritesAdvance(k, i);
  }

  /** A multiple of 2q is an even number whose half is a multiple of q. */
  lemma {:induction false} HalveMultiple(i: nat, q: nat)
    requires q >= 1
    ensures i % (2 * q) == 0 <==> (i % 2 == 0 && (i / 2) % q == 0)
  {
    if i % (2 * q) == 0 {
      var t := i / (2 * q);
      assert i == 2 * (q * t);
      assert i / 2 == q * t;
      MultipleHasNoRemainder(q, t);
    }
    if i % 2 == 0 && (i / 2) % q == 0 {
      var t := (i / 2) / q;
      assert i / 2 == q * t;
      assert i == (2 * q) * t;
      MultipleHasNoRemainder(2 * q, t);
    }
  }

  lemma {:induction false} MultipleHasNoRemainder(q: nat, t: nat)
    requires q >= 1
    ensures (q * t) % q == 0
  {
    var x := q * t;
    var d := t - x / q;
    assert x == q * (x / q) + x % q;
    assert q * d == q * t - q * (x / q);
  }

  /**
   The top 2^(k-m) seeds stand exactly at the starts of the aligned blocks of length 2^m,
   so every such block holds one of them and no more.
   */
  lemma {:induction false} TopSeedsAreSpread(k: nat, m: nat, i: nat)
    requires m <= k && i < Pow2(k)
    ensures SeedOrder(k)[i] <= Pow2(k - m) <==> i % Pow2(m) == 0
    decreases m
  {
    SeedOrderIsPermutation(k, i, 1);
    if m > 0 {
      HalveMultiple(i, Pow2(m - 1));
      SeedOrderIsPermutation(k - 1, i / 2, 1);
      Pow2Monotone(k - m, k - 1);
      OrderStep(k, i);
      TopSeedsAreSpread(k - 1, m - 1, i / 2);
    }
  }

  /** The first place of block b, for blocks of length 2^m. */
  function BlockStart(m: nat, b: nat): nat
  {
    if m == 0 then b else 2 * BlockStart(m - 1, b)
  }

  lemma {:induction false} BlockStartIsProduct(m: nat, b: nat)
    ensures BlockStart(m, b) == b * Pow2(m)
  {
    if m > 0 {
      BlockStartIsProduct(m - 1, b);
    }
  }

  /** The one top seed in block b is the seed that stands at place b of the smaller bracket. */
  lemma {:induction false} BlockLeader(k: nat, m: nat, b: nat)
    requires m <= k && b < Pow2(k - m)
    ensures BlockStart(m, b) < Pow2(k)
    ensures SeedOrder(k)[BlockStart(m, b)] == SeedOrder(k - m)[b]
    decreases m
  {
    hide SeedOrder, Pow2;
    if m > 0 {
      BlockLeader(k - 1, m - 1, b);
      OrderStep(k, BlockStart(m, b));
    }
  }
}
