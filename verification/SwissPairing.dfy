/**
 The Swiss pairing search (cope/runner/scheduler.py): backtracking over partners sorted by
 (rematch, score gap, rank gap), first without rematches, then with them.

 The search is compared with an independent notion, a perfect matching given as a partner
 map, and with the lexicographic order on matchings.
 */
module SwissPairing {
  import opened Common

  type Engine = int

  /** Scores in half points, rank positions and the opponents each engine has already met. */
  datatype Standing = Standing(points: map<Engine, int>, rank: map<Engine, int>, opponents: map<Engine, set<Engine>>)

  datatype Key = Key(rematch: bool, scoreGap: nat, rankGap: nat)

  predicate KeyLess(a: Key, b: Key)
  {
    if a.rematch != b.rematch then b.rematch
    else if a.scoreGap != b.scoreGap then a.scoreGap < b.scoreGap
    else a.rankGap < b.rankGap
  }

  function Abs(x: int): nat { if x < 0 then -x else x }

  function Lookup<V>(m: map<Engine, V>, e: Engine, default: V): V
  {
    if e in m then m[e] else default
  }

  predicate Rematch(s: Standing, first: Engine, second: Engine)
  {
    second in Lookup(s.opponents, first, {})
  }

  function PartnerKey(s: Standing, first: Engine, second: Engine): Key
  {
    Key(Rematch(s, first, second),
        Abs(Lookup(s.points, first, 0) - Lookup(s.points, second, 0)),
        Abs(Lookup(s.rank, first, 0) - Lookup(s.rank, second, 0)))
  }

  // ---------------------------------------------------------------- the search

  function Without(xs: seq<Engine>, x: Engine): (ys: seq<Engine>)
    ensures |ys| <= |xs|
    ensures forall y :: y in ys <==> y in xs && y != x
  {
    if xs == [] then []
    else if xs[0] == x then Without(xs[1..], x)
    else [xs[0]] + Without(xs[1..], x)
  }

  /** Stable insertion, so that Sorted is Python's stable sort by key. */
  function Insert(s: Standing, first: Engine, x: Engine, ys: seq<Engine>): (zs: seq<Engine>)
    ensures |zs| == |ys| + 1
    ensures forall z :: z in zs <==> z == x || z in ys
  {
    if ys == [] then [x]
    else if KeyLess(PartnerKey(s, first, ys[0]), PartnerKey(s, first, x)) then [ys[0]] + Insert(s, first, x, ys[1..])
    else [x] + ys
  }

  function Sorted(s: Standing, first: Engine, xs: seq<Engine>): (ys: seq<Engine>)
    ensures |ys| == |xs|
    ensures forall y :: y in ys <==> y in xs
  {
    if xs == [] then [] else Insert(s, first, xs[0], Sorted(s, first, xs[1..]))
  }

  function Pair(s: Standing, remaining: seq<Engine>, allowRematches: bool): (r: Option<seq<(Engine, Engine)>>)
    decreases |remaining|, 0
  {
    if remaining == [] then Some([])
    else
      var first, others := remaining[0], remaining[1..];
      TryPartners(s, first, others, Sorted(s, first, others), allowRematches)
  }

  /** The loop over the sorted candidates: the first one whose rest can be paired wins. */
  function TryPartners(s: Standing, first: Engine, others: seq<Engine>, candidates: seq<Engine>, allowRematches: bool)
    : (r: Option<seq<(Engine, Engine)>>)
    decreases |others|, 1 + |candidates|
  {
    if candidates == [] then None
    else
      var second, later := candidates[0], candidates[1..];
      if !allowRematches && Rematch(s, first, second) then TryPartners(s, first, others, later, allowRematches)
      else
        var pairedRest := Pair(s, Without(others, second), allowRematches);
        if pairedRest.Some? then Some([(first, second)] + pairedRest.value)
        else TryPartners(s, first, others, later, allowRematches)
  }

  function RankOf(ranked: seq<Engine>): map<Engine, int>
  {
    map e | e in ranked :: LastIndex(ranked, e)
  }

  /** enumerate() into a dictionary keeps the last position of a value. */
  function LastIndex(ranked: seq<Engine>, e: Engine): (i: nat)
    requires e in ranked
    ensures i < |ranked| && ranked[i] == e
  {
    if ranked[|ranked| - 1] == e then |ranked| - 1 else LastIndex(ranked[..|ranked| - 1], e)
  }

  /** An answer that Python's `or` accepts: not None and not the empty list. */
  predicate Truthy(r: Option<seq<(Engine, Engine)>>) { r.Some? && r.value != [] }

  function SwissPairings(ranked: seq<Engine>, points: map<Engine, int>, opponents: map<Engine, set<Engine>>)
    : (pairs: seq<(Engine, Engine)>)
  {
    var s := Standing(points, RankOf(ranked), opponents);
    var strict := Pair(s, ranked, false);
    if Truthy(strict) then strict.value
    else
      var relaxed := Pair(s, ranked, true);
      if Truthy(relaxed) then relaxed.value else []
  }

  // ---------------------------------------------------------------- what a pairing is

  /** m pairs off the list: each time the first engine left takes a partner among the others. */
  ghost predicate IsPairing(remaining: seq<Engine>, m: seq<(Engine, Engine)>)
    decreases |remaining|
  {
    if remaining == [] then m == []
    else
      && m != [] && m[0].0 == remaining[0] && m[0].1 in remaining[1..]
      && IsPairing(Without(remaining[1..], m[0].1), m[1..])
  }

  ghost predicate NoRematch(s: Standing, m: seq<(Engine, Engine)>)
  {
    forall i :: 0 <= i < |m| ==> !Rematch(s, m[i].0, m[i].1)
  }

  /** Admissible under the current pass: a pairing, free of rematches unless they are allowed. */
  ghost predicate Admissible(s: Standing, remaining: seq<Engine>, allowRematches: bool, m: seq<(Engine, Engine)>)
  {
    IsPairing(remaining, m) && (allowRematches || NoRematch(s, m))
  }

  /** m comes before n: at the first difference, m's partner has the smaller key. */
  ghost predicate LexBefore(s: Standing, m: seq<(Engine, Engine)>, n: seq<(Engine, Engine)>)
  {
    m != [] && n != [] &&
    if m[0] == n[0] then LexBefore(s, m[1..], n[1..])
    else m[0].0 == n[0].0 && KeyLess(PartnerKey(s, m[0].0, m[0].1), PartnerKey(s, n[0].0, n[0].1))
  }

  /** The list is in rank order, so every later engine ranks strictly lower. */
  ghost predicate InRankOrder(s: Standing, xs: seq<Engine>)
  {
    && (forall i :: 0 <= i < |xs| ==> xs[i] in s.rank)
    && (forall i, j :: 0 <= i < j < |xs| ==> s.rank[xs[i]] < s.rank[xs[j]])
  }

  ghost predicate StrictlySorted(s: Standing, first: Engine, ys: seq<Engine>)
  {
    forall i, j :: 0 <= i < j < |ys| ==> KeyLess(PartnerKey(s, first, ys[i]), PartnerKey(s, first, ys[j]))
  }

  // ---------------------------------------------------------------- sorting

  ghost predicate BelowAll(s: Standing, first: Engine, x: Engine, ys: seq<Engine>)
  {
    forall y :: y in ys ==> PartnerKey(s, first, y).rankGap != PartnerKey(s, first, x).rankGap
  }

  lemma {:induction false} InsertKeepsSorted(s: Standing, first: Engine, x: Engine, ys: seq<Engine>)
    requires StrictlySorted(s, first, ys) && BelowAll(s, first, x, ys)
    ensures StrictlySorted(s, first, Insert(s, first, x, ys))
  {
    if ys != [] {
      assert forall y :: y in ys[1..] ==> y in ys;
      if KeyLess(PartnerKey(s, first, ys[0]), PartnerKey(s, first, x)) {
        InsertKeepsSorted(s, first, x, ys[1..]);
        var tail := Insert(s, first, x, ys[1..]);
        forall j | 0 <= j < |tail| ensures KeyLess(PartnerKey(s, first, ys[0]), PartnerKey(s, first, tail[j])) {
          assert tail[j] == x || tail[j] in ys[1..];
        }
      } else {
        assert ys[0] in ys;
        assert KeyLess(PartnerKey(s, first, x), PartnerKey(s, first, ys[0]));
      }
    }
  }

  lemma {:induction false} SortedIsStrict(s: Standing, first: Engine, xs: seq<Engine>)
    requires InRankOrder(s, [first] + xs)
    ensures StrictlySorted(s, first, Sorted(s, first, xs))
  {
    if xs != [] {
      var list := [first] + xs;
      assert list[0] == first && list[1] == xs[0];
      assert forall k :: 0 < k < |xs| ==> list[k + 1] == xs[k];
      assert InRankOrder(s, [first] + xs[1..]) by {
        var shorter := [first] + xs[1..];
        forall i | 0 <= i < |shorter| ensures shorter[i] == list[if i == 0 then 0 else i + 1] {}
      }
      SortedIsStrict(s, first, xs[1..]);
      InsertKeepsSorted(s, first, xs[0], Sorted(s, first, xs[1..]));
    }
  }

  lemma {:induction false} WithoutKeepsOrder(s: Standing, xs: seq<Engine>, x: Engine)
    requires InRankOrder(s, xs)
    ensures InRankOrder(s, Without(xs, x))
  {
    if xs != [] {
      assert forall i :: 0 <= i < |xs| - 1 ==> xs[1..][i] == xs[i + 1];
      WithoutKeepsOrder(s, xs[1..], x);
      var tail := Without(xs[1..], x);
      forall j | 0 <= j < |tail| ensures s.rank[xs[0]] < s.rank[tail[j]] {
        assert tail[j] in xs[1..];
      }
    }
  }

  /** Without drops every occurrence, and nothing else. */
  lemma {:induction false} WithoutMultiset(xs: seq<Engine>, x: Engine)
    ensures multiset(Without(xs, x)) == multiset(xs)[x := 0]
  {
    if xs != [] {
      WithoutMultiset(xs[1..], x);
      assert xs == [xs[0]] + xs[1..];
    }
  }

  lemma {:induction false} OccursOnce(s: Standing, xs: seq<Engine>, x: Engine)
    requires InRankOrder(s, xs) && x in xs
    ensures multiset(xs)[x] == 1
  {
    TailOrder(s, xs);
    if xs[0] == x {
      assert x !in xs[1..];
    } else {
      OccursOnce(s, xs[1..], x);
    }
  }

  lemma {:induction false} WithoutOne(s: Standing, xs: seq<Engine>, x: Engine)
    requires InRankOrder(s, xs) && x in xs
    ensures multiset(xs) == multiset(Without(xs, x)) + multiset{x}
    ensures |xs| == |Without(xs, x)| + 1
  {
    WithoutMultiset(xs, x);
    OccursOnce(s, xs, x);
    assert |multiset(xs)| == |multiset(Without(xs, x)) + multiset{x}|;
  }

  lemma {:induction false} WithoutAbsent(xs: seq<Engine>, x: Engine)
    requires x !in xs
    ensures Without(xs, x) == xs
  {
    if xs != [] {
      WithoutAbsent(xs[1..], x);
    }
  }

  lemma {:induction false} TailOrder(s: Standing, xs: seq<Engine>)
    requires xs != [] && InRankOrder(s, xs)
    ensures InRankOrder(s, xs[1..])
    ensures [xs[0]] + xs[1..] == xs
  {
  }

  // ---------------------------------------------------------------- soundness

  /** Whatever the search returns is an admissible pairing. */
  lemma {:induction false} PairIsSound(s: Standing, remaining: seq<Engine>, allowRematches: bool)
    ensures var r := Pair(s, remaining, allowRematches);
            r.Some? ==> Admissible(s, remaining, allowRematches, r.value)
    decreases |remaining|, 0
  {
    if remaining != [] {
      TryIsSound(s, remaining, Sorted(s, remaining[0], remaining[1..]), allowRematches);
    }
  }

  lemma {:induction false} TryIsSound(s: Standing, remaining: seq<Engine>, candidates: seq<Engine>, allowRematches: bool)
    requires remaining != []
    requires forall c :: c in candidates ==> c in remaining[1..]
    ensures var r := TryPartners(s, remaining[0], remaining[1..], candidates, allowRematches);
            r.Some? ==> Admissible(s, remaining, allowRematches, r.value)
    decreases |remaining| - 1, 1 + |candidates|
  {
    if candidates != [] {
      var first, others := remaining[0], remaining[1..];
      var second := candidates[0];
      TryIsSound(s, remaining, candidates[1..], allowRematches);
      if allowRematches || !Rematch(s, first, second) {
        var rest := Without(others, second);
        PairIsSound(s, rest, allowRematches);
        var paired := Pair(s, rest, allowRematches);
        if paired.Some? {
          var m := [(first, second)] + paired.value;
          assert m[1..] == paired.value;
        }
      }
    }
  }

  // ---------------------------------------------------------------- completeness and minimality

  /** r is admissible for the list and no admissible pairing comes before it. */
  ghost predicate AtLeastAsGood(s: Standing, r: Option<seq<(Engine, Engine)>>, m: seq<(Engine, Engine)>)
  {
    r.Some? && (r.value == m || LexBefore(s, r.value, m))
  }

  /** If an admissible pairing exists the search succeeds, with one that no other comes before. */
  lemma {:induction false} PairIsBest(s: Standing, remaining: seq<Engine>, allowRematches: bool, m: seq<(Engine, Engine)>)
    requires InRankOrder(s, remaining) && Admissible(s, remaining, allowRematches, m)
    ensures AtLeastAsGood(s, Pair(s, remaining, allowRematches), m)
    decreases |remaining|, 0
  {
    if remaining != [] {
      TailOrder(s, remaining);
      SortedIsStrict(s, remaining[0], remaining[1..]);
      TryIsBest(s, remaining, Sorted(s, remaining[0], remaining[1..]), allowRematches, m);
    }
  }

  lemma {:induction false} TryIsBest(
    s: Standing, remaining: seq<Engine>, candidates: seq<Engine>, allowRematches: bool, m: seq<(Engine, Engine)>)
    requires remaining != [] && InRankOrder(s, remaining)
    requires StrictlySorted(s, remaining[0], candidates)
    requires Admissible(s, remaining, allowRematches, m) && m[0].1 in candidates
    ensures AtLeastAsGood(s, TryPartners(s, remaining[0], remaining[1..], candidates, allowRematches), m)
    decreases |remaining| - 1, 1 + |candidates|
  {
    var first, others := remaining[0], remaining[1..];
    var second, later := candidates[0], candidates[1..];
    var target := m[0].1;
    assert !allowRematches ==> !Rematch(s, first, target);
    if target == second {
      var rest := Without(others, second);
      TailOrder(s, remaining);
      WithoutKeepsOrder(s, others, second);
      assert NoRematch(s, m) ==> NoRematch(s, m[1..]);
      PairIsBest(s, rest, allowRematches, m[1..]);
      var best := Pair(s, rest, allowRematches).value;
      assert ([(first, second)] + best)[1..] == best;
      assert m == [m[0]] + m[1..];
    } else {
      assert target in later;
      SortedTail(s, first, candidates);
      TryIsBest(s, remaining, later, allowRematches, m);
    }
  }

  lemma {:induction false} SortedTail(s: Standing, first: Engine, candidates: seq<Engine>)
    requires candidates != [] && StrictlySorted(s, first, candidates)
    ensures StrictlySorted(s, first, candidates[1..])
    ensures forall c :: c in candidates[1..] ==>
              KeyLess(PartnerKey(s, first, candidates[0]), PartnerKey(s, first, c))
  {
  }

  /** With rematches allowed, an even list can always be paired: neighbours. */
  ghost function Neighbours(remaining: seq<Engine>): (m: seq<(Engine, Engine)>)
    requires |remaining| % 2 == 0
  {
    if remaining == [] then [] else [(remaining[0], remaining[1])] + Neighbours(remaining[2..])
  }

  lemma {:induction false} NeighboursPair(s: Standing, remaining: seq<Engine>)
    requires |remaining| % 2 == 0 && InRankOrder(s, remaining)
    ensures IsPairing(remaining, Neighbours(remaining))
  {
    if remaining != [] {
      var others := remaining[1..];
      assert others[0] == remaining[1] && others[1..] == remaining[2..];
      assert forall i :: 0 <= i < |remaining| - 2 ==> remaining[2..][i] == remaining[i + 2];
      WithoutAbsent(others[1..], remaining[1]);
      NeighboursPair(s, remaining[2..]);
      var m := Neighbours(remaining);
      assert m[1..] == Neighbours(remaining[2..]);
    }
  }

  // ---------------------------------------------------------------- perfect matchings

  ghost function Elements(xs: seq<Engine>): set<Engine> { set x | x in xs }

  ghost predicate Mutual(partner: map<Engine, Engine>, e: Engine)
  {
    e in partner && partner[e] in partner && partner[e] != e && partner[partner[e]] == e
  }

  /** A partner map on the engines of the list: everyone has a partner, who has them as partner. */
  ghost predicate PerfectMatching(engines: seq<Engine>, partner: map<Engine, Engine>)
  {
    && partner.Keys == Elements(engines)
    && (forall e :: e in partner.Keys ==> Mutual(partner, e))
  }

  ghost predicate RematchFreeMatching(s: Standing, engines: seq<Engine>, partner: map<Engine, Engine>)
  {
    PerfectMatching(engines, partner) && forall e :: e in partner ==> !Rematch(s, e, partner[e])
  }

  /** Taking two partners out of a perfect matching leaves a perfect matching of the others. */
  lemma {:induction false} RemovePair(engines: seq<Engine>, partner: map<Engine, Engine>, rest: seq<Engine>, a: Engine, b: Engine)
    requires PerfectMatching(engines, partner) && a in partner && partner[a] == b
    requires Elements(rest) == Elements(engines) - {a, b}
    ensures PerfectMatching(rest, partner - {a, b})
  {
    var smaller := partner - {a, b};
    assert Mutual(partner, a);
    forall e | e in smaller.Keys ensures Mutual(smaller, e) {
      assert Mutual(partner, e);
      assert e != b && e != a;
    }
  }

  lemma {:induction false} HeadHasPartner(s: Standing, engines: seq<Engine>, partner: map<Engine, Engine>)
    requires engines != [] && InRankOrder(s, engines) && PerfectMatching(engines, partner)
    ensures engines[0] in partner && partner[engines[0]] in engines[1..]
    ensures Elements(Without(engines[1..], partner[engines[0]])) == Elements(engines) - {engines[0], partner[engines[0]]}
  {
    assert engines[0] in Elements(engines);
    assert Mutual(partner, engines[0]);
    var second := partner[engines[0]];
    assert second in Elements(engines);
    assert engines == [engines[0]] + engines[1..];
    assert engines[0] !in engines[1..];
  }

  /** Taking out the first engine and its partner leaves a perfect matching of the rest. */
  lemma {:induction false} MatchingWithoutPair(s: Standing, engines: seq<Engine>, partner: map<Engine, Engine>)
    requires engines != [] && InRankOrder(s, engines) && PerfectMatching(engines, partner)
    ensures engines[0] in partner
    ensures var first, second := engines[0], partner[engines[0]];
            var rest := Without(engines[1..], second);
            && second in engines[1..] && InRankOrder(s, rest) && |rest| < |engines|
            && PerfectMatching(rest, partner - {first, second})
  {
    HeadHasPartner(s, engines, partner);
    var second := partner[engines[0]];
    TailOrder(s, engines);
    WithoutKeepsOrder(s, engines[1..], second);
    RemovePair(engines, partner, Without(engines[1..], second), engines[0], second);
  }

  /** The pairing that lists a perfect matching from the best-ranked engine down. */
  ghost function Listing(s: Standing, engines: seq<Engine>, partner: map<Engine, Engine>): (m: seq<(Engine, Engine)>)
    requires InRankOrder(s, engines) && PerfectMatching(engines, partner)
    decreases |engines|
  {
    if engines == [] then []
    else
      assert engines[0] in Elements(engines);
      var second := partner[engines[0]];
      MatchingWithoutPair(s, engines, partner);
      [(engines[0], second)] + Listing(s, Without(engines[1..], second), partner - {engines[0], second})
  }

  lemma {:induction false} ListingIsPairing(s: Standing, engines: seq<Engine>, partner: map<Engine, Engine>)
    requires InRankOrder(s, engines) && PerfectMatching(engines, partner)
    ensures IsPairing(engines, Listing(s, engines, partner))
    ensures forall p :: p in Listing(s, engines, partner) ==> p.0 in partner && p.1 == partner[p.0]
    decreases |engines|
  {
    if engines != [] {
      var first, second := engines[0], partner[engines[0]];
      MatchingWithoutPair(s, engines, partner);
      ListingIsPairing(s, Without(engines[1..], second), partner - {first, second});
      assert Listing(s, engines, partner)[1..] == Listing(s, Without(engines[1..], second), partner - {first, second});
    }
  }

  /** All engines of a pairing, in the order they are listed. */
  ghost function Flatten(m: seq<(Engine, Engine)>): seq<Engine>
  {
    if m == [] then [] else [m[0].0, m[0].1] + Flatten(m[1..])
  }

  /** The first step of a pairing, taken apart. */
  lemma {:induction false} FirstPair(s: Standing, remaining: seq<Engine>, m: seq<(Engine, Engine)>)
    requires remaining != [] && InRankOrder(s, remaining) && IsPairing(remaining, m)
    ensures var rest := Without(remaining[1..], m[0].1);
            && InRankOrder(s, rest) && IsPairing(rest, m[1..])
            && m[0].0 != m[0].1 && m[0].0 !in rest && m[0].1 !in rest
  {
    TailOrder(s, remaining);
    assert remaining[0] !in remaining[1..];
    WithoutKeepsOrder(s, remaining[1..], m[0].1);
  }

  lemma {:induction false} FirstPairCounts(s: Standing, remaining: seq<Engine>, second: Engine)
    requires remaining != [] && InRankOrder(s, remaining) && second in remaining[1..]
    ensures var rest := Without(remaining[1..], second);
            && multiset(remaining) == multiset{remaining[0], second} + multiset(rest)
            && |remaining| == |rest| + 2
  {
    TailOrder(s, remaining);
    WithoutOne(s, remaining[1..], second);
  }

  /** A pairing uses every engine of the list exactly once. */
  lemma {:induction false} PairingUsesEachOnce(s: Standing, remaining: seq<Engine>, m: seq<(Engine, Engine)>)
    requires InRankOrder(s, remaining) && IsPairing(remaining, m)
    ensures multiset(Flatten(m)) == multiset(remaining)
    ensures |remaining| == 2 * |m|
    decreases |remaining|
  {
    if remaining != [] {
      FirstPair(s, remaining, m);
      FirstPairCounts(s, remaining, m[0].1);
      PairingUsesEachOnce(s, Without(remaining[1..], m[0].1), m[1..]);
    }
  }

  // ---------------------------------------------------------------- main results

  lemma {:induction false} RankedInOrder(ranked: seq<Engine>, s: Standing)
    requires Distinct(ranked) && s.rank == RankOf(ranked)
    ensures InRankOrder(s, ranked)
  {
    forall i | 0 <= i < |ranked| ensures s.rank[ranked[i]] == i {
      var k := LastIndex(ranked, ranked[i]);
      assert ranked[k] == ranked[i];
    }
  }

  /**
   The search without rematches succeeds exactly when a rematch-free perfect matching exists,
   and then returns the lexicographically first one.
   */
  lemma {:induction false} StrictSearchIsComplete(s: Standing, ranked: seq<Engine>)
    requires InRankOrder(s, ranked)
    ensures Pair(s, ranked, false).Some? <==> exists m :: Admissible(s, ranked, false, m)
    ensures (exists partner :: RematchFreeMatching(s, ranked, partner)) ==> Pair(s, ranked, false).Some?
    ensures forall m :: Admissible(s, ranked, false, m) ==> AtLeastAsGood(s, Pair(s, ranked, false), m)
  {
    PairIsSound(s, ranked, false);
    forall m | Admissible(s, ranked, false, m) ensures AtLeastAsGood(s, Pair(s, ranked, false), m) {
      PairIsBest(s, ranked, false, m);
    }
    if partner :| RematchFreeMatching(s, ranked, partner) {
      ListingIsPairing(s, ranked, partner);
      assert Admissible(s, ranked, false, Listing(s, ranked, partner));
    }
  }

  /** The partner map of a pairing. */
  ghost function PartnerMap(m: seq<(Engine, Engine)>): (p: map<Engine, Engine>)
    ensures forall e :: e in p <==> e in Flatten(m)
  {
    if m == [] then map[] else PartnerMap(m[1..])[m[0].0 := m[0].1][m[0].1 := m[0].0]
  }

  lemma {:induction false} AddPair(engines: seq<Engine>, partner: map<Engine, Engine>, bigger: seq<Engine>, a: Engine, b: Engine)
    requires PerfectMatching(engines, partner) && a != b && a !in engines && b !in engines
    requires multiset(bigger) == multiset{a, b} + multiset(engines)
    ensures PerfectMatching(bigger, partner[a := b][b := a])
  {
    var larger := partner[a := b][b := a];
    assert forall e :: e in bigger <==> e in multiset(bigger);
    assert forall e :: e in engines <==> e in multiset(engines);
    forall e | e in larger.Keys ensures Mutual(larger, e) {
      if e != a && e != b {
        assert Mutual(partner, e) && Mutual(partner, partner[e]);
      }
    }
  }

  lemma {:induction false} PairingIsMatching(s: Standing, remaining: seq<Engine>, m: seq<(Engine, Engine)>)
    requires InRankOrder(s, remaining) && IsPairing(remaining, m)
    ensures PerfectMatching(remaining, PartnerMap(m))
    decreases |remaining|
  {
    if remaining != [] {
      var rest := Without(remaining[1..], m[0].1);
      FirstPair(s, remaining, m);
      FirstPairCounts(s, remaining, m[0].1);
      PairingIsMatching(s, rest, m[1..]);
      AddPair(rest, PartnerMap(m[1..]), remaining, m[0].0, m[0].1);
    }
  }

  lemma {:induction false} PartnerMapRematchFree(s: Standing, m: seq<(Engine, Engine)>)
    requires (forall a, b :: Rematch(s, a, b) <==> Rematch(s, b, a)) && NoRematch(s, m)
    ensures forall e :: e in PartnerMap(m) ==> !Rematch(s, e, PartnerMap(m)[e])
  {
    if m != [] {
      assert NoRematch(s, m[1..]);
      PartnerMapRematchFree(s, m[1..]);
      assert !Rematch(s, m[0].0, m[0].1);
    }
  }

  // ---------------------------------------------------------------- the preference, in points, places and games played

  /** The first engine's history names the second. */
  ghost predicate Met(opponents: map<Engine, set<Engine>>, a: Engine, b: Engine)
  {
    a in opponents && b in opponents[a]
  }

  ghost predicate FreshPairing(opponents: map<Engine, set<Engine>>, m: seq<(Engine, Engine)>)
  {
    forall i :: 0 <= i < |m| ==> !Met(opponents, m[i].0, m[i].1)
  }

  /** A perfect matching of the field in which nobody meets an engine of its history. */
  ghost predicate FreshMatching(opponents: map<Engine, set<Engine>>, engines: seq<Engine>, partner: map<Engine, Engine>)
  {
    PerfectMatching(engines, partner) && forall e :: e in partner ==> !Met(opponents, e, partner[e])
  }

  ghost predicate SymmetricHistory(opponents: map<Engine, set<Engine>>)
  {
    forall a, b :: Met(opponents, a, b) <==> Met(opponents, b, a)
  }

  /** Half points between two engines, whoever has more. */
  ghost function PointsApart(points: map<Engine, int>, a: Engine, b: Engine): int
  {
    var ahead := (if a in points then points[a] else 0) - (if b in points then points[b] else 0);
    if ahead >= 0 then ahead else 0 - ahead
  }

  ghost predicate StandsBefore(ranked: seq<Engine>, a: Engine, b: Engine)
  {
    exists i, j :: 0 <= i < j < |ranked| && ranked[i] == a && ranked[j] == b
  }

  /** One partner before another: an engine not met before, then the smaller gap in points, then the better place. */
  ghost predicate Preferred(
    ranked: seq<Engine>, points: map<Engine, int>, opponents: map<Engine, set<Engine>>, first: Engine, own: Engine, rival: Engine)
  {
    if Met(opponents, first, own) != Met(opponents, first, rival) then Met(opponents, first, rival)
    else
      || PointsApart(points, first, own) < PointsApart(points, first, rival)
      || (PointsApart(points, first, own) == PointsApart(points, first, rival) && StandsBefore(ranked, own, rival))
  }

  /** Both pairings agree on the first k pairs; then the same engine has a preferred partner in the first. */
  ghost predicate BetterFrom(
    ranked: seq<Engine>, points: map<Engine, int>, opponents: map<Engine, set<Engine>>,
    m: seq<(Engine, Engine)>, n: seq<(Engine, Engine)>, k: nat)
  {
    && k < |m| && k < |n| && m[..k] == n[..k] && m[k].0 == n[k].0
    && Preferred(ranked, points, opponents, m[k].0, m[k].1, n[k].1)
  }

  lemma {:induction false} KeysMeanPreference(ranked: seq<Engine>, s: Standing, first: Engine, own: Engine, rival: Engine)
    requires Distinct(ranked) && s.rank == RankOf(ranked) && first in ranked && own in ranked && rival in ranked
    requires s.rank[first] < s.rank[own] && s.rank[first] < s.rank[rival]
    requires KeyLess(PartnerKey(s, first, own), PartnerKey(s, first, rival))
    ensures Preferred(ranked, s.points, s.opponents, first, own, rival)
  {
    assert ranked[s.rank[own]] == own && ranked[s.rank[rival]] == rival;
  }

  /** Where the first pairs differ, both partners stand behind the same first engine. */
  lemma {:induction false} FirstDifference(
    ranked: seq<Engine>, s: Standing, remaining: seq<Engine>, m: seq<(Engine, Engine)>, n: seq<(Engine, Engine)>)
    requires Distinct(ranked) && s.rank == RankOf(ranked) && InRankOrder(s, remaining)
    requires IsPairing(remaining, m) && IsPairing(remaining, n) && LexBefore(s, m, n) && m[0] != n[0]
    ensures BetterFrom(ranked, s.points, s.opponents, m, n, 0)
  {
    hide KeyLess, PartnerKey, Preferred, Without;
    var i :| 0 <= i < |remaining| - 1 && remaining[1..][i] == m[0].1;
    var j :| 0 <= j < |remaining| - 1 && remaining[1..][j] == n[0].1;
    assert remaining[i + 1] == m[0].1 && remaining[j + 1] == n[0].1;
    KeysMeanPreference(ranked, s, remaining[0], m[0].1, n[0].1);
  }

  lemma {:induction false} OnePairLater(
    ranked: seq<Engine>, points: map<Engine, int>, opponents: map<Engine, set<Engine>>,
    m: seq<(Engine, Engine)>, n: seq<(Engine, Engine)>, k: nat)
    requires m != [] && n != [] && m[0] == n[0] && BetterFrom(ranked, points, opponents, m[1..], n[1..], k)
    ensures BetterFrom(ranked, points, opponents, m, n, k + 1)
  {
    hide Preferred;
    assert m[..k + 1] == [m[0]] + m[1..][..k] && n[..k + 1] == [n[0]] + n[1..][..k];
  }

  lemma {:induction false} LexIsNotEmpty(s: Standing, m: seq<(Engine, Engine)>, n: seq<(Engine, Engine)>)
    requires LexBefore(s, m, n)
    ensures m != [] && n != []
  {
  }

  /** Behind a common first pair both are pairings of the rest, in the same order. */
  lemma {:induction false} TailsFollow(s: Standing, remaining: seq<Engine>, m: seq<(Engine, Engine)>, n: seq<(Engine, Engine)>)
    requires InRankOrder(s, remaining) && IsPairing(remaining, m) && IsPairing(remaining, n)
    requires LexBefore(s, m, n) && m[0] == n[0]
    ensures var rest := Without(remaining[1..], m[0].1);
            && remaining != [] && |rest| < |remaining| && InRankOrder(s, rest)
            && IsPairing(rest, m[1..]) && IsPairing(rest, n[1..]) && LexBefore(s, m[1..], n[1..])
  {
    hide KeyLess, PartnerKey, InRankOrder, Without;
    FirstPair(s, remaining, m);
    FirstPair(s, remaining, n);
  }

  /** Coming first in the order of the search is coming first in the order of preference. */
  lemma {:induction false} LexIsPreference(
    ranked: seq<Engine>, s: Standing, remaining: seq<Engine>, m: seq<(Engine, Engine)>, n: seq<(Engine, Engine)>)
    returns (k: nat)
    requires Distinct(ranked) && s.rank == RankOf(ranked) && InRankOrder(s, remaining)
    requires IsPairing(remaining, m) && IsPairing(remaining, n) && LexBefore(s, m, n)
    ensures BetterFrom(ranked, s.points, s.opponents, m, n, k)
    decreases |remaining|
  {
    hide KeyLess, PartnerKey, BetterFrom, InRankOrder, RankOf, IsPairing, LexBefore, Without;
    LexIsNotEmpty(s, m, n);
    if m[0] == n[0] {
      TailsFollow(s, remaining, m, n);
      var tail := LexIsPreference(ranked, s, Without(remaining[1..], m[0].1), m[1..], n[1..]);
      k := tail + 1;
      OnePairLater(ranked, s.points, s.opponents, m, n, tail);
    } else {
      k := 0;
      FirstDifference(ranked, s, remaining, m, n);
    }
  }

  lemma {:induction false} RematchIsMet(s: Standing, a: Engine, b: Engine)
    ensures Rematch(s, a, b) <==> Met(s.opponents, a, b)
  {
  }

  lemma {:induction false} NoRematchIsFresh(s: Standing, m: seq<(Engine, Engine)>)
    ensures NoRematch(s, m) <==> FreshPairing(s.opponents, m)
  {
    hide Rematch, Met;
    forall i | 0 <= i < |m| ensures Rematch(s, m[i].0, m[i].1) <==> Met(s.opponents, m[i].0, m[i].1) {
      RematchIsMet(s, m[i].0, m[i].1);
    }
  }

  lemma {:induction false} MatchingsAgree(s: Standing, ranked: seq<Engine>, partner: map<Engine, Engine>)
    ensures RematchFreeMatching(s, ranked, partner) <==> FreshMatching(s.opponents, ranked, partner)
  {
    hide Rematch, Met;
    forall e | e in partner ensures Rematch(s, e, partner[e]) <==> Met(s.opponents, e, partner[e]) {
      RematchIsMet(s, e, partner[e]);
    }
  }

  /** The result is the other pairing, or comes before it where both may be rematch-free. */
  ghost predicate NotBeaten(
    ranked: seq<Engine>, points: map<Engine, int>, opponents: map<Engine, set<Engine>>,
    result: seq<(Engine, Engine)>, m: seq<(Engine, Engine)>)
  {
    IsPairing(ranked, m) && (FreshPairing(opponents, m) || !FreshPairing(opponents, result)) && m != result ==>
      && LexBefore(Standing(points, RankOf(ranked), opponents), result, m)
      && exists k: nat :: BetterFrom(ranked, points, opponents, result, m, k)
  }

  /**
   Swiss pairing of an even field of distinct engines with a symmetric opponent history: every
   engine is paired exactly once; the result is free of rematches if and only if a rematch-free
   perfect matching exists; and against every other pairing, rematch-free where the result is, the
   first engine with another partner has one it prefers: not met before, then closer in points, then
   higher in the ranking.
   */
  lemma {:induction false} SwissPairingsCorrect(ranked: seq<Engine>, points: map<Engine, int>, opponents: map<Engine, set<Engine>>)
    requires Distinct(ranked) && |ranked| % 2 == 0 && SymmetricHistory(opponents)
    ensures var result := SwissPairings(ranked, points, opponents);
            && IsPairing(ranked, result)
            && multiset(Flatten(result)) == multiset(ranked)
            && (FreshPairing(opponents, result) <==> exists partner :: FreshMatching(opponents, ranked, partner))
            && (forall m :: NotBeaten(ranked, points, opponents, result, m))
  {
    hide FreshPairing, FreshMatching, NotBeaten, Rematch, Met, SwissPairings, IsPairing, InRankOrder, SymmetricHistory;
    var s := Standing(points, RankOf(ranked), opponents);
    var result := SwissPairings(ranked, points, opponents);
    ResultIsMatching(s, ranked, result);
    NoRematchIsFresh(s, result);
    if FreshPairing(opponents, result) {
      MatchingsAgree(s, ranked, PartnerMap(result));
    }
    if partner :| FreshMatching(opponents, ranked, partner) {
      MatchingsAgree(s, ranked, partner);
    }
    forall m ensures NotBeaten(ranked, points, opponents, result, m) {
      ResultIsNotBeaten(ranked, s, result, m);
    }
  }

  lemma {:induction false} ResultIsNotBeaten(
    ranked: seq<Engine>, s: Standing, result: seq<(Engine, Engine)>, m: seq<(Engine, Engine)>)
    requires Distinct(ranked) && |ranked| % 2 == 0 && s.rank == RankOf(ranked)
    requires result == SwissPairings(ranked, s.points, s.opponents) && IsPairing(ranked, result)
    ensures NotBeaten(ranked, s.points, s.opponents, result, m)
  {
    hide FreshPairing, Rematch, Met, IsPairing, InRankOrder, BetterFrom, LexBefore, RankOf;
    if IsPairing(ranked, m) && (FreshPairing(s.opponents, m) || !FreshPairing(s.opponents, result)) && m != result {
      RankedInOrder(ranked, s);
      NoRematchIsFresh(s, m);
      NoRematchIsFresh(s, result);
      ResultIsBest(s, ranked, result);
      var k := LexIsPreference(ranked, s, ranked, result, m);
    }
  }

  lemma {:induction false} ResultIsMatching(s: Standing, ranked: seq<Engine>, result: seq<(Engine, Engine)>)
    requires Distinct(ranked) && |ranked| % 2 == 0 && s.rank == RankOf(ranked) && SymmetricHistory(s.opponents)
    requires result == SwissPairings(ranked, s.points, s.opponents)
    ensures IsPairing(ranked, result) && multiset(Flatten(result)) == multiset(ranked)
    ensures NoRematch(s, result) ==> RematchFreeMatching(s, ranked, PartnerMap(result))
    ensures (exists partner :: RematchFreeMatching(s, ranked, partner)) ==> NoRematch(s, result)
  {
    hide Rematch;
    RankedInOrder(ranked, s);
    StrictSearchIsComplete(s, ranked);
    PairIsSound(s, ranked, false);
    PairIsSound(s, ranked, true);
    NeighboursPair(s, ranked);
    PairIsBest(s, ranked, true, Neighbours(ranked));
    if ranked == [] {
      assert result == [];
    }
    PairingUsesEachOnce(s, ranked, result);
    PairingIsMatching(s, ranked, result);
    if NoRematch(s, result) {
      forall a, b ensures Rematch(s, a, b) <==> Rematch(s, b, a) {
        RematchIsMet(s, a, b);
        RematchIsMet(s, b, a);
      }
      PartnerMapRematchFree(s, result);
    }
  }

  lemma {:induction false} ResultIsBest(s: Standing, ranked: seq<Engine>, result: seq<(Engine, Engine)>)
    requires InRankOrder(s, ranked) && |ranked| % 2 == 0
    requires result == (if Truthy(Pair(s, ranked, false)) then Pair(s, ranked, false).value
                        else if Truthy(Pair(s, ranked, true)) then Pair(s, ranked, true).value else [])
    ensures forall m :: IsPairing(ranked, m) && (NoRematch(s, m) || !NoRematch(s, result)) ==>
              m == result || LexBefore(s, result, m)
  {
    forall m | IsPairing(ranked, m) && (NoRematch(s, m) || !NoRematch(s, result))
      ensures m == result || LexBefore(s, result, m)
    {
      PairIsSound(s, ranked, false);
      PairIsBest(s, ranked, true, m);
      if NoRematch(s, m) {
        PairIsBest(s, ranked, false, m);
      }
    }
  }
}
