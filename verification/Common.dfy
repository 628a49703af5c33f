/** Small vocabulary shared by the whole project. */
module Common {

  /** A value that may be absent: a nullable column, or Python's None. */
  datatype Option<+T> = None | Some(value: T)

  /** No element occurs twice. */
  ghost predicate Distinct<T(!new)>(xs: seq<T>) {
    forall i, j :: 0 <= i < j < |xs| ==> xs[i] != xs[j]
  }

  lemma {:induction false} DistinctByMultiset<T(!new)>(xs: seq<T>, ys: seq<T>)
    requires Distinct(xs) && multiset(ys) == multiset(xs)
    ensures Distinct(ys)
  {
    forall i, j | 0 <= i < j < |ys| ensures ys[i] != ys[j] {
      if ys[i] == ys[j] {
        var e := ys[i];
        assert ys == ys[..i] + [e] + ys[i + 1..j] + [e] + ys[j + 1..];
        assert multiset(ys)[e] >= 2;
        DistinctCountsOnce(xs, e);
      }
    }
  }

  lemma {:induction false} DistinctCountsOnce<T(!new)>(xs: seq<T>, e: T)
    requires Distinct(xs)
    ensures multiset(xs)[e] <= 1
  {
    if xs != [] {
      var k := |xs| - 1;
      assert xs == xs[..k] + [xs[k]];
      DistinctCountsOnce(xs[..k], e);
      if xs[k] == e {
        assert e !in xs[..k];
      }
    }
  }

  lemma {:induction false} SameDistinctElements<T(!new)>(xs: seq<T>, ys: seq<T>)
    requires Distinct(xs) && Distinct(ys)
    requires forall i :: 0 <= i < |xs| ==> xs[i] in ys
    requires forall i :: 0 <= i < |ys| ==> ys[i] in xs
    ensures multiset(xs) == multiset(ys) && |xs| == |ys|
  {
    forall e ensures multiset(xs)[e] == multiset(ys)[e] {
      DistinctCountsOnce(xs, e);
      DistinctCountsOnce(ys, e);
      assert e in xs <==> e in multiset(xs);
      assert e in ys <==> e in multiset(ys);
    }
    assert multiset(xs) == multiset(ys);
    assert |xs| == |multiset(xs)| && |ys| == |multiset(ys)|;
  }
}
