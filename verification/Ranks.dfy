/** Ranks of term ids.  The dense id of a term is the number of ids below its
    present one, which is what `row_number() OVER (ORDER BY term_id) - 1` is. */
module Ranks {

  function Below(ids: set<int>, x: int): set<int> {
    set y | y in ids && y < x
  }

  function Rank(ids: set<int>, x: int): nat {
    |Below(ids, x)|
  }

  /** The renumbering, as a map from each present id to its dense one. */
  function DenseMap(ids: set<int>): (m: map<int, int>)
    ensures m.Keys == ids
  {
    map x | x in ids :: Rank(ids, x)
  }

  /** The ids 0 .. n-1. */
  function Upto(n: nat): (r: set<int>)
    ensures forall i :: i in r <==> 0 <= i < n
    ensures |r| == n
  {
    if n == 0 then {} else Upto(n - 1) + {n - 1}
  }

  /** What the survey calls dense, from the count, the least and the greatest id. */
  predicate SurveyDense(ids: set<int>) {
    ids == {} || (Min(ids) == 0 && Max(ids) == |ids| - 1)
  }

  lemma Pick<T>(s: set<T>) returns (x: T)
    requires s != {}
    ensures x in s
  {
    x :| x in s;
  }

  lemma {:induction false} MinExists(s: set<int>)
    requires s != {}
    ensures exists m :: m in s && forall y | y in s :: m <= y
  {
    var x := Pick(s);
    if s == {x} {
      assert x in s && forall y | y in s :: x <= y;
    } else {
      assert s - {x} != {};
      MinExists(s - {x});
      var m :| m in s - {x} && forall y | y in s - {x} :: m <= y;
      var least := if x < m then x else m;
      forall y | y in s ensures least <= y { if y != x { assert y in s - {x}; } }
      assert least in s && forall y | y in s :: least <= y;
    }
  }

  function Min(s: set<int>): (m: int)
    requires s != {}
    ensures m in s && forall y | y in s :: m <= y
  {
    MinExists(s);
    var m :| m in s && forall y | y in s :: m <= y;
    m
  }

  lemma {:induction false} MaxExists(s: set<int>)
    requires s != {}
    ensures exists m :: m in s && forall y | y in s :: y <= m
  {
    var x := Pick(s);
    if s == {x} {
      assert x in s && forall y | y in s :: y <= x;
    } else {
      assert s - {x} != {};
      MaxExists(s - {x});
      var m :| m in s - {x} && forall y | y in s - {x} :: y <= m;
      var greatest := if x < m then m else x;
      forall y | y in s ensures y <= greatest { if y != x { assert y in s - {x}; } }
      assert greatest in s && forall y | y in s :: y <= greatest;
    }
  }

  function Max(s: set<int>): (m: int)
    requires s != {}
    ensures m in s && forall y | y in s :: y <= m
  {
    MaxExists(s);
    var m :| m in s && forall y | y in s :: y <= m;
    m
  }

  lemma {:induction false} SubsetSize<T>(a: set<T>, b: set<T>)
    requires a <= b
    ensures |a| <= |b|
    ensures |a| == |b| ==> a == b
  {
    assert b == a + (b - a);
    assert |b| == |a| + |b - a|;
    if |a| == |b| {
      assert b - a == {};
    }
  }

  ghost predicate Injective<K, V>(m: map<K, V>) {
    forall x, y {:trigger m[x], m[y]} | x in m && y in m :: m[x] == m[y] ==> x == y
  }

  /** An injective map has as many values as keys. */
  lemma {:induction false} InjectiveSize<K, V>(m: map<K, V>)
    requires Injective(m)
    ensures |m.Values| == |m.Keys|
  {
    if m.Keys != {} {
      var x := Pick(m.Keys);
      var rest := m - {x};
      InjectiveSize(rest);
      assert m[x] !in rest.Values;
      assert m.Keys == rest.Keys + {x};
      forall v | v in m.Values ensures v in rest.Values + {m[x]} {
        var k :| k in m && m[k] == v;
        if k != x { assert k in rest && rest[k] == v; }
      }
      assert m.Values == rest.Values + {m[x]};
    }
  }

  /** Renumbering keeps the order of ids, strictly. */
  lemma RankMonotone(ids: set<int>, x: int, y: int)
    requires x in ids && x < y
    ensures Rank(ids, x) < Rank(ids, y)
  {
    assert Below(ids, x) + {x} <= Below(ids, y);
    SubsetSize(Below(ids, x) + {x}, Below(ids, y));
  }

  lemma RankInRange(ids: set<int>, x: int)
    requires x in ids
    ensures Rank(ids, x) < |ids|
  {
    assert Below(ids, x) + {x} <= ids;
    SubsetSize(Below(ids, x) + {x}, ids);
  }

  /** Renumbering never raises an id. */
  lemma RankNeverRaises(ids: set<int>, x: int)
    requires forall y | y in ids :: 0 <= y
    requires 0 <= x
    ensures Rank(ids, x) <= x
  {
    assert Below(ids, x) <= Upto(x);
    SubsetSize(Below(ids, x), Upto(x));
  }

  /** Ranks are a bijection of the ids onto 0 .. n-1: every dense id is taken, by one id only. */
  lemma RankBijection(ids: set<int>)
    ensures Injective(DenseMap(ids))
    ensures DenseMap(ids).Values == Upto(|ids|)
  {
    assert Injective(DenseMap(ids)) by { RankInjective(ids); }
    assert DenseMap(ids).Values <= Upto(|ids|) by { DenseMapInRange(ids); }
    InjectiveIsOnto(DenseMap(ids), |ids|);
  }

  lemma InjectiveIsOnto(m: map<int, int>, n: nat)
    requires Injective(m) && m.Values <= Upto(n) && |m.Keys| == n
    ensures m.Values == Upto(n)
  {
    InjectiveSize(m);
    SubsetSize(m.Values, Upto(n));
  }

  lemma RankInjective(ids: set<int>)
    ensures Injective(DenseMap(ids))
  {
    var m := DenseMap(ids);
    forall x, y | x in m && y in m && m[x] == m[y] ensures x == y {
      if x < y { RankMonotone(ids, x, y); }
      if y < x { RankMonotone(ids, y, x); }
    }
  }

  lemma DenseMapInRange(ids: set<int>)
    ensures DenseMap(ids).Values <= Upto(|ids|)
  {
    var m := DenseMap(ids);
    forall i | i in m.Values ensures i in Upto(|ids|) {
      var x :| x in m && m[x] == i;
      RankInRange(ids, x);
    }
  }

  /** The pigeonhole behind `Survey.dense`: the least id 0 and the greatest n-1
      leave no gap, so three aggregates decide the whole numbering. */
  lemma SurveyDenseIff(ids: set<int>)
    ensures SurveyDense(ids) <==> ids == Upto(|ids|)
  {
    if ids != {} {
      if SurveyDense(ids) {
        assert ids <= Upto(|ids|);
        SubsetSize(ids, Upto(|ids|));
      }
      if ids == Upto(|ids|) {
        assert 0 in ids && |ids| - 1 in ids;
      }
    }
  }

  /** A dense numbering is a fixed point of renumbering. */
  lemma DenseRankIsIdentity(ids: set<int>, x: int)
    requires SurveyDense(ids) && x in ids
    ensures Rank(ids, x) == x
  {
    SurveyDenseIff(ids);
    assert x in Upto(|ids|);
    assert Below(ids, x) == Upto(x);
  }
}
