/** Period-keyed schedules.
    A period is a calendar month, held as its month index `year * 12 + (month - 1)`;
    module PeriodKeys proves that the `"YYYY-MM"` text the source uses as a key
    orders exactly as this index does. A schedule maps periods to amounts in cents.
    The total of a schedule (`MapSum`) is defined once here, with the algebra every
    tie-out proof in the project uses. */
module Periods {

  type Period = int
  type Schedule = map<Period, int>

  /** `m.get(p, 0.0)` */
  function Get(m: Schedule, p: Period): int
  {
    if p in m then m[p] else 0
  }

  /** `m[p] = m.get(p, 0) + v`: the accumulate-into step of every builder. */
  function Accumulate(m: Schedule, p: Period, v: int): (r: Schedule)
    ensures r.Keys == m.Keys + {p}
    ensures r[p] == Get(m, p) + v
    ensures forall q :: q in m && q != p ==> r[q] == m[q]
  {
    m[p := Get(m, p) + v]
  }

  /** A set with no member is empty. */
  lemma NoMember(s: set<int>)
    ensures (forall x :: x !in s) ==> s == {}
  {
    if forall x :: x !in s {
      assert s == {};
    }
  }

  /** The consecutive periods `a .. b-1`. */
  function RangeSet(a: Period, b: Period): (r: set<Period>)
    ensures forall p :: p in r <==> a <= p < b
    decreases b - a
  {
    if b <= a then {} else RangeSet(a, b - 1) + {b - 1}
  }

  /** A set holding `x` whose other members are gone is `{x}`. */
  lemma SubsetOfSingleton(s: set<int>, x: int)
    requires x in s
    ensures s - {x} == {} ==> s == {x}
  {
    if s - {x} == {} {
      assert forall y :: y in s ==> y == x by {
        forall y | y in s ensures y == x {
          assert y == x || y in s - {x};
        }
      }
    }
  }

  /** Two sets, one inside the other, with nothing in their difference are equal. */
  lemma NothingMissing(u: set<int>, k: set<int>)
    requires k <= u
    ensures u - k == {} ==> u == k
  {
    if u - k == {} {
      forall y | y in u ensures y in k {
        assert y in k || y in u - k;
      }
    }
  }

  lemma {:induction false} MinExists(s: set<int>) returns (m: int)
    requires s != {}
    ensures m in s && forall y :: y in s ==> m <= y
  {
    NoMember(s);
    var x :| x in s;
    if s == {x} {
      m := x;
    } else {
      assert s - {x} != {} by {
        SubsetOfSingleton(s, x);
      }
      var m' := MinExists(s - {x});
      m := if x < m' then x else m';
      forall y | y in s
        ensures m <= y
      {
        if y != x {
          assert y in s - {x};
        }
      }
    }
  }

  lemma HasMin(s: set<int>)
    requires s != {}
    ensures exists m :: m in s && forall y :: y in s ==> m <= y
  {
    var m := MinExists(s);
  }

  function MinOf(s: set<int>): (m: int)
    requires s != {}
    ensures m in s && forall y :: y in s ==> m <= y
  {
    HasMin(s);
    var m :| m in s && forall y :: y in s ==> m <= y; m
  }

  function MaxOf(s: set<int>): (m: int)
    requires s != {}
    ensures m in s && forall y :: y in s ==> y <= m
  {
    var neg := set x | x in s :: -x;
    NoMember(s);
    var w :| w in s;
    assert -w in neg;
    var lo := MinOf(neg);
    assert forall y :: y in s ==> -y in neg;
    -lo
  }

  /** `sorted(keys)`: the periods of a set in ascending order. */
  function SortedKeys(s: set<int>): (r: seq<int>)
    ensures |r| == |s|
    ensures forall p :: p in s <==> p in r
    ensures forall i, j :: 0 <= i < j < |r| ==> r[i] < r[j]
    decreases |s|
  {
    if s == {} then []
    else
      var m := MinOf(s);
      var rest := SortedKeys(s - {m});
      var r := [m] + rest;
      assert forall i :: 0 <= i < |rest| ==> m < rest[i] by {
        forall i | 0 <= i < |rest| ensures m < rest[i] { assert rest[i] in s - {m}; }
      }
      forall i, j | 0 <= i < j < |r| ensures r[i] < r[j] {
        assert r[j] == rest[j - 1];
        if i > 0 {
          assert r[i] == rest[i - 1];
        }
      }
      r
  }

  /** Sum of `m` over the periods of `u`, absent periods counting 0. */
  function SumOn(u: set<Period>, m: Schedule): int
    decreases |u|
  {
    if u == {} then 0 else var k := MinOf(u); Get(m, k) + SumOn(u - {k}, m)
  }

  /** `sum(m.values())` */
  function MapSum(m: Schedule): int
  {
    SumOn(m.Keys, m)
  }

  /** The total does not depend on which period is taken out first. */
  lemma {:induction false} SumOnRemove(u: set<Period>, m: Schedule, k: Period)
    requires k in u
    ensures SumOn(u, m) == Get(m, k) + SumOn(u - {k}, m)
    decreases |u|
  {
    var k0 := MinOf(u);
    if k != k0 {
      SumOnRemove(u - {k0}, m, k);
      SumOnRemove(u - {k}, m, k0);
      assert u - {k0} - {k} == u - {k} - {k0};
    }
  }

  lemma {:induction false} SumOnCongruent(u: set<Period>, m1: Schedule, m2: Schedule)
    requires forall p :: p in u ==> Get(m1, p) == Get(m2, p)
    ensures SumOn(u, m1) == SumOn(u, m2)
    decreases |u|
  {
    if u != {} {
      SumOnCongruent(u - {MinOf(u)}, m1, m2);
    }
  }

  /** Summing a pointwise difference is the difference of the sums. */
  lemma {:induction false} SumOnDiff(u: set<Period>, a: Schedule, b: Schedule, d: Schedule)
    requires forall p :: p in u ==> Get(d, p) == Get(b, p) - Get(a, p)
    ensures SumOn(u, d) == SumOn(u, b) - SumOn(u, a)
    decreases |u|
  {
    if u != {} {
      SumOnDiff(u - {MinOf(u)}, a, b, d);
    }
  }

  /** Periods outside the schedule add nothing to its total. */
  lemma {:induction false} SumOnSuperset(u: set<Period>, m: Schedule)
    requires m.Keys <= u
    ensures SumOn(u, m) == MapSum(m)
    decreases |u|
  {
    if u != m.Keys {
      NothingMissing(u, m.Keys);
      NoMember(u - m.Keys);
      var k :| k in u - m.Keys;
      SumOnRemove(u, m, k);
      SumOnSuperset(u - {k}, m);
    }
  }

  /** Splitting the periods at `e` splits the total. */
  lemma {:induction false} SumOnSplit(u: set<Period>, m: Schedule, e: Period)
    ensures SumOn(u, m) == SumOn((set p | p in u && p < e), m) + SumOn((set p | p in u && p >= e), m)
    decreases |u|
  {
    var lo := set p | p in u && p < e;
    var hi := set p | p in u && p >= e;
    if u != {} {
      var k := MinOf(u);
      SumOnSplit(u - {k}, m, e);
      assert (set p | p in u - {k} && p < e) == lo - {k};
      assert (set p | p in u - {k} && p >= e) == hi - {k};
      if k < e {
        SumOnRemove(lo, m, k);
        assert hi - {k} == hi;
      } else {
        SumOnRemove(hi, m, k);
        assert lo - {k} == lo;
      }
    } else {
      assert lo == {} && hi == {};
    }
  }

  /** Total after setting one period to `v`. */
  lemma MapSumUpdate(m: Schedule, k: Period, v: int)
    ensures MapSum(m[k := v]) == MapSum(m) - Get(m, k) + v
  {
    var m' := m[k := v];
    SumOnRemove(m'.Keys, m', k);
    SumOnCongruent(m'.Keys - {k}, m', m);
    if k in m {
      SumOnRemove(m.Keys, m, k);
      assert m'.Keys - {k} == m.Keys - {k};
    } else {
      assert m'.Keys - {k} == m.Keys;
    }
  }

  /** Accumulating `v` into a period raises the total by exactly `v`. */
  lemma MapSumAccumulate(m: Schedule, k: Period, v: int)
    ensures MapSum(Accumulate(m, k, v)) == MapSum(m) + v
  {
    MapSumUpdate(m, k, Get(m, k) + v);
  }

  /** Total after removing one period. */
  lemma MapSumRemove(m: Schedule, k: Period)
    ensures MapSum(m - {k}) == MapSum(m) - Get(m, k)
  {
    var m' := m - {k};
    if k in m {
      SumOnRemove(m.Keys, m, k);
      assert m'.Keys == m.Keys - {k};
      SumOnCongruent(m'.Keys, m', m);
    } else {
      assert m' == m;
    }
  }

  /** Sum of `m` over the consecutive periods `a .. b-1`. */
  function SumRange(m: Schedule, a: Period, b: Period): int
    decreases b - a
  {
    if b <= a then 0 else SumRange(m, a, b - 1) + Get(m, b - 1)
  }

  lemma {:induction false} SumOnRange(m: Schedule, a: Period, b: Period)
    ensures SumOn(RangeSet(a, b), m) == SumRange(m, a, b)
    decreases b - a
  {
    var u := RangeSet(a, b);
    if b <= a {
      NoMember(u);
    } else {
      SumOnRemove(u, m, b - 1);
      assert u - {b - 1} == RangeSet(a, b - 1);
      SumOnRange(m, a, b - 1);
    }
  }

  /** A schedule whose periods are exactly `a .. b-1` totals its range sum. */
  lemma MapSumOfRange(m: Schedule, a: Period, b: Period)
    requires m.Keys == RangeSet(a, b)
    ensures MapSum(m) == SumRange(m, a, b)
  {
    SumOnRange(m, a, b);
  }

  /** The part of a schedule strictly before period `e`. */
  function Before(m: Schedule, e: Period): (r: Schedule)
    ensures r.Keys == set p | p in m && p < e
  {
    map p | p in m && p < e :: m[p]
  }

  /** The part of a schedule at or after period `e`. */
  function From(m: Schedule, e: Period): (r: Schedule)
    ensures r.Keys == set p | p in m && p >= e
  {
    map p | p in m && p >= e :: m[p]
  }

  /** The total of a schedule is its total before `e` plus its total from `e`. */
  lemma MapSumBeforeFrom(m: Schedule, e: Period)
    ensures MapSum(m) == MapSum(Before(m, e)) + MapSum(From(m, e))
  {
    SumOnSplit(m.Keys, m, e);
    SumOnCongruent(Before(m, e).Keys, Before(m, e), m);
    SumOnCongruent(From(m, e).Keys, From(m, e), m);
  }
}
