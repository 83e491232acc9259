/** Totals over the values of a finite map. */
module MapTotal {

  ghost function At<K>(m: map<K, int>, k: K): int {
    if k in m then m[k] else 0
  }

  ghost function Pick<K>(s: set<K>): (k: K)
    requires s != {}
    ensures k in s
  {
    var k :| k in s;
    k
  }

  ghost function SumOver<K>(s: set<K>, m: map<K, int>): int
    decreases |s|
  {
    if s == {} then 0 else At(m, Pick(s)) + SumOver(s - {Pick(s)}, m)
  }

  ghost function Total<K>(m: map<K, int>): int {
    SumOver(m.Keys, m)
  }

  /** The sum does not depend on the order of summation. */
  lemma {:induction false} SumSplit<K>(s: set<K>, m: map<K, int>, k: K)
    requires k in s
    ensures SumOver(s, m) == At(m, k) + SumOver(s - {k}, m)
    decreases |s|
  {
    var first := Pick(s);
    if first != k {
      SumSplit(s - {first}, m, k);
      SumSplit(s - {k}, m, first);
      assert s - {first} - {k} == s - {k} - {first};
    }
  }

  lemma {:induction false} SumMonotone<K>(s: set<K>, m: map<K, int>, n: map<K, int>)
    requires forall k | k in s :: At(m, k) <= At(n, k)
    ensures SumOver(s, m) <= SumOver(s, n)
    decreases |s|
  {
    if s != {} {
      SumMonotone(s - {Pick(s)}, m, n);
    }
  }

  lemma SumDependsOnValues<K>(s: set<K>, m: map<K, int>, n: map<K, int>)
    requires forall k | k in s :: At(m, k) == At(n, k)
    ensures SumOver(s, m) == SumOver(s, n)
  {
    SumMonotone(s, m, n);
    SumMonotone(s, n, m);
  }

  /** A map and another that differs from it at one key at most, where a missing key counts 0. */
  lemma TotalChange<K>(m: map<K, int>, n: map<K, int>, k: K)
    requires m.Keys - {k} == n.Keys - {k}
    requires forall x | x in m.Keys - {k} :: At(m, x) == At(n, x)
    ensures Total(n) == Total(m) - At(m, k) + At(n, k)
  {
    var rest := m.Keys - {k};
    SumDependsOnValues(rest, m, n);
    TotalSplit(m, k);
    TotalSplit(n, k);
  }

  lemma TotalSplit<K>(m: map<K, int>, k: K)
    ensures Total(m) == At(m, k) + SumOver(m.Keys - {k}, m)
  {
    if k in m {
      SumSplit(m.Keys, m, k);
    } else {
      assert m.Keys - {k} == m.Keys;
    }
  }

  /** Totals over the same keys are ordered as their values are. */
  lemma TotalMonotone<K>(m: map<K, int>, n: map<K, int>)
    requires m.Keys == n.Keys
    requires forall k | k in m :: 0 <= m[k] <= n[k]
    ensures 0 <= Total(m) <= Total(n)
  {
    SumMonotone(m.Keys, m, n);
    SumNotNegative(m.Keys, m);
  }

  lemma {:induction false} SumNotNegative<K>(s: set<K>, m: map<K, int>)
    requires forall k | k in s :: 0 <= At(m, k)
    ensures 0 <= SumOver(s, m)
    decreases |s|
  {
    if s != {} {
      SumNotNegative(s - {Pick(s)}, m);
    }
  }

  lemma TotalAtLeast<K>(m: map<K, int>, k: K)
    requires k in m && forall x | x in m :: 0 <= m[x]
    ensures 0 <= m[k] <= Total(m)
  {
    TotalSplit(m, k);
    SumNotNegative(m.Keys - {k}, m);
  }
}
