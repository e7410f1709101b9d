/** Sums over finite maps that do not depend on the order in which the keys are visited. */
module WeightedSums {

  /** f(k, c) is what an amount c held at k weighs; amounts at one key add up. */
  ghost predicate Additive<K(!new)>(f: (K, real) -> real) {
    forall k, c, d :: f(k, c) + f(k, d) == f(k, c + d)
  }

  /** The sum of f(k, m[k]) over the keys of m. */
  ghost function WeightedSum<K(!new)>(m: map<K, real>, f: (K, real) -> real): real
    decreases |m|
  {
    if m == map[] then 0.0
    else
      var k :| k in m;
      f(k, m[k]) + WeightedSum(m - {k}, f)
  }

  /** Any key may be taken out first. */
  lemma {:induction false} WeightedSumRemove<K(!new)>(m: map<K, real>, f: (K, real) -> real, k: K)
    requires k in m
    ensures WeightedSum(m, f) == f(k, m[k]) + WeightedSum(m - {k}, f)
    decreases |m|
  {
    var j :| j in m && WeightedSum(m, f) == f(j, m[j]) + WeightedSum(m - {j}, f);
    if j != k {
      WeightedSumRemove(m - {j}, f, k);
      assert m - {j} - {k} == m - {k} - {j};
      WeightedSumRemove(m - {k}, f, j);
    }
  }

  /** What a Go map of float64 holds at k: the entry, or the zero value. */
  function At<K>(m: map<K, real>, k: K): real {
    if k in m then m[k] else 0.0
  }

  /** `m[k] += c` on a Go map. */
  function Deposit<K>(m: map<K, real>, k: K, c: real): map<K, real> {
    m[k := At(m, k) + c]
  }

  lemma {:induction false} WeightedSumDeposit<K(!new)>(m: map<K, real>, f: (K, real) -> real, k: K, c: real)
    requires Additive(f)
    ensures WeightedSum(Deposit(m, k, c), f) == WeightedSum(m, f) + f(k, c)
  {
    var d := Deposit(m, k, c);
    WeightedSumRemove(d, f, k);
    if k in m {
      WeightedSumRemove(m, f, k);
      assert d - {k} == m - {k};
      assert f(k, m[k]) + f(k, c) == f(k, m[k] + c);
    } else {
      assert d - {k} == m;
    }
  }

  /** Weighing one key only reads the entry at that key. */
  lemma {:induction false} WeightedSumAt<K(!new)>(m: map<K, real>, f: (K, real) -> real, k: K)
    requires forall j, c :: f(j, c) == if j == k then c else 0.0
    ensures WeightedSum(m, f) == At(m, k)
    decreases |m|
  {
    if m != map[] {
      var j :| j in m;
      WeightedSumRemove(m, f, j);
      WeightedSumAt(m - {j}, f, k);
    }
  }
}
