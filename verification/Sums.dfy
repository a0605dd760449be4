/** Sums over finite maps, and maps read with a default of zero. */
module Sums {

  ghost function Pick<K>(m: map<K, nat>): (k: K)
    requires m != map[]
    ensures k in m
  {
    var k :| k in m; k
  }

  ghost function Sum<K>(m: map<K, nat>): nat
    decreases |m|
  {
    if m == map[] then 0 else var k := Pick(m); m[k] + Sum(m - {k})
  }

  lemma {:induction false} SumDrop<K>(m: map<K, nat>, k: K)
    requires k in m
    ensures Sum(m) == m[k] + Sum(m - {k})
    decreases |m|
  {
    var j := Pick(m);
    if j != k {
      SumDrop(m - {j}, k);
      SumDrop(m - {k}, j);
      assert m - {j} - {k} == m - {k} - {j};
    }
  }

  lemma SumPut<K>(m: map<K, nat>, k: K, v: nat)
    ensures Sum(m[k := v]) == v + Sum(m - {k})
  {
    SumDrop(m[k := v], k);
    assert m[k := v] - {k} == m - {k};
  }

  function At<K>(m: map<K, nat>, k: K): nat {
    if k in m then m[k] else 0
  }

  function Plus<K>(m: map<K, nat>, k: K, x: nat): map<K, nat> {
    m[k := At(m, k) + x]
  }

  function Minus<K>(m: map<K, nat>, k: K, x: nat): map<K, nat>
    requires x <= At(m, k)
  {
    m[k := At(m, k) - x]
  }

  lemma SumAt<K>(m: map<K, nat>, k: K)
    ensures Sum(m) == At(m, k) + Sum(m - {k})
  {
    if k in m {
      SumDrop(m, k);
    } else {
      assert m - {k} == m;
    }
  }

  lemma SumPlus<K>(m: map<K, nat>, k: K, x: nat)
    ensures Sum(Plus(m, k, x)) == Sum(m) + x
  {
    SumAt(m, k);
    SumPut(m, k, At(m, k) + x);
  }

  lemma SumMinus<K>(m: map<K, nat>, k: K, x: nat)
    requires x <= At(m, k)
    ensures Sum(Minus(m, k, x)) == Sum(m) - x
  {
    SumAt(m, k);
    SumPut(m, k, At(m, k) - x);
  }
}
