/** Sums over finite maps. */
module Sums {

  ghost function Sum(m: map<nat, nat>): nat {
    if m == map[] then 0 else var k :| k in m; m[k] + Sum(m - {k})
  }

  lemma {:induction false} SumRemove(m: map<nat, nat>, k: nat)
    requires k in m
    ensures Sum(m) == m[k] + Sum(m - {k})
    decreases |m|
  {
    var j :| j in m && Sum(m) == m[j] + Sum(m - {j});
    if j != k {
      Shrinks(m, j);
      Shrinks(m, k);
      SumRemove(m - {j}, k);
      SumRemove(m - {k}, j);
      assert m - {j} - {k} == m - {k} - {j};
    }
  }

  lemma Shrinks(m: map<nat, nat>, k: nat)
    requires k in m
    ensures |m - {k}| < |m|
  {
    assert (m - {k}).Keys == m.Keys - {k};
    assert |(m - {k}).Keys| == |m.Keys| - 1;
  }

  /** Dropping keys and lowering values does not raise the sum. */
  lemma {:induction false} SumMonotone(m: map<nat, nat>, n: map<nat, nat>)
    requires forall k :: k in n ==> k in m && n[k] <= m[k]
    ensures Sum(n) <= Sum(m)
    decreases |n|
  {
    if n != map[] {
      var k :| k in n;
      SumRemove(n, k);
      SumRemove(m, k);
      Shrinks(n, k);
      SumMonotone(m - {k}, n - {k});
    }
  }

  lemma UnionRemove(m: map<nat, nat>, n: map<nat, nat>, k: nat)
    requires m.Keys !! n.Keys && k in n
    ensures (m + n) - {k} == m + (n - {k}) && m.Keys !! (n - {k}).Keys
  {
    var a, b := (m + n) - {k}, m + (n - {k});
    assert k !in m;
    forall x ensures x in a <==> x in b { }
    forall x | x in a ensures a[x] == b[x] { }
  }

  lemma {:induction false} SumUnion(m: map<nat, nat>, n: map<nat, nat>)
    requires m.Keys !! n.Keys
    ensures Sum(m + n) == Sum(m) + Sum(n)
    decreases |n|
  {
    if n == map[] {
      assert m + n == m;
    } else {
      var k :| k in n;
      SumRemove(n, k);
      SumRemove(m + n, k);
      Shrinks(n, k);
      UnionRemove(m, n, k);
      SumUnion(m, n - {k});
    }
  }
}
