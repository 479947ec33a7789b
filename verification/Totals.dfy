/** Sums over finite maps. */
module Totals {
  ghost function Total<K>(w: map<K, nat>): nat {
    if w == map[] then 0
    else
      var k :| k in w;
      w[k] + Total(w - {k})
  }

  lemma {:induction false} TotalRemove<K>(w: map<K, nat>, k: K)
    requires k in w
    ensures Total(w) == w[k] + Total(w - {k})
    decreases |w|
  {
    var j :| j in w && Total(w) == w[j] + Total(w - {j});
    if j != k {
      TotalRemove(w - {j}, k);
      TotalRemove(w - {k}, j);
      assert w - {j} - {k} == w - {k} - {j};
    }
  }

  lemma OneMore(n: nat, bound: nat)
    ensures (n + 1) * bound == n * bound + bound
  {}

  lemma {:induction false} TotalBound<K>(w: map<K, nat>, bound: nat)
    requires forall k :: k in w ==> w[k] <= bound
    ensures Total(w) <= |w| * bound
    decreases |w|
  {
    if w != map[] {
      var k :| k in w;
      var w' := w - {k};
      TotalRemove(w, k);
      OneLess(w, k);
      hide Total;
      TotalBound(w', bound);
      OneMore(|w'|, bound);
    }
  }

  lemma OneLess<K>(w: map<K, nat>, k: K)
    requires k in w
    ensures |w - {k}| + 1 == |w|
  {
    assert w.Keys == (w - {k}).Keys + {k};
  }

  lemma {:induction false} TotalMonotone<K>(w: map<K, nat>, w': map<K, nat>)
    requires w.Keys == w'.Keys && forall t :: t in w ==> w[t] <= w'[t]
    ensures Total(w) <= Total(w')
    decreases |w|
  {
    if w != map[] {
      var k :| k in w;
      TotalRemove(w, k);
      TotalRemove(w', k);
      TotalMonotone(w - {k}, w' - {k});
    }
  }

  lemma TotalPut<K>(w: map<K, nat>, k: K, n: nat)
    ensures Total(w[k := n]) == Total(w - {k}) + n
    ensures Total(w) == Total(w - {k}) + if k in w then w[k] else 0
  {
    TotalRemove(w[k := n], k);
    assert w[k := n] - {k} == w - {k};
    if k in w { TotalRemove(w, k); } else { assert w - {k} == w; }
  }
}
