/** Sums over the values of a finite map. */
module Totals {
  ghost function Total<K, V>(m: map<K, V>, w: V -> nat): nat
    decreases |m|
  {
    if m == map[] then 0
    else
      var x :| x in m;
      w(m[x]) + Total(m - {x}, w)
  }

  lemma {:induction false} TotalSplit<K, V>(m: map<K, V>, w: V -> nat, x: K)
    requires x in m
    ensures Total(m, w) == w(m[x]) + Total(m - {x}, w)
    decreases |m|
  {
    var y :| y in m && Total(m, w) == w(m[y]) + Total(m - {y}, w);
    if y != x {
      TotalSplit(m - {y}, w, x);
      TotalSplit(m - {x}, w, y);
      assert m - {y} - {x} == m - {x} - {y};
    }
  }

  lemma TotalUpdate<K, V>(m: map<K, V>, w: V -> nat, x: K, v: V)
    ensures Total(m[x := v], w) == Total(m - {x}, w) + w(v)
    ensures Total(m, w) == Total(m - {x}, w) + if x in m then w(m[x]) else 0
  {
    TotalSplit(m[x := v], w, x);
    assert m[x := v] - {x} == m - {x};
    if x in m {
      TotalSplit(m, w, x);
    } else {
      assert m - {x} == m;
    }
  }
}
