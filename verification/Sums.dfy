/** Sums over finite sets of keys, and of weights over the rows of a table. */
module Sums {

  ghost function SumOver<K(!new)>(keys: set<K>, f: K -> int): (n: int)
    decreases |keys|
  {
    if keys == {} then 0
    else
      var k :| k in keys;
      f(k) + SumOver(keys - {k}, f)
  }

  lemma {:induction false} SumOverRemove<K(!new)>(keys: set<K>, k: K, f: K -> int)
    requires k in keys
    ensures SumOver(keys, f) == f(k) + SumOver(keys - {k}, f)
    decreases |keys|
  {
    var first :| first in keys && SumOver(keys, f) == f(first) + SumOver(keys - {first}, f);
    if first != k {
      SumOverRemove(keys - {first}, k, f);
      SumOverRemove(keys - {k}, first, f);
      assert keys - {first} - {k} == keys - {k} - {first};
    }
  }

  lemma {:induction false} SumOverAdds<K(!new)>(keys: set<K>, f: K -> int, g: K -> int, h: K -> int)
    requires forall k | k in keys :: h(k) == f(k) + g(k)
    ensures SumOver(keys, h) == SumOver(keys, f) + SumOver(keys, g)
    decreases |keys|
  {
    if keys != {} {
      var k :| k in keys;
      SumOverRemove(keys, k, f);
      SumOverRemove(keys, k, g);
      SumOverRemove(keys, k, h);
      SumOverAdds(keys - {k}, f, g, h);
    }
  }

  lemma {:induction false} SumOverSame<K(!new)>(keys: set<K>, f: K -> int, g: K -> int)
    requires forall k | k in keys :: f(k) == g(k)
    ensures SumOver(keys, f) == SumOver(keys, g)
    decreases |keys|
  {
    if keys != {} {
      var k :| k in keys;
      SumOverRemove(keys, k, f);
      SumOverRemove(keys, k, g);
      SumOverSame(keys - {k}, f, g);
    }
  }

  /** A change at one key of the set is counted once. */
  lemma SumOverPoint<K(!new)>(keys: set<K>, f: K -> int, g: K -> int, x: K, n: int)
    requires x in keys && g(x) == f(x) + n
    requires forall k | k in keys && k != x :: g(k) == f(k)
    ensures SumOver(keys, g) == SumOver(keys, f) + n
  {
    SumOverRemove(keys, x, f);
    SumOverRemove(keys, x, g);
    SumOverSame(keys - {x}, f, g);
  }

  lemma {:induction false} SumOverNonNegative<K(!new)>(keys: set<K>, f: K -> int)
    requires forall k | k in keys :: f(k) >= 0
    ensures SumOver(keys, f) >= 0
    decreases |keys|
  {
    if keys != {} {
      var first :| first in keys && SumOver(keys, f) == f(first) + SumOver(keys - {first}, f);
      SumOverNonNegative(keys - {first}, f);
    }
  }

  // ----- tables ---------------------------------------------------------------------------

  /** The weight of the row under a key. */
  function Weights<K, V>(m: map<K, V>, w: V -> nat): (f: K -> int) {
    k => if k in m then w(m[k]) else 0
  }

  ghost function MapSum<K(!new), V(!new)>(m: map<K, V>, w: V -> nat): (n: nat) {
    SumOverNonNegative(m.Keys, Weights(m, w));
    SumOver(m.Keys, Weights(m, w))
  }

  lemma SumRemove<K(!new), V(!new)>(m: map<K, V>, k: K, w: V -> nat)
    requires k in m
    ensures MapSum(m, w) == w(m[k]) + MapSum(m - {k}, w)
  {
    hide SumOver;
    SumOverRemove(m.Keys, k, Weights(m, w));
    assert (m - {k}).Keys == m.Keys - {k};
    SumOverSame(m.Keys - {k}, Weights(m, w), Weights(m - {k}, w));
  }

  lemma SumInsert<K(!new), V(!new)>(m: map<K, V>, k: K, v: V, w: V -> nat)
    requires k !in m
    ensures MapSum(m[k := v], w) == MapSum(m, w) + w(v)
  {
    SumRemove(m[k := v], k, w);
    assert m[k := v] - {k} == m;
  }

  lemma SumReplace<K(!new), V(!new)>(m: map<K, V>, k: K, v: V, w: V -> nat)
    requires k in m
    ensures MapSum(m[k := v], w) + w(m[k]) == MapSum(m, w) + w(v)
  {
    SumRemove(m, k, w);
    SumRemove(m[k := v], k, w);
    assert m[k := v] - {k} == m - {k};
  }

  /** A row's weight is part of the sum. */
  lemma SumAtLeast<K(!new), V(!new)>(m: map<K, V>, k: K, w: V -> nat)
    requires k in m
    ensures w(m[k]) <= MapSum(m, w)
  {
    SumRemove(m, k, w);
  }

  lemma {:induction false} SumZero<K(!new), V(!new)>(m: map<K, V>, w: V -> nat)
    requires forall k | k in m :: w(m[k]) == 0
    ensures MapSum(m, w) == 0
    decreases |m|
  {
    if m != map[] {
      var k :| k in m;
      SumRemove(m, k, w);
      SumZero(m - {k}, w);
    }
  }
}
