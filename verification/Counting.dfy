/** Counting the keys of a map that have a given value. */
module Counting {
  ghost function Having<K, P>(m: map<K, P>, p: P): set<K> { set k | k in m && m[k] == p }

  ghost function Count<K, P>(m: map<K, P>, p: P): nat { |Having(m, p)| }

  lemma CountUpdate<K, P>(m: map<K, P>, k: K, x: P, p: P)
    ensures Count(m[k := x], p) == Count(m, p) + (if x == p then 1 else 0) - (if k in m && m[k] == p then 1 else 0)
  {
    if x == p {
      assert Having(m[k := x], p) == Having(m, p) + {k};
    } else {
      assert Having(m[k := x], p) == Having(m, p) - {k};
    }
  }

  lemma CountSome<K, P>(m: map<K, P>, p: P)
    ensures Count(m, p) > 0 <==> exists k :: k in m && m[k] == p
  {
    if k :| k in m && m[k] == p {
      assert k in Having(m, p);
    } else {
      assert Having(m, p) == {};
    }
  }

  lemma CountSame<K, P>(m: map<K, P>, m': map<K, P>, p: P)
    requires forall k :: (k in m && m[k] == p) <==> (k in m' && m'[k] == p)
    ensures Count(m', p) == Count(m, p)
  {
    assert Having(m', p) == Having(m, p);
  }
}
