/** The container behind every timer table and the node table of the source: two ordered
    trees that map each key to the other.  The trees keep every node they are given, also one
    whose key is there already; the right tree orders its nodes by a comparison that may look
    at only a part of the stored value, which the model takes as a projection `key`. */
module Containers {

  datatype Option<+T> = None | Some(value: T)

  /** The left tree, and the right tree as its nodes: each holds a left key and is found under
      the right key it carries, which several nodes may share.  Left keys are new when they are
      inserted: descriptors the kernel just opened, or ids a registry has checked. */
  datatype BiMap<K, V, R> = BiMap(left: map<K, V>, right: map<K, R>)

  /** The two trees hold the same pairs. */
  ghost predicate Inverse<K, V, R>(m: BiMap<K, V, R>, key: V -> R) {
    m.left.Keys == m.right.Keys && forall k | k in m.left :: m.right[k] == key(m.left[k])
  }

  /** The right tree has a node under `r`. */
  ghost predicate Has<K, V, R>(m: BiMap<K, V, R>, r: R) {
    r in m.right.Values
  }

  /** No right key is there twice: with it the two trees are a bijection. */
  ghost predicate Unique<K, V, R>(m: BiMap<K, V, R>) {
    forall k, l | k in m.right && l in m.right && m.right[k] == m.right[l] :: k == l
  }

  /** The nodes under a right key. */
  ghost function Under<K, V, R>(m: BiMap<K, V, R>, r: R): (ks: set<K>) {
    set k | k in m.right && m.right[k] == r
  }

  /** Neither tree refuses a key. */
  function Insert<K, V, R>(m: BiMap<K, V, R>, key: V -> R, k: K, v: V): (n: BiMap<K, V, R>) {
    BiMap(m.left[k := v], m.right[k := key(v)])
  }

  /** Among the nodes under one key the search meets the one the shape of the tree puts first:
      `pick` is that node, if there is any. */
  ghost predicate Meets<K, V, R>(m: BiMap<K, V, R>, r: R, pick: K) {
    Has(m, r) ==> pick in m.right && m.right[pick] == r
  }

  lemma SomethingMeets<K, V, R>(m: BiMap<K, V, R>, r: R, other: K) returns (pick: K)
    ensures Meets(m, r, pick)
  {
    pick := other;
    if Has(m, r) {
      pick :| pick in m.right && m.right[pick] == r;
    }
  }

  /** Removes the node the search for `r` meets and its partner, and hands back the left key.
      Fails, as the assertions do, when the right tree has no node under `r`, when the left tree
      lacks the partner or holds another value for it, or when the sizes differ afterwards. */
  function ExtractRight<K, V, R(==)>(m: BiMap<K, V, R>, key: V -> R, r: R, pick: K): (res: Option<(K, BiMap<K, V, R>)>) {
    if pick !in m.right || m.right[pick] != r then None
    else if pick !in m.left || key(m.left[pick]) != r then None
    else
      var rest := BiMap(m.left - {pick}, m.right - {pick});
      if |rest.left| != |rest.right| then None else Some((pick, rest))
  }

  lemma InverseSizes<K, V, R>(m: BiMap<K, V, R>, key: V -> R)
    requires Inverse(m, key)
    ensures |m.left| == |m.right|
  {
    assert |m.left| == |m.left.Keys| && |m.right| == |m.right.Keys|;
  }

  /** An insertion keeps the trees in step and puts one node more under its right key. */
  lemma InsertKeepsInverse<K, V, R>(m: BiMap<K, V, R>, key: V -> R, k: K, v: V)
    requires Inverse(m, key) && k !in m.left
    ensures var n := Insert(m, key, k, v);
            && Inverse(n, key)
            && n.right.Values == m.right.Values + {key(v)}
            && (Unique(n) <==> Unique(m) && !Has(m, key(v)))
  {
    var n := Insert(m, key, k, v);
    assert forall l | l in m.right :: l in n.right && n.right[l] == m.right[l];
    assert n.right[k] == key(v);
    forall r | r in m.right.Values
      ensures r in n.right.Values
    {
      var l :| l in m.right && m.right[l] == r;
      assert l in n.right;
    }
  }

  lemma InsertSizes<K, V, R>(m: BiMap<K, V, R>, key: V -> R, k: K, v: V)
    requires k !in m.left
    ensures |Insert(m, key, k, v).left| == |m.left| + 1
  {
    var n := Insert(m, key, k, v);
    assert n.left.Keys == m.left.Keys + {k};
    assert |n.left| == |n.left.Keys| && |m.left| == |m.left.Keys|;
  }

  lemma InsertCounts<K, V, R>(m: BiMap<K, V, R>, key: V -> R, k: K, v: V, r: R)
    requires Inverse(m, key) && k !in m.left
    ensures |Under(Insert(m, key, k, v), r)| == |Under(m, r)| + if r == key(v) then 1 else 0
  {
    var n := Insert(m, key, k, v);
    assert Under(n, r) == if r == key(v) then Under(m, r) + {k} else Under(m, r);
  }

  /** A removal works exactly when there is a node under the key, and removes one such node
      with its partner. */
  lemma ExtractKeepsInverse<K, V, R>(m: BiMap<K, V, R>, key: V -> R, r: R, pick: K)
    requires Inverse(m, key) && Meets(m, r, pick)
    ensures ExtractRight(m, key, r, pick).Some? <==> Has(m, r)
    ensures Has(m, r) ==>
              var (k, rest) := ExtractRight(m, key, r, pick).value;
              && k == pick && k in m.left && key(m.left[k]) == r
              && Inverse(rest, key)
              && rest.left == m.left - {k}
              && rest.right == m.right - {k}
              && |rest.left| == |m.left| - 1
  {
    if Has(m, r) {
      var rest := BiMap(m.left - {pick}, m.right - {pick});
      assert rest.left.Keys == m.left.Keys - {pick} && rest.right.Keys == m.right.Keys - {pick};
      assert |rest.left| == |rest.left.Keys| && |rest.right| == |rest.right.Keys|;
    }
  }

  /** After a removal there is one node less under the key ... */
  lemma ExtractCounts<K, V, R>(m: BiMap<K, V, R>, r: R, pick: K, left: map<K, V>, q: R)
    requires pick in m.right && m.right[pick] == r
    ensures |Under(BiMap(left, m.right - {pick}), q)| == |Under(m, q)| - if q == r then 1 else 0
  {
    assert Under(BiMap(left, m.right - {pick}), q) == if q == r then Under(m, q) - {pick} else Under(m, q);
  }

  /** ... and of a bijection, none. */
  lemma ExtractFromUnique<K, V, R>(m: BiMap<K, V, R>, r: R, pick: K, left: map<K, V>)
    requires Unique(m) && pick in m.right && m.right[pick] == r
    ensures var n := BiMap(left, m.right - {pick}); Unique(n) && n.right.Values == m.right.Values - {r}
  {
    var n := BiMap(left, m.right - {pick});
    forall q | q in m.right.Values && q != r
      ensures q in n.right.Values
    {
      var k :| k in m.right && m.right[k] == q;
      assert k in n.right;
    }
  }

  lemma HasCounts<K, V, R>(m: BiMap<K, V, R>, r: R)
    ensures Has(m, r) <==> |Under(m, r)| > 0
  {
    if Has(m, r) {
      var k :| k in m.right && m.right[k] == r;
      assert k in Under(m, r);
    }
    if |Under(m, r)| > 0 {
      var k :| k in Under(m, r);
      assert k in m.right;
    }
  }

  /** Removing the node just inserted gives the old table and its left key back; the search
      meets that node exactly when no other carries its key. */
  lemma InsertThenExtract<K, V, R>(m: BiMap<K, V, R>, key: V -> R, k: K, v: V)
    requires Inverse(m, key) && k !in m.left
    ensures ExtractRight(Insert(m, key, k, v), key, key(v), k) == Some((k, m))
    ensures (forall pick :: Meets(Insert(m, key, k, v), key(v), pick) ==> pick == k) <==> !Has(m, key(v))
  {
    var n := Insert(m, key, k, v);
    InverseSizes(m, key);
    assert n.left - {k} == m.left && n.right - {k} == m.right;
    assert n.right[k] == key(v) && Has(n, key(v));
    if l :| l in m.right && m.right[l] == key(v) {
      assert l in n.right && l != k && Meets(n, key(v), l);
    }
  }
}
