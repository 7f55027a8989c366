/** Counting in bags of messages, shared by the concurrent systems. */
module Bags {
  import opened Containers

  function One(b: bool): nat { if b then 1 else 0 }

  /** A bag in which the message `was`, if any, gave way to the message `will`, if any. */
  function Rebag<T(==)>(bag: multiset<T>, was: Option<T>, will: Option<T>): multiset<T> {
    if was == will then bag
    else
      var rest := if was.Some? then bag - multiset{was.value} else bag;
      if will.Some? then rest + multiset{will.value} else rest
  }

  /** Messages join a bag. */
  function Put<T>(bag: multiset<T>, ts: seq<T>): multiset<T> { bag + multiset(ts) }

  lemma PutOne<T>(bag: multiset<T>, t: T)
    ensures Put(bag, [t]) == bag + multiset{t} && Put(bag, []) == bag
  {
    assert [t] == [] + [t];
  }

  lemma RebagCounts<T>(bag: multiset<T>, was: Option<T>, will: Option<T>, t: T)
    requires was.Some? ==> was.value in bag
    ensures Rebag(bag, was, will)[t] == bag[t] - One(was == Some(t)) + One(will == Some(t))
  {
  }
}
