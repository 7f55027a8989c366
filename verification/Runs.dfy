/** Sequences of moves, shared by the concurrent systems. */
module Runs {
  import opened Containers

  /** The state after some moves, or None if one of them could not be made. */
  ghost function After<S, M>(move: (S, M) -> Option<S>, s: S, ms: seq<M>): (r: Option<S>) {
    if ms == [] then Some(s)
    else
      match After(move, s, ms[..|ms| - 1])
      case None => None
      case Some(t) => move(t, ms[|ms| - 1])
  }

  lemma AfterOne<S, M>(move: (S, M) -> Option<S>, s: S, m: M)
    ensures After(move, s, [m]) == move(s, m)
  {
    assert [m][..0] == [];
    assert After(move, s, [m][..0]) == Some(s);
  }

  lemma {:induction false} AfterBoth<S, M>(move: (S, M) -> Option<S>, s: S, ms: seq<M>, ns: seq<M>)
    requires After(move, s, ms).Some?
    ensures After(move, s, ms + ns) == After(move, After(move, s, ms).value, ns)
    decreases |ns|
  {
    if ns == [] {
      assert ms + ns == ms;
    } else {
      AfterBoth(move, s, ms, ns[..|ns| - 1]);
      assert (ms + ns)[..|ms + ns| - 1] == ms + ns[..|ns| - 1];
    }
  }

  /** One move and then others. */
  lemma AfterFirst<S, M>(move: (S, M) -> Option<S>, s: S, m: M, ns: seq<M>)
    requires move(s, m).Some?
    ensures After(move, s, [m] + ns) == After(move, move(s, m).value, ns)
  {
    AfterOne(move, s, m);
    AfterBoth(move, s, [m], ns);
  }
}
