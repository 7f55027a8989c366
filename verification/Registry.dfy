/** The associative container behind the xApp's active procedures: an array of buckets in
    increasing key order, some of them dead, that grows, compacts and shrinks as needed.  It
    is proved to be a map whose keys are handed out once. */
module Registry {
  import opened Containers

  datatype Bucket<V> = Bucket(key: nat, hasValue: bool, val: V)

  const MIN_SIZE := 16

  // ------------------------------------------------------------- what a run of buckets means

  ghost predicate Sorted<V>(bs: seq<Bucket<V>>) {
    forall i, j | 0 <= i < j < |bs| :: bs[i].key < bs[j].key
  }

  /** Keys increase, and all were handed out before `bound`. */
  ghost predicate Ordered<V>(bs: seq<Bucket<V>>, bound: nat) {
    Sorted(bs) && forall i | 0 <= i < |bs| :: 0 < bs[i].key < bound
  }

  /** The map the live buckets stand for. */
  ghost function Live<V>(bs: seq<Bucket<V>>): (m: map<nat, V>) {
    if bs == [] then map[]
    else
      var b, m := bs[|bs| - 1], Live(bs[..|bs| - 1]);
      if b.hasValue then m[b.key := b.val] else m
  }

  /** The live buckets in order: what both copying and in-place partitioning leave. */
  ghost function OnlyLive<V>(bs: seq<Bucket<V>>): (r: seq<Bucket<V>>)
    ensures |r| <= |bs|
  {
    if bs == [] then []
    else
      var b, r := bs[|bs| - 1], OnlyLive(bs[..|bs| - 1]);
      if b.hasValue then r + [b] else r
  }

  /** Every entry comes from a live bucket. */
  lemma {:induction false} BucketOf<V>(bs: seq<Bucket<V>>, k: nat) returns (i: nat)
    requires k in Live(bs)
    ensures i < |bs| && bs[i].hasValue && bs[i].key == k
  {
    if bs[|bs| - 1].hasValue && bs[|bs| - 1].key == k {
      i := |bs| - 1;
    } else {
      i := BucketOf(bs[..|bs| - 1], k);
    }
  }

  lemma LastIsNew<V>(bs: seq<Bucket<V>>)
    requires bs != [] && Sorted(bs)
    ensures bs[|bs| - 1].key !in Live(bs[..|bs| - 1])
  {
    if bs[|bs| - 1].key in Live(bs[..|bs| - 1]) {
      var i := BucketOf(bs[..|bs| - 1], bs[|bs| - 1].key);
    }
  }

  /** Buckets with increasing keys: each live one is an entry, no dead one is. */
  lemma {:induction false} LiveAt<V>(bs: seq<Bucket<V>>, i: nat)
    requires Sorted(bs) && i < |bs|
    ensures bs[i].key in Live(bs) <==> bs[i].hasValue
    ensures bs[i].hasValue ==> Live(bs)[bs[i].key] == bs[i].val
  {
    var first := bs[..|bs| - 1];
    if i < |bs| - 1 {
      LiveAt(first, i);
      assert first[i] == bs[i];
    }
    LastIsNew(bs);
  }

  lemma LiveAppend<V>(bs: seq<Bucket<V>>, b: Bucket<V>)
    ensures Live(bs + [b]) == if b.hasValue then Live(bs)[b.key := b.val] else Live(bs)
  {
    assert (bs + [b])[..|bs|] == bs;
  }

  /** Dropping the dead buckets keeps the map and the order, and leaves as many buckets as
      there are entries. */
  lemma {:induction false} OnlyLiveKeepsMap<V>(bs: seq<Bucket<V>>, bound: nat)
    requires Ordered(bs, bound)
    ensures Live(OnlyLive(bs)) == Live(bs)
    ensures Ordered(OnlyLive(bs), bound) && |OnlyLive(bs)| == |Live(bs)|
  {
    hide Live, OnlyLive;
    if bs == [] {
      EmptyMaps<V>();
    } else {
      var first, b := bs[..|bs| - 1], bs[|bs| - 1];
      assert Ordered(first, b.key);
      OnlyLiveKeepsMap(first, b.key);
      LastIsNew(bs);
      Unfold(bs);
      LiveAppend(OnlyLive(first), b);
    }
  }

  lemma EmptyMaps<V>()
    ensures Live<V>([]) == map[] && OnlyLive<V>([]) == []
  {
  }

  lemma Unfold<V>(bs: seq<Bucket<V>>)
    requires bs != []
    ensures var first, b := bs[..|bs| - 1], bs[|bs| - 1];
            && Live(bs) == (if b.hasValue then Live(first)[b.key := b.val] else Live(first))
            && OnlyLive(bs) == (if b.hasValue then OnlyLive(first) + [b] else OnlyLive(first))
  {
  }

  /** Appending under the next key adds one entry. */
  lemma PushExtends<V>(bs: seq<Bucket<V>>, bound: nat, v: V)
    requires Ordered(bs, bound) && 0 < bound
    ensures var cs := bs + [Bucket(bound, true, v)];
            && Ordered(cs, bound + 1)
            && bound !in Live(bs)
            && Live(cs) == Live(bs)[bound := v]
            && |Live(cs)| == |Live(bs)| + 1
  {
    hide Live;
    var cs := bs + [Bucket(bound, true, v)];
    assert cs[..|bs|] == bs;
    LastIsNew(cs);
    LiveAppend(bs, Bucket(bound, true, v));
  }

  function Dead<V>(b: Bucket<V>): Bucket<V> { b.(hasValue := false) }

  /** Killing a bucket takes its key out of the map. */
  lemma {:induction false} KillRemoves<V>(bs: seq<Bucket<V>>, i: nat)
    requires Sorted(bs) && i < |bs|
    ensures Live(bs[i := Dead(bs[i])]) == Live(bs) - {bs[i].key}
  {
    hide Live;
    var cs, first, b := bs[i := Dead(bs[i])], bs[..|bs| - 1], bs[|bs| - 1];
    Unfold(bs);
    Unfold(cs);
    if i < |bs| - 1 {
      KillRemoves(first, i);
      assert cs[..|bs| - 1] == first[i := Dead(first[i])];
      assert b.key != bs[i].key;
    } else {
      assert cs[..|bs| - 1] == first;
      LastIsNew(bs);
    }
  }

  /** Writing into a live bucket changes the value of its key only. */
  lemma {:induction false} WriteUpdates<V>(bs: seq<Bucket<V>>, i: nat, v: V)
    requires Sorted(bs) && i < |bs| && bs[i].hasValue
    ensures Live(bs[i := bs[i].(val := v)]) == Live(bs)[bs[i].key := v]
  {
    hide Live;
    var cs, first, b := bs[i := bs[i].(val := v)], bs[..|bs| - 1], bs[|bs| - 1];
    Unfold(bs);
    Unfold(cs);
    if i < |bs| - 1 {
      WriteUpdates(first, i, v);
      assert cs[..|bs| - 1] == first[i := first[i].(val := v)];
      assert b.key != bs[i].key;
    } else {
      assert cs[..|bs| - 1] == first;
    }
  }

  /** The map without the keys of `[lo, hi)`. */
  ghost function Cut<V>(m: map<nat, V>, lo: nat, hi: nat): map<nat, V> {
    map k | k in m && !(lo <= k < hi) :: m[k]
  }

  /** The key at a position, or the bound at the end. */
  ghost function KeyAt<V>(bs: seq<Bucket<V>>, bound: nat, i: nat): nat
    requires i <= |bs|
  {
    if i < |bs| then bs[i].key else bound
  }

  ghost predicate DeadBetween<V>(bs: seq<Bucket<V>>, i: nat, j: nat)
    requires j <= |bs|
  {
    forall k | i < k < j :: !bs[k].hasValue
  }

  lemma NothingBetween<V>(bs: seq<Bucket<V>>, bound: nat, i: nat, next: nat, k: nat)
    requires Ordered(bs, bound) && i < next <= |bs| && DeadBetween(bs, i, next)
    requires k in Live(bs) && bs[i].key < k
    ensures KeyAt(bs, bound, next) <= k
  {
    hide Live;
    var j := BucketOf(bs, k);
    assert !(j < i);
  }

  /** Killing bucket `i` of a range and going on to the next live one cuts its key. */
  lemma KillAdvances<V>(bs: seq<Bucket<V>>, bound: nat, m: map<nat, V>, lo: nat, i: nat, next: nat)
    requires Ordered(bs, bound) && i < next <= |bs| && bs[i].hasValue && DeadBetween(bs, i, next)
    requires Live(bs) == Cut(m, lo, bs[i].key) && lo <= bs[i].key
    ensures var cs := bs[i := Dead(bs[i])];
            && Ordered(cs, bound)
            && Live(cs) == Cut(m, lo, KeyAt(bs, bound, next))
            && |Live(cs)| == |Live(bs)| - 1
            && KeyAt(cs, bound, next) == KeyAt(bs, bound, next) >= lo
  {
    hide Live, DeadBetween;
    LiveAt(bs, i);
    KillRemoves(bs, i);
    forall k | k in m && bs[i].key < k < KeyAt(bs, bound, next)
      ensures false
    {
      assert k in Live(bs);
      NothingBetween(bs, bound, i, next, k);
    }
    assert Live(bs) - {bs[i].key} == Cut(m, lo, KeyAt(bs, bound, next));
  }

  /** The range from a live bucket to the next holds one entry. */
  lemma CutOne<V>(bs: seq<Bucket<V>>, bound: nat, i: nat, next: nat)
    requires Ordered(bs, bound) && i < next <= |bs| && bs[i].hasValue && DeadBetween(bs, i, next)
    ensures Cut(Live(bs), bs[i].key, KeyAt(bs, bound, next)) == Live(bs) - {bs[i].key}
  {
    hide Live, DeadBetween;
    forall k | k in Live(bs) && bs[i].key < k < KeyAt(bs, bound, next)
      ensures false
    {
      NothingBetween(bs, bound, i, next, k);
    }
  }

  /** In a range that holds every live bucket, the lower bound of a key is its bucket if the
      map has the key at all. */
  lemma LowerBoundFinds<V>(bs: seq<Bucket<V>>, bound: nat, start: nat, lower: nat, key: nat)
    requires Ordered(bs, bound) && start <= lower <= |bs|
    requires forall i | 0 <= i < start :: !bs[i].hasValue
    requires forall i | start <= i < lower :: bs[i].key < key
    requires lower < |bs| ==> bs[lower].key >= key
    ensures key in Live(bs) <==> lower < |bs| && bs[lower].hasValue && bs[lower].key == key
    ensures key in Live(bs) ==> Live(bs)[key] == bs[lower].val
  {
    hide Live;
    if key in Live(bs) {
      var i := BucketOf(bs, key);
      assert lower <= i;
      assert lower == i;
    }
    if lower < |bs| {
      LiveAt(bs, lower);
    }
  }

  // ------------------------------------------------------------------------- array helpers

  method CopyIf<V>(src: array<Bucket<V>>, n: nat, dst: array<Bucket<V>>) returns (out: nat)
    requires n <= src.Length && n <= dst.Length && src != dst
    modifies dst
    ensures out <= n && dst[..out] == OnlyLive(src[..n])
  {
    out := 0;
    for i := 0 to n
      invariant out <= i && dst[..out] == OnlyLive(src[..i])
      invariant src[..n] == old(src[..n])
    {
      assert src[..i + 1][..i] == src[..i];
      if src[i].hasValue {
        dst[out] := src[i];
        out := out + 1;
      }
    }
  }

  method Partition<V>(a: array<Bucket<V>>, n: nat) returns (j: nat)
    requires n <= a.Length
    modifies a
    ensures j <= n && a[..j] == OnlyLive(old(a[..n]))
  {
    j := 0;
    ghost var was := a[..n];
    for i := 0 to n
      invariant j <= i && a[..j] == OnlyLive(was[..i])
      invariant a[i..n] == was[i..]
    {
      assert was[..i + 1][..i] == was[..i] && a[i] == was[i];
      assert forall k | i < k < n :: a[k] == was[i..][k - i];
      if a[i].hasValue {
        a[j] := a[i];
        j := j + 1;
      }
    }
    assert was[..n] == was;
  }

  method CopyFront<V>(src: array<Bucket<V>>, n: nat, dst: array<Bucket<V>>)
    requires n <= src.Length && n <= dst.Length && src != dst
    modifies dst
    ensures dst[..n] == src[..n]
  {
    for i := 0 to n
      invariant dst[..i] == src[..i]
      invariant src[..] == old(src[..])
    {
      dst[i] := src[i];
    }
  }

  /** The first bucket of `[start, end)` whose key is not below `key`, or `end`. */
  method LowerBound<V>(a: array<Bucket<V>>, start: nat, end: nat, key: nat) returns (lower: nat)
    requires start <= end <= a.Length && Sorted(a[..end])
    ensures start <= lower <= end
    ensures forall i | start <= i < lower :: a[i].key < key
    ensures forall i | lower <= i < end :: a[i].key >= key
  {
    lower := start;
    var len: nat := end - start;
    assert forall i, j | 0 <= i < j < end :: a[..end][i].key < a[..end][j].key;
    while len > 0
      invariant 0 <= len && start <= lower && lower + len <= end
      invariant forall i | start <= i < lower :: a[i].key < key
      invariant forall i | lower + len <= i < end :: a[i].key >= key
    {
      var half := len / 2;
      var idx := lower + half;
      assert forall i | 0 <= i < idx :: a[i].key == a[..end][i].key < a[..end][idx].key;
      assert forall i | idx < i < end :: a[..end][idx].key < a[..end][i].key == a[i].key;
      if a[idx].key < key {
        lower := idx + 1;
        len := len - half - 1;
      } else {
        len := half;
      }
    }
  }

  // ------------------------------------------------------------------------- the container

  /** 16, or the double of a capacity. */
  predicate Capacity(n: nat) {
    n == MIN_SIZE || (n > MIN_SIZE && n % 2 == 0 && Capacity(n / 2))
  }

  class Registry<V(0)> {
    var arr: array<Bucket<V>>
    var sz: nat
    var occ: nat
    var keyId: nat

    ghost function Buckets(): seq<Bucket<V>>
      requires occ <= arr.Length
      reads this, arr
    {
      arr[..occ]
    }

    /** The map the container stands for. */
    ghost function Contents(): map<nat, V>
      requires occ <= arr.Length
      reads this, arr
    {
      Live(Buckets())
    }

    /** Keys increase and were all handed out; the size is right; a slot is always free; at
        least half of the occupied buckets are live. */
    ghost predicate Valid()
      reads this, arr
    {
      && Capacity(arr.Length)
      && occ < arr.Length
      && Ordered(Buckets(), keyId)
      && sz == |Contents()|
      && occ <= 2 * sz
      && 0 < keyId
    }

    constructor ()
      ensures Valid() && fresh(arr) && Contents() == map[] && keyId == 1
    {
      arr := new Bucket<V>[MIN_SIZE];
      sz := 0;
      occ := 0;
      keyId := 1;
    }

    /** Doubles the array when one slot or none is free, keeping the live buckets. */
    method ExpandIfNecessary()
      requires Valid()
      modifies this`arr, this`occ
      ensures Valid() && occ + 1 < arr.Length
      ensures Contents() == old(Contents())
      ensures arr == old(arr) || fresh(arr)
      ensures var full := old(occ) + 1 >= old(arr.Length);
              && arr.Length == (if full then old(arr.Length) * 2 else old(arr.Length))
              && Buckets() == if full then OnlyLive(old(Buckets())) else old(Buckets())
    {
      hide Ordered, Live, OnlyLive;
      if occ >= arr.Length - 1 {
        var tmp := new Bucket<V>[arr.Length * 2];
        var out := CopyIf(arr, occ, tmp);
        OnlyLiveKeepsMap(Buckets(), keyId);
        arr := tmp;
        occ := out;
      }
    }

    /** Moves the live buckets to the front once half of the occupied ones are dead. */
    method CompactIfNecessary()
      requires Capacity(arr.Length) && occ < arr.Length && Ordered(Buckets(), keyId) && sz == |Contents()|
      modifies this`occ, arr
      ensures occ < arr.Length && Ordered(Buckets(), keyId) && sz == |Contents()| && occ <= 2 * sz
      ensures Contents() == old(Contents())
      ensures Buckets() == if sz * 2 <= old(occ) then OnlyLive(old(Buckets())) else old(Buckets())
    {
      hide Ordered, Live, OnlyLive;
      if sz * 2 <= occ {
        OnlyLiveKeepsMap(Buckets(), keyId);
        occ := Partition(arr, occ);
      }
    }

    /** Halves the array once at most a quarter of it is used. */
    method ShrinkIfNecessary()
      requires Valid()
      modifies this`occ, this`arr, arr
      ensures Valid()
      ensures Contents() == old(Contents())
      ensures arr == old(arr) || fresh(arr)
      ensures arr.Length == if old(arr.Length) == MIN_SIZE || sz * 4 > old(arr.Length) then old(arr.Length)
                            else old(arr.Length) / 2
      ensures Buckets() == if arr.Length == old(arr.Length) then old(Buckets()) else OnlyLive(old(Buckets()))
    {
      hide Ordered, Live, OnlyLive;
      if arr.Length == MIN_SIZE || sz * 4 > arr.Length {
        return;
      }
      OnlyLiveKeepsMap(Buckets(), keyId);
      var idx := Partition(arr, occ);
      var tmp := new Bucket<V>[arr.Length / 2];
      CopyFront(arr, idx, tmp);
      arr := tmp;
      occ := idx;
    }

    /** Appends under the low 32 bits of the next key: as long as those are all of it, a key
        never used before. */
    method PushBack(value: V) returns (key: nat)
      requires Valid()
      modifies this, arr
      ensures arr == old(arr) || fresh(arr)
      ensures key == old(keyId) % 0x1_0000_0000 && keyId == old(keyId) + 1
      ensures old(keyId) < 0x1_0000_0000 ==>
                && Valid() && key == old(keyId)
                && key !in old(Contents()) && Contents() == old(Contents())[key := value]
    {
      hide Ordered, Live;
      ExpandIfNecessary();
      key := keyId % 0x1_0000_0000;
      ghost var was := Buckets();
      PushExtends(Buckets(), keyId, value);
      arr[occ] := Bucket(key, true, value);
      assert arr[..occ + 1] == was + [Bucket(key, true, value)];
      keyId := keyId + 1;
      occ := occ + 1;
      sz := sz + 1;
    }

    /** The first live bucket, or the end. */
    method Front() returns (idx: nat)
      requires Valid()
      ensures idx <= occ && (idx < occ ==> arr[idx].hasValue)
      ensures forall i | 0 <= i < idx :: !arr[i].hasValue
    {
      idx := 0;
      while idx < occ && !arr[idx].hasValue
        invariant idx <= occ
        invariant forall i | 0 <= i < idx :: !arr[i].hasValue
      {
        idx := idx + 1;
      }
    }

    /** The live bucket after a live one, or the end. */
    method Next(it: nat) returns (next: nat)
      requires occ <= arr.Length && it < occ && arr[it].hasValue
      ensures it < next <= occ && (next < occ ==> arr[next].hasValue)
      ensures forall k | it < k < next :: !arr[k].hasValue
    {
      next := it + 1;
      while next != occ && !arr[next].hasValue
        invariant it < next <= occ
        invariant forall k | it < k < next :: !arr[k].hasValue
      {
        next := next + 1;
      }
    }

    /** The bucket of a key, or the end; the key 0 is reserved and aborts. */
    method Find(key: nat) returns (ok: bool, it: nat)
      requires Valid()
      ensures ok <==> key > 0
      ensures ok ==> it <= occ && (it < occ <==> key in Contents())
      ensures ok && it < occ ==> arr[it] == Bucket(key, true, Contents()[key])
    {
      hide Live;
      ok, it := key > 0, occ;
      var start := Front();
      if ok {
        assert occ - start < arr.Length;
        var lower := LowerBound(arr, start, occ, key);
        LowerBoundFinds(Buckets(), keyId, start, lower, key);
        if lower < occ && arr[lower].hasValue && arr[lower].key == key {
          it := lower;
        }
      }
    }

    /** Overwrites the value of a live bucket. */
    method Write(it: nat, value: V)
      requires Valid() && it < occ && arr[it].hasValue
      modifies arr
      ensures Valid() && Contents() == old(Contents())[old(arr[it].key) := value]
    {
      hide Live;
      ghost var was := Buckets();
      LiveAt(was, it);
      WriteUpdates(was, it, value);
      arr[it] := arr[it].(val := value);
      assert Buckets() == was[it := was[it].(val := value)];
    }

    /** Erases the live buckets of a range, then compacts and shrinks. */
    method Erase(start: nat, end: nat)
      requires Valid() && start <= end <= occ
      requires start < end ==> arr[start].hasValue
      requires end < occ ==> arr[end].hasValue
      modifies this`sz, this`occ, this`arr, arr
      ensures Valid() && (arr == old(arr) || fresh(arr))
      ensures Contents() == Cut(old(Contents()), old(KeyAt(Buckets(), keyId, start)), old(KeyAt(Buckets(), keyId, end)))
    {
      hide Live, Ordered;
      ghost var m, lo := Contents(), KeyAt(Buckets(), keyId, start);
      ghost var hi := KeyAt(Buckets(), keyId, end);
      assert Cut(m, lo, lo) == m;
      var it := start;
      while it != end
        modifies arr, this`sz
        invariant it <= end
        invariant Ordered(Buckets(), keyId) && sz == |Contents()|
        invariant Contents() == Cut(m, lo, KeyAt(Buckets(), keyId, it)) && lo <= KeyAt(Buckets(), keyId, it)
        invariant KeyAt(Buckets(), keyId, end) == hi
        invariant it < end ==> arr[it].hasValue
        invariant end < occ ==> arr[end].hasValue
      {
        var next := Next(it);
        KillAdvances(Buckets(), keyId, m, lo, it, next);
        ghost var was := Buckets();
        arr[it] := Dead(arr[it]);
        assert Buckets() == was[it := Dead(was[it])];
        sz := sz - 1;
        it := next;
      }
      if start != end {
        CompactIfNecessary();
        ShrinkIfNecessary();
      }
    }
  }
}
