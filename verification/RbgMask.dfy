/** The eNodeB example's resource allocation: a cursor moved by keys over the resource block
    groups, and the bit mask the downlink control information carries for it (allocation type
    0, section 7.1.6.1 of 3GPP TS 36.213: group 0 at the most significant end). */
module RbgMask {
  import opened Words

  // ---------------------------------------------------------------------- bits of a word

  /** A bit position as a word. */
  function Pos(i: nat): (r: bv32)
    requires i < 32
    ensures r < 32
  {
    i as bv32
  }

  predicate Bit(x: bv32, i: nat)
    requires i < 32
  {
    BitAt(x, Pos(i))
  }

  /** The same word reached by counting, which is how the solver follows it. */
  function Counted(i: nat): (r: bv32) {
    if i == 0 then 0 else Counted(i - 1) + 1
  }

  lemma {:induction false} CountedIsInt(i: nat)
    requires i < 32
    ensures Counted(i) as int == i
  {
    if i > 0 {
      CountedIsInt(i - 1);
    }
  }

  lemma PosIsCounted(i: nat)
    requires i < 32
    ensures Pos(i) == Counted(i)
  {
    CountedIsInt(i);
    hide Counted;
    var r := Counted(i);
    assert r as int == i;
    assert r == i as bv32;
  }

  lemma PosNext(i: nat)
    requires i < 31
    ensures Pos(i + 1) == Pos(i) + 1
  {
    PosIsCounted(i);
    PosIsCounted(i + 1);
    hide Pos;
  }

  lemma PosDistinct(i: nat, j: nat)
    requires i < 32 && j < 32 && Pos(i) == Pos(j)
    ensures i == j
  {
    hide Pos, Counted;
    PosIsCounted(i);
    PosIsCounted(j);
    CountedIsInt(i);
    CountedIsInt(j);
  }

  lemma PosEnds()
    ensures Pos(0) == 0 && Pos(31) == 31
  {
  }

  lemma {:induction false} PosSum(i: nat, j: nat)
    requires i + j < 32
    ensures Pos(i + j) == Pos(i) + Pos(j)
    decreases j
  {
    hide Pos;
    if j == 0 {
      PosEnds();
    } else {
      PosSum(i, j - 1);
      PosNext(i + j - 1);
      PosNext(j - 1);
    }
  }

  lemma PosNotZero(i: nat)
    requires 0 < i < 32
    ensures Pos(i) != 0
  {
    PosEnds();
    hide Pos;
    if Pos(i) == 0 {
      PosDistinct(i, 0);
    }
  }

  lemma PosMirror(i: nat)
    requires i < 32
    ensures Pos(31 - i) == 31 - Pos(i)
  {
    hide Pos;
    PosEnds();
    PosSum(31 - i, i);
  }

  lemma WordOfInt(i: nat)
    requires i < 32
    ensures i as bv32 == Pos(i)
  {
  }

  function Shl(x: bv32, i: nat): bv32
    requires i < 32
  {
    x << i
  }

  function Shr(x: bv32, i: nat): bv32
    requires i < 32
  {
    x >> i
  }

  /** Shifting by a number is shifting by its word. */
  lemma ShlByWord(x: bv32, i: nat)
    requires i < 32
    ensures Shl(x, i) == x << Pos(i)
  {
    hide Pos;
    assert x << i == x << (i as bv32);
    WordOfInt(i);
  }

  lemma ShrByWord(x: bv32, i: nat)
    requires i < 32
    ensures Shr(x, i) == ShrWord(x, Pos(i))
  {
    hide Pos;
    assert x >> i == x >> (i as bv32);
    WordOfInt(i);
  }

  /** Setting bit `i`. */
  lemma OrOne(x: bv32, i: nat, j: nat)
    requires i < 32 && j < 32
    ensures Bit(x | Shl(1, i), j) <==> Bit(x, j) || i == j
  {
    hide Pos, Shl, BitAt;
    ShlByWord(1, i);
    OrOneWord(x, Pos(i), Pos(j));
    if Pos(i) == Pos(j) {
      PosDistinct(i, j);
    }
  }

  lemma ReverseMirrors(x: bv32, i: nat)
    requires i < 32
    ensures Bit(Reverse(x), i) <==> Bit(x, 31 - i)
  {
    hide Pos, Reverse, BitAt;
    PosMirror(i);
    ReverseWord(x, Pos(i));
  }

  /** Positions add up below 32, and words of positions that pass 32 do too. */
  lemma WordsAdd(s: nat, i: nat)
    requires s < 32 && i < 32
    ensures if s + i < 32 then Pos(s) + Pos(i) == Pos(s + i) else Pos(s) + Pos(i) >= 32
  {
    hide Pos;
    if s + i < 32 {
      PosSum(s, i);
    } else {
      PosMirror(s);
      PosSum(31 - s, s + i - 31);
      PosNotZero(s + i - 31);
      WordOver(Pos(s), Pos(i), Pos(s + i - 31));
    }
  }

  lemma ShiftMoves(x: bv32, s: nat, i: nat)
    requires s < 32 && i < 32
    ensures Bit(Shr(x, s), i) <==> s + i < 32 && Bit(x, s + i)
  {
    hide Pos, Shr, ShrWord, BitAt;
    ShrByWord(x, s);
    WordsAdd(s, i);
    if s + i < 32 {
      ShiftWithin(x, Pos(s), Pos(i), Pos(s + i));
    } else {
      ShiftOut(x, Pos(s), Pos(i));
    }
  }

  // -------------------------------------------------------------------------- the mask

  /** Group size by bandwidth, and the number of groups: the last may be short. */
  function GroupSize(nofPrb: nat): (p: nat) {
    if nofPrb <= 10 then 1 else if nofPrb <= 26 then 2 else if nofPrb <= 63 then 3 else 4
  }

  function Groups(nofPrb: nat): (nb: nat) {
    (nofPrb + GroupSize(nofPrb) - 1) / GroupSize(nofPrb)
  }

  /** Every bandwidth of LTE has between 1 and 32 groups, enough for its blocks and no more. */
  lemma GroupsFit(nofPrb: nat)
    requires 1 <= nofPrb <= 128
    ensures 1 <= Groups(nofPrb) <= 32
    ensures GroupSize(nofPrb) * (Groups(nofPrb) - 1) < nofPrb <= GroupSize(nofPrb) * Groups(nofPrb)
  {
  }

  /** The numbers of groups of the six channel bandwidths of LTE. */
  lemma LteGroups()
    ensures Groups(6) == 6 && Groups(15) == 8 && Groups(25) == 13
    ensures Groups(50) == 17 && Groups(75) == 19 && Groups(100) == 25
    ensures GroupSize(10) == 1 && GroupSize(11) == GroupSize(26) == 2
    ensures GroupSize(27) == GroupSize(63) == 3 && GroupSize(64) == GroupSize(110) == 4
  {
  }

  predicate InWindow(orig: int, num: int, i: int) { orig <= i < orig + num }

  ghost predicate IsMask(m: bv32, nb: nat, orig: int, num: int) {
    forall i | 0 <= i < 32 :: Bit(m, i) <==> i < nb && InWindow(orig, num, nb - 1 - i)
  }

  /** The mask of the groups below `i`, group 0 at the least significant end. */
  ghost predicate Selects(mask: bv32, i: nat, orig: int, num: int) {
    forall j | 0 <= j < 32 :: Bit(mask, j) <==> j < i && InWindow(orig, num, j)
  }

  lemma NothingSelected(orig: int, num: int)
    ensures Selects(0, 0, orig, num)
  {
    hide Pos;
  }

  lemma SelectNext(mask: bv32, i: nat, orig: int, num: int)
    requires i < 32 && Selects(mask, i, orig, num)
    ensures InWindow(orig, num, i) ==> Selects(mask | Shl(1, i), i + 1, orig, num)
    ensures !InWindow(orig, num, i) ==> Selects(mask, i + 1, orig, num)
  {
    hide Bit, Shl;
    if InWindow(orig, num, i) {
      var more := mask | Shl(1, i);
      forall j | 0 <= j < 32
        ensures Bit(more, j) <==> Bit(mask, j) || i == j
      {
        OrOne(mask, i, j);
      }
    }
  }

  lemma MirroredIsMask(mask: bv32, nb: nat, orig: int, num: int)
    requires 1 <= nb <= 32 && Selects(mask, nb, orig, num)
    ensures IsMask(Shr(Reverse(mask), 32 - nb), nb, orig, num)
  {
    hide Bit, Reverse, Shr;
    var m := Shr(Reverse(mask), 32 - nb);
    forall i | 0 <= i < 32
      ensures Bit(m, i) <==> i < nb && InWindow(orig, num, nb - 1 - i)
    {
      ShiftMoves(Reverse(mask), 32 - nb, i);
      if i < nb {
        ReverseMirrors(mask, 32 - nb + i);
      }
    }
  }

  /** Bit `nb - 1 - i` is set exactly when group `i` is in the window. */
  method PrbsetToBitmask(nb: nat, orig: int, num: int) returns (m: bv32)
    requires 1 <= nb <= 32
    ensures IsMask(m, nb, orig, num)
  {
    hide Selects, Reverse, IsMask, Shl, Shr;
    var mask: bv32 := 0;
    NothingSelected(orig, num);
    for i := 0 to nb
      invariant Selects(mask, i, orig, num)
    {
      SelectNext(mask, i, orig, num);
      if i >= orig && i < orig + num {
        mask := mask | Shl(1, i);
      }
    }
    MirroredIsMask(mask, nb, orig, num);
    m := Shr(Reverse(mask), 32 - nb);
  }

  /** How many of the lowest `k` bits are set. */
  function Ones(m: bv32, k: nat): (n: nat)
    requires k <= 32
  {
    if k == 0 then 0 else Ones(m, k - 1) + if Bit(m, k - 1) then 1 else 0
  }

  function Min(a: int, b: int): int { if a < b then a else b }

  function Max(a: int, b: int): int { if a > b then a else b }

  lemma {:induction false} OnesInWindow(m: bv32, nb: nat, orig: nat, num: nat, k: nat)
    requires nb <= 32 && k <= 32 && orig <= nb && IsMask(m, nb, orig, num)
    ensures Ones(m, k) == Max(0, Min(k, nb - orig) - Max(0, nb - orig - num))
  {
    hide Bit;
    if k > 0 {
      OnesInWindow(m, nb, orig, num, k - 1);
    }
  }

  // -------------------------------------------------------------------------- the cursor

  datatype Key = Right | Left | Up | Down

  datatype Cursor = Cursor(orig: int, num: int, last: int)

  function Press(c: Cursor, nb: nat, key: Key): (d: Cursor) {
    match key
    case Right => if c.orig + c.num < nb then c.(orig := c.orig + 1) else c
    case Left => if c.orig > 0 then c.(orig := c.orig - 1) else c
    case Up => if c.num < nb then c.(num := c.num + 1) else c
    case Down => if c.num > 0 then c.(num := c.num - 1, last := c.num) else c.(last := c.num)
  }

  function Pressed(c: Cursor, nb: nat, keys: seq<Key>): (d: Cursor) {
    if keys == [] then c else Press(Pressed(c, nb, keys[..|keys| - 1]), nb, keys[|keys| - 1])
  }

  /** The whole band at first. */
  function Start(nb: nat): Cursor { Cursor(0, nb, nb) }

  function After(nb: nat, keys: seq<Key>): (c: Cursor) { Pressed(Start(nb), nb, keys) }

  /** No key sequence takes the cursor out of the band. */
  lemma {:induction false} CursorStaysInBand(nb: nat, keys: seq<Key>)
    ensures 0 <= After(nb, keys).orig <= nb && 0 <= After(nb, keys).num <= nb
  {
    if keys != [] {
      CursorStaysInBand(nb, keys[..|keys| - 1]);
    }
  }

  /** After any keys the mask has as many groups as the window has inside the band. */
  lemma MaskSize(nb: nat, keys: seq<Key>, m: bv32)
    requires nb <= 32 && IsMask(m, nb, After(nb, keys).orig, After(nb, keys).num)
    ensures Ones(m, 32) == Min(After(nb, keys).num, nb - After(nb, keys).orig)
  {
    CursorStaysInBand(nb, keys);
    OnesInWindow(m, nb, After(nb, keys).orig, After(nb, keys).num, 32);
  }

  /** A window inside the band leaves it exactly by growing while it ends at the end of the band;
      no move to the right takes it out. */
  lemma WindowHangsOut(c: Cursor, nb: nat, key: Key)
    requires 0 <= c.orig && 0 <= c.num && c.orig + c.num <= nb
    ensures Press(c, nb, key).orig + Press(c, nb, key).num > nb <==>
            key == Up && c.num < nb && c.orig + c.num == nb
  {
  }

  /** Keys can bring that about, for every band of more than one group. */
  lemma WindowDoesHangOut(nb: nat)
    requires nb >= 2
    ensures var c := After(nb, [Down, Right, Up]); c.orig + c.num > nb
  {
    assert [Down, Right, Up][..2] == [Down, Right] && [Down, Right][..1] == [Down] && [Down][..0] == [];
    assert Pressed(Start(nb), nb, []) == Start(nb);
    assert After(nb, [Down]) == Cursor(0, nb - 1, nb);
    assert After(nb, [Down, Right]) == Cursor(1, nb - 1, nb);
    WindowHangsOut(After(nb, [Down, Right]), nb, Up);
  }

  /** Left and right undo each other inside the band, and so do, for the width, up and down. */
  lemma KeysUndoEachOther(c: Cursor, nb: nat)
    requires 0 <= c.orig && 0 <= c.num && c.orig + c.num <= nb
    ensures c.orig + c.num < nb ==> Press(Press(c, nb, Right), nb, Left) == c
    ensures c.orig > 0 ==> Press(Press(c, nb, Left), nb, Right) == c
    ensures c.num > 0 ==> Press(Press(c, nb, Down), nb, Up).num == c.num
    ensures c.num < nb ==> Press(Press(c, nb, Up), nb, Down).num == c.num
  {
  }

  /** Keys stop at the edges, also for a window that hangs out. */
  lemma KeysStopAtEdges(c: Cursor, nb: nat)
    ensures c.orig + c.num >= nb ==> Press(c, nb, Right) == c
    ensures c.orig <= 0 ==> Press(c, nb, Left) == c
    ensures c.num >= nb ==> Press(c, nb, Up) == c
    ensures c.num <= 0 ==> Press(c, nb, Down).num == c.num && Press(c, nb, Down).orig == c.orig
  {
  }

  function Repeat(key: Key, k: nat): (keys: seq<Key>) { seq(k, i => key) }

  lemma {:induction false} PressedBoth(c: Cursor, nb: nat, keys: seq<Key>, more: seq<Key>)
    ensures Pressed(c, nb, keys + more) == Pressed(Pressed(c, nb, keys), nb, more)
    decreases |more|
  {
    if more == [] {
      assert keys + more == keys;
    } else {
      PressedBoth(c, nb, keys, more[..|more| - 1]);
      assert (keys + more)[..|keys + more| - 1] == keys + more[..|more| - 1];
    }
  }

  /** A key pressed `k` times while there is room moves the window, or its width, by `k`. */
  lemma {:induction false} PressedTimes(c: Cursor, nb: nat, key: Key, k: nat)
    requires 0 <= c.orig && 0 <= c.num
    requires k <= match key case Right => nb - c.orig - c.num case Left => c.orig case Up => nb - c.num case Down => c.num
    ensures var d := Pressed(c, nb, Repeat(key, k));
            && d.orig == (match key case Right => c.orig + k case Left => c.orig - k case _ => c.orig)
            && d.num == (match key case Up => c.num + k case Down => c.num - k case _ => c.num)
  {
    if k > 0 {
      PressedTimes(c, nb, key, k - 1);
      assert Repeat(key, k)[..k - 1] == Repeat(key, k - 1);
    }
  }

  /** From every cursor in the band some keys lead to every window inside it. */
  lemma EveryWindowIsReached(c: Cursor, nb: nat, orig: nat, num: nat) returns (keys: seq<Key>)
    requires 0 <= c.orig && 0 <= c.num <= nb && orig + num <= nb
    ensures Pressed(c, nb, keys).orig == orig && Pressed(c, nb, keys).num == num
  {
    hide Pressed, Repeat;
    var left, down := Repeat(Left, c.orig), Repeat(Down, c.num);
    var up, right := Repeat(Up, num), Repeat(Right, orig);
    PressedTimes(c, nb, Left, c.orig);
    var c1 := Pressed(c, nb, left);
    PressedTimes(c1, nb, Down, c.num);
    PressedBoth(c, nb, left, down);
    var c2 := Pressed(c1, nb, down);
    PressedTimes(c2, nb, Up, num);
    PressedBoth(c, nb, left + down, up);
    PressedTimes(Pressed(c2, nb, up), nb, Right, orig);
    PressedBoth(c, nb, left + down + up, right);
    keys := left + down + up + right;
  }

  /** Position of the latest key down, or -1. */
  function LatestDown(keys: seq<Key>): (i: int)
    ensures -1 <= i < |keys|
  {
    if keys == [] then -1
    else if keys[|keys| - 1] == Down then |keys| - 1
    else LatestDown(keys[..|keys| - 1])
  }

  /** The width kept aside is the one before the latest key down, and the whole band before any. */
  lemma {:induction false} LastIsBeforeDown(nb: nat, keys: seq<Key>)
    ensures After(nb, keys).last == if LatestDown(keys) == -1 then nb else After(nb, keys[..LatestDown(keys)]).num
  {
    if keys != [] {
      var first := keys[..|keys| - 1];
      LastIsBeforeDown(nb, first);
      if LatestDown(first) >= 0 && keys[|keys| - 1] != Down {
        assert first[..LatestDown(first)] == keys[..LatestDown(keys)];
      }
    }
  }

  class Control {
    const nb: nat
    var prbsetOrig: int
    var prbsetNum: int
    var lastPrbsetNum: int

    ghost function State(): Cursor
      reads this
    {
      Cursor(prbsetOrig, prbsetNum, lastPrbsetNum)
    }

    constructor (nofPrb: nat)
      ensures nb == Groups(nofPrb) && State() == Start(nb)
    {
      nb := Groups(nofPrb);
      prbsetOrig := 0;
      prbsetNum := Groups(nofPrb);
      lastPrbsetNum := Groups(nofPrb);
    }

    /** A cursor key, and the mask put into the next control information. */
    method UpdateControl(key: Key) returns (m: bv32)
      requires 1 <= nb <= 32
      modifies this
      ensures State() == Press(old(State()), nb, key)
      ensures IsMask(m, nb, prbsetOrig, prbsetNum)
    {
      match key {
      case Right =>
        if prbsetOrig + prbsetNum < nb {
          prbsetOrig := prbsetOrig + 1;
        }
      case Left =>
        if prbsetOrig > 0 {
          prbsetOrig := prbsetOrig - 1;
        }
      case Up =>
        if prbsetNum < nb {
          prbsetNum := prbsetNum + 1;
        }
      case Down =>
        lastPrbsetNum := prbsetNum;
        if prbsetNum > 0 {
          prbsetNum := prbsetNum - 1;
        }
      }
      m := PrbsetToBitmask(nb, prbsetOrig, prbsetNum);
    }
  }
}
