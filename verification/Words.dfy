/** Words of 32 bits and their positions, both as bit vectors. */
module Words {

  /** The bit at a position. */
  predicate BitAt(x: bv32, p: bv32)
    requires p < 32
  {
    (x >> p) & 1 == 1
  }

  function ShrWord(x: bv32, p: bv32): bv32
    requires p < 32
  {
    x >> p
  }

  lemma OrOneWord(x: bv32, p: bv32, q: bv32)
    requires p < 32 && q < 32
    ensures BitAt(x | ((1 as bv32) << p), q) <==> BitAt(x, q) || p == q
  {
  }

  /** Five swaps of ever larger halves. */
  function Reverse(x: bv32): bv32 {
    var x1 := ((x & 0xaaaaaaaa) >> 1) | ((x & 0x55555555) << 1);
    var x2 := ((x1 & 0xcccccccc) >> 2) | ((x1 & 0x33333333) << 2);
    var x3 := ((x2 & 0xf0f0f0f0) >> 4) | ((x2 & 0x0f0f0f0f) << 4);
    var x4 := ((x3 & 0xff00ff00) >> 8) | ((x3 & 0x00ff00ff) << 8);
    (x4 >> 16) | (x4 << 16)
  }

  lemma ReverseWord(x: bv32, p: bv32)
    requires p < 32
    ensures BitAt(Reverse(x), p) <==> BitAt(x, 31 - p)
  {
  }

  lemma ReverseTwice(x: bv32)
    ensures Reverse(Reverse(x)) == x
  {
  }

  lemma ShiftWithin(x: bv32, p: bv32, q: bv32, r: bv32)
    requires p < 32 && q < 32 && r < 32 && r == p + q
    ensures BitAt(ShrWord(x, p), q) <==> BitAt(x, r)
  {
    hide Reverse;
  }

  lemma ShiftOut(x: bv32, p: bv32, q: bv32)
    requires p < 32 && q < 32 && p + q >= 32
    ensures !BitAt(ShrWord(x, p), q)
  {
  }

  lemma WordOver(p: bv32, q: bv32, k: bv32)
    requires p < 32 && 0 < k < 32 && q == 31 - p + k
    ensures p + q >= 32
  {
  }
}
