/** The request-id counter of the RIC: an `atomic_int` that starts at 1021 and wraps, whose
    value is cut to 16 bits by the forwarding calls and kept as 32 bits by the direct ones. */
module RequestIds {

  const FIRST: int := 1021

  function Next(c: int): int {
    if c == 0x7fff_ffff then -0x8000_0000 else c + 1
  }

  /** The counter after `n` allocations. */
  function Counter(n: nat): int {
    if n == 0 then FIRST else Next(Counter(n - 1))
  }

  /** Conversion to `uint16_t`. */
  function Cut16(c: int): nat { c % 0x1_0000 }

  /** Conversion to `uint32_t`. */
  function Cut32(c: int): nat { c % 0x1_0000_0000 }

  /** The id an allocation yields: the forwarding calls store a `uint16_t`, the direct
      service calls assign the counter to the 32-bit field. */
  function IdOf(c: int, forwarded: bool): nat {
    if forwarded then Cut16(c) else Cut32(c)
  }

  lemma {:induction false} CounterClosedForm(n: nat)
    ensures Counter(n) == (1021 + n + 0x8000_0000) % 0x1_0000_0000 - 0x8000_0000
  {
    if n > 0 {
      CounterClosedForm(n - 1);
    }
  }

  lemma ModOfMod(a: int, b: int, k: int)
    requires a == b + k * 0x1_0000
    ensures a % 0x1_0000 == b % 0x1_0000
  {
  }

  /** Whichever width is kept, the low 16 bits are those of the allocation number. */
  lemma IdLowBits(n: nat, forwarded: bool)
    ensures IdOf(Counter(n), forwarded) % 0x1_0000 == (1021 + n) % 0x1_0000
  {
    CounterClosedForm(n);
    var c := Counter(n);
    var x := FIRST + n;
    ModOfMod(c, x, -((x + 0x8000_0000) / 0x1_0000_0000) * 0x1_0000);
    ModOfMod(c, Cut32(c), (c / 0x1_0000_0000) * 0x1_0000);
  }

  lemma SameResidue(a: int, b: int)
    ensures a % 0x1_0000 == b % 0x1_0000 <==> (b - a) % 0x1_0000 == 0
  {
    var qa, qb := a / 0x1_0000, b / 0x1_0000;
    if a % 0x1_0000 == b % 0x1_0000 {
      assert b - a == (qb - qa) * 0x1_0000;
    }
    if (b - a) % 0x1_0000 == 0 {
      var q := (b - a) / 0x1_0000;
      ModOfMod(b, a, q);
    }
  }

  lemma Cut16Residue(n: nat)
    ensures Cut16(Counter(n)) == (FIRST + n) % 0x1_0000
  {
    IdLowBits(n, true);
    ModOfMod(Cut16(Counter(n)), Counter(n), -(Counter(n) / 0x1_0000));
  }

  /** Two 16-bit ids collide exactly when their allocations are a multiple of 65536 apart. */
  lemma Collision16(a: nat, b: nat)
    ensures Cut16(Counter(a)) == Cut16(Counter(b)) <==> (b - a) % 0x1_0000 == 0
  {
    hide Counter, Cut16;
    Cut16Residue(a);
    Cut16Residue(b);
    SameResidue(FIRST + a, FIRST + b);
    assert FIRST + b - (FIRST + a) == b - a;
  }

  /** The first 64515 ids count up from 1021 in either width; the next is 65536 for a direct call
      and 0 for a forwarding one. */
  lemma FirstIds(n: nat, forwarded: bool)
    requires n <= 64515
    ensures IdOf(Counter(n), forwarded) == if forwarded && n == 64515 then 0 else 1021 + n
  {
    CounterClosedForm(n);
    hide Counter;
    var c := Counter(n);
    assert c == 1021 + n;
    assert c < 0x1_0000 ==> c % 0x1_0000 == c;
  }

  /** Within any 65536 consecutive allocations no two ids agree, even when some of them were
      cut to 16 bits and others kept 32. */
  lemma DistinctInWindow(a: nat, b: nat, fa: bool, fb: bool)
    requires a < b < a + 0x1_0000
    ensures IdOf(Counter(a), fa) != IdOf(Counter(b), fb)
  {
    IdLowBits(a, fa);
    IdLowBits(b, fb);
    SameResidue(FIRST + a, FIRST + b);
  }

  /** A direct service call and a forwarding call give the same id to the same counter value
      exactly while the counter is a 16-bit number. */
  lemma WidthsAgree(c: int)
    requires -0x8000_0000 <= c <= 0x7fff_ffff
    ensures IdOf(c, true) == IdOf(c, false) <==> 0 <= c < 0x1_0000
  {
  }
}
