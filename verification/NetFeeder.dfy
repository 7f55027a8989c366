/** The eNodeB example's UDP feeder: bytes arrive in chunks of any size, are collected in one
    buffer in place, and leave in packets of the size of a transport block.  This is the
    branch that feeds the multicast channel. */
module NetFeeder {

  type Byte = x: int | 0 <= x < 256

  const DATA_BUFF_SZ := 1024 * 1024

  /** Division as C does it: towards zero. */
  function CDiv(a: int, b: int): int
    requires b > 0
  {
    if a >= 0 then a / b else -(-a / b)
  }

  /** The bytes of a packet for a transport block of `tbs` bits. */
  function PacketBytes(tbs: int): int { 1 + CDiv(tbs - 1, 8) }

  /** The smallest number of bytes that holds the block, and one byte for an empty block. */
  lemma PacketHoldsBlock(tbs: nat)
    ensures var n := PacketBytes(tbs); n >= 1 && 8 * n >= tbs && (8 * (n - 1) < tbs || (tbs == 0 && n == 1))
  {
  }

  // ---------------------------------------------------------------- the stream, as a value

  function Concat(ps: seq<seq<Byte>>): (s: seq<Byte>) {
    if ps == [] then [] else Concat(ps[..|ps| - 1]) + ps[|ps| - 1]
  }

  lemma {:induction false} ConcatSum(ps: seq<seq<Byte>>, qs: seq<seq<Byte>>)
    ensures Concat(ps + qs) == Concat(ps) + Concat(qs)
    decreases |qs|
  {
    if qs == [] {
      assert ps + qs == ps;
    } else {
      var first := qs[..|qs| - 1];
      ConcatSum(ps, first);
      assert (ps + qs)[..|ps + qs| - 1] == ps + first;
      assert Concat(ps) + (Concat(first) + qs[|qs| - 1]) == Concat(ps) + Concat(first) + qs[|qs| - 1];
    }
  }

  /** The stream cut into `n`-byte blocks from the front, and what is left. */
  function Blocks(s: seq<Byte>, n: nat): (r: (seq<seq<Byte>>, seq<Byte>))
    requires n > 0
  {
    if |s| < n then ([], s)
    else
      var (ps, rest) := Blocks(s[n..], n);
      ([s[..n]] + ps, rest)
  }

  /** Cutting loses, repeats and moves no byte, and leaves less than a block. */
  lemma {:induction false} BlocksKeepBytes(s: seq<Byte>, n: nat)
    requires n > 0
    ensures var (ps, rest) := Blocks(s, n);
            Concat(ps) + rest == s && |rest| < n && (forall i | 0 <= i < |ps| :: |ps[i]| == n)
  {
    if |s| >= n {
      var (ps, rest) := Blocks(s[n..], n);
      BlocksKeepBytes(s[n..], n);
      ConcatSum([s[..n]], ps);
      assert [s[..n]][..0] == [];
      assert Concat([s[..n]]) == s[..n];
      assert s[..n] + (Concat(ps) + rest) == s[..n] + Concat(ps) + rest;
    }
  }

  /** Cutting in two goes: the blocks of the first part, then those of its rest with the second. */
  lemma {:induction false} BlocksInTwo(s: seq<Byte>, t: seq<Byte>, n: nat)
    requires n > 0
    ensures var (ps, rest) := Blocks(s, n);
            Blocks(s + t, n) == (ps + Blocks(rest + t, n).0, Blocks(rest + t, n).1)
  {
    if |s| >= n {
      BlocksInTwo(s[n..], t, n);
      assert (s + t)[n..] == s[n..] + t && (s + t)[..n] == s[..n];
      var (ps, rest) := Blocks(s[n..], n);
      assert [s[..n]] + (ps + Blocks(rest + t, n).0) == [s[..n]] + ps + Blocks(rest + t, n).0;
    } else {
      assert [] + Blocks(s + t, n).0 == Blocks(s + t, n).0;
    }
  }

  /** `packets` are the blocks of the first `w` bytes: cutting goes on with the rest. */
  ghost predicate CutSoFar(s: seq<Byte>, n: nat, w: nat, packets: seq<seq<Byte>>)
    requires n > 0 && w <= |s|
  {
    Blocks(s, n) == (packets + Blocks(s[w..], n).0, Blocks(s[w..], n).1)
  }

  lemma CutOneMore(s: seq<Byte>, n: nat, w: nat, packets: seq<seq<Byte>>)
    requires n > 0 && w + n <= |s| && CutSoFar(s, n, w, packets)
    ensures CutSoFar(s, n, w + n, packets + [s[w..w + n]])
  {
    var t := s[w..];
    assert t[..n] == s[w..w + n] && t[n..] == s[w + n..];
    var ps := Blocks(t[n..], n).0;
    assert packets + ([t[..n]] + ps) == packets + [s[w..w + n]] + ps;
  }

  lemma CutStarts(s: seq<Byte>, n: nat)
    requires n > 0
    ensures CutSoFar(s, n, 0, [])
  {
    assert s[0..] == s;
    assert [] + Blocks(s, n).0 == Blocks(s, n).0;
  }

  lemma CutEnds(s: seq<Byte>, n: nat, w: nat, packets: seq<seq<Byte>>)
    requires n > 0 && w <= |s| < w + n && CutSoFar(s, n, w, packets)
    ensures Blocks(s, n) == (packets, s[w..])
  {
    assert packets + [] == packets;
  }

  // ---------------------------------------------------------------------- runs of reads

  /** One return of the socket read: bytes and the packet size in force, none, or an error. */
  datatype Read = Data(chunk: seq<Byte>, packet: nat) | Nothing | Failed

  /** The packets staged and the bytes kept after a run of reads: an empty read drops what was
      kept. */
  function Feed(rs: seq<Read>): (r: (seq<seq<Byte>>, seq<Byte>))
    requires forall i | 0 <= i < |rs| && rs[i].Data? :: rs[i].packet > 0
  {
    if rs == [] then ([], [])
    else
      var (ps, rest) := Feed(rs[..|rs| - 1]);
      match rs[|rs| - 1]
      case Nothing => (ps, [])
      case Failed => (ps, rest)
      case Data(chunk, n) => (ps + Blocks(rest + chunk, n).0, Blocks(rest + chunk, n).1)
  }

  function Received(rs: seq<Read>): (s: seq<Byte>) {
    if rs == [] then []
    else Received(rs[..|rs| - 1]) + if rs[|rs| - 1].Data? then rs[|rs| - 1].chunk else []
  }

  /** While reads return data, staged packets and residue together are all the bytes received,
      in order, for any chunking and any packet sizes; the residue is shorter than the last
      packet size. */
  lemma {:induction false} NothingIsLost(rs: seq<Read>)
    requires forall i | 0 <= i < |rs| :: rs[i].Data? && rs[i].packet > 0
    ensures Concat(Feed(rs).0) + Feed(rs).1 == Received(rs)
    ensures rs != [] ==> |Feed(rs).1| < rs[|rs| - 1].packet
  {
    hide Blocks, Concat;
    if rs == [] {
      assert Concat([]) == [] by { NoPackets(); }
    } else {
      var first, last := rs[..|rs| - 1], rs[|rs| - 1];
      NothingIsLost(first);
      var (ps, rest) := Feed(first);
      var (qs, left) := Blocks(rest + last.chunk, last.packet);
      BlocksKeepBytes(rest + last.chunk, last.packet);
      ConcatSum(ps, qs);
      Joined(Concat(ps), rest, last.chunk, Concat(qs), left);
      assert Feed(rs) == (ps + qs, left);
    }
  }

  lemma NoPackets()
    ensures Concat([]) == []
  {
  }

  lemma Joined(p: seq<Byte>, rest: seq<Byte>, chunk: seq<Byte>, q: seq<Byte>, left: seq<Byte>)
    requires q + left == rest + chunk
    ensures (p + q) + left == (p + rest) + chunk
  {
    assert (p + q) + left == p + (q + left);
    assert (p + rest) + chunk == p + (rest + chunk);
  }

  /** With one packet size the packets do not depend on how the bytes were chunked: they are
      the blocks of the whole stream. */
  lemma {:induction false} ChunkingDoesNotMatter(rs: seq<Read>, n: nat)
    requires n > 0 && forall i | 0 <= i < |rs| :: rs[i].Data? && rs[i].packet == n
    ensures Feed(rs) == Blocks(Received(rs), n)
  {
    if rs != [] {
      var first, last := rs[..|rs| - 1], rs[|rs| - 1];
      ChunkingDoesNotMatter(first, n);
      BlocksInTwo(Received(first), last.chunk, n);
    }
  }

  /** An empty read loses exactly the bytes kept so far. */
  lemma EmptyReadDropsResidue(rs: seq<Read>)
    requires forall i | 0 <= i < |rs| :: rs[i].Data? && rs[i].packet > 0
    ensures Received(rs + [Nothing]) == Concat(Feed(rs + [Nothing]).0) + Feed(rs).1
    ensures Feed(rs + [Nothing]).1 == []
  {
    assert (rs + [Nothing])[..|rs|] == rs;
    assert Received(rs) + [] == Received(rs);
    NothingIsLost(rs);
  }

  // ---------------------------------------------------------------------------- the object

  /** `memcpy` within one array: defined only for ranges that do not overlap. */
  method MemCpyDown(a: array<Byte>, from: nat, n: nat)
    requires from + n <= a.Length && n <= from
    modifies a
    ensures a[..n] == old(a[from..from + n])
  {
    for i := 0 to n
      invariant a[..i] == old(a[from..from + i])
      invariant a[from..] == old(a[from..])
    {
      assert a[from..][i] == a[from + i];
      assert old(a[from..from + i + 1]) == old(a[from..from + i]) + [old(a[from + i])];
      a[i] := a[from + i];
    }
  }

  lemma Slice(s: seq<Byte>, all: seq<Byte>, from: nat, to: nat)
    requires from <= to <= |all| <= |s| && s[..|all|] == all
    ensures s[from..to] == all[from..to]
  {
    forall i | 0 <= i < to - from
      ensures s[from..to][i] == all[from..to][i]
    {
      assert s[..|all|][from + i] == all[from + i];
    }
  }

  class Feeder {
    const data2: array<Byte>
    var rpm: nat

    constructor ()
      ensures fresh(data2) && data2.Length == DATA_BUFF_SZ && rpm == 0
    {
      data2 := new Byte[DATA_BUFF_SZ];
      rpm := 0;
    }

    /** The bytes kept for the next packet. */
    ghost function Residue(): seq<Byte>
      requires rpm <= data2.Length
      reads this, data2
    {
      data2[..rpm]
    }

    /** Handles the bytes a read put behind the residue.  Each packet leaves once the consumer
        has freed its place; `packets` are their contents in order. */
    method OnData(chunk: seq<Byte>, nbytes: nat) returns (packets: seq<seq<Byte>>)
      requires rpm + |chunk| <= data2.Length && 0 < nbytes
      modifies this, data2
      ensures rpm <= data2.Length && (packets, Residue()) == Blocks(old(Residue()) + chunk, nbytes)
      ensures rpm < nbytes
    {
      hide CutSoFar, Blocks;
      Store(chunk);
      ghost var all := data2[..rpm];
      var wpm := 0;
      packets := [];
      CutStarts(all, nbytes);
      while rpm >= nbytes
        modifies this
        invariant wpm + rpm == |all| <= data2.Length && data2[..|all|] == all
        invariant wpm == 0 || nbytes <= wpm
        invariant CutSoFar(all, nbytes, wpm, packets)
      {
        CutOneMore(all, nbytes, wpm, packets);
        Slice(data2[..], all, wpm, wpm + nbytes);
        packets := packets + [data2[wpm..wpm + nbytes]];
        rpm := rpm - nbytes;
        wpm := wpm + nbytes;
      }
      CutEnds(all, nbytes, wpm, packets);
      Slice(data2[..], all, wpm, wpm + rpm);
      if wpm > 0 {
        MemCpyDown(data2, wpm, rpm);
      }
    }

    method Store(chunk: seq<Byte>)
      requires rpm + |chunk| <= data2.Length
      modifies this, data2
      ensures rpm == old(rpm) + |chunk| <= data2.Length && data2[..rpm] == old(Residue()) + chunk
    {
      for i := 0 to |chunk|
        invariant rpm == old(rpm)
        invariant data2[..rpm + i] == old(Residue()) + chunk[..i]
      {
        data2[rpm + i] := chunk[i];
        assert chunk[..i + 1] == chunk[..i] + [chunk[i]];
      }
      assert chunk[..|chunk|] == chunk;
      rpm := rpm + |chunk|;
    }

    /** The loop over what the socket reads return; a failed one ends the program. */
    method Run(rs: seq<Read>) returns (ok: bool, packets: seq<seq<Byte>>)
      requires rpm == 0 && data2.Length == DATA_BUFF_SZ
      requires forall i | 0 <= i < |rs| && rs[i].Data? :: 0 < rs[i].packet
      requires Fits(rs)
      modifies this, data2
      ensures ok <==> Failed !in rs
      ensures rpm <= data2.Length
      ensures ok ==> (packets, Residue()) == Feed(rs)
      ensures !ok ==> exists k :: 0 <= k < |rs| && rs[k].Failed? && Failed !in rs[..k] && (packets, Residue()) == Feed(rs[..k])
    {
      packets := [];
      for i := 0 to |rs|
        invariant rpm <= data2.Length && (packets, Residue()) == Feed(rs[..i])
        invariant Failed !in rs[..i]
      {
        assert rs[..i + 1][..i] == rs[..i] && rs[..i + 1] == rs[..i] + [rs[i]];
        match rs[i]
        case Nothing => rpm := 0;
        case Failed => return false, packets;
        case Data(chunk, nbytes) =>
          assert |Feed(rs[..i]).1| + |chunk| <= DATA_BUFF_SZ;
          var more := OnData(chunk, nbytes);
          packets := packets + more;
      }
      assert rs[..|rs|] == rs;
      ok := true;
    }
  }

  /** A read returns no more bytes than it asked for: the room behind the residue. */
  ghost predicate Fits(rs: seq<Read>)
    requires forall i | 0 <= i < |rs| && rs[i].Data? :: rs[i].packet > 0
  {
    forall i | 0 <= i < |rs| && rs[i].Data? :: |Feed(rs[..i]).1| + |rs[i].chunk| <= DATA_BUFF_SZ
  }
}
