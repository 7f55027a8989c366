/** The semaphore handshake between the eNodeB example's feeder thread and its transmit loop:
    one buffer, one flag, one semaphore that starts at 1, and every interleaving of the two. */
module Handshake {
  import opened Bags
  import opened Containers
  import opened NetFeeder
  import opened Runs

  /** Whether a multicast area is configured: the loop releases packets in different places. */
  datatype Mode = Mbsfn | Normal

  datatype Feeding = Reading | Copying(packet: seq<Byte>) | Copied(packet: seq<Byte>)

  datatype Sending =
    | Between      // at the start of a subframe
    | Chosen       // multicast: has seen the flag, will send
    | Filled       // normal: has written random data over the buffer, will send
    | Patterned    // multicast: has written the test pattern over the buffer
    | Encoded      // has handed the buffer to the encoder
    | Releasing    // has cleared the flag, not posted yet

  /** What the encoder had last been given when a packet was released outside multicast, what
      random bytes the loop had last filled in, and whether the packet was copied between that
      filling and that encoding. */
  datatype Verdict = Verdict(inTime: bool, random: seq<Byte>, encoded: seq<Byte>)

  /** `input` are the packets the feeder cuts, `next` how many of them it has taken up.  The
      fields from `staged` on are history: packets staged, released and given to the encoder,
      how many bytes the pattern covered each time, and for the releases outside multicast the
      last copy and filling, when they and the last encoding were, and a verdict each. */
  datatype State = State(
    mode: Mode,
    input: seq<seq<Byte>>,
    next: nat,
    sem: nat,
    ready: bool,
    buffer: seq<Byte>,
    feeder: Feeding,
    sender: Sending,
    staged: seq<seq<Byte>>,
    released: nat,
    encoded: seq<seq<Byte>>,
    covers: seq<nat>,
    now: nat,
    copied: seq<Byte>,
    random: seq<Byte>,
    copiedAt: int,
    filledAt: int,
    encodedAt: int,
    verdicts: seq<Verdict>)

  /** The test pattern over the first `k` bytes. */
  function Overwrite(p: seq<Byte>, k: nat): (q: seq<Byte>)
    ensures |q| == |p|
  {
    seq(|p|, j requires 0 <= j < |p| => if j < k then j % 255 else p[j])
  }

  datatype Move =
    | Wait
    | Copy
    | Raise
    | Look
    | Fill(random: seq<Byte>, send: bool)
    | Pattern(tbs: nat)
    | Encode
    | Check
    | Post

  predicate Enabled(s: State, m: Move) {
    match m
    case Wait => s.feeder == Reading && s.sem > 0 && s.next < |s.input|
    case Copy => s.feeder.Copying?
    case Raise => s.feeder.Copied?
    case Look => s.mode == Mbsfn && s.sender == Between
    case Fill(_, _) => s.mode == Normal && s.sender == Between
    case Pattern(_) => s.sender == Chosen
    case Encode => s.sender == Patterned || s.sender == Filled
    case Check => s.sender == Encoded
    case Post => s.sender == Releasing
  }

  /** The packet under way was copied after the last filling and before the last encoding. */
  predicate InTime(s: State) { s.filledAt < s.copiedAt < s.encodedAt }

  function Last(ps: seq<seq<Byte>>): seq<Byte> { if ps == [] then [] else ps[|ps| - 1] }

  /** The flag goes down and the packet counts as sent. */
  function Release(s: State): State {
    s.(ready := false, released := s.released + 1, sender := Releasing,
       verdicts := s.verdicts + [Verdict(InTime(s), s.random, Last(s.encoded))])
  }

  function Do(s: State, m: Move): State
    requires Enabled(s, m)
  {
    match m
    case Wait => s.(sem := s.sem - 1, feeder := Copying(s.input[s.next]), next := s.next + 1)
    case Copy =>
      s.(buffer := s.feeder.packet, feeder := Copied(s.feeder.packet), copied := s.feeder.packet, copiedAt := s.now)
    case Raise => s.(ready := true, staged := s.staged + [s.feeder.packet], feeder := Reading)
    case Look => s.(sender := if s.ready then Chosen else Between)
    case Fill(random, send) =>
      s.(buffer := random, sender := if send then Filled else Between, random := random, filledAt := s.now)
    case Pattern(tbs) => s.(buffer := Overwrite(s.buffer, tbs / 8), sender := Patterned, covers := s.covers + [tbs / 8])
    case Encode => s.(encoded := s.encoded + [s.buffer], sender := Encoded, encodedAt := s.now)
    case Check => if s.ready then Release(s) else s.(sender := Between)
    case Post => s.(sem := s.sem + 1, sender := Between)
  }

  function Apply(s: State, m: Move): State
    requires Enabled(s, m)
  {
    Do(s, m).(now := s.now + 1)
  }

  predicate Init(s: State) {
    && s.next == 0 && s.sem == 1 && !s.ready
    && s.feeder == Reading && s.sender == Between
    && s.staged == [] && s.released == 0 && s.encoded == [] && s.covers == []
    && s.now == 0 && s.copiedAt == s.filledAt == s.encodedAt == -1 && s.verdicts == []
  }

  /** One token: the free semaphore, the feeder's copy, the flag, or the release under way. */
  ghost predicate OneToken(s: State) {
    && s.sem + One(s.feeder != Reading) + One(s.ready) + One(s.sender == Releasing) == 1
    && |s.staged| == s.released + One(s.ready)
  }

  /** What is staged, and the packet being copied, are the packets taken up so far. */
  ghost predicate StagedIsInput(s: State) {
    s.next <= |s.input| && s.input[..s.next] == s.staged + if s.feeder == Reading then [] else [s.feeder.packet]
  }

  /** The multicast loop is between seeing the flag and releasing. */
  predicate Committed(g: Sending) { g == Chosen || g == Patterned || g == Encoded }

  /** In multicast mode the loop sends only what is staged, and everything it releases. */
  ghost predicate MbsfnOk(s: State)
    requires OneToken(s)
  {
    && s.sender != Filled
    && (Committed(s.sender) ==> s.ready)
    && |s.encoded| == s.released + One(s.sender == Encoded)
    && |s.covers| == s.released + One(s.sender == Patterned || s.sender == Encoded)
    && (s.ready ==> s.buffer == if s.sender == Patterned || s.sender == Encoded
                                then Overwrite(s.staged[|s.staged| - 1], s.covers[|s.covers| - 1])
                                else s.staged[|s.staged| - 1])
    && (s.feeder.Copied? ==> s.buffer == s.feeder.packet)
    && (forall i | 0 <= i < |s.encoded| :: s.encoded[i] == Overwrite(s.staged[i], s.covers[i]))
  }

  /** The feeder has copied the packet that holds the token. */
  predicate Arrived(s: State) { s.ready || s.feeder.Copied? }

  /** Outside multicast: what the buffer and the encoder hold is the random filling, unless the
      packet under way came in between; and each verdict says so of its release. */
  ghost predicate NormalOk(s: State)
    requires OneToken(s)
  {
    && s.copiedAt < s.now && s.filledAt < s.now && s.encodedAt < s.now
    && s.sender != Chosen && s.sender != Patterned
    && (s.ready ==> s.copied == s.staged[|s.staged| - 1])
    && (s.feeder.Copied? ==> s.copied == s.feeder.packet)
    && (s.sender == Filled ==> s.encodedAt < s.filledAt && s.buffer == if s.filledAt < s.copiedAt then s.copied else s.random)
    && (s.sender == Encoded ==>
          s.filledAt < s.encodedAt && Last(s.encoded) == if InTime(s) then s.copied else s.random)
    && (s.sender == Filled || s.sender == Encoded ==> Arrived(s) || s.copiedAt < s.filledAt)
    && (s.sender == Encoded ==> s.copiedAt != s.encodedAt)
    && |s.verdicts| == s.released
    && (forall i | 0 <= i < |s.verdicts| ::
          s.verdicts[i].encoded == if s.verdicts[i].inTime then s.staged[i] else s.verdicts[i].random)
  }

  ghost predicate Inv(s: State) {
    && OneToken(s)
    && StagedIsInput(s)
    && if s.mode == Mbsfn then MbsfnOk(s) else NormalOk(s)
  }

  lemma MoveKeepsToken(s: State, m: Move)
    requires OneToken(s) && Enabled(s, m)
    ensures OneToken(Apply(s, m))
  {
  }

  lemma MoveKeepsInput(s: State, m: Move)
    requires StagedIsInput(s) && Enabled(s, m)
    ensures StagedIsInput(Apply(s, m))
  {
    if m.Wait? {
      assert s.input[..s.next + 1] == s.input[..s.next] + [s.input[s.next]];
    }
  }

  lemma MoveKeepsMbsfn(s: State, m: Move)
    requires OneToken(s) && MbsfnOk(s) && s.mode == Mbsfn && Enabled(s, m)
    ensures OneToken(Apply(s, m)) && MbsfnOk(Apply(s, m))
  {
    hide Overwrite, InTime;
    MoveKeepsToken(s, m);
  }

  lemma MoveKeepsNormal(s: State, m: Move)
    requires OneToken(s) && NormalOk(s) && s.mode == Normal && Enabled(s, m)
    ensures OneToken(Apply(s, m)) && NormalOk(Apply(s, m))
  {
    hide Overwrite;
    MoveKeepsToken(s, m);
  }

  lemma MoveKeepsInv(s: State, m: Move)
    requires Inv(s) && Enabled(s, m)
    ensures Inv(Apply(s, m))
  {
    hide MbsfnOk, NormalOk, OneToken, StagedIsInput;
    MoveKeepsToken(s, m);
    MoveKeepsInput(s, m);
    if s.mode == Mbsfn {
      MoveKeepsMbsfn(s, m);
    } else {
      MoveKeepsNormal(s, m);
    }
  }

  ghost predicate IsRun(run: seq<State>, moves: seq<Move>) {
    && |run| == |moves| + 1
    && Init(run[0])
    && forall i | 0 <= i < |moves| :: Enabled(run[i], moves[i]) && run[i + 1] == Apply(run[i], moves[i])
  }

  ghost predicate Reachable(s: State) {
    exists run, moves :: IsRun(run, moves) && run[|moves|] == s
  }

  lemma {:induction false} RunIsSafe(run: seq<State>, moves: seq<Move>)
    requires IsRun(run, moves)
    ensures Inv(run[|moves|])
    decreases |moves|
  {
    if moves != [] {
      var k := |moves| - 1;
      RunIsSafe(run[..k + 1], moves[..k]);
      MoveKeepsInv(run[k], moves[k]);
    }
  }

  lemma ReachableIsSafe(s: State)
    requires Reachable(s)
    ensures Inv(s)
  {
    var run, moves :| IsRun(run, moves) && run[|moves|] == s;
    RunIsSafe(run, moves);
  }

  /** Over every interleaving, in both modes: the four tokens sum to one, and staged minus
      released packets are one while the flag is up and none otherwise. */
  lemma TokensSumToOne(s: State)
    requires Reachable(s)
    ensures s.sem + One(s.feeder != Reading) + One(s.ready) + One(s.sender == Releasing) == 1
    ensures |s.staged| - s.released == if s.ready then 1 else 0
  {
    hide MbsfnOk, NormalOk;
    ReachableIsSafe(s);
  }

  /** While the feeder copies, nothing staged is left to release, so no packet is staged over
      one that was not consumed. */
  lemma NothingIsStagedOver(s: State, m: Move)
    requires Reachable(s) && Enabled(s, m) && (m.Copy? || m.Raise?)
    ensures !s.ready && |s.staged| == s.released && s.sem == 0
  {
    hide MbsfnOk, NormalOk;
    ReachableIsSafe(s);
  }

  /** In multicast mode every released packet was given to the encoder exactly once, in the
      order of staging, under the test pattern. */
  lemma ReleasedWasEncoded(s: State, i: nat)
    requires Reachable(s) && s.mode == Mbsfn && i < s.released
    ensures s.released <= |s.encoded| <= s.released + 1 && s.released <= |s.staged| && s.released <= |s.covers|
    ensures s.encoded[i] == Overwrite(s.staged[i], s.covers[i])
  {
    ReachableIsSafe(s);
  }

  /** From the socket to the encoder: the packets the multicast loop encodes are, in order, those
      cut from the bytes received, each under the test pattern. */
  lemma EncodedIsFed(s: State, rs: seq<Read>, i: nat)
    requires Reachable(s) && s.mode == Mbsfn && i < |s.encoded|
    requires forall k | 0 <= k < |rs| && rs[k].Data? :: rs[k].packet > 0
    requires s.input == Feed(rs).0
    ensures i < |Feed(rs).0| && i < |s.covers|
    ensures s.encoded[i] == Overwrite(Feed(rs).0[i], s.covers[i])
  {
    hide Overwrite, Feed;
    ReachableIsSafe(s);
    assert s.staged[i] == s.input[..s.next][i];
  }

  /** When the pattern is written for the transport block that the packet was cut for, the encoder
      sees no byte received exactly if the block is a whole number of bytes. */
  lemma PatternHidesPacket(tbs: nat)
    requires tbs > 0
    ensures (forall p, q | |p| == |q| == PacketBytes(tbs) :: Overwrite(p, tbs / 8) == Overwrite(q, tbs / 8)) <==> tbs % 8 == 0
  {
    var n, k := PacketBytes(tbs), tbs / 8;
    if tbs % 8 == 0 {
      assert n == k;
      forall p, q | |p| == |q| == n
        ensures Overwrite(p, k) == Overwrite(q, k)
      {
      }
    } else {
      assert n == k + 1;
      var p: seq<Byte>, q: seq<Byte> := seq(n, i => 0), seq(n, i => 1);
      assert Overwrite(p, k)[k] != Overwrite(q, k)[k];
    }
  }

  /** The pattern leaves a packet as it was exactly when the packet carried the pattern. */
  lemma PatternIsFaithful(p: seq<Byte>, k: nat)
    ensures Overwrite(p, k) == p <==> forall j | 0 <= j < k && j < |p| :: p[j] == j % 255
  {
    if Overwrite(p, k) == p {
      forall j | 0 <= j < k && j < |p|
        ensures p[j] == j % 255
      {
        assert Overwrite(p, k)[j] == j % 255;
      }
    }
  }

  /** Outside multicast, what the encoder had last been given when a packet was released was that
      packet if it was copied after the loop's last random filling and before its last encoding,
      and else the random filling. */
  lemma NormalReleaseExactly(s: State, i: nat)
    requires Reachable(s) && s.mode == Normal && i < s.released
    ensures |s.verdicts| == s.released <= |s.staged|
    ensures var v := s.verdicts[i];
            && (v.inTime ==> v.encoded == s.staged[i])
            && (!v.inTime ==> v.encoded == v.random)
            && (s.staged[i] != v.random ==> (v.encoded == s.staged[i] <==> v.inTime))
  {
    ReachableIsSafe(s);
  }

  lemma InitIsReachable(s: State)
    requires Init(s)
    ensures Reachable(s)
  {
    assert IsRun([s], []);
  }

  lemma MoveReaches(s: State, m: Move)
    requires Reachable(s) && Enabled(s, m)
    ensures Reachable(Apply(s, m))
  {
    var run, moves :| IsRun(run, moves) && run[|moves|] == s;
    assert IsRun(run + [Apply(s, m)], moves + [m]);
  }

  /** Both happen: a packet copied after the encoding is released unseen, one copied before it is
      not. */
  lemma BothVerdictsHappen(s: State, p: seq<Byte>, random: seq<Byte>) returns (dropped: State, sent: State)
    requires Init(s) && s.mode == Normal && s.input == [p] && p != random
    ensures Reachable(dropped) && dropped.staged == [p] && dropped.released == 1 && p !in dropped.encoded
    ensures Reachable(sent) && sent.staged == [p] && sent.released == 1 && sent.encoded == [p]
  {
    InitIsReachable(s);
    var filled := Apply(s, Fill(random, true));
    MoveReaches(s, Fill(random, true));
    var empty := Apply(filled, Encode);
    MoveReaches(filled, Encode);
    var late := Stage(empty, p);
    dropped := Apply(late, Check);
    MoveReaches(late, Check);
    assert dropped.encoded == [random];
    var early := Stage(filled, p);
    var coded := Apply(early, Encode);
    MoveReaches(early, Encode);
    sent := Apply(coded, Check);
    MoveReaches(coded, Check);
  }

  /** The feeder takes up, copies and stages its only packet. */
  lemma Stage(s: State, p: seq<Byte>) returns (t: State)
    requires Reachable(s) && s.feeder == Reading && s.sem > 0 && s.next == 0 && s.input == [p] && s.staged == []
    ensures Reachable(t) && t.ready && t.staged == [p] && t.buffer == p
    ensures t.encoded == s.encoded && t.sender == s.sender && t.mode == s.mode && t.released == s.released
  {
    hide Reachable;
    var one := Apply(s, Wait);
    MoveReaches(s, Wait);
    var two := Apply(one, Copy);
    MoveReaches(one, Copy);
    t := Apply(two, Raise);
    MoveReaches(two, Raise);
  }

  // ---------------------------------------------------------------- what can always go on

  function Try(s: State, m: Move): (t: Option<State>) { if Enabled(s, m) then Some(Apply(s, m)) else None }

  lemma AfterTwo(s: State, m: Move, n: Move)
    requires Enabled(s, m) && Enabled(Apply(s, m), n)
    ensures After(Try, s, [m, n]) == Some(Apply(Apply(s, m), n))
  {
    hide Enabled, Apply;
    assert [m, n] == [m] + [n];
    AfterFirst(Try, s, m, [n]);
    AfterOne(Try, Apply(s, m), n);
  }

  /** Having sent `what`, the loop has released the packet under way and freed the semaphore. */
  ghost predicate Sent(s: State, t: State, what: seq<Byte>) {
    && t.encoded == s.encoded + [what]
    && t.staged == s.staged && t.released == s.released + 1 == |s.staged|
    && t.sem == 1 && !t.ready && t.sender == Between && t.feeder == Reading
  }

  /** A loop about to encode while a packet is staged encodes what is in the buffer. */
  lemma SendsBuffer(s: State)
    requires OneToken(s) && s.ready && (s.sender == Patterned || s.sender == Filled)
    ensures var t := After(Try, s, [Encode, Check] + [Post]); t.Some? && Sent(s, t.value, s.buffer)
  {
    AfterTwo(s, Encode, Check);
    var u := Apply(Apply(s, Encode), Check);
    AfterOne(Try, u, Post);
    AfterBoth(Try, s, [Encode, Check], [Post]);
    hide InTime;
  }

  lemma MulticastBuffer(s: State)
    requires Reachable(s) && s.mode == Mbsfn && s.sender == Between
    ensures OneToken(s) && (s.ready ==> s.staged != [] && s.buffer == Last(s.staged))
  {
    hide Overwrite, InTime, Reachable;
    ReachableIsSafe(s);
  }

  /** At a subframe of the multicast channel the loop commits itself exactly if a packet is staged.
      It then encodes that packet, under the pattern, releases it, and frees the semaphore. */
  lemma MulticastSends(s: State, tbs: nat)
    requires Reachable(s) && s.mode == Mbsfn && s.sender == Between
    ensures Enabled(s, Look) && (Apply(s, Look).sender == Chosen <==> s.ready)
    ensures s.ready ==>
              && s.staged != []
              && var t := After(Try, s, [Look, Pattern(tbs)] + ([Encode, Check] + [Post]));
                 t.Some? && Sent(s, t.value, Overwrite(Last(s.staged), tbs / 8))
  {
    hide Reachable, Overwrite, InTime;
    MulticastBuffer(s);
    if s.ready {
      AfterTwo(s, Look, Pattern(tbs));
      var t := Apply(Apply(s, Look), Pattern(tbs));
      hide After;
      SendsBuffer(t);
      AfterBoth(Try, s, [Look, Pattern(tbs)], [Encode, Check] + [Post]);
    }
  }

  /** Outside multicast, a packet that was staged when the loop came to the subframe is filled over,
      released, and the semaphore freed, if the subframe is one the loop sends on; else it stays
      staged, filled over all the same. */
  lemma NormalSends(s: State, random: seq<Byte>)
    requires Reachable(s) && s.mode == Normal && s.sender == Between && s.ready
    ensures var t := After(Try, s, [Fill(random, true)] + ([Encode, Check] + [Post]));
            t.Some? && Sent(s, t.value, random)
    ensures var t := Apply(s, Fill(random, false));
            t.sender == Between && t.ready && t.buffer == random && t.encoded == s.encoded && t.released == s.released
  {
    hide Reachable, InTime, NormalOk, StagedIsInput;
    ReachableIsSafe(s);
    var t := Apply(s, Fill(random, true));
    SendsBuffer(t);
    AfterFirst(Try, s, Fill(random, true), [Encode, Check] + [Post]);
  }

  /** The move that brings the packets on: the feeder finishes what it copies, then the loop sends
      what is staged, then the feeder takes up the next. */
  function Onward(s: State): (m: Move) {
    if s.feeder.Copying? then Copy
    else if s.feeder.Copied? then Raise
    else if s.sender == Releasing then Post
    else if !s.ready then Wait
    else
      match s.sender
      case Between => if s.mode == Mbsfn then Look else Fill([], true)
      case Chosen => Pattern(0)
      case Encoded => Check
      case _ => Encode
  }

  /** How far the packet under way still has to go. */
  function ToGo(s: State): (n: nat) {
    if s.feeder.Copying? then 6
    else if s.feeder.Copied? then 5
    else if s.sender == Releasing then 8
    else if !s.ready then 7
    else
      match s.sender
      case Between => 4
      case Chosen => 3
      case Encoded => 1
      case _ => 2
  }

  lemma OnwardEnabled(s: State)
    requires Inv(s) && s.released < |s.input|
    ensures Enabled(s, Onward(s))
    ensures var t := Apply(s, Onward(s));
            t.input == s.input && (t.released == s.released + 1 || (t.released == s.released && ToGo(t) < ToGo(s)))
  {
    hide Overwrite, InTime;
    assert s.next == |s.input[..s.next]|;
  }

  /** The two threads never block each other for good: from every reachable state, in both modes,
      some moves lead to where every packet has been staged and released. */
  lemma {:induction false} EveryPacketCanLeave(s: State) returns (ms: seq<Move>)
    requires Inv(s)
    ensures After(Try, s, ms).Some?
    ensures var t := After(Try, s, ms).value; t.released == |t.staged| == |s.input| && t.staged == s.input
    decreases |s.input| - s.released, ToGo(s)
  {
    hide OneToken, StagedIsInput, MbsfnOk, NormalOk, Enabled, Apply, ToGo, Onward;
    ReleasedFew(s);
    if s.released == |s.input| {
      ms := [];
    } else {
      var m := Onward(s);
      OnwardEnabled(s);
      MoveKeepsInv(s, m);
      ReleasedFew(Apply(s, m));
      var rest := EveryPacketCanLeave(Apply(s, m));
      ms := [m] + rest;
      AfterFirst(Try, s, m, rest);
    }
  }

  lemma ReleasedFew(s: State)
    requires Inv(s)
    ensures s.released <= |s.staged| <= |s.input|
    ensures s.released == |s.input| ==> s.staged == s.input
  {
    hide MbsfnOk, NormalOk;
    assert s.next == |s.input[..s.next]|;
  }
}
