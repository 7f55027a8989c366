/** What the safety of single moves says about whole runs of the control plane. */
module ControlPlaneTheorems {
  import opened Bags
  import opened Containers
  import opened E2apTypes
  import opened RequestIds
  import opened NodeTables
  import opened ControlPlane
  import opened ControlPlaneSafety
  import R = NearRic
  import A = E2Agent

  ghost predicate Next(s: Sys, t: Sys) {
    exists m :: Enabled(s, m) && Apply(s, m) == Some(t)
  }

  ghost predicate IsRun(run: seq<Sys>) {
    && run != []
    && Init(run[0])
    && forall i | 0 <= i < |run| - 1 :: Next(run[i], run[i + 1])
  }

  ghost predicate Reachable(s: Sys) {
    exists run :: IsRun(run) && run[|run| - 1] == s
  }

  lemma InitIsSafe(s: Sys)
    requires Init(s)
    ensures Inv(s)
  {
    forall n | n in s.agents
      ensures AgentAgrees(s.dialogues, n, s.agents[n])
    {
      var a := s.agents[n];
      assert a.ind.right.Values == {} && a.ind.left.Keys == {};
    }
  }

  lemma {:induction false} RunIsSafe(run: seq<Sys>)
    requires IsRun(run)
    ensures Inv(run[|run| - 1])
    decreases |run|
  {
    hide Inv, Init, Enabled;
    if |run| == 1 {
      InitIsSafe(run[0]);
    } else {
      var first := run[..|run| - 1];
      RunIsSafe(first);
      assert Next(run[|run| - 2], run[|run| - 1]);
      var m :| Enabled(run[|run| - 2], m) && Apply(run[|run| - 2], m) == Some(run[|run| - 1]);
      MoveSafe(run[|run| - 2], m);
    }
  }

  lemma ReachableIsSafe(s: Sys)
    requires Reachable(s)
    ensures Inv(s)
  {
    var run :| IsRun(run) && run[|run| - 1] == s;
    RunIsSafe(run);
  }

  /** In no reachable state does an enabled move break an assertion of the source. */
  lemma NoAssertionBreaks(s: Sys, m: Move)
    requires Reachable(s) && Enabled(s, m)
    ensures Apply(s, m).Some?
  {
    hide Inv, Enabled, Apply;
    ReachableIsSafe(s);
    MoveSafe(s, m);
  }

  /** How often a request of kind `e.op` on `e.id`, or its answer, exists between the RIC's
      issuing threads, the network and node `n`. */
  function Tokens(s: Sys, n: NodeId, e: PendingEvent): nat {
    s.unsent[Packet(n, Request(e.op, e.id, 0))]
    + s.down[Packet(n, Request(e.op, e.id, 0))]
    + s.up[Packet(n, Answer(e.op, e.id, 0))]
  }

  ghost predicate InMotion(ds: map<nat, Dialogue>, n: NodeId, e: PendingEvent) {
    && e.id.reqId in ds
    && e.id == IdAt(e.id.reqId, ds[e.id.reqId])
    && ds[e.id.reqId].node == n
    && Waiting(ds[e.id.reqId].phase) && !Lost(ds[e.id.reqId].phase)
    && ds[e.id.reqId].phase.op == e.op
  }

  lemma TokensCount(s: Sys, n: NodeId, e: PendingEvent)
    requires Reachable(s)
    ensures Tokens(s, n, e) == One(InMotion(s.dialogues, n, e))
  {
    hide R.Sound, TimersAgree, AgentAgrees, IdsAgree, NodesKnown, Reachable;
    ReachableIsSafe(s);
    var req, ans := Packet(n, Request(e.op, e.id, 0)), Packet(n, Answer(e.op, e.id, 0));
    assert s.unsent[req] == One(ExpectsPacket(s.dialogues, AtSender, req));
    assert s.down[req] == One(ExpectsPacket(s.dialogues, Downlink, req));
    assert s.up[ans] == One(ExpectsPacket(s.dialogues, Uplink, ans));
  }

  /** Each unsent, in-flight or answered request exists once, at one node, and has its own
      entry in the RIC's timer table, so its answer finds the timer. */
  lemma EachTokenHasItsTimer(s: Sys, n: NodeId, e: PendingEvent)
    requires Reachable(s)
    ensures Tokens(s, n, e) <= 1
    ensures Tokens(s, n, e) == 1 ==>
              && e in s.ric.pending.right.Values
              && (forall pick :: Meets(s.ric.pending, e, pick) ==> R.StopPending(s.ric, e, pick).Some?)
              && forall k | k != n :: Tokens(s, k, e) == 0
  {
    hide AgentAgrees, BagAgrees, IdsAgree, NodesKnown, Reachable, Tokens, R.StopPending;
    ReachableIsSafe(s);
    TokensCount(s, n, e);
    if Tokens(s, n, e) == 1 {
      assert ExpectsTimer(s.dialogues, e);
      forall pick | Meets(s.ric.pending, e, pick)
        ensures R.StopPending(s.ric, e, pick).Some?
      {
        R.StopKeepsSound(s.ric, e, pick);
      }
      forall k | k != n
        ensures Tokens(s, k, e) == 0
      {
        TokensCount(s, k, e);
      }
    }
  }

  ghost predicate NothingLost(s: Sys) {
    forall r | r in s.dialogues :: !Lost(s.dialogues[r].phase)
  }

  /** While nothing has been lost, the timer table and the tokens correspond one to one. */
  lemma WithoutLossOneToOne(s: Sys, e: PendingEvent)
    requires Reachable(s) && NothingLost(s)
    ensures e in s.ric.pending.right.Values <==> exists n :: Tokens(s, n, e) == 1
  {
    hide AgentAgrees, BagAgrees, IdsAgree, NodesKnown, Reachable, R.Sound, Tokens;
    ReachableIsSafe(s);
    if e in s.ric.pending.right.Values {
      assert ExpectsTimer(s.dialogues, e);
      TokensCount(s, s.dialogues[e.id.reqId].node, e);
    }
    forall n | Tokens(s, n, e) == 1
      ensures e in s.ric.pending.right.Values
    {
      TokensCount(s, n, e);
      assert ExpectsTimer(s.dialogues, e);
    }
  }

  /** A delete on its way finds the subscription, and the timer, it ends. */
  lemma DeleteFindsSubscription(s: Sys, n: NodeId, id: RicId)
    requires Reachable(s) && n in s.agents
    requires Tokens(s, n, PendingEvent(Delete, id)) == 1
    ensures Packet(n, Answer(Delete, id, 0)) !in s.up ==>
              && id in s.agents[n].ind.right.Values
              && forall pick :: Meets(s.agents[n].ind, id, pick) ==> A.StopInd(s.agents[n], id, pick).Some?
  {
    hide TimersAgree, R.Sound, BagAgrees, IdsAgree, NodesKnown, Reachable, Tokens, A.Sound;
    ReachableIsSafe(s);
    TokensCount(s, n, PendingEvent(Delete, id));
    var ans := Packet(n, Answer(Delete, id, 0));
    AnswerInFlight(s, ans);
    if ans !in s.up {
      assert ExpectsService(s.dialogues, n, id);
      forall pick | Meets(s.agents[n].ind, id, pick)
        ensures A.StopInd(s.agents[n], id, pick).Some?
      {
        A.StopIndKeepsSound(s.agents[n], id, pick);
      }
    }
  }

  lemma AnswerInFlight(s: Sys, p: Packet)
    requires Inv(s) && p.msg.Answer?
    ensures p in s.up <==> ExpectsPacket(s.dialogues, Uplink, p)
  {
    hide R.Sound, TimersAgree, AgentAgrees, IdsAgree, NodesKnown;
    assert s.up[p] == One(ExpectsPacket(s.dialogues, Uplink, p));
  }

  /** The subscriptions whose answer the RIC has had and for which it has issued no delete. */
  ghost predicate ConfirmedAt(s: Sys, n: NodeId, id: RicId) {
    && id.reqId in s.dialogues
    && id == IdAt(id.reqId, s.dialogues[id.reqId])
    && s.dialogues[id.reqId].node == n
    && s.dialogues[id.reqId].phase.Active?
  }

  ghost predicate Quiet(s: Sys) {
    && NothingLost(s)
    && s.unsent == multiset{} && s.down == multiset{}
    && forall p | p in s.up :: p.msg.Indication?
  }

  /** With nothing lost and nothing in flight the RIC has no open timer, and every agent serves
      exactly the subscriptions the RIC has confirmed and not deleted. */
  lemma QuietMeansAgreement(s: Sys)
    requires Reachable(s) && Quiet(s)
    ensures s.ric.pending == BiMap(map[], map[]) && s.ric.fds == {s.ric.sock}
    ensures forall n, id | n in s.agents :: id in s.agents[n].ind.right.Values <==> ConfirmedAt(s, n, id)
  {
    hide AgentAgrees, BagAgrees, IdsAgree, NodesKnown, Reachable, Tokens;
    ReachableIsSafe(s);
    forall e
      ensures e !in s.ric.pending.right.Values
    {
      QuietHasNoTokens(s, e);
    }
    assert forall fd | fd in s.ric.pending.right :: s.ric.pending.right[fd] in s.ric.pending.right.Values;
    assert s.ric.pending.right == map[];
    assert s.ric.pending.left == map[];
    forall n, id | n in s.agents
      ensures id in s.agents[n].ind.right.Values <==> ConfirmedAt(s, n, id)
    {
      QuietServes(s, n, id);
    }
  }

  lemma QuietHasNoTokens(s: Sys, e: PendingEvent)
    requires Reachable(s) && Quiet(s)
    ensures e !in s.ric.pending.right.Values
  {
    hide Reachable;
    WithoutLossOneToOne(s, e);
  }

  lemma QuietServes(s: Sys, n: NodeId, id: RicId)
    requires Reachable(s) && Quiet(s) && n in s.agents
    ensures id in s.agents[n].ind.right.Values <==> ConfirmedAt(s, n, id)
  {
    hide BagAgrees, IdsAgree, NodesKnown, Reachable, R.Sound, TimersAgree, A.Sound, Tokens;
    ReachableIsSafe(s);
    assert id in s.agents[n].ind.right.Values <==> ExpectsService(s.dialogues, n, id);
    if ExpectsService(s.dialogues, n, id) && !s.dialogues[id.reqId].phase.Active? {
      var e := PendingEvent(s.dialogues[id.reqId].phase.op, id);
      TokensCount(s, n, e);
      QuietHasNoTokens(s, e);
      EachTokenHasItsTimer(s, n, e);
    }
  }

  /** Every indication that leaves an agent reports on a subscription accepted at that moment. */
  lemma ReportIsAccepted(s: Sys, n: NodeId, fd: Fd)
    requires Reachable(s) && Enabled(s, Report(n, fd))
    ensures var id := s.agents[n].ind.left[fd].id;
            && Apply(s, Report(n, fd)) == Some(s.(up := s.up + multiset{Packet(n, Indication(id, 0))}))
            && id.reqId in s.dialogues && id == IdAt(id.reqId, s.dialogues[id.reqId])
            && s.dialogues[id.reqId].node == n && Accepted(s.dialogues[id.reqId].phase)
  {
    hide Inv, Reachable;
    ReachableIsSafe(s);
    ReportSafe(s, n, fd);
  }

  lemma LostHasNoPacket(ds: map<nat, Dialogue>, place: Place, bag: multiset<Packet>, p: Packet, r: nat)
    requires BagAgrees(ds, place, bag) && p in bag && (place != Uplink || !p.msg.Indication?)
    requires r in ds && Lost(ds[r].phase)
    ensures HasId(p.msg) && p.msg.id.reqId != r
  {
    PacketHasDialogue(ds, place, bag, p);
  }

  /** The dialogue a move changes. */
  function Touched(s: Sys, m: Move): (r: Option<nat>) {
    match m
    case Issue(_, _, _, forwarded, _) => Some(NextId(s, forwarded))
    case IssueDelete(r, _) => Some(r)
    case Send(p) => if p.msg.Request? then Some(p.msg.id.reqId) else None
    case Deliver(p, _, _) => if p.msg.Request? then Some(p.msg.id.reqId) else None
    case LoseDown(p) => if p.msg.Request? then Some(p.msg.id.reqId) else None
    case Receive(p, _, _) => if p.msg.Answer? then Some(p.msg.id.reqId) else None
    case LoseUp(p) => if p.msg.Answer? then Some(p.msg.id.reqId) else None
    case Report(_, _) => None
    case RicTimeout(_) => None
    case RicShutdown(_, _) => None
  }

  lemma MoveToKeeps(ds: map<nat, Dialogue>, q: nat, ph: Phase, r: nat)
    requires r in ds && q != r
    ensures r in MoveTo(ds, q, ph) && MoveTo(ds, q, ph)[r] == ds[r]
  {
  }

  lemma DeliverKeeps(s: Sys, p: Packet, timer: Fd, pick: Fd, r: nat)
    requires p.node in s.agents && ApplyDeliver(s, p, timer, pick).Some?
    requires r in s.dialogues && (p.msg.Request? ==> p.msg.id.reqId != r)
    ensures var t := ApplyDeliver(s, p, timer, pick).value; r in t.dialogues && t.dialogues[r] == s.dialogues[r]
  {
    hide A.Step, Put;
  }

  lemma ReceiveKeeps(s: Sys, p: Packet, src: Addr, pick: Fd, r: nat)
    requires ApplyReceive(s, p, src, pick).Some?
    requires r in s.dialogues && (p.msg.Answer? ==> p.msg.id.reqId != r)
    ensures var t := ApplyReceive(s, p, src, pick).value; r in t.dialogues && t.dialogues[r] == s.dialogues[r]
  {
    hide R.Step, Put;
  }

  lemma OthersAreKept(s: Sys, m: Move, r: nat)
    requires Enabled(s, m) && Apply(s, m).Some?
    requires r in s.dialogues && Touched(s, m) != Some(r)
    ensures r in Apply(s, m).value.dialogues && Apply(s, m).value.dialogues[r] == s.dialogues[r]
  {
    hide R.Step, A.Step, R.Arm, Put, AddressOf, WindowOpen, R.PickOk, A.Feasible, Held, MoveTo, ApplyDeliver, ApplyReceive;
    match m
    case Issue(_, _, _, _, _) =>
    case IssueDelete(q, _) => MoveToKeeps(s.dialogues, q, Unsent(Delete), r);
    case Send(p) =>
      if p.msg.Request? {
        MoveToKeeps(s.dialogues, p.msg.id.reqId, Requested(p.msg.op), r);
      }
    case Deliver(p, timer, pick) => DeliverKeeps(s, p, timer, pick, r);
    case Report(_, _) =>
    case Receive(p, src, pick) => ReceiveKeeps(s, p, src, pick, r);
    case RicTimeout(_) =>
    case RicShutdown(_, _) =>
    case LoseDown(p) =>
      if p.msg.Request? {
        MoveToKeeps(s.dialogues, p.msg.id.reqId, RequestLost(p.msg.op), r);
      }
    case LoseUp(p) =>
      if p.msg.Answer? {
        MoveToKeeps(s.dialogues, p.msg.id.reqId, AnswerLost(p.msg.op), r);
      }
  }

  lemma LostIsUntouched(s: Sys, m: Move, r: nat)
    requires Inv(s) && Enabled(s, m)
    requires r in s.dialogues && Lost(s.dialogues[r].phase)
    ensures Touched(s, m) != Some(r)
  {
    hide R.Sound, TimersAgree, AgentAgrees, BagAgrees, NodesKnown, PacketIn;
    match m
    case Issue(_, _, _, forwarded, _) => NextIdIsFresh(s, forwarded);
    case IssueDelete(_, _) =>
    case Send(p) => LostHasNoPacket(s.dialogues, AtSender, s.unsent, p, r);
    case Deliver(p, _, _) => LostHasNoPacket(s.dialogues, Downlink, s.down, p, r);
    case Report(_, _) =>
    case Receive(p, _, _) =>
      if !p.msg.Indication? {
        LostHasNoPacket(s.dialogues, Uplink, s.up, p, r);
      }
    case RicTimeout(_) =>
    case RicShutdown(_, _) =>
    case LoseDown(p) => LostHasNoPacket(s.dialogues, Downlink, s.down, p, r);
    case LoseUp(p) =>
      if !p.msg.Indication? {
        LostHasNoPacket(s.dialogues, Uplink, s.up, p, r);
      }
  }

  /** No move touches a dialogue whose request or answer was lost ... */
  lemma LostForGood(s: Sys, m: Move, r: nat)
    requires Inv(s) && Enabled(s, m) && Apply(s, m).Some?
    requires r in s.dialogues && Lost(s.dialogues[r].phase)
    ensures r in Apply(s, m).value.dialogues && Apply(s, m).value.dialogues[r] == s.dialogues[r]
  {
    hide Inv, Enabled, Apply, Lost, Touched;
    LostIsUntouched(s, m, r);
    OthersAreKept(s, m, r);
  }

  lemma {:induction false} LostStaysLost(run: seq<Sys>, i: nat, r: nat)
    requires IsRun(run) && i < |run|
    requires r in run[i].dialogues && Lost(run[i].dialogues[r].phase)
    ensures r in run[|run| - 1].dialogues && run[|run| - 1].dialogues[r] == run[i].dialogues[r]
    decreases |run|
  {
    hide Inv, Init, Enabled, Apply;
    if i < |run| - 1 {
      var first := run[..|run| - 1];
      assert first[i] == run[i];
      LostStaysLost(first, i, r);
      RunIsSafe(first);
      assert Next(run[|run| - 2], run[|run| - 1]);
      var m :| Enabled(run[|run| - 2], m) && Apply(run[|run| - 2], m) == Some(run[|run| - 1]);
      LostForGood(run[|run| - 2], m, r);
    }
  }

  /** ... so the timer the RIC opened for it is in the table, and its descriptor open, for the
      rest of every run: the timeout branch of the event loop never removes it. */
  lemma LostTimerNeverCloses(run: seq<Sys>, i: nat, r: nat)
    requires IsRun(run) && i < |run|
    requires r in run[i].dialogues && Lost(run[i].dialogues[r].phase)
    ensures var d := run[i].dialogues[r];
            var ric := run[|run| - 1].ric;
            exists fd :: fd in ric.fds && fd in ric.pending.right
                         && ric.pending.right[fd] == PendingEvent(d.phase.op, IdAt(r, d))
  {
    hide AgentAgrees, BagAgrees, IdsAgree, NodesKnown, Init, Enabled, Next;
    LostStaysLost(run, i, r);
    RunIsSafe(run);
    var d := run[i].dialogues[r];
    var ric := run[|run| - 1].ric;
    assert ExpectsTimer(run[|run| - 1].dialogues, PendingEvent(d.phase.op, IdAt(r, d)));
    assert PendingEvent(d.phase.op, IdAt(r, d)) in ric.pending.right.Values;
    var fd :| fd in ric.pending.right && ric.pending.right[fd] == PendingEvent(d.phase.op, IdAt(r, d));
  }

  /** The bound on RIC timeouts is needed: with two requests outstanding, which two calls in a
      row reach from any start, the first timer to fire breaks an assertion of the RIC. */
  lemma TwoOutstandingTimersAbort(s: Sys, n: NodeId, f1: Fd, f2: Fd)
    requires Init(s) && n in s.agents && AddressOf(s.ric.tables, n).Some? && f1 !in s.ric.fds && f2 !in s.ric.fds && f1 != f2
    ensures exists t :: Reachable(t) && f1 in t.ric.pending.left && R.Step(t.ric, R.TimerReady(f1)).None?
  {
    hide Inv, R.Sound, NodesKnown, A.Sound, R.Step;
    InitIsSafe(s);
    var s1 := IssueOpensTimer(s, n, f1);
    var s2 := IssueOpensTimer(s1, n, f2);
    var run := [s, s1, s2];
    assert IsRun(run) && run[|run| - 1] == s2;
    assert s2.ric.pending.left.Keys == {f1, f2};
    assert R.Sound(s2.ric) by {
      InvGivesValid(s2);
    }
    TwoTimersAbort(s2.ric, f1, f2);
  }

  lemma InvGivesValid(s: Sys)
    requires Inv(s)
    ensures R.Sound(s.ric)
  {
  }

  lemma IssueOpensTimer(s: Sys, n: NodeId, fd: Fd) returns (t: Sys)
    requires Inv(s) && s.allocs < 100 && n in s.agents && AddressOf(s.ric.tables, n).Some? && fd !in s.ric.fds
    ensures Inv(t) && Next(s, t) && t.allocs == s.allocs + 1 && t.agents == s.agents && t.ric.tables == s.ric.tables
    ensures t.ric.fds == s.ric.fds + {fd} && t.ric.sock == s.ric.sock
    ensures t.ric.pending.left.Keys == s.ric.pending.left.Keys + {fd}
  {
    hide R.Sound, TimersAgree, AgentAgrees, BagAgrees, NodesKnown;
    var m := Issue(n, Control, 142, true, fd);
    MoveSafe(s, m);
    t := Apply(s, m).value;
  }

  lemma TwoTimersAbort(ric: R.RicState, f1: Fd, f2: Fd)
    requires R.Sound(ric) && ric.pending.left.Keys == {f1, f2} && f1 != f2
    ensures f1 in ric.pending.left && R.Step(ric, R.TimerReady(f1)).None?
  {
    assert |ric.pending.left| == |ric.pending.left.Keys| == 2;
    R.TimeoutSurvives(ric, f1);
  }

  /** What a closed association does to requests that have not left: the next step of exactly
      those that go to its node breaks the lookup of the address. */
  lemma ShutdownStrands(s: Sys, src: Addr, node: NodeId, p: Packet)
    requires Reachable(s) && p in s.unsent
    requires Held(s.ric.tables, src) && R.PickOk(s.ric, R.Shutdown(src, node))
    ensures ApplyRicShutdown(s, src, node).Some?
    ensures ApplySend(ApplyRicShutdown(s, src, node).value, p).None? <==> p.node == node
  {
    hide TimersAgree, AgentAgrees, BagAgrees, IdsAgree, Reachable, R.Sound, R.Step, R.PickOk, Held, AddressOf;
    ReachableIsSafe(s);
    RicForgetsNode(s.ric, src, node);
    PacketHasDialogue(s.dialogues, AtSender, s.unsent, p);
    NodeIsKnown(s, p.msg.id.reqId);
  }
}
