/** No interleaving of the control plane breaks an assertion of the source. */
module ControlPlaneSafety {
  import opened Bags
  import opened Containers
  import opened E2apTypes
  import opened RequestIds
  import opened NodeTables
  import opened ControlPlane
  import R = NearRic
  import A = E2Agent

  // -------------------------------------- what one dialogue's change does to each table

  /** Rebagging, for the keys of a table. */
  function Rekey<T>(keys: set<T>, was: Option<T>, will: Option<T>): set<T> {
    if was == will then keys
    else
      var rest := if was.Some? then keys - {was.value} else keys;
      if will.Some? then rest + {will.value} else rest
  }

  function Before(ds: map<nat, Dialogue>, place: Place, r: nat): Option<Packet> {
    if r in ds then PacketIn(place, r, ds[r]) else None
  }

  lemma PacketNamesDialogue(place: Place, r: nat, d: Dialogue)
    ensures PacketIn(place, r, d).Some? ==>
              HasId(PacketIn(place, r, d).value.msg) && PacketIn(place, r, d).value.msg.id.reqId == r
  {
  }

  lemma BagMoves(ds: map<nat, Dialogue>, place: Place, bag: multiset<Packet>, r: nat, d: Dialogue)
    requires BagAgrees(ds, place, bag)
    ensures BagAgrees(ds[r := d], place, Rebag(bag, Before(ds, place, r), PacketIn(place, r, d)))
  {
    PacketNamesDialogue(place, r, d);
    if r in ds {
      PacketNamesDialogue(place, r, ds[r]);
    }
    var es := ds[r := d];
    var prev, next := Before(ds, place, r), PacketIn(place, r, d);
    forall p: Packet | place != Uplink || !p.msg.Indication?
      ensures Rebag(bag, prev, next)[p] == One(ExpectsPacket(es, place, p))
    {
      assert bag[p] == One(ExpectsPacket(ds, place, p));
      if HasId(p.msg) && p.msg.id.reqId == r {
        assert ExpectsPacket(es, place, p) <==> next == Some(p);
        assert ExpectsPacket(ds, place, p) <==> prev == Some(p);
      } else {
        assert ExpectsPacket(es, place, p) <==> ExpectsPacket(ds, place, p);
      }
    }
  }

  lemma TimersMove(ds: map<nat, Dialogue>, timers: set<PendingEvent>, r: nat, d: Dialogue)
    requires TimersAgree(ds, timers)
    ensures TimersAgree(ds[r := d], Rekey(timers, TimerBefore(ds, r), TimerOf(r, d)))
  {
  }

  lemma ServicesMove(ds: map<nat, Dialogue>, n: NodeId, served: set<RicId>, r: nat, d: Dialogue)
    requires ServicesAgree(ds, n, served)
    ensures ServicesAgree(ds[r := d], n, Rekey(served, ServiceBefore(ds, n, r), ServiceOf(n, r, d)))
  {
  }

  function TimerBefore(ds: map<nat, Dialogue>, r: nat): Option<PendingEvent> {
    if r in ds then TimerOf(r, ds[r]) else None
  }

  function ServiceBefore(ds: map<nat, Dialogue>, n: NodeId, r: nat): Option<RicId> {
    if r in ds then ServiceOf(n, r, ds[r]) else None
  }

  ghost predicate BagFollows(ds: map<nat, Dialogue>, place: Place, r: nat, d: Dialogue,
                             bag: multiset<Packet>, after: multiset<Packet>) {
    after == Rebag(bag, Before(ds, place, r), PacketIn(place, r, d))
  }

  ghost predicate RicFollows(ds: map<nat, Dialogue>, r: nat, d: Dialogue, ric: R.RicState, after: R.RicState) {
    && R.Sound(after)
    && after.tables == ric.tables
    && after.pending.right.Values == Rekey(ric.pending.right.Values, TimerBefore(ds, r), TimerOf(r, d))
  }

  ghost predicate AgentFollows(ds: map<nat, Dialogue>, n: NodeId, r: nat, d: Dialogue,
                               a: A.AgentState, after: A.AgentState) {
    && A.Sound(after)
    && after.ind.right.Values == Rekey(a.ind.right.Values, ServiceBefore(ds, n, r), ServiceOf(n, r, d))
    && (forall fd | fd in after.ind.left :: after.ind.left[fd].action == 0)
  }

  /** Every table of `t` differs from `s` by what dialogue `r` contributes. */
  ghost predicate Follows(s: Sys, t: Sys, r: nat, d: Dialogue) {
    && t.dialogues == s.dialogues[r := d]
    && RicFollows(s.dialogues, r, d, s.ric, t.ric)
    && t.agents.Keys == s.agents.Keys
    && (forall n | n in s.agents :: AgentFollows(s.dialogues, n, r, d, s.agents[n], t.agents[n]))
    && BagFollows(s.dialogues, AtSender, r, d, s.unsent, t.unsent)
    && BagFollows(s.dialogues, Downlink, r, d, s.down, t.down)
    && BagFollows(s.dialogues, Uplink, r, d, s.up, t.up)
    && IdsAgree(t)
  }

  /** A move that follows one dialogue keeps the invariant. */
  lemma FollowingIsSafe(s: Sys, t: Sys, r: nat, d: Dialogue)
    requires Inv(s) && Follows(s, t, r, d)
    requires d.phase.Unsent? ==> AddressOf(s.ric.tables, d.node).Some?
    ensures Inv(t)
  {
    TimersMove(s.dialogues, s.ric.pending.right.Values, r, d);
    BagMoves(s.dialogues, AtSender, s.unsent, r, d);
    BagMoves(s.dialogues, Downlink, s.down, r, d);
    BagMoves(s.dialogues, Uplink, s.up, r, d);
    forall n | n in t.agents
      ensures AgentAgrees(t.dialogues, n, t.agents[n])
    {
      ServicesMove(s.dialogues, n, s.agents[n].ind.right.Values, r, d);
    }
  }

  /** An agent whose service of the dialogue does not change follows it by standing still. */
  lemma StillFollows(ds: map<nat, Dialogue>, n: NodeId, r: nat, d: Dialogue, a: A.AgentState)
    requires AgentAgrees(ds, n, a)
    requires ServiceBefore(ds, n, r) == ServiceOf(n, r, d)
    ensures AgentFollows(ds, n, r, d, a, a)
  {
  }

  lemma RicStillFollows(ds: map<nat, Dialogue>, r: nat, d: Dialogue, ric: R.RicState)
    requires R.Sound(ric) && TimersAgree(ds, ric.pending.right.Values)
    requires TimerBefore(ds, r) == TimerOf(r, d)
    ensures RicFollows(ds, r, d, ric, ric)
  {
  }

  lemma BagStillFollows(ds: map<nat, Dialogue>, place: Place, r: nat, d: Dialogue, bag: multiset<Packet>)
    requires Before(ds, place, r) == None == PacketIn(place, r, d)
    ensures BagFollows(ds, place, r, d, bag, bag)
  {
  }

  /** Changing the phase alone keeps the ids in order. */
  lemma PhaseKeepsIds(s: Sys, t: Sys, r: nat, ph: Phase)
    requires IdsAgree(s) && r in s.dialogues
    requires t.dialogues == s.dialogues[r := s.dialogues[r].(phase := ph)]
    requires t.ric.counter == s.ric.counter && t.allocs == s.allocs && t.agents.Keys == s.agents.Keys
    ensures IdsAgree(t)
  {
  }

  // ------------------------------------------------------------------ the moves, one by one

  /** A packet in a place is the one its dialogue has there. */
  lemma PacketHasDialogue(ds: map<nat, Dialogue>, place: Place, bag: multiset<Packet>, p: Packet)
    requires BagAgrees(ds, place, bag) && p in bag && (place != Uplink || !p.msg.Indication?)
    ensures HasId(p.msg) && p.msg.id.reqId in ds
    ensures PacketIn(place, p.msg.id.reqId, ds[p.msg.id.reqId]) == Some(p)
  {
    assert bag[p] > 0;
  }

  /** A change that only the network notices: one dialogue passes from a place to the next, or
      out of the network. */
  ghost predicate Passes(s: Sys, t: Sys, r: nat, ph: Phase) {
    && r in s.dialogues
    && Waiting(s.dialogues[r].phase) && Waiting(ph) && !ph.Unsent? && ph.op == s.dialogues[r].phase.op
    && Accepted(ph) == Accepted(s.dialogues[r].phase)
    && t == s.(unsent := t.unsent, down := t.down, up := t.up, dialogues := MoveTo(s.dialogues, r, ph))
    && var d := s.dialogues[r].(phase := ph);
    && BagFollows(s.dialogues, AtSender, r, d, s.unsent, t.unsent)
    && BagFollows(s.dialogues, Downlink, r, d, s.down, t.down)
    && BagFollows(s.dialogues, Uplink, r, d, s.up, t.up)
  }

  lemma PassingIsSafe(s: Sys, t: Sys, r: nat, ph: Phase)
    requires Inv(s) && Passes(s, t, r, ph)
    ensures Inv(t)
  {
    hide R.Sound, A.Sound, TimersAgree, BagAgrees, BagFollows, RicFollows, AgentAgrees, AgentFollows, AddressOf;
    var d := s.dialogues[r].(phase := ph);
    RicStillFollows(s.dialogues, r, d, s.ric);
    forall n | n in s.agents
      ensures AgentFollows(s.dialogues, n, r, d, s.agents[n], t.agents[n])
    {
      StillFollows(s.dialogues, n, r, d, s.agents[n]);
    }
    PhaseKeepsIds(s, t, r, ph);
    FollowingIsSafe(s, t, r, d);
  }

  lemma NodeIsKnown(s: Sys, r: nat)
    requires NodesKnown(s) && r in s.dialogues && s.dialogues[r].phase.Unsent?
    ensures AddressOf(s.ric.tables, s.dialogues[r].node).Some?
  {
  }

  lemma SendPasses(s: Sys, p: Packet, r: nat)
    requires r in s.dialogues && PacketIn(AtSender, r, s.dialogues[r]) == Some(p)
    requires AddressOf(s.ric.tables, p.node).Some?
    ensures ApplySend(s, p).Some? && Passes(s, ApplySend(s, p).value, r, Requested(p.msg.op))
  {
  }

  lemma SendSafe(s: Sys, p: Packet)
    requires Inv(s) && p in s.unsent
    ensures ApplySend(s, p).Some? && Inv(ApplySend(s, p).value)
  {
    hide R.Sound, TimersAgree, AgentAgrees, Passes, BagAgrees;
    PacketHasDialogue(s.dialogues, AtSender, s.unsent, p);
    NodeIsKnown(s, p.msg.id.reqId);
    SendPasses(s, p, p.msg.id.reqId);
    PassingIsSafe(s, ApplySend(s, p).value, p.msg.id.reqId, Requested(p.msg.op));
  }

  lemma LoseDownPasses(s: Sys, p: Packet, r: nat)
    requires r in s.dialogues && PacketIn(Downlink, r, s.dialogues[r]) == Some(p)
    ensures Passes(s, ApplyLoseDown(s, p), r, RequestLost(p.msg.op))
  {
  }

  lemma LoseDownSafe(s: Sys, p: Packet)
    requires Inv(s) && p in s.down
    ensures Inv(ApplyLoseDown(s, p))
  {
    PacketHasDialogue(s.dialogues, Downlink, s.down, p);
    LoseDownPasses(s, p, p.msg.id.reqId);
    PassingIsSafe(s, ApplyLoseDown(s, p), p.msg.id.reqId, RequestLost(p.msg.op));
  }

  lemma LoseUpPasses(s: Sys, p: Packet, r: nat)
    requires r in s.dialogues && PacketIn(Uplink, r, s.dialogues[r]) == Some(p)
    ensures Passes(s, ApplyLoseUp(s, p), r, AnswerLost(p.msg.op))
  {
  }

  lemma LoseUpSafe(s: Sys, p: Packet)
    requires Inv(s) && p in s.up
    ensures Inv(ApplyLoseUp(s, p))
  {
    hide R.Sound, TimersAgree, AgentAgrees, Passes, BagAgrees;
    if p.msg.Indication? {
      IndicationsPass(s.dialogues, s.up, p);
    } else {
      PacketHasDialogue(s.dialogues, Uplink, s.up, p);
      LoseUpPasses(s, p, p.msg.id.reqId);
      PassingIsSafe(s, ApplyLoseUp(s, p), p.msg.id.reqId, AnswerLost(p.msg.op));
    }
  }

  lemma PostOne(bag: multiset<Packet>, n: NodeId, m: Message)
    ensures Put(bag, Packed(n, [m])) == bag + multiset{Packet(n, m)}
    ensures Put(bag, Packed(n, [])) == bag
  {
    assert Packed(n, [m]) == [Packet(n, m)] && Packed(n, []) == [];
    PutOne(bag, Packet(n, m));
  }

  lemma AgentSubscribes(ds: map<nat, Dialogue>, n: NodeId, r: nat, a: A.AgentState, timer: Fd)
    requires AgentAgrees(ds, n, a) && timer !in a.fds
    requires r in ds && ds[r].node == n && ds[r].phase == Requested(Subscribe)
    ensures AgentFollows(ds, n, r, ds[r].(phase := Answered(Subscribe)), a,
                         A.Subscribed(a, IndEvent(IdAt(r, ds[r]), 0), timer))
  {
    hide A.Sound;
    assert !ExpectsService(ds, n, IdAt(r, ds[r]));
    A.SubscribedKeepsSound(a, IndEvent(IdAt(r, ds[r]), 0), timer);
  }

  lemma AgentUnsubscribes(ds: map<nat, Dialogue>, n: NodeId, r: nat, a: A.AgentState, pick: Fd)
    requires AgentAgrees(ds, n, a)
    requires r in ds && ds[r].node == n && ds[r].phase == Requested(Delete)
    requires Meets(a.ind, IdAt(r, ds[r]), pick)
    ensures var res := A.StopInd(a, IdAt(r, ds[r]), pick);
            res.Some? && AgentFollows(ds, n, r, ds[r].(phase := Answered(Delete)), a, res.value)
  {
    hide A.Sound, Meets;
    assert ExpectsService(ds, n, IdAt(r, ds[r]));
    A.StopIndKeepsSound(a, IdAt(r, ds[r]), pick);
  }

  /** The dialogue's request is welcome at its agent, whose answer is the dialogue's answer. */
  lemma AgentTakesRequest(ds: map<nat, Dialogue>, n: NodeId, r: nat, op: Op, a: A.AgentState, timer: Fd, pick: Fd)
    requires AgentAgrees(ds, n, a)
    requires r in ds && ds[r].node == n && ds[r].phase == Requested(op)
    requires A.Feasible(a, A.Payload(Request(op, IdAt(r, ds[r]), 0), timer, pick))
    ensures var id, d := IdAt(r, ds[r]), ds[r].(phase := Answered(op));
            var res := A.Step(a, A.Payload(Request(op, id, 0), timer, pick));
            && res.Some?
            && res.value.1 == [Answer(op, id, 0)]
            && AgentFollows(ds, n, r, d, a, res.value.0)
  {
    hide AgentAgrees, AgentFollows, A.Sound, Meets;
    A.PayloadIsHandled(a, Request(op, IdAt(r, ds[r]), 0), timer, pick);
    match op
    case Subscribe => AgentSubscribes(ds, n, r, a, timer);
    case Delete => AgentUnsubscribes(ds, n, r, a, pick);
    case Control => StillFollows(ds, n, r, ds[r].(phase := Answered(op)), a);
  }

  ghost predicate DeliverShape(s: Sys, t: Sys, p: Packet, r: nat) {
    && r in s.dialogues && p.node in s.agents && p.msg.Request?
    && t.dialogues == MoveTo(s.dialogues, r, Answered(p.msg.op))
    && t.ric == s.ric && t.allocs == s.allocs
    && t.agents.Keys == s.agents.Keys
    && (forall n | n in s.agents && n != p.node :: t.agents[n] == s.agents[n])
    && var d := s.dialogues[r].(phase := Answered(p.msg.op));
    && BagFollows(s.dialogues, AtSender, r, d, s.unsent, t.unsent)
    && BagFollows(s.dialogues, Downlink, r, d, s.down, t.down)
    && BagFollows(s.dialogues, Uplink, r, d, s.up, t.up)
    && AgentFollows(s.dialogues, p.node, r, d, s.agents[p.node], t.agents[p.node])
  }

  lemma DeliverHasShape(s: Sys, p: Packet, timer: Fd, pick: Fd, r: nat)
    requires p.node in s.agents && A.Feasible(s.agents[p.node], A.Payload(p.msg, timer, pick))
    requires AgentAgrees(s.dialogues, p.node, s.agents[p.node])
    requires r in s.dialogues && PacketIn(Downlink, r, s.dialogues[r]) == Some(p)
    ensures ApplyDeliver(s, p, timer, pick).Some? && DeliverShape(s, ApplyDeliver(s, p, timer, pick).value, p, r)
  {
    hide AgentAgrees, AgentFollows, BagFollows, A.Step, A.Feasible;
    AgentTakesRequest(s.dialogues, p.node, r, p.msg.op, s.agents[p.node], timer, pick);
    PostOne(s.up, p.node, Answer(p.msg.op, p.msg.id, 0));
    RequestLeavesBags(s.dialogues, r, p, s.unsent, s.down, s.up);
  }

  /** A request taken by its agent gives way to its answer. */
  lemma RequestLeavesBags(ds: map<nat, Dialogue>, r: nat, p: Packet,
                          unsent: multiset<Packet>, down: multiset<Packet>, up: multiset<Packet>)
    requires r in ds && PacketIn(Downlink, r, ds[r]) == Some(p)
    ensures p.msg.Request? && p == Packet(p.node, Request(p.msg.op, p.msg.id, 0))
    ensures p.msg.id == IdAt(r, ds[r]) && ds[r].node == p.node && ds[r].phase == Requested(p.msg.op)
    ensures var d := ds[r].(phase := Answered(p.msg.op));
            && BagFollows(ds, AtSender, r, d, unsent, unsent)
            && BagFollows(ds, Downlink, r, d, down, down - multiset{p})
            && BagFollows(ds, Uplink, r, d, up, up + multiset{Packet(p.node, Answer(p.msg.op, p.msg.id, 0))})
  {
  }

  lemma DeliverShapeIsSafe(s: Sys, t: Sys, p: Packet, r: nat)
    requires Inv(s) && DeliverShape(s, t, p, r)
    requires s.dialogues[r].phase == Requested(p.msg.op) && s.dialogues[r].node == p.node
    ensures Inv(t)
  {
    var d := s.dialogues[r].(phase := Answered(p.msg.op));
    RicStillFollows(s.dialogues, r, d, s.ric);
    forall n | n in s.agents
      ensures AgentFollows(s.dialogues, n, r, d, s.agents[n], t.agents[n])
    {
      if n != p.node {
        StillFollows(s.dialogues, n, r, d, s.agents[n]);
      }
    }
    PhaseKeepsIds(s, t, r, Answered(p.msg.op));
    FollowingIsSafe(s, t, r, d);
  }

  lemma DeliverSafe(s: Sys, p: Packet, timer: Fd, pick: Fd)
    requires Inv(s) && Enabled(s, Deliver(p, timer, pick))
    ensures ApplyDeliver(s, p, timer, pick).Some? && Inv(ApplyDeliver(s, p, timer, pick).value)
  {
    hide R.Sound, TimersAgree, DeliverShape, AgentAgrees, BagAgrees, A.Feasible;
    PacketHasDialogue(s.dialogues, Downlink, s.down, p);
    DeliverHasShape(s, p, timer, pick, p.msg.id.reqId);
    DeliverShapeIsSafe(s, ApplyDeliver(s, p, timer, pick).value, p, p.msg.id.reqId);
  }

  /** A fired subscription timer reports on a subscription that is accepted at that moment. */
  lemma AgentReports(ds: map<nat, Dialogue>, n: NodeId, a: A.AgentState, fd: Fd)
    requires AgentAgrees(ds, n, a) && fd in a.ind.left
    ensures ExpectsService(ds, n, a.ind.left[fd].id)
    ensures A.Step(a, A.TimerReady(fd)) == Some((a, [Indication(a.ind.left[fd].id, 0)]))
  {
    A.DispatchIsTotal(a, fd);
    assert a.ind.right[fd] == a.ind.left[fd].id;
  }

  lemma IndicationsPass(ds: map<nat, Dialogue>, bag: multiset<Packet>, p: Packet)
    requires BagAgrees(ds, Uplink, bag) && p.msg.Indication?
    ensures BagAgrees(ds, Uplink, bag + multiset{p}) && BagAgrees(ds, Uplink, bag - multiset{p})
  {
  }

  lemma ReportSafe(s: Sys, n: NodeId, fd: Fd)
    requires Inv(s) && Enabled(s, Report(n, fd))
    ensures ApplyReport(s, n, fd) == Some(s.(up := s.up + multiset{Packet(n, Indication(s.agents[n].ind.left[fd].id, 0))}))
    ensures ExpectsService(s.dialogues, n, s.agents[n].ind.left[fd].id)
    ensures Inv(ApplyReport(s, n, fd).value)
  {
    hide AgentAgrees, TimersAgree, R.Sound, BagAgrees;
    var p := Packet(n, Indication(s.agents[n].ind.left[fd].id, 0));
    AgentReports(s.dialogues, n, s.agents[n], fd);
    PostOne(s.up, n, p.msg);
    assert s.agents[n := s.agents[n]] == s.agents;
    IndicationsPass(s.dialogues, s.up, p);
  }

  ghost predicate ReceiveShape(s: Sys, t: Sys, p: Packet, r: nat) {
    && r in s.dialogues && p.msg.Answer?
    && t.dialogues == MoveTo(s.dialogues, r, PhaseAfterAnswer(p.msg.op))
    && t.agents == s.agents && t.allocs == s.allocs && t.ric.counter == s.ric.counter
    && var d := s.dialogues[r].(phase := PhaseAfterAnswer(p.msg.op));
    && BagFollows(s.dialogues, AtSender, r, d, s.unsent, t.unsent)
    && BagFollows(s.dialogues, Downlink, r, d, s.down, t.down)
    && BagFollows(s.dialogues, Uplink, r, d, s.up, t.up)
    && RicFollows(s.dialogues, r, d, s.ric, t.ric)
  }

  /** The answer of a dialogue finds its timer in the RIC's table. */
  lemma RicTakesAnswer(ds: map<nat, Dialogue>, r: nat, op: Op, ric: R.RicState, src: Addr, pick: Fd)
    requires R.Sound(ric) && TimersAgree(ds, ric.pending.right.Values)
    requires r in ds && ds[r].phase == Answered(op)
    requires Meets(ric.pending, PendingEvent(op, IdAt(r, ds[r])), pick)
    ensures var id, d := IdAt(r, ds[r]), ds[r].(phase := PhaseAfterAnswer(op));
            var res := R.Step(ric, R.Payload(src, Answer(op, id, 0), pick));
            && PendingEvent(op, id) in ric.pending.right.Values
            && res.Some? && res.value.1 == []
            && RicFollows(ds, r, d, ric, res.value.0)
            && res.value.0.counter == ric.counter
  {
    var ev := PendingEvent(op, IdAt(r, ds[r]));
    assert ExpectsTimer(ds, ev);
    hide R.Sound, Meets;
    R.StopKeepsSound(ric, ev, pick);
    R.PayloadIsHandled(ric, src, Answer(op, ev.id, 0), pick);
  }

  lemma ReceiveHasShape(s: Sys, p: Packet, src: Addr, pick: Fd, r: nat)
    requires R.Sound(s.ric) && TimersAgree(s.dialogues, s.ric.pending.right.Values)
    requires r in s.dialogues && PacketIn(Uplink, r, s.dialogues[r]) == Some(p)
    requires R.PickOk(s.ric, R.Payload(src, p.msg, pick))
    ensures ApplyReceive(s, p, src, pick).Some? && ReceiveShape(s, ApplyReceive(s, p, src, pick).value, p, r)
  {
    hide R.Sound, TimersAgree, RicFollows, BagFollows, R.Step, Meets;
    RicTakesAnswer(s.dialogues, r, p.msg.op, s.ric, src, pick);
    PostOne(s.down, p.node, p.msg);
    AnswerLeavesBags(s.dialogues, r, p, s.unsent, s.down, s.up);
  }

  /** The end of a dialogue takes its answer out of the uplink, and nothing else moves. */
  lemma AnswerLeavesBags(ds: map<nat, Dialogue>, r: nat, p: Packet,
                         unsent: multiset<Packet>, down: multiset<Packet>, up: multiset<Packet>)
    requires r in ds && PacketIn(Uplink, r, ds[r]) == Some(p)
    ensures p.msg.Answer?
    ensures var d := ds[r].(phase := PhaseAfterAnswer(p.msg.op));
            && BagFollows(ds, AtSender, r, d, unsent, unsent)
            && BagFollows(ds, Downlink, r, d, down, down)
            && BagFollows(ds, Uplink, r, d, up, up - multiset{p})
  {
    var d := ds[r].(phase := PhaseAfterAnswer(p.msg.op));
    assert BagFollows(ds, Uplink, r, d, up, up - multiset{p});
    assert ds[r].phase == Answered(p.msg.op);
    hide PacketIn, BagFollows;
    NotUnsent(r, ds[r], d, p.msg.op);
    BagStillFollows(ds, AtSender, r, d, unsent);
    BagStillFollows(ds, Downlink, r, d, down);
  }

  lemma NotUnsent(r: nat, was: Dialogue, d: Dialogue, op: Op)
    requires was.phase == Answered(op) && d.phase == PhaseAfterAnswer(op)
    ensures PacketIn(AtSender, r, was) == None == PacketIn(AtSender, r, d)
    ensures PacketIn(Downlink, r, was) == None == PacketIn(Downlink, r, d)
  {
  }

  lemma ReceiveShapeIsSafe(s: Sys, t: Sys, p: Packet, r: nat)
    requires Inv(s) && ReceiveShape(s, t, p, r)
    requires s.dialogues[r].phase == Answered(p.msg.op)
    ensures Inv(t)
  {
    hide R.Sound, TimersAgree, BagAgrees, BagFollows, RicFollows, AgentAgrees, AgentFollows;
    var d := s.dialogues[r].(phase := PhaseAfterAnswer(p.msg.op));
    forall n | n in s.agents
      ensures AgentFollows(s.dialogues, n, r, d, s.agents[n], t.agents[n])
    {
      StillFollows(s.dialogues, n, r, d, s.agents[n]);
    }
    PhaseKeepsIds(s, t, r, PhaseAfterAnswer(p.msg.op));
    FollowingIsSafe(s, t, r, d);
  }

  lemma IndicationIsRead(s: Sys, p: Packet, src: Addr, pick: Fd)
    requires Inv(s) && p.msg.Indication?
    ensures ApplyReceive(s, p, src, pick) == Some(s.(up := s.up - multiset{p}))
    ensures Inv(ApplyReceive(s, p, src, pick).value)
  {
    hide AgentAgrees, TimersAgree, R.Sound, BagAgrees;
    R.PayloadIsHandled(s.ric, src, p.msg, pick);
    PostOne(s.down, p.node, p.msg);
    IndicationsPass(s.dialogues, s.up, p);
  }

  lemma AnswerIsRead(s: Sys, p: Packet, src: Addr, pick: Fd)
    requires Inv(s) && Enabled(s, Receive(p, src, pick)) && !p.msg.Indication?
    ensures ApplyReceive(s, p, src, pick).Some? && Inv(ApplyReceive(s, p, src, pick).value)
  {
    hide R.Sound, TimersAgree, AgentAgrees, ReceiveShape, BagAgrees, R.PickOk;
    PacketHasDialogue(s.dialogues, Uplink, s.up, p);
    ReceiveHasShape(s, p, src, pick, p.msg.id.reqId);
    ReceiveShapeIsSafe(s, ApplyReceive(s, p, src, pick).value, p, p.msg.id.reqId);
  }

  lemma ReceiveSafe(s: Sys, p: Packet, src: Addr, pick: Fd)
    requires Inv(s) && Enabled(s, Receive(p, src, pick))
    ensures ApplyReceive(s, p, src, pick).Some? && Inv(ApplyReceive(s, p, src, pick).value)
  {
    hide *;
    if p.msg.Indication? {
      IndicationIsRead(s, p, src, pick);
    } else {
      AnswerIsRead(s, p, src, pick);
    }
  }

  /** An open window makes the next id one that no live dialogue uses. */
  lemma NextIdIsFresh(s: Sys, forwarded: bool)
    requires IdsAgree(s) && WindowOpen(s)
    ensures NextId(s, forwarded) in s.dialogues ==> s.dialogues[NextId(s, forwarded)].phase.Closed?
  {
    var r := NextId(s, forwarded);
    IdLowBits(s.allocs, forwarded);
    if r in s.dialogues {
      SameResidue(FIRST + s.dialogues[r].alloc, FIRST + s.allocs);
    }
  }

  ghost predicate IssueShape(s: Sys, t: Sys, r: nat, d: Dialogue) {
    && d.phase.Unsent?
    && t.dialogues == s.dialogues[r := d]
    && t.agents == s.agents
    && RicFollows(s.dialogues, r, d, s.ric, t.ric)
    && BagFollows(s.dialogues, AtSender, r, d, s.unsent, t.unsent)
    && BagFollows(s.dialogues, Downlink, r, d, s.down, t.down)
    && BagFollows(s.dialogues, Uplink, r, d, s.up, t.up)
  }

  lemma IssueShapeIsSafe(s: Sys, t: Sys, r: nat, d: Dialogue)
    requires Inv(s) && IssueShape(s, t, r, d) && IdsAgree(t)
    requires forall n | n in s.agents :: ServiceBefore(s.dialogues, n, r) == ServiceOf(n, r, d)
    requires AddressOf(s.ric.tables, d.node).Some?
    ensures Inv(t)
  {
    forall n | n in s.agents
      ensures AgentFollows(s.dialogues, n, r, d, s.agents[n], t.agents[n])
    {
      StillFollows(s.dialogues, n, r, d, s.agents[n]);
    }
    FollowingIsSafe(s, t, r, d);
  }

  /** Arming a timer for a dialogue that has none. */
  lemma RicArms(ds: map<nat, Dialogue>, r: nat, d: Dialogue, ric: R.RicState, timer: Fd)
    requires R.Sound(ric) && TimersAgree(ds, ric.pending.right.Values) && timer !in ric.fds
    requires TimerBefore(ds, r) == None && d.phase.Unsent?
    ensures var res := R.Arm(ric, PendingEvent(d.phase.op, IdAt(r, d)), timer);
            RicFollows(ds, r, d, ric, res) && res.counter == ric.counter
  {
    hide R.Sound;
    var ev := PendingEvent(d.phase.op, IdAt(r, d));
    assert !ExpectsTimer(ds, ev);
    R.ArmKeepsSound(ric, ev, timer);
  }

  lemma IssueMovesBags(ds: map<nat, Dialogue>, r: nat, d: Dialogue,
                       unsent: multiset<Packet>, down: multiset<Packet>, up: multiset<Packet>)
    requires d.phase.Unsent? && (r in ds ==> ds[r].phase.Active? || ds[r].phase.Closed?)
    ensures BagFollows(ds, AtSender, r, d, unsent, unsent + multiset{RequestAt(d.phase.op, r, d)})
    ensures BagFollows(ds, Downlink, r, d, down, down)
    ensures BagFollows(ds, Uplink, r, d, up, up)
  {
  }

  lemma FollowsIgnoresCounter(ds: map<nat, Dialogue>, r: nat, d: Dialogue, ric: R.RicState, c: int, after: R.RicState)
    requires RicFollows(ds, r, d, ric.(counter := c), after)
    ensures RicFollows(ds, r, d, ric, after)
  {
  }

  lemma IssueHasShape(s: Sys, node: NodeId, op: Op, func: nat, forwarded: bool, timer: Fd)
    requires R.Sound(s.ric) && TimersAgree(s.dialogues, s.ric.pending.right.Values) && IdsAgree(s)
    requires Enabled(s, Issue(node, op, func, forwarded, timer))
    ensures var res := ApplyIssue(s, node, op, func, forwarded, timer);
            && IssueShape(s, res, NextId(s, forwarded), Dialogue(node, func, s.allocs, Unsent(op)))
            && res.allocs == s.allocs + 1 && res.ric.counter == Next(s.ric.counter)
  {
    hide R.Sound, TimersAgree, RicFollows, BagFollows;
    var r, d := NextId(s, forwarded), Dialogue(node, func, s.allocs, Unsent(op));
    NextIdIsFresh(s, forwarded);
    var ric := s.ric.(counter := Next(s.ric.counter));
    R.CounterKeepsSound(s.ric, Next(s.ric.counter));
    RicArms(s.dialogues, r, d, ric, timer);
    var t := ApplyIssue(s, node, op, func, forwarded, timer);
    assert RicFollows(s.dialogues, r, d, s.ric, t.ric) by {
      assert RicFollows(s.dialogues, r, d, ric, t.ric);
      FollowsIgnoresCounter(s.dialogues, r, d, s.ric, Next(s.ric.counter), t.ric);
    }
    IssueMovesBags(s.dialogues, r, d, s.unsent, s.down, s.up);
  }

  lemma IssueKeepsIds(s: Sys, t: Sys, node: NodeId, func: nat, forwarded: bool, ph: Phase)
    requires IdsAgree(s) && node in s.agents
    requires t.dialogues == s.dialogues[NextId(s, forwarded) := Dialogue(node, func, s.allocs, ph)]
    requires t.agents == s.agents && t.allocs == s.allocs + 1 && t.ric.counter == Next(s.ric.counter)
    ensures IdsAgree(t)
  {
    IdLowBits(s.allocs, forwarded);
  }

  lemma IssueSafe(s: Sys, node: NodeId, op: Op, func: nat, forwarded: bool, timer: Fd)
    requires Inv(s) && Enabled(s, Issue(node, op, func, forwarded, timer))
    ensures Inv(ApplyIssue(s, node, op, func, forwarded, timer))
  {
    hide R.Sound, TimersAgree, AgentAgrees, BagAgrees;
    IssueHasShape(s, node, op, func, forwarded, timer);
    NextIdIsFresh(s, forwarded);
    IssueKeepsIds(s, ApplyIssue(s, node, op, func, forwarded, timer), node, func, forwarded, Unsent(op));
    IssueShapeIsSafe(s, ApplyIssue(s, node, op, func, forwarded, timer),
                     NextId(s, forwarded), Dialogue(node, func, s.allocs, Unsent(op)));
  }

  lemma IssueDeleteHasShape(s: Sys, r: nat, timer: Fd)
    requires R.Sound(s.ric) && TimersAgree(s.dialogues, s.ric.pending.right.Values)
    requires Enabled(s, IssueDelete(r, timer))
    ensures var res := ApplyIssueDelete(s, r, timer);
            && IssueShape(s, res, r, s.dialogues[r].(phase := Unsent(Delete)))
            && res.allocs == s.allocs && res.ric.counter == s.ric.counter
  {
    hide R.Sound, TimersAgree, RicFollows, BagFollows;
    var d := s.dialogues[r].(phase := Unsent(Delete));
    RicArms(s.dialogues, r, d, s.ric, timer);
    var t := ApplyIssueDelete(s, r, timer);
    assert t.dialogues == s.dialogues[r := d];
    assert t.agents == s.agents;
    assert RicFollows(s.dialogues, r, d, s.ric, t.ric);
    IssueMovesBags(s.dialogues, r, d, s.unsent, s.down, s.up);
  }

  lemma IssueDeleteSafe(s: Sys, r: nat, timer: Fd)
    requires Inv(s) && Enabled(s, IssueDelete(r, timer))
    ensures Inv(ApplyIssueDelete(s, r, timer))
  {
    hide R.Sound, TimersAgree, AgentAgrees, BagAgrees;
    IssueDeleteHasShape(s, r, timer);
    PhaseKeepsIds(s, ApplyIssueDelete(s, r, timer), r, Unsent(Delete));
    IssueShapeIsSafe(s, ApplyIssueDelete(s, r, timer), r, s.dialogues[r].(phase := Unsent(Delete)));
  }

  lemma RicTimeoutSafe(s: Sys, fd: Fd)
    requires Inv(s) && Enabled(s, RicTimeout(fd))
    ensures ApplyRicTimeout(s, fd) == Some(s)
  {
    R.TimeoutSurvives(s.ric, fd);
  }

  /** Every request that waits at its sender is a dialogue's. */
  lemma UnsentIsExpected(ds: map<nat, Dialogue>, unsent: multiset<Packet>, r: nat)
    requires BagAgrees(ds, AtSender, unsent) && r in ds && ds[r].phase.Unsent?
    ensures RequestAt(ds[r].phase.op, r, ds[r]) in unsent
  {
    var p := RequestAt(ds[r].phase.op, r, ds[r]);
    assert unsent[p] == One(ExpectsPacket(ds, AtSender, p));
  }

  /** A closed association takes its node out of the RIC's records, and leaves the rest. */
  lemma RicForgetsNode(ric: R.RicState, src: Addr, node: NodeId)
    requires R.Sound(ric) && Held(ric.tables, src) && R.PickOk(ric, R.Shutdown(src, node))
    ensures var res := R.Step(ric, R.Shutdown(src, node));
            && res.Some? && R.Sound(res.value.0)
            && res.value.0.pending == ric.pending && res.value.0.counter == ric.counter
            && forall n :: AddressOf(res.value.0.tables, n) == if n == node then None else AddressOf(ric.tables, n)
  {
    hide AddressOf, Held, Meets, Consistent, Inverse, ShutDown, Unique;
    ShutDownKeepsConsistent(ric.tables, src, node);
  }

  lemma RicShutdownSafe(s: Sys, src: Addr, node: NodeId)
    requires Inv(s) && Enabled(s, RicShutdown(src, node))
    ensures ApplyRicShutdown(s, src, node).Some? && Inv(ApplyRicShutdown(s, src, node).value)
  {
    hide R.Sound, R.Step, R.PickOk, TimersAgree, AgentAgrees, BagAgrees, Held, AddressOf;
    RicForgetsNode(s.ric, src, node);
    forall r | r in s.dialogues && s.dialogues[r].phase.Unsent?
      ensures s.dialogues[r].node != node
    {
      UnsentIsExpected(s.dialogues, s.unsent, r);
    }
  }

  /** No enabled move breaks an assertion, and every one keeps the invariant. */
  lemma MoveSafe(s: Sys, m: Move)
    requires Inv(s) && Enabled(s, m)
    ensures Apply(s, m).Some? && Inv(Apply(s, m).value)
  {
    match m
    case Issue(node, op, func, forwarded, timer) => IssueSafe(s, node, op, func, forwarded, timer);
    case IssueDelete(r, timer) => IssueDeleteSafe(s, r, timer);
    case Send(p) => SendSafe(s, p);
    case Deliver(p, timer, pick) => DeliverSafe(s, p, timer, pick);
    case Report(n, fd) => ReportSafe(s, n, fd);
    case Receive(p, src, pick) => ReceiveSafe(s, p, src, pick);
    case RicTimeout(fd) => RicTimeoutSafe(s, fd);
    case RicShutdown(src, node) => RicShutdownSafe(s, src, node);
    case LoseDown(p) => LoseDownSafe(s, p);
    case LoseUp(p) => LoseUpSafe(s, p);
  }
}
