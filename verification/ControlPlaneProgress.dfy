/** That the control plane can always go on: every exchange that has lost nothing can be brought to
    its end, and a subscription followed by its delete leaves the tables as they were. */
module ControlPlaneProgress {
  import opened Bags
  import opened Containers
  import opened E2apTypes
  import opened NodeTables
  import opened Runs
  import opened ControlPlane
  import opened ControlPlaneSafety
  import R = NearRic
  import A = E2Agent

  ghost function Try(s: Sys, m: Move): (r: Option<Sys>) { if Enabled(s, m) then Apply(s, m) else None }

  /** The request or the answer of dialogue `r` is on its way. */
  ghost predicate OnItsWay(s: Sys, r: nat) {
    r in s.dialogues && Waiting(s.dialogues[r].phase) && !Lost(s.dialogues[r].phase)
  }

  function ToGo(ph: Phase): (k: nat) {
    if ph.Unsent? then 3 else if ph.Requested? then 2 else if ph.Answered? then 1 else 0
  }

  function NextPhase(ph: Phase): (next: Phase)
    requires ph.Unsent? || ph.Requested? || ph.Answered?
  {
    match ph
    case Unsent(op) => Requested(op)
    case Requested(op) => Answered(op)
    case Answered(op) => PhaseAfterAnswer(op)
  }

  /** A move that can be made and takes dialogue `r`, and no other, one phase on. */
  ghost predicate Brings(s: Sys, m: Move, r: nat) {
    && OnItsWay(s, r) && Enabled(s, m) && Apply(s, m).Some?
    && var t := Apply(s, m).value;
       && t.dialogues == s.dialogues[r := s.dialogues[r].(phase := NextPhase(s.dialogues[r].phase))]
       && t.ric.tables == s.ric.tables && t.agents.Keys == s.agents.Keys && t.allocs == s.allocs
  }

  lemma PacketIsThere(ds: map<nat, Dialogue>, place: Place, bag: multiset<Packet>, r: nat)
    requires BagAgrees(ds, place, bag) && r in ds && PacketIn(place, r, ds[r]).Some?
    ensures PacketIn(place, r, ds[r]).value in bag
  {
    var p := PacketIn(place, r, ds[r]).value;
    assert bag[p] == One(ExpectsPacket(ds, place, p));
  }

  lemma Sends(s: Sys, r: nat)
    requires Inv(s) && OnItsWay(s, r) && s.dialogues[r].phase.Unsent?
    ensures Brings(s, Send(RequestAt(s.dialogues[r].phase.op, r, s.dialogues[r])), r)
  {
    hide R.Sound, TimersAgree, AgentAgrees, IdsAgree, AddressOf, BagAgrees;
    PacketIsThere(s.dialogues, AtSender, s.unsent, r);
    NodeIsKnown(s, r);
    hide NodesKnown, Inv;
  }

  /** The agent can take a packet: the kernel has a new descriptor, and the search meets something. */
  lemma CanDeliver(a: A.AgentState, m: Message) returns (timer: Fd, pick: Fd)
    requires m.Request?
    ensures A.Feasible(a, A.Payload(m, timer, pick))
  {
    timer := NewDescriptor(a.fds);
    pick := SomethingMeets(a.ind, m.id, 1);
  }

  lemma Delivers(s: Sys, r: nat) returns (timer: Fd, pick: Fd)
    requires Inv(s) && OnItsWay(s, r) && s.dialogues[r].phase.Requested?
    ensures Brings(s, Deliver(RequestAt(s.dialogues[r].phase.op, r, s.dialogues[r]), timer, pick), r)
  {
    hide R.Sound, TimersAgree, AgentAgrees, NodesKnown, BagAgrees;
    PacketIsThere(s.dialogues, Downlink, s.down, r);
    var p := RequestAt(s.dialogues[r].phase.op, r, s.dialogues[r]);
    assert p.node in s.agents;
    timer, pick := CanDeliver(s.agents[p.node], p.msg);
    hide Inv, A.Feasible, ApplyDeliver, Brings;
    DeliverSafe(s, p, timer, pick);
    DeliverBrings(s, p, timer, pick, r);
  }

  lemma DeliverBrings(s: Sys, p: Packet, timer: Fd, pick: Fd, r: nat)
    requires OnItsWay(s, r) && s.dialogues[r].phase.Requested? && p == RequestAt(s.dialogues[r].phase.op, r, s.dialogues[r])
    requires Enabled(s, Deliver(p, timer, pick)) && ApplyDeliver(s, p, timer, pick).Some?
    ensures Brings(s, Deliver(p, timer, pick), r)
  {
    hide A.Step, A.Feasible, Put, Packed;
  }

  lemma Receives(s: Sys, r: nat, src: Addr) returns (pick: Fd)
    requires Inv(s) && OnItsWay(s, r) && s.dialogues[r].phase.Answered?
    ensures Brings(s, Receive(AnswerAt(s.dialogues[r].phase.op, r, s.dialogues[r]), src, pick), r)
  {
    hide AgentAgrees, IdsAgree, NodesKnown, BagAgrees, R.Sound, TimersAgree, Meets;
    PacketIsThere(s.dialogues, Uplink, s.up, r);
    var p := AnswerAt(s.dialogues[r].phase.op, r, s.dialogues[r]);
    pick := SomethingMeets(s.ric.pending, PendingEvent(p.msg.op, p.msg.id), 1);
    assert R.PickOk(s.ric, R.Payload(src, p.msg, pick));
    hide R.PickOk, ApplyReceive, Brings;
    ReceiveSafe(s, p, src, pick);
    AnswerKeepsTables(s, p, src, pick);
    hide Inv;
    ReceiveBrings(s, p, src, pick, r);
  }

  lemma AnswerKeepsTables(s: Sys, p: Packet, src: Addr, pick: Fd)
    requires Inv(s) && p.msg.Answer? && R.PickOk(s.ric, R.Payload(src, p.msg, pick))
    requires ApplyReceive(s, p, src, pick).Some?
    ensures ApplyReceive(s, p, src, pick).value.ric.tables == s.ric.tables
  {
    hide AgentAgrees, IdsAgree, NodesKnown, BagAgrees, R.Valid, TimersAgree, Meets, R.StopPending;
    R.PayloadIsHandled(s.ric, src, p.msg, pick);
    R.StopKeepsValid(s.ric, PendingEvent(p.msg.op, p.msg.id), pick);
  }

  lemma ReceiveBrings(s: Sys, p: Packet, src: Addr, pick: Fd, r: nat)
    requires OnItsWay(s, r) && s.dialogues[r].phase.Answered? && p == AnswerAt(s.dialogues[r].phase.op, r, s.dialogues[r])
    requires Enabled(s, Receive(p, src, pick)) && ApplyReceive(s, p, src, pick).Some?
    requires ApplyReceive(s, p, src, pick).value.ric.tables == s.ric.tables
    ensures Brings(s, Receive(p, src, pick), r)
  {
    hide R.Step, R.PickOk, Put, Packed;
  }

  lemma SomethingBrings(s: Sys, r: nat) returns (m: Move)
    requires Inv(s) && OnItsWay(s, r)
    ensures Brings(s, m, r)
  {
    hide Inv, Brings;
    var d := s.dialogues[r];
    match d.phase
    case Unsent(op) =>
      m := Send(RequestAt(op, r, d));
      Sends(s, r);
    case Requested(op) =>
      var timer, pick := Delivers(s, r);
      m := Deliver(RequestAt(op, r, d), timer, pick);
    case Answered(op) =>
      var pick := Receives(s, r, Addr(0, 0));
      m := Receive(AnswerAt(op, r, d), Addr(0, 0), pick);
    case RequestLost(_) => assert false;
    case AnswerLost(_) => assert false;
    case Active => assert false;
    case Closed => assert false;
  }

  /** From every reachable state, an exchange on its way can be brought to its end without a move of
      any other: all that changes in the end is its own dialogue. */
  lemma {:induction false} ExchangeCanEnd(s: Sys, r: nat) returns (ms: seq<Move>)
    requires Inv(s) && OnItsWay(s, r)
    ensures After(Try, s, ms).Some?
    ensures var t := After(Try, s, ms).value;
            && Inv(t)
            && t.dialogues == s.dialogues[r := s.dialogues[r].(phase := PhaseAfterAnswer(s.dialogues[r].phase.op))]
            && t.ric.tables == s.ric.tables && t.agents.Keys == s.agents.Keys && t.allocs == s.allocs
    decreases ToGo(s.dialogues[r].phase)
  {
    hide Inv, Enabled, Apply;
    var m := SomethingBrings(s, r);
    MoveSafe(s, m);
    var t := Apply(s, m).value;
    if OnItsWay(t, r) {
      var rest := ExchangeCanEnd(t, r);
      ms := [m] + rest;
      AfterFirst(Try, s, m, rest);
    } else {
      ms := [m];
      AfterOne(Try, s, m);
    }
  }

  /** What the tables hold is told by the dialogues, so a new dialogue that has ended adds nothing
      but, if it is a subscription, its own id at its own agent. */
  lemma EndedAddsOnlyItself(s: Sys, t: Sys, r: nat, d: Dialogue)
    requires Inv(s) && Inv(t) && t.dialogues == s.dialogues[r := d] && t.agents.Keys == s.agents.Keys
    requires r in s.dialogues ==> s.dialogues[r].phase.Closed?
    requires d.phase.Active? || d.phase.Closed?
    ensures t.ric.pending.right.Values == s.ric.pending.right.Values
    ensures forall n | n in s.agents ::
              t.agents[n].ind.right.Values ==
              s.agents[n].ind.right.Values + if d.phase.Active? && n == d.node then {IdAt(r, d)} else {}
  {
    hide R.Sound, A.Sound, BagAgrees, IdsAgree, NodesKnown;
    forall e
      ensures e in t.ric.pending.right.Values <==> e in s.ric.pending.right.Values
    {
      assert ExpectsTimer(t.dialogues, e) <==> ExpectsTimer(s.dialogues, e);
    }
    forall n | n in s.agents
      ensures t.agents[n].ind.right.Values ==
              s.agents[n].ind.right.Values + if d.phase.Active? && n == d.node then {IdAt(r, d)} else {}
    {
      assert AgentAgrees(s.dialogues, n, s.agents[n]) && AgentAgrees(t.dialogues, n, t.agents[n]);
      ServicesGrow(s.dialogues, n, s.agents[n].ind.right.Values, t.agents[n].ind.right.Values, r, d);
    }
  }

  lemma ServicesGrow(ds: map<nat, Dialogue>, n: NodeId, was: set<RicId>, now: set<RicId>, r: nat, d: Dialogue)
    requires ServicesAgree(ds, n, was) && ServicesAgree(ds[r := d], n, now)
    requires (r in ds ==> ds[r].phase.Closed?) && (d.phase.Active? || d.phase.Closed?)
    ensures now == was + if d.phase.Active? && n == d.node then {IdAt(r, d)} else {}
  {
    forall id
      ensures id in now <==> id in was || (d.phase.Active? && n == d.node && id == IdAt(r, d))
    {
      assert id in now <==> ExpectsService(ds[r := d], n, id);
      assert id in was <==> ExpectsService(ds, n, id);
    }
  }

  /** A move that begins an exchange: dialogue `r` becomes `d`, whose request is unsent. */
  ghost predicate Begins(s: Sys, m: Move, r: nat, d: Dialogue) {
    && Enabled(s, m) && Apply(s, m).Some? && d.phase.Unsent?
    && var t := Apply(s, m).value;
       && t.dialogues == s.dialogues[r := d]
       && t.ric.tables == s.ric.tables && t.agents == s.agents
  }

  lemma Issues(s: Sys, node: NodeId, func: nat, forwarded: bool, timer: Fd)
    requires Inv(s) && Enabled(s, Issue(node, Subscribe, func, forwarded, timer))
    ensures var r := NextId(s, forwarded);
            && Begins(s, Issue(node, Subscribe, func, forwarded, timer), r, Dialogue(node, func, s.allocs, Unsent(Subscribe)))
            && (r in s.dialogues ==> s.dialogues[r].phase.Closed?)
  {
    hide R.Sound, TimersAgree, AgentAgrees, BagAgrees, NodesKnown, WindowOpen, AddressOf, IdsAgree;
    NextIdIsFresh(s, forwarded);
  }

  lemma DeleteGoes(s: Sys, r: nat) returns (timer: Fd)
    requires r in s.dialogues && s.dialogues[r].phase.Active?
    requires AddressOf(s.ric.tables, s.dialogues[r].node).Some?
    ensures Begins(s, IssueDelete(r, timer), r, s.dialogues[r].(phase := Unsent(Delete)))
  {
    hide AddressOf;
    timer := NewDescriptor(s.ric.fds);
  }

  /** A move that begins an exchange, and moves that bring it to its end. */
  lemma BeginThenEnd(s: Sys, m: Move, r: nat, d: Dialogue) returns (ms: seq<Move>)
    requires Inv(s) && Begins(s, m, r, d)
    ensures After(Try, s, ms).Some?
    ensures var t := After(Try, s, ms).value;
            && Inv(t) && t.dialogues == s.dialogues[r := d.(phase := PhaseAfterAnswer(d.phase.op))]
            && t.ric.tables == s.ric.tables && t.agents.Keys == s.agents.Keys
  {
    hide Inv, Enabled, Apply;
    MoveSafe(s, m);
    var rest := ExchangeCanEnd(Apply(s, m).value, r);
    AfterFirst(Try, s, m, rest);
    ms := [m] + rest;
  }

  lemma IssueNeedsNode(s: Sys, node: NodeId, func: nat, forwarded: bool, timer: Fd)
    requires Enabled(s, Issue(node, Subscribe, func, forwarded, timer))
    ensures node in s.agents && AddressOf(s.ric.tables, node).Some?
  {
  }

  /** From every reachable state with an open window a subscription can be made, after which its node
      serves just one id more, and then deleted, after which every agent serves what it did before;
      both times the RIC waits for what it did before. */
  lemma SubscribeThenDelete(s: Sys, node: NodeId, func: nat, forwarded: bool, timer: Fd)
    returns (there: seq<Move>, back: seq<Move>)
    requires Inv(s) && Enabled(s, Issue(node, Subscribe, func, forwarded, timer))
    ensures After(Try, s, there).Some? && After(Try, s, there + back).Some?
    ensures var t, u := After(Try, s, there).value, After(Try, s, there + back).value;
            && node in s.agents && t.agents.Keys == u.agents.Keys == s.agents.Keys
            && t.ric.pending.right.Values == u.ric.pending.right.Values == s.ric.pending.right.Values
            && (forall n | n in s.agents ::
                  && t.agents[n].ind.right.Values ==
                     s.agents[n].ind.right.Values + (if n == node then {RicId(NextId(s, forwarded), 0, func)} else {})
                  && u.agents[n].ind.right.Values == s.agents[n].ind.right.Values)
  {
    hide Inv, AddressOf, Enabled, NextId;
    IssueNeedsNode(s, node, func, forwarded, timer);
    var r, d := NextId(s, forwarded), Dialogue(node, func, s.allocs, Active);
    Issues(s, node, func, forwarded, timer);
    hide Begins;
    there := BeginThenEnd(s, Issue(node, Subscribe, func, forwarded, timer), r, d.(phase := Unsent(Subscribe)));
    var t := After(Try, s, there).value;
    EndedAddsOnlyItself(s, t, r, d);
    var timer2 := DeleteGoes(t, r);
    back := BeginThenEnd(t, IssueDelete(r, timer2), r, d.(phase := Unsent(Delete)));
    AfterBoth(Try, s, there, back);
    var u := After(Try, t, back).value;
    assert u.dialogues == s.dialogues[r := d.(phase := Closed)];
    EndedAddsOnlyItself(s, u, r, d.(phase := Closed));
  }
}
