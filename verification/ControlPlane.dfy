/** The E2AP control plane as one concurrent system: threads that issue requests, the RIC's
    event loop, the loops of any number of agents, and a network that may lose and reorder
    packets but never duplicates them.  The parties move by their own step functions. */
module ControlPlane {
  import opened Bags
  import opened Containers
  import opened E2apTypes
  import opened RequestIds
  import opened NodeTables
  import R = NearRic
  import A = E2Agent

  /** How far a request of kind `op` has come. */
  datatype Phase =
    | Unsent(op: Op)       // its timer is in the table, the bytes have not left
    | Requested(op: Op)    // the request is on its way to the agent
    | Answered(op: Op)     // the answer is on its way to the RIC
    | RequestLost(op: Op)
    | AnswerLost(op: Op)
    | Active               // a confirmed subscription with no delete issued
    | Closed

  /** The life of one request id: a history variable, no party stores it. */
  datatype Dialogue = Dialogue(node: NodeId, func: nat, alloc: nat, phase: Phase)

  datatype Sys = Sys(
    ric: R.RicState,
    agents: map<NodeId, A.AgentState>,
    unsent: multiset<Packet>,
    down: multiset<Packet>,
    up: multiset<Packet>,
    allocs: nat,
    dialogues: map<nat, Dialogue>)

  function IdAt(reqId: nat, d: Dialogue): RicId { RicId(reqId, 0, d.func) }

  predicate Waiting(ph: Phase) { !ph.Active? && !ph.Closed? }

  /** The agent serves the subscription. */
  predicate Accepted(ph: Phase) {
    match ph
    case Unsent(op) => op == Delete
    case Requested(op) => op == Delete
    case Answered(op) => op == Subscribe
    case RequestLost(op) => op == Delete
    case AnswerLost(op) => op == Subscribe
    case Active => true
    case Closed => false
  }

  predicate Lost(ph: Phase) { ph.RequestLost? || ph.AnswerLost? }

  function RequestAt(op: Op, r: nat, d: Dialogue): Packet { Packet(d.node, Request(op, IdAt(r, d), 0)) }

  function AnswerAt(op: Op, r: nat, d: Dialogue): Packet { Packet(d.node, Answer(op, IdAt(r, d), 0)) }

  /** The entry a dialogue has in the RIC's timer table. */
  function TimerOf(r: nat, d: Dialogue): (e: Option<PendingEvent>) {
    if Waiting(d.phase) then Some(PendingEvent(d.phase.op, IdAt(r, d))) else None
  }

  /** The id a dialogue makes agent `n` serve. */
  function ServiceOf(n: NodeId, r: nat, d: Dialogue): (id: Option<RicId>) {
    if d.node == n && Accepted(d.phase) then Some(IdAt(r, d)) else None
  }

  datatype Place = AtSender | Downlink | Uplink

  /** The packet a dialogue has in a place. */
  function PacketIn(place: Place, r: nat, d: Dialogue): (p: Option<Packet>) {
    match d.phase
    case Unsent(op) => if place == AtSender then Some(RequestAt(op, r, d)) else None
    case Requested(op) => if place == Downlink then Some(RequestAt(op, r, d)) else None
    case Answered(op) => if place == Uplink then Some(AnswerAt(op, r, d)) else None
    case RequestLost(_) => None
    case AnswerLost(_) => None
    case Active => None
    case Closed => None
  }

  predicate HasId(m: Message) { m.Request? || m.Answer? }

  ghost predicate ExpectsTimer(ds: map<nat, Dialogue>, e: PendingEvent) {
    e.id.reqId in ds && TimerOf(e.id.reqId, ds[e.id.reqId]) == Some(e)
  }

  ghost predicate ExpectsService(ds: map<nat, Dialogue>, n: NodeId, id: RicId) {
    id.reqId in ds && ServiceOf(n, id.reqId, ds[id.reqId]) == Some(id)
  }

  ghost predicate ExpectsPacket(ds: map<nat, Dialogue>, place: Place, p: Packet) {
    HasId(p.msg) && p.msg.id.reqId in ds && PacketIn(place, p.msg.id.reqId, ds[p.msg.id.reqId]) == Some(p)
  }

  // ---------------------------------------------------------------- invariant

  /** The RIC's timer table is exactly what the dialogues expect. */
  ghost predicate TimersAgree(ds: map<nat, Dialogue>, timers: set<PendingEvent>) {
    forall e :: e in timers <==> ExpectsTimer(ds, e)
  }

  ghost predicate ServicesAgree(ds: map<nat, Dialogue>, n: NodeId, served: set<RicId>) {
    forall id :: id in served <==> ExpectsService(ds, n, id)
  }

  ghost predicate AgentAgrees(ds: map<nat, Dialogue>, n: NodeId, a: A.AgentState) {
    && A.Sound(a)
    && ServicesAgree(ds, n, a.ind.right.Values)
    && (forall fd | fd in a.ind.left :: a.ind.left[fd].action == 0)
  }

  /** A place holds each expected packet once and nothing else, bar the indications on their
      way up. */
  ghost predicate BagAgrees(ds: map<nat, Dialogue>, place: Place, bag: multiset<Packet>) {
    forall p: Packet | place != Uplink || !p.msg.Indication? :: bag[p] == One(ExpectsPacket(ds, place, p))
  }

  /** Every id carries the low 16 bits of its allocation number. */
  ghost predicate IdsAgree(s: Sys) {
    && s.ric.counter == Counter(s.allocs)
    && forall r | r in s.dialogues ::
         && s.dialogues[r].alloc < s.allocs
         && r % 0x1_0000 == (FIRST + s.dialogues[r].alloc) % 0x1_0000
         && s.dialogues[r].node in s.agents
  }

  /** A request that has not left yet goes to a node whose address the RIC has. */
  ghost predicate NodesKnown(s: Sys) {
    forall r | r in s.dialogues && s.dialogues[r].phase.Unsent? :: AddressOf(s.ric.tables, s.dialogues[r].node).Some?
  }

  ghost predicate Inv(s: Sys) {
    && NodesKnown(s)
    && R.Sound(s.ric)
    && TimersAgree(s.dialogues, s.ric.pending.right.Values)
    && (forall n | n in s.agents :: AgentAgrees(s.dialogues, n, s.agents[n]))
    && BagAgrees(s.dialogues, AtSender, s.unsent)
    && BagAgrees(s.dialogues, Downlink, s.down)
    && BagAgrees(s.dialogues, Uplink, s.up)
    && IdsAgree(s)
  }

  ghost predicate Init(s: Sys) {
    && R.Sound(s.ric) && s.ric.pending == BiMap(map[], map[])
    && (forall n | n in s.agents :: A.Sound(s.agents[n]) && s.agents[n].ind == BiMap(map[], map[]))
    && s.unsent == multiset{} && s.down == multiset{} && s.up == multiset{}
    && s.allocs == 0 && s.ric.counter == FIRST
    && s.dialogues == map[]
  }

  // -------------------------------------------------------------------- steps

  datatype Move =
    | Issue(node: NodeId, op: Op, func: nat, forwarded: bool, timer: Fd)
    | IssueDelete(reqId: nat, timer: Fd)
    | Send(packet: Packet)
    | Deliver(packet: Packet, timer: Fd, pick: Fd)
    | Report(node: NodeId, fd: Fd)
    | Receive(packet: Packet, src: Addr, pick: Fd)
    | RicTimeout(fd: Fd)
    | RicShutdown(src: Addr, node: NodeId)
    | LoseDown(packet: Packet)
    | LoseUp(packet: Packet)

  /** The id the next allocation yields. */
  function NextId(s: Sys, forwarded: bool): nat { IdOf(s.ric.counter, forwarded) }

  /** Fewer than 65536 allocations since the oldest id still in use. */
  ghost predicate WindowOpen(s: Sys) {
    forall r | r in s.dialogues && !s.dialogues[r].phase.Closed? :: s.allocs - s.dialogues[r].alloc < 0x1_0000
  }

  /** When a move can happen.  The environment's part of the bargain is here: descriptors are
      new, ids come from an open window, a delete is issued once per confirmed subscription,
      requests are issued for nodes the RIC knows, a RIC timer fires only while a single request
      is pending, and an association closes only while nothing waits to be sent to its node. */
  ghost predicate Enabled(s: Sys, m: Move) {
    match m
    case Issue(node, op, _, _, timer) =>
      && node in s.agents && AddressOf(s.ric.tables, node).Some?
      && op != Delete && timer !in s.ric.fds && WindowOpen(s)
    case IssueDelete(r, timer) =>
      && r in s.dialogues && s.dialogues[r].phase == Active
      && AddressOf(s.ric.tables, s.dialogues[r].node).Some? && timer !in s.ric.fds
    case Send(p) => p in s.unsent
    case Deliver(p, timer, pick) =>
      p in s.down && p.node in s.agents && A.Feasible(s.agents[p.node], A.Payload(p.msg, timer, pick))
    case Report(n, fd) => n in s.agents && fd in s.agents[n].ind.left
    case Receive(p, src, pick) => p in s.up && R.PickOk(s.ric, R.Payload(src, p.msg, pick))
    case RicTimeout(fd) => fd in s.ric.pending.left && |s.ric.pending.left| == 1
    case RicShutdown(src, node) =>
      && Held(s.ric.tables, src) && R.PickOk(s.ric, R.Shutdown(src, node))
      && forall p | p in s.unsent :: p.node != node
    case LoseDown(p) => p in s.down
    case LoseUp(p) => p in s.up
  }

  function MoveTo(ds: map<nat, Dialogue>, r: nat, ph: Phase): map<nat, Dialogue> {
    if r in ds then ds[r := ds[r].(phase := ph)] else ds
  }

  function PhaseAfterAnswer(op: Op): Phase { if op == Subscribe then Active else Closed }

  /** The packets that carry messages from or to a node. */
  function Packed(n: NodeId, ms: seq<Message>): (ps: seq<Packet>) {
    seq(|ms|, i requires 0 <= i < |ms| => Packet(n, ms[i]))
  }

  function ApplyIssue(s: Sys, node: NodeId, op: Op, func: nat, forwarded: bool, timer: Fd): Sys {
    var r := NextId(s, forwarded);
    var id := RicId(r, 0, func);
    s.(ric := R.Arm(s.ric.(counter := Next(s.ric.counter)), PendingEvent(op, id), timer),
       allocs := s.allocs + 1,
       unsent := s.unsent + multiset{Packet(node, Request(op, id, 0))},
       dialogues := s.dialogues[r := Dialogue(node, func, s.allocs, Unsent(op))])
  }

  function ApplyIssueDelete(s: Sys, r: nat, timer: Fd): Sys
    requires r in s.dialogues
  {
    var d := s.dialogues[r];
    s.(ric := R.Arm(s.ric, PendingEvent(Delete, IdAt(r, d)), timer),
       unsent := s.unsent + multiset{Packet(d.node, Request(Delete, IdAt(r, d), 0))},
       dialogues := MoveTo(s.dialogues, r, Unsent(Delete)))
  }

  function ApplySend(s: Sys, p: Packet): Option<Sys> {
    if AddressOf(s.ric.tables, p.node).None? then None
    else Some(s.(unsent := s.unsent - multiset{p}, down := s.down + multiset{p},
       dialogues := if p.msg.Request? then MoveTo(s.dialogues, p.msg.id.reqId, Requested(p.msg.op)) else s.dialogues))
  }

  function ApplyDeliver(s: Sys, p: Packet, timer: Fd, pick: Fd): Option<Sys>
    requires p.node in s.agents
  {
    match A.Step(s.agents[p.node], A.Payload(p.msg, timer, pick))
    case None => None
    case Some((a, answers)) =>
      Some(s.(agents := s.agents[p.node := a],
              down := s.down - multiset{p}, up := Put(s.up, Packed(p.node, answers)),
              dialogues := if p.msg.Request? then MoveTo(s.dialogues, p.msg.id.reqId, Answered(p.msg.op)) else s.dialogues))
  }

  function ApplyReport(s: Sys, n: NodeId, fd: Fd): Option<Sys>
    requires n in s.agents
  {
    match A.Step(s.agents[n], A.TimerReady(fd))
    case None => None
    case Some((a, sent)) => Some(s.(agents := s.agents[n := a], up := Put(s.up, Packed(n, sent))))
  }

  function ApplyReceive(s: Sys, p: Packet, src: Addr, pick: Fd): Option<Sys> {
    match R.Step(s.ric, R.Payload(src, p.msg, pick))
    case None => None
    case Some((ric, answers)) =>
      Some(s.(ric := ric, up := s.up - multiset{p}, down := Put(s.down, Packed(p.node, answers)),
              dialogues :=
                if p.msg.Answer? then MoveTo(s.dialogues, p.msg.id.reqId, PhaseAfterAnswer(p.msg.op)) else s.dialogues))
  }

  function ApplyRicTimeout(s: Sys, fd: Fd): Option<Sys> {
    match R.Step(s.ric, R.TimerReady(fd))
    case None => None
    case Some((ric, _)) => Some(s.(ric := ric))
  }

  function ApplyRicShutdown(s: Sys, src: Addr, node: NodeId): Option<Sys> {
    match R.Step(s.ric, R.Shutdown(src, node))
    case None => None
    case Some((ric, _)) => Some(s.(ric := ric))
  }

  function ApplyLoseDown(s: Sys, p: Packet): Sys {
    s.(down := s.down - multiset{p},
       dialogues := if p.msg.Request? then MoveTo(s.dialogues, p.msg.id.reqId, RequestLost(p.msg.op)) else s.dialogues)
  }

  function ApplyLoseUp(s: Sys, p: Packet): Sys {
    s.(up := s.up - multiset{p},
       dialogues := if p.msg.Answer? then MoveTo(s.dialogues, p.msg.id.reqId, AnswerLost(p.msg.op)) else s.dialogues)
  }

  /** The state after a move, or None when a party's assertion breaks. */
  ghost function Apply(s: Sys, m: Move): Option<Sys>
    requires Enabled(s, m)
  {
    match m
    case Issue(node, op, func, forwarded, timer) => Some(ApplyIssue(s, node, op, func, forwarded, timer))
    case IssueDelete(r, timer) => Some(ApplyIssueDelete(s, r, timer))
    case Send(p) => ApplySend(s, p)
    case Deliver(p, timer, pick) => ApplyDeliver(s, p, timer, pick)
    case Report(n, fd) => ApplyReport(s, n, fd)
    case Receive(p, src, pick) => ApplyReceive(s, p, src, pick)
    case RicTimeout(fd) => ApplyRicTimeout(s, fd)
    case RicShutdown(src, node) => ApplyRicShutdown(s, src, node)
    case LoseDown(p) => Some(ApplyLoseDown(s, p))
    case LoseUp(p) => Some(ApplyLoseUp(s, p))
  }
}
