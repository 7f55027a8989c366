/** E2 setup (section 8.3.1 of O-RAN E2AP v01.01) and its undoing, between the RIC and any
    number of agents over a network that may lose messages: the agents' setup timers, the
    RIC's node records and the messages in flight, moved by the parties' own event loops. */
module SetupPhase {
  import opened Bags
  import opened Containers
  import opened E2apTypes
  import opened NodeTables
  import R = NearRic
  import A = E2Agent

  /** Where the association of a node stands: a history variable. */
  datatype Stage =
    | Idle                      // the agent has not started
    | Requested(addr: Addr)     // a setup request is on its way from this address
    | Cut                       // the agent waits; nothing is in flight and the RIC knows nothing
    | Responded(addr: Addr)     // the RIC has set the node up, its response is on its way
    | Orphaned(addr: Addr)      // likewise, but the RIC has seen a shutdown since
    | ResponseLost(addr: Addr)
    | Running(addr: Addr)
    | AgentLeft(addr: Addr)     // the agent has seen the shutdown, the RIC has not
    | RicLeft                   // the other way round

  datatype Hop = Hop(node: NodeId, addr: Addr, msg: Message)

  datatype Sys = Sys(
    ric: R.RicState,
    agents: map<NodeId, A.AgentState>,
    up: multiset<Hop>,
    down: multiset<Hop>,
    stages: map<NodeId, Stage>)

  /** The agent has asked and not heard. */
  predicate Awaiting(g: Stage) {
    g.Requested? || g.Cut? || g.Responded? || g.Orphaned? || g.ResponseLost? || g.AgentLeft?
  }

  /** The address under which the RIC should know the node. */
  function Known(g: Stage): (a: Option<Addr>) {
    if g.Responded? || g.ResponseLost? || g.Running? || g.AgentLeft? then Some(g.addr) else None
  }

  ghost predicate AgentOk(g: Stage, a: A.AgentState, n: NodeId) {
    A.Valid(a) && a.self == n && |a.setup.left| == One(Awaiting(g))
  }

  ghost predicate TablesOk(stages: map<NodeId, Stage>, t: Tables) {
    && Consistent(t)
    && forall n :: AddressOf(t, n) == if n in stages then Known(stages[n]) else None
  }

  /** What a node at stage `g` has in flight, towards the RIC or away from it. */
  function HopOf(towardsRic: bool, n: NodeId, g: Stage): (hop: Option<Hop>) {
    if towardsRic && g.Requested? then Some(Hop(n, g.addr, SetupRequest(n)))
    else if !towardsRic && (g.Responded? || g.Orphaned?) then Some(Hop(n, g.addr, SetupResponse))
    else None
  }

  ghost predicate HopsOk(stages: map<NodeId, Stage>, towardsRic: bool, bag: multiset<Hop>) {
    forall p: Hop :: bag[p] == One(p.node in stages && HopOf(towardsRic, p.node, stages[p.node]) == Some(p))
  }

  ghost predicate Inv(s: Sys) {
    && s.agents.Keys == s.stages.Keys
    && R.Valid(s.ric)
    && TablesOk(s.stages, s.ric.tables)
    && (forall n | n in s.agents :: AgentOk(s.stages[n], s.agents[n], n))
    && HopsOk(s.stages, true, s.up)
    && HopsOk(s.stages, false, s.down)
  }

  ghost predicate Init(s: Sys) {
    && s.agents.Keys == s.stages.Keys
    && R.Valid(s.ric) && s.ric.tables == EMPTY
    && (forall n | n in s.agents :: s.stages[n] == Idle && AgentOk(Idle, s.agents[n], n))
    && s.up == multiset{} && s.down == multiset{}
  }

  datatype Move =
    | Start(node: NodeId, addr: Addr, timer: Fd)
    | Resend(node: NodeId, addr: Addr, fd: Fd)
    | RicHears(hop: Hop, pick: Fd)
    | AgentHears(hop: Hop, timer: Fd, pick: Fd)
    | LoseUp(hop: Hop)
    | LoseDown(hop: Hop)
    | AgentShutdown(node: NodeId, timer: Fd)
    | RicShutdown(src: Addr, node: NodeId)

  /** When a move can happen.  The environment's part: descriptors are new and searches meet what
      they look for, an agent hears of a shutdown only when it is set up, the RIC only from an
      address it has a node at, and a setup request is resent only when nothing of the earlier
      one is left in flight or at the RIC.  Nodes may share addresses. */
  ghost predicate Enabled(s: Sys, m: Move) {
    match m
    case Start(n, _, timer) =>
      n in s.agents && n in s.stages && s.stages[n] == Idle && timer !in s.agents[n].fds
    case Resend(n, _, fd) =>
      n in s.agents && n in s.stages && s.stages[n] == Cut && fd in s.agents[n].setup.left
    case RicHears(p, _) => p in s.up
    case AgentHears(p, timer, pick) =>
      && p in s.down && p.node in s.agents && p.node in s.stages
      && A.Feasible(s.agents[p.node], A.Payload(p.msg, timer, pick))
    case LoseUp(p) => p in s.up
    case LoseDown(p) => p in s.down && p.node in s.stages
    case AgentShutdown(n, timer) =>
      && n in s.agents && n in s.stages && (s.stages[n].Running? || s.stages[n].RicLeft?)
      && timer !in s.agents[n].fds
    case RicShutdown(src, n) =>
      n in s.stages && Known(s.stages[n]) == Some(src) && R.PickOk(s.ric, R.Shutdown(src, n))
  }

  function Packed(n: NodeId, addr: Addr, ms: seq<Message>): (hops: seq<Hop>) {
    seq(|ms|, i requires 0 <= i < |ms| => Hop(n, addr, ms[i]))
  }

  function ApplyStart(s: Sys, n: NodeId, addr: Addr, timer: Fd): Sys
    requires n in s.agents
  {
    s.(agents := s.agents[n := A.ArmSetup(s.agents[n], timer)],
       up := s.up + multiset{Hop(n, addr, SetupRequest(s.agents[n].self))},
       stages := s.stages[n := Requested(addr)])
  }

  function ApplyResend(s: Sys, n: NodeId, addr: Addr, fd: Fd): Option<Sys>
    requires n in s.agents
  {
    match A.Step(s.agents[n], A.TimerReady(fd))
    case None => None
    case Some((a, sent)) =>
      Some(s.(agents := s.agents[n := a], up := Put(s.up, Packed(n, addr, sent)), stages := s.stages[n := Requested(addr)]))
  }

  function ApplyRicHears(s: Sys, p: Hop, pick: Fd): Option<Sys> {
    match R.Step(s.ric, R.Payload(p.addr, p.msg, pick))
    case None => None
    case Some((ric, answers)) =>
      Some(s.(ric := ric, up := s.up - multiset{p}, down := Put(s.down, Packed(p.node, p.addr, answers)),
              stages := s.stages[p.node := Responded(p.addr)]))
  }

  function ApplyAgentHears(s: Sys, p: Hop, timer: Fd, pick: Fd): Option<Sys>
    requires p.node in s.agents && p.node in s.stages
  {
    match A.Step(s.agents[p.node], A.Payload(p.msg, timer, pick))
    case None => None
    case Some((a, answers)) =>
      Some(s.(agents := s.agents[p.node := a], down := s.down - multiset{p},
              up := Put(s.up, Packed(p.node, p.addr, answers)),
              stages := s.stages[p.node := AfterResponse(s.stages[p.node])]))
  }

  function ApplyLoseUp(s: Sys, p: Hop): Sys {
    s.(up := s.up - multiset{p}, stages := s.stages[p.node := Cut])
  }

  function ApplyLoseDown(s: Sys, p: Hop): Sys
    requires p.node in s.stages
  {
    s.(down := s.down - multiset{p}, stages := s.stages[p.node := AfterResponseLost(s.stages[p.node])])
  }

  function AfterAgentShutdown(g: Stage): Stage { if g.Running? then AgentLeft(g.addr) else Cut }

  function ApplyAgentShutdown(s: Sys, n: NodeId, timer: Fd): Option<Sys>
    requires n in s.agents && n in s.stages
  {
    match A.Step(s.agents[n], A.Shutdown(timer))
    case None => None
    case Some((a, _)) => Some(s.(agents := s.agents[n := a], stages := s.stages[n := AfterAgentShutdown(s.stages[n])]))
  }

  function AfterRicShutdown(g: Stage): Stage {
    if g.Running? then RicLeft else if g.Responded? then Orphaned(g.addr) else Cut
  }

  function AfterResponse(g: Stage): Stage { if g.Responded? then Running(g.addr) else RicLeft }

  function AfterResponseLost(g: Stage): Stage { if g.Responded? then ResponseLost(g.addr) else Cut }

  function ApplyRicShutdown(s: Sys, src: Addr, n: NodeId): Option<Sys>
    requires n in s.stages
  {
    match R.Step(s.ric, R.Shutdown(src, n))
    case None => None
    case Some((ric, _)) => Some(s.(ric := ric, stages := s.stages[n := AfterRicShutdown(s.stages[n])]))
  }

  /** The state after a move, or None when a party's assertion breaks. */
  ghost function Apply(s: Sys, m: Move): Option<Sys>
    requires Enabled(s, m)
  {
    match m
    case Start(n, addr, timer) => Some(ApplyStart(s, n, addr, timer))
    case Resend(n, addr, fd) => ApplyResend(s, n, addr, fd)
    case RicHears(p, pick) => ApplyRicHears(s, p, pick)
    case AgentHears(p, timer, pick) => ApplyAgentHears(s, p, timer, pick)
    case LoseUp(p) => Some(ApplyLoseUp(s, p))
    case LoseDown(p) => Some(ApplyLoseDown(s, p))
    case AgentShutdown(n, timer) => ApplyAgentShutdown(s, n, timer)
    case RicShutdown(src, n) => ApplyRicShutdown(s, src, n)
  }

  // ------------------------------------------------------------------------- safety

  lemma HopHasStage(stages: map<NodeId, Stage>, towardsRic: bool, bag: multiset<Hop>, p: Hop)
    requires HopsOk(stages, towardsRic, bag) && p in bag
    ensures p.node in stages && HopOf(towardsRic, p.node, stages[p.node]) == Some(p)
  {
    assert bag[p] > 0;
  }

  lemma HopOfNode(towardsRic: bool, n: NodeId, g: Stage)
    ensures HopOf(towardsRic, n, g).Some? ==> HopOf(towardsRic, n, g).value.node == n
  {
  }

  lemma HopsMove(stages: map<NodeId, Stage>, towardsRic: bool, bag: multiset<Hop>, n: NodeId, g: Stage)
    requires HopsOk(stages, towardsRic, bag) && n in stages
    ensures HopsOk(stages[n := g], towardsRic, Rebag(bag, HopOf(towardsRic, n, stages[n]), HopOf(towardsRic, n, g)))
  {
    hide HopOf, Rebag;
    var was, will := HopOf(towardsRic, n, stages[n]), HopOf(towardsRic, n, g);
    HopOfNode(towardsRic, n, stages[n]);
    HopOfNode(towardsRic, n, g);
    if was.Some? {
      assert bag[was.value] == 1;
    }
    forall p: Hop
      ensures Rebag(bag, was, will)[p] ==
              One(p.node in stages[n := g] && HopOf(towardsRic, p.node, stages[n := g][p.node]) == Some(p))
    {
      assert bag[p] == One(p.node in stages && HopOf(towardsRic, p.node, stages[p.node]) == Some(p));
      RebagCounts(bag, was, will, p);
      if p.node == n {
      } else {
        assert was != Some(p) && will != Some(p);
      }
    }
  }

  /** The common shape of all moves: node `n` goes to stage `g`, and the bags change by what
      it has in flight. */
  ghost predicate Follows(s: Sys, t: Sys, n: NodeId, g: Stage) {
    && n in s.stages
    && t.stages == s.stages[n := g]
    && t.up == Rebag(s.up, HopOf(true, n, s.stages[n]), HopOf(true, n, g))
    && t.down == Rebag(s.down, HopOf(false, n, s.stages[n]), HopOf(false, n, g))
  }

  ghost predicate AgentsFollow(s: Sys, t: Sys, n: NodeId, g: Stage) {
    && t.agents.Keys == s.agents.Keys
    && (forall k | k in s.agents && k != n :: t.agents[k] == s.agents[k])
    && (n in t.agents ==> AgentOk(g, t.agents[n], n))
  }

  lemma AgentsFollowing(s: Sys, t: Sys, n: NodeId, g: Stage)
    requires s.agents.Keys == s.stages.Keys && Follows(s, t, n, g) && AgentsFollow(s, t, n, g)
    requires forall k | k in s.agents :: AgentOk(s.stages[k], s.agents[k], k)
    ensures forall k | k in t.agents :: AgentOk(t.stages[k], t.agents[k], k)
  {
    hide AgentOk;
  }

  lemma FollowingIsSafe(s: Sys, t: Sys, n: NodeId, g: Stage)
    requires Inv(s) && Follows(s, t, n, g) && AgentsFollow(s, t, n, g)
    requires R.Valid(t.ric) && TablesOk(t.stages, t.ric.tables)
    ensures Inv(t)
  {
    hide R.Valid, TablesOk, HopsOk, AgentOk, Rebag, HopOf;
    HopsMove(s.stages, true, s.up, n, g);
    HopsMove(s.stages, false, s.down, n, g);
    AgentsFollowing(s, t, n, g);
  }

  // ------------------------------------------------ what a stage change does to the records

  lemma TablesStill(stages: map<NodeId, Stage>, t: Tables, n: NodeId, g: Stage)
    requires TablesOk(stages, t) && n in stages && Known(g) == Known(stages[n])
    ensures TablesOk(stages[n := g], t)
  {
    hide Consistent;
  }

  /** A request of a node the RIC does not hold is taken, whatever its address. */
  lemma RegistrationWorks(stages: map<NodeId, Stage>, t: Tables, n: NodeId, addr: Addr)
    requires TablesOk(stages, t) && n in stages && stages[n] == Requested(addr)
    ensures SetUp(t, n, addr).Some? && TablesOk(stages[n := Responded(addr)], SetUp(t, n, addr).value)
  {
    SetUpKeepsConsistent(t, n, addr);
    assert AddressOf(t, n) == None;
    hide SetUp;
  }

  lemma RemovalWorks(stages: map<NodeId, Stage>, t: Tables, n: NodeId, addr: Addr, g: Stage)
    requires TablesOk(stages, t) && n in stages && Known(stages[n]) == Some(addr) && Known(g).None?
    requires Meets(t.addrs, addr, n)
    ensures ShutDown(t, addr, n).Some? && TablesOk(stages[n := g], ShutDown(t, addr, n).value)
  {
    hide Consistent, ShutDown, Meets;
    assert AddressOf(t, n) == Some(addr);
    ShutDownKeepsConsistent(t, addr, n);
  }

  // ------------------------------------------------------------------ the moves, one by one

  lemma PostOne(bag: multiset<Hop>, n: NodeId, addr: Addr, m: Message)
    ensures Put(bag, Packed(n, addr, [m])) == bag + multiset{Hop(n, addr, m)}
    ensures Put(bag, Packed(n, addr, [])) == bag
  {
    assert Packed(n, addr, [m]) == [Hop(n, addr, m)] && Packed(n, addr, []) == [];
    PutOne(bag, Hop(n, addr, m));
  }

  lemma StartSafe(s: Sys, n: NodeId, addr: Addr, timer: Fd)
    requires Inv(s) && Enabled(s, Start(n, addr, timer))
    ensures Inv(ApplyStart(s, n, addr, timer))
  {
    hide R.Valid, TablesOk, HopsOk, A.Valid;
    A.ArmSetupKeepsValid(s.agents[n], timer);
    hide A.ArmSetup;
    TablesStill(s.stages, s.ric.tables, n, Requested(addr));
    FollowingIsSafe(s, ApplyStart(s, n, addr, timer), n, Requested(addr));
  }

  lemma ResendSafe(s: Sys, n: NodeId, addr: Addr, fd: Fd)
    requires Inv(s) && Enabled(s, Resend(n, addr, fd))
    ensures ApplyResend(s, n, addr, fd).Some? && Inv(ApplyResend(s, n, addr, fd).value)
  {
    hide R.Valid, TablesOk, HopsOk, A.Valid, ApplyResend;
    ResendFollows(s, n, addr, fd);
    TablesStill(s.stages, s.ric.tables, n, Requested(addr));
    FollowingIsSafe(s, ApplyResend(s, n, addr, fd).value, n, Requested(addr));
  }

  lemma ResendFollows(s: Sys, n: NodeId, addr: Addr, fd: Fd)
    requires n in s.agents && n in s.stages && s.stages[n] == Cut && fd in s.agents[n].setup.left
    requires AgentOk(Cut, s.agents[n], n)
    ensures var t := ApplyResend(s, n, addr, fd);
            && t.Some? && t.value.ric == s.ric
            && Follows(s, t.value, n, Requested(addr)) && AgentsFollow(s, t.value, n, Requested(addr))
  {
    hide A.Step, A.Valid;
    SetupTimerResends(s.agents[n], fd);
    PostOne(s.up, n, addr, SetupRequest(n));
  }

  /** The setup timer of an agent with one entry sends the setup request once more, and nothing
      else. */
  lemma SetupTimerResends(a: A.AgentState, fd: Fd)
    requires A.Valid(a) && fd in a.setup.left && |a.setup.left| == 1
    ensures A.Step(a, A.TimerReady(fd)) == Some((a, [SetupRequest(a.self)]))
  {
    A.DispatchIsTotal(a, fd);
  }

  lemma RicHearsSafe(s: Sys, p: Hop, pick: Fd)
    requires Inv(s) && Enabled(s, RicHears(p, pick))
    ensures ApplyRicHears(s, p, pick).Some? && Inv(ApplyRicHears(s, p, pick).value)
  {
    hide R.Valid, TablesOk, HopsOk, A.Valid, R.Step;
    HopHasStage(s.stages, true, s.up, p);
    RicRegisters(s, p.node, p.addr, pick);
    PostOne(s.down, p.node, p.addr, SetupResponse);
    FollowingIsSafe(s, ApplyRicHears(s, p, pick).value, p.node, Responded(p.addr));
  }

  lemma RicRegisters(s: Sys, n: NodeId, addr: Addr, pick: Fd)
    requires R.Valid(s.ric) && TablesOk(s.stages, s.ric.tables)
    requires n in s.stages && s.stages[n] == Requested(addr)
    ensures var res := R.Step(s.ric, R.Payload(addr, SetupRequest(n), pick));
            && res.Some? && res.value.1 == [SetupResponse]
            && R.Valid(res.value.0)
            && TablesOk(s.stages[n := Responded(addr)], res.value.0.tables)
  {
    hide TablesOk, R.Step, R.Valid, SetUp;
    R.PayloadIsHandled(s.ric, addr, SetupRequest(n), pick);
    RegistrationWorks(s.stages, s.ric.tables, n, addr);
    R.StepSurvives(s.ric, R.Payload(addr, SetupRequest(n), pick));
  }

  lemma AgentHearsSafe(s: Sys, p: Hop, timer: Fd, pick: Fd)
    requires Inv(s) && Enabled(s, AgentHears(p, timer, pick))
    ensures ApplyAgentHears(s, p, timer, pick).Some? && Inv(ApplyAgentHears(s, p, timer, pick).value)
  {
    hide R.Valid, TablesOk, HopsOk, A.Valid, A.Step, A.Feasible;
    HopHasStage(s.stages, false, s.down, p);
    ResponseFindsTimer(s.agents[p.node], timer, pick);
    PostOne(s.up, p.node, p.addr, SetupResponse);
    var g := AfterResponse(s.stages[p.node]);
    TablesStill(s.stages, s.ric.tables, p.node, g);
    FollowingIsSafe(s, ApplyAgentHears(s, p, timer, pick).value, p.node, g);
  }

  lemma ResponseFindsTimer(a: A.AgentState, timer: Fd, pick: Fd)
    requires A.Valid(a) && |a.setup.left| == 1 && A.Feasible(a, A.Payload(SetupResponse, timer, pick))
    ensures var res := A.Step(a, A.Payload(SetupResponse, timer, pick));
            && res.Some? && res.value.1 == []
            && A.Valid(res.value.0) && |res.value.0.setup.left| == 0 && res.value.0.self == a.self
  {
    hide A.Step, A.Valid;
    A.PayloadIsHandled(a, SetupResponse, timer, pick);
    A.StopSetupKeepsValid(a, pick);
    hide Meets, A.StopSetup;
  }

  lemma LoseUpSafe(s: Sys, p: Hop)
    requires Inv(s) && Enabled(s, LoseUp(p))
    ensures Inv(ApplyLoseUp(s, p))
  {
    hide R.Valid, TablesOk, HopsOk, A.Valid;
    HopHasStage(s.stages, true, s.up, p);
    TablesStill(s.stages, s.ric.tables, p.node, Cut);
    FollowingIsSafe(s, ApplyLoseUp(s, p), p.node, Cut);
  }

  lemma LoseDownSafe(s: Sys, p: Hop)
    requires Inv(s) && Enabled(s, LoseDown(p))
    ensures Inv(ApplyLoseDown(s, p))
  {
    hide R.Valid, TablesOk, HopsOk, A.Valid;
    HopHasStage(s.stages, false, s.down, p);
    var g := AfterResponseLost(s.stages[p.node]);
    TablesStill(s.stages, s.ric.tables, p.node, g);
    FollowingIsSafe(s, ApplyLoseDown(s, p), p.node, g);
  }

  lemma AgentShutdownFollows(s: Sys, n: NodeId, timer: Fd)
    requires n in s.agents && n in s.stages && (s.stages[n].Running? || s.stages[n].RicLeft?)
    requires AgentOk(s.stages[n], s.agents[n], n) && timer !in s.agents[n].fds
    ensures var t, g := ApplyAgentShutdown(s, n, timer), AfterAgentShutdown(s.stages[n]);
            && t.Some? && t.value.ric == s.ric
            && Follows(s, t.value, n, g) && AgentsFollow(s, t.value, n, g)
  {
    hide A.Step, A.Valid;
    A.ShutdownSurvives(s.agents[n], timer);
    A.ArmSetupKeepsValid(s.agents[n], timer);
    hide A.ArmSetup;
  }

  lemma AgentShutdownSafe(s: Sys, n: NodeId, timer: Fd)
    requires Inv(s) && Enabled(s, AgentShutdown(n, timer))
    ensures ApplyAgentShutdown(s, n, timer).Some? && Inv(ApplyAgentShutdown(s, n, timer).value)
  {
    hide R.Valid, TablesOk, HopsOk, A.Valid, ApplyAgentShutdown;
    var g := AfterAgentShutdown(s.stages[n]);
    AgentShutdownFollows(s, n, timer);
    TablesStill(s.stages, s.ric.tables, n, g);
    FollowingIsSafe(s, ApplyAgentShutdown(s, n, timer).value, n, g);
  }

  lemma RicForgets(s: Sys, src: Addr, n: NodeId, g: Stage)
    requires R.Valid(s.ric) && TablesOk(s.stages, s.ric.tables) && R.PickOk(s.ric, R.Shutdown(src, n))
    requires n in s.stages && Known(s.stages[n]) == Some(src) && Known(g).None?
    ensures var res := R.Step(s.ric, R.Shutdown(src, n));
            res.Some? && R.Valid(res.value.0) && TablesOk(s.stages[n := g], res.value.0.tables)
  {
    hide TablesOk, R.Valid, ShutDown, Meets;
    RemovalWorks(s.stages, s.ric.tables, n, src, g);
    R.StepSurvives(s.ric, R.Shutdown(src, n));
  }

  lemma RicShutdownSafe(s: Sys, src: Addr, n: NodeId)
    requires Inv(s) && Enabled(s, RicShutdown(src, n))
    ensures ApplyRicShutdown(s, src, n).Some? && Inv(ApplyRicShutdown(s, src, n).value)
  {
    hide R.Valid, TablesOk, HopsOk, A.Valid, R.Step, R.PickOk;
    var g := AfterRicShutdown(s.stages[n]);
    RicForgets(s, src, n, g);
    FollowingIsSafe(s, ApplyRicShutdown(s, src, n).value, n, g);
  }

  /** No enabled move breaks an assertion, and every one keeps the invariant. */
  lemma MoveSafe(s: Sys, m: Move)
    requires Inv(s) && Enabled(s, m)
    ensures Apply(s, m).Some? && Inv(Apply(s, m).value)
  {
    hide Inv;
    match m
    case Start(n, addr, timer) => StartSafe(s, n, addr, timer);
    case Resend(n, addr, fd) => ResendSafe(s, n, addr, fd);
    case RicHears(p, pick) => RicHearsSafe(s, p, pick);
    case AgentHears(p, timer, pick) => AgentHearsSafe(s, p, timer, pick);
    case LoseUp(p) => LoseUpSafe(s, p);
    case LoseDown(p) => LoseDownSafe(s, p);
    case AgentShutdown(n, timer) => AgentShutdownSafe(s, n, timer);
    case RicShutdown(src, n) => RicShutdownSafe(s, src, n);
  }

  // --------------------------------------------------------------------------- whole runs

  ghost predicate Next(s: Sys, t: Sys) {
    exists m :: Enabled(s, m) && Apply(s, m) == Some(t)
  }

  ghost predicate IsRun(run: seq<Sys>) {
    && run != []
    && Init(run[0])
    && forall i | 0 <= i < |run| - 1 :: Next(run[i], run[i + 1])
  }

  ghost predicate Reachable(s: Sys) {
    exists run :: IsRun(run) && run[|run| - 1] == s
  }

  lemma InitIsSafe(s: Sys)
    requires Init(s)
    ensures Inv(s)
  {
  }

  lemma {:induction false} RunIsSafe(run: seq<Sys>)
    requires IsRun(run)
    ensures Inv(run[|run| - 1])
    decreases |run|
  {
    hide Inv, Init, Enabled;
    if |run| == 1 {
      InitIsSafe(run[0]);
    } else {
      var first := run[..|run| - 1];
      RunIsSafe(first);
      assert Next(run[|run| - 2], run[|run| - 1]);
      var m :| Enabled(run[|run| - 2], m) && Apply(run[|run| - 2], m) == Some(run[|run| - 1]);
      MoveSafe(run[|run| - 2], m);
    }
  }

  lemma ReachableIsSafe(s: Sys)
    requires Reachable(s)
    ensures Inv(s)
  {
    var run :| IsRun(run) && run[|run| - 1] == s;
    RunIsSafe(run);
  }

  /** In no reachable state does an enabled move break an assertion of the source, or part the
      RIC's two records. */
  lemma NoAssertionBreaks(s: Sys, m: Move)
    requires Reachable(s) && Enabled(s, m)
    ensures Apply(s, m).Some? && Consistent(Apply(s, m).value.ric.tables)
  {
    hide Inv, Enabled, Apply, Consistent;
    ReachableIsSafe(s);
    MoveSafe(s, m);
    InvIsConsistent(Apply(s, m).value);
  }

  lemma InvIsConsistent(s: Sys)
    requires Inv(s)
    ensures Consistent(s.ric.tables)
  {
  }

  /** An agent has one setup entry while it awaits its setup and none otherwise. */
  lemma OneSetupEntry(s: Sys, n: NodeId)
    requires Reachable(s) && n in s.agents
    ensures n in s.stages && |s.agents[n].setup.left| == One(Awaiting(s.stages[n]))
  {
    hide TablesOk, HopsOk, R.Valid, Reachable, A.Valid;
    ReachableIsSafe(s);
  }

  /** A setup message on its way, in either direction. */
  ghost predicate InFlight(s: Sys, p: Hop) { p in s.up || p in s.down }

  /** At most one setup message of a node is in flight: any two are the same message, once in
      one direction.  While one is, the agent awaits it, and a response finds its timer. */
  lemma OneSetupToken(s: Sys, p: Hop, q: Hop)
    requires Reachable(s) && InFlight(s, p) && InFlight(s, q) && p.node == q.node
    ensures p == q && s.up[p] + s.down[p] == 1
    ensures p.node in s.agents && |s.agents[p.node].setup.left| == 1
    ensures p in s.down ==>
              && p.msg == SetupResponse
              && forall pick :: Meets(s.agents[p.node].setup, SetupRequestPending, pick) ==>
                   A.StopSetup(s.agents[p.node], pick).Some?
  {
    hide TablesOk, R.Valid, Reachable, A.Valid, A.StopSetup;
    ReachableIsSafe(s);
    assert s.up[p] == One(p.node in s.stages && HopOf(true, p.node, s.stages[p.node]) == Some(p));
    assert s.down[p] == One(p.node in s.stages && HopOf(false, p.node, s.stages[p.node]) == Some(p));
    assert s.up[q] == One(q.node in s.stages && HopOf(true, q.node, s.stages[q.node]) == Some(q));
    assert s.down[q] == One(q.node in s.stages && HopOf(false, q.node, s.stages[q.node]) == Some(q));
    hide HopsOk, Meets;
    forall pick | Meets(s.agents[p.node].setup, SetupRequestPending, pick)
      ensures A.StopSetup(s.agents[p.node], pick).Some?
    {
      A.StopSetupKeepsValid(s.agents[p.node], pick);
    }
  }

  /** The RIC's records agree and hold exactly the nodes it answered and has not lost. */
  lemma RicKnowsItsNodes(s: Sys, n: NodeId)
    requires Reachable(s)
    ensures Consistent(s.ric.tables)
    ensures n in s.ric.tables.conn <==> n in s.stages && Known(s.stages[n]).Some?
    ensures AddressOf(s.ric.tables, n) == if n in s.stages then Known(s.stages[n]) else None
  {
    hide HopsOk, R.Valid, Reachable, A.Valid;
    ReachableIsSafe(s);
  }

  // ------------------------------------------------ what the environment's part rules out

  /** A setup request of a node, heard from whatever address, breaks the assertion of the iApp's
      registry exactly while the RIC holds the node. */
  lemma ResendHeard(s: Sys, n: NodeId, addr: Addr, pick: Fd)
    requires Reachable(s) && n in s.stages
    ensures R.Step(s.ric, R.Payload(addr, SetupRequest(n), pick)).None? <==> Known(s.stages[n]).Some?
  {
    hide HopsOk, Reachable, A.Valid, R.Step;
    ReachableIsSafe(s);
    RicKnowsItsNodes(s, n);
    R.StepSurvives(s.ric, R.Payload(addr, SetupRequest(n), pick));
  }

  /** A shutdown never breaks an assertion of the agent, but an agent that awaits a setup already
      keeps two entries, with which every setup timer that fires breaks one; a response that
      comes first leaves one entry and no harm. */
  lemma ShutdownHeard(s: Sys, n: NodeId, timer: Fd)
    requires Reachable(s) && n in s.agents && timer !in s.agents[n].fds
    ensures n in s.stages && A.Step(s.agents[n], A.Shutdown(timer)).Some?
    ensures var b := A.Step(s.agents[n], A.Shutdown(timer)).value.0;
            && |b.setup.left| == (if Awaiting(s.stages[n]) then 2 else 1)
            && (forall fd | fd in b.setup.left :: A.Step(b, A.TimerReady(fd)).None? <==> Awaiting(s.stages[n]))
            && (forall pick | Meets(b.setup, SetupRequestPending, pick) ::
                  A.StopSetup(b, pick).Some? && |A.StopSetup(b, pick).value.setup.left| == One(Awaiting(s.stages[n])))
  {
    hide TablesOk, HopsOk, R.Valid, Reachable, A.Valid, A.Step, A.StopSetup, Meets;
    ReachableIsSafe(s);
    A.ShutdownSurvives(s.agents[n], timer);
    A.ArmSetupKeepsValid(s.agents[n], timer);
    AfterShutdown(A.ArmSetup(s.agents[n], timer));
  }

  lemma AfterShutdown(b: A.AgentState)
    requires A.Valid(b) && |b.setup.left| > 0
    ensures forall fd | fd in b.setup.left :: A.Step(b, A.TimerReady(fd)).None? <==> |b.setup.left| != 1
    ensures forall pick | Meets(b.setup, SetupRequestPending, pick) ::
              A.StopSetup(b, pick).Some? && |A.StopSetup(b, pick).value.setup.left| == |b.setup.left| - 1
  {
    forall fd | fd in b.setup.left
      ensures A.Step(b, A.TimerReady(fd)).None? <==> |b.setup.left| != 1
    {
      hide A.Step;
      A.TimerSurvives(b, fd);
    }
    hide A.Valid, Meets, A.StopSetup;
    forall pick | Meets(b.setup, SetupRequestPending, pick)
      ensures A.StopSetup(b, pick).Some? && |A.StopSetup(b, pick).value.setup.left| == |b.setup.left| - 1
    {
      A.StopSetupKeepsValid(b, pick);
    }
  }

  /** A shutdown from an address breaks an assertion of the RIC exactly when it holds no node
      there, so also when the shutdown overtakes the setup request. */
  lemma RicShutdownHeard(s: Sys, addr: Addr, pick: NodeId)
    requires Reachable(s) && R.PickOk(s.ric, R.Shutdown(addr, pick))
    ensures R.Step(s.ric, R.Shutdown(addr, pick)).None? <==>
            !exists k :: k in s.stages && Known(s.stages[k]) == Some(addr)
  {
    hide HopsOk, Reachable, A.Valid, R.Step, R.Valid, R.PickOk;
    ReachableIsSafe(s);
    R.StepSurvives(s.ric, R.Shutdown(addr, pick));
    forall k
      ensures AddressOf(s.ric.tables, k) == Some(addr) <==> k in s.stages && Known(s.stages[k]) == Some(addr)
    {
    }
  }
}
