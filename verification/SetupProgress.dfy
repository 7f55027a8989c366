/** That the setup protocol can always go on: whatever was lost or cut, every node can be set up. */
module SetupProgress {
  import opened Bags
  import opened Containers
  import opened E2apTypes
  import opened NodeTables
  import opened Runs
  import opened SetupPhase
  import R = NearRic
  import A = E2Agent

  ghost function Try(s: Sys, m: Move): (r: Option<Sys>) { if Enabled(s, m) then Apply(s, m) else None }

  /** How many moves a node is away from being set up. */
  function ToGo(g: Stage): (k: nat) {
    match g
    case Running(_) => 0
    case Responded(_) => 1
    case Requested(_) => 2
    case Idle => 3
    case Cut => 3
    case ResponseLost(_) => 4
    case AgentLeft(_) => 4
    case RicLeft => 4
    case Orphaned(_) => 5
  }

  /** A move that can be made and brings node `n` nearer to being set up. */
  ghost predicate Nearer(s: Sys, n: NodeId, m: Move) {
    && n in s.stages && Enabled(s, m) && Apply(s, m).Some?
    && n in Apply(s, m).value.stages && ToGo(Apply(s, m).value.stages[n]) < ToGo(s.stages[n])
  }

  lemma Starts(s: Sys, n: NodeId, addr: Addr, timer: Fd)
    requires n in s.agents && n in s.stages && s.stages[n] == Idle && timer !in s.agents[n].fds
    ensures Nearer(s, n, Start(n, addr, timer))
  {
  }

  lemma Resends(s: Sys, n: NodeId, addr: Addr) returns (fd: Fd)
    requires Inv(s) && n in s.agents && s.stages[n] == Cut
    ensures Nearer(s, n, Resend(n, addr, fd))
  {
    hide A.Valid, R.Valid, TablesOk, HopsOk, A.Step;
    assert AgentOk(s.stages[n], s.agents[n], n);
    fd :| fd in s.agents[n].setup.left;
    ResendSafe(s, n, addr, fd);
  }

  lemma HopIsThere(s: Sys, towardsRic: bool, n: NodeId)
    requires Inv(s) && n in s.stages && HopOf(towardsRic, n, s.stages[n]).Some?
    ensures HopOf(towardsRic, n, s.stages[n]).value in if towardsRic then s.up else s.down
  {
    hide R.Valid, TablesOk, AgentOk;
    var p := HopOf(towardsRic, n, s.stages[n]).value;
    assert towardsRic ==> s.up[p] == 1;
    assert !towardsRic ==> s.down[p] == 1;
  }

  lemma RicAnswers(s: Sys, n: NodeId)
    requires Inv(s) && n in s.stages && s.stages[n].Requested?
    ensures Nearer(s, n, RicHears(Hop(n, s.stages[n].addr, SetupRequest(n)), 1))
  {
    hide Inv, ApplyRicHears, Nearer;
    HopIsThere(s, true, n);
    var p := Hop(n, s.stages[n].addr, SetupRequest(n));
    RicHearsSafe(s, p, 1);
    RicHearsMoves(s, p, 1);
  }

  lemma RicHearsMoves(s: Sys, p: Hop, pick: Fd)
    requires p in s.up && p.node in s.stages && s.stages[p.node].Requested? && ApplyRicHears(s, p, pick).Some?
    ensures Nearer(s, p.node, RicHears(p, pick))
  {
    hide R.Step, Packed, Put;
  }

  lemma AgentAnswers(s: Sys, n: NodeId) returns (timer: Fd, pick: Fd)
    requires Inv(s) && n in s.agents && (s.stages[n].Responded? || s.stages[n].Orphaned?)
    ensures Nearer(s, n, AgentHears(Hop(n, s.stages[n].addr, SetupResponse), timer, pick))
  {
    HopIsThere(s, false, n);
    hide R.Valid, TablesOk, HopsOk, A.Valid, Meets, Enabled, Nearer;
    assert AgentOk(s.stages[n], s.agents[n], n);
    timer := NewDescriptor(s.agents[n].fds);
    pick := SomethingMeets(s.agents[n].setup, SetupRequestPending, 1);
    var p := Hop(n, s.stages[n].addr, SetupResponse);
    CanHear(s, p, timer, pick);
    AgentHearsSafe(s, p, timer, pick);
    AgentHearsMoves(s, p, timer, pick);
  }

  lemma CanHear(s: Sys, p: Hop, timer: Fd, pick: Fd)
    requires p in s.down && p.node in s.agents && p.node in s.stages && p.msg == SetupResponse
    requires timer !in s.agents[p.node].fds && Meets(s.agents[p.node].setup, SetupRequestPending, pick)
    ensures Enabled(s, AgentHears(p, timer, pick))
  {
    hide Meets;
  }

  lemma AgentHearsMoves(s: Sys, p: Hop, timer: Fd, pick: Fd)
    requires p.node in s.stages && (s.stages[p.node].Responded? || s.stages[p.node].Orphaned?)
    requires Enabled(s, AgentHears(p, timer, pick)) && ApplyAgentHears(s, p, timer, pick).Some?
    ensures Nearer(s, p.node, AgentHears(p, timer, pick))
  {
    hide A.Step, A.Feasible, Packed, Put;
  }

  lemma RicForgets(s: Sys, n: NodeId)
    requires Inv(s) && n in s.stages && (s.stages[n].ResponseLost? || s.stages[n].AgentLeft?)
    ensures Nearer(s, n, RicShutdown(s.stages[n].addr, n))
  {
    hide A.Valid, HopsOk, R.Step, AgentOk, R.Valid, Consistent, Meets;
    assert AddressOf(s.ric.tables, n) == Some(s.stages[n].addr);
    HolderMeets(s.ric.tables, s.stages[n].addr, n);
    RicShutdownSafe(s, s.stages[n].addr, n);
  }

  lemma AgentForgets(s: Sys, n: NodeId) returns (timer: Fd)
    requires Inv(s) && n in s.agents && s.stages[n].RicLeft?
    ensures Nearer(s, n, AgentShutdown(n, timer))
  {
    hide A.Valid, HopsOk, R.Valid, TablesOk, A.Step, AgentOk;
    timer := NewDescriptor(s.agents[n].fds);
    AgentShutdownSafe(s, n, timer);
  }

  lemma SomethingBringsNearer(s: Sys, n: NodeId, addr: Addr) returns (m: Move)
    requires Inv(s) && n in s.agents && n in s.stages && !s.stages[n].Running?
    ensures Nearer(s, n, m)
  {
    hide Inv, Nearer;
    match s.stages[n]
    case Idle =>
      var timer := NewDescriptor(s.agents[n].fds);
      Starts(s, n, addr, timer);
      m := Start(n, addr, timer);
    case Cut =>
      var fd := Resends(s, n, addr);
      m := Resend(n, addr, fd);
    case Requested(at) =>
      RicAnswers(s, n);
      m := RicHears(Hop(n, at, SetupRequest(n)), 1);
    case Responded(at) =>
      var timer, pick := AgentAnswers(s, n);
      m := AgentHears(Hop(n, at, SetupResponse), timer, pick);
    case Orphaned(at) =>
      var timer, pick := AgentAnswers(s, n);
      m := AgentHears(Hop(n, at, SetupResponse), timer, pick);
    case ResponseLost(at) =>
      RicForgets(s, n);
      m := RicShutdown(at, n);
    case AgentLeft(at) =>
      RicForgets(s, n);
      m := RicShutdown(at, n);
    case RicLeft =>
      var timer := AgentForgets(s, n);
      m := AgentShutdown(n, timer);
    case Running(_) => assert false;
  }

  /** Whatever was lost or cut so far: from every reachable state some moves lead to where node `n`
      is set up, at its agent and in all records of the RIC. */
  lemma {:induction false} EveryNodeCanBeSetUp(s: Sys, n: NodeId, addr: Addr) returns (ms: seq<Move>)
    requires Inv(s) && n in s.agents && n in s.stages
    ensures After(Try, s, ms).Some?
    ensures var t := After(Try, s, ms).value;
            && Inv(t) && n in t.stages && t.stages[n].Running?
            && n in t.agents && t.agents[n].setup.left == map[]
            && n in t.ric.tables.conn && AddressOf(t.ric.tables, n) == Some(t.stages[n].addr)
    decreases ToGo(s.stages[n])
  {
    hide Inv, Enabled, Apply, ToGo;
    if s.stages[n].Running? {
      ms := [];
      RunningIsSetUp(s, n);
    } else {
      var m := SomethingBringsNearer(s, n, addr);
      MoveSafe(s, m);
      AgentsStay(s, m, n);
      var rest := EveryNodeCanBeSetUp(Apply(s, m).value, n, addr);
      ms := [m] + rest;
      AfterFirst(Try, s, m, rest);
    }
  }

  lemma AgentsStay(s: Sys, m: Move, n: NodeId)
    requires Inv(s) && Enabled(s, m) && Apply(s, m).Some? && Inv(Apply(s, m).value)
    requires n in s.agents && n in Apply(s, m).value.stages
    ensures n in Apply(s, m).value.agents
  {
    hide R.Valid, TablesOk, AgentOk, HopsOk, Enabled, Apply;
  }

  lemma RunningIsSetUp(s: Sys, n: NodeId)
    requires Inv(s) && n in s.agents && n in s.stages && s.stages[n].Running?
    ensures s.agents[n].setup.left == map[]
    ensures n in s.ric.tables.conn && AddressOf(s.ric.tables, n) == Some(s.stages[n].addr)
  {
    hide R.Valid, HopsOk, A.Valid;
    assert AgentOk(s.stages[n], s.agents[n], n);
  }
}
