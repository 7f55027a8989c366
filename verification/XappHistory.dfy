/** What the xApp's registry holds over whole runs, told from the moves alone, and that every call
    that is not lost can return. */
module XappHistory {
  import opened Containers
  import opened E2apTypes
  import opened Xapp
  import opened XappCalls
  import opened Runs
  import P = ActProc
  import W = SyncUi

  ghost function Try(s: Sys, m: Move): (r: Option<Sys>) { if Enabled(s, m) then Apply(s, m) else None }

  // -------------------------------------------------------------------- told from the moves

  /** How many ids were taken. */
  function Issues(ms: seq<Move>): (n: nat) {
    if ms == [] then 0
    else Issues(ms[..|ms| - 1]) + if ms[|ms| - 1].Report? || ms[|ms| - 1].Control? then 1 else 0
  }

  /** The reports made and not removed, by the id each was given. */
  function Reports(ms: seq<Move>): (r: map<nat, P.Proc>) {
    if ms == [] then map[]
    else
      var first := ms[..|ms| - 1];
      match ms[|ms| - 1]
      case Report(func, node, cb) =>
        Reports(first)[Issues(ms) := P.Proc(P.Subscription, RicId(Issues(ms), 0, func), node, cb)]
      case RmReport(key) => Reports(first) - {key}
      case _ => Reports(first)
  }

  /** What is registered only until the call under way returns: a report being removed, or a
      control. */
  function Passing(ms: seq<Move>): (r: map<nat, P.Proc>) {
    if ms == [] then map[]
    else
      var first := ms[..|ms| - 1];
      match ms[|ms| - 1]
      case Report(_, _, _) => map[]
      case RmReport(key) => if key in Reports(first) then map[key := Reports(first)[key]] else map[]
      case Control(func, node) =>
        map[Issues(ms) := P.Proc(P.ControlProcedure, RicId(Issues(ms), 0, func), node, None)]
      case Return => map[]
      case _ => Passing(first)
  }

  // ----------------------------------------------------------------------------- the law

  /** The procedures as lookups hand them out. */
  function Registered(p: P.Procs): (r: map<nat, P.Proc>) {
    map key | key in p.table :: P.Patched(p.table[key], key)
  }

  ghost predicate Agrees(ms: seq<Move>, s: Sys) {
    && s.x.procs.next == 1 + Issues(ms)
    && Reports(ms).Keys !! Passing(ms).Keys
    && Registered(s.x.procs) == Reports(ms) + Passing(ms)
    && Passing(ms).Keys == (if s.caller.Busy? && s.caller.ev != ReportPending then {s.caller.id.reqId} else {})
  }

  lemma Extended(ms: seq<Move>, m: Move)
    ensures (ms + [m])[..|ms + [m]| - 1] == ms && (ms + [m])[|ms + [m]| - 1] == m
  {
  }

  /** Moves that neither begin a call nor end one. */
  predicate Between(m: Move) { !m.Report? && !m.RmReport? && !m.Control? && !m.Return? }

  lemma LookShowsTheSame(p: P.Procs, key: nat)
    requires P.Look(p, key).Some?
    ensures var q := P.Look(p, key).value.1; Registered(q) == Registered(p) && q.next == p.next
  {
  }

  /** What the event loop hears leaves the registry as lookups see it. */
  lemma HearingShowsTheSame(x: XState, i: Input)
    requires Valid(x) && PickOk(x, i) && Step(x, i).Some?
    ensures Registered(Step(x, i).value.procs) == Registered(x.procs) && Step(x, i).value.procs.next == x.procs.next
  {
    hide Valid, PickOk, Step, Registered;
    StepDoes(x, i);
    if i.IndicationFor? || i.Response? {
      LookShowsTheSame(x.procs, i.key);
    }
  }

  /** The registry as lookups see it, and the call under way, are as before. */
  ghost predicate SameCall(s: Sys, t: Sys) {
    && Registered(t.x.procs) == Registered(s.x.procs) && t.x.procs.next == s.x.procs.next
    && (t.caller.Busy? <==> s.caller.Busy?)
    && (s.caller.Busy? ==> t.caller.ev == s.caller.ev && t.caller.id == s.caller.id)
  }

  lemma HearKeepsCall(s: Sys, reply: Reply, pick: Fd)
    requires Valid(s.x) && PickOk(s.x, InputOf(reply, pick)) && ApplyHear(s, reply, pick).Some?
    ensures SameCall(s, ApplyHear(s, reply, pick).value)
  {
    hide Valid, Step, Registered, PickOk;
    HearingShowsTheSame(s.x, InputOf(reply, pick));
  }

  lemma OtherInputKeepsCall(s: Sys, i: Input, t: Sys)
    requires Valid(s.x) && (i.IndicationFor? || i.TimerReady?) && Step(s.x, i) == Some(t.x) && t.caller == s.caller
    ensures SameCall(s, t)
  {
    hide Valid, Step, Registered;
    HearingShowsTheSame(s.x, i);
  }

  lemma BetweenCalls(s: Sys, m: Move)
    requires Valid(s.x) && Enabled(s, m) && Between(m) && Apply(s, m).Some?
    ensures SameCall(s, Apply(s, m).value)
  {
    hide Valid, Step, Registered, PickOk, SameCall, Insert, W.Waits, ReplyTo;
    match m
    case Hear(reply, pick) => HearKeepsCall(s, reply, pick);
    case HearIndication(key) => OtherInputKeepsCall(s, IndicationFor(key), Apply(s, m).value);
    case Resend(fd) => OtherInputKeepsCall(s, TimerReady(fd), Apply(s, m).value);
    case Boot(_) => SameProcs(s, Apply(s, m).value);
    case Send => SameProcs(s, Apply(s, m).value);
    case Arm(_) => SameProcs(s, Apply(s, m).value);
    case Park => SameProcs(s, Apply(s, m).value);
    case WaitTimeout => SameProcs(s, s);
    case Serve(_) => SameProcs(s, Apply(s, m).value);
    case LoseAsk(_) => SameProcs(s, Apply(s, m).value);
    case LoseReply(_) => SameProcs(s, Apply(s, m).value);
  }

  lemma SameProcs(s: Sys, t: Sys)
    requires t.x.procs == s.x.procs
    requires if s.caller.Busy? then t.caller.Busy? && t.caller.ev == s.caller.ev && t.caller.id == s.caller.id
             else t.caller.Idle?
    ensures SameCall(s, t)
  {
    hide Registered;
  }

  lemma BetweenAgrees(ms: seq<Move>, s: Sys, m: Move)
    requires Inv(s) && Agrees(ms, s) && Enabled(s, m) && Between(m) && Apply(s, m).Some?
    ensures Agrees(ms + [m], Apply(s, m).value)
  {
    hide Enabled, Apply, Registered, Valid, Holds, CallerOk, ProcsOk;
    Extended(ms, m);
    BetweenCalls(s, m);
  }

  lemma ReportAgrees(ms: seq<Move>, s: Sys, m: Move)
    requires Inv(s) && Agrees(ms, s) && Enabled(s, m) && m.Report?
    ensures Apply(s, m).Some? && Agrees(ms + [m], Apply(s, m).value)
  {
    hide Valid, Holds;
    Extended(ms, m);
  }

  lemma ControlAgrees(ms: seq<Move>, s: Sys, m: Move)
    requires Inv(s) && Agrees(ms, s) && Enabled(s, m) && m.Control?
    ensures Apply(s, m).Some? && Agrees(ms + [m], Apply(s, m).value)
  {
    hide Valid, Holds;
    Extended(ms, m);
  }

  lemma RmReportAgrees(ms: seq<Move>, s: Sys, m: Move)
    requires Inv(s) && Agrees(ms, s) && Enabled(s, m) && m.RmReport?
    ensures Apply(s, m).Some? && Agrees(ms + [m], Apply(s, m).value)
  {
    hide Valid, Holds;
    Extended(ms, m);
  }

  lemma ReturnAgrees(ms: seq<Move>, s: Sys)
    requires Inv(s) && Agrees(ms, s) && Enabled(s, Return) && Apply(s, Return).Some?
    ensures Agrees(ms + [Return], Apply(s, Return).value)
  {
    hide Valid, Holds;
    Extended(ms, Return);
  }

  lemma MoveAgrees(ms: seq<Move>, s: Sys, m: Move)
    requires Inv(s) && Agrees(ms, s) && Enabled(s, m) && Apply(s, m).Some?
    ensures Agrees(ms + [m], Apply(s, m).value)
  {
    hide Inv, Agrees, Enabled, Apply;
    if Between(m) {
      BetweenAgrees(ms, s, m);
    } else if m.Report? {
      ReportAgrees(ms, s, m);
    } else if m.Control? {
      ControlAgrees(ms, s, m);
    } else if m.RmReport? {
      RmReportAgrees(ms, s, m);
    } else {
      ReturnAgrees(ms, s);
    }
  }

  /** After any moves from a start, the registry holds the reports made and not removed, each with
      its own callback and id, and besides them only what the call under way will remove. */
  lemma {:induction false} RegistryMeetsMoves(s: Sys, ms: seq<Move>)
    requires Init(s) && After(Try, s, ms).Some?
    ensures Inv(After(Try, s, ms).value) && Agrees(ms, After(Try, s, ms).value)
  {
    hide Inv, Init, Agrees, Enabled, Apply;
    if ms == [] {
      InitIsSafe(s);
      InitAgrees(s);
    } else {
      var first, m := ms[..|ms| - 1], ms[|ms| - 1];
      RegistryMeetsMoves(s, first);
      MoveSafe(After(Try, s, first).value, m);
      MoveAgrees(first, After(Try, s, first).value, m);
      assert first + [m] == ms;
    }
  }

  /** Every reachable state is one that some moves lead to from a start. */
  lemma ReachableByMoves(t: Sys) returns (s: Sys, ms: seq<Move>)
    requires Reachable(t)
    ensures Init(s) && After(Try, s, ms) == Some(t)
  {
    hide Init, Enabled, Apply, After;
    var run :| IsRun(run) && run[|run| - 1] == t;
    s := run[0];
    ms := MovesOf(run);
  }

  lemma {:induction false} MovesOf(run: seq<Sys>) returns (ms: seq<Move>)
    requires IsRun(run)
    ensures After(Try, run[0], ms) == Some(run[|run| - 1])
    decreases |run|
  {
    hide Init, Enabled, Apply;
    ms := [];
    if |run| > 1 {
      var first := MovesOf(run[..|run| - 1]);
      assert Next(run[|run| - 2], run[|run| - 1]);
      var m :| Enabled(run[|run| - 2], m) && Apply(run[|run| - 2], m) == Some(run[|run| - 1]);
      ms := first + [m];
      Extended(first, m);
    }
  }

  lemma InitAgrees(s: Sys)
    requires Init(s)
    ensures Agrees([], s)
  {
  }

  /** Between calls the registry holds exactly the reports made and not removed. */
  lemma IdleHoldsReports(s: Sys, ms: seq<Move>)
    requires Init(s) && After(Try, s, ms).Some? && After(Try, s, ms).value.caller == Idle
    ensures Registered(After(Try, s, ms).value.x.procs) == Reports(ms)
  {
    hide Inv, Init, After;
    RegistryMeetsMoves(s, ms);
  }

  /** At any time an indication of such a report reaches its callback. */
  lemma IndicationReachesReport(s: Sys, ms: seq<Move>, key: nat)
    requires Init(s) && After(Try, s, ms).Some? && key in Reports(ms)
    ensures var procs := After(Try, s, ms).value.x.procs;
            key > 0 && P.Dispatch(procs, key).Some? && P.Dispatch(procs, key).value.0 == Some(Reports(ms)[key].cb)
  {
    hide Init, After, Valid, Holds;
    RegistryMeetsMoves(s, ms);
    assert key in Registered(After(Try, s, ms).value.x.procs);
  }

  // ---------------------------------------------------------------- what can always go on

  /** The moves of the call under way and of its messages. */
  predicate OfTheCall(m: Move) { m.Send? || m.Arm? || m.Park? || m.Serve? || m.Hear? || m.Return? }

  /** How many of them are left. */
  function MovesLeft(c: Caller): (n: nat) {
    match c
    case Idle => 0
    case Busy(_, _, step, token) =>
      1 + (match step
           case Registered => 3
           case SentOut => 2
           case Armed => 1
           case Parked => 0)
        + if token.NotSent? || token.Asking? then 2 else if token.Answering? then 1 else 0
  }

  /** The move a call that is not lost can make, and what it leaves to do. */
  ghost predicate Goes(s: Sys, m: Move) {
    && OfTheCall(m) && Enabled(s, m) && Apply(s, m).Some?
    && var t := Apply(s, m).value;
       && MovesLeft(t.caller) < MovesLeft(s.caller)
       && t.x.connected
       && (t.caller.Busy? ==> t.caller.token != Gone)
  }

  lemma CallerGoes(s: Sys) returns (m: Move)
    requires Inv(s) && s.caller.Busy? && s.caller.token != Gone && s.caller.step != Parked
    ensures Goes(s, m)
  {
    hide ProcsOk;
    match s.caller.step
    case Registered => m := Send;
    case SentOut => m := Arm(s.x.sock + 1);
    case Armed => m := Park;
    case Parked => assert false;
  }

  lemma RequestIsOut(s: Sys)
    requires Inv(s) && s.caller.Busy? && s.caller.token.Asking?
    ensures s.x.connected && CallAsk(s.caller.ev, s.caller.id) in s.out
  {
    hide ProcsOk, Valid, Holds, Replies;
  }

  lemma RequestGoes(s: Sys)
    requires s.caller.Busy? && s.caller.token.Asking? && s.x.connected && CallAsk(s.caller.ev, s.caller.id) in s.out
    ensures Goes(s, Serve(CallAsk(s.caller.ev, s.caller.id)))
  {
    hide ApplyHear, ApplyReturn, ReplyTo;
  }

  lemma AnswerGoes(s: Sys) returns (m: Move)
    requires Inv(s) && s.caller.Busy? && s.caller.step == Parked && s.caller.token.Answering?
    ensures Goes(s, m)
  {
    var r := CallDone(s.caller.ev, s.caller.id.reqId);
    var fd := HoldsOne(s.x, Entry(s.caller.ev, s.caller.id));
    m := Hear(r, fd);
    AnswerIsHeard(s, r, fd);
  }

  lemma AnswerIsHeard(s: Sys, r: Reply, fd: Fd)
    requires Inv(s) && s.caller.Busy? && s.caller.step == Parked && s.caller.token.Answering?
    requires r == CallDone(s.caller.ev, s.caller.id.reqId) && Meets(s.x.pending, s.caller.ev, fd)
    ensures Goes(s, Hear(r, fd))
  {
    hide ProcsOk, Valid, HandleResponse, Meets, Asks;
    HearCallSafe(s, r, fd);
    ResponseSurvives(s.x, r.ev, r.key, fd);
    hide Holds, CallerOk;
  }

  lemma ReturnGoes(s: Sys)
    requires Inv(s) && s.caller.Busy? && s.caller.step == Parked && s.caller.token == Heard
    ensures Goes(s, Return)
  {
    hide Valid, Holds;
  }

  lemma ParkedIsNotSent(s: Sys)
    requires Inv(s) && s.caller.Busy? && s.caller.step == Parked
    ensures s.caller.token != NotSent
  {
  }

  /** Every call can return: from every reachable state in which its request or answer is not lost,
      the moves of the call alone lead to an idle caller. */
  lemma {:induction false} CallCanReturn(s: Sys) returns (ms: seq<Move>)
    requires Inv(s) && s.caller.Busy? && s.caller.token != Gone
    ensures forall m | m in ms :: OfTheCall(m)
    ensures After(Try, s, ms).Some? && After(Try, s, ms).value.caller == Idle && After(Try, s, ms).value.x.connected
    decreases MovesLeft(s.caller)
  {
    hide Inv, Enabled, Apply, After, MovesLeft;
    var m: Move;
    if s.caller.step != Parked {
      m := CallerGoes(s);
    } else if s.caller.token.Asking? {
      m := Serve(CallAsk(s.caller.ev, s.caller.id));
      RequestIsOut(s);
      RequestGoes(s);
    } else if s.caller.token.Answering? {
      m := AnswerGoes(s);
    } else {
      m := Return;
      ParkedIsNotSent(s);
      ReturnGoes(s);
    }
    MoveSafe(s, m);
    AfterOne(Try, s, m);
    var t := Apply(s, m).value;
    if t.caller.Busy? {
      var rest := CallCanReturn(t);
      AfterBoth(Try, s, [m], rest);
      ms := [m] + rest;
    } else {
      ms := [m];
    }
  }

  lemma {:induction false} CallMovesKeepReports(ms: seq<Move>, ns: seq<Move>)
    requires forall m | m in ns :: OfTheCall(m)
    ensures Reports(ms + ns) == Reports(ms)
    decreases |ns|
  {
    if ns == [] {
      assert ms + ns == ms;
    } else {
      CallMovesKeepReports(ms, ns[..|ns| - 1]);
      Extended(ms + ns[..|ns| - 1], ns[|ns| - 1]);
      assert ms + ns == ms + ns[..|ns| - 1] + [ns[|ns| - 1]];
      assert OfTheCall(ns[|ns| - 1]);
    }
  }

  /** A call begun after `ms` can be brought to its return, and then the registry holds the reports
      told from the longer history. */
  lemma BeginsAndReturns(s: Sys, ms: seq<Move>, m: Move) returns (ns: seq<Move>)
    requires Init(s) && After(Try, s, ms).Some? && Enabled(After(Try, s, ms).value, m)
    requires m.Report? || m.RmReport? || m.Control?
    ensures After(Try, s, ms + ns).Some?
    ensures After(Try, s, ms + ns).value.caller == Idle && After(Try, s, ms + ns).value.x.connected
    ensures Registered(After(Try, s, ms + ns).value.x.procs) == Reports(ms + [m])
  {
    hide Init, Inv, Enabled, Apply, Registered, After;
    RegistryMeetsMoves(s, ms);
    MoveSafe(After(Try, s, ms).value, m);
    AfterOne(Try, After(Try, s, ms).value, m);
    AfterBoth(Try, s, ms, [m]);
    RegistryMeetsMoves(s, ms + [m]);
    BegunIsBusy(After(Try, s, ms).value, m);
    var rest := CallCanReturn(After(Try, s, ms + [m]).value);
    AfterBoth(Try, s, ms + [m], rest);
    ns := [m] + rest;
    assert ms + [m] + rest == ms + ns;
    IdleHoldsReports(s, ms + ns);
    CallMovesKeepReports(ms + [m], rest);
  }

  lemma BegunIsBusy(s: Sys, m: Move)
    requires Enabled(s, m) && Apply(s, m).Some? && (m.Report? || m.RmReport? || m.Control?)
    ensures Apply(s, m).value.caller.Busy? && Apply(s, m).value.caller.token == NotSent
  {
  }

  /** From every idle, connected state a report can be made, after which its callback is registered
      beside all others, and then removed, after which the registry is as before. */
  lemma ReportThenRemove(s: Sys, ms: seq<Move>, func: nat, node: NodeId, cb: Option<nat>)
    returns (there: seq<Move>, back: seq<Move>)
    requires Init(s) && After(Try, s, ms).Some? && Enabled(After(Try, s, ms).value, Report(func, node, cb))
    ensures After(Try, s, ms + there).Some? && After(Try, s, ms + there + back).Some?
    ensures var start, reported := After(Try, s, ms).value, After(Try, s, ms + there).value;
            var end := After(Try, s, ms + there + back).value;
            var key := start.x.procs.next;
            && reported.caller == end.caller == Idle
            && Registered(reported.x.procs) ==
               Registered(start.x.procs)[key := P.Proc(P.Subscription, RicId(key, 0, func), node, cb)]
            && Registered(end.x.procs) == Registered(start.x.procs)
  {
    hide Init, Inv, Enabled, Apply, After, Registered, Agrees, Issues;
    var m := Report(func, node, cb);
    RegistryMeetsMoves(s, ms);
    ReportIsNew(ms, After(Try, s, ms).value, m);
    IdleHoldsReports(s, ms);
    there := BeginsAndReturns(s, ms, m);
    Extended(ms, m);
    var key := After(Try, s, ms).value.x.procs.next;
    RegistryMeetsMoves(s, ms + there);
    IdleHoldsReports(s, ms + there);
    RemovalEnabled(After(Try, s, ms + there).value, key);
    back := BeginsAndReturns(s, ms + there, RmReport(key));
    Extended(ms + there, RmReport(key));
  }

  lemma ReportIsNew(ms: seq<Move>, s: Sys, m: Move)
    requires Inv(s) && Agrees(ms, s) && Enabled(s, m) && m.Report?
    ensures s.caller == Idle && Issues(ms + [m]) == s.x.procs.next && s.x.procs.next !in Registered(s.x.procs)
  {
    hide Valid, Holds;
    Extended(ms, m);
  }

  lemma RemovalEnabled(s: Sys, key: nat)
    requires s.caller == Idle && s.x.connected && key in Registered(s.x.procs)
    ensures Enabled(s, RmReport(key))
  {
  }

  /** Every xApp can get connected: from every reachable state of the setup, whatever was lost. */
  lemma {:induction false} SetupCanEnd(s: Sys) returns (ms: seq<Move>)
    requires Inv(s) && s.setup != Heard
    ensures After(Try, s, ms).Some? && After(Try, s, ms).value.x.connected && After(Try, s, ms).value.caller == Idle
    decreases SetupLeft(s.setup)
  {
    hide Inv, After;
    var m := SetupGoes(s);
    hide Enabled, Apply;
    MoveSafe(s, m);
    AfterOne(Try, s, m);
    var t := Apply(s, m).value;
    if t.setup != Heard {
      var rest := SetupCanEnd(t);
      AfterBoth(Try, s, [m], rest);
      ms := [m] + rest;
    } else {
      ms := [m];
    }
  }

  function SetupLeft(g: Token): (n: nat) {
    match g
    case NotSent => 3
    case Gone => 3
    case Asking => 2
    case Answering => 1
    case Heard => 0
  }

  /** A move that brings the setup on. */
  ghost predicate SetsUp(s: Sys, m: Move) {
    && Enabled(s, m) && Apply(s, m).Some?
    && var t := Apply(s, m).value;
       && SetupLeft(t.setup) < SetupLeft(s.setup)
       && (t.setup == Heard ==> t.x.connected && t.caller == Idle)
  }

  lemma SetupGoes(s: Sys) returns (m: Move)
    requires Inv(s) && s.setup != Heard
    ensures SetsUp(s, m)
  {
    hide ProcsOk, Step, SetsUp, Asks, Replies, Inverse;
    match s.setup
    case NotSent =>
      m := Boot(s.x.sock + 1);
      SetupStarts(s);
    case Asking =>
      m := Serve(SetupAsk);
      RequestArrives(s);
    case Gone =>
      var fd := HoldsOne(s.x, SetupEntry());
      m := Resend(fd);
      TimerResends(s, fd);
    case Answering =>
      var fd := HoldsOne(s.x, SetupEntry());
      m := Hear(SetupDone, fd);
      ResponseArrives(s, fd);
    case Heard => assert false;
  }

  lemma SetupStarts(s: Sys)
    requires Inv(s) && s.setup.NotSent?
    ensures SetsUp(s, Boot(s.x.sock + 1))
  {
    hide ProcsOk, Inverse, Asks, Replies;
  }

  lemma RequestArrives(s: Sys)
    requires Inv(s) && s.setup.Asking?
    ensures SetsUp(s, Serve(SetupAsk))
  {
    hide ProcsOk, Valid, Holds, Replies;
  }

  lemma TimerResends(s: Sys, fd: Fd)
    requires s.setup.Gone? && fd in s.x.pending.left && s.x.pending.left[fd] == SetupEntry()
    ensures SetsUp(s, Resend(fd))
  {
  }

  lemma ResponseArrives(s: Sys, fd: Fd)
    requires Inv(s) && s.setup.Answering? && Meets(s.x.pending, SetupPending, fd) && Has(s.x.pending, SetupPending)
    ensures SetsUp(s, Hear(SetupDone, fd))
  {
    hide ProcsOk, HandleSetupAnswer, Holds, Meets, Has, Valid, Asks;
    SetupAnswerSurvives(s.x, fd);
  }
}
