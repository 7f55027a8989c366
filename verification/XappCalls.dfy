/** The xApp as a concurrent system: one thread that makes synchronous calls, the event loop,
    and the RIC behind a network that may lose messages but never duplicates them.  A call
    sends first and registers its timer after; the assumption made for the answer is that it
    is handled after the caller has parked. */
module XappCalls {
  import opened Containers
  import opened E2apTypes
  import opened Xapp
  import P = ActProc
  import W = SyncUi

  /** How far the calling thread has come. */
  datatype Progress = Registered | SentOut | Armed | Parked

  /** Where the request or its answer is: a history variable. */
  datatype Token = NotSent | Asking | Answering | Gone | Heard

  datatype Caller =
    | Idle
    | Busy(ev: Event, id: RicId, step: Progress, token: Token)

  datatype Ask = SetupAsk | CallAsk(ev: Event, id: RicId)

  datatype Reply = SetupDone | CallDone(ev: Event, key: nat)

  function InputOf(r: Reply, pick: Fd): (i: Input) {
    match r
    case SetupDone => SetupAnswer(pick)
    case CallDone(ev, key) => Response(ev, key, pick)
  }

  datatype Sys = Sys(
    x: XState,
    caller: Caller,
    setup: Token,
    out: multiset<Ask>,
    back: multiset<Reply>)

  datatype Move =
    | Boot(timer: Fd)
    | Resend(fd: Fd)
    | Report(func: nat, node: NodeId, cb: Option<nat>)
    | RmReport(key: nat)
    | Control(func: nat, node: NodeId)
    | Send
    | Arm(timer: Fd)
    | Park
    | Serve(ask: Ask)
    | LoseAsk(ask: Ask)
    | LoseReply(reply: Reply)
    | Hear(reply: Reply, pick: Fd)
    | HearIndication(key: nat)
    | Return
    | WaitTimeout

  predicate Active(g: Token) { g.Asking? || g.Answering? || g.Gone? }

  function SetupEntry(): Entry { Entry(SetupPending, RicId(0, 0, 0)) }

  /** The one entry the pending table should hold. */
  function Expected(caller: Caller, setup: Token): (e: Option<Entry>) {
    if Active(setup) then Some(SetupEntry())
    else if caller.Busy? && (caller.step.Armed? || caller.step.Parked?) && caller.token != Heard then
      Some(Entry(caller.ev, caller.id))
    else None
  }

  ghost predicate Holds(m: BiMap<Fd, Entry, Event>, e: Option<Entry>) {
    match e
    case None => m == BiMap(map[], map[])
    case Some(entry) => exists fd: Fd :: m == BiMap(map[fd := entry], map[fd := entry.ev])
  }

  /** The request on its way to the RIC, if any: setup comes before all calls. */
  function Asks(caller: Caller, setup: Token): multiset<Ask> {
    if setup.Asking? then multiset{SetupAsk}
    else if caller.Busy? && caller.token.Asking? then multiset{CallAsk(caller.ev, caller.id)}
    else multiset{}
  }

  function ReplyTo(ask: Ask): Reply {
    match ask
    case SetupAsk => SetupDone
    case CallAsk(ev, id) => CallDone(ev, id.reqId)
  }

  /** The reply on its way back, if any. */
  function Replies(caller: Caller, setup: Token): multiset<Reply> {
    if setup.Answering? then multiset{SetupDone}
    else if caller.Busy? && caller.token.Answering? then multiset{CallDone(caller.ev, caller.id.reqId)}
    else multiset{}
  }

  /** The caller's own procedure is registered, and its steps and its token are in step. */
  ghost predicate CallerOk(x: XState, caller: Caller) {
    caller.Busy? ==>
      && caller.ev != SetupPending
      && x.connected
      && 0 < caller.id.reqId
      && caller.id.reqId in x.procs.table
      && P.Patched(x.procs.table[caller.id.reqId], caller.id.reqId).id == caller.id
      && (caller.token == NotSent <==> caller.step == Registered)
      && (caller.token == Heard ==> caller.step == Parked)
      && (caller.step == Parked ==> (x.signalled <==> caller.token == Heard))
  }

  ghost predicate ProcsOk(p: P.Procs) {
    forall key | key in p.table :: 0 < key < p.next
  }

  ghost predicate Inv(s: Sys) {
    && Valid(s.x)
    && Holds(s.x.pending, Expected(s.caller, s.setup))
    && (s.x.connected <==> s.setup == Heard)
    && CallerOk(s.x, s.caller)
    && ProcsOk(s.x.procs) && 0 < s.x.procs.next
    && s.out == Asks(s.caller, s.setup)
    && s.back == Replies(s.caller, s.setup)
  }

  ghost predicate Init(s: Sys) {
    && s.x.fds == {s.x.sock}
    && s.x.pending == BiMap(map[], map[])
    && !s.x.connected
    && s.x.procs == P.Procs(map[], 1)
    && s.caller == Idle && s.setup == NotSent
    && s.out == multiset{} && s.back == multiset{}
  }

  /** When a move can happen.  The environment's part: descriptors are new, the setup request is
      resent only after the earlier exchange was lost, a removed report is one that is
      registered, ids do not run out, and a reply is handled after the caller has parked.  No
      call's timer fires, so a wait can only time out once that timer has been stopped. */
  ghost predicate Enabled(s: Sys, m: Move) {
    match m
    case Boot(timer) => s.setup == NotSent && timer !in s.x.fds
    case Resend(fd) => s.setup == Gone && fd in s.x.pending.left
    case Report(func, _, _) => s.caller == Idle && s.x.connected && P.ValidFunc(func) && s.x.procs.next < 0x1_0000
    case RmReport(key) => s.caller == Idle && s.x.connected && key in s.x.procs.table
    case Control(func, _) => s.caller == Idle && s.x.connected && P.ValidFunc(func) && s.x.procs.next < 0x1_0000
    case Send => s.caller.Busy? && s.caller.step == Registered
    case Arm(timer) => s.caller.Busy? && s.caller.step == SentOut && timer !in s.x.fds
    case Park => s.caller.Busy? && s.caller.step == Armed
    case Serve(ask) => ask in s.out
    case LoseAsk(ask) => ask in s.out
    case LoseReply(reply) => reply in s.back
    case Hear(reply, pick) =>
      && reply in s.back && PickOk(s.x, InputOf(reply, pick))
      && (reply.CallDone? ==> s.caller.Busy? && s.caller.step == Parked)
    case HearIndication(key) => key > 0
    case Return => s.caller.Busy? && s.caller.step == Parked && s.x.signalled
    case WaitTimeout => s.caller.Busy? && s.caller.step == Parked && !s.x.signalled && s.x.pending.left == map[]
  }

  /** The token of a message's exchange moves on. */
  function Pass(s: Sys, setup: bool, g: Token): Sys {
    if setup then s.(setup := g) else if s.caller.Busy? then s.(caller := s.caller.(token := g)) else s
  }

  function Begin(s: Sys, ev: Event, kind: P.Kind, func: nat, node: NodeId, cb: Option<nat>): (r: Option<Sys>) {
    match P.Issue(s.x.procs, kind, func, node, cb)
    case None => None
    case Some((key, procs)) =>
      Some(s.(x := s.x.(procs := procs), caller := Busy(ev, RicId(key, 0, func), Registered, NotSent)))
  }

  function ApplyBoot(s: Sys, timer: Fd): (t: Sys) {
    s.(x := AddPending(s.x, SetupEntry(), timer), setup := Asking, out := s.out + multiset{SetupAsk})
  }

  function ApplyResend(s: Sys, fd: Fd): (r: Option<Sys>) {
    match Step(s.x, TimerReady(fd))
    case None => None
    case Some(x) => Some(s.(x := x, setup := Asking, out := s.out + multiset{SetupAsk}))
  }

  /** The delete carries the id the lookup gave. */
  function ApplyRmReport(s: Sys, key: nat): (r: Option<Sys>) {
    match P.Look(s.x.procs, key)
    case None => None
    case Some((None, _)) => None
    case Some((Some(proc), procs)) =>
      Some(s.(x := s.x.(procs := procs), caller := Busy(DeletePending, proc.id, Registered, NotSent)))
  }

  function ApplySend(s: Sys): Sys
    requires s.caller.Busy?
  {
    s.(caller := s.caller.(step := SentOut, token := Asking),
       out := s.out + multiset{CallAsk(s.caller.ev, s.caller.id)})
  }

  function ApplyArm(s: Sys, timer: Fd): (t: Sys)
    requires s.caller.Busy?
  {
    s.(x := AddPending(s.x, Entry(s.caller.ev, s.caller.id), timer), caller := s.caller.(step := Armed))
  }

  /** Entering the wait resets the flags. */
  function ApplyPark(s: Sys): Sys
    requires s.caller.Busy?
  {
    s.(x := s.x.(signalled := false), caller := s.caller.(step := Parked))
  }

  function ApplyHear(s: Sys, r: Reply, pick: Fd): (t: Option<Sys>) {
    match Step(s.x, InputOf(r, pick))
    case None => None
    case Some(x) =>
      var t := s.(x := x, back := s.back - multiset{r});
      Some(if r.SetupDone? then t.(setup := Heard) else Pass(t, false, Heard))
  }

  /** The timed wait returns at its deadline. */
  function ApplyWaitTimeout(s: Sys): (t: Option<Sys>) {
    if W.Waits([W.Wakeup(s.x.signalled, W.TimedOut, 0)], 0).Aborted? then None else Some(s)
  }

  /** The caller wakes up; a delete and a control remove their procedure, a report keeps it. */
  function ApplyReturn(s: Sys): (r: Option<Sys>)
    requires s.caller.Busy?
  {
    if s.caller.ev == ReportPending then Some(s.(caller := Idle))
    else
      match P.Remove(s.x.procs, s.caller.id.reqId)
      case None => None
      case Some(procs) => Some(s.(x := s.x.(procs := procs), caller := Idle))
  }

  /** The state after a move, or None when an assertion breaks. */
  ghost function Apply(s: Sys, m: Move): (r: Option<Sys>)
    requires Enabled(s, m)
  {
    match m
    case Boot(timer) => Some(ApplyBoot(s, timer))
    case Resend(fd) => ApplyResend(s, fd)
    case Report(func, node, cb) => Begin(s, ReportPending, P.Subscription, func, node, cb)
    case RmReport(key) => ApplyRmReport(s, key)
    case Control(func, node) => Begin(s, ControlPending, P.ControlProcedure, func, node, None)
    case Send => Some(ApplySend(s))
    case Arm(timer) => Some(ApplyArm(s, timer))
    case Park => Some(ApplyPark(s))
    case Serve(ask) =>
      Some(Pass(s.(out := s.out - multiset{ask}, back := s.back + multiset{ReplyTo(ask)}), ask.SetupAsk?, Answering))
    case LoseAsk(ask) => Some(Pass(s.(out := s.out - multiset{ask}), ask.SetupAsk?, Gone))
    case LoseReply(reply) => Some(Pass(s.(back := s.back - multiset{reply}), reply.SetupDone?, Gone))
    case Hear(reply, pick) => ApplyHear(s, reply, pick)
    case HearIndication(key) =>
      if Step(s.x, IndicationFor(key)).None? then None else Some(s.(x := Step(s.x, IndicationFor(key)).value))
    case Return => ApplyReturn(s)
    case WaitTimeout => ApplyWaitTimeout(s)
  }

  // ------------------------------------------------------------------------------- safety

  /** A table of one entry: the search meets it, and its removal leaves the table empty. */
  lemma HoldsOne(x: XState, e: Entry) returns (fd: Fd)
    requires Holds(x.pending, Some(e))
    ensures x.pending == BiMap(map[fd := e], map[fd := e.ev])
    ensures forall ev :: Has(x.pending, ev) <==> ev == e.ev
    ensures forall pick :: Meets(x.pending, e.ev, pick) <==> pick == fd
    ensures BiMap(x.pending.left - {fd}, x.pending.right - {fd}) == BiMap(map[], map[])
  {
    fd :| x.pending == BiMap(map[fd := e], map[fd := e.ev]);
    assert x.pending.right[fd] == e.ev;
  }

  lemma BootSafe(s: Sys, timer: Fd)
    requires Inv(s) && Enabled(s, Boot(timer))
    ensures Inv(ApplyBoot(s, timer))
  {
    hide Inverse, ProcsOk, Unique;
    AddKeepsValid(s.x, SetupEntry(), timer);
    assert Holds(ApplyBoot(s, timer).x.pending, Some(SetupEntry()));
  }

  lemma ResendSafe(s: Sys, fd: Fd)
    requires Inv(s) && Enabled(s, Resend(fd))
    ensures ApplyResend(s, fd).Some? && Inv(ApplyResend(s, fd).value)
  {
    hide Inverse, ProcsOk;
    var held := HoldsOne(s.x, SetupEntry());
  }

  lemma BeginSafe(s: Sys, ev: Event, kind: P.Kind, func: nat, node: NodeId, cb: Option<nat>)
    requires Inv(s) && s.caller == Idle && s.x.connected && P.ValidFunc(func) && s.x.procs.next < 0x1_0000
    requires ev != SetupPending
    ensures Begin(s, ev, kind, func, node, cb).Some? && Inv(Begin(s, ev, kind, func, node, cb).value)
  {
    hide Inverse, Holds;
  }

  lemma RmReportSafe(s: Sys, key: nat)
    requires Inv(s) && Enabled(s, RmReport(key))
    ensures ApplyRmReport(s, key).Some? && Inv(ApplyRmReport(s, key).value)
  {
    hide Inverse, Holds;
  }

  lemma SendSafe(s: Sys)
    requires Inv(s) && Enabled(s, Send)
    ensures Inv(ApplySend(s))
  {
    hide Inverse, Holds, Valid, ProcsOk;
  }

  lemma ArmSafe(s: Sys, timer: Fd)
    requires Inv(s) && Enabled(s, Arm(timer))
    ensures Inv(ApplyArm(s, timer))
  {
    hide Inverse, ProcsOk, Unique;
    AddKeepsValid(s.x, Entry(s.caller.ev, s.caller.id), timer);
    assert Holds(ApplyArm(s, timer).x.pending, Some(Entry(s.caller.ev, s.caller.id)));
  }

  lemma ParkSafe(s: Sys)
    requires Inv(s) && Enabled(s, Park)
    ensures Inv(ApplyPark(s))
  {
    hide Inverse, Holds, ProcsOk;
  }

  /** The one request on its way. */
  lemma AskIsCallers(s: Sys, ask: Ask)
    requires Inv(s) && ask in s.out
    ensures ask.SetupAsk? ==> s.setup.Asking?
    ensures !ask.SetupAsk? ==> s.caller.Busy? && s.caller.token.Asking? && ask == CallAsk(s.caller.ev, s.caller.id)
  {
    hide Inverse, ProcsOk, Holds, Valid;
  }

  /** A message that moves on or gets lost takes its token along. */
  lemma PassingIsSafe(s: Sys, t: Sys, setup: bool, g: Token)
    requires Inv(s) && (g.Answering? || g.Gone?)
    requires if setup then Active(s.setup) else s.caller.Busy? && Active(s.caller.token)
    requires t == Pass(s, setup, g).(out := Asks(t.caller, t.setup), back := Replies(t.caller, t.setup))
    ensures Inv(t)
  {
    hide Inverse, Holds, Valid, ProcsOk, Asks, Replies;
  }

  lemma ServeSafe(s: Sys, ask: Ask)
    requires Inv(s) && Enabled(s, Serve(ask))
    ensures Inv(Apply(s, Serve(ask)).value)
  {
    hide Inverse, Holds, Valid, ProcsOk;
    AskIsCallers(s, ask);
    PassingIsSafe(s, Apply(s, Serve(ask)).value, ask.SetupAsk?, Answering);
  }

  lemma LoseAskSafe(s: Sys, ask: Ask)
    requires Inv(s) && Enabled(s, LoseAsk(ask))
    ensures Inv(Apply(s, LoseAsk(ask)).value)
  {
    hide Inverse, Holds, Valid, ProcsOk;
    AskIsCallers(s, ask);
    PassingIsSafe(s, Apply(s, LoseAsk(ask)).value, ask.SetupAsk?, Gone);
  }

  lemma LoseReplySafe(s: Sys, reply: Reply)
    requires Inv(s) && Enabled(s, LoseReply(reply))
    ensures Inv(Apply(s, LoseReply(reply)).value)
  {
    hide Inverse, Holds, Valid, ProcsOk;
    ReplyIsCallers(s, reply);
    PassingIsSafe(s, Apply(s, LoseReply(reply)).value, reply.SetupDone?, Gone);
  }

  lemma HearSetupSafe(s: Sys, pick: Fd)
    requires Inv(s) && Enabled(s, Hear(SetupDone, pick))
    ensures ApplyHear(s, SetupDone, pick).Some? && Inv(ApplyHear(s, SetupDone, pick).value)
  {
    hide Inverse, ProcsOk, HandleSetupAnswer, Valid, Meets;
    ReplyIsCallers(s, SetupDone);
    var fd := HoldsOne(s.x, SetupEntry());
    SetupAnswerSurvives(s.x, pick);
  }

  /** The reply to the one outstanding call. */
  lemma ReplyIsCallers(s: Sys, r: Reply)
    requires Inv(s) && r in s.back
    ensures r.SetupDone? ==> s.setup.Answering?
    ensures r.CallDone? ==> s.caller.Busy? && s.caller.token.Answering? && r == CallDone(s.caller.ev, s.caller.id.reqId)
  {
    hide Inverse, ProcsOk, Holds, Valid;
  }

  lemma HearCallSafe(s: Sys, r: Reply, pick: Fd)
    requires Inv(s) && Enabled(s, Hear(r, pick)) && r.CallDone?
    ensures ApplyHear(s, r, pick).Some? && Inv(ApplyHear(s, r, pick).value)
  {
    hide Inverse, RmPending, HandleResponse, Valid, Meets;
    ReplyIsCallers(s, r);
    var fd := HoldsOne(s.x, Entry(s.caller.ev, s.caller.id));
    ResponseSurvives(s.x, r.ev, r.key, pick);
  }

  /** While a reply is handled only after the caller has parked, the wait outlives the call's
      timer only once it has been signalled. */
  lemma NoWaitTimesOut(s: Sys)
    requires Inv(s)
    ensures !Enabled(s, WaitTimeout)
  {
    hide Inverse, ProcsOk, Valid;
    if s.caller.Busy? && s.caller.step == Parked && !s.x.signalled {
      var fd := HoldsOne(s.x, Entry(s.caller.ev, s.caller.id));
      assert fd in s.x.pending.left;
    }
  }

  lemma IndicationSafe(s: Sys, key: nat)
    requires Inv(s) && key > 0
    ensures Step(s.x, IndicationFor(key)).Some? && Inv(s.(x := Step(s.x, IndicationFor(key)).value))
  {
    hide Inverse, Holds;
  }

  lemma ReturnSafe(s: Sys)
    requires Inv(s) && Enabled(s, Return)
    ensures ApplyReturn(s).Some? && Inv(ApplyReturn(s).value)
  {
    hide Inverse, Holds;
    assert s.caller.token == Heard;
  }

  /** No enabled move breaks an assertion, and every one keeps the invariant. */
  lemma MoveSafe(s: Sys, m: Move)
    requires Inv(s) && Enabled(s, m)
    ensures Apply(s, m).Some? && Inv(Apply(s, m).value)
  {
    hide Inv;
    match m
    case Boot(timer) => BootSafe(s, timer);
    case Resend(fd) => ResendSafe(s, fd);
    case Report(func, node, cb) => BeginSafe(s, ReportPending, P.Subscription, func, node, cb);
    case RmReport(key) => RmReportSafe(s, key);
    case Control(func, node) => BeginSafe(s, ControlPending, P.ControlProcedure, func, node, None);
    case Send => SendSafe(s);
    case Arm(timer) => ArmSafe(s, timer);
    case Park => ParkSafe(s);
    case Serve(ask) => ServeSafe(s, ask);
    case LoseAsk(ask) => LoseAskSafe(s, ask);
    case LoseReply(reply) => LoseReplySafe(s, reply);
    case Hear(r, pick) =>
      ReplyIsCallers(s, r);
      if r.SetupDone? {
        HearSetupSafe(s, pick);
      } else {
        HearCallSafe(s, r, pick);
      }
    case HearIndication(key) => IndicationSafe(s, key);
    case Return => ReturnSafe(s);
    case WaitTimeout => NoWaitTimesOut(s);
  }

  // --------------------------------------------------------------------------- whole runs

  ghost predicate Next(s: Sys, t: Sys) {
    exists m :: Enabled(s, m) && Apply(s, m) == Some(t)
  }

  ghost predicate IsRun(run: seq<Sys>) {
    && run != []
    && Init(run[0])
    && forall i | 0 <= i < |run| - 1 :: Next(run[i], run[i + 1])
  }

  ghost predicate Reachable(s: Sys) {
    exists run :: IsRun(run) && run[|run| - 1] == s
  }

  lemma InitIsSafe(s: Sys)
    requires Init(s)
    ensures Inv(s)
  {
  }

  lemma {:induction false} RunIsSafe(run: seq<Sys>)
    requires IsRun(run)
    ensures Inv(run[|run| - 1])
    decreases |run|
  {
    hide Inv, Init, Enabled, Apply;
    if |run| == 1 {
      InitIsSafe(run[0]);
    } else {
      var first := run[..|run| - 1];
      RunIsSafe(first);
      assert Next(run[|run| - 2], run[|run| - 1]);
      var m :| Enabled(run[|run| - 2], m) && Apply(run[|run| - 2], m) == Some(run[|run| - 1]);
      MoveSafe(run[|run| - 2], m);
    }
  }

  lemma ReachableIsSafe(s: Sys)
    requires Reachable(s)
    ensures Inv(s)
  {
    var run :| IsRun(run) && run[|run| - 1] == s;
    RunIsSafe(run);
  }

  /** In no reachable state does an enabled move break an assertion of the source, or the tie
      between pending table and open timers. */
  lemma NoAssertionBreaks(s: Sys, m: Move)
    requires Reachable(s) && Enabled(s, m)
    ensures Apply(s, m).Some? && Valid(Apply(s, m).value.x)
  {
    hide Inv, Enabled, Apply, Valid;
    ReachableIsSafe(s);
    MoveSafe(s, m);
    InvIsValid(Apply(s, m).value);
  }

  lemma InvIsValid(s: Sys)
    requires Inv(s)
    ensures Valid(s.x)
  {
  }

  /** The pending table is a bijection of at most one entry, and it is empty whenever a call can
      return and whenever a connected xApp is idle. */
  lemma PendingStaysSmall(s: Sys)
    requires Reachable(s)
    ensures Inverse(s.x.pending, EntryKey) && |s.x.pending.left| == |s.x.pending.right| <= 1
    ensures s.x.connected && s.caller == Idle ==> s.x.pending == BiMap(map[], map[])
    ensures Enabled(s, Return) ==> s.x.pending == BiMap(map[], map[]) && s.caller.token == Heard
  {
    hide Reachable, ProcsOk, Holds, Inverse;
    ReachableIsSafe(s);
    HoldsFew(s.x.pending, Expected(s.caller, s.setup));
  }

  lemma HoldsFew(m: BiMap<Fd, Entry, Event>, e: Option<Entry>)
    requires Holds(m, e)
    ensures |m.left| == |m.right| <= 1 && Unique(m)
    ensures e.None? ==> m == BiMap(map[], map[])
  {
    if e.Some? {
      var fd: Fd :| m == BiMap(map[fd := e.value], map[fd := e.value.ev]);
      assert m.left.Keys == {fd} && m.right.Keys == {fd};
    }
  }

  /** Every reply removes exactly one entry, and though the right tree compares only kinds it is
      the entry of the outstanding call, with that call's own id. */
  lemma AnswerRemovesOwnEntry(s: Sys, r: Reply, pick: Fd)
    requires Reachable(s) && Enabled(s, Hear(r, pick)) && r.CallDone?
    ensures s.caller.Busy? && r == CallDone(s.caller.ev, s.caller.id.reqId)
    ensures s.x.pending.left == map[pick := Entry(s.caller.ev, s.caller.id)]
    ensures ApplyHear(s, r, pick).Some? && ApplyHear(s, r, pick).value.x.pending == BiMap(map[], map[])
  {
    hide Reachable, Inverse, HandleResponse, Valid, Meets;
    ReachableIsSafe(s);
    ReplyIsCallers(s, r);
    var fd := HoldsOne(s.x, Entry(s.caller.ev, s.caller.id));
    ResponseSurvives(s.x, r.ev, r.key, pick);
  }

  /** Once connected, any pending timer that fires aborts the xApp. */
  lemma CallTimeoutAborts(s: Sys, fd: Fd)
    requires Reachable(s) && fd in s.x.pending.left
    ensures Step(s.x, TimerReady(fd)).None? <==> s.x.connected
  {
    hide Reachable, ProcsOk;
    ReachableIsSafe(s);
    var held := HoldsOne(s.x, Expected(s.caller, s.setup).value);
  }

  // ------------------------------------------------- what the assumption on replies rules out

  /** The caller waits, not signalled, with nothing on its way that could wake it and its timer
      stopped. */
  ghost predicate Stuck(s: Sys) {
    && s.caller.Busy? && s.caller.step == Parked && !s.x.signalled
    && s.caller.token == Heard && s.setup == Heard
    && s.x.pending == BiMap(map[], map[])
    && s.out == multiset{} && s.back == multiset{}
  }

  /** The caller once it is in the wait. */
  function Waiting(s: Sys): (t: Sys)
    requires s.caller.Busy?
  {
    if s.caller.step == Armed then ApplyPark(s) else s
  }

  /** What becomes of a reply that is handled when the caller has come as far as `step`: before
      the timer is armed it finds no entry and aborts; between arming and parking it is forgotten
      when the flags are reset, and the caller is stuck; only from then on can the call return. */
  lemma ReplyHandledAt(s: Sys, r: Reply, pick: Fd)
    requires Reachable(s) && r in s.back && r.CallDone? && PickOk(s.x, InputOf(r, pick))
    ensures s.caller.Busy?
    ensures ApplyHear(s, r, pick).None? <==> s.caller.step == SentOut
    ensures ApplyHear(s, r, pick).Some? ==> ApplyHear(s, r, pick).value.caller.Busy?
    ensures ApplyHear(s, r, pick).Some? ==>
              var t := Waiting(ApplyHear(s, r, pick).value);
              && (Enabled(t, Return) <==> s.caller.step == Parked)
              && (Stuck(t) <==> s.caller.step == Armed)
  {
    hide Reachable, Inverse, HandleResponse, Valid, Meets;
    ReachableIsSafe(s);
    ReplyIsCallers(s, r);
    ResponseSurvives(s.x, r.ev, r.key, pick);
    if s.caller.step != SentOut {
      var fd := HoldsOne(s.x, Entry(s.caller.ev, s.caller.id));
    }
  }

  /** A stuck caller ends in an abort: indications leave it stuck, and all that else can happen is
      that the wait times out, which breaks its assertion. */
  lemma StuckEndsInAbort(s: Sys, m: Move)
    requires Stuck(s)
    ensures Enabled(s, WaitTimeout) && Apply(s, WaitTimeout).None?
    ensures Enabled(s, m) && m != WaitTimeout ==>
              m.HearIndication? && Apply(s, m).Some? && Stuck(Apply(s, m).value)
  {
    W.UnsignalledNeverReturns([W.Wakeup(false, W.TimedOut, 0)], 0);
    assert [W.Wakeup(false, W.TimedOut, 0)][0].rc != W.Ok;
  }

  lemma InitIsReachable(s: Sys)
    requires Init(s)
    ensures Reachable(s)
  {
    assert IsRun([s]);
  }

  lemma MoveReaches(s: Sys, m: Move)
    requires Reachable(s) && Enabled(s, m)
    ensures Apply(s, m).Some? && Reachable(Apply(s, m).value)
  {
    hide Inv, Init, Enabled, Apply;
    NoAssertionBreaks(s, m);
    var run :| IsRun(run) && run[|run| - 1] == s;
    var longer := run + [Apply(s, m).value];
    forall i | 0 <= i < |longer| - 1
      ensures Next(longer[i], longer[i + 1])
    {
      if i < |run| - 1 {
        assert Next(run[i], run[i + 1]);
      } else {
        assert longer[i] == s;
      }
    }
    assert IsRun(longer);
  }

  /** From every start both bad moments are reached: a reply in flight before the caller has armed
      its timer, and one before it has parked. */
  lemma EarlyRepliesHappen(s: Sys, f1: Fd, f2: Fd, node: NodeId) returns (sent: Sys, armed: Sys)
    requires Init(s) && f1 != s.x.sock && f2 != s.x.sock
    ensures Reachable(sent) && sent.caller.Busy? && sent.caller.step == SentOut && sent.back != multiset{}
    ensures Reachable(armed) && armed.caller.Busy? && armed.caller.step == Armed && armed.back != multiset{}
  {
    InitIsReachable(s);
    var s3 := Connects(s, f1);
    sent := Sends(s3, node);
    armed := ApplyArm(sent, f2);
    MoveReaches(sent, Arm(f2));
  }

  lemma Connects(s: Sys, f1: Fd) returns (t: Sys)
    requires Reachable(s) && Init(s) && f1 != s.x.sock
    ensures Reachable(t) && t.caller == Idle && t.x.connected && t.x.fds == {s.x.sock} && t.x.procs.next == 1
    ensures t.out == multiset{} && t.back == multiset{} && t.setup == Heard
  {
    var s1 := ApplyBoot(s, f1);
    MoveReaches(s, Boot(f1));
    var s2 := Apply(s1, Serve(SetupAsk)).value;
    MoveReaches(s1, Serve(SetupAsk));
    hide Reachable;
    assert s2.back == multiset{SetupDone} && s2.x == s1.x;
    assert s1.x.pending == BiMap(map[f1 := SetupEntry()], map[f1 := SetupPending]);
    MoveReaches(s2, Hear(SetupDone, f1));
    t := Apply(s2, Hear(SetupDone, f1)).value;
  }

  lemma Sends(s: Sys, node: NodeId) returns (t: Sys)
    requires Reachable(s) && s.caller == Idle && s.x.connected && s.x.procs.next == 1
    requires s.out == multiset{} && s.back == multiset{} && s.setup == Heard
    ensures Reachable(t) && t.caller.Busy? && t.caller.step == SentOut && t.back != multiset{} && t.x.fds == s.x.fds
  {
    hide Reachable;
    MoveReaches(s, Move.Control(142, node));
    var s1 := Apply(s, Move.Control(142, node)).value;
    MoveReaches(s1, Send);
    var s2 := Apply(s1, Send).value;
    var ask := CallAsk(s2.caller.ev, s2.caller.id);
    assert ask in s2.out;
    MoveReaches(s2, Serve(ask));
    t := Apply(s2, Serve(ask)).value;
    assert ReplyTo(ask) in t.back;
  }
}
