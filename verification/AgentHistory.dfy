/** What an agent's timers are for, and every message it sends, told from the script of what its
    event loop was given. */
module AgentHistory {
  import opened Containers
  import opened E2apTypes
  import opened E2Agent

  datatype Purpose = Reporting(ev: IndEvent) | SettingUp

  /** The timer an arrival opens at its descriptor. */
  function Opens(e: Arrival): (p: Option<Purpose>) {
    match e
    case Payload(Request(Subscribe, id, action), _, _) => Some(Reporting(IndEvent(id, action)))
    case Shutdown(_) => Some(SettingUp)
    case _ => None
  }

  /** Whether an arrival stops the timer its search meets. */
  predicate Stops(e: Arrival) {
    e.Payload? && (e.msg.SetupResponse? || (e.msg.Request? && e.msg.op == Delete))
  }

  /** What the timer at a descriptor is for: it was opened for that and not stopped since. */
  function Owner(script: seq<Arrival>, fd: Fd): (p: Option<Purpose>) {
    if script == [] then None
    else
      var first, e := script[..|script| - 1], script[|script| - 1];
      if Opens(e).Some? && e.timer == fd then Opens(e)
      else if Stops(e) && e.pick == fd then None
      else Owner(first, fd)
  }

  /** What an agent says on an arrival: each request is answered, and each timer that fires speaks
      for what it was opened for. */
  function Says(self: NodeId, script: seq<Arrival>, e: Arrival): (sent: seq<Message>) {
    match e
    case Payload(Request(op, id, action), _, _) => [Answer(op, id, if op == Subscribe then action else 0)]
    case TimerReady(fd) =>
      (match Owner(script, fd)
       case None => []
       case Some(Reporting(ev)) => [Indication(ev.id, ev.action)]
       case Some(SettingUp) => [SetupRequest(self)])
    case _ => []
  }

  function Said(self: NodeId, script: seq<Arrival>): (sent: seq<Message>) {
    if script == [] then []
    else Said(self, script[..|script| - 1]) + Says(self, script[..|script| - 1], script[|script| - 1])
  }

  // ----------------------------------------------------------------------------- the law

  function TimerAt(a: AgentState, fd: Fd): (p: Option<Purpose>) {
    if fd in a.ind.left then Some(Reporting(a.ind.left[fd]))
    else if fd in a.setup.left then Some(SettingUp)
    else None
  }

  ghost predicate OwnersAgree(script: seq<Arrival>, a: AgentState) {
    forall fd: Fd :: TimerAt(a, fd) == Owner(script, fd)
  }

  lemma OwnerStep(script: seq<Arrival>, e: Arrival, fd: Fd)
    ensures Owner(script + [e], fd) ==
            if Opens(e).Some? && e.timer == fd then Opens(e)
            else if Stops(e) && e.pick == fd then None
            else Owner(script, fd)
  {
    assert (script + [e])[..|script|] == script;
  }

  /** One survived arrival opens and stops the timers it should, and no other. */
  lemma TimersMove(a: AgentState, e: Arrival, fd: Fd)
    requires Valid(a) && Feasible(a, e) && Step(a, e).Some?
    ensures TimerAt(Step(a, e).value.0, fd) ==
            if Opens(e).Some? && e.timer == fd then Opens(e)
            else if Stops(e) && e.pick == fd then None
            else TimerAt(a, fd)
  {
    hide Meets, Valid, Step, TimerAt, HandleMessage, ArmSetup;
    match e
    case Nothing => IdleSurvives(a);
    case TimerReady(t) => TimerSurvives(a, t);
    case Shutdown(timer) =>
      ShutdownSurvives(a, timer);
      SetupTimerOpens(a, timer, fd);
    case Payload(m, timer, pick) =>
      PayloadIsHandled(a, m, timer, pick);
      if m.SetupResponse? {
        SetupTimerStops(a, timer, pick, fd);
      } else {
        RequestTimers(a, e, fd);
      }
  }

  lemma SetupTimerOpens(a: AgentState, timer: Fd, fd: Fd)
    requires Valid(a) && timer !in a.fds
    ensures TimerAt(ArmSetup(a, timer), fd) == if fd == timer then Some(SettingUp) else TimerAt(a, fd)
  {
    hide Inverse;
  }

  lemma SetupTimerStops(a: AgentState, timer: Fd, pick: Fd, fd: Fd)
    requires Valid(a) && Meets(a.setup, SetupRequestPending, pick)
    requires HandleMessage(a, SetupResponse, timer, pick).Some?
    ensures TimerAt(HandleMessage(a, SetupResponse, timer, pick).value.0, fd) == if fd == pick then None else TimerAt(a, fd)
  {
    ExtractKeepsInverse(a.setup, SetupKey, SetupRequestPending, pick);
    hide Inverse, Meets, Has;
  }

  lemma RequestTimers(a: AgentState, e: Arrival, fd: Fd)
    requires Valid(a) && Feasible(a, e) && e.Payload? && !e.msg.SetupResponse?
    requires HandleMessage(a, e.msg, e.timer, e.pick).Some?
    ensures TimerAt(HandleMessage(a, e.msg, e.timer, e.pick).value.0, fd) ==
            if Opens(e).Some? && e.timer == fd then Opens(e)
            else if Stops(e) && e.pick == fd then None
            else TimerAt(a, fd)
  {
    match e.msg.op
    case Subscribe => SubscriptionTimerOpens(a, IndEvent(e.msg.id, e.msg.action), e.timer, fd);
    case Delete =>
      hide Valid;
      StopIndKeepsValid(a, e.msg.id, e.pick);
      SubscriptionTimerStops(a, e.pick, fd);
      hide StopInd, TimerAt;
    case Control =>
  }

  lemma SubscriptionTimerOpens(a: AgentState, ev: IndEvent, timer: Fd, fd: Fd)
    ensures TimerAt(Subscribed(a, ev, timer), fd) == if fd == timer then Some(Reporting(ev)) else TimerAt(a, fd)
  {
  }

  lemma SubscriptionTimerStops(a: AgentState, pick: Fd, fd: Fd)
    requires Valid(a) && pick in a.ind.right
    ensures var b := a.(fds := a.fds - {pick}, ind := BiMap(a.ind.left - {pick}, a.ind.right - {pick}));
            TimerAt(b, fd) == if fd == pick then None else TimerAt(a, fd)
  {
  }

  /** Whatever the script: a valid agent's open timers are those the script opened and has not
      stopped, each for what it was opened for. */
  lemma {:induction false} TimersMeetScript(self: NodeId, sock: Fd, script: seq<Arrival>)
    requires Run(Start(self, sock), script).Some? && FeasibleScript(Start(self, sock), script)
    ensures OwnersAgree(script, Run(Start(self, sock), script).value.0)
  {
    hide Step, Feasible, Valid, TimerAt, Owner;
    if script == [] {
      NoTimers(self, sock);
    } else {
      var first, e := script[..|script| - 1], script[|script| - 1];
      FeasiblePrefix(Start(self, sock), script);
      TimersMeetScript(self, sock, first);
      TableMeetsScript(self, sock, first, RicId(0, 0, 0));
      var a := Run(Start(self, sock), first).value.0;
      assert first + [e] == script;
      forall fd: Fd
        ensures TimerAt(Step(a, e).value.0, fd) == Owner(script, fd)
      {
        TimersMove(a, e, fd);
        OwnerStep(first, e, fd);
      }
    }
  }

  lemma NoTimers(self: NodeId, sock: Fd)
    ensures OwnersAgree([], Start(self, sock))
  {
  }

  /** What is sent on one arrival. */
  lemma StepSays(script: seq<Arrival>, a: AgentState, e: Arrival)
    requires Valid(a) && OwnersAgree(script, a) && Step(a, e).Some?
    ensures Step(a, e).value.1 == Says(a.self, script, e)
  {
    hide Inverse, Owner, StopInd, StopSetup;
    match e
    case Nothing => IdleSurvives(a);
    case TimerReady(fd) => assert TimerAt(a, fd) == Owner(script, fd);
    case Shutdown(timer) => ShutdownSurvives(a, timer);
    case Payload(m, timer, pick) => PayloadIsHandled(a, m, timer, pick);
  }

  /** The messages sent over any script are, in order, the answers to its requests, the
      indications of the subscriptions whose timers fired, and the setup requests repeated. */
  lemma {:induction false} SentMeetsScript(self: NodeId, sock: Fd, script: seq<Arrival>)
    requires Run(Start(self, sock), script).Some? && FeasibleScript(Start(self, sock), script)
    ensures Run(Start(self, sock), script).value.1 == Said(self, script)
  {
    hide Step, Feasible, Valid, Says, OwnersAgree, Under;
    if script != [] {
      var first, e := script[..|script| - 1], script[|script| - 1];
      FeasiblePrefix(Start(self, sock), script);
      SentMeetsScript(self, sock, first);
      TimersMeetScript(self, sock, first);
      TableMeetsScript(self, sock, first, RicId(0, 0, 0));
      StepSays(first, Run(Start(self, sock), first).value.0, e);
    }
  }

  /** The answers among some messages. */
  function Answers(sent: seq<Message>): (r: seq<Message>) {
    if sent == [] then []
    else Answers(sent[..|sent| - 1]) + if sent[|sent| - 1].Answer? then [sent[|sent| - 1]] else []
  }

  /** The answer an arrival asks for. */
  function Asks(e: Arrival): (r: seq<Message>) {
    match e
    case Payload(Request(op, id, action), _, _) => [Answer(op, id, if op == Subscribe then action else 0)]
    case _ => []
  }

  /** What the requests of a script ask to be answered. */
  function Due(script: seq<Arrival>): (r: seq<Message>) {
    if script == [] then [] else Due(script[..|script| - 1]) + Asks(script[|script| - 1])
  }

  lemma SaysWhatIsAsked(self: NodeId, script: seq<Arrival>, e: Arrival)
    ensures |Says(self, script, e)| <= 1 && Answers(Says(self, script, e)) == Asks(e)
  {
    hide Owner;
    assert forall m: Message :: [m][..0] == [];
  }

  lemma AnswersStep(sent: seq<Message>, more: seq<Message>)
    requires |more| <= 1
    ensures Answers(sent + more) == Answers(sent) + Answers(more)
  {
    if |more| == 1 {
      assert sent + more == sent + [more[0]] && (sent + [more[0]])[..|sent|] == sent;
      assert more[..0] == [];
    } else {
      assert sent + more == sent;
    }
  }

  /** One answer to each request, in the order of the requests. */
  lemma {:induction false} AnswersMeetRequests(self: NodeId, script: seq<Arrival>)
    ensures Answers(Said(self, script)) == Due(script)
  {
    if script != [] {
      var first, e := script[..|script| - 1], script[|script| - 1];
      AnswersMeetRequests(self, first);
      SaysWhatIsAsked(self, first, e);
      hide Says, Answers, Asks;
      AnswersStep(Said(self, first), Says(self, first, e));
    }
  }

  /** A script may be cut anywhere: the rest goes on from the state reached, and its messages
      come after those sent so far. */
  lemma {:induction false} RunSplits(a: AgentState, s: seq<Arrival>, t: seq<Arrival>)
    ensures Run(a, s + t).Some? <==> Run(a, s).Some? && Run(Run(a, s).value.0, t).Some?
    ensures Run(a, s + t).Some? ==>
              var (b, sent) := Run(a, s).value;
              Run(a, s + t).value == (Run(b, t).value.0, sent + Run(b, t).value.1)
    decreases |t|
  {
    hide Step;
    if t == [] {
      assert s + t == s;
      assert Run(a, s).Some? ==> Run(a, s).value.1 + [] == Run(a, s).value.1;
    } else {
      var first := t[..|t| - 1];
      RunSplits(a, s, first);
      assert (s + t)[..|s + t| - 1] == s + first && (s + t)[|s + t| - 1] == t[|t| - 1];
      if Run(a, s + t).Some? {
        var (b, sent) := Run(a, s).value;
        var (c, some) := Run(b, first).value;
        var more := Step(c, t[|t| - 1]).value.1;
        assert sent + some + more == sent + (some + more);
      }
    }
  }
}
