/** The RIC's whole state, and every message it sends, told from the history of what its threads
    issued and its event loop heard. */
module RicHistory {
  import opened Containers
  import opened E2apTypes
  import opened RequestIds
  import N = NodeTables
  import opened NearRic

  function Start(sock: Fd): RicState { RicState(sock, {sock}, FIRST, BiMap(map[], map[]), N.EMPTY) }

  /** The state and the messages sent after a whole history, or None once an assertion broke. */
  function Run(s: RicState, h: seq<Act>): (r: Option<(RicState, seq<Sent>)>) {
    if h == [] then Some((s, []))
    else
      match Run(s, h[..|h| - 1])
      case None => None
      case Some((t, sent)) =>
        match Do(t, h[|h| - 1])
        case None => None
        case Some((u, more)) => Some((u, sent + more))
  }

  /** The kernel hands out descriptors that are not open, and searches meet what they look for. */
  ghost predicate Feasible(s: RicState, act: Act) {
    match act
    case Issuing(_, _, _, _, timer) => timer !in s.fds
    case Deleting(_, _, timer) => timer !in s.fds
    case Hearing(a) => PickOk(s, a)
  }

  ghost predicate FeasibleHistory(s: RicState, h: seq<Act>) {
    forall i | 0 <= i < |h| && Run(s, h[..i]).Some? :: Feasible(Run(s, h[..i]).value.0, h[i])
  }

  // ------------------------------------------------------------------ told from the history

  /** How many ids were taken. */
  function Allocs(h: seq<Act>): (n: nat) {
    if h == [] then 0 else Allocs(h[..|h| - 1]) + if h[|h| - 1].Issuing? then 1 else 0
  }

  /** The request an act launches after `h`: the id is that of its allocation number. */
  function Launched(h: seq<Act>, act: Act): (e: Option<(NodeId, PendingEvent)>) {
    match act
    case Issuing(node, op, func, forwarded, _) =>
      Some((node, PendingEvent(op, RicId(IdOf(Counter(Allocs(h)), forwarded), 0, func))))
    case Deleting(node, id, _) => Some((node, PendingEvent(Delete, id)))
    case Hearing(_) => None
  }

  /** The request that an act answers. */
  function Answered(act: Act): (e: Option<PendingEvent>) {
    match act
    case Hearing(Payload(_, Answer(op, id, _), _)) => Some(PendingEvent(op, id))
    case _ => None
  }

  /** How often a request was launched and not answered. */
  function Outstanding(h: seq<Act>, ev: PendingEvent): (n: int) {
    if h == [] then 0
    else
      var first, act := h[..|h| - 1], h[|h| - 1];
      Outstanding(first, ev)
      + (if Launched(first, act).Some? && Launched(first, act).value.1 == ev then 1 else 0)
      - (if Answered(act) == Some(ev) then 1 else 0)
  }

  /** What the timer at a descriptor waits for: it was opened for that and not stopped since. */
  function Owner(h: seq<Act>, fd: Fd): (e: Option<PendingEvent>) {
    if h == [] then None
    else
      var first, act := h[..|h| - 1], h[|h| - 1];
      match act
      case Hearing(Payload(_, Answer(_, _, _), pick)) => if pick == fd then None else Owner(first, fd)
      case Hearing(_) => Owner(first, fd)
      case Issuing(_, _, _, _, timer) => if timer == fd then Some(Launched(first, act).value.1) else Owner(first, fd)
      case Deleting(_, _, timer) => if timer == fd then Some(Launched(first, act).value.1) else Owner(first, fd)
  }

  /** What an act tells of the nodes. */
  function NodeEvent(act: Act): (es: seq<N.Event>) {
    match act
    case Hearing(Payload(src, SetupRequest(node), _)) => [N.Up(node, src)]
    case Hearing(Shutdown(src, node)) => [N.Down(src, node)]
    case _ => []
  }

  function NodeEvents(h: seq<Act>): (es: seq<N.Event>) {
    if h == [] then [] else NodeEvents(h[..|h| - 1]) + NodeEvent(h[|h| - 1])
  }

  /** What the RIC says on an act: a request to where its node was last set up, or the response to
      where a setup request came from. */
  ghost function Says(h: seq<Act>, act: Act): (sent: seq<Sent>) {
    match act
    case Hearing(Payload(src, SetupRequest(_), _)) => [Sent(src, SetupResponse)]
    case Hearing(_) => []
    case _ =>
      var (node, ev) := Launched(h, act).value;
      match N.Expected(NodeEvents(h), node)
      case None => []
      case Some(dest) => [Sent(dest, Request(ev.op, ev.id, 0))]
  }

  ghost function Said(h: seq<Act>): (sent: seq<Sent>) {
    if h == [] then [] else Said(h[..|h| - 1]) + Says(h[..|h| - 1], h[|h| - 1])
  }

  // ----------------------------------------------------------------------------- the law

  function TimerAt(s: RicState, fd: Fd): Option<PendingEvent> {
    if fd in s.pending.left then Some(s.pending.left[fd]) else None
  }

  ghost predicate OwnersAgree(h: seq<Act>, s: RicState) {
    forall fd: Fd :: TimerAt(s, fd) == Owner(h, fd)
  }

  ghost predicate CountsAgree(h: seq<Act>, s: RicState) {
    forall ev :: |Under(s.pending, ev)| == Outstanding(h, ev)
  }

  ghost predicate Agrees(h: seq<Act>, s: RicState) {
    && Valid(s)
    && s.counter == Counter(Allocs(h))
    && OwnersAgree(h, s)
    && CountsAgree(h, s)
    && N.Replay(NodeEvents(h)) == Some(s.tables)
  }

  lemma OwnerStep(h: seq<Act>, act: Act, fd: Fd)
    ensures Owner(h + [act], fd) ==
            if !act.Hearing? then (if act.timer == fd then Some(Launched(h, act).value.1) else Owner(h, fd))
            else if Answered(act).Some? && act.arrival.pick == fd then None
            else Owner(h, fd)
  {
    Extended(h, act);
  }

  lemma OutstandingStep(h: seq<Act>, act: Act, ev: PendingEvent)
    ensures Outstanding(h + [act], ev) ==
            Outstanding(h, ev)
            + (if Launched(h, act).Some? && Launched(h, act).value.1 == ev then 1 else 0)
            - (if Answered(act) == Some(ev) then 1 else 0)
  {
    Extended(h, act);
  }

  lemma Extended(h: seq<Act>, act: Act)
    ensures (h + [act])[..|h + [act]| - 1] == h && (h + [act])[|h + [act]| - 1] == act
    ensures NodeEvents(h + [act]) == NodeEvents(h) + NodeEvent(act)
    ensures Allocs(h + [act]) == Allocs(h) + if act.Issuing? then 1 else 0
  {
  }

  /** A launch opens its own timer and counts once. */
  lemma LaunchAgrees(h: seq<Act>, s: RicState, act: Act)
    requires Agrees(h, s) && !act.Hearing? && act.timer !in s.fds
    ensures Agrees(h + [act], Arm(s.(counter := Counter(Allocs(h + [act]))), Launched(h, act).value.1, act.timer))
  {
    hide Inverse, N.Consistent, Under, N.Replay, Counter, OwnersAgree, CountsAgree;
    var ev := Launched(h, act).value.1;
    var b := s.(counter := Counter(Allocs(h + [act])));
    Extended(h, act);
    ArmKeepsValid(b, ev, act.timer);
    ArmOwns(h, s, b, act);
    ArmCounts(h, s, b, act);
    assert NodeEvents(h) + [] == NodeEvents(h);
  }

  lemma ArmOwns(h: seq<Act>, s: RicState, b: RicState, act: Act)
    requires OwnersAgree(h, s) && !act.Hearing? && b.pending == s.pending
    ensures OwnersAgree(h + [act], Arm(b, Launched(h, act).value.1, act.timer))
  {
    forall fd: Fd
      ensures TimerAt(Arm(b, Launched(h, act).value.1, act.timer), fd) == Owner(h + [act], fd)
    {
      OwnerStep(h, act, fd);
    }
  }

  lemma ArmCounts(h: seq<Act>, s: RicState, b: RicState, act: Act)
    requires Inverse(s.pending, PendingKey) && CountsAgree(h, s) && b.pending == s.pending
    requires !act.Hearing? && act.timer !in s.pending.left
    ensures CountsAgree(h + [act], Arm(b, Launched(h, act).value.1, act.timer))
  {
    hide Inverse, Under, Insert;
    var ev := Launched(h, act).value.1;
    forall e
      ensures |Under(Arm(b, ev, act.timer).pending, e)| == Outstanding(h + [act], e)
    {
      InsertCounts(s.pending, PendingKey, act.timer, ev, e);
      OutstandingStep(h, act, e);
    }
  }

  /** An answer stops one timer of its request, the one the search meets. */
  lemma AnswerAgrees(h: seq<Act>, s: RicState, act: Act)
    requires Agrees(h, s) && Answered(act).Some?
    requires PickOk(s, act.arrival) && StopPending(s, Answered(act).value, act.arrival.pick).Some?
    ensures Agrees(h + [act], StopPending(s, Answered(act).value, act.arrival.pick).value)
  {
    hide Inverse, N.Consistent, N.Replay, Has, StopPending, Counter, Owner, Outstanding, Under;
    Extended(h, act);
    var ev, pick := Answered(act).value, act.arrival.pick;
    StopKeepsValid(s, ev, pick);
    var t := StopPending(s, ev, pick).value;
    hide Valid;
    forall e
      ensures |Under(t.pending, e)| == Outstanding(h + [act], e)
    {
      ExtractCounts(s.pending, ev, pick, s.pending.left - {pick}, e);
      OutstandingStep(h, act, e);
    }
    forall fd: Fd
      ensures TimerAt(t, fd) == Owner(h + [act], fd)
    {
      OwnerStep(h, act, fd);
    }
    assert NodeEvents(h) + [] == NodeEvents(h);
  }

  /** Whatever else is heard leaves the timers alone. */
  lemma OthersAgree(h: seq<Act>, s: RicState, act: Act, t: RicState)
    requires Agrees(h, s) && act.Hearing? && Answered(act).None?
    requires Valid(t) && t == s.(tables := t.tables)
    requires N.Replay(NodeEvents(h + [act])) == Some(t.tables)
    ensures Agrees(h + [act], t)
  {
    hide N.Replay, Valid, Counter, Owner, Outstanding, Under;
    Extended(h, act);
    forall e
      ensures |Under(t.pending, e)| == Outstanding(h + [act], e)
    {
      OutstandingStep(h, act, e);
    }
    forall fd: Fd
      ensures TimerAt(t, fd) == Owner(h + [act], fd)
    {
      OwnerStep(h, act, fd);
    }
  }

  lemma NodesReplay(h: seq<Act>, s: RicState, act: Act)
    requires N.Replay(NodeEvents(h)) == Some(s.tables)
    ensures NodeEvent(act) == [] ==> N.Replay(NodeEvents(h + [act])) == Some(s.tables)
    ensures NodeEvent(act) != [] ==> N.Replay(NodeEvents(h + [act])) == N.Handle(s.tables, NodeEvent(act)[0])
  {
    hide N.Replay, N.Handle;
    Extended(h, act);
    if NodeEvent(act) == [] {
      assert NodeEvents(h) + [] == NodeEvents(h);
    } else {
      assert NodeEvent(act) == [NodeEvent(act)[0]];
      N.ReplayStep(NodeEvents(h), NodeEvent(act)[0]);
    }
  }

  lemma HearingAgrees(h: seq<Act>, s: RicState, act: Act)
    requires Agrees(h, s) && act.Hearing? && PickOk(s, act.arrival) && Step(s, act.arrival).Some?
    ensures Agrees(h + [act], Step(s, act.arrival).value.0)
  {
    hide Inverse, N.Consistent, OwnersAgree, CountsAgree, N.Replay, StopPending, N.SetUp, N.ShutDown, Meets, Counter;
    var a := act.arrival;
    StepSurvives(s, a);
    NodesReplay(h, s, act);
    match a
    case Nothing => OthersAgree(h, s, act, s);
    case TimerReady(_) => OthersAgree(h, s, act, s);
    case Shutdown(_, _) => OthersAgree(h, s, act, Step(s, a).value.0);
    case Payload(src, m, pick) =>
      PayloadIsHandled(s, src, m, pick);
      if m.Answer? {
        AnswerAgrees(h, s, act);
      } else {
        OthersAgree(h, s, act, Step(s, a).value.0);
      }
  }

  lemma DoAgrees(h: seq<Act>, s: RicState, act: Act)
    requires Agrees(h, s) && Feasible(s, act) && Do(s, act).Some?
    ensures Agrees(h + [act], Do(s, act).value.0)
  {
    hide Agrees, Arm, Step, PickOk;
    CounterAgrees(h, s, act);
    if act.Hearing? {
      HearingAgrees(h, s, act);
    } else {
      LaunchAgrees(h, s, act);
    }
  }

  lemma CounterAgrees(h: seq<Act>, s: RicState, act: Act)
    requires Agrees(h, s)
    ensures s.counter == Counter(Allocs(h))
    ensures Counter(Allocs(h + [act])) == if act.Issuing? then Next(s.counter) else s.counter
  {
    hide Valid, OwnersAgree, CountsAgree, N.Replay;
    Extended(h, act);
  }

  /** After any history the RIC survives: the counter is that of the ids taken, each open timer
      waits for what it was last opened for, each request has as many timers as the history leaves
      it outstanding, and the node records are those of its setups and shutdowns. */
  lemma {:induction false} StateMeetsHistory(sock: Fd, h: seq<Act>)
    requires Run(Start(sock), h).Some? && FeasibleHistory(Start(sock), h)
    ensures Agrees(h, Run(Start(sock), h).value.0)
  {
    hide Agrees, Do, Feasible;
    if h == [] {
      StartAgrees(sock);
    } else {
      var first := h[..|h| - 1];
      FeasiblePrefix(Start(sock), h);
      StateMeetsHistory(sock, first);
      DoAgrees(first, Run(Start(sock), first).value.0, h[|h| - 1]);
      assert first + [h[|h| - 1]] == h;
    }
  }

  lemma StartAgrees(sock: Fd)
    ensures Agrees([], Start(sock))
  {
    forall ev
      ensures |Under(Start(sock).pending, ev)| == Outstanding([], ev)
    {
      assert Under(Start(sock).pending, ev) == {};
    }
  }

  lemma FeasiblePrefix(s: RicState, h: seq<Act>)
    requires h != [] && FeasibleHistory(s, h)
    ensures FeasibleHistory(s, h[..|h| - 1])
    ensures Run(s, h[..|h| - 1]).Some? ==> Feasible(Run(s, h[..|h| - 1]).value.0, h[|h| - 1])
  {
    hide Feasible;
    var first := h[..|h| - 1];
    forall i | 0 <= i < |first| && Run(s, first[..i]).Some?
      ensures Feasible(Run(s, first[..i]).value.0, first[i])
    {
      assert first[..i] == h[..i];
    }
  }

  /** The messages sent are, in order, the requests, each to the address of its node's latest
      setup, and the responses, each to where its setup request came from. */
  lemma {:induction false} SentMeetsHistory(sock: Fd, h: seq<Act>)
    requires Run(Start(sock), h).Some? && FeasibleHistory(Start(sock), h)
    ensures Run(Start(sock), h).value.1 == Said(h)
  {
    hide Agrees, Do, Feasible, Says;
    if h != [] {
      var first := h[..|h| - 1];
      FeasiblePrefix(Start(sock), h);
      SentMeetsHistory(sock, first);
      StateMeetsHistory(sock, first);
      DoSays(first, Run(Start(sock), first).value.0, h[|h| - 1]);
    }
  }

  lemma DoSays(h: seq<Act>, s: RicState, act: Act)
    requires Agrees(h, s) && Do(s, act).Some?
    ensures Do(s, act).value.1 == Says(h, act)
  {
    hide OwnersAgree, CountsAgree, Valid, Arm;
    N.ReplayMeetsHistory(NodeEvents(h));
    if act.Hearing? {
      hide N.Replay;
    } else {
      hide Step;
    }
  }

  /** What the RIC survives, told from the history: a launch to a node that is set up, an answer to
      an outstanding request, a setup of a node that is not, a shutdown of an address where some
      node is, and the expiry of the only timer open. */
  ghost predicate Welcome(sock: Fd, h: seq<Act>, act: Act) {
    match act
    case Issuing(node, _, _, _, _) => N.Expected(NodeEvents(h), node).Some?
    case Deleting(node, _, _) => N.Expected(NodeEvents(h), node).Some?
    case Hearing(Nothing) => true
    case Hearing(TimerReady(fd)) => fd == sock || OnlyTimer(h, fd)
    case Hearing(Shutdown(src, _)) => exists n :: N.Expected(NodeEvents(h), n) == Some(src)
    case Hearing(Payload(_, m, _)) =>
      match m
      case Answer(op, id, action) => Outstanding(h, PendingEvent(op, id)) > 0 && (op == Subscribe ==> action == 0)
      case Indication(_, _) => true
      case SetupRequest(node) => N.Expected(NodeEvents(h), node).None?
      case Request(_, _, _) => false
      case SetupResponse => false
  }

  ghost predicate OnlyTimer(h: seq<Act>, fd: Fd) {
    Owner(h, fd).Some? && forall k: Fd | Owner(h, k).Some? :: k == fd
  }

  /** Exactly what breaks an assertion of the RIC, after any history. */
  lemma SurvivesExactly(sock: Fd, h: seq<Act>, act: Act)
    requires Run(Start(sock), h).Some? && FeasibleHistory(Start(sock), h)
    requires Feasible(Run(Start(sock), h).value.0, act)
    ensures Do(Run(Start(sock), h).value.0, act).Some? <==> Welcome(sock, h, act)
  {
    hide Run, FeasibleHistory, Agrees, Do;
    StateMeetsHistory(sock, h);
    SockStays(sock, h);
    DoSurvives(h, Run(Start(sock), h).value.0, act);
  }

  lemma {:induction false} SockStays(sock: Fd, h: seq<Act>)
    requires Run(Start(sock), h).Some? && FeasibleHistory(Start(sock), h)
    ensures Run(Start(sock), h).value.0.sock == sock
  {
    hide Feasible, Do, Agrees;
    if h != [] {
      FeasiblePrefix(Start(sock), h);
      SockStays(sock, h[..|h| - 1]);
      StateMeetsHistory(sock, h[..|h| - 1]);
      DoKeepsSock(h[..|h| - 1], Run(Start(sock), h[..|h| - 1]).value.0, h[|h| - 1]);
    }
  }

  lemma DoKeepsSock(h: seq<Act>, s: RicState, act: Act)
    requires Agrees(h, s) && Feasible(s, act) && Do(s, act).Some?
    ensures Do(s, act).value.0.sock == s.sock
  {
    hide OwnersAgree, CountsAgree, N.Replay, Valid, Step;
    if act.Hearing? {
      StepSurvives(s, act.arrival);
    }
  }

  lemma DoSurvives(h: seq<Act>, s: RicState, act: Act)
    requires Agrees(h, s) && Feasible(s, act)
    ensures Do(s, act).Some? <==> Welcome(s.sock, h, act)
  {
    hide Step, N.Consistent, Inverse, N.Replay;
    N.ReplayMeetsHistory(NodeEvents(h));
    if act.Hearing? {
      StepSurvives(s, act.arrival);
      HearingIsWelcome(h, s, act.arrival);
    }
  }

  lemma HearingIsWelcome(h: seq<Act>, s: RicState, a: Arrival)
    requires Agrees(h, s) && N.Agrees(NodeEvents(h), s.tables)
    ensures NearRic.Welcome(s, a) <==> Welcome(s.sock, h, Hearing(a))
  {
    hide N.Replay, Inverse, N.Expected, N.NoRepeats, N.InSetupOrder, Under;
    match a
    case Nothing =>
    case TimerReady(fd) => OnlyOpen(h, s, fd);
    case Shutdown(src, _) =>
    case Payload(_, m, _) =>
      match m
      case Answer(op, id, _) => HasCounts(s.pending, PendingEvent(op, id));
      case SetupRequest(node) => assert N.AddressOf(s.tables, node) == N.Expected(NodeEvents(h), node);
      case Indication(_, _) =>
      case Request(_, _, _) =>
      case SetupResponse =>
  }

  lemma OnlyOpen(h: seq<Act>, s: RicState, fd: Fd)
    requires OwnersAgree(h, s)
    ensures |s.pending.left| == 1 && fd in s.pending.left <==> OnlyTimer(h, fd)
  {
    hide Owner;
    var keys := s.pending.left.Keys;
    assert |keys| == |s.pending.left|;
    if fd in keys {
      assert |keys - {fd}| == |keys| - 1;
      forall k: Fd
        ensures Owner(h, k).Some? <==> k in keys
      {
        assert TimerAt(s, k) == Owner(h, k);
      }
      if |keys| == 1 {
        assert keys - {fd} == {};
        assert forall k | k in keys :: k !in keys - {fd};
      } else {
        var k :| k in keys - {fd};
      }
    } else {
      assert TimerAt(s, fd) == Owner(h, fd);
    }
  }
}
