/** The E2 agent: the socket, one timer per accepted subscription and the setup timer, as a
    value with a step function, and as the object its event loop updates in place. */
module E2Agent {
  import opened Containers
  import opened E2apTypes

  datatype AgentState = AgentState(
    self: NodeId,
    sock: Fd,
    fds: set<Fd>,
    ind: BiMap<Fd, IndEvent, RicId>,
    setup: BiMap<Fd, SetupEvent, SetupEvent>)

  /** What the event loop sees next; `timer` is the descriptor the kernel would give to a
      timer opened while handling it, `pick` the node that a search for a timer to stop meets. */
  datatype Arrival =
    | Nothing
    | Payload(msg: Message, timer: Fd, pick: Fd)
    | Shutdown(timer: Fd)
    | TimerReady(fd: Fd)

  datatype Event = CheckStop | Network | Report(ev: IndEvent) | SetupTimeout

  function ReadyFd(a: AgentState, e: Arrival): int {
    match e
    case Nothing => -1
    case Payload(_, _, _) => a.sock
    case Shutdown(_) => a.sock
    case TimerReady(fd) => fd
  }

  /** The dispatcher: socket, then subscription timers, then the one setup timer. */
  function Classify(a: AgentState, fd: int): (r: Option<Event>) {
    if fd == -1 then Some(CheckStop)
    else if fd == a.sock then Some(Network)
    else if fd in a.ind.left then Some(Report(a.ind.left[fd]))
    else if |a.setup.left| != 1 || fd !in a.setup.left then None
    else Some(SetupTimeout)
  }

  function Subscribed(a: AgentState, ev: IndEvent, timer: Fd): (b: AgentState) {
    a.(fds := a.fds + {timer}, ind := Insert(a.ind, IndKey, timer, ev))
  }

  function StopInd(a: AgentState, id: RicId, pick: Fd): (r: Option<AgentState>) {
    match ExtractRight(a.ind, IndKey, id, pick)
    case None => None
    case Some((fd, m)) => if fd in a.fds then Some(a.(fds := a.fds - {fd}, ind := m)) else None
  }

  function ArmSetup(a: AgentState, timer: Fd): (b: AgentState) {
    a.(fds := a.fds + {timer}, setup := Insert(a.setup, SetupKey, timer, SetupRequestPending))
  }

  function StopSetup(a: AgentState, pick: Fd): (r: Option<AgentState>) {
    match ExtractRight(a.setup, SetupKey, SetupRequestPending, pick)
    case None => None
    case Some((fd, m)) => if fd in a.fds then Some(a.(fds := a.fds - {fd}, setup := m)) else None
  }

  function HandleRequest(a: AgentState, op: Op, id: RicId, action: nat, timer: Fd, pick: Fd)
    : (r: Option<(AgentState, seq<Message>)>)
  {
    match op
    case Subscribe => Some((Subscribed(a, IndEvent(id, action), timer), [Answer(Subscribe, id, action)]))
    case Delete =>
      (match StopInd(a, id, pick)
       case None => None
       case Some(b) => Some((b, [Answer(Delete, id, 0)])))
    case Control => Some((a, [Answer(Control, id, 0)]))
  }

  function HandleMessage(a: AgentState, m: Message, timer: Fd, pick: Fd): (r: Option<(AgentState, seq<Message>)>) {
    match m
    case Request(op, id, action) => HandleRequest(a, op, id, action, timer, pick)
    case SetupResponse =>
      (match StopSetup(a, pick)
       case None => None
       case Some(b) => Some((b, [])))
    case Answer(_, _, _) => None
    case Indication(_, _) => None
    case SetupRequest(_) => None
  }

  /** One turn of the event loop, with the messages it sends. */
  function Step(a: AgentState, e: Arrival): (r: Option<(AgentState, seq<Message>)>) {
    match Classify(a, ReadyFd(a, e))
    case None => None
    case Some(CheckStop) => Some((a, []))
    case Some(Report(ev)) => Some((a, [Indication(ev.id, ev.action)]))
    case Some(SetupTimeout) => Some((a, [SetupRequest(a.self)]))
    case Some(Network) =>
      match e
      case Payload(m, timer, pick) => HandleMessage(a, m, timer, pick)
      case Shutdown(timer) => Some((ArmSetup(a, timer), []))
      case Nothing => Some((a, []))
      case TimerReady(_) => Some((a, []))
  }

  /** The open descriptors are the disjoint union of the socket, the subscription timers and
      the setup timers, and each table's two trees agree. */
  ghost predicate Valid(a: AgentState) {
    && Inverse(a.ind, IndKey)
    && Inverse(a.setup, SetupKey)
    && a.fds == {a.sock} + a.ind.left.Keys + a.setup.left.Keys
    && a.sock !in a.ind.left
    && a.sock !in a.setup.left
    && a.ind.left.Keys !! a.setup.left.Keys
  }

  /** And no subscription is served twice. */
  ghost predicate Sound(a: AgentState) {
    Valid(a) && Unique(a.ind)
  }

  /** The environment's part of an arrival: the kernel hands out descriptors that are not open,
      and a search meets a node it looks for. */
  ghost predicate Feasible(a: AgentState, e: Arrival) {
    match e
    case Nothing => true
    case TimerReady(_) => true
    case Shutdown(timer) => timer !in a.fds
    case Payload(m, timer, pick) =>
      && timer !in a.fds
      && (m.Request? && m.op == Delete ==> Meets(a.ind, m.id, pick))
      && (m.SetupResponse? ==> Meets(a.setup, SetupRequestPending, pick))
  }

  predicate AwaitingSetup(a: AgentState) { |a.setup.left| > 0 }

  lemma AwaitingHas(m: BiMap<Fd, SetupEvent, SetupEvent>)
    requires Inverse(m, SetupKey)
    ensures Has(m, SetupRequestPending) <==> |m.left| > 0
    ensures Unique(m) <==> |m.left| <= 1
  {
    InverseSizes(m, SetupKey);
    if |m.left| > 0 {
      var fd :| fd in m.right;
      assert m.right[fd] == SetupRequestPending;
      if Unique(m) {
        forall k | k in m.right
          ensures k == fd
        {
          assert m.right[k] == m.right[fd];
        }
        assert m.right.Keys == {fd};
      }
    }
    if k, l :| k in m.right && l in m.right && k != l {
      assert |m.right.Keys - {k}| > 0 by { assert l in m.right.Keys - {k}; }
    }
  }

  lemma CloseOne(fds: set<Fd>, sock: Fd, some: set<Fd>, others: set<Fd>, fd: Fd)
    requires fds == {sock} + some + others
    requires fd in some && sock !in some && some !! others
    ensures fds - {fd} == {sock} + (some - {fd}) + others
    ensures fds - {fd} == {sock} + others + (some - {fd})
  {
  }

  /** The dispatcher puts an open descriptor in one class only, and it aborts exactly on a setup
      timer that is not the only one. */
  lemma DispatchIsTotal(a: AgentState, fd: Fd)
    requires Valid(a) && fd in a.fds
    ensures Classify(a, fd) == Some(Network) <==> fd == a.sock
    ensures Classify(a, fd).Some? && Classify(a, fd).value.Report? <==> fd in a.ind.left
    ensures Classify(a, fd) == Some(SetupTimeout) <==> fd in a.setup.left && |a.setup.left| == 1
    ensures Classify(a, fd).None? <==> fd in a.setup.left && |a.setup.left| != 1
    ensures Classify(a, fd) != Some(CheckStop)
  {
    hide Inverse;
  }

  /** A subscription is always taken; the table stays free of repetitions exactly when its id
      was not served yet. */
  lemma SubscribedKeepsValid(a: AgentState, ev: IndEvent, timer: Fd)
    requires Valid(a) && timer !in a.fds
    ensures var b := Subscribed(a, ev, timer);
            && Valid(b)
            && b.ind.right.Values == a.ind.right.Values + {ev.id}
            && (Unique(b.ind) <==> Unique(a.ind) && !Has(a.ind, ev.id))
  {
    hide Inverse, Unique;
    InsertKeepsInverse(a.ind, IndKey, timer, ev);
  }

  /** A delete finds a timer exactly when its id is served, and stops one. */
  lemma StopIndKeepsValid(a: AgentState, id: RicId, pick: Fd)
    requires Valid(a) && Meets(a.ind, id, pick)
    ensures StopInd(a, id, pick).Some? <==> Has(a.ind, id)
    ensures Has(a.ind, id) ==>
              var b := StopInd(a, id, pick).value;
              && Valid(b)
              && b == a.(fds := a.fds - {pick}, ind := BiMap(a.ind.left - {pick}, a.ind.right - {pick}))
              && pick in a.ind.right && a.ind.right[pick] == id
  {
    ExtractKeepsInverse(a.ind, IndKey, id, pick);
    if Has(a.ind, id) {
      var (fd, rest) := ExtractRight(a.ind, IndKey, id, pick).value;
      assert fd in a.ind.left && fd in a.fds;
      assert StopInd(a, id, pick) == Some(a.(fds := a.fds - {fd}, ind := rest));
      ClosedIndIsValid(a, fd, rest);
    }
  }

  lemma SubscribedKeepsSound(a: AgentState, ev: IndEvent, timer: Fd)
    requires Sound(a) && timer !in a.fds && !Has(a.ind, ev.id)
    ensures var b := Subscribed(a, ev, timer);
            Sound(b) && b.ind.right.Values == a.ind.right.Values + {ev.id} && b.ind.left == a.ind.left[timer := ev]
  {
    SubscribedKeepsValid(a, ev, timer);
  }

  lemma StopIndKeepsSound(a: AgentState, id: RicId, pick: Fd)
    requires Sound(a) && Meets(a.ind, id, pick) && Has(a.ind, id)
    ensures StopInd(a, id, pick).Some?
    ensures var b := StopInd(a, id, pick).value;
            Sound(b) && b.ind.right.Values == a.ind.right.Values - {id} && b.ind.left == a.ind.left - {pick}
  {
    StopIndKeepsValid(a, id, pick);
    hide Valid, Unique;
    ExtractFromUnique(a.ind, id, pick, a.ind.left - {pick});
  }

  lemma ClosedIndIsValid(a: AgentState, fd: Fd, rest: BiMap<Fd, IndEvent, RicId>)
    requires Valid(a) && fd in a.ind.left
    requires Inverse(rest, IndKey) && rest.left == a.ind.left - {fd}
    ensures Valid(a.(fds := a.fds - {fd}, ind := rest))
  {
    hide Inverse;
    CloseOne(a.fds, a.sock, a.ind.left.Keys, a.setup.left.Keys, fd);
    assert rest.left.Keys == a.ind.left.Keys - {fd};
  }

  /** Going back to the setup phase always works and adds one entry, so an agent that was
      awaiting a setup already has one too many. */
  lemma ArmSetupKeepsValid(a: AgentState, timer: Fd)
    requires Valid(a) && timer !in a.fds
    ensures var b := ArmSetup(a, timer);
            && Valid(b) && AwaitingSetup(b) && b.ind == a.ind && b.self == a.self && b.sock == a.sock
            && |b.setup.left| == |a.setup.left| + 1
  {
    InsertSizes(a.setup, SetupKey, timer, SetupRequestPending);
    ArmedIsValid(a, timer);
    hide Valid, Insert;
  }

  lemma ArmedIsValid(a: AgentState, timer: Fd)
    requires Valid(a) && timer !in a.fds
    ensures Valid(ArmSetup(a, timer))
  {
    hide Unique, Inverse;
    InsertKeepsInverse(a.setup, SetupKey, timer, SetupRequestPending);
  }

  /** A setup response finds a timer exactly when a setup is awaited, and stops one. */
  lemma StopSetupKeepsValid(a: AgentState, pick: Fd)
    requires Valid(a) && Meets(a.setup, SetupRequestPending, pick)
    ensures StopSetup(a, pick).Some? <==> AwaitingSetup(a)
    ensures AwaitingSetup(a) ==>
              var b := StopSetup(a, pick).value;
              && Valid(b) && b.ind == a.ind && b.self == a.self && b.sock == a.sock
              && |b.setup.left| == |a.setup.left| - 1
  {
    ExtractKeepsInverse(a.setup, SetupKey, SetupRequestPending, pick);
    AwaitingHas(a.setup);
    if AwaitingSetup(a) {
      var (fd, rest) := ExtractRight(a.setup, SetupKey, SetupRequestPending, pick).value;
      assert fd in a.setup.left && fd in a.fds;
      assert StopSetup(a, pick) == Some(a.(fds := a.fds - {fd}, setup := rest));
      ClosedSetupIsValid(a, fd, rest);
    }
  }

  lemma ClosedSetupIsValid(a: AgentState, fd: Fd, rest: BiMap<Fd, SetupEvent, SetupEvent>)
    requires Valid(a) && fd in a.setup.left
    requires Inverse(rest, SetupKey) && rest.left == a.setup.left - {fd}
    ensures Valid(a.(fds := a.fds - {fd}, setup := rest))
  {
    hide Inverse;
    assert a.fds == {a.sock} + a.setup.left.Keys + a.ind.left.Keys;
    CloseOne(a.fds, a.sock, a.setup.left.Keys, a.ind.left.Keys, fd);
    assert rest.left.Keys == a.setup.left.Keys - {fd};
  }

  ghost predicate WelcomeMessage(a: AgentState, m: Message) {
    match m
    case Request(op, id, _) => op == Delete ==> Has(a.ind, id)
    case SetupResponse => AwaitingSetup(a)
    case Answer(_, _, _) => false
    case Indication(_, _) => false
    case SetupRequest(_) => false
  }

  /** What must be true of an arrival for the loop to survive it: a delete names a served id, a
      setup response is awaited, and a setup timer that fires is the only one. */
  ghost predicate Welcome(a: AgentState, e: Arrival) {
    match e
    case Nothing => true
    case TimerReady(fd) => fd in a.fds && (fd in a.setup.left ==> |a.setup.left| == 1)
    case Shutdown(_) => true
    case Payload(m, _, _) => WelcomeMessage(a, m)
  }

  /** How an arrival changes the number of timers of an id, and of setup entries. */
  function Change(e: Arrival, id: RicId): int {
    match e
    case Payload(Request(Subscribe, i, _), _, _) => if i == id then 1 else 0
    case Payload(Request(Delete, i, _), _, _) => if i == id then -1 else 0
    case _ => 0
  }

  function SetupChange(e: Arrival): int {
    match e
    case Shutdown(_) => 1
    case Payload(SetupResponse, _, _) => -1
    case _ => 0
  }

  /** A step of the agent that keeps it valid and moves both counts as the arrival says. */
  ghost predicate Moves(a: AgentState, b: AgentState, e: Arrival, id: RicId) {
    && Valid(b) && b.self == a.self && b.sock == a.sock
    && |Under(b.ind, id)| == |Under(a.ind, id)| + Change(e, id)
    && |b.setup.left| == |a.setup.left| + SetupChange(e)
  }

  lemma RequestSurvives(a: AgentState, op: Op, id: RicId, action: nat, timer: Fd, pick: Fd, q: RicId)
    requires Valid(a) && Feasible(a, Payload(Request(op, id, action), timer, pick))
    ensures var r := HandleRequest(a, op, id, action, timer, pick);
            && (r.Some? <==> WelcomeMessage(a, Request(op, id, action)))
            && (r.Some? ==> Moves(a, r.value.0, Payload(Request(op, id, action), timer, pick), q))
  {
    match op
    case Subscribe =>
      SubscribedKeepsValid(a, IndEvent(id, action), timer);
      InsertCounts(a.ind, IndKey, timer, IndEvent(id, action), q);
    case Delete =>
      StopIndKeepsValid(a, id, pick);
      if Has(a.ind, id) {
        ExtractCounts(a.ind, id, pick, a.ind.left - {pick}, q);
      }
    case Control =>
  }

  lemma MessageSurvives(a: AgentState, m: Message, timer: Fd, pick: Fd, q: RicId)
    requires Valid(a) && Feasible(a, Payload(m, timer, pick))
    ensures var r := HandleMessage(a, m, timer, pick);
            && (r.Some? <==> WelcomeMessage(a, m))
            && (r.Some? ==> Moves(a, r.value.0, Payload(m, timer, pick), q))
  {
    hide Inverse, Meets, HandleRequest, StopSetup;
    match m
    case Request(op, id, action) =>
      RequestSurvives(a, op, id, action, timer, pick, q);
    case SetupResponse => StopSetupKeepsValid(a, pick);
    case Answer(_, _, _) =>
    case Indication(_, _) =>
    case SetupRequest(_) =>
  }

  lemma PayloadIsHandled(a: AgentState, m: Message, timer: Fd, pick: Fd)
    ensures Step(a, Payload(m, timer, pick)) == HandleMessage(a, m, timer, pick)
  {
  }

  lemma IdleSurvives(a: AgentState)
    ensures Step(a, Nothing) == Some((a, []))
  {
  }

  lemma TimerIsClassified(a: AgentState, fd: Fd)
    ensures Step(a, TimerReady(fd)).Some? <==> Classify(a, fd).Some?
    ensures Step(a, TimerReady(fd)).Some? ==> Step(a, TimerReady(fd)).value.0 == a
  {
    hide Classify;
  }

  /** A fired timer changes nothing in the tables. */
  lemma TimerSurvives(a: AgentState, fd: Fd)
    requires Valid(a)
    ensures Step(a, TimerReady(fd)).Some? <==> fd in a.fds && (fd in a.setup.left ==> |a.setup.left| == 1)
    ensures Step(a, TimerReady(fd)).Some? ==> Step(a, TimerReady(fd)).value.0 == a
  {
    hide Valid, Classify, Step;
    TimerIsClassified(a, fd);
    if fd in a.fds {
      DispatchIsTotal(a, fd);
    } else {
      ClosedAborts(a, fd);
    }
  }

  lemma ClosedAborts(a: AgentState, fd: Fd)
    requires Valid(a) && fd !in a.fds
    ensures Classify(a, fd).None?
  {
    hide Inverse;
  }

  lemma ShutdownSurvives(a: AgentState, timer: Fd)
    ensures Step(a, Shutdown(timer)) == Some((ArmSetup(a, timer), []))
  {
  }

  /** A valid agent survives an arrival exactly when the arrival is welcome, and then stays
      valid; both counts move as the arrival says. */
  lemma StepSurvives(a: AgentState, e: Arrival, id: RicId)
    requires Valid(a) && Feasible(a, e)
    ensures Step(a, e).Some? <==> Welcome(a, e)
    ensures Welcome(a, e) ==> Moves(a, Step(a, e).value.0, e, id)
  {
    hide Valid, Step, WelcomeMessage, HandleMessage, AwaitingSetup, Meets, ArmSetup;
    match e
    case Nothing => IdleSurvives(a);
    case TimerReady(fd) => TimerSurvives(a, fd);
    case Shutdown(timer) =>
      ShutdownSurvives(a, timer);
      ArmSetupKeepsValid(a, timer);
    case Payload(m, timer, pick) =>
      PayloadIsHandled(a, m, timer, pick);
      MessageSurvives(a, m, timer, pick, id);
  }

  // ------------------------------------------------------------------------ whole scripts

  /** The state and the messages sent after a whole script of arrivals. */
  function Run(a: AgentState, script: seq<Arrival>): (r: Option<(AgentState, seq<Message>)>) {
    if script == [] then Some((a, []))
    else
      match Run(a, script[..|script| - 1])
      case None => None
      case Some((b, sent)) =>
        match Step(b, script[|script| - 1])
        case None => None
        case Some((c, more)) => Some((c, sent + more))
  }

  /** The environment keeps its part all along the script. */
  ghost predicate FeasibleScript(a: AgentState, script: seq<Arrival>) {
    forall i | 0 <= i < |script| && Run(a, script[..i]).Some? :: Feasible(Run(a, script[..i]).value.0, script[i])
  }

  function Start(self: NodeId, sock: Fd): AgentState {
    AgentState(self, sock, {sock}, BiMap(map[], map[]), BiMap(map[], map[]))
  }

  lemma StartIsValid(self: NodeId, sock: Fd, id: RicId)
    ensures Sound(Start(self, sock)) && |Under(Start(self, sock).ind, id)| == 0
  {
    assert Under(Start(self, sock).ind, id) == {};
  }

  /** How often the script leaves `id` subscribed: accepted subscriptions less deletes. */
  function Served(script: seq<Arrival>, id: RicId): int {
    if script == [] then 0 else Served(script[..|script| - 1], id) + Change(script[|script| - 1], id)
  }

  /** How many setups the script leaves awaited. */
  function Awaited(script: seq<Arrival>): int {
    if script == [] then 0 else Awaited(script[..|script| - 1]) + SetupChange(script[|script| - 1])
  }

  lemma FeasiblePrefix(a: AgentState, script: seq<Arrival>)
    requires script != [] && FeasibleScript(a, script)
    ensures FeasibleScript(a, script[..|script| - 1])
    ensures Run(a, script[..|script| - 1]).Some? ==>
              Feasible(Run(a, script[..|script| - 1]).value.0, script[|script| - 1])
  {
    var first := script[..|script| - 1];
    forall i | 0 <= i < |first| && Run(a, first[..i]).Some?
      ensures Feasible(Run(a, first[..i]).value.0, first[i])
    {
      assert first[..i] == script[..i];
    }
  }

  /** After any script the loop survives, the table holds as many timers for an id as the script
      leaves subscriptions of it, and as many setup entries as setups awaited. */
  lemma {:induction false} TableMeetsScript(self: NodeId, sock: Fd, script: seq<Arrival>, id: RicId)
    requires Run(Start(self, sock), script).Some? && FeasibleScript(Start(self, sock), script)
    ensures var a := Run(Start(self, sock), script).value.0;
            && Valid(a) && a.self == self && a.sock == sock
            && |Under(a.ind, id)| == Served(script, id)
            && |a.setup.left| == Awaited(script)
  {
    hide Valid, Step, FeasibleScript, Feasible, Under;
    StartIsValid(self, sock, id);
    if script != [] {
      var first, e := script[..|script| - 1], script[|script| - 1];
      FeasiblePrefix(Start(self, sock), script);
      TableMeetsScript(self, sock, first, id);
      StepSurvives(Run(Start(self, sock), first).value.0, e, id);
    }
  }

  /** An agent can report on an id, some timer of it being open, exactly while the script leaves
      it subscribed: so also after a delete, if the id was subscribed more than once. */
  lemma ReportsExactlyWhileServed(self: NodeId, sock: Fd, script: seq<Arrival>, id: RicId)
    requires Run(Start(self, sock), script).Some? && FeasibleScript(Start(self, sock), script)
    ensures var a := Run(Start(self, sock), script).value.0;
            (exists fd, action :: Step(a, TimerReady(fd)) == Some((a, [Indication(id, action)]))) <==> Served(script, id) > 0
  {
    hide Run, FeasibleScript, Served;
    TableMeetsScript(self, sock, script, id);
    ReportsIffHas(Run(Start(self, sock), script).value.0, id);
  }

  lemma ReportsIffHas(a: AgentState, id: RicId)
    requires Valid(a)
    ensures (exists fd, action :: Step(a, TimerReady(fd)) == Some((a, [Indication(id, action)]))) <==> |Under(a.ind, id)| > 0
  {
    if |Under(a.ind, id)| > 0 {
      var fd :| fd in Under(a.ind, id);
      assert a.ind.left[fd].id == id;
      assert Step(a, TimerReady(fd)) == Some((a, [Indication(id, a.ind.left[fd].action)]));
    }
    forall fd, action | Step(a, TimerReady(fd)) == Some((a, [Indication(id, action)]))
      ensures |Under(a.ind, id)| > 0
    {
      assert fd in a.ind.left && a.ind.left[fd] == IndEvent(id, action);
      assert fd in Under(a.ind, id);
    }
  }

  /** The action of the latest request about `id`, unless that was a delete. */
  function Serving(script: seq<Arrival>, id: RicId): (action: Option<nat>) {
    if script == [] then None
    else
      match script[|script| - 1]
      case Payload(Request(Subscribe, i, action), _, _) =>
        if i == id then Some(action) else Serving(script[..|script| - 1], id)
      case Payload(Request(Delete, i, _), _, _) =>
        if i == id then None else Serving(script[..|script| - 1], id)
      case _ => Serving(script[..|script| - 1], id)
  }

  /** Whether an arrival subscribes an id that a table serves already. */
  ghost predicate Repeats(a: AgentState, e: Arrival) {
    e.Payload? && e.msg.Request? && e.msg.op == Subscribe && Has(a.ind, e.msg.id)
  }

  /** No subscription of the script is of an id it leaves subscribed at that point. */
  predicate NoRepeat(script: seq<Arrival>) {
    script == []
    || (var first, e := script[..|script| - 1], script[|script| - 1];
        NoRepeat(first)
        && (e.Payload? && e.msg.Request? && e.msg.op == Subscribe ==> Served(first, e.msg.id) == 0))
  }

  /** A timer of the table reports on `id` with `action`. */
  ghost predicate Stores(a: AgentState, id: RicId, action: nat) {
    exists fd | fd in a.ind.left :: a.ind.left[fd] == IndEvent(id, action)
  }

  /** An arrival that repeats nothing leaves a table without repetitions, in which an id's action
      is that of the latest request about it. */
  lemma StepStores(a: AgentState, e: Arrival, id: RicId, action: nat)
    requires Valid(a) && Unique(a.ind) && Feasible(a, e) && Step(a, e).Some? && !Repeats(a, e)
    ensures Unique(Step(a, e).value.0.ind)
    ensures Stores(Step(a, e).value.0, id, action) <==>
            if e.Payload? && e.msg.Request? && e.msg.op == Subscribe && e.msg.id == id then action == e.msg.action
            else if e.Payload? && e.msg.Request? && e.msg.op == Delete && e.msg.id == id then false
            else Stores(a, id, action)
  {
    hide Step, Stores, Unique, Inverse, Meets, HandleRequest, StopSetup;
    match e
    case Nothing => IdleSurvives(a);
    case TimerReady(fd) => TimerSurvives(a, fd);
    case Shutdown(timer) =>
      ShutdownSurvives(a, timer);
      SameStores(a, ArmSetup(a, timer), id, action);
    case Payload(m, timer, pick) =>
      PayloadIsHandled(a, m, timer, pick);
      match m
      case Request(op, i, act) => RequestStores(a, op, i, act, timer, pick, id, action);
      case SetupResponse =>
        StopSetupKeepsValid(a, pick);
        SameStores(a, StopSetup(a, pick).value, id, action);
      case Answer(_, _, _) =>
      case Indication(_, _) =>
      case SetupRequest(_) =>
  }

  lemma SameStores(a: AgentState, b: AgentState, id: RicId, action: nat)
    requires a.ind == b.ind
    ensures Stores(a, id, action) <==> Stores(b, id, action)
  {
  }

  lemma RequestStores(a: AgentState, op: Op, i: RicId, act: nat, timer: Fd, pick: Fd, id: RicId, action: nat)
    requires Valid(a) && Unique(a.ind) && Feasible(a, Payload(Request(op, i, act), timer, pick))
    requires HandleRequest(a, op, i, act, timer, pick).Some?
    requires op == Subscribe ==> !Has(a.ind, i)
    ensures var b := HandleRequest(a, op, i, act, timer, pick).value.0;
            && Unique(b.ind)
            && (Stores(b, id, action) <==>
                if op == Subscribe && i == id then action == act
                else if op == Delete && i == id then false
                else Stores(a, id, action))
  {
    match op
    case Subscribe =>
      SubscribedKeepsValid(a, IndEvent(i, act), timer);
      hide Unique;
      SubscribedStores(a, IndEvent(i, act), timer, id, action);
    case Delete =>
      StopIndKeepsValid(a, i, pick);
      hide Inverse;
      ExtractFromUnique(a.ind, i, pick, a.ind.left - {pick});
      DeletedStores(a, i, pick, id, action);
    case Control =>
  }

  lemma SubscribedStores(a: AgentState, ev: IndEvent, timer: Fd, id: RicId, action: nat)
    requires Valid(a) && timer !in a.fds && !Has(a.ind, ev.id)
    ensures Stores(Subscribed(a, ev, timer), id, action) <==> if ev.id == id then action == ev.action else Stores(a, id, action)
  {
    var b := Subscribed(a, ev, timer);
    assert b.ind.left[timer] == ev;
    if Stores(a, id, action) {
      var fd :| fd in a.ind.left && a.ind.left[fd] == IndEvent(id, action);
      assert b.ind.left[fd] == a.ind.left[fd] && a.ind.right[fd] == id;
    }
  }

  lemma DeletedStores(a: AgentState, i: RicId, pick: Fd, id: RicId, action: nat)
    requires Valid(a) && Unique(a.ind) && pick in a.ind.right && a.ind.right[pick] == i
    ensures var b := a.(ind := BiMap(a.ind.left - {pick}, a.ind.right - {pick}));
            Stores(b, id, action) <==> if i == id then false else Stores(a, id, action)
  {
    var b := a.(ind := BiMap(a.ind.left - {pick}, a.ind.right - {pick}));
    if Stores(b, id, action) {
      var fd :| fd in b.ind.left && b.ind.left[fd] == IndEvent(id, action);
      assert a.ind.left[fd] == IndEvent(id, action) && a.ind.right[fd] == id;
    }
    if i != id && Stores(a, id, action) {
      var fd :| fd in a.ind.left && a.ind.left[fd] == IndEvent(id, action);
      assert a.ind.right[fd] == id;
      assert b.ind.left[fd] == IndEvent(id, action);
    }
  }

  /** A script that repeats no subscription leaves a table without repetitions, where the latest
      request about an id decides whether, and with which action, it is served. */
  lemma {:induction false} LatestRequestDecides(self: NodeId, sock: Fd, script: seq<Arrival>, id: RicId, action: nat)
    requires Run(Start(self, sock), script).Some? && FeasibleScript(Start(self, sock), script)
    requires NoRepeat(script)
    ensures var a := Run(Start(self, sock), script).value.0;
            Unique(a.ind) && (Stores(a, id, action) <==> Serving(script, id) == Some(action))
  {
    hide Valid, Step, FeasibleScript, Feasible, Under, Served, Stores, Unique, Has;
    if script == [] {
      StartIsSound(self, sock, id, action);
    } else {
      var first, e := script[..|script| - 1], script[|script| - 1];
      FeasiblePrefix(Start(self, sock), script);
      LatestRequestDecides(self, sock, first, id, action);
      TableMeetsScript(self, sock, first, id);
      NothingRepeats(self, sock, script);
      StepStores(Run(Start(self, sock), first).value.0, e, id, action);
    }
  }

  lemma StartIsSound(self: NodeId, sock: Fd, id: RicId, action: nat)
    ensures Unique(Start(self, sock).ind) && !Stores(Start(self, sock), id, action)
  {
  }

  lemma NothingRepeats(self: NodeId, sock: Fd, script: seq<Arrival>)
    requires script != [] && NoRepeat(script)
    requires Run(Start(self, sock), script[..|script| - 1]).Some?
    requires FeasibleScript(Start(self, sock), script[..|script| - 1])
    ensures !Repeats(Run(Start(self, sock), script[..|script| - 1]).value.0, script[|script| - 1])
  {
    hide Run, FeasibleScript, Served, Valid;
    var e := script[|script| - 1];
    if e.Payload? && e.msg.Request? && e.msg.op == Subscribe {
      TableMeetsScript(self, sock, script[..|script| - 1], e.msg.id);
      HasCounts(Run(Start(self, sock), script[..|script| - 1]).value.0.ind, e.msg.id);
    }
  }

  /** The table stays free of repetitions all along a script exactly when the script repeats no
      subscription. */
  lemma {:induction false} UniqueExactlyWithoutRepeats(self: NodeId, sock: Fd, script: seq<Arrival>)
    requires Run(Start(self, sock), script).Some? && FeasibleScript(Start(self, sock), script)
    ensures NoRepeat(script) <==>
            forall i | 0 <= i <= |script| && Run(Start(self, sock), script[..i]).Some? ::
                Unique(Run(Start(self, sock), script[..i]).value.0.ind)
  {
    var start := Start(self, sock);
    assert script[..|script|] == script;
    if script == [] {
      assert forall i | 0 <= i <= |script| :: script[..i] == [];
    } else {
      var first, e := script[..|script| - 1], script[|script| - 1];
      FeasiblePrefix(start, script);
      UniqueExactlyWithoutRepeats(self, sock, first);
      assert forall i | 0 <= i <= |first| :: first[..i] == script[..i];
      LastStepRepeats(self, sock, script);
      assert script[..|first|] == first;
    }
  }

  lemma LastStepRepeats(self: NodeId, sock: Fd, script: seq<Arrival>)
    requires script != []
    requires Run(Start(self, sock), script).Some? && FeasibleScript(Start(self, sock), script)
    ensures Run(Start(self, sock), script[..|script| - 1]).Some?
    ensures NoRepeat(script[..|script| - 1]) ==>
              (NoRepeat(script) <==> Unique(Run(Start(self, sock), script).value.0.ind))
  {
    hide FeasibleScript, Feasible, Valid, Step, Unique;
    var first, e := script[..|script| - 1], script[|script| - 1];
    FeasiblePrefix(Start(self, sock), script);
    var a := Run(Start(self, sock), first).value.0;
    if NoRepeat(first) {
      LatestRequestDecides(self, sock, first, RicId(0, 0, 0), 0);
      TableMeetsScript(self, sock, first, RicId(0, 0, 0));
      if NoRepeat(script) {
        LatestRequestDecides(self, sock, script, RicId(0, 0, 0), 0);
      } else {
        TableMeetsScript(self, sock, first, e.msg.id);
        HasCounts(a.ind, e.msg.id);
        PayloadIsHandled(a, e.msg, e.timer, e.pick);
        SubscribedKeepsValid(a, IndEvent(e.msg.id, e.msg.action), e.timer) by { assert Feasible(a, e); }
      }
    }
  }

  /** Every indication the loop sends is on an id that is subscribed at that moment; and if the
      script repeats no subscription, with the action its latest request carried. */
  lemma IndicationIsServed(self: NodeId, sock: Fd, script: seq<Arrival>, e: Arrival, id: RicId, action: nat)
    requires Run(Start(self, sock), script).Some? && FeasibleScript(Start(self, sock), script)
    requires Step(Run(Start(self, sock), script).value.0, e).Some?
    requires Indication(id, action) in Step(Run(Start(self, sock), script).value.0, e).value.1
    ensures Served(script, id) > 0
    ensures NoRepeat(script) ==> Serving(script, id) == Some(action)
  {
    hide Step, Run, FeasibleScript, Stores, Serving, Served, NoRepeat;
    TableMeetsScript(self, sock, script, id);
    SentIsStored(Run(Start(self, sock), script).value.0, e, id, action);
    if NoRepeat(script) {
      LatestRequestDecides(self, sock, script, id, action);
    }
  }

  lemma SentIsStored(a: AgentState, e: Arrival, id: RicId, action: nat)
    requires Valid(a) && Step(a, e).Some? && Indication(id, action) in Step(a, e).value.1
    ensures Stores(a, id, action) && |Under(a.ind, id)| > 0
  {
    if e.Payload? {
      PayloadIsHandled(a, e.msg, e.timer, e.pick);
    } else {
      var fd := ReadyFd(a, e);
      assert fd in a.ind.left && a.ind.left[fd] == IndEvent(id, action);
      assert fd in Under(a.ind, id);
    }
  }

  class Agent {
    const self: NodeId
    const sock: Fd
    var fds: set<Fd>
    var ind: BiMap<Fd, IndEvent, RicId>
    var setup: BiMap<Fd, SetupEvent, SetupEvent>

    ghost function State(): AgentState
      reads this
    {
      AgentState(self, sock, fds, ind, setup)
    }

    constructor (self: NodeId, sock: Fd)
      ensures State() == AgentState(self, sock, {sock}, BiMap(map[], map[]), BiMap(map[], map[]))
      ensures Valid(State())
    {
      this.self := self;
      this.sock := sock;
      fds := {sock};
      ind := BiMap(map[], map[]);
      setup := BiMap(map[], map[]);
    }

    method StopIndEvent(id: RicId, pick: Fd) returns (ok: bool)
      modifies this`fds, this`ind
      ensures ok <==> StopInd(old(State()), id, pick).Some?
      ensures ok ==> State() == StopInd(old(State()), id, pick).value
    {
      match ExtractRight(ind, IndKey, id, pick)
      case None => ok := false;
      case Some((fd, rest)) =>
        ind := rest;
        ok := fd in fds;
        fds := fds - {fd};
    }

    method StopPendingEvent(pick: Fd) returns (ok: bool)
      modifies this`fds, this`setup
      ensures ok <==> StopSetup(old(State()), pick).Some?
      ensures ok ==> State() == StopSetup(old(State()), pick).value
    {
      match ExtractRight(setup, SetupKey, SetupRequestPending, pick)
      case None => ok := false;
      case Some((fd, rest)) =>
        setup := rest;
        ok := fd in fds;
        fds := fds - {fd};
    }

    /** The setup request leaves, then its timer starts: also what a lost association does,
        without the request. */
    method AwaitSetup(timer: Fd)
      requires timer !in fds
      modifies this`fds, this`setup
      ensures State() == ArmSetup(old(State()), timer)
    {
      fds := fds + {timer};
      setup := BiMap(setup.left[timer := SetupRequestPending], setup.right[timer := SetupRequestPending]);
    }

    method MessageHandle(m: Message, timer: Fd, pick: Fd) returns (ok: bool, answers: seq<Message>)
      requires timer !in fds
      modifies this
      ensures ok <==> HandleMessage(old(State()), m, timer, pick).Some?
      ensures ok ==> (State(), answers) == HandleMessage(old(State()), m, timer, pick).value
    {
      ok, answers := true, [];
      match m
      case Request(Subscribe, id, action) =>
        fds := fds + {timer};
        ind := BiMap(ind.left[timer := IndEvent(id, action)], ind.right[timer := id]);
        answers := [Answer(Subscribe, id, action)];
      case Request(Delete, id, _) =>
        ok := StopIndEvent(id, pick);
        answers := [Answer(Delete, id, 0)];
      case Request(Control, id, _) =>
        answers := [Answer(Control, id, 0)];
      case SetupResponse =>
        ok := StopPendingEvent(pick);
      case Answer(_, _, _) => ok := false;
      case Indication(_, _) => ok := false;
      case SetupRequest(_) => ok := false;
    }

    /** One turn of the event loop. */
    method Turn(e: Arrival) returns (ok: bool, sent: seq<Message>)
      requires Feasible(State(), e)
      modifies this
      ensures ok <==> Step(old(State()), e).Some?
      ensures ok ==> (State(), sent) == Step(old(State()), e).value
    {
      ok, sent := true, [];
      match e
      case Nothing =>
      case Payload(m, timer, pick) => ok, sent := MessageHandle(m, timer, pick);
      case Shutdown(timer) => AwaitSetup(timer);
      case TimerReady(fd) =>
        if fd == sock {
        } else if fd in ind.left {
          sent := [Indication(ind.left[fd].id, ind.left[fd].action)];
        } else if |setup.left| == 1 && fd in setup.left {
          sent := [SetupRequest(self)];
        } else {
          ok := false;
        }
    }

    /** The loop over everything that arrives, until something aborts it. */
    method EventLoop(script: seq<Arrival>) returns (ok: bool, sent: seq<Message>)
      requires FeasibleScript(State(), script)
      modifies this
      ensures ok <==> Run(old(State()), script).Some?
      ensures ok ==> (State(), sent) == Run(old(State()), script).value
    {
      ok, sent := true, [];
      ghost var start := State();
      var i := 0;
      while i < |script| && ok
        invariant i <= |script|
        invariant ok <==> Run(start, script[..i]).Some?
        invariant ok ==> (State(), sent) == Run(start, script[..i]).value
        invariant !ok ==> Run(start, script).None?
      {
        assert script[..i + 1][..i] == script[..i];
        var more;
        ok, more := Turn(script[i]);
        sent := sent + more;
        if !ok {
          RunStaysNone(start, script, i + 1);
        }
        i := i + 1;
      }
      assert ok ==> script[..i] == script;
    }
  }

  lemma {:induction false} RunStaysNone(a: AgentState, script: seq<Arrival>, i: nat)
    requires i <= |script| && Run(a, script[..i]).None?
    ensures Run(a, script).None?
    decreases |script|
  {
    if i == |script| {
      assert script[..i] == script;
    } else {
      var first := script[..|script| - 1];
      assert first[..i] == script[..i];
      RunStaysNone(a, first, i);
    }
  }
}
