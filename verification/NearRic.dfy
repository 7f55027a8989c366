/** The near-RT RIC: its timer table, its request counter and its node records, as values with
    step functions, and as the object whose methods update them in place. */
module NearRic {
  import opened Containers
  import opened E2apTypes
  import opened NodeTables
  import opened RequestIds

  datatype RicState = RicState(
    sock: Fd,
    fds: set<Fd>,
    counter: int,
    pending: BiMap<Fd, PendingEvent, PendingEvent>,
    tables: Tables)

  /** What the event loop sees next; `pick` is the node that a search for the answered timer,
      or for the closed address, meets in its tree. */
  datatype Arrival =
    | Nothing
    | Payload(src: Addr, msg: Message, pick: Fd)
    | Shutdown(src: Addr, node: NodeId)
    | TimerReady(fd: Fd)

  datatype Event = CheckStop | Network | Timeout(ev: PendingEvent)

  /** Takes an id, opens a timer and records what it waits for.  `timer` is the descriptor the
      kernel chose. */
  function Arm(s: RicState, ev: PendingEvent, timer: Fd): (t: RicState) {
    s.(fds := s.fds + {timer}, pending := Insert(s.pending, PendingKey, timer, ev))
  }

  /** Finds the timer of an answered request, forgets and closes it. */
  function StopPending(s: RicState, ev: PendingEvent, pick: Fd): (r: Option<RicState>) {
    match ExtractRight(s.pending, PendingKey, ev, pick)
    case None => None
    case Some((fd, p)) => if fd in s.fds then Some(s.(fds := s.fds - {fd}, pending := p)) else None
  }

  function ReadyFd(s: RicState, a: Arrival): int {
    match a
    case Nothing => -1
    case Payload(_, _, _) => s.sock
    case Shutdown(_, _) => s.sock
    case TimerReady(fd) => fd
  }

  /** The dispatcher.  A ready descriptor that is not the socket must be the timer of the one
      and only pending request. */
  function Classify(s: RicState, fd: int): (r: Option<Event>) {
    if fd == -1 then Some(CheckStop)
    else if fd == s.sock then Some(Network)
    else if |s.pending.left| != 1 || fd !in s.pending.left then None
    else Some(Timeout(s.pending.left[fd]))
  }

  /** The message handlers, with the answer to send back.  Everything the source leaves
      unimplemented, and every message not meant for a RIC, is an abort. */
  function HandleMessage(s: RicState, src: Addr, m: Message, pick: Fd): (r: Option<(RicState, seq<Message>)>) {
    match m
    case Answer(op, id, action) =>
      (match StopPending(s, PendingEvent(op, id), pick)
       case None => None
       case Some(t) => if op == Subscribe && action != 0 then None else Some((t, [])))
    case Indication(_, _) => Some((s, []))
    case SetupRequest(node) =>
      (match SetUp(s.tables, node, src)
       case None => None
       case Some(t) => Some((s.(tables := t), [SetupResponse])))
    case Request(_, _, _) => None
    case SetupResponse => None
  }

  /** One turn of the event loop. */
  function Step(s: RicState, a: Arrival): (r: Option<(RicState, seq<Message>)>) {
    match Classify(s, ReadyFd(s, a))
    case None => None
    case Some(CheckStop) => Some((s, []))
    case Some(Timeout(_)) => Some((s, []))
    case Some(Network) =>
      match a
      case Payload(src, m, pick) => HandleMessage(s, src, m, pick)
      case Shutdown(src, node) =>
        (match ShutDown(s.tables, src, node)
         case None => None
         case Some(t) => Some((s.(tables := t), [])))
      case Nothing => Some((s, []))
      case TimerReady(_) => Some((s, []))
  }

  /** The open descriptors are the socket and the timers of the table. */
  ghost predicate Valid(s: RicState) {
    && Inverse(s.pending, PendingKey)
    && s.fds == {s.sock} + s.pending.left.Keys
    && s.sock !in s.pending.left
    && Consistent(s.tables)
  }

  /** And no request is pending twice. */
  ghost predicate Sound(s: RicState) {
    Valid(s) && Unique(s.pending)
  }

  /** Arming always works; it leaves a bijection exactly when the request was not pending yet. */
  lemma ArmKeepsValid(s: RicState, ev: PendingEvent, timer: Fd)
    requires Valid(s) && timer !in s.fds
    ensures var t := Arm(s, ev, timer);
            && Valid(t)
            && t.pending.right.Values == s.pending.right.Values + {ev}
            && t.fds == s.fds + {timer}
            && (Unique(t.pending) <==> Unique(s.pending) && !Has(s.pending, ev))
  {
    hide Consistent, Inverse, Unique;
    InsertKeepsInverse(s.pending, PendingKey, timer, ev);
  }

  /** An answer finds a timer exactly when its (kind, id) pair is pending; then one such timer
      is closed and its descriptor may be handed out again. */
  lemma StopKeepsValid(s: RicState, ev: PendingEvent, pick: Fd)
    requires Valid(s) && Meets(s.pending, ev, pick)
    ensures StopPending(s, ev, pick).Some? <==> Has(s.pending, ev)
    ensures Has(s.pending, ev) ==>
              var t := StopPending(s, ev, pick).value;
              && Valid(t)
              && t.pending == BiMap(s.pending.left - {pick}, s.pending.right - {pick})
              && pick in s.pending.right && s.pending.right[pick] == ev
              && t.fds == s.fds - {pick}
              && t.tables == s.tables && t.counter == s.counter && t.sock == s.sock
  {
    ExtractKeepsInverse(s.pending, PendingKey, ev, pick);
    hide Consistent, Inverse;
    if Has(s.pending, ev) {
      var rest := ExtractRight(s.pending, PendingKey, ev, pick).value.1;
      assert rest.left.Keys == s.pending.left.Keys - {pick};
    }
  }

  /** Of a bijection, it was the only one. */
  lemma StopKeepsSound(s: RicState, ev: PendingEvent, pick: Fd)
    requires Sound(s) && Meets(s.pending, ev, pick) && Has(s.pending, ev)
    ensures StopPending(s, ev, pick).Some?
    ensures var t := StopPending(s, ev, pick).value;
            && Sound(t) && t.pending.right.Values == s.pending.right.Values - {ev}
            && t.tables == s.tables && t.counter == s.counter && t.sock == s.sock
  {
    StopKeepsValid(s, ev, pick);
    hide Valid, Unique;
    ExtractFromUnique(s.pending, ev, pick, s.pending.left - {pick});
  }

  lemma ArmKeepsSound(s: RicState, ev: PendingEvent, timer: Fd)
    requires Sound(s) && timer !in s.fds && !Has(s.pending, ev)
    ensures Sound(Arm(s, ev, timer))
    ensures Arm(s, ev, timer).pending.right.Values == s.pending.right.Values + {ev}
  {
    ArmKeepsValid(s, ev, timer);
  }

  lemma CounterKeepsSound(s: RicState, c: int)
    requires Sound(s)
    ensures Sound(s.(counter := c))
  {
  }

  lemma PayloadIsHandled(s: RicState, src: Addr, m: Message, pick: Fd)
    ensures Step(s, Payload(src, m, pick)) == HandleMessage(s, src, m, pick)
  {
  }

  /** Stopping the timer just armed restores the whole state, descriptors included; it is the
      one stopped exactly when the request was not pending before. */
  lemma ArmThenStop(s: RicState, ev: PendingEvent, timer: Fd)
    requires Valid(s) && timer !in s.fds
    ensures StopPending(Arm(s, ev, timer), ev, timer) == Some(s)
    ensures (forall pick :: Meets(Arm(s, ev, timer).pending, ev, pick) ==> pick == timer) <==> !Has(s.pending, ev)
  {
    hide Consistent;
    InsertThenExtract(s.pending, PendingKey, timer, ev);
    hide Inverse, Meets, Has;
    assert s.fds + {timer} - {timer} == s.fds;
  }

  /** A timer that fires is survived exactly when no other request is pending. */
  lemma TimeoutSurvives(s: RicState, fd: Fd)
    requires Valid(s) && fd in s.pending.left
    ensures Step(s, TimerReady(fd)).Some? <==> |s.pending.left| == 1
    ensures |s.pending.left| == 1 ==> Step(s, TimerReady(fd)) == Some((s, []))
  {
  }

  /** Searches meet a node they look for. */
  ghost predicate PickOk(s: RicState, a: Arrival) {
    match a
    case Payload(_, Answer(op, id, _), pick) => Meets(s.pending, PendingEvent(op, id), pick)
    case Shutdown(src, node) => Meets(s.tables.addrs, src, node)
    case _ => true
  }

  ghost predicate WelcomeMessage(s: RicState, m: Message) {
    match m
    case Answer(op, id, action) => Has(s.pending, PendingEvent(op, id)) && (op == Subscribe ==> action == 0)
    case Indication(_, _) => true
    case SetupRequest(node) => node !in s.tables.conn
    case Request(_, _, _) => false
    case SetupResponse => false
  }

  ghost predicate Welcome(s: RicState, a: Arrival) {
    match a
    case Nothing => true
    case Payload(_, m, _) => WelcomeMessage(s, m)
    case Shutdown(src, _) => Held(s.tables, src)
    case TimerReady(fd) => fd == s.sock || (|s.pending.left| == 1 && fd in s.pending.left)
  }

  lemma MessageSurvives(s: RicState, src: Addr, m: Message, pick: Fd)
    requires Valid(s) && PickOk(s, Payload(src, m, pick))
    ensures HandleMessage(s, src, m, pick).Some? <==> WelcomeMessage(s, m)
    ensures WelcomeMessage(s, m) ==>
              var t := HandleMessage(s, src, m, pick).value.0;
              Valid(t) && t.sock == s.sock && t.counter == s.counter
  {
    match m
    case Answer(op, id, _) =>
      StopKeepsValid(s, PendingEvent(op, id), pick);
    case SetupRequest(node) =>
      hide Inverse, Consistent;
      SetUpKeepsConsistent(s.tables, node, src);
    case Indication(_, _) =>
    case Request(_, _, _) =>
    case SetupResponse =>
  }

  /** What the event loop survives, exactly, and that it stays valid then. */
  lemma StepSurvives(s: RicState, a: Arrival)
    requires Valid(s) && PickOk(s, a)
    ensures Step(s, a).Some? <==> Welcome(s, a)
    ensures Welcome(s, a) ==>
              var t := Step(s, a).value.0; Valid(t) && t.sock == s.sock && t.counter == s.counter
  {
    hide Inverse, Consistent, HandleMessage, ShutDown, WelcomeMessage;
    match a
    case Nothing =>
    case TimerReady(_) =>
    case Shutdown(src, node) => ShutDownKeepsConsistent(s.tables, src, node);
    case Payload(src, m, pick) =>
      PayloadIsHandled(s, src, m, pick);
      MessageSurvives(s, src, m, pick);
  }

  /** An idle turn changes nothing and sends nothing. */
  lemma IdleSurvives(s: RicState)
    ensures Step(s, Nothing) == Some((s, []))
  {
  }

  /** A message and where its bytes go. */
  datatype Sent = Sent(dest: Addr, msg: Message)

  /** What happens at the RIC: its threads issue requests, its event loop takes arrivals. */
  datatype Act =
    | Issuing(node: NodeId, op: Op, func: nat, forwarded: bool, timer: Fd)
    | Deleting(node: NodeId, id: RicId, timer: Fd)
    | Hearing(arrival: Arrival)

  /** Timer first, then the table, and only then the bytes leave, for the address the node must
      have. */
  function Launch(s: RicState, node: NodeId, ev: PendingEvent, timer: Fd): (r: Option<(RicState, seq<Sent>)>) {
    match AddressOf(s.tables, node)
    case None => None
    case Some(dest) => Some((Arm(s, ev, timer), [Sent(dest, Request(ev.op, ev.id, 0))]))
  }

  /** Answers go back to where the message came from. */
  function Back(a: Arrival, answers: seq<Message>): (sent: seq<Sent>) {
    if a.Payload? then seq(|answers|, i requires 0 <= i < |answers| => Sent(a.src, answers[i])) else []
  }

  function Do(s: RicState, act: Act): (r: Option<(RicState, seq<Sent>)>) {
    match act
    case Issuing(node, op, func, forwarded, timer) =>
      var ev := PendingEvent(op, RicId(IdOf(s.counter, forwarded), 0, func));
      Launch(s.(counter := Next(s.counter)), node, ev, timer)
    case Deleting(node, id, timer) => Launch(s, node, PendingEvent(Delete, id), timer)
    case Hearing(a) =>
      match Step(s, a)
      case None => None
      case Some((t, answers)) => Some((t, Back(a, answers)))
  }

  class Ric {
    const sock: Fd
    var fds: set<Fd>
    var counter: int
    var pending: BiMap<Fd, PendingEvent, PendingEvent>
    var addrs: BiMap<NodeId, Addr, Addr>
    var iapp: set<NodeId>
    var conn: seq<NodeId>

    ghost function State(): RicState
      reads this
    {
      RicState(sock, fds, counter, pending, Tables(addrs, iapp, conn))
    }

    constructor (sock: Fd)
      ensures State() == RicState(sock, {sock}, FIRST, BiMap(map[], map[]), EMPTY)
      ensures Valid(State())
    {
      this.sock := sock;
      fds := {sock};
      counter := FIRST;
      pending := BiMap(map[], map[]);
      addrs := BiMap(map[], map[]);
      iapp := {};
      conn := [];
    }

    /** Reads the counter and moves it on. */
    method TakeId(forwarded: bool) returns (id: nat)
      modifies this`counter
      ensures id == IdOf(old(counter), forwarded) && counter == Next(old(counter))
    {
      id := if forwarded then Cut16(counter) else Cut32(counter);
      counter := if counter == 0x7fff_ffff then -0x8000_0000 else counter + 1;
    }

    /** Timer first, then the table, and only then the bytes leave, if the node has an address. */
    method SendRequest(node: NodeId, ev: PendingEvent, timer: Fd) returns (sent: Option<Sent>)
      requires timer !in fds
      modifies this`fds, this`pending
      ensures State() == Arm(old(State()), ev, timer)
      ensures sent.Some? <==> Launch(old(State()), node, ev, timer).Some?
      ensures sent.Some? ==> Launch(old(State()), node, ev, timer) == Some((State(), [sent.value]))
    {
      fds := fds + {timer};
      pending := BiMap(pending.left[timer := ev], pending.right[timer := ev]);
      if node !in addrs.left {
        return None;
      }
      sent := Some(Sent(addrs.left[node], Request(ev.op, ev.id, 0)));
    }

    /** A subscription or a control request on a new id. */
    method Issue(node: NodeId, op: Op, func: nat, forwarded: bool, timer: Fd)
      returns (reqId: nat, sent: Option<Sent>)
      requires timer !in fds && op != Delete
      modifies this`fds, this`pending, this`counter
      ensures reqId == IdOf(old(counter), forwarded) && counter == Next(old(counter))
      ensures State() == Arm(old(State()).(counter := counter), PendingEvent(op, RicId(reqId, 0, func)), timer)
      ensures var did := Do(old(State()), Issuing(node, op, func, forwarded, timer));
              && (sent.Some? <==> did.Some?)
              && (sent.Some? ==> did == Some((State(), [sent.value])))
    {
      reqId := TakeId(forwarded);
      sent := SendRequest(node, PendingEvent(op, RicId(reqId, 0, func)), timer);
    }

    /** A delete reuses the id of the subscription it ends. */
    method ForwardDelete(node: NodeId, id: RicId, timer: Fd) returns (sent: Option<Sent>)
      requires timer !in fds
      modifies this`fds, this`pending
      ensures State() == Arm(old(State()), PendingEvent(Delete, id), timer)
      ensures var did := Do(old(State()), Deleting(node, id, timer));
              && (sent.Some? <==> did.Some?)
              && (sent.Some? ==> did == Some((State(), [sent.value])))
    {
      sent := SendRequest(node, PendingEvent(Delete, id), timer);
    }

    method StopPendingEvent(ev: PendingEvent, pick: Fd) returns (ok: bool)
      modifies this`fds, this`pending
      ensures ok <==> StopPending(old(State()), ev, pick).Some?
      ensures ok ==> State() == StopPending(old(State()), ev, pick).value
    {
      match ExtractRight(pending, PendingKey, ev, pick)
      case None => ok := false;
      case Some((fd, rest)) =>
        pending := rest;
        ok := fd in fds;
        fds := fds - {fd};
    }

    /** The node is looked up by its address, then searched for in the list from the front. */
    method NotificationHandle(src: Addr, node: NodeId) returns (ok: bool)
      modifies this`addrs, this`iapp, this`conn
      ensures ok <==> ShutDown(old(State()).tables, src, node).Some?
      ensures ok ==> State() == old(State()).(tables := ShutDown(old(State()).tables, src, node).value)
    {
      match ExtractRight(addrs, AddrKey, src, node)
      case None => ok := false;
      case Some((id, rest)) =>
        addrs := rest;
        var it := 0;
        while it < |conn| && conn[it] != id
          invariant it <= |conn| && id !in conn[..it]
        {
          it := it + 1;
        }
        ok := it < |conn|;
        if ok {
          IndexOfUnique(conn, id, it);
          conn := conn[..it] + conn[it + 1..];
          ok := id in iapp;
          iapp := iapp - {id};
        }
    }

    /** The address is recorded, the iApp takes the node, and only then is it appended. */
    method HandleSetupRequest(node: NodeId, src: Addr) returns (ok: bool)
      modifies this`addrs, this`iapp, this`conn
      ensures ok <==> SetUp(old(State()).tables, node, src).Some?
      ensures ok ==> State() == old(State()).(tables := SetUp(old(State()).tables, node, src).value)
    {
      addrs := BiMap(addrs.left[node := src], addrs.right[node := src]);
      ok := node !in iapp;
      if ok {
        iapp := iapp + {node};
        conn := conn + [node];
      }
    }

    /** Decoded message in, answers out. */
    method MessageHandle(src: Addr, msg: Message, pick: Fd) returns (ok: bool, answers: seq<Message>)
      modifies this
      ensures ok <==> HandleMessage(old(State()), src, msg, pick).Some?
      ensures ok ==> (State(), answers) == HandleMessage(old(State()), src, msg, pick).value
    {
      ok, answers := true, [];
      match msg
      case Answer(op, id, action) =>
        ok := StopPendingEvent(PendingEvent(op, id), pick);
        ok := ok && (op != Subscribe || action == 0);
      case Indication(_, _) =>
      case SetupRequest(node) =>
        ok := HandleSetupRequest(node, src);
        answers := [SetupResponse];
      case Request(_, _, _) => ok := false;
      case SetupResponse => ok := false;
    }

    /** One turn of the event loop: dispatch the ready descriptor, handle, answer. */
    method Turn(a: Arrival) returns (ok: bool, answers: seq<Message>)
      modifies this
      ensures ok <==> Step(old(State()), a).Some?
      ensures ok ==> (State(), answers) == Step(old(State()), a).value
    {
      ok, answers := true, [];
      match a
      case Nothing =>
      case TimerReady(fd) =>
        ok := fd == sock || (|pending.left| == 1 && fd in pending.left);
      case Shutdown(src, node) =>
        ok := NotificationHandle(src, node);
      case Payload(src, msg, pick) =>
        ok, answers := MessageHandle(src, msg, pick);
    }
  }
}
