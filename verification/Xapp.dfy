/** The xApp's event loop: its pending table, whose right order looks at the kind of an event
    only, and the handlers of the answers it waits for. */
module Xapp {
  import opened Containers
  import opened E2apTypes
  import P = ActProc

  datatype Event = SetupPending | ReportPending | DeletePending | ControlPending

  datatype Entry = Entry(ev: Event, id: RicId)

  /** Two entries of one kind are the same to the right tree, whatever their ids. */
  function EntryKey(e: Entry): Event { e.ev }

  datatype XState = XState(
    sock: Fd,
    fds: set<Fd>,
    pending: BiMap<Fd, Entry, Event>,
    procs: P.Procs,
    connected: bool,
    signalled: bool)

  /** What the event loop handles; `pick` is the node that the search for the timer to stop
      meets in its tree. */
  datatype Input =
    | SetupAnswer(pick: Fd)
    | Response(ev: Event, key: nat, pick: Fd)
    | IndicationFor(key: nat)
    | TimerReady(fd: Fd)

  function AddPending(x: XState, e: Entry, timer: Fd): (y: XState) {
    x.(fds := x.fds + {timer}, pending := Insert(x.pending, EntryKey, timer, e))
  }

  /** Forgets an entry of a kind and closes its timer; the table must shrink by one. */
  function RmPending(x: XState, ev: Event, pick: Fd): (r: Option<XState>) {
    match ExtractRight(x.pending, EntryKey, ev, pick)
    case None => None
    case Some((fd, p)) =>
      if |x.pending.left| != |p.left| + 1 || fd !in x.fds then None
      else Some(x.(fds := x.fds - {fd}, pending := p))
  }

  /** An answer must name a registered procedure and find an entry of its kind; then the caller
      is signalled. */
  function HandleResponse(x: XState, ev: Event, key: nat, pick: Fd): (r: Option<XState>) {
    match P.Look(x.procs, key)
    case None => None
    case Some((None, _)) => None
    case Some((Some(_), procs)) =>
      match RmPending(x.(procs := procs), ev, pick)
      case None => None
      case Some(y) => Some(y.(signalled := true))
  }

  function HandleSetupAnswer(x: XState, pick: Fd): (r: Option<XState>) {
    if x.connected then None
    else
      match RmPending(x, SetupPending, pick)
      case None => None
      case Some(y) => Some(y.(connected := true))
  }

  /** A timer that fires resends the setup request; for every other kind it aborts. */
  function HandleTimer(x: XState, fd: Fd): (r: Option<XState>) {
    if fd in x.pending.left && x.pending.left[fd].ev == SetupPending then Some(x) else None
  }

  function Step(x: XState, i: Input): (r: Option<XState>) {
    match i
    case SetupAnswer(pick) => HandleSetupAnswer(x, pick)
    case Response(ev, key, pick) => if ev == SetupPending then None else HandleResponse(x, ev, key, pick)
    case IndicationFor(key) =>
      (match P.Dispatch(x.procs, key)
       case None => None
       case Some((_, procs)) => Some(x.(procs := procs)))
    case TimerReady(fd) => if fd == x.sock then Some(x) else HandleTimer(x, fd)
  }

  ghost predicate Valid(x: XState) {
    && Inverse(x.pending, EntryKey)
    && x.fds == {x.sock} + x.pending.left.Keys
    && x.sock !in x.pending.left
  }

  /** A search meets a node it looks for. */
  ghost predicate PickOk(x: XState, i: Input) {
    match i
    case SetupAnswer(pick) => Meets(x.pending, SetupPending, pick)
    case Response(ev, _, pick) => Meets(x.pending, ev, pick)
    case IndicationFor(_) => true
    case TimerReady(_) => true
  }

  /** An entry is always added; the table stays a bijection exactly when none of its kind is
      pending, ids aside. */
  lemma AddKeepsValid(x: XState, e: Entry, timer: Fd)
    requires Valid(x) && timer !in x.fds
    ensures var y := AddPending(x, e, timer);
            Valid(y) && (Unique(y.pending) <==> Unique(x.pending) && !Has(x.pending, e.ev))
  {
    hide Inverse, Unique;
    InsertKeepsInverse(x.pending, EntryKey, timer, e);
  }

  /** A removal finds an entry exactly when the kind is pending, and the table shrinks by exactly
      that one entry. */
  lemma RmKeepsValid(x: XState, ev: Event, pick: Fd)
    requires Valid(x) && Meets(x.pending, ev, pick)
    ensures RmPending(x, ev, pick).Some? <==> Has(x.pending, ev)
    ensures Has(x.pending, ev) ==>
              var y := RmPending(x, ev, pick).value;
              && Valid(y)
              && |y.pending.left| == |x.pending.left| - 1
              && pick in x.pending.left && x.pending.left[pick].ev == ev
              && y == x.(fds := x.fds - {pick}, pending := BiMap(x.pending.left - {pick}, x.pending.right - {pick}))
  {
    ExtractKeepsInverse(x.pending, EntryKey, ev, pick);
    if Has(x.pending, ev) {
      var (fd, rest) := ExtractRight(x.pending, EntryKey, ev, pick).value;
      assert fd in x.pending.left && fd in x.fds;
      assert RmPending(x, ev, pick) == Some(x.(fds := x.fds - {fd}, pending := rest)) by { hide Inverse; }
      ClosedIsValid(x, fd, rest);
    }
  }

  lemma ClosedIsValid(x: XState, fd: Fd, rest: BiMap<Fd, Entry, Event>)
    requires Valid(x) && fd in x.pending.left
    requires Inverse(rest, EntryKey) && rest.left == x.pending.left - {fd}
    ensures Valid(x.(fds := x.fds - {fd}, pending := rest))
  {
    hide Inverse;
    assert rest.left.Keys == x.pending.left.Keys - {fd};
  }

  ghost predicate Welcome(x: XState, i: Input) {
    match i
    case SetupAnswer(_) => !x.connected && Has(x.pending, SetupPending)
    case Response(ev, key, _) => ev != SetupPending && key > 0 && key in x.procs.table && Has(x.pending, ev)
    case IndicationFor(key) => key > 0
    case TimerReady(fd) => fd == x.sock || (fd in x.pending.left && x.pending.left[fd].ev == SetupPending)
  }

  /** What the event loop survives, exactly, and that it stays valid then. */
  lemma StepSurvives(x: XState, i: Input)
    requires Valid(x) && PickOk(x, i)
    ensures Step(x, i).Some? <==> Welcome(x, i)
    ensures Welcome(x, i) ==> Valid(Step(x, i).value)
  {
    hide Inverse, RmPending, HandleResponse, HandleSetupAnswer, Meets, Has;
    match i
    case SetupAnswer(pick) => SetupAnswerSurvives(x, pick);
    case Response(ev, key, pick) => ResponseSurvives(x, ev, key, pick);
    case IndicationFor(_) =>
    case TimerReady(_) =>
  }

  lemma SetupAnswerSurvives(x: XState, pick: Fd)
    requires Valid(x) && Meets(x.pending, SetupPending, pick)
    ensures HandleSetupAnswer(x, pick).Some? <==> !x.connected && Has(x.pending, SetupPending)
    ensures HandleSetupAnswer(x, pick).Some? ==>
              var y := HandleSetupAnswer(x, pick).value;
              && Valid(y) && y.connected && y.signalled == x.signalled && y.procs == x.procs
              && pick in x.pending.left && x.pending.left[pick].ev == SetupPending
              && y.pending == BiMap(x.pending.left - {pick}, x.pending.right - {pick})
  {
    hide Inverse, RmPending, Meets, Has;
    RmKeepsValid(x, SetupPending, pick);
  }

  lemma ResponseSurvives(x: XState, ev: Event, key: nat, pick: Fd)
    requires Valid(x) && Meets(x.pending, ev, pick)
    ensures HandleResponse(x, ev, key, pick).Some? <==> key > 0 && key in x.procs.table && Has(x.pending, ev)
    ensures HandleResponse(x, ev, key, pick).Some? ==>
              var y := HandleResponse(x, ev, key, pick).value;
              && Valid(y) && y.signalled && y.connected == x.connected
              && pick in x.pending.left && x.pending.left[pick].ev == ev
              && y.pending == BiMap(x.pending.left - {pick}, x.pending.right - {pick})
              && y.procs == P.Look(x.procs, key).value.1
  {
    hide Inverse, RmPending, Meets, Has;
    if key > 0 && key in x.procs.table {
      RmKeepsValid(x.(procs := P.Look(x.procs, key).value.1), ev, pick);
    }
  }

  /** What a survived input does, to all of the state: an answer ends the entry its search meets and
      closes that timer, and a call's answer also signals; an indication only looks its procedure
      up, and a timer changes nothing. */
  lemma StepDoes(x: XState, i: Input)
    requires Valid(x) && PickOk(x, i) && Step(x, i).Some?
    ensures i.Response? || i.IndicationFor? ==> P.Look(x.procs, i.key).Some?
    ensures Step(x, i).value ==
            match i
            case SetupAnswer(pick) => Closed(x, pick).(connected := true)
            case Response(_, key, pick) => Closed(x, pick).(signalled := true, procs := P.Look(x.procs, key).value.1)
            case IndicationFor(key) => x.(procs := P.Look(x.procs, key).value.1)
            case TimerReady(_) => x
  {
    hide Inverse, RmPending, Has, P.Look, Meets, Valid;
    match i
    case SetupAnswer(pick) => RmKeepsValid(x, SetupPending, pick);
    case Response(ev, key, pick) =>
      RmKeepsValid(x.(procs := P.Look(x.procs, key).value.1), ev, pick) by { SameTimers(x, P.Look(x.procs, key).value.1); }
    case IndicationFor(_) =>
    case TimerReady(_) =>
  }

  lemma SameTimers(x: XState, procs: P.Procs)
    requires Valid(x)
    ensures Valid(x.(procs := procs))
  {
  }

  function Closed(x: XState, fd: Fd): (y: XState) {
    x.(fds := x.fds - {fd}, pending := BiMap(x.pending.left - {fd}, x.pending.right - {fd}))
  }

  // ---------------------------------------------------------------------------- the object

  class EventLoop {
    const sock: Fd
    const procs: P.ActiveProcs
    var fds: set<Fd>
    var pending: BiMap<Fd, Entry, Event>
    var connected: bool
    var signalled: bool

    ghost predicate Sound()
      reads this, procs, procs.reg, procs.reg.arr
    {
      procs.Valid()
    }

    ghost function State(): XState
      requires Sound()
      reads this, procs, procs.reg, procs.reg.arr
    {
      XState(sock, fds, pending, procs.State(), connected, signalled)
    }

    constructor (sock: Fd)
      ensures Sound() && fresh(procs) && fresh(procs.reg) && fresh(procs.reg.arr)
      ensures State() == XState(sock, {sock}, BiMap(map[], map[]), P.Procs(map[], 1), false, false)
    {
      this.sock := sock;
      procs := new P.ActiveProcs();
      fds := {sock};
      pending := BiMap(map[], map[]);
      connected := false;
      signalled := false;
    }

    method AddPendingEvent(e: Entry, timer: Fd)
      requires Sound() && timer !in fds
      modifies this
      ensures Sound() && State() == AddPending(old(State()), e, timer)
    {
      fds := fds + {timer};
      pending := BiMap(pending.left[timer := e], pending.right[timer := e.ev]);
    }

    method RmPendingEvent(ev: Event, pick: Fd) returns (ok: bool)
      requires Sound()
      modifies this
      ensures Sound()
      ensures ok <==> RmPending(old(State()), ev, pick).Some?
      ensures ok ==> State() == RmPending(old(State()), ev, pick).value
    {
      var sz := |pending.left|;
      match ExtractRight(pending, EntryKey, ev, pick)
      case None => ok := false;
      case Some((fd, rest)) =>
        ok := sz == |rest.left| + 1 && fd in fds;
        pending := rest;
        fds := fds - {fd};
    }

    /** The three handlers of call answers, which differ in the kind of event they end. */
    method OnResponse(ev: Event, key: nat, pick: Fd) returns (ok: bool)
      requires Sound()
      modifies this, procs.reg, procs.reg.arr
      ensures ok <==> HandleResponse(old(State()), ev, key, pick).Some?
      ensures ok ==> Sound() && State() == HandleResponse(old(State()), ev, key, pick).value
    {
      hide RmPending;
      ghost var start := State();
      var ans;
      ok, ans := procs.FindActProc(key);
      assert ok ==> State() == start.(procs := P.Look(start.procs, key).value.1);
      if ok && ans.Some? {
        ok := RmPendingEvent(ev, pick);
        signalled := true;
      } else {
        ok := false;
      }
    }

    method OnSetupAnswer(pick: Fd) returns (ok: bool)
      requires Sound()
      modifies this
      ensures Sound()
      ensures ok <==> HandleSetupAnswer(old(State()), pick).Some?
      ensures ok ==> State() == HandleSetupAnswer(old(State()), pick).value
    {
      if connected {
        return false;
      }
      ok := RmPendingEvent(SetupPending, pick);
      connected := true;
    }

    /** One turn of the event loop. */
    method Turn(i: Input) returns (ok: bool)
      requires Sound()
      modifies this, procs.reg, procs.reg.arr
      ensures ok <==> Step(old(State()), i).Some?
      ensures ok ==> Sound() && State() == Step(old(State()), i).value
    {
      match i
      case SetupAnswer(pick) => ok := OnSetupAnswer(pick);
      case Response(ev, key, pick) =>
        if ev == SetupPending {
          return false;
        }
        ok := OnResponse(ev, key, pick);
      case IndicationFor(key) =>
        var queued;
        ok, queued := procs.HandleIndication(key);
      case TimerReady(fd) =>
        ok := fd == sock || (fd in pending.left && pending.left[fd].ev == SetupPending);
    }
  }
}
