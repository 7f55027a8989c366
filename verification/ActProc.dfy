/** The xApp's registry of active procedures: it hands out the request ids and finds, by id,
    the procedure and the callback an incoming message belongs to. */
module ActProc {
  import opened Containers
  import opened E2apTypes
  import R = Registry

  datatype Kind = Subscription | ControlProcedure

  /** A registered procedure.  Its id is stored with request id 0; each lookup writes the key
      into it. */
  datatype Proc = Proc(kind: Kind, id: RicId, node: NodeId, cb: Option<nat>)

  datatype Procs = Procs(table: map<nat, Proc>, next: nat)

  const SM_MAC_ID: nat := 142
  const SM_RLC_ID: nat := 143
  const SM_PDCP_ID: nat := 144
  const SM_SLICE_ID: nat := 145
  const SM_TC_ID: nat := 146
  const SM_KPM_ID: nat := 147
  const SM_GTP_ID: nat := 148

  /** The service models the xApp accepts. */
  predicate ValidFunc(func: nat) {
    || func == SM_SLICE_ID
    || func == SM_MAC_ID
    || func == SM_RLC_ID
    || func == SM_PDCP_ID
    || func == SM_TC_ID
    || func == SM_GTP_ID
    || func == SM_KPM_ID
  }

  function Patched(p: Proc, key: nat): Proc { p.(id := p.id.(reqId := key)) }

  /** Registers a procedure under the next key; keys of 17 bits abort. */
  function Issue(p: Procs, kind: Kind, func: nat, node: NodeId, cb: Option<nat>): (r: Option<(nat, Procs)>) {
    if !ValidFunc(func) || p.next >= 0x1_0000 then None
    else Some((p.next, Procs(p.table[p.next := Proc(kind, RicId(0, 0, func), node, cb)], p.next + 1)))
  }

  /** The procedure under a key, patched, and the table with the patch in it. */
  function Look(p: Procs, key: nat): (r: Option<(Option<Proc>, Procs)>) {
    if key == 0 then None
    else if key !in p.table then Some((None, p))
    else Some((Some(Patched(p.table[key], key)), p.(table := p.table[key := Patched(p.table[key], key)])))
  }

  function Remove(p: Procs, key: nat): (r: Option<Procs>) {
    if key == 0 || key !in p.table then None else Some(p.(table := p.table - {key}))
  }

  /** An indication goes to the callback of the procedure under its request id, or is dropped. */
  function Dispatch(p: Procs, key: nat): (r: Option<(Option<Option<nat>>, Procs)>) {
    match Look(p, key)
    case None => None
    case Some((None, q)) => Some((None, q))
    case Some((Some(proc), q)) => Some((Some(proc.cb), q))
  }

  // --------------------------------------------------------------------------- histories

  datatype Call =
    | Issued(kind: Kind, func: nat, node: NodeId, cb: Option<nat>)
    | Looked(key: nat)
    | Removed(key: nat)
    | Indicated(key: nat)

  function Handle(p: Procs, c: Call): (r: Option<Procs>) {
    match c
    case Issued(kind, func, node, cb) =>
      if Issue(p, kind, func, node, cb).None? then None else Some(Issue(p, kind, func, node, cb).value.1)
    case Looked(key) => if Look(p, key).None? then None else Some(Look(p, key).value.1)
    case Removed(key) => Remove(p, key)
    case Indicated(key) => if Dispatch(p, key).None? then None else Some(Dispatch(p, key).value.1)
  }

  /** The registry after a history, or None once an assertion broke. */
  function Replay(h: seq<Call>): (r: Option<Procs>) {
    if h == [] then Some(Procs(map[], 1))
    else
      match Replay(h[..|h| - 1])
      case None => None
      case Some(p) => Handle(p, h[|h| - 1])
  }

  function Issues(h: seq<Call>): (n: nat)
    ensures n <= |h|
  {
    if h == [] then 0 else Issues(h[..|h| - 1]) + if h[|h| - 1].Issued? then 1 else 0
  }

  /** What was asked for under `key`, as the asker knows it, and not removed since: told from
      the history alone. */
  function Asked(h: seq<Call>, key: nat): (r: Option<Proc>) {
    if h == [] then None
    else
      match h[|h| - 1]
      case Issued(kind, func, node, cb) =>
        if key == Issues(h) then Some(Proc(kind, RicId(key, 0, func), node, cb)) else Asked(h[..|h| - 1], key)
      case Removed(k) => if k == key then None else Asked(h[..|h| - 1], key)
      case _ => Asked(h[..|h| - 1], key)
  }

  /** The stored copy agrees with the request but for a request id that may not be patched yet. */
  ghost predicate Agrees(h: seq<Call>, p: Procs) {
    && p.next == 1 + Issues(h)
    && (forall key :: key in p.table <==> Asked(h, key).Some?)
    && (forall key | key in p.table :: 0 < key < p.next && Patched(p.table[key], key) == Asked(h, key).value)
  }

  lemma HandleAgrees(h: seq<Call>, c: Call, p: Procs)
    requires Agrees(h, p) && Handle(p, c).Some?
    ensures Agrees(h + [c], Handle(p, c).value)
  {
    hide ValidFunc;
    assert (h + [c])[..|h|] == h;
  }

  /** Whatever the history, the registry holds exactly what was asked for and not removed. */
  lemma {:induction false} ReplayMeetsHistory(h: seq<Call>)
    requires Replay(h).Some?
    ensures Agrees(h, Replay(h).value)
  {
    if h != [] {
      var first := h[..|h| - 1];
      ReplayMeetsHistory(first);
      HandleAgrees(first, h[|h| - 1], Replay(first).value);
      assert first + [h[|h| - 1]] == h;
    }
  }

  /** A lookup hands out the procedure with the very id its request was given, whether or not
      it was looked up before. */
  lemma LookupGivesOriginal(h: seq<Call>, key: nat)
    requires Replay(h).Some?
    ensures Look(Replay(h).value, key).None? <==> key == 0
    ensures key > 0 ==> Look(Replay(h).value, key).value.0 == Asked(h, key)
  {
    ReplayMeetsHistory(h);
  }

  /** An indication reaches exactly the callback registered under its id, or is dropped when
      nothing is registered under it. */
  lemma DispatchReachesCallback(h: seq<Call>, key: nat)
    requires Replay(h).Some? && key > 0
    ensures Dispatch(Replay(h).value, key).Some?
    ensures Dispatch(Replay(h).value, key).value.0 ==
            if Asked(h, key).Some? then Some(Asked(h, key).value.cb) else None
  {
    LookupGivesOriginal(h, key);
  }

  ghost predicate Welcome(h: seq<Call>, c: Call) {
    match c
    case Issued(_, func, _, _) => 142 <= func <= 148 && Issues(h) < 0xffff
    case Looked(key) => key > 0
    case Removed(key) => Asked(h, key).Some?
    case Indicated(key) => key > 0
  }

  /** What breaks an assertion: the 65536th registration, a service model outside 142 to 148, the
      id 0, and the removal of what is not registered; nothing else. */
  lemma CallSurvives(h: seq<Call>, c: Call)
    requires Replay(h).Some?
    ensures Replay(h + [c]).Some? <==> Welcome(h, c)
  {
    assert (h + [c])[..|h|] == h;
    ReplayMeetsHistory(h);
  }

  lemma {:induction false} PrefixSurvives(h: seq<Call>, i: nat)
    requires Replay(h).Some? && i <= |h|
    ensures Replay(h[..i]).Some?
    decreases |h|
  {
    if i == |h| {
      assert h[..i] == h;
    } else {
      var first := h[..|h| - 1];
      PrefixSurvives(first, i);
      assert first[..i] == h[..i];
    }
  }

  lemma {:induction false} IssuesGrow(h: seq<Call>, i: nat)
    requires i <= |h|
    ensures Issues(h[..i]) <= Issues(h)
    decreases |h|
  {
    if i == |h| {
      assert h[..i] == h;
    } else {
      var first := h[..|h| - 1];
      IssuesGrow(first, i);
      assert first[..i] == h[..i];
    }
  }

  /** Call `i` registered a procedure under `key`. */
  ghost predicate IssuedAt(h: seq<Call>, i: int, key: nat) {
    0 <= i < |h| && h[i].Issued? && Issues(h[..i + 1]) == key
  }

  /** Registrations at different times have different keys, later ones the larger. */
  lemma KeysIncrease(h: seq<Call>, i: int, j: int, k: nat, l: nat)
    requires IssuedAt(h, i, k) && IssuedAt(h, j, l) && i < j
    ensures k < l
  {
    var upto := h[..j + 1];
    assert upto[..|upto| - 1] == h[..j] && upto[|upto| - 1] == h[j];
    IssuesGrow(h[..j], i + 1);
    assert h[..j][..i + 1] == h[..i + 1];
  }

  ghost predicate NotRemovedAfter(h: seq<Call>, i: int, key: nat)
    requires 0 <= i < |h|
  {
    forall j | i < j < |h| :: h[j] != Removed(key)
  }

  function ProcOf(c: Call, key: nat): Proc
    requires c.Issued?
  {
    Proc(c.kind, RicId(key, 0, c.func), c.node, c.cb)
  }

  lemma {:induction false} AskedWasIssued(h: seq<Call>, key: nat) returns (i: int)
    requires Asked(h, key).Some?
    ensures IssuedAt(h, i, key) && NotRemovedAfter(h, i, key) && Asked(h, key) == Some(ProcOf(h[i], key))
  {
    var first := h[..|h| - 1];
    if h[|h| - 1].Issued? && Issues(h) == key {
      i := |h| - 1;
      assert h[..i + 1] == h;
    } else {
      i := AskedWasIssued(first, key);
      assert first[..i + 1] == h[..i + 1];
      assert forall j | i < j < |h| - 1 :: first[j] != Removed(key);
    }
  }

  lemma {:induction false} IssuedIsAsked(h: seq<Call>, i: int, key: nat)
    requires IssuedAt(h, i, key) && NotRemovedAfter(h, i, key)
    ensures Asked(h, key) == Some(ProcOf(h[i], key))
  {
    if i == |h| - 1 {
      assert h[..i + 1] == h;
    } else {
      var first := h[..|h| - 1];
      assert first[..i + 1] == h[..i + 1];
      IssuedIsAsked(first, i, key);
      if h[|h| - 1].Issued? {
        assert h[..|h|] == h;
        KeysIncrease(h, i, |h| - 1, key, Issues(h));
      }
    }
  }

  /** An id names the registration that was given it, until it is removed. */
  lemma AskedMeans(h: seq<Call>, key: nat, p: Proc)
    ensures Asked(h, key) == Some(p) <==>
            exists i :: IssuedAt(h, i, key) && NotRemovedAfter(h, i, key) && p == ProcOf(h[i], key)
  {
    if Asked(h, key).Some? {
      var i := AskedWasIssued(h, key);
    }
    forall i | IssuedAt(h, i, key) && NotRemovedAfter(h, i, key)
      ensures Asked(h, key) == Some(ProcOf(h[i], key))
    {
      IssuedIsAsked(h, i, key);
    }
  }

  /** A removed id is never given out again: from its removal on, indications under it are
      dropped for the rest of every history. */
  lemma RemovedForGood(h: seq<Call>, i: nat, key: nat)
    requires Replay(h).Some? && i < |h| && h[i] == Removed(key)
    ensures Asked(h, key).None?
    ensures Dispatch(Replay(h).value, key) == Some((None, Replay(h).value))
  {
    PrefixSurvives(h, i + 1);
    assert h[..i + 1] == h[..i] + [h[i]];
    PrefixSurvives(h, i);
    CallSurvives(h[..i], h[i]);
    var j := AskedWasIssued(h[..i], key);
    assert h[..i][..j + 1] == h[..j + 1];
    if Asked(h, key).Some? {
      var l := AskedWasIssued(h, key);
      KeysIncrease(h, j, l, key, key);
    }
    CallSurvives(h[..i], Removed(key));
    ReplayMeetsHistory(h[..i]);
    DispatchReachesCallback(h, key);
  }

  // ---------------------------------------------------------------------------- the object

  class ActiveProcs {
    const reg: R.Registry<Proc>

    ghost function State(): Procs
      requires reg.occ <= reg.arr.Length
      reads this, reg, reg.arr
    {
      Procs(reg.Contents(), reg.keyId)
    }

    ghost predicate Valid()
      reads this, reg, reg.arr
    {
      reg.Valid() && reg.keyId <= 0x1_0000
    }

    constructor ()
      ensures Valid() && fresh(reg) && fresh(reg.arr) && State() == Procs(map[], 1)
    {
      reg := new R.Registry<Proc>();
    }

    /** Registers and makes the id; the registration comes before the width is checked. */
    method GenerateRicGenId(kind: Kind, func: nat, node: NodeId, cb: Option<nat>) returns (ok: bool, id: RicId)
      requires Valid()
      modifies reg, reg.arr
      ensures reg.arr == old(reg.arr) || fresh(reg.arr)
      ensures ok <==> Issue(old(State()), kind, func, node, cb).Some?
      ensures ok ==> Valid() && (id.reqId, State()) == Issue(old(State()), kind, func, node, cb).value
      ensures ok ==> id == RicId(id.reqId, 0, func)
    {
      id := RicId(0, 0, func);
      if !ValidFunc(func) {
        return false, id;
      }
      var key := reg.PushBack(Proc(kind, id, node, cb));
      id := RicId(key, 0, func);
      ok := key < 0x1_0000;
    }

    /** Looks a procedure up by its 16-bit id and patches the stored copy. */
    method FindActProc(key: nat) returns (ok: bool, ans: Option<Proc>)
      requires Valid()
      modifies reg, reg.arr
      ensures ok <==> Look(old(State()), key).Some?
      ensures ok ==> Valid() && reg.arr == old(reg.arr) && (ans, State()) == Look(old(State()), key).value
    {
      ans := None;
      var it;
      ok, it := reg.Find(key);
      if ok && it < reg.occ {
        var val := reg.arr[it].val;
        val := val.(id := val.id.(reqId := key));
        reg.Write(it, val);
        ans := Some(val);
      }
    }

    method RmActProc(key: nat) returns (ok: bool)
      requires Valid()
      modifies reg, reg.arr
      ensures reg.arr == old(reg.arr) || fresh(reg.arr)
      ensures ok <==> Remove(old(State()), key).Some?
      ensures ok ==> Valid() && State() == Remove(old(State()), key).value
    {
      var it;
      ok, it := reg.Find(key);
      ok := ok && it != reg.occ;
      if ok {
        var next := reg.Next(it);
        R.CutOne(reg.Buckets(), reg.keyId, it, next);
        reg.Erase(it, next);
      }
    }

    /** An indication: the callback it is queued for, if its procedure is registered. */
    method HandleIndication(key: nat) returns (ok: bool, queued: Option<Option<nat>>)
      requires Valid()
      modifies reg, reg.arr
      ensures ok <==> Dispatch(old(State()), key).Some?
      ensures ok ==> Valid() && reg.arr == old(reg.arr) && (queued, State()) == Dispatch(old(State()), key).value
    {
      queued := None;
      var ans;
      ok, ans := FindActProc(key);
      if ok && ans.Some? {
        queued := Some(ans.value.cb);
      }
    }
  }
}
