/** The RIC's records of the connected E2 nodes: the bimap between node id and SCTP address,
    the registry of the iApp, and the sequence of nodes in the order of their setups. */
module NodeTables {
  import opened Containers
  import opened E2apTypes

  datatype Tables = Tables(addrs: BiMap<NodeId, Addr, Addr>, iapp: set<NodeId>, conn: seq<NodeId>)

  const EMPTY := Tables(BiMap(map[], map[]), {}, [])

  /** A setup request from `addr`: the address is recorded, the iApp asserts that it does not
      have the id yet, and the node is appended.  Nothing looks at whether the address is held. */
  function SetUp(t: Tables, id: NodeId, addr: Addr): (r: Option<Tables>) {
    if id in t.iapp then None
    else Some(Tables(Insert(t.addrs, AddrKey, id, addr), t.iapp + {id}, t.conn + [id]))
  }

  /** Position of the first occurrence, or the length. */
  function IndexOf(s: seq<NodeId>, id: NodeId): (i: nat)
    ensures i <= |s|
    ensures i < |s| ==> s[i] == id
    ensures id !in s[..i]
    ensures i == |s| <==> id !in s
  {
    if s == [] || s[0] == id then 0
    else
      assert s[1..][..IndexOf(s[1..], id)] == s[..1 + IndexOf(s[1..], id)][1..];
      1 + IndexOf(s[1..], id)
  }

  /** A shutdown of the association with `addr`: the address names the node to erase, and where
      several nodes share it, the one the tree search meets. */
  function ShutDown(t: Tables, addr: Addr, pick: NodeId): (r: Option<Tables>) {
    match ExtractRight(t.addrs, AddrKey, addr, pick)
    case None => None
    case Some((id, m)) =>
      var i := IndexOf(t.conn, id);
      if i == |t.conn| || id !in t.iapp then None else Some(Tables(m, t.iapp - {id}, Erase(t.conn, i)))
  }

  /** Where bytes for `id` are sent. */
  function AddressOf(t: Tables, id: NodeId): (a: Option<Addr>) {
    if id in t.addrs.left then Some(t.addrs.left[id]) else None
  }

  ghost predicate NoRepeats(s: seq<NodeId>) {
    forall i, j | 0 <= i < j < |s| :: s[i] != s[j]
  }

  /** All records name the same nodes, once each, and the bimap's directions agree. */
  ghost predicate Consistent(t: Tables) {
    && Inverse(t.addrs, AddrKey)
    && NoRepeats(t.conn)
    && t.iapp == t.addrs.left.Keys
    && (forall id :: id in t.conn <==> id in t.addrs.left)
  }

  /** Some node is recorded at the address. */
  ghost predicate Held(t: Tables, addr: Addr) {
    exists n :: AddressOf(t, n) == Some(addr)
  }

  lemma HeldIsHas(t: Tables, addr: Addr)
    requires Inverse(t.addrs, AddrKey)
    ensures Held(t, addr) <==> Has(t.addrs, addr)
    ensures forall n :: AddressOf(t, n) == Some(addr) <==> n in t.addrs.right && t.addrs.right[n] == addr
  {
    if Has(t.addrs, addr) {
      var n :| n in t.addrs.right && t.addrs.right[n] == addr;
      assert AddressOf(t, n) == Some(addr);
    }
  }

  function Erase(s: seq<NodeId>, i: nat): (r: seq<NodeId>)
    requires i < |s|
    ensures |r| == |s| - 1
    ensures forall j | 0 <= j < i :: r[j] == s[j]
    ensures forall j | i <= j < |r| :: r[j] == s[j + 1]
  {
    s[..i] + s[i + 1..]
  }

  lemma EraseForgetsOne(s: seq<NodeId>, i: nat)
    requires i < |s| && NoRepeats(s)
    ensures NoRepeats(Erase(s, i))
    ensures forall n :: n in Erase(s, i) <==> n in s && n != s[i]
  {
    forall n | n in s && n != s[i]
      ensures n in Erase(s, i)
    {
      var j :| 0 <= j < |s| && s[j] == n;
      assert Erase(s, i)[if j < i then j else j - 1] == n;
    }
  }

  lemma {:induction false} IndexOfUnique(s: seq<NodeId>, id: NodeId, i: nat)
    requires i < |s| && s[i] == id && id !in s[..i]
    ensures IndexOf(s, id) == i
  {
    if i > 0 {
      assert s[..i][0] == s[0];
      assert s[..i][1..] == s[1..][..i - 1];
      IndexOfUnique(s[1..], id, i - 1);
    }
  }

  lemma AppendKeepsNoRepeats(s: seq<NodeId>, id: NodeId)
    requires NoRepeats(s) && id !in s
    ensures NoRepeats(s + [id]) && IndexOf(s + [id], id) == |s|
    ensures Erase(s + [id], |s|) == s
  {
    assert (s + [id])[..|s|] == s;
    IndexOfUnique(s + [id], id, |s|);
  }

  /** A setup aborts exactly for a registered id; else it keeps the records consistent and
      gives that id, and no other, the address, whoever else is recorded there. */
  lemma SetUpKeepsConsistent(t: Tables, id: NodeId, addr: Addr)
    requires Consistent(t)
    ensures SetUp(t, id, addr).None? <==> id in t.conn
    ensures id !in t.conn ==>
              var u := SetUp(t, id, addr).value;
              && Consistent(u)
              && (forall n :: AddressOf(u, n) == if n == id then Some(addr) else AddressOf(t, n))
              && u.conn == t.conn + [id]
  {
    hide Inverse, Unique;
    if id !in t.conn {
      InsertKeepsInverse(t.addrs, AddrKey, id, addr);
      AppendKeepsNoRepeats(t.conn, id);
      hide NoRepeats;
    }
  }

  /** A shutdown aborts exactly when no node is recorded at the address; else it forgets the one
      node the search meets in all records, and moves no other node. */
  lemma ShutDownKeepsConsistent(t: Tables, addr: Addr, pick: NodeId)
    requires Consistent(t) && Meets(t.addrs, addr, pick)
    ensures ShutDown(t, addr, pick).None? <==> !Held(t, addr)
    ensures Held(t, addr) ==>
              var u := ShutDown(t, addr, pick).value;
              && AddressOf(t, pick) == Some(addr)
              && Consistent(u)
              && (forall n :: AddressOf(u, n) == if n == pick then None else AddressOf(t, n))
              && (exists i :: 0 <= i < |t.conn| && t.conn[i] == pick && u.conn == Erase(t.conn, i))
  {
    hide Inverse, NoRepeats, Meets;
    HeldIsHas(t, addr);
    ExtractKeepsInverse(t.addrs, AddrKey, addr, pick);
    hide Held, Has, ExtractRight;
    if Held(t, addr) {
      var i := IndexOf(t.conn, pick);
      assert pick in t.conn;
      EraseForgetsOne(t.conn, i);
    }
  }

  /** Setting a node up and then closing its association restores the records, if the search
      meets that node; it must when no other node is at the address. */
  lemma SetUpThenShutDown(t: Tables, id: NodeId, addr: Addr)
    requires Consistent(t) && id !in t.conn
    ensures ShutDown(SetUp(t, id, addr).value, addr, id) == Some(t)
    ensures !Held(t, addr) ==> forall pick :: Meets(SetUp(t, id, addr).value.addrs, addr, pick) ==> pick == id
  {
    HeldIsHas(t, addr);
    InsertThenExtract(t.addrs, AddrKey, id, addr);
    AppendKeepsNoRepeats(t.conn, id);
    assert t.iapp + {id} - {id} == t.iapp;
  }

  /** Two nodes at one address: bytes for both go there, and the first shutdown of the address
      forgets only one of them, whichever the search meets.  The other stays recorded at the
      address, which a second shutdown frees. */
  lemma AddressClash(t: Tables, one: NodeId, two: NodeId, addr: Addr, pick: NodeId)
    requires Consistent(t) && AddressOf(t, one) == Some(addr) && two !in t.conn
    requires forall n | AddressOf(t, n) == Some(addr) :: n == one
    requires Meets(SetUp(t, two, addr).value.addrs, addr, pick)
    ensures var u := SetUp(t, two, addr).value;
            && AddressOf(u, one) == AddressOf(u, two) == Some(addr)
            && (pick == one || pick == two)
            && var other := if pick == one then two else one;
            && ShutDown(u, addr, pick).Some?
            && var v := ShutDown(u, addr, pick).value;
            && AddressOf(v, pick) == None && AddressOf(v, other) == Some(addr) && other in v.conn
            && ShutDown(v, addr, other).Some? && !Held(ShutDown(v, addr, other).value, addr)
  {
    hide Inverse, NoRepeats, Consistent, SetUp, ShutDown, AddressOf;
    SetUpKeepsConsistent(t, two, addr);
    var u := SetUp(t, two, addr).value;
    HolderMeets(t, addr, one);
    HolderMeets(u, addr, two);
    ShutDownKeepsConsistent(u, addr, pick);
    var v := ShutDown(u, addr, pick).value;
    var other := if pick == one then two else one;
    HolderMeets(v, addr, other);
    ShutDownKeepsConsistent(v, addr, other);
  }

  lemma HolderMeets(t: Tables, addr: Addr, n: NodeId)
    requires Consistent(t) && AddressOf(t, n) == Some(addr)
    ensures Meets(t.addrs, addr, n) && Held(t, addr) && n in t.conn
  {
    HeldIsHas(t, addr);
  }

  /** What the RIC hears about its nodes. */
  datatype Event = Up(id: NodeId, addr: Addr) | Down(addr: Addr, pick: NodeId)

  function Handle(t: Tables, e: Event): (r: Option<Tables>) {
    match e
    case Up(id, addr) => SetUp(t, id, addr)
    case Down(addr, pick) => ShutDown(t, addr, pick)
  }

  /** The records after a whole history, or None once a handler's assertion broke. */
  function Replay(h: seq<Event>): (r: Option<Tables>) {
    if h == [] then Some(EMPTY)
    else
      match Replay(h[..|h| - 1])
      case None => None
      case Some(t) => Handle(t, h[|h| - 1])
  }

  /** Position of the latest setup of `id` in the history, or -1. */
  function LatestUp(h: seq<Event>, id: NodeId): (i: int)
    ensures -1 <= i < |h|
    ensures i >= 0 ==> h[i].Up? && h[i].id == id
  {
    if h == [] then -1
    else if h[|h| - 1].Up? && h[|h| - 1].id == id then |h| - 1
    else LatestUp(h[..|h| - 1], id)
  }

  /** No shutdown since the latest setup of `id` has erased it. */
  ghost predicate Registered(h: seq<Event>, id: NodeId) {
    LatestUp(h, id) >= 0
    && forall j | LatestUp(h, id) < j < |h| :: !(h[j].Down? && h[j].pick == id)
  }

  /** The address history assigns to `id`. */
  ghost function Expected(h: seq<Event>, id: NodeId): Option<Addr> {
    if Registered(h, id) then Some(h[LatestUp(h, id)].addr) else None
  }

  ghost predicate InSetupOrder(h: seq<Event>, s: seq<NodeId>) {
    forall i, j | 0 <= i < j < |s| :: LatestUp(h, s[i]) < LatestUp(h, s[j])
  }

  lemma ExpectedStep(h: seq<Event>, e: Event, id: NodeId)
    ensures LatestUp(h + [e], id) == if e.Up? && e.id == id then |h| else LatestUp(h, id)
    ensures Expected(h + [e], id) ==
            if e.Up? && e.id == id then Some(e.addr)
            else if e.Down? && e.pick == id then None
            else Expected(h, id)
  {
    var g := h + [e];
    assert g[..|g| - 1] == h;
    var i := LatestUp(h, id);
    if !(e.Up? && e.id == id) && i >= 0 {
      assert g[i] == h[i];
      assert Registered(g, id) <==> Registered(h, id) && !(e.Down? && e.pick == id) by {
        assert forall j | i < j < |h| :: g[j] == h[j];
        assert g[|h|] == e;
      }
    }
  }

  ghost predicate Agrees(h: seq<Event>, t: Tables) {
    && Consistent(t)
    && (forall id :: AddressOf(t, id) == Expected(h, id))
    && InSetupOrder(h, t.conn)
  }

  lemma ReplayStep(g: seq<Event>, e: Event)
    ensures Replay(g + [e]) == if Replay(g).None? then None else Handle(Replay(g).value, e)
  {
    assert (g + [e])[..|g|] == g;
  }

  /** A shutdown that did not abort went to a node recorded at the address. */
  lemma SurvivorMeets(t: Tables, addr: Addr, pick: NodeId)
    requires Inverse(t.addrs, AddrKey) && ShutDown(t, addr, pick).Some?
    ensures Meets(t.addrs, addr, pick) && Held(t, addr)
  {
    HeldIsHas(t, addr);
  }

  lemma HandleAddress(t: Tables, e: Event, id: NodeId)
    requires Consistent(t) && Handle(t, e).Some?
    ensures Consistent(Handle(t, e).value)
    ensures AddressOf(Handle(t, e).value, id) ==
            if e.Up? && e.id == id then Some(e.addr)
            else if e.Down? && e.pick == id then None
            else AddressOf(t, id)
  {
    match e
    case Up(n, addr) => SetUpKeepsConsistent(t, n, addr);
    case Down(addr, pick) =>
      SurvivorMeets(t, addr, pick);
      ShutDownKeepsConsistent(t, addr, pick);
  }

  lemma OrderAppends(g: seq<Event>, e: Event, s: seq<NodeId>)
    requires InSetupOrder(g, s) && e.Up? && e.id !in s
    ensures InSetupOrder(g + [e], s + [e.id])
  {
    var t := s + [e.id];
    forall i, j | 0 <= i < j < |t|
      ensures LatestUp(g + [e], t[i]) < LatestUp(g + [e], t[j])
    {
      ExpectedStep(g, e, t[i]);
      ExpectedStep(g, e, t[j]);
    }
  }

  lemma OrderErases(g: seq<Event>, e: Event, s: seq<NodeId>, k: nat)
    requires InSetupOrder(g, s) && e.Down? && k < |s|
    ensures InSetupOrder(g + [e], Erase(s, k))
  {
    var t := Erase(s, k);
    forall i, j | 0 <= i < j < |t|
      ensures LatestUp(g + [e], t[i]) < LatestUp(g + [e], t[j])
    {
      ExpectedStep(g, e, t[i]);
      ExpectedStep(g, e, t[j]);
    }
  }

  lemma HandleOrder(g: seq<Event>, e: Event, t: Tables)
    requires Consistent(t) && InSetupOrder(g, t.conn) && Handle(t, e).Some?
    ensures InSetupOrder(g + [e], Handle(t, e).value.conn)
  {
    hide InSetupOrder, LatestUp;
    match e
    case Up(n, addr) =>
      SetUpKeepsConsistent(t, n, addr);
      OrderAppends(g, e, t.conn);
    case Down(addr, pick) =>
      SurvivorMeets(t, addr, pick);
      ShutDownKeepsConsistent(t, addr, pick);
      hide ShutDown, Consistent;
      var k :| 0 <= k < |t.conn| && ShutDown(t, addr, pick).value.conn == Erase(t.conn, k);
      OrderErases(g, e, t.conn, k);
  }

  lemma AgreesStep(g: seq<Event>, e: Event, t: Tables)
    requires Agrees(g, t) && Handle(t, e).Some?
    ensures Agrees(g + [e], Handle(t, e).value)
  {
    forall id
      ensures AddressOf(Handle(t, e).value, id) == Expected(g + [e], id)
    {
      ExpectedStep(g, e, id);
      HandleAddress(t, e, id);
    }
    HandleAddress(t, e, NodeId(0, 0, 0, None));
    HandleOrder(g, e, t);
  }

  /** For every history the handlers survive: both records agree with it, a send to an id goes
      to the address of that id's latest setup, and the node list is in setup order. */
  lemma {:induction false} ReplayMeetsHistory(h: seq<Event>)
    requires Replay(h).Some?
    ensures Agrees(h, Replay(h).value)
  {
    if h != [] {
      var g, e := h[..|h| - 1], h[|h| - 1];
      assert h == g + [e];
      ReplayStep(g, e);
      ReplayMeetsHistory(g);
      AgreesStep(g, e, Replay(g).value);
    }
  }

  /** The search for an address meets a node recorded there, if there is one. */
  ghost predicate PickOk(h: seq<Event>, e: Event) {
    e.Down? && (exists n :: Expected(h, n) == Some(e.addr)) ==> Expected(h, e.pick) == Some(e.addr)
  }

  /** A setup of an id that history does not register, a shutdown of an address where it records
      some node. */
  ghost predicate Welcome(h: seq<Event>, e: Event) {
    match e
    case Up(id, _) => Expected(h, id) == None
    case Down(addr, _) => exists n :: Expected(h, n) == Some(addr)
  }

  ghost predicate WelcomeAt(h: seq<Event>, i: nat)
    requires i < |h|
  {
    Welcome(h[..i], h[i])
  }

  ghost predicate PickOkAt(h: seq<Event>, i: nat)
    requires i < |h|
  {
    PickOk(h[..i], h[i])
  }

  ghost predicate AllWelcome(h: seq<Event>) {
    forall i | 0 <= i < |h| :: WelcomeAt(h, i)
  }

  ghost predicate PicksOk(h: seq<Event>) {
    forall i | 0 <= i < |h| :: PickOkAt(h, i)
  }

  lemma AllWelcomeStep(g: seq<Event>, e: Event)
    ensures AllWelcome(g + [e]) <==> AllWelcome(g) && Welcome(g, e)
    ensures PicksOk(g + [e]) <==> PicksOk(g) && PickOk(g, e)
  {
    var h := g + [e];
    assert h[..|g|] == g;
    forall i | 0 <= i < |g|
      ensures WelcomeAt(h, i) <==> WelcomeAt(g, i)
      ensures PickOkAt(h, i) <==> PickOkAt(g, i)
    {
      assert h[..i] == g[..i];
    }
    assert WelcomeAt(h, |g|) <==> Welcome(g, e);
    assert PickOkAt(h, |g|) <==> PickOk(g, e);
    assert AllWelcome(h) ==> forall i | 0 <= i < |g| :: WelcomeAt(h, i) && WelcomeAt(g, i);
    assert PicksOk(h) ==> forall i | 0 <= i < |g| :: PickOkAt(h, i) && PickOkAt(g, i);
  }

  /** A history breaks an assertion exactly when it sets up a registered id, or shuts down an
      address where no node is recorded; sharing an address breaks none. */
  lemma {:induction false} ReplaySurvives(h: seq<Event>)
    requires PicksOk(h)
    ensures Replay(h).Some? <==> AllWelcome(h)
  {
    if h != [] {
      var g, e := h[..|h| - 1], h[|h| - 1];
      assert h == g + [e];
      AllWelcomeStep(g, e);
      ReplaySurvives(g);
      ReplayStep(g, e);
      if Replay(g).Some? {
        HandleSurvives(g, e);
      }
    }
  }

  lemma HandleSurvives(g: seq<Event>, e: Event)
    requires Replay(g).Some? && PickOk(g, e)
    ensures Handle(Replay(g).value, e).Some? <==> Welcome(g, e)
  {
    var t := Replay(g).value;
    ReplayMeetsHistory(g);
    match e
    case Up(id, addr) =>
      SetUpKeepsConsistent(t, id, addr);
      assert AddressOf(t, id) == Expected(g, id);
    case Down(addr, pick) =>
      HeldIsHas(t, addr);
      assert AddressOf(t, pick) == Expected(g, pick);
      assert forall n :: AddressOf(t, n) == Expected(g, n);
      ShutDownKeepsConsistent(t, addr, pick);
  }
}
