/** Identifiers, messages and packets shared by the near-RT RIC and the E2 agents. */
module E2apTypes {
  import opened Containers

  /** A file descriptor the event loops accept. */
  type Fd = x: int | 0 < x witness 1

  datatype NodeId = NodeId(ranType: nat, plmn: nat, nbId: nat, cuDu: Option<nat>)

  datatype Addr = Addr(ip: nat, port: nat)

  datatype RicId = RicId(reqId: nat, instId: nat, funcId: nat)

  /** The procedures of sections 8.2.1, 8.2.2 and 8.2.4 of O-RAN E2AP v01.01. */
  datatype Op = Subscribe | Delete | Control

  /** An entry of the RIC's timer table: what it waits for, and on which id. */
  datatype PendingEvent = PendingEvent(op: Op, id: RicId)

  function PendingKey(e: PendingEvent): PendingEvent { e }

  /** The agent's timer table holds one kind of event only. */
  datatype SetupEvent = SetupRequestPending

  function SetupKey(e: SetupEvent): SetupEvent { e }

  /** A subscription the agent serves.  The right tree compares the id alone. */
  datatype IndEvent = IndEvent(id: RicId, action: nat)

  function IndKey(e: IndEvent): RicId { e.id }

  function AddrKey(a: Addr): Addr { a }

  datatype Message =
    | Request(op: Op, id: RicId, action: nat)
    | Answer(op: Op, id: RicId, action: nat)
    | Indication(id: RicId, action: nat)
    | SetupRequest(node: NodeId)
    | SetupResponse

  datatype Packet = Packet(node: NodeId, msg: Message)

  /** There is always a descriptor that is not open. */
  lemma NewDescriptor(fds: set<Fd>) returns (fd: Fd)
    ensures fd !in fds
  {
    fd := AboveAll(fds);
  }

  lemma {:induction false} AboveAll(fds: set<Fd>) returns (fd: Fd)
    ensures forall k | k in fds :: k < fd
  {
    fd := 1;
    if fds != {} {
      var k :| k in fds;
      var top := AboveAll(fds - {k});
      fd := if k < top then top else k + 1;
      assert forall j | j in fds :: j == k || j in fds - {k};
    }
  }
}
