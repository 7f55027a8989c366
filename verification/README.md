# FlexRIC control plane and srsRAN eNodeB helpers: a model and its proofs

The project models three parts of the repository and proves what they keep over whole runs.

**FlexRIC's E2AP control plane** (O-RAN E2AP v01.01, sections 8.2.1, 8.2.2, 8.2.4 and 8.3.1).
`NearRic`, `E2Agent` and `Xapp` are the three parties: a state with one step function per event,
and a class whose methods update the same fields in place and are proved against it. A failed
`assert` of the C code is the result `None`. Three concurrent systems put the parties' own steps
together with a network and prove that no reachable interleaving fails:

* `ControlPlane`, `ControlPlaneSafety`, `ControlPlaneTheorems`: subscription, delete and control
  between the RIC's issuing threads, its event loop and any number of agents, over a network that
  loses and reorders but does not duplicate; nodes may leave. The life of each request is a history
  variable (`Dialogue`); the invariant says what every table and every bag of packets holds because of it.
* `SetupPhase`: setup, resend, loss and shutdown between the RIC's node records and the agents'
  setup timers.
* `XappCalls`: the xApp's synchronous calls between the calling thread, the event loop and the RIC.

`RicHistory`, `AgentHistory` and `XappHistory` tell what the parties hold and send from the history
of what happened to them, without their step functions. `ControlPlaneProgress`, `SetupProgress` and
`XappHistory` prove the other side of safety: that what was begun and not lost can be brought to its
end from every reachable state, and indeed from every state that satisfies the invariant (`Runs` has
the sequences of moves they share).

Beneath them are the containers they rely on: `Containers` (the bimap, which keeps every node it is
given, repeated keys too, and whose right order may look at a part of the stored value), `Bags`
(messages in flight), `RequestIds` (the wrapping, truncated id counter), `NodeTables` (node to
address, the iApp's registry, and the order of setups), `Registry` (the bucket array that grows,
compacts and shrinks), `ActProc` (the registry of active procedures), `SyncUi` (the condition variable) and
`Listeners` (the publish table).

**The eNodeB example's data path**: `NetFeeder` (the stream cut into packets in an in-place
buffer), `Handshake` (the semaphore between feeder and transmit loop), and `RbgMask` with `Words`
(the resource allocation mask).

**The eNodeB's configuration**: `CellConfig` (uniqueness, secondary-cell filtering), `SfMapping`
(default subframe maps) and `EnumParser` (the normalising enumeration parser).

## What is assumed

Each system lists its environment's part in its `Enabled` predicate:

* `ControlPlane`: timer descriptors are new, the oldest id in use is fewer than 65536 allocations
  old, a delete is issued once per confirmed subscription, requests are issued for nodes the RIC
  knows, an association closes only while nothing waits to be sent to its node, and a RIC timer
  fires only while one request is pending. The last two are real bounds:
  `ControlPlaneTheorems.ShutdownStrands` and `ControlPlaneTheorems.TwoOutstandingTimersAbort` say
  what happens without them.
* `SetupPhase`: an agent hears of a shutdown only when it was set up, the RIC only from an address
  at which it has a node, and a setup is resent only when nothing of the earlier one is left in
  flight or at the RIC. `ShutdownHeard`, `RicShutdownHeard` and `ResendHeard` say exactly what
  happens without this. Nodes may share addresses.
* `XappCalls`: one calling thread, a removed report is a registered one, ids do not run out, no
  call's timer fires, and an answer is handled after the caller has parked. `ReplyHandledAt`,
  `StuckEndsInAbort` and `CallTimeoutAborts` say what happens otherwise, and `EarlyRepliesHappen`
  that it can.

Where several nodes of a bimap's right tree share a key, the shape of the tree decides which one a
search meets. That choice is a parameter (`pick`), of which it is assumed only that a search meets
a node it looks for, if there is one. Mutexes make the functions that hold them atomic. Encoding and
decoding are the identity. The descriptor the kernel hands out, the wakeups of the condition
variable, what socket reads return and the subframe schedule are parameters.

## What the proofs show about the code

* The RIC's timeout branch never removes its entry, so the timer of a lost message stays open for
  ever (`ControlPlaneTheorems.LostTimerNeverCloses`).
* No bimap refuses a repeated key. An agent whose id is subscribed twice goes on reporting after
  one delete (`E2Agent.ReportsExactlyWhileServed`); a shutdown heard while a setup is awaited leaves
  a second setup entry, with which the next setup timer aborts (`SetupPhase.ShutdownHeard`).
* Only the iApp's registry stands against a repeated setup; two nodes at one address are accepted,
  and the next shutdown forgets one of them (`NodeTables.AddressClash`).
* Publishing walks the first entry's list, which is right only because all lists are equal
  (`Listeners.PublishedIsMatching`, `Listeners.ExtraListenerMissed`); the one caller of the
  registration keeps them equal.
* A wait that is signalled and times out at once aborts (`SyncUi.AbortsExactlyWhenFailed`). An
  answer handled before its timer is registered aborts; one handled between that and the wait is
  forgotten, and the call ends in the abort of the wait (`XappCalls.ReplyHandledAt`,
  `XappCalls.StuckEndsInAbort`).
* The multicast loop writes a test pattern over the staged packet before it encodes it; with a
  transport block of whole bytes nothing received is left (`Handshake.PatternHidesPacket`). Outside
  multicast a packet can be released when the encoder was last given random bytes instead, and this
  is so exactly when it was copied before the last random filling or after the last encoding
  (`Handshake.NormalReleaseExactly`).
* The comment on default subframe maps promises an even distribution between the two uses; with an
  odd period that differs from the other they clash (`SfMapping.NeverBothIff`).

## Model

| member | source | states |
|---|---|---|
| `Containers.InsertKeepsInverse` | `flexric/flexric-jyd/src/util/alg_ds/ds/assoc_container/bimap.c:55-75` | an insertion always works and keeps the two trees in step; the table is a bijection afterwards exactly when it was one and the right key was new |
| `Containers.ExtractKeepsInverse` | `flexric/flexric-jyd/src/util/alg_ds/ds/assoc_container/bimap.c:101-122` | an extraction works exactly when the right tree has a node under the key, hands back the left key of the node the search meets, and removes that node and its partner alone |
| `Containers.InsertThenExtract` | `flexric/flexric-jyd/src/util/alg_ds/ds/assoc_container/bimap.c:55-122` | extracting the node just inserted restores the table, and the search can meet no other node if and only if its key was new |
| `RequestIds.CounterClosedForm` | `flexric/flexric-jyd/src/ric/near_ric.c:250` | the id counter after n allocations is 1021 + n, wrapped to 32 signed bits |
| `RequestIds.FirstIds` | `flexric/flexric-jyd/src/ric/near_ric.c:250` | the first 64515 ids count up from 1021 in either width; the next is 65536 for a direct call and 0 for a forwarding one |
| `RequestIds.IdLowBits` | `flexric/flexric-jyd/src/ric/near_ric.c:502` | whichever width an id is stored in, its low 16 bits follow the allocation number, through every wrap |
| `RequestIds.Collision16` | `flexric/flexric-jyd/src/ric/near_ric.c:760` | two 16-bit ids are equal if and only if their allocations are a multiple of 65536 apart |
| `RequestIds.DistinctInWindow` | `flexric/flexric-jyd/src/ric/near_ric.c:755-839` | no two of 65536 consecutive allocations give the same id, even when some ids are cut to 16 bits and others keep 32 |
| `RequestIds.WidthsAgree` | `flexric/flexric-jyd/src/ric/near_ric.c:662` | the direct calls and the forwarding calls make the same id of a counter value exactly while it fits 16 bits |
| `NodeTables.SetUpKeepsConsistent` | `flexric/flexric-jyd/src/lib/msg_hand/reg_e2_nodes.c:87-124` | a setup aborts if and only if the id is registered, in the assertion of the iApp's registry; otherwise, even at an address another node has, all records stay consistent, the id is appended, and only its address changes |
| `NodeTables.ShutDownKeepsConsistent` | `flexric/flexric-jyd/src/ric/not_handler_ric.c:23-57` | a shutdown aborts if and only if no node is recorded at the address; otherwise it takes the one node the search meets out of all records, leaving the others in order |
| `NodeTables.SetUpThenShutDown` | `flexric/flexric-jyd/src/ric/map_e2_node_sockaddr.c:84-137` | setting a new node up and shutting it down restores all records; at an address of its own, no other node can be met |
| `NodeTables.AddressClash` | `flexric/flexric-jyd/src/ric/map_e2_node_sockaddr.c:84-137` | two nodes at one address: bytes for both go there, the first shutdown of it forgets one of the two and leaves the other recorded, the second frees the address |
| `NodeTables.ReplayMeetsHistory` | `flexric/flexric-jyd/src/ric/map_e2_node_sockaddr.c:84-159` | after any history the records are consistent, the nodes stand in the order of their setups, and each id's address is that of its latest setup not undone since |
| `NodeTables.ReplaySurvives` | `flexric/flexric-jyd/src/ric/not_handler_ric.c:23-57` | a history breaks no assertion if and only if every setup was of an id not registered then and every shutdown named an address at which some node was recorded |
| `NearRic.ArmKeepsValid` | `flexric/flexric-jyd/src/ric/near_ric.c:755-783` | arming always works and opens one timer; the table stays free of repetitions exactly when the (kind, id) was not pending |
| `NearRic.StopKeepsValid` | `flexric/flexric-jyd/src/ric/msg_handler_ric.c:119-136` | an answer finds its timer exactly when its (kind, id) is pending, and closes that timer alone |
| `NearRic.ArmThenStop` | `flexric/flexric-jyd/src/ric/msg_handler_ric.c:119-136` | stopping the timer just armed restores the RIC's state, open descriptors included; an answer is sure to stop that timer if and only if its (kind, id) was not pending before |
| `NearRic.TimeoutSurvives` | `flexric/flexric-jyd/src/ric/near_ric.c:334-355` | a timer that fires is survived if and only if it is the only one pending |
| `NearRic.IdleSurvives` | `flexric/flexric-jyd/src/ric/near_ric.c:440-443` | a turn of the loop with nothing ready changes nothing and sends nothing |
| `NearRic.StepSurvives` | `flexric/flexric-jyd/src/ric/near_ric.c:358-450` | what the RIC's event loop survives, exactly, and that timer table, open descriptors and node records stay tied |
| `RicHistory.StateMeetsHistory` | `flexric/flexric-jyd/src/ric/near_ric.c:358-450` | the whole state told from the history of requests issued and events heard: the counter from the ids taken, each open timer from what opened it last, as many timers of each request as it is outstanding, and the node records from setups and shutdowns |
| `RicHistory.SentMeetsHistory` | `flexric/flexric-jyd/src/ric/near_ric.c:415-423` | the bytes sent are, in order, each request to the address of its node's latest setup, and each setup response to where its request came from |
| `RicHistory.SurvivesExactly` | `flexric/flexric-jyd/src/ric/near_ric.c:358-450` | what breaks an assertion of the RIC after any history, told from the history alone, both directions |
| `NearRic.Ric.TakeId` | `flexric/flexric-jyd/src/ric/near_ric.c:502` | returns the counter in the width of the caller and moves it on, wrapping |
| `NearRic.Ric.Issue` | `flexric/flexric-jyd/src/ric/near_ric.c:755-783` | a new id, then its timer, then the table entry, and only then the bytes to the node's address |
| `NearRic.Ric.ForwardDelete` | `flexric/flexric-jyd/src/ric/near_ric.c:785-809` | a delete reuses the id of its subscription and arms its own timer before it leaves |
| `NearRic.Ric.StopPendingEvent` | `flexric/flexric-jyd/src/ric/msg_handler_ric.c:119-136` | removes the entry of an answer and closes its timer, in place |
| `NearRic.Ric.NotificationHandle` | `flexric/flexric-jyd/src/ric/not_handler_ric.c:23-57` | erases the node of the lost address from the bimap, the iApp's registry and, by search from the front, the sequence |
| `NearRic.Ric.HandleSetupRequest` | `flexric/flexric-jyd/src/ric/msg_handler_ric.c:347-379` | registers address and node of a setup request; aborts exactly for an id the iApp has |
| `NearRic.Ric.MessageHandle` | `flexric/flexric-jyd/src/ric/msg_handler_ric.c:137-153` | dispatches every kind of message to its handler; the unimplemented kinds abort |
| `NearRic.Ric.Turn` | `flexric/flexric-jyd/src/ric/near_ric.c:358-450` | one turn of the RIC's event loop is exactly one step of the specified state machine |
| `E2Agent.DispatchIsTotal` | `flexric/flexric-jyd/src/agent/e2_agent.c:195-294` | every open descriptor falls into exactly one class, and none reaches an assertion but a setup timer that is not the only one |
| `E2Agent.SubscribedKeepsValid` | `flexric/flexric-jyd/src/agent/msg_handler_agent.c:132-162` | every subscription is taken and gets its timer, also one whose id is served; the table stays free of repetitions exactly when the id was not |
| `E2Agent.StopIndKeepsValid` | `flexric/flexric-jyd/src/agent/msg_handler_agent.c:52-62` | a delete finds a timer exactly when its id is served, and stops one timer of that id |
| `E2Agent.ArmSetupKeepsValid` | `flexric/flexric-jyd/src/agent/not_handler_agent.c:9-25` | going back to awaiting a setup always works and adds one entry, whether or not a setup is awaited already |
| `E2Agent.StopSetupKeepsValid` | `flexric/flexric-jyd/src/agent/msg_handler_agent.c:265-290` | a setup response finds a timer exactly when a setup is awaited, and leaves one entry less |
| `E2Agent.StepSurvives` | `flexric/flexric-jyd/src/agent/e2_agent.c:264-378` | what the agent survives, exactly, and by how much each event changes the number of timers of each id and of setup entries |
| `E2Agent.TableMeetsScript` | `flexric/flexric-jyd/src/agent/e2_agent.c:296-378` | after any survived script the agent has, for each id, as many timers as subscriptions the script did not delete, and as many setup entries as it left unanswered |
| `E2Agent.ReportsExactlyWhileServed` | `flexric/flexric-jyd/src/agent/e2_agent.c:76-100` | some timer can report on an id if and only if the script leaves it subscribed, so also after a delete when it was subscribed twice |
| `E2Agent.LatestRequestDecides` | `flexric/flexric-jyd/src/agent/msg_handler_agent.c:132-192` | if no subscription repeats an id still served, an id is served, and with which action, as the latest request about it says |
| `E2Agent.UniqueExactlyWithoutRepeats` | `flexric/flexric-jyd/src/agent/msg_handler_agent.c:132-162` | all along a script the table is free of repeated ids if and only if the script repeats no id still served |
| `E2Agent.IndicationIsServed` | `flexric/flexric-jyd/src/agent/e2_agent.c:76-100` | every indication sent is on an id subscribed at that moment, and with the action of its latest request unless the script repeats subscriptions |
| `AgentHistory.TimersMeetScript` | `flexric/flexric-jyd/src/agent/e2_agent.c:296-378` | the open timers are those the script opened and has not stopped, each for what it was opened for |
| `AgentHistory.SentMeetsScript` | `flexric/flexric-jyd/src/agent/e2_agent.c:296-378` | the messages sent over a script are, in order, the answers to its requests, the indications of the subscriptions whose timers fired, and the setup requests repeated |
| `AgentHistory.AnswersMeetRequests` | `flexric/flexric-jyd/src/agent/e2_agent.c:306-322` | among the messages there is one answer to each request, in the order of the requests |
| `AgentHistory.RunSplits` | `flexric/flexric-jyd/src/agent/e2_agent.c:296-378` | a script may be cut anywhere: the rest goes on from the state reached, and its messages follow those sent before |
| `E2Agent.Agent.StopIndEvent` | `flexric/flexric-jyd/src/agent/msg_handler_agent.c:52-62` | extracts a timer of the id and closes it, in place |
| `E2Agent.Agent.StopPendingEvent` | `flexric/flexric-jyd/src/agent/msg_handler_agent.c:265-276` | extracts a setup timer and closes it, in place |
| `E2Agent.Agent.AwaitSetup` | `flexric/flexric-jyd/src/agent/not_handler_agent.c:9-25` | opens the setup timer and records it |
| `E2Agent.Agent.MessageHandle` | `flexric/flexric-jyd/src/agent/msg_handler_agent.c:83-290` | what each message does to the agent's tables, and the answer it gets |
| `E2Agent.Agent.Turn` | `flexric/flexric-jyd/src/agent/e2_agent.c:264-378` | one turn of the agent's event loop is exactly one step of the specified state machine |
| `E2Agent.Agent.EventLoop` | `flexric/flexric-jyd/src/agent/e2_agent.c:296-378` | the loop over any script computes exactly the specified run, and stops at the first abort |
| `ControlPlaneSafety.NextIdIsFresh` | `flexric/flexric-jyd/src/ric/near_ric.c:755-839` | while the oldest id in use is fewer than 65536 allocations old, the next id collides with none in use |
| `ControlPlaneSafety.MoveSafe` | `flexric/flexric-jyd/src/ric/near_ric.c:755-839` | no move of any party, enabled in a state that satisfies the invariant, breaks an assertion; all keep the invariant over both parties and the network |
| `ControlPlaneTheorems.NoAssertionBreaks` | `flexric/flexric-jyd/src/ric/msg_handler_ric.c:119-136` | in no reachable interleaving of issuing threads, RIC loop, agent loops and a lossy network does an enabled move break an assertion |
| `ControlPlaneTheorems.EachTokenHasItsTimer` | `flexric/flexric-jyd/src/ric/near_ric.c:755-839` | every unsent, in-flight or answered request exists once, at one node, and has its own entry in the RIC's timer table, which its answer finds |
| `ControlPlaneTheorems.WithoutLossOneToOne` | `flexric/flexric-jyd/src/ric/near_ric.c:755-839` | while nothing has been lost, timer entries and tokens correspond one to one |
| `ControlPlaneTheorems.DeleteFindsSubscription` | `flexric/flexric-jyd/src/agent/msg_handler_agent.c:175-192` | a delete on its way finds the subscription it ends |
| `ControlPlaneTheorems.QuietMeansAgreement` | `flexric/flexric-jyd/src/agent/msg_handler_agent.c:132-192` | with nothing lost and nothing in flight the RIC has no open timer, and every agent serves exactly the subscriptions the RIC has confirmed and not deleted |
| `ControlPlaneTheorems.ReportIsAccepted` | `flexric/flexric-jyd/src/agent/e2_agent.c:76-100` | an indication leaves only for a subscription accepted by its agent at that moment, and changes nothing else |
| `ControlPlaneTheorems.LostTimerNeverCloses` | `flexric/flexric-jyd/src/ric/near_ric.c:427-433` | the timer of a lost request or answer stays in the table, and open, for the rest of every run |
| `ControlPlaneTheorems.TwoOutstandingTimersAbort` | `flexric/flexric-jyd/src/ric/near_ric.c:334-355` | with two requests outstanding, which any start that knows a node can reach, the first timer to fire breaks the assertion on a single entry |
| `ControlPlaneTheorems.ShutdownStrands` | `flexric/flexric-jyd/src/ric/map_e2_node_sockaddr.c:139-159` | after any shutdown the RIC hears of, of the requests not yet sent exactly those to the node it forgets break the assertion of the address lookup |
| `ControlPlaneProgress.ExchangeCanEnd` | `flexric/flexric-jyd/src/ric/near_ric.c:755-839` | from every reachable state, an exchange that has lost nothing can be brought to its end, and nothing else changes |
| `ControlPlaneProgress.SubscribeThenDelete` | `flexric/flexric-jyd/src/agent/msg_handler_agent.c:132-192` | from every reachable state a subscription can be made, its node then serving just one id more, and deleted, every agent then serving what it did before; both times the RIC waits for what it did before |
| `SetupPhase.MoveSafe` | `flexric/flexric-jyd/src/agent/e2_agent.c:415-439` | no enabled move of the setup protocol breaks an assertion; all keep its invariant |
| `SetupPhase.NoAssertionBreaks` | `flexric/flexric-jyd/src/agent/msg_handler_agent.c:265-290` | in no reachable interleaving of setups, resends, losses and shutdowns, over addresses shared or not, does an enabled move break an assertion or part the RIC's records |
| `SetupPhase.OneSetupEntry` | `flexric/flexric-jyd/src/agent/e2_agent.c:342-358` | an agent has exactly one setup entry while it awaits its setup and none otherwise |
| `SetupPhase.OneSetupToken` | `flexric/flexric-jyd/src/agent/msg_handler_agent.c:265-290` | at most one setup message of a node is in flight, its agent awaits it, and a response finds its timer |
| `SetupPhase.RicKnowsItsNodes` | `flexric/flexric-jyd/src/ric/msg_handler_ric.c:347-379` | the RIC's records agree and hold exactly the nodes it answered and has not lost, each at its address, shared or not |
| `SetupPhase.ResendHeard` | `flexric/flexric-jyd/src/lib/msg_hand/reg_e2_nodes.c:103-111` | a setup request, from whatever address, breaks the assertion of the iApp's registry if and only if the RIC still holds the node |
| `SetupPhase.ShutdownHeard` | `flexric/flexric-jyd/src/agent/not_handler_agent.c:9-25` | a shutdown never aborts the agent; it leaves two setup entries if and only if a setup was awaited, with two every setup timer that fires aborts, and a response that comes first leaves one |
| `SetupPhase.RicShutdownHeard` | `flexric/flexric-jyd/src/ric/not_handler_ric.c:23-57` | a shutdown heard by the RIC breaks its assertion if and only if it holds no node at that address |
| `SetupProgress.EveryNodeCanBeSetUp` | `flexric/flexric-jyd/src/agent/e2_agent.c:415-439` | whatever was lost or cut, from every reachable state some moves set a given node up, at its agent and in all records of the RIC |
| `Registry.LiveAt` | `flexric/flexric-jyd/src/util/alg_ds/ds/assoc_container/assoc_reg.c:306-325` | with increasing keys a bucket's key is in the map exactly when the bucket is live, with its value |
| `Registry.OnlyLiveKeepsMap` | `flexric/flexric-jyd/src/util/alg_ds/ds/assoc_container/assoc_reg.c:41-73` | dropping dead buckets keeps the map and the key order and leaves one bucket for each entry |
| `Registry.KillRemoves` | `flexric/flexric-jyd/src/util/alg_ds/ds/assoc_container/assoc_reg.c:223-244` | marking a bucket dead removes its key from the map and no other |
| `Registry.LowerBoundFinds` | `flexric/flexric-jyd/src/util/alg_ds/alg/find.c:84-105` | from the first live bucket on, the lower bound of a key is its bucket exactly when the map has the key |
| `Registry.CopyIf` | `flexric/flexric-jyd/src/util/alg_ds/ds/assoc_container/assoc_reg.c:41-56` | copies exactly the live buckets, in order |
| `Registry.Partition` | `flexric/flexric-jyd/src/util/alg_ds/ds/assoc_container/assoc_reg.c:59-73` | moves exactly the live buckets to the front of the same array, in order |
| `Registry.LowerBound` | `flexric/flexric-jyd/src/util/alg_ds/alg/lower_bound.c:13-43` | binary search: all keys before the result are smaller, none from it on is |
| `Registry.Registry.ExpandIfNecessary` | `flexric/flexric-jyd/src/util/alg_ds/ds/assoc_container/assoc_reg.c:112-130` | exactly when at most one slot is free it doubles the array and drops dead buckets; it keeps the map |
| `Registry.Registry.CompactIfNecessary` | `flexric/flexric-jyd/src/util/alg_ds/ds/assoc_container/assoc_reg.c:97-110` | drops the dead buckets exactly when half or more of the occupied ones are dead; it keeps the map |
| `Registry.Registry.ShrinkIfNecessary` | `flexric/flexric-jyd/src/util/alg_ds/ds/assoc_container/assoc_reg.c:75-95` | keeps the map, in an array of exactly half the length when three quarters or more are unused and the length is not the least, and of the same length otherwise |
| `Registry.Registry.PushBack` | `flexric/flexric-jyd/src/util/alg_ds/ds/assoc_container/assoc_reg.c:174-196` | returns the counter cut to 32 bits; while that cuts nothing, it adds one entry under a key never used before |
| `Registry.Registry.Next` | `flexric/flexric-jyd/src/util/alg_ds/ds/assoc_container/assoc_reg.c:275-296` | the next live bucket, or the end, skipping only dead ones |
| `Registry.Registry.Find` | `flexric/flexric-jyd/src/util/alg_ds/alg/find.c:84-105` | finds a key exactly when the map has it; the key 0 aborts |
| `Registry.Registry.Erase` | `flexric/flexric-jyd/src/util/alg_ds/ds/assoc_container/assoc_reg.c:223-244` | removes exactly the keys of the range |
| `ActProc.ReplayMeetsHistory` | `flexric/flexric-jyd/src/xApp/act_proc.c:74-130` | after any history of registrations, lookups, removals and indications the registry holds exactly what was asked for and not removed |
| `ActProc.AskedMeans` | `flexric/flexric-jyd/src/xApp/act_proc.c:74-130` | an id names the one registration it was given to, until that is removed |
| `ActProc.LookupGivesOriginal` | `flexric/flexric-jyd/src/xApp/act_proc.c:105-130` | a lookup hands out the procedure with the very id its request carried, whether or not the stored copy was patched before |
| `ActProc.KeysIncrease` | `flexric/flexric-jyd/src/xApp/act_proc.c:74-89` | later registrations get larger keys |
| `ActProc.RemovedForGood` | `flexric/flexric-jyd/src/xApp/act_proc.c:91-103` | a removed id is never given out again, and indications under it are dropped for ever |
| `ActProc.DispatchReachesCallback` | `flexric/flexric-jyd/src/xApp/msg_handler_xapp.c:237-276` | an indication reaches exactly the callback registered under its id, or is dropped when there is none |
| `ActProc.CallSurvives` | `flexric/flexric-jyd/src/xApp/e42_xapp.c:373-386` | what aborts is exactly the 65536th registration, an unknown service model, the id 0, and removing what is not registered |
| `ActProc.ActiveProcs.GenerateRicGenId` | `flexric/flexric-jyd/src/xApp/e42_xapp.c:373-386` | registers first, then checks the width of the key, and returns the id |
| `ActProc.ActiveProcs.FindActProc` | `flexric/flexric-jyd/src/xApp/act_proc.c:105-130` | looks up by binary search, patches the stored copy and returns it |
| `ActProc.ActiveProcs.RmActProc` | `flexric/flexric-jyd/src/xApp/act_proc.c:91-103` | finds, takes the next iterator and erases the one entry between |
| `ActProc.ActiveProcs.HandleIndication` | `flexric/flexric-jyd/src/xApp/msg_handler_xapp.c:237-276` | queues the registered callback, or drops the indication |
| `SyncUi.DeadlineBounds` | `flexric/flexric-jyd/src/xApp/sync_ui.c:73-76` | the deadline lies more than wait_ms and at most wait_ms + 1000 ms ahead, by a whole number of seconds |
| `SyncUi.ReturnsExactlyWhenSignalled` | `flexric/flexric-jyd/src/xApp/sync_ui.c:64-88` | for any pattern of wakeups, the wait returns normally if and only if the first wakeup that is not spurious was signalled and in time |
| `SyncUi.AbortsExactlyWhenFailed` | `flexric/flexric-jyd/src/xApp/sync_ui.c:78-85` | the wait aborts if and only if it failed or timed out at the first wakeup that is not spurious, even if the signal had arrived |
| `SyncUi.TimerExpiresFirst` | `flexric/flexric-jyd/src/xApp/sync_ui.c:64-88` | a timer armed for wait_ms before the caller parks expires before the wait can time out |
| `SyncUi.UnsignalledNeverReturns` | `flexric/flexric-jyd/src/xApp/sync_ui.c:76-85` | a wait never signalled does not return, and aborts if and only if some wakeup fails or times out |
| `SyncUi.SyncUi.CondWait` | `flexric/flexric-jyd/src/xApp/sync_ui.c:64-88` | the wait loop computes that outcome from the wakeups after its own reset alone |
| `Xapp.AddKeepsValid` | `flexric/flexric-jyd/src/xApp/pending_event_xapp.c:95-104` | adding an entry always works; the kinds pending stay distinct exactly when the new one, ids aside, was not pending |
| `Xapp.RmKeepsValid` | `flexric/flexric-jyd/src/xApp/pending_event_xapp.c:167-185` | a removal finds an entry exactly when the kind is pending; the table shrinks by exactly one |
| `Xapp.StepSurvives` | `flexric/flexric-jyd/src/xApp/e42_xapp.c:217-270` | what the xApp's event loop survives, exactly |
| `Xapp.StepDoes` | `flexric/flexric-jyd/src/xApp/e42_xapp.c:217-270` | what a survived input does to all of the state: an answer ends the one entry its search meets and closes that timer, an indication only looks its procedure up, a timer changes nothing |
| `Xapp.EventLoop.AddPendingEvent` | `flexric/flexric-jyd/src/xApp/msg_handler_xapp.c:74-83` | opens the timer and records it |
| `Xapp.EventLoop.RmPendingEvent` | `flexric/flexric-jyd/src/xApp/pending_event_xapp.c:167-185` | extracts an entry of the kind, checks that the table shrank by one, closes the timer |
| `Xapp.EventLoop.OnResponse` | `flexric/flexric-jyd/src/xApp/msg_handler_xapp.c:141-163` | an answer must name a registered procedure and end an entry of its kind; then the caller is signalled |
| `Xapp.EventLoop.OnSetupAnswer` | `flexric/flexric-jyd/src/xApp/msg_handler_xapp.c:338-370` | a setup response ends the setup entry of an unconnected xApp and connects it |
| `Xapp.EventLoop.Turn` | `flexric/flexric-jyd/src/xApp/e42_xapp.c:217-270` | one turn of the xApp's event loop is exactly one step of the specified state machine |
| `XappCalls.MoveSafe` | `flexric/flexric-jyd/src/xApp/e42_xapp.c:389-506` | no enabled move of caller, event loop or network breaks an assertion; all keep the invariant over the three |
| `XappCalls.NoAssertionBreaks` | `flexric/flexric-jyd/src/xApp/e42_xapp.c:389-506` | in no reachable interleaving does an enabled move break an assertion, or the tie between pending table and open timers |
| `XappCalls.PendingStaysSmall` | `flexric/flexric-jyd/src/xApp/pending_event_xapp.c:68-104` | the pending table is a bijection of at most one entry, empty whenever a call returns and whenever a connected xApp is idle |
| `XappCalls.AnswerRemovesOwnEntry` | `flexric/flexric-jyd/src/xApp/pending_event_xapp.c:167-185` | every answer removes exactly one entry, and though only kinds are compared it is the outstanding call's own |
| `XappCalls.CallTimeoutAborts` | `flexric/flexric-jyd/src/xApp/e42_xapp.c:246-255` | a pending timer that fires aborts the xApp if and only if it is connected |
| `XappCalls.NoWaitTimesOut` | `flexric/flexric-jyd/src/xApp/sync_ui.c:76-82` | while no call's timer fires, no wait times out |
| `XappCalls.ReplyHandledAt` | `flexric/flexric-jyd/src/xApp/msg_handler_xapp.c:507-516` | an answer aborts if and only if it is handled before its entry is registered; it leaves the caller stuck if and only if it is handled between registering and parking; the call can return if and only if it is handled after |
| `XappCalls.StuckEndsInAbort` | `flexric/flexric-jyd/src/xApp/sync_ui.c:71-85` | a stuck caller stays stuck through every move but the timeout of its wait, and that breaks the assertion after the wait |
| `XappCalls.EarlyRepliesHappen` | `flexric/flexric-jyd/src/xApp/e42_xapp.c:389-506` | from every start both early moments are reached, with an answer on its way: before registering and before parking |
| `XappHistory.RegistryMeetsMoves` | `flexric/flexric-jyd/src/xApp/e42_xapp.c:389-506` | after any moves from a start the registry holds the reports made and not removed, each with its own id and callback, and besides them only what the call under way will remove |
| `XappHistory.IdleHoldsReports` | `flexric/flexric-jyd/src/xApp/e42_xapp.c:389-506` | between calls the registry holds exactly the reports made and not removed: a report stays when it returns, a delete and a control remove their procedure |
| `XappHistory.IndicationReachesReport` | `flexric/flexric-jyd/src/xApp/msg_handler_xapp.c:237-276` | at any time an indication of a report made and not removed reaches its callback |
| `XappHistory.CallCanReturn` | `flexric/flexric-jyd/src/xApp/e42_xapp.c:389-506` | from every reachable state in which its request or answer is not lost, the moves of the call alone lead to its return |
| `XappHistory.ReportThenRemove` | `flexric/flexric-jyd/src/xApp/e42_xapp.c:389-457` | from every idle, connected state a report can be made, its callback then registered beside all others, and removed, the registry then as before |
| `XappHistory.SetupCanEnd` | `flexric/flexric-jyd/src/xApp/msg_handler_xapp.c:338-370` | from every reachable state of its setup, whatever was lost, the xApp can get connected |
| `Listeners.AddAppends` | `flexric/flexric-jyd/src/ric/near_ric.c:100-124` | a registration lengthens the list of its function and no other list |
| `Listeners.LoadedIsUniform` | `flexric/flexric-jyd/src/ric/near_ric.c:127-151` | whatever service models are loaded, each gets the same three listeners in the same order, and no other function gets any |
| `Listeners.PublishedIsMatching` | `flexric/flexric-jyd/src/ric/msg_handler_ric.c:230-254` | publishing from the first entry's list delivers exactly what publishing from the matching entry's list would |
| `Listeners.ExtraListenerMissed` | `flexric/flexric-jyd/src/ric/msg_handler_ric.c:242-251` | if one function got a further listener, publishing to it would be right if and only if it is the table's first; the loader, the only caller of the registration, never does this |
| `Listeners.PubSub.RegisterListener` | `flexric/flexric-jyd/src/ric/near_ric.c:100-124` | searches the table and appends, or inserts a new list in key order |
| `Listeners.PubSub.LoadDefaults` | `flexric/flexric-jyd/src/ric/near_ric.c:127-151` | the loop over the loaded service models computes the specified table |
| `Listeners.PubSub.Publish` | `flexric/flexric-jyd/src/ric/msg_handler_ric.c:230-254` | checks that the function has an entry and calls the first entry's listeners in order |
| `NetFeeder.PacketHoldsBlock` | `srsRAN/srsran-jyd/lib/examples/pdsch_enodeb.c:672-675` | the packet size is the least number of bytes that holds the transport block |
| `NetFeeder.BlocksKeepBytes` | `srsRAN/srsran-jyd/lib/examples/pdsch_enodeb.c:679-692` | cutting a stream into packets loses, repeats and moves no byte and leaves less than a packet |
| `NetFeeder.NothingIsLost` | `srsRAN/srsran-jyd/lib/examples/pdsch_enodeb.c:662-704` | while reads return data, the packets staged and the residue together are all bytes received, for any chunking and any packet sizes |
| `NetFeeder.ChunkingDoesNotMatter` | `srsRAN/srsran-jyd/lib/examples/pdsch_enodeb.c:662-704` | with one packet size the packets are the blocks of the whole stream, however it was chunked |
| `NetFeeder.EmptyReadDropsResidue` | `srsRAN/srsran-jyd/lib/examples/pdsch_enodeb.c:697-698` | an empty read loses exactly the residue |
| `NetFeeder.MemCpyDown` | `srsRAN/srsran-jyd/lib/examples/pdsch_enodeb.c:693-696` | the compacting copy moves the residue to the front; it is only defined for ranges that do not overlap, and that is proved at its call |
| `NetFeeder.Feeder.OnData` | `srsRAN/srsran-jyd/lib/examples/pdsch_enodeb.c:669-696` | the in-place loop stages exactly the blocks of residue and chunk, and keeps the rest |
| `NetFeeder.Feeder.Run` | `srsRAN/srsran-jyd/lib/examples/pdsch_enodeb.c:662-704` | the reading loop stages exactly the specified packets, and stops at the first failed read with what came before it |
| `Handshake.TokensSumToOne` | `srsRAN/srsran-jyd/lib/examples/pdsch_enodeb.c:679-692` | over every interleaving, semaphore value, feeder at work, flag and release under way sum to one, and staged minus released packets are 0 or 1 |
| `Handshake.NothingIsStagedOver` | `srsRAN/srsran-jyd/lib/examples/pdsch_enodeb.c:680-692` | while the feeder copies, no staged packet is unreleased |
| `Handshake.MulticastSends` | `srsRAN/srsran-jyd/lib/examples/pdsch_enodeb.c:890-911` | at a multicast subframe the loop commits itself if and only if a packet is staged; it then encodes that packet under the pattern, releases it, and frees the semaphore |
| `Handshake.NormalSends` | `srsRAN/srsran-jyd/lib/examples/pdsch_enodeb.c:896-948` | outside multicast a packet staged before the subframe is filled over, and released with the semaphore freed if the subframe is sent on |
| `Handshake.EveryPacketCanLeave` | `srsRAN/srsran-jyd/lib/examples/pdsch_enodeb.c:662-704` | the two threads never block each other for good: from every reachable state, in both modes, some moves stage and release every packet |
| `Handshake.ReleasedWasEncoded` | `srsRAN/srsran-jyd/lib/examples/pdsch_enodeb.c:950-987` | in multicast mode every released packet was encoded exactly once, in order, under the test pattern |
| `Handshake.EncodedIsFed` | `srsRAN/srsran-jyd/lib/examples/pdsch_enodeb.c:662-704` | from the socket to the encoder: packet i that the multicast loop encodes is the i-th packet cut from the bytes received, under the test pattern, for any chunking and any interleaving |
| `Handshake.PatternHidesPacket` | `srsRAN/srsran-jyd/lib/examples/pdsch_enodeb.c:966-968` | written for the transport block the packet was cut for, the pattern hides every byte received if and only if the block is a whole number of bytes |
| `Handshake.PatternIsFaithful` | `srsRAN/srsran-jyd/lib/examples/pdsch_enodeb.c:966-968` | the test pattern leaves a packet as it was if and only if the packet carried the pattern |
| `Handshake.NormalReleaseExactly` | `srsRAN/srsran-jyd/lib/examples/pdsch_enodeb.c:930-948` | outside multicast the encoder had last been given the released packet if it was copied after the last random filling and before the last encoding, and otherwise the random filling; if the two differ, if and only if |
| `Handshake.BothVerdictsHappen` | `srsRAN/srsran-jyd/lib/examples/pdsch_enodeb.c:930-948` | either outcome is reached for any packet and any random filling that differs from it |
| `RbgMask.ReverseMirrors` | `srsRAN/srsran-jyd/lib/examples/pdsch_enodeb.c:461-468` | bit i of the reversed word is bit 31 - i |
| `Words.ReverseTwice` | `srsRAN/srsran-jyd/lib/examples/pdsch_enodeb.c:461-468` | reversing twice gives the word back |
| `RbgMask.GroupsFit` | `srsRAN/srsran-jyd/lib/src/phy/phch/ra.c:60-71` | every bandwidth has 1 to 32 groups, enough for its blocks and no more |
| `RbgMask.PrbsetToBitmask` | `srsRAN/srsran-jyd/lib/examples/pdsch_enodeb.c:470-480` | bit nb - 1 - i is set if and only if group i is in the cursor window, and no bit above nb |
| `RbgMask.CursorStaysInBand` | `srsRAN/srsran-jyd/lib/examples/pdsch_enodeb.c:564-582` | every key sequence keeps both cursor numbers between 0 and nb |
| `RbgMask.MaskSize` | `srsRAN/srsran-jyd/lib/examples/pdsch_enodeb.c:470-480` | after any keys the mask has min(num, nb - orig) bits set |
| `RbgMask.WindowHangsOut` | `srsRAN/srsran-jyd/lib/examples/pdsch_enodeb.c:574-577` | a key takes a window inside the band over its end if and only if it widens one that is not full and ends there |
| `RbgMask.WindowDoesHangOut` | `srsRAN/srsran-jyd/lib/examples/pdsch_enodeb.c:564-582` | in every band of more than one group some keys do |
| `RbgMask.KeysUndoEachOther` | `srsRAN/srsran-jyd/lib/examples/pdsch_enodeb.c:564-582` | left and right undo each other inside the band, and up and down do for the width |
| `RbgMask.KeysStopAtEdges` | `srsRAN/srsran-jyd/lib/examples/pdsch_enodeb.c:564-582` | each key stops at its edge, also for a window that hangs out |
| `RbgMask.EveryWindowIsReached` | `srsRAN/srsran-jyd/lib/examples/pdsch_enodeb.c:564-582` | from every cursor in the band some keys lead to every window inside it |
| `RbgMask.LastIsBeforeDown` | `srsRAN/srsran-jyd/lib/examples/pdsch_enodeb.c:578-581` | the width kept aside is the one before the latest key down |
| `RbgMask.LteGroups` | `srsRAN/srsran-jyd/lib/src/phy/phch/ra.c:60-71` | the group sizes of the standard, and the numbers of groups of LTE's six bandwidths |
| `RbgMask.Control.UpdateControl` | `srsRAN/srsran-jyd/lib/examples/pdsch_enodeb.c:564-582` | a key moves the cursor as specified and the next mask is the cursor's |
| `CellConfig.CheckUnique` | `srsRAN/srsran-jyd/srsenb/src/enb_cfg_parser.cc:950-965` | succeeds if and only if no two cells share a radio port or an identifier |
| `CellConfig.KeptExist` | `srsRAN/srsran-jyd/srsenb/src/enb_cfg_parser.cc:1276-1289` | the filter keeps exactly the listed ids of existing cells |
| `CellConfig.KeptInOrder` | `srsRAN/srsran-jyd/srsenb/src/enb_cfg_parser.cc:1276-1289` | the filter keeps the order, and every id of an existing cell as often as it was listed |
| `CellConfig.KeptTwice` | `srsRAN/srsran-jyd/srsenb/src/enb_cfg_parser.cc:1276-1289` | filtering again changes nothing |
| `CellConfig.FilterScells` | `srsRAN/srsran-jyd/srsenb/src/enb_cfg_parser.cc:1276-1289` | the erase-while-iterating loop ends, succeeds if and only if the cell does not list itself, and computes the filter; on failure it has filtered what precedes the self reference |
| `CellConfig.RrcConfig.SetDerivedArgs` | `srsRAN/srsran-jyd/srsenb/src/enb_cfg_parser.cc:1238-1303` | succeeds if and only if every cell gets its frequencies and none lists itself, and filters every cell's list in place; stops at the first cell that fails |
| `CellConfig.SurvivorsAreUnique` | `srsRAN/srsran-jyd/srsenb/src/enb_cfg_parser.cc:950-965` | after both steps each survivor was listed, is not the cell itself and names exactly one cell |
| `SfMapping.Parse` | `srsRAN/srsran-jyd/srsenb/src/enb_cfg_parser.cc:372-388` | fills the map from the list, or with every second subframe of the period, touches nothing behind it, and stays in the array if and only if the map fits |
| `SfMapping.DefaultIsOrdered` | `srsRAN/srsran-jyd/srsenb/src/enb_cfg_parser.cc:381-386` | both default maps increase strictly and stay inside their period |
| `SfMapping.DefaultMapsByParity` | `srsRAN/srsran-jyd/srsenb/src/enb_cfg_parser.cc:379-385` | by default scheduling requests have even subframes and channel reports odd ones |
| `SfMapping.NeverBothIff` | `srsRAN/srsran-jyd/srsenb/src/enb_cfg_parser.cc:740-752` | on the whole time axis no TTI is both kinds of opportunity if and only if both periods are even, or equal, or below 2 |
| `SfMapping.Clash` | `srsRAN/srsran-jyd/srsenb/src/enb_cfg_parser.cc:740-752` | for all other periods a clash, and how early it comes |
| `SfMapping.EvenPeriodIsPartitioned` | `srsRAN/srsran-jyd/srsenb/src/enb_cfg_parser.cc:381-386` | for one even period each subframe belongs to exactly one of the two maps |
| `EnumParser.LowerIffSameLetter` | `srsRAN/srsran-jyd/srsenb/hdr/parser.h:401-407` | two characters become the same if and only if they are, or are a capital and its small letter, 32 apart |
| `EnumParser.NormalFormIff` | `srsRAN/srsran-jyd/srsenb/hdr/parser.h:400-403` | two texts have the same normal form if and only if they differ in letter case, spaces and hyphens only |
| `EnumParser.NormalFormIsPlain` | `srsRAN/srsran-jyd/srsenb/hdr/parser.h:400-403` | a normal form has no capital, space or hyphen left, differs from its text only by them, and is its own normal form |
| `EnumParser.Remove` | `srsRAN/srsran-jyd/srsenb/hdr/parser.h:402-403` | erase-remove in place computes the text without the character |
| `EnumParser.NowhitespaceStringToEnum` | `srsRAN/srsran-jyd/srsenb/hdr/parser.h:397-416` | succeeds if and only if some option has the same normal form, returns the first such option, and leaves the last option tried when it fails |
| `EnumParser.PrintedParsesBack` | `srsRAN/srsran-jyd/srsenb/hdr/parser.h:397-431` | with distinct normal forms, an option in any letter case with any spaces and hyphens parses back to itself |
| `EnumParser.ShadowedIsUnreachable` | `srsRAN/srsran-jyd/srsenb/hdr/parser.h:397-416` | an option whose normal form came before is never the result |

## Left out

- NetFeeder.Feeder.Run: a read returns no more than the room it asked for.
- Handshake.NormalReleaseExactly: packet contents of the non-multicast branch are one abstract buffer; that branch copies the first half of a packet into both codewords.
- CellConfig.RrcConfig.SetDerivedArgs: whether a cell's carrier frequencies can be derived is a parameter; the warning about equal synchronisation signals is not modelled.
- RbgMask.Control.UpdateControl: gain keys and typed modulation indices are not modelled; restoring the last window size belongs to a failure that never occurs.
- EnumParser.NowhitespaceStringToEnum: letters are ASCII, as in the C locale.
- Returning nodes: in `ControlPlane` a node that leaves does not come back, and agents do not hear of shutdowns; `SetupPhase` models both, without subscriptions.
- NearRic.Ric.MessageHandle: the indication and setup branches also publish and check RAN functions, which can abort; `Listeners` models publishing on its own, the RAN functions are not modelled.
- The assertions of `add_map_e2_node_sad` that only a debugging build compiles (map_e2_node_sockaddr.c:94-108).
- A left key of a bimap is new when it is inserted: a descriptor just opened, or a node id the iApp has let pass.
- Comparing node identifiers is plain equality; the source's comparison of monolithic nodes with split ones is not modelled.
- The checks on RAN functions inside the setup response, service-model callbacks, the iApp beyond its registry of nodes, the database, and the handlers that only assert that they are not implemented.
- Subscription actions carry the id 0 in `ControlPlane`, as the request builders set it; `E2Agent` alone allows any.
- Sockets, SCTP, epoll and timers beyond the set of open descriptors; encoders and decoders; memory allocation and freeing.
- The shared flag of the transmit loop is read and written atomically; the memory model of the two threads is not part of this model.
- The direct deletion call of the RIC, plugin loading, metrics, and the other examples of the radio library.
