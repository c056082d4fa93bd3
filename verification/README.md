# pea2pea, verified

A Dafny 4.11 model of the parts of pea2pea whose correctness does not show in any one function:
the connection lifecycle of a node under arbitrary interleaving and cancellation, the handler
channels and locks it runs on, the ownership of its long-lived tasks, the batched writer, receive
accounting, the topology builder, and the iterative lookup of the DHT example.

`dafny verify dfyconfig.toml` checks the whole project.

## How the concurrent parts are modelled

Tasks that share state are modelled as labelled transition systems. One label is one lock region,
or one step of a task's private progress. A future that is dropped at an await is a label too: the
drop of what it owned. `Next(st, l)` leaves the state alone when label `l` does not apply, so every
sequence of labels is a run, and every theorem over `ls: seq<Label>` is about all interleavings of
any number of tasks, of any length.

| module | what it is |
|---|---|
| `Net`, `Util`, `Bits` | addresses and their canonical IPs; small helpers; exclusive or on numbers |
| `Limits` | the `connecting` set and the per-IP charges, as values and as the class behind the lock |
| `Lifecycle` | reservation, setup, `add`, claim, finalizer and shutdown as one state machine |
| `AddRefinement` | `Lifecycle` with the flag check and the insertion of `add` as two steps, shown to refine it |
| `NodeRegions` | the node's lock regions in place, each shown to be a step of the state machines |
| `HookPairing` | a layer over `Lifecycle`: scheduling guards, hook triggers, both hook channels, the phases of `shut_down` |
| `HookTasks` | a layer over `HookPairing`: the tasks that run the hooks, from their spawn to their abort |
| `HookRefinement` | the hook layers at the source's grain, with the two-step `add` and bounded channels, shown to refine them |
| `ShutdownProgress` | a measure on the states of `HookRefinement`: every run that is not voided can be carried to the signal |
| `SenderMap` | a layer over `Lifecycle`: the Writing handler's jobs, writer tasks and the sender map |
| `DrainWakeup` | `wait_for_drain` against the notifications it waits for |
| `HandlerChannel` | a handler loop and its bounded channel, mid-sends included |
| `LockOrder` | the locks every operation takes, and the threads waiting for them |
| `TaskOwnership` | the task map, abort-on-drop guards, the listening address and its lock |
| `BatchedWriter` | `write_batch` and the writer loop over a framed socket |
| `CountingDecoder` | the counting decoder, and many of them feeding one node's statistics |
| `Topology`, `RandomTopology` | the connections of each topology; the hashed target selection |
| `Lookup` | the DHT example's contact table and lookups |

The hardest invariants are those behind the address-keyed removals. A finalizer, a cleanup guard
and a publication know only an address, and each is right only because of what every other task
keeps: one live guard per address, no reservation for an active address, one finalizer per claimed
entry, ids that never come back. `Lifecycle.Inv` is that invariant, and `Lifecycle.StepInv` shows
that each step keeps it.

Three properties are false of the code as it stands.

The Writing handler publishes a connection's sender without checking that the setup it works for is
still there (pea2pea/src/protocols/writing.rs:476). If that setup's future was dropped meanwhile,
another connection may own the address by then, and loses its sender. `SenderMap` gives such a run,
the exact condition under which a step breaks the map, and the hypothesis that excludes it.

The OnDisconnect handler aborts a hook whose disconnect was cancelled, so that it does not run on
detached (pea2pea/src/protocols/on_disconnect.rs:113-120), but it can only tell when its reply
fails. A disconnect that is dropped after the reply was sent and before it was taken drops the hook's
handle with it, and the hook runs on with nobody to stop it. `HookRefinement.DetachedExactly` says
that this is the only way, and `HookRefinement.LateCancellationDetaches` is such a run.

INVARIANTS.md:47-50 says that no connection is inserted once the shutdown flag is up. `Connections::add`
reads the flag and inserts later (pea2pea/src/connections.rs:56-62), so the one connection that is past
the check at that moment still gets in; `AddRefinement.EntersAfterTheFlag` is the step.
`HookRefinement.EntersExactlyIfInside` says that it is the only one, through any continuation. What a
shutdown relies on is true: nothing enters after its snapshot, because the snapshot waits for the lock.

## Model

| member | source | states |
|---|---|---|
| `Net.CanonicalIpSeparatesHosts` | pea2pea/src/connections.rs:320-328 | two addresses share an accounting key exactly when they denote the same host, an IPv4 address and its IPv4-mapped IPv6 form (section 2.5.5.2 of RFC 4291) being one host |
| `Limits.ReserveCharges` | pea2pea/src/connections.rs:279-282 | reserving for a new owner leaves every IP charged for exactly its owners |
| `Limits.ReleaseCharges` | pea2pea/src/connections.rs:298-317 | releasing an owned charge never meets the missing-bucket branch and leaves the remaining owners exactly charged, with no empty bucket |
| `Limits.ConnectionLimits.Reserve` | pea2pea/src/connections.rs:279-282 | the in-place update is the reservation of the specification |
| `Limits.ConnectionLimits.IpCount` | pea2pea/src/connections.rs:285-290 | the answer is the number of owners on the address's canonical IP, whoever they are |
| `Limits.ConnectionLimits.ReleaseIp` | pea2pea/src/connections.rs:298-317 | the in-place update is the release of the specification; the double-release branch is taken exactly when there is no bucket |
| `Limits.ConnectionLimits.DropGuard` | pea2pea/src/connections.rs:340-350 | a guard's drop clears the pending mark, and releases the charge exactly if the connection was not completed |
| `NodeRegions.Accepted` | pea2pea/src/node.rs:253-291 | zero limits are rejected; clamping the setup budget to the connection limit changes no admission |
| `NodeRegions.Node.CheckAndReserve` | pea2pea/src/node.rs:972-1038 | the answer and the new state are those of the lifecycle's reservation step |
| `NodeRegions.Node.Add` | pea2pea/src/connections.rs:45-68 | refused exactly during shutdown; otherwise the entry goes in, and the guard is dropped as completed or not accordingly |
| `NodeRegions.Node.ClaimDisconnect` | pea2pea/src/node.rs:916-934 | the claim is won exactly if the address is active, the id matches when one is given, and nobody claimed before; nothing else changes |
| `NodeRegions.Node.DropFinalizer` | pea2pea/src/node.rs:1227-1232 | removes the entry of its address and releases one charge |
| `NodeRegions.WritingSenders.Publish` | pea2pea/src/protocols/writing.rs:469-478 | the in-place update is the publishing step of `SenderMap`; if everyone found their own sender before, they still do exactly when nobody else occupies the address |
| `NodeRegions.WritingSenders.CleanUp` | pea2pea/src/protocols/writing.rs:530-541 | the cleanup is that of the state machine, and no entry tagged with another id is touched |
| `NodeRegions.NodeTasks.Register` | pea2pea/src/node.rs:1137-1150 | adopted exactly outside shutdown, with the effect of the registration step of `TaskOwnership` |
| `NodeRegions.NodeTasks.TakeAll` | pea2pea/src/node.rs:1053-1065 | the in-place update is the begin and take steps of `TaskOwnership`: every registered task moves into a guard, and each task keeps exactly as many owners as it had |
| `Lifecycle.StepInv` | pea2pea/src/node.rs:569-1235 | every step of every task keeps the lifecycle invariant: guards, charges, ids, claims, caps, permits and shutdown snapshots |
| `Lifecycle.AddNeverOverwrites` | pea2pea/src/connections.rs:45-68 | in every run an uncompleted reservation's address is not active, so `add` grows the active set by one or refuses and changes nothing |
| `Lifecycle.FinalizerRemovesItsOwn` | pea2pea/src/node.rs:1213-1235 | in every run the address-keyed finalizer removes exactly the connection it claimed, which was never removed before |
| `Lifecycle.ClaimHolds` | pea2pea/src/node.rs:916-934 | a claimed entry keeps its id and its one owner through any continuation until that owner drops |
| `Lifecycle.StaleGuardIsHarmless` | pea2pea/src/protocols/mod.rs:144-166 | the cleanup guard of a removed connection changes nothing, however late it fires and whoever has the address |
| `Lifecycle.ChargeConservation` | pea2pea/src/connections.rs:275-350 | in every run each IP's count is its uncompleted guards plus its active entries, and no bucket holds zero |
| `Lifecycle.NoDoubleRelease` | pea2pea/src/connections.rs:308-315 | no finalizer and no uncompleted guard can ever meet the double-release branch |
| `Lifecycle.AdmissionCaps` | pea2pea/src/node.rs:972-1038 | in every run active entries plus uncompleted reservations, and active united with connecting, stay within `max_connections`, and each IP within `max_connections_per_ip` |
| `Lifecycle.SumOfSizesMayExceedTheCap` | pea2pea/src/connections.rs:59-67 | a run in which the two sizes added exceed the cap: a finishing connection is counted in both for a moment |
| `Lifecycle.BudgetDominates` | pea2pea/src/node.rs:997-1010 | in every run whoever reaches the admission check sees at most `max_connecting - 1` pending addresses, so the pending limit never rejects |
| `Lifecycle.ActiveOnlyShrinks` | pea2pea/src/connections.rs:56-64 | once the shutdown flag is up, with `add` taken to happen when it reads the flag, the active set only shrinks |
| `AddRefinement.RunSimulates` | pea2pea/src/connections.rs:56-64 | every run in which a shutdown may begin between the flag check and the insertion of `add` is a lifecycle run, the insertion taken at its check |
| `AddRefinement.StatesAreLifecycleStates` | pea2pea/src/connections.rs:56-64 | whenever nobody is inside `add`, the state is one the lifecycle reaches, so its invariant and theorems hold |
| `AddRefinement.EntersAfterTheFlag` | pea2pea/src/connections.rs:57-62 | in any state such a race lets the connection in after the flag is up |
| `AddRefinement.NothingEntersAfterTheSnapshot` | pea2pea/src/node.rs:1053-1076 | but from a shutdown's snapshot on, race or not, the active set only shrinks |
| `Lifecycle.FanoutLeavesOwners` | pea2pea/src/node.rs:1070-1076 | when a shutdown has tried its snapshot's claims, each remaining entry has exactly one live finalizer |
| `Lifecycle.DrainStep` | pea2pea/src/node.rs:1078-1090 | from then on no finalizer appears, each effective drop removes one entry and no other step changes the active set |
| `Lifecycle.DrainCompletes` | pea2pea/src/node.rs:1087-1090 | every interleaving in which the live finalizers drop, by completion or cancellation, empties the active set |
| `HookPairing.Projects` | pea2pea/src/node.rs:569-1132 | every step of the hook layer is a lifecycle step or leaves the lifecycle alone |
| `HookRefinement.RunSimulates` | pea2pea/src/node.rs:601-672 | every run with the flag check and the insertion of `add` apart, and with permits, claims and writes of the bounded channels, is a run of the hook layers, `add` taken at its check and a send at its claim |
| `HookRefinement.HooksPair` | pea2pea/src/node.rs:1053-1125 | in every such run not voided by a hard abort or a dropped disconnect, once the handlers are signalled each connection that ever entered has had exactly one OnConnect and one OnDisconnect processed, nothing else was, none was lost, and the active set is empty |
| `HookRefinement.HooksAtMostOnce` | pea2pea/src/node.rs:640-666 | in every such run, voided or not, a connection gets at most one trigger of each kind, and only once it has entered |
| `HookRefinement.NoTriggerIsLost` | pea2pea/src/protocols/mod.rs:281-304 | in every such run that is not voided no trigger meets a closed channel |
| `HookRefinement.TasksAttachToTheirOwn` | pea2pea/src/node.rs:640-666 | in every such run, voided or not, exactly the processed OnConnect triggers have a task; an abortable one has its handle on the way to its scheduling task, is attached to its own active connection, or is aborted, and never escapes; one that is not abortable is never aborted |
| `HookRefinement.TasksDieWithTheirConnection` | pea2pea/src/connections.rs:258-264 | once its connection is gone and its scheduling over, an abortable OnConnect task has been aborted |
| `HookRefinement.NobodyRepliesInVain` | pea2pea/src/protocols/on_connect.rs:128-138 | in every such run the handler of an OnConnect trigger finds its scheduling task waiting, so the branch for a failed reply is never taken |
| `HookRefinement.DisconnectTasksAreAccounted` | pea2pea/src/node.rs:876-890 | in every such run exactly the processed OnDisconnect triggers have a task, an attached one is with its own active connection, and no disconnect finds the connection it claimed gone |
| `HookRefinement.DetachedExactly` | pea2pea/src/protocols/on_disconnect.rs:113-120 | an OnDisconnect hook's task is left running unowned if and only if its disconnect was dropped between the handler's reply and the disconnect's taking it |
| `HookRefinement.LateCancellationDetaches` | pea2pea/src/protocols/on_disconnect.rs:113-120 | a run in which that happens: the connection is gone and its hook runs on detached |
| `HookRefinement.LateSetupsAreRefused` | pea2pea/src/node.rs:601-611 | a setup that takes its scheduling guard while the shutdown flag is up never gets its connection in, through any continuation |
| `HookRefinement.NoneEntersAfterTheSnapshot` | pea2pea/src/node.rs:1070-1097 | from a shutdown's snapshot on no connection enters, through any continuation |
| `HookRefinement.EntersExactlyIfInside` | INVARIANTS.md:47-50 | once the flag is up, a connection that has not entered does so in some continuation if and only if it is the one being inserted at that moment |
| `HookRefinement.ChannelsAreBounded` | pea2pea/src/protocols/on_connect.rs:95-98 | in every such run a hook channel holds no more than its capacity, sends under way included |
| `HookRefinement.NoSendAtTheSignal` | pea2pea/src/node.rs:1099-1106 | when a shutdown signals the handlers, no send to either channel is under way, with a permit or with a slot claimed and not yet written |
| `ShutdownProgress.RunProgress` | pea2pea/src/node.rs:1069-1106 | in every reachable state with a snapshot, not voided and not yet signalled, some step lowers a positive measure of the work left or gives the signal, and lets no connection in |
| `ShutdownProgress.SnapshotsCanBeServed` | pea2pea/src/node.rs:1069-1106 | from every reachable state with a snapshot that is not voided, some continuation signals the handlers without voiding the run, with the hooks of exactly the connections that had entered paired |
| `ShutdownProgress.ShutdownCanFinishUnlessVoided` | pea2pea/src/node.rs:1053-1106 | a run can be carried to such a signal, serving exactly the connections that entered or are being inserted, if and only if it is not voided |
| `ShutdownProgress.AConnectionIsServed` | pea2pea/src/node.rs:1053-1106 | there is a run in which a connection enters and a shutdown signals with its hooks paired |
| `SenderMap.KeptExactlyUnlessClobbered` | pea2pea/src/protocols/writing.rs:469-478 | in every reachable state where each occupant of an address finds its own sender, a step keeps that so if and only if it does not publish over another occupant |
| `SenderMap.RightThroughoutExactly` | pea2pea/src/protocols/writing.rs:469-541 | over whole runs: the map is right throughout if and only if no step publishes over another occupant |
| `SenderMap.SendersStayTheirOwn` | pea2pea/src/protocols/writing.rs:438-541 | in every run without a setup abandoned while the handler had its connection, each active unclaimed connection with a running writer finds its own id, however late older cleanups run |
| `SenderMap.AbandonedSetupClobbers` | pea2pea/src/protocols/writing.rs:476 | a run with such a setup, after which a live connection's address leads to a dead one's sender, and then to none |
| `DrainWakeup.NoLostWakeup` | pea2pea/src/node.rs:59-69 | in every interleaving a waiter parked at zero has been notified or is owed a notification, for the active set and for the scheduling counter |
| `DrainWakeup.ParkedGetsThrough` | pea2pea/src/node.rs:228-243 | and from there an owed notification and the waiter's own steps bring it through |
| `DrainWakeup.ThroughMeansZero` | pea2pea/src/node.rs:59-69 | in every run a waiter that is through registered first, stayed registered until a check that found zero, and got through by that check |
| `HandlerChannel.HookLoopRunsEverything` | pea2pea/src/protocols/mod.rs:281-304 | a hook loop that ended gracefully has run every accepted trigger, mid-sends included, each once and in the order the channel took them |
| `HandlerChannel.SetupLoopResolvesEverything` | pea2pea/src/protocols/mod.rs:240-271 | a setup loop that ended gracefully has resolved every accepted request exactly once: answered, failed in the drain, or dropped with its task |
| `HandlerChannel.DrainIsBounded` | pea2pea/src/protocols/mod.rs:240-304 | after the close, drain steps taken and work left add up to the work there was |
| `HandlerChannel.DrainNeverSticks` | pea2pea/src/protocols/mod.rs:240-304 | a closed channel with work left always has a drain step to take, and one without can end |
| `LockOrder.ProgramsAreDisciplined` | pea2pea/src/connections.rs:51-67 | every operation takes `limits` before `active`, holds nothing with `senders`, and releases what it took |
| `LockOrder.RunInv` | pea2pea/src/node.rs:972-977 | in every interleaving the locks exclude and every thread keeps the order |
| `LockOrder.NoWaitCycle` | pea2pea/src/node.rs:1227-1233 | no reachable state has a cycle of threads waiting for one another, queueing behind earlier waiters included |
| `LockOrder.SomebodyGoesOn` | pea2pea/src/connections.rs:340-350 | while an operation is under way some thread has a step that no lock policy can withhold |
| `TaskOwnership.EveryTaskHasOneOwner` | pea2pea/src/node.rs:1137-1181 | in every run, cancellations included, a spawned listener or handler task is registered under one kind, held by one guard, or aborted: exactly one of them, exactly once |
| `TaskOwnership.RegistrationNeverDisplaces` | pea2pea/src/node.rs:1143-1148 | in every run registration finds its kind free |
| `TaskOwnership.AddressMeansListener` | pea2pea/src/node.rs:331-386 | whenever the address lock is free and no shutdown has taken the tasks, an address is set exactly when a listener is registered |
| `TaskOwnership.MissingListenerMeansShutdown` | pea2pea/src/node.rs:335-340 | a toggle that finds an address but no listener task is in a node being shut down |
| `TaskOwnership.ShutdownIsFinal` | pea2pea/src/node.rs:1062-1131 | once the tasks are taken and the address cleared, nothing is registered and no address is set again, whatever follows |
| `BatchedWriter.EncodedConcat` | pea2pea/src/protocols/writing.rs:404-412 | where a sequence of messages is cut into batches makes no difference to its bytes, its codec state or its success |
| `BatchedWriter.WriteBatch` | pea2pea/src/protocols/writing.rs:294-332 | on success the socket holds all earlier bytes and the whole batch's encodings and the byte count is exact whatever flushed on the way; on failure what was produced is a prefix, cut at a message |
| `BatchedWriter.WriterLoop` | pea2pea/src/protocols/writing.rs:401-430 | for every batch split, boundary and flush fate, what the peer gets is a prefix of the messages encoded one by one; exactly the first `n` are confirmed, are flushed in full and are what both statistics count; the failed batch is refused and the rest abandoned |
| `CountingDecoder.CountingCodec.Account` | pea2pea/src/protocols/reading.rs:367-384 | the counter changes as specified and the node's statistics by as much as the connection's |
| `CountingDecoder.CountingCodec.Decode` | pea2pea/src/protocols/reading.rs:391-398 | the inner decoder's answer is passed on and accounted whatever it is |
| `CountingDecoder.CountingCodec.DecodeEof` | pea2pea/src/protocols/reading.rs:400-405 | the same at the end of the stream |
| `CountingDecoder.CallBalances` | pea2pea/src/protocols/reading.rs:367-384 | each call keeps bytes arrived equal to bytes buffered, pending and registered, and productions equal to messages and empty productions |
| `CountingDecoder.ReceivedIsConserved` | pea2pea/src/protocols/reading.rs:356-406 | in every run, registered plus pending plus buffered bytes are all that arrived if and only if no call grew its input, and messages are all productions if and only if none came from no byte |
| `CountingDecoder.EmptyProductionIsNotCounted` | pea2pea/src/protocols/reading.rs:373-377 | a run in which a message produced from no byte is not counted |
| `CountingDecoder.NodeTotalsAreSums` | pea2pea/src/stats.rs:47-60 | under any interleaving of connections, the node's totals are the sums over them whenever no reader is between its two registrations |
| `Topology.ConnectNodes` | pea2pea/src/topology.rs:76-187 | rejected exactly for the invalid inputs; otherwise twice the connections made are those declared, none is of a node to itself, they are exactly the topology's, and no two nodes are joined twice unless in a ring of two |
| `Topology.ConnectMesh` | pea2pea/src/topology.rs:94-101 | exactly the pairs `i < j`, each once, half of `(n - 1) * n` |
| `Topology.ConnectGrid` | pea2pea/src/topology.rs:108-138 | exactly the lattice neighbours to the right and below, each once, in the declared number |
| `Topology.ConnectTree` | pea2pea/src/topology.rs:139-152 | exactly the parent-child pairs of the binary tree, each once, `n - 1` of them |
| `Topology.ConnectRandom` | pea2pea/src/topology.rs:153-183 | each node dials exactly `degree` distinct peers other than itself |
| `Topology.SimpleExactly` | pea2pea/src/topology.rs:84-93 | a fixed topology joins two nodes twice if and only if it is a ring of two |
| `RandomTopology.MixerIsABijection` | pea2pea/src/topology.rs:170-173 | multiplying by the odd constant and folding the high half are undone by the inverse, both ways, on all 64-bit words |
| `RandomTopology.EveryTargetComesUp` | pea2pea/src/topology.rs:166-175 | for every node, seed and target some attempt before the counter overflows selects the target |
| `RandomTopology.ChooseTargets` | pea2pea/src/topology.rs:161-181 | the retry loop ends without overflowing its counter, with `degree` distinct peers: exactly those picked so far |
| `Bits.XorCancels` | examples/examples/kademlia_dht.rs:170-172 | exclusive or with a fixed key is injective, so the distance to a target tells ids apart |
| `Lookup.NearestAreNearest` | examples/examples/kademlia_dht.rs:175-179 | the `k` nearest contacts are in strictly increasing distance, as many as there can be, and nearer than all others |
| `Lookup.AllJoinedIds` | examples/examples/kademlia_dht.rs:230-242 | taking in contacts keeps ids distinct and not the node's own, loses nobody, and adds exactly the named ids |
| `Lookup.DhtNode.AddContact` | examples/examples/kademlia_dht.rs:182-191 | the table keeps distinct ids other than the node's own and gains the contact unless it is known |
| `Lookup.DhtNode.RemoveContact` | examples/examples/kademlia_dht.rs:415-423 | the table loses exactly the contact of that id and keeps the others' order |
| `Lookup.ReplayedIds` | examples/examples/kademlia_dht.rs:182-191 | after any history of joins and departures the table lists distinct other nodes, exactly those that were there or joined and have not left since |
| `Lookup.DhtNode.AbsorbContacts` | examples/examples/kademlia_dht.rs:230-242 | the parsed contacts of a reply join the shortlist and, one lock at a time and with other tasks' changes in between, the table |
| `Lookup.DhtNode.ClosestContacts` | examples/examples/kademlia_dht.rs:175-179 | the `k` nearest contacts of the table |
| `Lookup.DhtNode.IterativeFindNode` | examples/examples/kademlia_dht.rs:249-284 | against arbitrary replies it ends; it asked every id it ever learned of, nearest first; its shortlist is exactly the initial contacts and the parsed replies; the result is the `K` nearest of it; the table holds exactly who was there, joined or was named and has not left since |
| `Lookup.DhtNode.FindValue` | examples/examples/kademlia_dht.rs:307-338 | it ends; a value is the last peer's answer; without one every id it learned of was asked and none had it; the table holds exactly who was there, joined or was named and has not left since |
| `Lookup.AskedOnce` | examples/examples/kademlia_dht.rs:253-262 | no id is asked twice in a lookup |
| `Lookup.FixpointReached` | examples/examples/kademlia_dht.rs:249-284 | against peers that answer alike each time, an exhausted lookup has found the least set closed under their answers |

## Left out

- Sockets, the kernel's queues, accept errors and their back-off, TLS: not modelled. A timeout is a step that may happen at any time.
- Identifiers and counters are unbounded in the lifecycle, the statistics and the tickets of `LockOrder`; 64-bit wrap-around after 2^64 connections or bytes is not modelled.
- The flow information and scope id of an IPv6 socket address: an address is an IP and a port here.
- The handler loops (`HandlerChannel`, `HookRefinement`) are transition systems on values rather than loops, because their subject is interleaving with senders; the order of `select` branches is left open.
- `Connection` objects: an entry of the active map is a value, and its flag is updated in the map; aliasing of connections and task handles is not captured.
- The hard aborts (a dropped `shut_down`, an expired drain deadline) and a dropped disconnect end the pairing guarantee of `HookRefinement.HooksPair`, as the code documents; a trigger left in the channel of an aborted handler counts as dropped, and whether its memory is ever freed is not followed.
- Removing a connection and aborting the tasks attached to it are one step of `HookTasks`; the code drops the connection, which aborts them, just after the lock is released (pea2pea/src/node.rs:1227-1233).
- `SenderMap` takes `add`, and `TaskOwnership` takes the registration of a task, as one step with its check of the shutdown flag; only the lifecycle and the hook layers are taken to the two-step grain.
- `ShutdownProgress` shows that a shutdown can always be completed, not that a fair scheduler completes it. It takes channels with room for an item: the hook channels are as large as the connection limit, which a node's configuration must make positive.
- Hook tasks that end on their own: a fate says who could still abort the task, not whether it is still running.
- Panics inside hooks and codecs, beyond the drop of what the task owned.
- Enabling a protocol twice at once, and handshakes that return another connection: API misuse, excluded.
- Encoders that rewrite bytes already in the write buffer: an encoder appends here.
- The error kinds of `queue_message`, and which error ended a write: failure is one outcome.
- Lock fairness: `LockOrder` shows that a step is always possible, not that every thread gets its turn.
- Overflow of `width * height` in the grid topology, and connects that fail: all connects are taken to succeed, as the source expects.
- `ChooseTargets` and `ConnectNodes` take at most 2^63 nodes, which no slice exceeds on a 64-bit machine.
- RPC correlation, storage and the handshake of the DHT example: a query's outcome is an arbitrary answer.
- Logging, tracing spans, heuristics counters, LAN discovery, the other examples, benches and test drivers.
