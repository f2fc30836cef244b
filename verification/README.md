# Xfiles in Dafny

A model of the in-memory hub of Xfiles and proofs of what its state machines guarantee. Six parts of the
hub are modelled, one group of files each.

- **Custody of messages** (`Queue`, `Custody`, `CustodyOrder`, `CustodyFifo`, `CustodyRegistry`,
  `CustodyRaces`, `CustodyPieces`, `CustodySweeps`, `Agents`, `Transport`, `Handlers`). `Custody` is a transition
  system over connections, registrations, per-agent queues and a ledger of what was accepted, handed over, pruned,
  swept away and dropped. What the program does with several operations on its maps is there both as one step and
  taken apart: a hello (register, then drain in any portions), a send (look the agent up, push into the channel
  found, enqueue), a teardown (find the connection registered, remove the agent's entry) and a pruning (pass over
  each queue, collect the empty ones, remove them). The theorems over runs hold of every interleaving of these
  unless they say otherwise. `Transport.TransportState` holds the live registry, queue and channels; each of its
  handlers is proved to take exactly the whole protocol steps it is recorded with, and `Valid` keeps the live state
  equal to the abstract one, down to the contents of every channel. The results for handlers that nothing interrupts
  are stated on the live objects (`LiveAgentsWait`, `KeptInOrder`, `DeliveredInOrder`, `SentInOrder`); `Handlers`
  composes the handlers with routing.
- **Virtual filesystem** (`Paths`, `PathLaws`, `Vfs`, `VfsAgreement`, `VfsMount`, `VfsExact`). The path algebra with
  Unicode whitespace trimming, the flat registry with its cached children, and mounting.
- **Circuit breaker** (`Circuit`) and **token bucket** (`RateLimit`), over integer ticks, with bounds over
  whole runs.
- **Routing** (`Plumber`, `Routing`, `Router`). Rules kept in priority order, and the stage pipeline whose
  breaker stage asks once per occurrence of a candidate.
- **Learning** (`Distribution`, `QuantumState`, `Entanglement`, `QuantumRouter`), over the real numbers.
  `sqrt`, `cos` and `sin` are any functions with `sqrt(x)*sqrt(x) == x` and `cos^2 + sin^2 == 1`.
- **Health of endpoints** (`Probe`).

Objects that the program changes in place are classes (`MessageQueue`, `Channel`, `AgentRegistry`,
`TransportState`, `VfsRegistry`, `CircuitBreaker`, `RateLimiter`, `Plumber`, `RoutingContext`,
`RoutingPipeline`, `ConversationState`, `QuantumStateManager`, `EntanglementTable`, `QuantumRouter`,
`ProbeEngine`). Their methods keep the program's branches and loops and are proved equal to specification
functions; the theorems are lemmas about those functions over every run. Clocks, network answers, random
draws and the regex library are parameters or unconstrained choices.

Findings, where the code and what one would expect of it differ:

- The time a full bucket keeps when a refill rounds to zero never buys an extra token: from any check to any
  later one, admissions stay within one full bucket plus the tokens earned in between
  (`RateLimit.SlidingWindowBound`), and that bound is reached (`RateLimit.BurstsAdmitted`).
- Order of delivery survives every interleaving exactly when no push overtakes a non-empty queue
  (`CustodyFifo.FifoExactlyWithoutOvertaking`). These interleavings allow that: a push between the two halves of a
  hello, or between two sends of its drain loop (`CustodyRegistry.SplitHelloBreaksFifo`,
  `CustodyRegistry.SplitDrainReorders`); a hello, whole or not, between a sender's look-up and its enqueueing
  (`CustodyRaces.SplitSendBreaksFifo`); and an agent's unregistration between a sender's look-up and its push
  (`CustodyRaces.LatePushBreaksFifo`). The program has no lock that excludes them. With whole hellos, the registration
  has to move while a send is under way (`CustodyRaces.UndisturbedUnlessInterrupted`).
- Pruning loses messages that are not old. `prune_old` collects the empty queues and then removes them without
  looking again (`src/queue.rs:83-92`), so whatever was enqueued in between is gone: exactly what came in since the
  queue was found empty and was not taken out since (`CustodySweeps.SweptExactly`). `CustodySweeps.SplitPruneLosesNew`
  is such a run, with a sender that queues what it cannot push. Together with the messages that are too old and the
  pushes of senders that ignore failures, this is the only way a message is lost, whatever is interleaved
  (`CustodyOrder.EverythingAccounted`, `CustodyFifo.NothingLostExactly`).
- A teardown can evict a newer connection. It finds its own connection registered and then removes the agent's entry,
  whosever it is by then (`src/net/transport.rs:98-102`); a hello in between leaves a live connection unregistered
  (`CustodyRegistry.SplitTeardownHarms`), and only that does (`CustodyRegistry.SplitTeardownEvicts`).
- The REST API ignores a failed push just as websocket messages do (`src/api.rs:321-325`); only `/msg` and gRPC
  queue the message then.
- A path whose last component ends in whitespace is not its own normal form. Where its parent is itself a node,
  a directory of that name is cached under one name and scanned under another
  (`VfsExact.SeededUnsteady`: `/net/a /`); directly below the root, which is not a node in a new registry, it
  does no harm. `VfsExact.AddAgreesExactly` and `VfsExact.RemoveAgreesExactly` say exactly which operations do.
  An agent whose path ends in whitespace has its base directory made at the trimmed path, where unmounting leaves it
  (`VfsMount.StrayBase`): if another agent has that path, its directory is replaced by an empty one. For an id with an
  empty, `.` or `..` component unmounting removes nothing at all (`VfsMount.UnmountMisses`).
- An endpoint that recovers, but is the destination of more matching rules than its half-open episode has
  probes, spends them all in one routing without being selectable, and stays shut until an outcome is recorded
  (`Routing.RepeatsWedge`).

Verify with `dafny verify dfyconfig.toml` (Dafny 4.11).

## Model

| member | source | states |
|---|---|---|
| `Queue.Channel.Send` | src/queue.rs:47-49 | a send succeeds only while the receiver is there; once it fails the channel stays closed; a message is in the channel exactly if its send succeeded |
| `Queue.MessageQueue.Enqueue` | src/queue.rs:29-40 | the message joins the back of that agent's queue, with the time and no retries, and no other queue changes |
| `Queue.MessageQueue.DrainTo` | src/queue.rs:43-70 | for every moment at which sends begin to fail, what was sent followed by what remains is the old queue, the count is what was sent, and an emptied queue leaves the map |
| `Queue.SendAll` | src/queue.rs:46-56 | the loop itself: pop, send, and put back at the front what could not be sent |
| `Queue.MessageQueue.PruneOld` | src/queue.rs:73-93 | for a positive limit, every message stays as often as it was queued while it is less than that many seconds old, to the nanosecond, and goes otherwise; empty queues leave the map |
| `Queue.RetainedSplits` | src/queue.rs:75-77 | what is kept of a queue is what is kept of its parts, so it stays in order |
| `Clock.WholeSecondsExactly` | src/queue.rs:77-77 | a duration falls short of `n` whole seconds exactly while it is less than `n` times a thousand million nanoseconds, or, as seconds are cut toward zero, a second less below zero |
| `Queue.SplitDrainLosesNothing` | src/queue.rs:45-61 | messages enqueued between the drain loop and the removal of an empty queue are neither lost nor reordered, and every queue ends as if they had come after the whole drain |
| `Queue.SplitPruneLoses` | src/queue.rs:83-92 | messages enqueued between the program's collection of empty queues and its removal of them survive if and only if their queue was not found empty |
| `CustodyOrder.RetainedPartition` | src/queue.rs:75-77 | retained and discarded messages together are the queue, each message as often |
| `CustodyOrder.PruneCutsFront` | src/queue.rs:75-77 | in a queue ordered by arrival, pruning cuts off the front |
| `CustodyOrder.AllConserved` | src/queue.rs:29-93 | over every run, with hellos, sends, teardowns and prunings taken apart and all senders: accepted = handed over + queued + pruned + swept away + dropped, as multisets, for every agent |
| `CustodyOrder.EverythingAccounted` | src/daemon.rs:564-583 | over every such run, every message some sender had for an agent is still between look-up and delivery, or was handed over, is queued, was pruned, was swept away or was dropped, each as often |
| `CustodyOrder.SendIsItsPieces` | src/daemon.rs:564-583 | look-up, push and enqueueing with nothing in between are the one-step send |
| `CustodyOrder.WholeAccepts` | src/daemon.rs:564-583 | with whole sends, what senders have for an agent is accepted (or dropped) at once, in their order |
| `CustodyPieces.HelloIsItsPieces` | src/net/transport.rs:137-139 | a whole hello is registering and draining with nothing in between, and, where the receiver goes away under it, stopping with the rest put back |
| `CustodyPieces.DrainsAdd` | src/queue.rs:45-56 | two portions of a drain loop with nothing in between are one |
| `CustodyPieces.PruneIsItsPieces` | src/queue.rs:73-93 | a whole pruning is passing over all queues, collecting the empty ones and removing them, in whatever orders, with nothing in between |
| `CustodySweeps.InAndOut` | src/queue.rs:29-93 | over every run, what was queued for an agent and what is enqueued is what is drained, pruned or swept away and what is queued in the end, each as often; and in order, if nothing is taken out |
| `CustodySweeps.RemovedWasCollected` | src/queue.rs:83-92 | no queue is removed by a pruning that was not found empty at some earlier point of the run |
| `CustodySweeps.SweepLosesLateArrivals` | src/queue.rs:83-92 | what the removal of a queue loses is what was enqueued since it was found empty and not taken out since, each as often; all of it, in order, if nothing was taken out |
| `CustodySweeps.SweptExactly` | src/queue.rs:83-92 | over every run, every removal goes back to a moment when the queue was found empty, and loses exactly what was enqueued since then and not taken out |
| `CustodySweeps.SweptAwayIn` | src/queue.rs:83-92 | what a run sweeps away is what its removals find in the queues, in order |
| `CustodySweeps.SplitPruneLosesNew` | src/queue.rs:74-92 | a five-step run in which a message accepted and enqueued at the very instant by which pruning goes is swept away |
| `CustodyFifo.FifoExactlyWithoutOvertaking` | src/daemon.rs:560-586 | over every run with a clock that never goes back, whatever is taken apart, a drain loop send by send included, what left followed by the queue is what was kept in order if and only if no message was pushed past a non-empty queue |
| `CustodyFifo.AtomicNeverOvertakes` | src/net/transport.rs:126-141 | with hellos as one step, and no sender acting on a look-up that the registry has outrun, an agent registered with an open channel has an empty queue in every reachable state, so no push overtakes |
| `CustodyFifo.FifoCustody` | src/net/transport.rs:126-141 | under the same two conditions, prunings and teardowns taken apart or not and every sender allowed, the messages kept for an agent leave (handed over, pruned or swept away) in the order they were accepted |
| `CustodyFifo.EndToEndFifo` | src/daemon.rs:709-732 | under the same two conditions, with `/msg` and gRPC senders only and no pruning, whatever the clock, the accepted sequence is the handed-over log across all connections followed by the queue, exactly |
| `CustodyFifo.NothingLost` | src/daemon.rs:566-583 | with such senders and no pruning nothing is ever marked lost, hellos, sends and teardowns taken apart or not |
| `CustodyFifo.NothingLostExactly` | src/queue.rs:73-93 | over every run, an agent's messages are all safe if and only if no sender that ignores failures met a channel without receiver, no pruning found one too old, and no queue found empty was removed with something in it |
| `CustodyFifo.RegistryEffect` | src/net/transport.rs:96-137 | the registration of an agent after any step: a hello of its own connections sets it; an unregistration, the teardown of the registered connection, or the late removal of any of its teardowns ends it; nothing else touches it |
| `CustodyFifo.ChannelEffect` | src/net/transport.rs:33-51 | a connection keeps its agent and a receiver that is gone never comes back |
| `CustodyRegistry.RegistrationSafety` | src/net/transport.rs:96-111 | in every run the registered connection of an agent is the one of its most recent hello, and was never torn down |
| `CustodyRegistry.SupersededTeardown` | src/net/transport.rs:104-109 | the whole teardown of a connection that is not the latest to say hello changes nothing in the registry |
| `CustodyRegistry.TeardownIsItsPieces` | src/net/transport.rs:96-111 | a whole teardown is its look-up and its removal with nothing in between |
| `CustodyRegistry.SplitTeardownEvicts` | src/net/transport.rs:98-102 | after any run between the look-up and the removal of a teardown, the removal differs from a whole teardown in its place if and only if another connection is registered by then; it said hello in between, and its entry is gone |
| `CustodyRegistry.SplitTeardownHarms` | src/net/transport.rs:98-102 | such a run: one hello of a newer connection, and the agent ends unregistered with that connection in service and its receiver there |
| `CustodyRegistry.WholeTeardownSpares` | src/net/transport.rs:96-111 | a hello on either side of a whole teardown stays registered |
| `CustodyRegistry.NoMisdelivery` | src/net/transport.rs:176-188 | whatever is handed over for an agent went into a channel of one of its own connections |
| `CustodyRegistry.DropsExactly` | src/net/transport.rs:180-186 | in every reachable state a step drops a message exactly when a sender that ignores failures has one for an agent and the channel it found, now or when it looked the agent up, has lost its receiver |
| `CustodyRegistry.SplitHelloReorders` | src/net/transport.rs:137-139 | a push between registering and draining inverts the order for good, whatever happens afterwards |
| `CustodyRegistry.SplitDrainReorders` | src/queue.rs:46-56 | so does a push between two sends of the drain loop |
| `CustodyRegistry.SplitHelloBreaksFifo` | src/net/transport.rs:137-139 | the smallest run that shows it, with reliable senders and a steady clock |
| `CustodyRaces.UndisturbedUnlessInterrupted` | src/daemon.rs:566-583 | no sender acts on an outdated look-up unless the agent says hello, is unregistered or is torn down while a send to it is under way |
| `CustodyRaces.FifoUnlessInterrupted` | src/daemon.rs:566-583 | order over every run with whole hellos and sends taken apart in which that does not happen |
| `CustodyRaces.LateEnqueueFollowsHello` | src/daemon.rs:578-583 | a sender that enqueues for an agent with a live channel looked it up before the hello that made it live |
| `CustodyRaces.LatePushFollowsMove` | src/daemon.rs:567-570 | a sender that pushes into a channel that is not the registered one looked it up before the registration moved |
| `CustodyRaces.SplitSendBreaksFifo` | src/daemon.rs:566-583 | a whole hello between look-up and enqueueing, then a push: order is lost with no hello split |
| `CustodyRaces.LatePushBreaksFifo` | src/net/transport.rs:180-186 | an unregistration between look-up and push, and a message queued meanwhile: order is lost too |
| `Agents.AgentRegistry.Register` | src/agent.rs:32-34 | the agent's entry is replaced, no other is touched |
| `Agents.AgentRegistry.Unregister` | src/agent.rs:36-38 | the entry is removed and returned |
| `Agents.AgentRegistry.Get` | src/agent.rs:40-42 | the entry, if there is one |
| `Agents.AgentRegistry.Heartbeat` | src/agent.rs:44-48 | only the time of a registered agent's last heartbeat changes |
| `Agents.AgentRegistry.StaleAgents` | src/agent.rs:62-72 | for a limit that is not negative, exactly the agents whose last heartbeat is at least the limit and a second ago, each once |
| `Transport.NamespaceReaches` | src/net/transport.rs:176-179 | a destination at or below `/net/<id>` reaches exactly the agent `<id>` |
| `Transport.TargetExactly` | src/net/transport.rs:176-179 | a destination reaches an agent if and only if it is `/net/<id>` or below it for an id without slash, and reaches nobody if and only if it is outside of `/net/` |
| `Transport.TransportState.Connect` | src/net/transport.rs:33-51 | an accepted websocket is a fresh connection of its agent with an open, empty channel |
| `Transport.TransportState.ReceiverGone` | src/net/transport.rs:38-51 | the end of the forwarding task is the step that closes the channel |
| `Transport.TransportState.Hello` | src/net/transport.rs:126-141 | the agent's entry names its namespace, this channel and the time, and the front of its queue moves into the channel: registering and draining are the hello step of the protocol with that many messages sent |
| `Transport.TransportState.Teardown` | src/net/transport.rs:96-111 | the end of a receive loop is the teardown step: the agent's entry goes exactly if it names this channel |
| `Transport.TransportState.Heartbeat` | src/net/transport.rs:142-144 | a heartbeat moves only the agent's timestamp and keeps the live state equal to the abstract one |
| `Transport.TransportState.UnregisterAgent` | src/api.rs:120-120 | the unregistration step; the unmount that follows it is `UnmountAgentNs` |
| `Transport.TransportState.CleanupStale` | src/daemon.rs:342-348 | exactly the agents found stale are unregistered, one step each, and those with a heartbeat within the limit and a second stay |
| `Transport.TransportState.DeliverHttp` | src/daemon.rs:560-586 | a routed `/msg` goes into the channel of the agent named, if it is registered and its receiver is there, or else into its queue, and nothing else moves; outside of `/net/` nothing moves at all; it is the protocol's send step |
| `Transport.TransportState.DeliverGrpc` | src/daemon.rs:709-733 | the same for gRPC, where whatever was not sent is queued, also for an agent without channel |
| `Transport.TransportState.DeliverWebsocket` | src/net/transport.rs:145-189 | the same for a message of an agent, which is queued only if the agent named is not registered, and bears its sender's name and namespace whatever it came with |
| `Transport.TransportState.DeliverApi` | src/api.rs:316-334 | the same for the REST API, without signing |
| `Transport.TransportState.PruneQueue` | src/queue.rs:73-93 | pruning is the protocol's prune step |
| `Transport.TransportState.LiveAgentsWait` | src/net/transport.rs:126-141 | on the live objects, after any sequence of whole operations: a registered agent has a channel, and if its receiver is there nothing is queued for the agent |
| `Transport.TransportState.KeptInOrder` | src/net/transport.rs:126-141 | on the live queue, if the time of day never went back: what left for an agent followed by its queue is what was kept, in order |
| `Transport.TransportState.DeliveredInOrder` | src/daemon.rs:560-586 | on the live queue, with senders that queue what they cannot push and no pruning: what senders had for an agent is what was handed over followed by its queue, in order |
| `Transport.TransportState.SentInOrder` | src/daemon.rs:560-586 | on the live queue and channel: for an agent with one connection, it is what the channel was sent followed by the queue |
| `Handlers.OnWebsocket` | src/net/transport.rs:145-190 | a message of an agent, with its sender and sender namespace overwritten, goes to one of the plumber's destinations (the first, or whichever the quantum router draws), and is delivered there |
| `Handlers.OnGrpc` | src/daemon.rs:700-733 | the same for gRPC, unsigned, with its own way of delivering |
| `Handlers.OnMsg` | src/daemon.rs:558-586 | a `/msg` is delivered where a run of the pipeline's stages sends it, and nowhere if nothing is selected |
| `Handlers.OnApi` | src/api.rs:314-334 | the same for the REST API, which ignores a failure to push |
| `Paths.NormalizePath` | src/fs/registry.rs:168-185 | the loop over a stack computes the normal form defined by recursion over the components |
| `PathLaws.NormalFormExactly` | src/fs/registry.rs:168-185 | a function is normalization if and only if it ignores whitespace around a path, a missing first slash and a trailing one, drops empty components and dots, lets `..` take back the component before it or nothing at the root, and keeps all other components as they are |
| `PathLaws.UpAndDown` | src/fs/registry.rs:168-198 | from a normal form `..` leads to the parent, `.` nowhere, and a name followed by `..` back |
| `Paths.SpacesAre` | src/fs/registry.rs:169-169 | the twenty-five characters that are trimmed |
| `Paths.PartsClean` | src/fs/registry.rs:173-183 | no component of a normal form is empty, `.` or `..`, or contains a slash |
| `Paths.RenderInjective` | src/fs/registry.rs:184-184 | different component lists have different normal forms |
| `PathLaws.NormalizeTwice` | src/fs/registry.rs:168-185 | normalizing again changes nothing if and only if the last surviving component does not end in whitespace |
| `PathLaws.NormalizeTwiceFails` | src/fs/registry.rs:168-185 | `/a /` becomes `/a `, which becomes `/a` |
| `PathLaws.NormalizePrefix` | src/fs/registry.rs:168-185 | a prefix may be normalized first, whatever follows it, if and only if trimming it takes nothing off its end: it does not end in whitespace, or there is nothing else in it |
| `PathLaws.ParentDropsLast` | src/fs/registry.rs:187-198 | the parent is the normal form without its last component; the root has none |
| `PathLaws.ChildAddsOne` | src/fs/registry.rs:200-213 | a child name is found exactly when the full path has one component more than the parent, and is that component |
| `PathLaws.ParentsAndChildren` | src/fs/registry.rs:187-213 | on canonical paths `k` is a child of `p` exactly when `p` is the parent of `k`, under the name `k` is linked by |
| `PathLaws.ParentAndNameRebuild` | src/fs/registry.rs:187-213 | parent and name rebuild a canonical path |
| `Vfs.VfsRegistry.constructor` | src/fs/registry.rs:12-36 | a new registry is the result of making the core directories and adding the control files, in order |
| `VfsMount.SeededHolds` | src/fs/registry.rs:12-36 | a new registry holds exactly the six core directories and three files, with their names and contents |
| `Vfs.VfsRegistry.LinkChild` | src/fs/registry.rs:94-106 | the last segment of the child joins the parent's children once, if the parent is a directory |
| `Vfs.VfsRegistry.UnlinkChild` | src/fs/registry.rs:108-117 | that segment leaves the parent's children, and nothing else changes |
| `Vfs.VfsRegistry.Mkdir` | src/fs/registry.rs:38-45 | an empty directory replaces whatever was at the normal form, and is linked into its parent |
| `Vfs.VfsRegistry.AddNode` | src/fs/registry.rs:47-53 | the same for a given node |
| `Vfs.VfsRegistry.Get` | src/fs/registry.rs:55-57 | the node at the normal form, if there is one |
| `Vfs.VfsRegistry.Remove` | src/fs/registry.rs:59-68 | the node is returned, and gone from the map and from its parent's children; a missing path changes nothing |
| `Vfs.VfsRegistry.List` | src/fs/registry.rs:74-92 | strictly ascending, and exactly the direct children that a scan finds; nothing for what is not a directory |
| `Strings.PrecedesExactly` | src/fs/registry.rs:86-87 | the order of a listing: one string comes before another if and only if, where they first differ, it ends or has the smaller character |
| `Vfs.VfsRegistry.MountAgentNs` | src/fs/registry.rs:119-144 | the eight operations of a mount, in order |
| `VfsMount.MountHolds` | src/fs/registry.rs:119-144 | whatever was there, a mount leaves exactly three directories and five files with their contents in addition, at the paths to which the id leads |
| `VfsMount.MountCaches` | src/fs/registry.rs:119-144 | and the three directories cache what was put into them, each name once |
| `Vfs.VfsRegistry.UnmountAgentNs` | src/fs/registry.rs:146-165 | whatever order the keys come in, exactly the keys at or below the base are gone, and their names from the directories that remain |
| `Vfs.CutAgain` | src/fs/registry.rs:158-164 | removing keys one by one, in any order, is removing them all at once |
| `VfsAgreement.AddKeepsAgreement` | src/fs/registry.rs:47-53 | adding a node keeps cached and scanned listings equal if and only if it is no directory or caches what lives below it |
| `VfsAgreement.MkdirKeepsAgreement` | src/fs/registry.rs:38-45 | making a directory keeps them equal if and only if nothing lives directly below it |
| `VfsAgreement.CutKeeps` | src/fs/registry.rs:59-68 | removing any set of keys, by `remove` or by unmounting, keeps every remaining listing as true as it was |
| `VfsAgreement.ListingsAgree` | src/fs/registry.rs:38-117 | over every run of `mkdir`, `add_node` of non-directories and `remove` on steady paths, every directory caches without repetition exactly what a scan finds, at every point, if and only if no directory is ever made over live children |
| `VfsExact.AddAgreesExactly` | src/fs/registry.rs:38-53 | for every agreeing registry, key and node: it still agrees if and only if the added node does itself and no other directory gains a name in its cache that it does not gain in a scan, or the reverse |
| `VfsExact.RemoveAgreesExactly` | src/fs/registry.rs:59-68 | the same for what directories lose with a key |
| `VfsExact.ListingsAgreeExactly` | src/fs/registry.rs:38-117 | over every run, whatever the paths and nodes, the listings agree at every point if and only if every operation meets its condition |
| `VfsExact.ListingsCoveredExactly` | src/fs/registry.rs:38-117 | over every run, whatever the paths and nodes, no directory ever caches a name twice or one that a scan does not find if and only if every operation meets its condition |
| `VfsExact.AddAgreesSteady` | src/fs/registry.rs:38-53 | while all keys are steady, an operation on any path keeps agreement if and only if the node agrees and the parent, when it is a directory, caches the key under the name a scan finds |
| `VfsExact.FirstUnsteady` | src/fs/registry.rs:38-68 | so agreement lasts up to and including the first unsteady operation if and only if no directory was made over live children and that operation does no harm |
| `VfsExact.SeededUnsteady` | src/fs/registry.rs:38-45 | in a new registry, `mkdir("/net/a /")` is cached as `a ` and scanned as `a` |
| `VfsAgreement.ListingsCovered` | src/fs/registry.rs:38-117 | without that restriction the cached children are still without repetition and among those a scan finds |
| `VfsAgreement.UnsteadyDisagrees` | src/fs/registry.rs:38-45 | a concrete run with a path ending in whitespace after which the cache says `a ` and the scan says `a` |
| `VfsMount.UnmountForgets` | src/fs/registry.rs:146-165 | after any run of operations at or below a base, unmounting gives the registry it would have given before them |
| `VfsMount.UnmountIsOutside` | src/fs/registry.rs:146-165 | unmounting leaves every key not at or below the base, and every cached list but the parent's, untouched |
| `VfsMount.MountThenUnmount` | src/fs/registry.rs:119-165 | for every agent id with nothing at or below `/net/<id>`: unmounting after mounting restores nodes and cached children exactly if and only if `/net/<id>` is its own normal form, or only ends in whitespace and has an empty directory, cached by its parent, at its normal form already; where it has an empty, `.` or `..` component, if and only if mounting changed nothing |
| `VfsMount.StrayBase` | src/fs/registry.rs:119-165 | for an id that ends in whitespace, mounting where nothing is and unmounting leaves the registry with an empty directory put at the normal form, and otherwise as it was |
| `VfsMount.UnmountMisses` | src/fs/registry.rs:146-165 | for an id with an empty, `.` or `..` component unmounting removes nothing from any registry keyed by normal forms |
| `VfsMount.MountAgrees` | src/fs/registry.rs:119-144 | mounting over whatever is there makes every listing true if and only if only the names of a mount were found below its three directories, wherever the id's dots lead; for an id ending in whitespace the directory made for the base must have had no children |
| `VfsMount.SeededAgrees` | src/fs/registry.rs:12-36 | a new registry is canonical and lists every directory truly |
| `Circuit.CircuitBreaker.Allow` | src/circuit.rs:56-84 | an endpoint never seen is closed and gets its call, as does any closed one; an open one gets it, as the first of an episode, exactly from a full timeout after its last failure; a half-open one while its episode has calls left; no other entry changes |
| `Circuit.CircuitBreaker.RecordSuccess` | src/circuit.rs:87-102 | closes a half-open endpoint, clears a closed one, ignores an open one, and leaves no entry for one never seen |
| `Circuit.CircuitBreaker.RecordFailure` | src/circuit.rs:105-124 | counts the failure, also for an endpoint never seen, and opens at the threshold, or at once when half-open |
| `Circuit.CircuitBreaker.GetState` | src/circuit.rs:126-131 | the state of the endpoint's entry; one never seen is closed |
| `Circuit.ProbeRateBound` | src/circuit.rs:56-124 | after a failure that leaves an endpoint open, any run until `t1` that never closes it lets through at most `max(1, half_open_max_calls)` calls per whole recovery timeout |
| `Circuit.ProbesWithinBudget` | src/circuit.rs:56-124 | the same from any open or half-open state, less the probes already used |
| `Circuit.EpisodesPass` | src/circuit.rs:56-84 | the bound is met: a client that asks as soon as it may gets every one of those calls |
| `Circuit.StateFollowsHistory` | src/circuit.rs:56-124 | over every run, state and counters are a function of the failures since the last success that took effect and of the calls asked for since the last failure |
| `Circuit.EndpointsIsolated` | src/circuit.rs:56-124 | an interleaved run over many endpoints, seen at one, is the run of its own events |
| `Circuit.FreshRun` | src/circuit.rs:56-131 | over every interleaved run of a new breaker, an endpoint has an entry exactly from its first call or failure on, whose state and failures are read off its own history; before that it is closed and gets its call |
| `RateLimit.RateLimiter.constructor` | src/ratelimit.rs:27-33 | both limits are at least one |
| `RateLimit.RateLimiter.Check` | src/ratelimit.rs:35-62 | a first check finds a full bucket and takes a token; any other is granted while there is a token after adding what the time since the last refill has earned, up to the maximum; no other bucket changes |
| `RateLimit.Config.RefillBounds` | src/ratelimit.rs:48-50 | the refill is the floor of `elapsed*max/window`, and when positive worth more than half of the elapsed time |
| `RateLimit.SlidingWindowBound` | src/ratelimit.rs:35-62 | between any two checks of any schedule, `admitted*window <= max*(window + elapsed)` |
| `RateLimit.PotentialBound` | src/ratelimit.rs:35-62 | from any bucket, admissions are paid for by the tokens at hand and the time since the last refill |
| `RateLimit.SimulatedByIdeal` | src/ratelimit.rs:35-62 | every schedule is admitted by a continuously refilled bucket of capacity `max` |
| `RateLimit.BurstsAdmitted` | src/ratelimit.rs:47-61 | a full burst at the start of every window is always admitted, so the bound cannot be lowered |
| `RateLimit.NoStarvation` | src/ratelimit.rs:47-61 | if all checks of a stretch are denied, it is shorter than one token's worth of time, however often the key polls |
| `RateLimit.HalfRate` | src/ratelimit.rs:48-54 | over uncapped refills the tokens credited are all accounted for and worth more than half of the time covered |
| `RateLimit.KeysIsolated` | src/ratelimit.rs:39-45 | every key is decided as if it had the limiter to itself |
| `RateLimit.FreshKey` | src/ratelimit.rs:39-45 | over every run of a new limiter, a key is decided as one full bucket from its own first request on, which is granted |
| `RateLimit.LimiterBound` | src/ratelimit.rs:35-62 | so over every run of requests in time order, any keys interleaved, between any two requests of a key `admitted*window <= max*(window + elapsed)` |
| `Plumber.RankedSorts` | src/plumber.rs:45-45 | the sort is descending and keeps the order within every priority |
| `Plumber.SortUnique` | src/plumber.rs:45-45 | there is only one such sort |
| `Plumber.SortAgain` | src/plumber.rs:37-45 | sorting after every push gives the stable sort of the whole insertion sequence |
| `Plumber.KeepRanked` | src/plumber.rs:49-57 | filtering commutes with sorting |
| `Plumber.NonMatchingIgnored` | src/plumber.rs:49-65 | a rule that does not match never changes a route, wherever it was added |
| `Plumber.FirstRanked` | src/plumber.rs:45-45 | the first rule has the highest priority and was added before its peers |
| `Plumber.Plumber.AddRule` | src/plumber.rs:27-47 | a pattern that does not compile is refused and changes nothing; otherwise the list stays the stable sort of all insertions |
| `Plumber.Plumber.LoadFromConfig` | src/plumber.rs:90-101 | the rules before the first pattern that does not compile are added, in their order, and that pattern ends the load |
| `Plumber.Plumber.Route` | src/plumber.rs:49-88 | the destinations of the rules whose pattern is found in the message's text and whose headers the message has, one for each, by descending priority and then in the order they were added; `/proc/log` alone if there is none |
| `Plumber.MatchesExactly` | src/plumber.rs:67-88 | a rule matches if and only if its pattern is found in `type:.. sender:.. path:.. data:..` and its header pairs are among the message's |
| `Routing.SieveRejects` | src/router.rs:227-242 | a candidate is rejected if and only if some occurrence of it is denied by the breaker or seen offline |
| `Routing.SieveKeeps` | src/router.rs:227-242 | what the breaker stage keeps are the occurrences that pass, each once and in order, and all others are rejected |
| `Routing.SieveRemaining` | src/router.rs:227-242 | what remains after the breaker stage is what remains of everything produced |
| `Routing.McpTargetExactly` | src/router.rs:99-108 | a message goes to an MCP endpoint if and only if it is a tool call for a tool, or for `unknown` if it names none, that the endpoint serves |
| `Routing.SieveByRoom` | src/router.rs:227-242 | a candidate comes through if and only if it is not offline and the breaker has room for as many calls as it occurs, as of its first occurrence |
| `Routing.RepeatsWedge` | src/router.rs:227-242 | a recovering endpoint produced more often than it has probes is rejected, and nothing passes for it afterwards until an outcome is recorded |
| `Routing.FirstRemaining` | src/router.rs:188-197 | the first destination that remains is that of the eligible rule with the highest priority, the first added among equals |
| `Router.RoutingPipeline.constructor` | src/router.rs:258-282 | the default stages, with breaker and quantum stages where configured |
| `Router.RoutingPipeline.ApplyCircuit` | src/router.rs:224-254 | the retain loop asks the breaker once per occurrence, in order, and splits the candidates into kept and rejected |
| `Router.RoutingPipeline.ApplyQuantum` | src/router.rs:151-183 | selects one of the candidates that remain, if any, and only then is final |
| `Router.RoutingPipeline.ApplyFallback` | src/router.rs:188-206 | selects the first of the candidates that remain, if any |
| `Router.RoutingPipeline.Route` | src/router.rs:69-80 | a route is the run of the stages up to the first that is final, on context, breaker and learned state |
| `Router.McpFires` | src/router.rs:99-115 | an MCP tool call that somebody serves goes to that endpoint and touches nothing else |
| `Router.ToolCallIsServed` | src/router.rs:99-115 | a call for a tool in the index selects its endpoint, whatever the plumber would make of it |
| `Router.SelectsAvailable` | src/router.rs:69-80 | otherwise the selection is an available destination, and there is none if and only if none is available; without the quantum stage it is the first available one; the candidates reported are those the breaker stage kept |
| `Router.AvailableExactly` | src/router.rs:224-254 | a destination is available if and only if the plumber produced it and every occurrence passed the breaker and was not seen offline |
| `Router.AvailableByRoom` | src/router.rs:224-254 | the same in terms of the breaker's state before the route |
| `Router.AvailableUnseen` | src/router.rs:224-254 | a destination that neither breaker nor probes have heard of is available however often it is produced |
| `Router.AvailableWithoutBreaker` | src/router.rs:258-282 | with no breaker everything produced is available, so something always is |
| `Router.QuantumAgreesWithFallback` | src/router.rs:150-206 | the pipelines with and without the quantum stage find a destination in the same situations, among the same available ones, with the same effect on the breaker |
| `Router.FallbackPicks` | src/router.rs:188-197 | without the quantum stage the eligible rule with the highest priority wins, the first added among equals |
| `Distribution.NormalizedIsDistribution` | src/quantum/router.rs:86-91 | normalizing gives a distribution, or only zeros from only zeros, with the same possible endpoints |
| `Distribution.BoostOnce` | src/quantum/router.rs:86-104 | normalizing before a boost makes no difference to the boosted distribution |
| `Distribution.Normalize` | src/quantum/state.rs:148-153 | the loop in place computes the normalized weights |
| `QuantumState.RotatedProbability` | src/quantum/state.rs:105-117 | after an update and before decoherence the probability is exactly the average reward |
| `QuantumState.HalfRewardKeepsPhase` | src/quantum/state.rs:109-117 | a reward of one half does not turn the amplitude |
| `QuantumState.DecayConvex` | src/quantum/state.rs:132-138 | decoherence moves the probability no further than the mixture with the uniform one |
| `QuantumState.DiskKeptExactly` | src/quantum/state.rs:132-138 | decoherence keeps every amplitude in the unit disk if and only if its rate is between zero and one |
| `QuantumState.UnitDisk` | src/quantum/state.rs:92-139 | over every run of rewards in [0,1], `0 <= total_reward <= pulls` and a squared magnitude of at most 1 for all endpoints |
| `QuantumState.Decoherence` | src/quantum/state.rs:123-139 | an endpoint not updated over `k` updates of a fixed set obeys the closed form `(1-rate)^k` toward the uniform amplitude, whatever the order |
| `QuantumState.Tally` | src/quantum/state.rs:92-103 | pulls and total reward count and add up exactly the endpoint's own observations |
| `QuantumState.NormalizeAll` | src/quantum/state.rs:33-42 | all amplitudes are scaled alike to a total probability of one, or left alone when it is zero |
| `QuantumState.ConversationState.GetOrInsert` | src/quantum/state.rs:85-90 | a look-up creates an unseen endpoint at amplitude one without pulls, and changes no other |
| `QuantumState.ConversationState.Update` | src/quantum/state.rs:92-121 | the endpoint's tally and amplitude, then decoherence of all |
| `QuantumState.RotatedExactly` | src/quantum/state.rs:101-116 | one pull and its reward more; the magnitude is the root of the average reward cut to [0,1], and the phase turns by a tenth of pi for every unit of reward above one half |
| `QuantumState.UpdatedExactly` | src/quantum/state.rs:92-121 | an update rotates the endpoint, which starts at amplitude one if it is new, and then decays all |
| `QuantumState.ConversationState.ApplyDecoherence` | src/quantum/state.rs:123-139 | the loop, in any order, decays every amplitude once toward the uniform one |
| `QuantumState.ConversationState.ComputeDistribution` | src/quantum/state.rs:141-156 | every endpoint once, not negative, in proportion to the probabilities, adding up to one unless all are zero |
| `QuantumState.DistributesExactly` | src/quantum/state.rs:141-156 | the weights stand to each other as the squared magnitudes of the amplitudes |
| `QuantumState.QuantumStateManager.GetOrCreate` | src/quantum/state.rs:172-177 | an unknown conversation starts empty; the others keep their state, which none of them shares |
| `QuantumState.QuantumStateManager.Update` | src/quantum/state.rs:183-192 | only that conversation learns |
| `QuantumState.QuantumStateManager.PruneOld` | src/quantum/state.rs:194-205 | for a limit that is not negative, exactly the conversations idle for at least the limit and a second are forgotten |
| `Entanglement.KeyIsPair` | src/quantum/entanglement.rs:86-92 | a key stands for a pair in either order and for no other pair |
| `Entanglement.RecordEffect` | src/quantum/entanglement.rs:29-43 | a recorded pair's correlation becomes nine tenths of itself and a tenth of the reward, and no other changes |
| `Entanglement.RecordedActive` | src/quantum/entanglement.rs:36-38 | recording is activity of that conversation, and leaves all others as they are |
| `Entanglement.CorrelationIsAverage` | src/quantum/entanglement.rs:29-59 | over every run a correlation is the moving average of its own pair's rewards, and symmetric |
| `Entanglement.FreshCorrelation` | src/quantum/entanglement.rs:40-59 | in a new table a correlation starts from zero, and is zero for a pair never recorded |
| `Entanglement.CorrelationsBounded` | src/quantum/entanglement.rs:29-43 | rewards in [0,1] keep every correlation in [0,1] |
| `Entanglement.SmoothedSteady` | src/quantum/entanglement.rs:41-42 | a steady reward is approached with factor 0.9 per recording |
| `Entanglement.EntangledIsDistribution` | src/quantum/entanglement.rs:62-84 | boosting keeps a distribution a distribution over the same endpoints |
| `Entanglement.EntanglementTable.RecordPair` | src/quantum/entanglement.rs:29-43 | the conversation's table after one recording |
| `Entanglement.EntanglementTable.ApplyEntanglement` | src/quantum/entanglement.rs:62-84 | the loops in place compute the boosted and normalized weights; without a previous endpoint nothing changes |
| `Entanglement.EntanglementTable.PruneOld` | src/quantum/entanglement.rs:94-105 | for a limit that is not negative, exactly the conversations idle for at least the limit and a second are forgotten |
| `QuantumRouter.RewardRange` | src/quantum/router.rs:138-144 | a success earns one less three tenths of its latency in units of five seconds, and 0.7 from five seconds on; a failure nothing; so rewards lie in [0,1] and a slower answer never earns more |
| `QuantumRouter.LearnsExactly` | src/quantum/router.rs:131-178 | an outcome updates that endpoint of that conversation with its reward, and feedback with its quality cut to [0,1]; nothing else is touched |
| `QuantumRouter.RoutesExactly` | src/quantum/router.rs:64-128 | a route puts candidates not seen before into the conversation, at amplitude one, remembers the selection, and changes nothing else |
| `QuantumRouter.TicksExactly` | src/quantum/router.rs:202-208 | maintenance forgets conversations idle for an hour, correlations idle for twice the window, and last endpoints of conversations that are gone |
| `QuantumRouter.AlwaysSane` | src/quantum/router.rs:64-209 | for rates in [0,1], every run of routes, outcomes, feedback of any quality, pairs recorded with rewards in [0,1] and maintenance keeps all conversations in the unit disk, all correlations in [0,1], and last endpoints only for conversations that exist |
| `QuantumRouter.WeightsDistribute` | src/quantum/router.rs:71-104 | the weights of a route are not negative and add up to one, or are all zero, which takes every candidate to have been pulled and to have lost all probability |
| `QuantumRouter.WeightsOnce` | src/quantum/router.rs:85-104 | the final weights are the boosted priors, normalized once |
| `QuantumRouter.WeightsInProportion` | src/quantum/router.rs:71-104 | the weights stand to each other as the candidates' shares: an equal one until the first pull or else the probability, times one plus a fifth of the correlation with the last endpoint |
| `QuantumRouter.PriorOf` | src/quantum/router.rs:72-84 | looking other candidates up first does not change a candidate's weight |
| `QuantumRouter.QuantumRouter.Choose` | src/quantum/router.rs:64-128 | the selection is a candidate, of positive weight unless exploring or all are zero, and is remembered as the conversation's last; no candidates, no selection and no change |
| `QuantumRouter.QuantumRouter.Observed` | src/quantum/router.rs:131-151 | the reward of an outcome updates that endpoint of that conversation |
| `QuantumRouter.QuantumRouter.GiveFeedback` | src/quantum/router.rs:170-178 | so does feedback, clamped to [0,1] |
| `QuantumRouter.QuantumRouter.Pair` | src/quantum/entanglement.rs:29-43 | recording a pair changes the correlations of that conversation and nothing else the router remembers |
| `QuantumRouter.QuantumRouter.Maintain` | src/quantum/router.rs:202-208 | idle conversations and correlations are forgotten, and last endpoints of conversations that are gone |
| `Probe.HealthIsStreak` | src/ai/probe.rs:66-99 | over every history from registration: healthy without a failing streak, degraded below three failures, offline from the third on and since then; the time, the latency and the error are those of the last reading |
| `Probe.StaleIsOverdue` | src/ai/probe.rs:104-115 | an endpoint is pruned if and only if the third failure of its running streak is more whole seconds ago than the limit |
| `Probe.OverdueExactly` | src/ai/probe.rs:104-115 | in nanoseconds: the third failure of the streak is at least the limit and a second ago |
| `Probe.NoRecentSuccess` | src/ai/probe.rs:104-115 | so none is pruned that answered well within the limit |
| `Probe.HealthRefinesHistory` | src/ai/probe.rs:42-123 | over every interleaving of registrations, removals, probes and prunes of many endpoints, the healths kept are those of the full histories |
| `Probe.ProbeEngine.Probe` | src/ai/probe.rs:61-99 | one probe's effect on one endpoint, or none if it went away meanwhile |
| `Probe.ProbeEngine.ProbeAll` | src/ai/probe.rs:42-101 | every endpoint is probed once, in any order, and keeps its address |
| `Probe.ProbeEngine.PruneOffline` | src/ai/probe.rs:104-123 | for a limit that is not negative, exactly the offline endpoints that went offline (or, if that is not known, were checked) at least the limit and a second ago are removed, and their number is returned |

## Left out

- HTTP and WebSocket plumbing, CORS, TLS, telemetry, metrics, command line and configuration loading: no state of their own worth a theorem.
- SQLite persistence, JSON and msgpack codecs: their behaviour rests on libraries that are not part of this model.
- Upstream proxying, MCP calls, port scanning and Docker discovery: network clients; endpoints they register enter through `Probe.Register`.
- Regex matching and the rendering of JSON data: unconstrained functions; a message carries its data already rendered.
- Randomness: a draw is any candidate, or any of positive weight; nothing is said about frequencies, and `min_samples_before_exploit` is not read by the program either.
- Floating point: refills are exact integer quotients and learning is over the reals, so rounding, overflow and NaN are not captured; counters of 32 and 64 bits are natural numbers.
- Concurrency: every operation on one map entry is atomic, and `try_write` always succeeds; hellos, drains, sends, teardowns and prunings are interleaved operation by operation, but the final check of a drain that its queue is empty belongs to its last send (`Queue.SplitDrainLosesNothing`). A routing pipeline runs without other users of the breaker in between, and operations on the filesystem one after the other.
- Transport.TransportState.Hello, Transport.TransportState.Teardown, Transport.TransportState.PruneQueue, Transport.TransportState.SendHttp, Transport.TransportState.SendGrpc and Transport.TransportState.SendWebsocket: are single steps on the live objects; the runs in which others come between their pieces are those of `Custody`, on values. That the program's hellos and sends are not interrupted is an assumption of the rows on order, which name it, and that nothing is interrupted is one of the rows on the live objects.
- The guard that a drain holds on its queue is not assumed, so the runs of `Custody` include some in which a message is enqueued between two sends of a drain loop.
- Agents registered without a channel: no caller makes one, so `/msg` for such an agent, which would be dropped, is in the protocol's `Deliver` but not reachable.
- Directory nodes are values: the sharing of one directory's children between clones of a node, and asynchronous reads and writes of nodes, are not modelled.
- Explanations of routing decisions, event builders, diagnostics and state accessors: they would add only easy members.
- `NamespaceManager` and bearer-token comparison: they would add only easy members.
- `record_pair` is modelled although nothing in the program calls it, so that correlations other than zero are covered.
- VfsAgreement.ListingsAgree: is stated for steady paths and nodes that are not directories; `VfsExact.ListingsAgreeExactly` is for all.
- VfsAgreement.ListingsCovered: is stated for the same runs; `VfsExact.ListingsCoveredExactly` is for all.
- VfsMount.MountAgrees: leaves out ids with so many `..` that the mount lands at the root, and ids such as `a / ` whose base has no steady normal form; `VfsExact.ListingsAgreeExactly` covers their operations one by one.
- Router.FallbackPicks: is stated for messages that some rule matches; otherwise `/proc/log` is the only destination, which `SelectsAvailable` covers.
