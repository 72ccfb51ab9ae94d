# Spines daemon: verified models of its routing and link cores

A Dafny model of the parts of the Spines overlay daemon that carry unbounded properties, and proofs
of those properties. `dafny verify dfyconfig.toml` checks everything.

- **K node-disjoint paths** (`daemon/multipath.c`): successive shortest augmenting paths by
  Bellman-Ford on a split-node, unit-capacity residual network (`FlowNetwork`, `BellmanFord`,
  `Augmentation`, `DisjointPaths`, `PathFamilies`, `Optimality`), the daemon's own loops, bitmask
  and cache on mutable state (`Bitmask`, `MultiPath`, `PathService`), and a network on which the
  flow found is more than its paths (`FreeCycles`).
- **Dissemination graphs** (`daemon/dissem_graphs.c`): the incremental selector (`Selector`), the
  problem graphs by Dijkstra and reversal, and their masks (`ShortestPaths`, `ProblemGraphs`).
- **The intrusion-tolerant link** (`daemon/intrusion_tol_udp.c`, packet counting in
  `daemon/protocol.c`): fragments (`Fragments`), one end on unbounded sequences (`LinkSpec`), its
  window as whole messages (`LinkMessages`), two ends over a network that loses, repeats and
  reorders (`LinkProtocol`), that no run of them is stuck (`LinkProgress`), and the 500-slot rings
  that refine an end (`LinkRing`).
- **Priority flooding** (`daemon/priority_flood.c`): source queues with redundant counters
  (`PriorityQueues`), the two fair queues (`PriorityLinks`) and whose turn they make it
  (`PriorityFair`, over runs `PriorityTurns`), message table against queues (`PrioritySched`),
  clean-up and the send-one loop (`PriorityServing`), acceptance, garbage collection and whole runs
  (`PriorityFlood`).
- **The realtime and reliable links** (`daemon/realtime_udp.c`, `daemon/reliable_datagram.c`):
  `RealtimeLink` and `ReliableLink`.

Integers are unbounded unless a width matters: 16-bit labels and costs of the path computation, the
16-bit penalty of the fair queue and the 64-bit nonces are modelled as such. Randomness, the clock,
the congestion window and calls into other layers are parameters over which everything is
quantified. Nodes are numbered from 0.

## Findings

- **A cycle of links that cost nothing can stay in the bag.** The edges left with flow are exactly
  the path found for k = 1, and for any k the paths found if no cycle of unbroken links of cost 0
  avoids both endpoints (`Optimality.PathsFoundAreOptimal`). What each pass keeps (a sound flow with
  a potential) guarantees this under no weaker condition (`Optimality.OnlyPathsIff`), and there is a
  configuration of six nodes, laid out as the daemon does it, on which two paths leave such a cycle
  (`FreeCycles.LoopAtStartUp`). The paths are there and of least cost all the same.
- **A copy from outside the mask makes the daemon exit.** The duplicate branch of
  `Priority_Flood_Disseminate` has no case for the status "not in mask". The exit is taken exactly
  under `PriorityFlood.OffMask`, and `PriorityFlood.OffMaskRun` reaches it with two honest
  neighbours when an edge is in the mask in one direction only.
- **A refusing link makes the send loop spin until expiry.** While `Request_Resources` answers 1, as it
  always does for UDP, reliable and realtime links, the loop of a new message goes on after a
  refusal. On a link that takes nothing it is over exactly once the clock, read at every turn, has
  passed the expiry of everything queued (`PriorityFlood.SendAnswered`); a clock that runs on always
  gets there (`PriorityFlood.RunningClockExpires`). `PriorityFlood.RefusingRun` shows both sides.
- **An ack may leave packets behind.** `Process_IT_Ack` sends what the congestion window allows and
  packs more of the message under way only afterwards. If one ack covers a full window while a
  message is being packed, the packets then packed are not sent, nothing is outstanding that could
  be acked, and the reliable timeout has nothing to resend: the link stands still until the next
  message. This happens exactly then (`LinkProgress.StallsExactly`), and
  `LinkProgress.StallHappens` gives a run with any message. The next message always gets the link
  going again (`LinkProgress.EveryRunCanFinish`).
- **A turn that comes for nothing costs 65536 turns.** A source enters the urgent queue with its first
  message. If that message is gone when the turn comes, because a copy of it was heard or it was
  dropped, the source moves to the normal queue with a penalty of 0, which the next look decrements
  to 65535. A look fails to bring a source closer to its turn exactly in this case
  (`PriorityFair.EmptyUrgentTurn`, reached in `PriorityFlood.EmptyTurnArises`).
- **The cost -32768 is not a cost.** Its absolute value does not fit the 16-bit variable it is stored
  in (`MultiPath.OnlyLeastWraps`).

## Model

| member | source | states |
|---|---|---|
| `BellmanFord.RoundsSettle` | daemon/multipath.c:395-438 | with a potential, every sweep settles at least one more node, although unreached labels take part in relaxation |
| `BellmanFord.Converges` | daemon/multipath.c:395-443 | the last permitted sweep changes nothing, so the "Negative Cycle Found" exit is not taken; labels are relaxed and bounded |
| `BellmanFord.RoundsTraced` | daemon/multipath.c:427-434 | predecessor edges carry time stamps that exclude cycles |
| `Augmentation.FinalExact` | daemon/multipath.c:427-434 | at the end each predecessor edge is free, tight and older than its node |
| `Augmentation.PushEffect` | daemon/multipath.c:451-462 | the walk back ends at the source, adds one unit and touches only edges it met |
| `SuccessivePaths.AugmentKeeps` | daemon/multipath.c:376-464 | an augmentation keeps the flow sound and leaves a potential, so no negative cycle arises |
| `SuccessivePaths.ComputeKeeps` | daemon/multipath.c:376-464 | this holds in every pass of every run |
| `PathFamilies.FamilyCarries` | daemon/multipath.c:141-316 | the arcs of r disjoint paths are a flow of r units of the same cost |
| `Optimality.Duality` | daemon/multipath.c:376-464 | a flow with a potential is cheapest; each further unit costs at least the sink's label |
| `Optimality.Decompose` | daemon/multipath.c:451-464 | a flow of r units is r node-disjoint paths and a circulation |
| `Optimality.PathsFoundAreOptimal` | daemon/multipath.c:361-503 | the r paths found are node-disjoint and of least total cost among all sets of r; fewer than k are found only if any more cost 65535 more each; for k = 1, or without a free cycle, the edges with flow are exactly theirs |
| `Optimality.OnlyPathsIff` | daemon/multipath.c:451-489 | all sound flows with a potential, of which the flow computed is one, consist of their paths alone if and only if no free cycle avoids both endpoints |
| `Optimality.OnePathExact` | daemon/multipath.c:451-464 | the flow of one pass is exactly its path, whatever free cycles exist |
| `Optimality.StopsExactly` | daemon/multipath.c:447-448 | a pass finds no path if and only if every set of one more path costs at least 65535 more |
| `Optimality.NoMorePaths` | daemon/multipath.c:447-448 | if all costs together stay below 65535, a short run proves that no more disjoint paths exist |
| `FreeCycles.FlowIsMoreThanPaths` | daemon/multipath.c:376-503 | on one network, for any order of the links before the internal edges, two paths leave a free cycle with flow |
| `FreeCycles.LoopAtStartUp` | daemon/multipath.c:81-316 | a configuration whose edge list, as laid out at start-up, is such a network |
| `MultiPath.InitMultiPath` | daemon/multipath.c:141-316 | the edge list holds exactly the configured arcs, links before internal edges, each residual twin before its edge |
| `MultiPath.OnlyLeastWraps` | daemon/multipath.c:412-418 | the absolute value of a 16-bit cost survives storage if and only if the cost is not -32768 |
| `MultiPath.NetForOk` | daemon/multipath.c:399-423 | every configuration and cost table gives a network the path theorems apply to |
| `MultiPath.NetPrices` | daemon/multipath.c:403-423 | a configured link is left out exactly if current costs count and its cost, or a required reverse cost, is -1; otherwise it costs its base or absolute cost, or the larger of both directions |
| `MultiPath.NodesAreFree` | daemon/multipath.c:399-400 | passing through a node costs nothing |
| `MultiPath.MaskUnique` | daemon/multipath.c:466-489 | the mask does not depend on the order in which the bag is emptied |
| `Bitmask.StampBit` | daemon/multipath.c:475-484 | setting an edge's bit sets that bit and no other |
| `Bitmask.EdgeInGraph` | daemon/dissem_graphs.c:1518-1538 | the test with a one-bit mask tells whether the bit is set |
| `Bitmask.Merge` | daemon/multipath.c:560-568 | the masks' bits are united |
| `PathService.ShortRunsAgree` | daemon/multipath.c:590-603 | once a run falls short of k, runs for every larger number of paths are the same |
| `PathService.KPaths.ShortestPaths` | daemon/multipath.c:378-443 | the loop on mutable labels computes the final labels |
| `PathService.KPaths.PushFlow` | daemon/multipath.c:451-462 | the walk back on mutable flows computes the augmented flow and the bag |
| `PathService.KPaths.ComputePaths` | daemon/multipath.c:335-504 | the count and the mask are those of the computed flow |
| `PathService.KPaths.Cached` | daemon/multipath.c:577-607 | every cache entry, copied ones included, equals a fresh computation under current costs |
| `PathService.KPaths.SetCost` | daemon/network.c:619-624 | a cost change leaves an empty, hence valid, cache |
| `PathService.KPaths.ClearCache` | daemon/multipath.c:322-333 | the cache is empty |
| `PathService.KPaths.StampBitmask` | daemon/multipath.c:506-611 | the stamped mask is the chosen graph's or that of k fresh paths |
| `SelectorSpec.ProblemsAreNegativeCosts` | daemon/dissem_graphs.c:1580-1612 | after a replay the problem set holds exactly the edges whose last cost is negative and which have changed class since the start |
| `SelectorSpec.ChoiceByEdges` | daemon/dissem_graphs.c:1569-1854 | which graph is called for, from whether two problem edges leave this node or enter the destination and whether another lies on the graph |
| `Selector.Selector.ProblemOnGraph` | daemon/dissem_graphs.c:1542-1567 | whether a problem of the other kind lies on the graph |
| `Selector.Selector.ProcessEdgeUpdate` | daemon/dissem_graphs.c:1569-1854 | keeps counters equal to set sizes and each graph equal to the function of the problem set; the "ERROR!" exit is not taken |
| `Selector.Selector.ProcessAll` | daemon/dissem_graphs.c:1569-1854 | after any sequence of updates each destination's graph is the function of the current problem set alone |
| `Paths.ReachThroughNeighbour` | daemon/dissem_graphs.c:361-376 | a node is within reach exactly if some neighbour of it is, by a path that avoids it |
| `Paths.ReverseReach` | daemon/dissem_graphs.c:932-985 | reach in the reversed graph is reach the other way |
| `Dijkstra.Solve` | daemon/dissem_graphs.c:317-355 | the loop ends with relaxed labels and a tree of predecessors |
| `Dijkstra.LabelsAreDistances` | daemon/dissem_graphs.c:317-355 | labels are shortest distances, and unlabelled nodes cannot be reached |
| `ProblemGraphs.DestinationProblemGraph` | daemon/dissem_graphs.c:268-414 | exactly the edges into dst from neighbours in reach within the bound while avoiding dst, and a tree of shortest paths to them, nothing else |
| `ProblemGraphs.SourceProblemGraph` | daemon/dissem_graphs.c:932-985 | the mirrored specification, by reverse, solve, reverse |
| `ProblemGraphSpec.SrcTargets` | daemon/dissem_graphs.c:932-985 | its edges out of src are exactly those from whose ends dst is in reach while avoiding src |
| `ProblemGraphSpec.DstEmptyIff` | daemon/dissem_graphs.c:1123-1136 | the graph is empty exactly if the shortest path exceeds the bound |
| `ProblemGraphSpec.EmptyTogether` | daemon/dissem_graphs.c:719-762 | both problem graphs are empty or neither is |
| `GraphMasks.GraphToBitmask` | daemon/dissem_graphs.c:133-155 | the mask's bits are exactly the graph's edge indices |
| `GraphMasks.ComputeMasks` | daemon/dissem_graphs.c:1437-1472 | the two-path fallback replaces all three problem masks or none |
| `GraphMasks.PlanGraphs` | daemon/dissem_graphs.c:1474-1488 | the edge lists the selector consults are those of the masks |
| `Fragments.FillPacket` | daemon/intrusion_tol_udp.c:1504-1533 | one packet takes exactly the fragments that fit |
| `Fragments.CalculatePackets` | daemon/protocol.c:477-502 | the count and the space left in the last packet, which for a sendable message are those of the packets packed |
| `Fragments.CountIsPacked` | daemon/protocol.c:477-502 | the scheduler's count equals the number of packets the link packs |
| `Fragments.BuildMessage` | daemon/intrusion_tol_udp.c:1602-1705 | the two loops compute the parse and append functions, error codes included |
| `Fragments.BuildEncoded` | daemon/intrusion_tol_udp.c:1602-1705 | a packet in turn adds exactly its fragments, and is ready exactly with the last |
| `Fragments.RoundTrip` | daemon/intrusion_tol_udp.c:1477-1705 | packing and rebuilding returns the message and reports ready exactly at the last packet |
| `LinkMessages.PackLoopWhole` | daemon/intrusion_tol_udp.c:1477-1562 | stream and rest stay whole messages; packing stops only when idle or at a full window |
| `LinkMessages.DeliveredPrefix` | daemon/intrusion_tol_udp.c:2356-2378 | any prefix of the packets delivers exactly a prefix of the messages, whole and in order, and none is refused |
| `LinkMessages.SurvivorsAreWhole` | daemon/intrusion_tol_udp.c:2475-2500 | what is kept and still to be packed are whole messages |
| `LinkMessages.Reintroduction` | daemon/intrusion_tol_udp.c:2475-2521 | only the packets of the one message whose first packet is acked are dropped; the rest stays in order |
| `LinkMessages.ReintroduceWhole` | daemon/intrusion_tol_udp.c:2475-2521 | the renumbered window with what is packed next is again whole messages |
| `LinkProtocol.RunInv` | daemon/intrusion_tol_udp.c:1725-2540 | the invariant of two ends holds in every run over loss, duplication, reordering, restarts and incarnation changes |
| `LinkProtocol.ReliableInOrder` | daemon/intrusion_tol_udp.c:2069-2387 | paired ends: sender tail <= receiver tail <= usable head; consumed are packets 1 .. tail - 1, once and in order; delivered is a prefix of the messages sent |
| `LinkProtocol.NeverSuspected` | daemon/intrusion_tol_udp.c:2110-2153 | in every run an honest neighbour's ack passes the nonce check and none of its packets is refused |
| `LinkProgress.OpenedExactly` | daemon/intrusion_tol_udp.c:1168-1176 | only what exceeds the congestion window stays unsent, and nothing beyond it is newly sent |
| `LinkProgress.SubmitSends` | daemon/intrusion_tol_udp.c:1061-1179 | a new message always gets packets sent; all that is packed if the congestion window is as large as the send window |
| `LinkProgress.StallsExactly` | daemon/intrusion_tol_udp.c:2186-2206 | an accepted ack with such a window sends all packed before, and all packed after exactly if no message is under way; with any window the link stalls exactly if one ack covers a full window while a message is being packed |
| `LinkProgress.StallHappens` | daemon/intrusion_tol_udp.c:2186-2206 | a run from the start, with any message, that ends stalled |
| `LinkProgress.AlwaysReady` | daemon/intrusion_tol_udp.c:1061-2521 | in no run with open congestion windows is a link stalled where it could not take the next message |
| `LinkProgress.EveryRunCanFinish` | daemon/intrusion_tol_udp.c:1061-2521 | every run of paired ends, whatever was lost, goes on to one in which every accepted message is delivered and the window is empty |
| `LinkProgress.DigestBinds` | daemon/intrusion_tol_udp.c:2110-2153 | a digest is wrong if exactly one of the nonces it covers is |
| `LinkProgress.NothingDropped` | daemon/intrusion_tol_udp.c:2267-2290 | a packet in the receive window is kept whatever is missing before it |
| `LinkRing.IntTolLink.constructor` | daemon/link.c:337-388 | the initial state |
| `LinkRing.IntTolLink.PackFragments` | daemon/intrusion_tol_udp.c:1477-1562 | refines the packing loop; the digest ring holds the digests of 1 .. s for every s in the window despite slot reuse |
| `LinkRing.IntTolLink.SendAllowed` | daemon/intrusion_tol_udp.c:1168-1176 | sends, in order and with their nonces and the current ack, the packets up to the congestion window; only what exceeds it stays behind |
| `LinkRing.IntTolLink.Forward` | daemon/intrusion_tol_udp.c:1061-1179 | takes a message exactly if none is being packed, its 16-bit size check passes and its header is right; then refines the submission and sends what becomes usable |
| `LinkRing.IntTolLink.ProcessAck` | daemon/intrusion_tol_udp.c:2104-2209 | refused exactly if the digest differs from that of packets 1 .. aru; otherwise frees, sends and packs |
| `LinkRing.IntTolLink.ProcessData` | daemon/intrusion_tol_udp.c:2252-2384 | refines storing a packet and moving the tail; the NACK flags mark exactly the gaps |
| `LinkRing.IntTolLink.IncarnationChange` | daemon/intrusion_tol_udp.c:2407-2521 | refines the change, with or without reintroduction, although it zeroes digest slots of the incoming range |
| `PriorityQueues.Unlink` | daemon/priority_flood.c:1024-1052 | counters after an unlinking that scans only when the last of a list goes are those of a fresh count |
| `PriorityQueues.PutOk` | daemon/priority_flood.c:600-676 | queueing keeps count, highest and lowest priority right |
| `PriorityQueues.PutBehind` | daemon/priority_flood.c:600-676 | a new message stands behind all of its source and priority |
| `PriorityQueues.DropInOrder` | daemon/priority_flood.c:1024-1052 | the others keep their order when a message goes |
| `PriorityQueues.CountZero` | daemon/priority_flood.c:883-887 | a source with packets has a first message at its highest and at its lowest priority |
| `PriorityLinks.NextSource` | daemon/priority_flood.c:837-881 | a look at the fair queues keeps them right and either readies a source or comes closer, penalty wrap included |
| `PriorityFair.LookedDown` | daemon/priority_flood.c:837-881 | a look that does not send makes no source with messages wait longer for its turn than before |
| `PriorityFair.ServedDown` | daemon/priority_flood.c:931-954 | a source that sends may overtake every waiting one once less |
| `PriorityFair.EmptyUrgentTurn` | daemon/priority_flood.c:840-855 | a look leaves its own source no closer to its turn exactly if its urgent turn comes when its messages are gone; it then owes 65536 |
| `PriorityTurns.BoundedOvertaking` | daemon/priority_flood.c:835-957 | while a source waits with messages toward a neighbour, every other source sends there at most as many messages as the waiting one has turns to wait, 0 counting as 65536 |
| `PriorityLinks.CountsCover` | daemon/priority_flood.c:1019-1021 | the counters do not underflow |
| `PrioritySched.SettleNeed` | daemon/priority_flood.c:1012-1058 | a clean-up keeps queues and statuses in agreement |
| `PrioritySched.EraseOk` | daemon/priority_flood.c:1102-1106 | erasing leaves no queue with a reference to the entry |
| `PrioritySched.AcceptLog` | daemon/priority_flood.c:494-534 | a message accepted as new was never accepted before |
| `PriorityServing.Cleanup` | daemon/priority_flood.c:993-1076 | removes the message from exactly the given neighbours' queues |
| `PriorityServing.FindNext` | daemon/priority_flood.c:835-899 | the loop ends; the message found is of the source whose turn it is, the oldest unexpired one of its highest priority at the outset, or everything had expired; nobody is made to wait longer |
| `PriorityFlood.SendOneFrom` | daemon/priority_flood.c:807-957 | sends at most that message, never one sent to or heard from this neighbour before; the source served then is last in line and owes as many turns as the message has packets, a refused one keeps its turn |
| `PriorityFlood.SendAnswered` | daemon/priority_flood.c:692-698 | the loop is over once everything queued has expired, and on a link that takes nothing exactly then; enough answers empty the queue of a link that takes everything |
| `PriorityFlood.SendGranted` | daemon/priority_flood.c:692-698 | the loop as called: ended by any answers that outlast the last expiry |
| `PriorityFlood.RunningClockExpires` | daemon/priority_flood.c:889-899 | a clock that passes every time reaches the expiry of everything queued |
| `PriorityFlood.RefusingRun` | daemon/priority_flood.c:692-698 | a run on a refusing link that never ends with a standing clock and ends with a running one |
| `PriorityFlood.QueueFor` | daemon/priority_flood.c:600-724 | with nothing granted the message is queued behind the others, and a largest source loses a message exactly if the queue exceeds its limit |
| `PriorityFlood.SendOrDrop` | daemon/priority_flood.c:692-724 | the queue ends within its limit or a largest source pays; turns are kept |
| `PriorityFlood.DropFromHog` | daemon/priority_flood.c:701-724 | drops the oldest message of the lowest priority of a source with most packets |
| `PriorityFlood.Admit` | daemon/priority_flood.c:578-728 | gives each neighbour its status: one that needs nothing keeps it as long as the list is kept, whatever is sent meanwhile; the message is queued for the others |
| `PriorityFlood.HearCopy` | daemon/priority_flood.c:745-781 | a copy settles its sender; the exit is taken exactly for the status "not in mask" |
| `PriorityFlood.OffMaskRun` | daemon/priority_flood.c:754-779 | a run of two arrivals that reaches that exit |
| `PriorityFlood.CollectFrom` | daemon/priority_flood.c:1083-1118 | forgets exactly the expired messages |
| `PriorityFlood.PriorityFlood.Disseminate` | daemon/priority_flood.c:297-785 | accepts exactly what is current, unexpired, of valid priority and unknown, and never the same message twice |
| `PriorityFlood.EmptyTurnArises` | daemon/priority_flood.c:840-855 | a first message queued and gone leads to that turn |
| `PriorityFlood.PriorityFlood.GarbageCollect` | daemon/priority_flood.c:1083-1118 | keeps the invariant and the log |
| `PriorityFlood.RunAll` | daemon/priority_flood.c:297-1118 | over any run each message is accepted at most once and sent to each neighbour at most once, never to its last hop, its source or off its mask; and no source is overtaken out of turn |
| `RealtimeLink.Receiver.Process` | daemon/realtime_udp.c:155-220 | the ring of flags and time stamps acts as the set of all numbers delivered and when, and the oldest numbers skipped are asked for again |
| `RealtimeLink.ArriveMoves` | daemon/realtime_udp.c:155-220 | delivers exactly numbers at or above the tail that were never delivered; the tail moves exactly if the first number delivered in the window is older than the history time or a jump needs room, and passes an old number or one a ring below last |
| `RealtimeLink.AgedUnique` | daemon/realtime_udp.c:171-199 | the place where the tail comes to rest is the only one with all delivered numbers below old and the next one not |
| `RealtimeLink.LateIsDelivered` | daemon/realtime_udp.c:155-220 | over any arrivals within the history time of the oldest in the window and within a ring, a number asked for again is delivered exactly if it comes in |
| `RealtimeLink.Sender.Forward` | daemon/realtime_udp.c:289-360 | the packet's number is the head; the history loses only what is old or a ring below; one token is added up to the limit |
| `RealtimeLink.Sender.Retransmit` | daemon/realtime_udp.c:541-620 | resends what was asked for with the data first sent under its number, as far as tokens last and up to a failed send |
| `RealtimeLink.ResentPaid` | daemon/realtime_udp.c:563-575 | all requests the history can meet are resent in order at two tokens each, unless tokens run out or a send fails |
| `ReliableLink.Link.SendMuch` | daemon/reliable_datagram.c:336-470 | moves the buffer into the window until it is empty or the window size is reached, and no further; the "smaller seq_no" exit is not taken |
| `ReliableLink.Link.SendMsg` | daemon/reliable_datagram.c:88-210 | head plus buffered count is the next number, and every slot of the window is filled |
| `ReliableLink.Link.ProcessAck` | daemon/reliable_datagram.c:1221-1406 | frees and marks as the specification does; the "Reliability failure" exit is not taken |
| `ReliableLink.ProcessKeeps` | daemon/reliable_datagram.c:1381-1406 | a number is reported fresh exactly if it never was before; an ack of numbers sent frees exactly what is below it |
| `ReliableLink.ReliableRun` | daemon/reliable_datagram.c:1221-1406 | between honest ends nothing unreceived is freed, what is reported fresh under n is the n-th message of the other end, and every packet falls into the receive window |
| `ReliableLink.HeardIsFreed` | daemon/reliable_datagram.c:1231-1258 | in every run an end that hears an ack keeps nothing below it, and after an ack of everything received both tails agree |
| `ReliableLink.CanDrain` | daemon/reliable_datagram.c:1221-1406 | every run, whatever was lost, goes on to one in which everything in an end's window has been reported by the other and the window is empty |

## Left out

- Cryptography, key exchange, signatures, sockets, timers, reference counts, statistics, configuration parsing.
- Congestion window, round-trip and loss arithmetic: the window is an arbitrary value at each step.
- Endianness, malformed packets from dishonest neighbours, sequence numbers that wrap at 2^32 or 2^64.
- Steiner-tree search and the early-exit distance function of dissem_graphs.c: not reached from `DG_Compute_Graphs`; undirected edges return before the problem graphs.
- Graph costs of dissem_graphs.c are `double` there and natural numbers here; rounding is not modelled.
- Masks are merged byte by byte where the daemon works on 64-bit words.
- `MultiPath.NetForOk`: excludes the cost -32768, which counts as negative in both directions of a link.
- Unconfigured edges, and node identifiers with gaps: the flow network numbers configured nodes densely.
- `LinkRing.IntTolLink.ProcessData`: the case `Ordered_Delivery == 0`, where single-packet messages overtake others, is not modelled.
- `ReliableLink.Link.ProcessAck`: asks for a number inside the receive window, which `ReliableLink.ReliableRun` shows for honest ends; what a dishonest end does to the window is not modelled.
- A byte is a number without an upper bound in `Fragments`; fragment lengths have two of them.
- Steps inside one handler of the link (ack, sends, data) are separate steps of the two-ended protocol, which admits more runs than the daemon.
- A send of the link that fails inside `Forward_Intru_Tol_Data` ends that loop: here a lost packet and a smaller congestion window in that step.
- `PriorityFlood.QueueFor`: one message is dropped for an overflow, as in the daemon; that the queue then is within its limit is not promised.
- `Add_IT_Nacks` and the retransmission timers: a retransmission is a step that may happen at any time.
- The scheduler's state is a value that each operation of the class replaces; lists are sequences, so the linking of list nodes is not captured.
- `PriorityServing.FindNext`: reads the clock once per turn, the daemon only when a source is ready.
- One link mode per message: the penalty after a send is the packet count used for queueing.
- Room in the realtime NACK buffer is a parameter.
- `daemon/reliable_session.c`: the same window machine with client sockets.
