# A verified model of gempba's distributed scheduling

gempba explores a search tree with threads and MPI processes. This project models the parts of it whose
correctness rests on what several functions, threads or ranks do together, and proves what they promise.
`dafny verify dfyconfig.toml` checks all of it.

**The run protocol of the semi-centralized scheduler.** `TerminationDetector` is the Dijkstra-Scholten detector of
one rank, as a class tied to a value. `Handoff` is the single slot between a worker's pool threads and its funnel
thread, step by step, down to the lock, the flag and the queue. `SemiProtocol` puts a detector, a phase and a slot on
every rank and a FIFO channel on every ordered pair (order per source, destination and communicator: section 3.5 of
the MPI 4.0 standard); its steps interleave freely. `SemiInvariant` and `SemiTermination` prove that no throw of the
source is reached in any run and that a center deficit of 0 means termination, `SemiDetection` that termination is
reached, `SemiLedger` that every pushed task arrives once and in order. `SemiScores` adds score proposals and
broadcasts, helper lists, the counters of the TERMINATION message and the collected solutions;
`SemiScoresInvariant`, `SemiRuns`, `SemiOutcome` and `SemiSolution` prove them exact and find when `fetch_solution`
returns the best packet; `SemiOffers` says so of what the threads passed to `try_update_result`. `SemiStanding` proves
that the center's record of who works is right, `SemiHelpers` that each worker hears the helper lists it was sent and
pushes to their heads. `SemiRefinement` shows that the full system refines the bare protocol, `SemiCompletion` that it
comes to its end: a blocked proposer is served, and once work has stopped every worker is told, drains and is
collected. `SemiShadow` carries one run to an end at which the best packet is lost. `SemiCenter` and `SemiWorker` are
the center's and a worker's code on arrays, counters and the linked tree, each method shown to refine the step of the
system that it implements.

**The centralized scheduler.** `Centralized` is its protocol with the center's queue (a bag), `CentralizedInvariant`
what holds of each worker with its link, `CentralizedRuns` what holds of whole runs, `CentralizedNotices` that scores
and fullness notices arrive, `CentralizedDetection` that the center is never stuck and notices when work has stopped,
`CentralizedCompletion` that the run then comes to its end, `CentralizedSolutions` that every solution is then
collected, and `CentralizedDispatch` the dispatch loop over the array of process states, highest priority first.

**The quasi-horizontal load balancer.** `TraceNode` is the node class with its links, state and cached branch
decision. `TraceChain` describes what a thread's heap looks like: the running path is the leftmost chain from the
thread root, and pending siblings hang beside it. `PushOrder` says in which order pending nodes leave a thread, as
functions of its chain and of a plan that answers every attempt to send. `QuasiHorizontal` has the balancer's methods
on the heap, from one lowering of the root up to a whole task: each computes what `PushOrder` says and conserves the
work, for every plan; and the theorem over all threads and processes. A plan stands for every outcome of a lock, a
full pool and the transmission channel.

**The process forest.** `Forest` has the center's tree as a value with the handlers that edit it; `ProcessTree` has
the linked sibling lists, proved to refine it field by field; `Topology` is `build_topology`, `TreePrinting` the
printed tree, and `TreeReading` that the text determines the tree.

**Telemetry.** `ClientOutbox`, `SchedulerClock` (module `SchedulerTimes`), `SchedulerHistory`, `JsonText` (section 7
of RFC 8259, section 3 of RFC 3629) and `TopologyCodec`.

`Common` has shared datatypes and sums.

How to read it: a protocol is a datatype `Action`, a predicate `Enabled` and a function `Step` whose outcome is a new
state or one of the source's throws. `Run` applies a list of actions; a theorem over every run quantifies over every
list whose actions are enabled in turn. `history` fields record what happened and are never read by a step.

Three promises do not hold without a condition, and the condition is proved to be exact:

- `fetch_solution` compares with the score of `result::EMPTY`, the I32 value -1. If scores are of that kind and -1 is
  the best one, a rank without a result that precedes every holder hides it (`SemiOffers.BestSolutionIsFetched`);
  `SemiShadow.SolutionLost` is a whole run on which this happens.
- Shallow nodes are to leave a thread first. Whatever locks, pool and channel do, every node that `send` takes out is
  the thread's shallowest pending one, if and only if no path of the task's tree leads astray; and so is every node
  that it hands over, what it discards not counting, if and only if no path does in a narrower sense
  (`PushOrder.OrderExactly`, for both). A node's body begins *below* when the thread root is above it with a pending
  child, at the *root* when it is the thread root, *slack* when the root is above and nothing is pending in between,
  and *astray* when the root is above without a pending child but something is pending in between, which `send` does
  not look for.
  `CanBegin` says how a child can begin, by its parent's beginning and its place. An only child of a slack or root
  parent begins slack; the first of several begins astray below a slack parent; the last of several can begin at the
  root, and otherwise children begin below, but for the second of two below a slack parent, which can begin slack.
  Breaking needs a path of nodes worth running to one that begins astray and has children, the first of which counts:
  `OnlyChildBreaks` and `SecondChildBreaks` are such trees, `OnlyDiscarded` are those where the two senses differ,
  `WideIsHarmless` covers the trees without an only child.
- The reported scheduler times are the time spent in a state unless a run is started inside a run, which throws away
  what had not been accrued (`SchedulerTimes.FillIsExact`, `RestartLoses`).

## Model

| member | source | states |
|---|---|---|
| `TerminationDetection.TerminationDetector.OnTaskReceived` | private/impl/schedulers/termination_detector.hpp:57-63 | a task engages a rank that is neither the root nor engaged and defers its acknowledgement; otherwise the sender is acknowledged at once |
| `TerminationDetection.TerminationDetector.OnAckReceived` | private/impl/schedulers/termination_detector.hpp:68-74 | an acknowledgement lowers the deficit, and is refused without change when nothing is owed |
| `TerminationDetection.TerminationDetector.OnPassive` | private/impl/schedulers/termination_detector.hpp:80-85 | exactly an engaged rank with deficit 0 names its parent, once, and is disengaged by it |
| `TerminationDetection.TerminationDetector.IsQuiescent` | private/impl/schedulers/termination_detector.hpp:91-91 | true exactly for deficit 0 and no parent |
| `Handoff.ShiftLeft` | include/gempba/utils/utils.hpp:100-115 | the in-place loop computes ShiftedLeft, and throws only on an empty vector |
| `Handoff.ShiftDropsHead` | include/gempba/utils/utils.hpp:100-115 | seen as the helper list up to the first -1, shifting drops the head |
| `Handoff.StepSafe` | src/schedulers/mpi/mpi_semi_centralized_scheduler.cpp:35-99 | for every interleaving step of pool threads and funnel: no throw ("q is not empty", "Task found in queue", "pending message", self-sends) and the one-token invariant is kept |
| `Handoff.HandoffDelivers` | private/impl/schedulers/mpi_semi_centralized_scheduler.hpp:158-175 | over every interleaving, what is sent is a prefix of what was passed to force_push with at most one bundle outstanding, and a returned funnel leaves an idle pool, an empty slot, m_transmitting false and everything sent in order |
| `Handoff.TaskThreads` | src/schedulers/mpi/mpi_semi_centralized_scheduler.cpp:74-84 | over every interleaving of a task the pool holds the thread it was handed to and those spawned since, less those that have finished |
| `Handoff.FullnessIs` | private/impl/schedulers/mpi_centralized_scheduler.hpp:374-388 | over every interleaving the worker takes the center for full as the last notice said |
| `Handoff.FunnelReturns` | src/schedulers/mpi/mpi_semi_centralized_scheduler.cpp:35-99 | once the pool is done, task_funneling returns in at most twenty steps of its own, with everything pushed sent |
| `Handoff.SendsToHelper` | private/impl/schedulers/mpi_semi_centralized_scheduler.hpp:482-507 | send_task always has a destination that is a worker other than itself |
| `Handoff.PushAllowed` | private/impl/schedulers/mpi_semi_centralized_scheduler.hpp:158-175 | whenever a thread pushes, nothing is on its way, and the worker has another worker as its helper, or has not been told that the center is full |
| `Handoff.HelpersUsedUp` | private/impl/schedulers/mpi_semi_centralized_scheduler.hpp:248-267 | over every interleaving: each push goes to the rank that headed the helper list when update_next_process last looked, and uses up one head; lists from the center go over the front of what is left |
| `Handoff.PushesInTurn` | private/impl/schedulers/mpi_semi_centralized_scheduler.hpp:248-267 | without new lists, and with a look before each push, the listed helpers get one bundle each, in order |
| `SemiInvariant.AccountsMove` | private/impl/schedulers/termination_detector.hpp:52-74 | a change of one debt matched by the detector keeps every deficit equal to the debts owed to it |
| `SemiInvariant.ReleaseParentInv` | private/impl/schedulers/mpi_semi_centralized_scheduler.hpp:346-350 | release_parent_if_passive keeps the accounts and the engagement tree and settles the worker |
| `SemiInvariant.TaskAcceptedInv` | private/impl/schedulers/mpi_semi_centralized_scheduler.hpp:371-390 | taking a task, with its immediate or deferred acknowledgement and the RUNNING report behind it, keeps the whole invariant |
| `SemiInvariant.TaskFinishedInv` | private/impl/schedulers/mpi_semi_centralized_scheduler.hpp:407-414 | the AVAILABLE report, put on the link before anything else, and the release at the end of process_message keep it |
| `SemiInvariant.TaskSentInv` | private/impl/schedulers/mpi_semi_centralized_scheduler.hpp:482-507 | a task sent to any other worker keeps it |
| `SemiInvariant.AckTakenInv` | private/impl/schedulers/mpi_semi_centralized_scheduler.hpp:216-220 | an acknowledgement at an idle worker, with the release behind it, keeps it |
| `SemiInvariant.CenterAckTakenInv` | private/impl/schedulers/mpi_semi_centralized_scheduler.hpp:561-565 | an acknowledgement at the center, with the test for deficit 0, keeps it |
| `SemiInvariant.QuietWhenPaid` | private/impl/schedulers/mpi_semi_centralized_scheduler.hpp:541-573 | Dijkstra-Scholten: with a center deficit of 0 nothing is in flight, nobody works and every detector is quiescent |
| `SemiTermination.StepSafe` | private/impl/schedulers/mpi_semi_centralized_scheduler.hpp:184-244 | no step of any rank throws, and each keeps the invariant |
| `SemiTermination.TerminationIsSafe` | private/impl/schedulers/mpi_semi_centralized_scheduler.hpp:304-315 | in every run nothing throws (the guard of process_termination included), and once the center has left its loop no task or acknowledgement is in flight, no worker holds work or a bundle, and all detectors are quiescent |
| `SemiLedger.EveryTaskArrivesOnce` | private/impl/schedulers/mpi_semi_centralized_scheduler.hpp:248-267 | conservation: at the end each worker has received from each other exactly what was pushed for it, in order, and rank 1 the seed |
| `SemiRefinement.RunProjects` | private/impl/schedulers/mpi_semi_centralized_scheduler.hpp:184-244 | every run of the full system, seen without scores and counters, is a run of the protocol |
| `SemiRefinement.EveryTaskArrivesOnce` | private/impl/schedulers/mpi_semi_centralized_scheduler.hpp:248-267 | the same conservation for every run of the full system |
| `SemiHelpers.HelpersReachTheWorker` | private/impl/schedulers/mpi_semi_centralized_scheduler.hpp:361-368 | in every run of the full system a worker hears the lists the center sent it, in order, the rest being queued until it leaves; its helper list and pushes are what these lists make of it |
| `SemiStanding.StandingIsExact` | private/impl/schedulers/mpi_semi_centralized_scheduler.hpp:647-723 | in every run of the full system: while the center serves and no report of a worker is on its way, it has the worker down as RUNNING if and only if it is working, or is rank 1 with the seed still on its way |
| `SemiStanding.ReportNames` | private/impl/schedulers/mpi_semi_centralized_scheduler.hpp:647-723 | in the full system each report updates the center's view as RunningLaw or AvailableLaw says, and exactly the rank that is named a helper gets it on a list and has it counted |
| `SemiDetection.AckInFlight` | private/impl/schedulers/termination_detector.hpp:80-85 | in a resting system an unpaid debt leads to a deliverable acknowledgement, because idle workers with deficit 0 are disengaged and parents form a tree |
| `SemiDetection.StepCloser` | private/impl/schedulers/mpi_semi_centralized_scheduler.hpp:216-220 | in a resting system every receipt lowers 2 * engaged + messages in flight and leaves it resting or the center notifying |
| `SemiDetection.RestIsShort` | private/impl/schedulers/mpi_semi_centralized_scheduler.hpp:541-573 | no ordering of receipts keeps the center in its loop longer than that measure |
| `SemiDetection.TerminationIsDetected` | private/impl/schedulers/mpi_semi_centralized_scheduler.hpp:541-573 | from every resting state receipts alone bring the center to its termination notices |
| `SemiScoresInvariant.GlobalNotBetter` | private/impl/schedulers/mpi_semi_centralized_scheduler.hpp:354-359 | no worker ever holds a global score better than the center's |
| `SemiScoresInvariant.ProposalTakenChannels` | private/impl/schedulers/mpi_semi_centralized_scheduler.hpp:729-761 | a proposal is broadcast only if it improves on every earlier broadcast, and goes to every worker |
| `SemiScoresInvariant.ScoresDrainedChannels` | private/impl/schedulers/mpi_semi_centralized_scheduler.hpp:317-325 | the score loop of the drain ends with the count asked for and the score of that broadcast |
| `SemiScoresInvariant.HelpersDrainedChannels` | private/impl/schedulers/mpi_semi_centralized_scheduler.hpp:326-330 | the next-process loop of the drain ends with the count asked for |
| `SemiScoresInvariant.ScoreUpdatedValues` | src/schedulers/mpi/mpi_semi_centralized_scheduler.cpp:101-113 | update_score keeps: the best accepted score is held by its worker, and every score in circulation was accepted or is the default |
| `SemiScoresInvariant.AcceptedValues` | include/gempba/node_manager.hpp:109-121 | an accepted result keeps the same |
| `SemiOutcome.TerminationCounts` | private/impl/schedulers/mpi_semi_centralized_scheduler.hpp:789-795 | the counts in a TERMINATION message are received plus queued, for scores and next-process messages |
| `SemiSolution.DrainIsExact` | private/impl/schedulers/mpi_semi_centralized_scheduler.hpp:304-335 | a worker that finds its TERMINATION message can drain without waiting or throwing and ends with the center's counts and score |
| `SemiSolution.ChannelsAreExact` | private/impl/schedulers/mpi_semi_centralized_scheduler.hpp:317-335 | in every run nothing throws, received plus queued equals sent for both side channels, each global score is the last of a prefix of the broadcasts, and these strictly increase when maximising and strictly decrease when minimising |
| `SemiSolution.StepSafe` | private/impl/schedulers/mpi_semi_centralized_scheduler.hpp:812-855 | no step throws ("unknown tag" of receive_solution_from and the drain's guard included) and each keeps all books |
| `SemiSolution.FetchFirst` | private/impl/schedulers/mpi_semi_centralized_scheduler.hpp:80-87 | fetch_solution returns the packet of the first rank recorded with the global score, kind and value, or nothing |
| `SemiOffers.BestSolutionIsFetched` | private/impl/schedulers/mpi_semi_centralized_scheduler.hpp:80-87 | at the end of every run of any integer kind the center's score is at least as great (maximising) or at most as great (minimising) as every score that any thread passed to try_update_result, and fetch_solution returns a packet passed with it if and only if no rank without a result shadows it with the I32 value -1 of result::EMPTY |
| `SemiOffers.RunAccounts` | include/gempba/node_manager.hpp:109-142 | over every run each worker's score ends no worse than all it was offered, never gets worse, and every recorded acceptance was an offer |
| `SemiSolution.ShadowedSolution` | private/impl/schedulers/mpi_semi_centralized_scheduler.hpp:80-87 | on the records of a silent rank 1 and a rank 2 with the best score -1 the packet is found exactly when the kind is not I32 |
| `SemiShadow.SolutionLost` | private/impl/schedulers/mpi_semi_centralized_scheduler.hpp:80-87 | a whole run of three ranks, from the seed to the last collected solution, with every barrier and synchronous send in force, whose best packet is not fetched |
| `SemiCompletion.ProposerServed` | src/schedulers/mpi/mpi_semi_centralized_scheduler.cpp:101-113 | a worker blocked in the synchronous send of its score is always served: the center still serves and can take the proposal |
| `SemiCompletion.FinalStep` | private/impl/schedulers/mpi_semi_centralized_scheduler.hpp:789-795 | after the loop a worker that was sent its notice has it until it takes it, and a finished worker's solution is there until it is collected |
| `SemiCompletion.SomethingFinishes` | private/impl/schedulers/mpi_semi_centralized_scheduler.hpp:304-315 | until everything is collected one of these is enabled: a notice, the receipt of one, and only when no worker is in the loop any more, a solution or its collection |
| `SemiCompletion.FinishingCloser` | private/impl/schedulers/mpi_semi_centralized_scheduler.hpp:789-795 | each of these lowers 2 * (notices left + workers to leave) + messages in flight by one |
| `SemiCompletion.CompletionIsReached` | private/impl/schedulers/mpi_semi_centralized_scheduler.hpp:541-583 | wherever a run of the full system stands once work has stopped, receipts and then the steps behind the barrier lead on until the center has collected every worker |
| `SemiCenter.Center.constructor` | private/impl/schedulers/mpi_semi_centralized_scheduler.hpp:526-539 | construction, build_topology, broadcast_nodes_topology and the seed give the initial system state |
| `SemiCenter.Center.BroadcastTopology` | private/impl/schedulers/mpi_semi_centralized_scheduler.hpp:767-783 | each rank with children is sent exactly its children once, which become ASSIGNED |
| `SemiCenter.Center.GetAvailable` | private/impl/schedulers/mpi_semi_centralized_scheduler.hpp:797-803 | the first AVAILABLE worker rank, or -1 |
| `SemiCenter.Center.ProcessRunning` | private/impl/schedulers/mpi_semi_centralized_scheduler.hpp:647-675 | on arrays and the linked tree: refines the value-level handler, message and counter included, and obeys RunningLaw |
| `SemiCenter.Center.ProcessAvailable` | private/impl/schedulers/mpi_semi_centralized_scheduler.hpp:677-723 | the same, for every random offset of the search loop, with AvailableLaw |
| `SemiCenter.Center.MaybeBroadcast` | private/impl/schedulers/mpi_semi_centralized_scheduler.hpp:729-761 | the loop over the workers refines the broadcast step: a greater proposal, or a lesser one when minimising, becomes the score and goes to every worker, and no other does |
| `SemiCenter.Center.FetchSolution` | private/impl/schedulers/mpi_semi_centralized_scheduler.hpp:80-87 | the loop computes the function the theorems speak of |
| `SemiWorker.NodeManager.TryUpdateResult` | include/gempba/node_manager.hpp:109-121 | score and result change together, exactly for a greater score when maximising and a lesser one when minimising |
| `SemiWorker.NodeManager.TryUpdateScoreAndInvalidateResult` | include/gempba/node_manager.hpp:131-142 | the same, with the result emptied |
| `SemiWorker.Worker.UpdateScore` | src/schedulers/mpi/mpi_semi_centralized_scheduler.cpp:101-113 | refines the step: a better global score is adopted and the result dropped, a better local one proposed, and nothing else happens |
| `SemiWorker.Worker.ReceiveNextProcess` | private/impl/schedulers/mpi_semi_centralized_scheduler.hpp:361-368 | the list overwrites the front of the buffer and is counted |
| `SemiWorker.Worker.DrainCenterMessages` | private/impl/schedulers/mpi_semi_centralized_scheduler.hpp:317-335 | both loops end at the center's counts, and it throws exactly when more had been received before |
| `Forest.FirstAvailable` | private/impl/schedulers/mpi_semi_centralized_scheduler.hpp:797-803 | returns an available rank with none before it, or -1 when there is none |
| `Forest.FirstNeedy` | private/impl/schedulers/mpi_semi_centralized_scheduler.hpp:697-722 | returns a running worker without helper, or -1 when the loop meets none |
| `Forest.ProcessRunningSafe` | private/impl/schedulers/mpi_semi_centralized_scheduler.hpp:647-675 | never throws, keeps the forest invariant, and names no rank its own helper |
| `Forest.ProcessAvailableSafe` | private/impl/schedulers/mpi_semi_centralized_scheduler.hpp:677-723 | the same for every random offset |
| `Forest.ProcessRunningObeys` | private/impl/schedulers/mpi_semi_centralized_scheduler.hpp:647-675 | the reporter is RUNNING and in no list; if it has no helper, exactly the lowest AVAILABLE rank is named to it and becomes ASSIGNED as its only helper; all else stays |
| `Forest.ProcessAvailableObeys` | private/impl/schedulers/mpi_semi_centralized_scheduler.hpp:677-723 | if some other worker runs without a helper, the first such one from the offset on is told to use the reporter, which becomes ASSIGNED as its only helper; otherwise the reporter is AVAILABLE and nothing is sent; all else stays |
| `Forest.AddPopRelease` | src/utils/tree.cpp:5-77 | release undoes add_next, and pop_front is the release of the head |
| `Forest.DefaultLinked` | include/gempba/utils/utils.hpp:74-86 | the default tree has every rank from 2 on exactly once, under itself minus the largest power of two not above r - 1 |
| `Forest.ForestHoldsFromStart` | private/impl/schedulers/mpi_semi_centralized_scheduler.hpp:647-723 | from the default topology and for every interleaving of reports: no throw, ASSIGNED exactly for ranks in a sibling list, acyclic parents, each report with the effect above, and every message naming an AVAILABLE helper to a RUNNING rank that had none |
| `ProcessTree.LinksAdded` | src/utils/tree.cpp:5-26 | the link fields that appending to a child list calls for, node by node |
| `ProcessTree.LinksReleased` | src/utils/tree.cpp:50-77 | the link fields that removing a node anywhere calls for, both ends and both neighbours included |
| `ProcessTree.LinkedTree.Tail` | src/utils/tree.cpp:14-19 | the walk along right siblings terminates at the last child |
| `ProcessTree.LinkedTree.AddNext` | src/utils/tree.cpp:5-26 | throws exactly for an index out of bounds or an assigned node; otherwise all link fields are those of the list with the node appended |
| `ProcessTree.LinkedTree.PopFront` | src/utils/tree.cpp:28-48 | throws exactly on an empty list; otherwise all link fields are those of the list without its head |
| `ProcessTree.LinkedTree.Release` | src/utils/tree.cpp:50-77 | throws exactly for an unassigned node; otherwise removes it wherever it stands |
| `ProcessTree.LinkedTree.Clear` | include/gempba/utils/tree.hpp:59-63 | frees all children and changes nobody else |
| `ProcessTree.LinkedTree.Children` | include/gempba/utils/tree.hpp:70-102 | iteration yields the child list, and m_children_count is its length |
| `Topology.UnderSplit` | include/gempba/utils/utils.hpp:70-86 | the ranks one call reaches are those of its next depth, its child, and those under that child, without overlap |
| `Topology.BuildTopology` | include/gempba/utils/utils.hpp:74-86 | terminates, never trips a throw of add_next, and builds exactly the default lists below its rank |
| `Topology.DefaultTopology` | include/gempba/utils/utils.hpp:74-86 | on an empty tree the center's call yields the default tree |
| `TreePrinting.PrintNode` | include/gempba/utils/tree.hpp:163-171 | writes the preorder listing of the node |
| `TreePrinting.EveryRankOnce` | include/gempba/utils/tree.hpp:154-162 | for every acyclic tree to_string prints every rank exactly once |
| `TreePrinting.PrintDefault` | include/gempba/utils/tree.hpp:154-171 | build_topology and then to_string: every rank once |
| `TreeReading.TextDeterminesTree` | include/gempba/utils/tree.hpp:154-171 | the text determines the tree: a line's parent is the nearest line above it with less indent, and the children of each rank stand in the order of its list |
| `TraceNode.Node.Prune` | include/gempba/detail/nodes/node_core_impl.hpp:542-553 | the node leaves its parent's children and loses parent and root |
| `TraceNode.Node.ShouldBranch` | include/gempba/detail/nodes/node_core_impl.hpp:389-422 | a remembered answer is repeated, a node that was forwarded, pushed or discarded says no, and otherwise the initializer is asked and its answer remembered |
| `TraceChain.LoweredGood` | private/impl/load_balancing/quasi_horizontal_load_balancer.hpp:386-417 | moving the root to its only child keeps the running path the leftmost chain from the thread root |
| `TraceChain.TakenGood` | private/impl/load_balancing/quasi_horizontal_load_balancer.hpp:203-234 | pruning a pending node anywhere on the chain keeps it |
| `TraceChain.SkippedGood` | private/impl/load_balancing/quasi_horizontal_load_balancer.hpp:71-87 | forwarding a node that was taken away keeps it |
| `TraceChain.EnteredGood` | include/gempba/detail/nodes/node_core_impl.hpp:268-275 | starting the next child keeps it, with the node still UNUSED |
| `TraceChain.ReturnedGood` | private/impl/load_balancing/quasi_horizontal_load_balancer.hpp:71-87 | pruning a finished node keeps it |
| `QuasiHorizontal.Balancer.TryCorrectRoot` | private/impl/load_balancing/quasi_horizontal_load_balancer.hpp:386-417 | lowers the root through single children: every level it passes hangs exactly one node, and it stops at the given node's limit or at a level that hangs another number |
| `QuasiHorizontal.Balancer.GetRootLevelPending` | private/impl/load_balancing/quasi_horizontal_load_balancer.hpp:315-352 | finds the second child of the thread root exactly when one waits there above the submitted node |
| `QuasiHorizontal.Balancer.TryPushRootLevel` | private/impl/load_balancing/quasi_horizontal_load_balancer.hpp:269-307 | pushes or discards that node and keeps executed plus delegated plus pending |
| `QuasiHorizontal.Balancer.PruneAndFix` | private/impl/load_balancing/quasi_horizontal_load_balancer.hpp:173-201 | prunes the submitted node and moves the root when it was alone there |
| `QuasiHorizontal.Balancer.Delegate` | include/gempba/detail/nodes/node_core_impl.hpp:268-302 | a node handed over ends as SENT_TO_ANOTHER_PROCESS or PUSHED, by its destination |
| `QuasiHorizontal.Balancer.Send` | private/impl/load_balancing/quasi_horizontal_load_balancer.hpp:203-267 | for every outcome of lock, pool and channel: pushes what hangs above first, then the submitted node, exactly as PushOrder.Sent says, all to the destination asked for; never throws "consumed"; conserves executed plus delegated plus pending work |
| `QuasiHorizontal.Balancer.Forward` | private/impl/load_balancing/quasi_horizontal_load_balancer.hpp:82-87 | runs the node unless it was taken or declined, prunes it and lowers the root, exactly as PushOrder.Forwarded says, and conserves |
| `QuasiHorizontal.Balancer.TryLocalSubmit` | private/impl/load_balancing/quasi_horizontal_load_balancer.hpp:89-95 | sends or forwards, the trace being that of the plan, and conserves; what it sends goes to the pool |
| `QuasiHorizontal.Balancer.TryRemoteSubmit` | private/impl/load_balancing/quasi_horizontal_load_balancer.hpp:97-106 | tries the transmission channel and then the local path, the trace being that of the plan, and conserves; sent means that all went to another process |
| `QuasiHorizontal.Balancer.RunBody` | tests/integration/leaf_count.hpp:42-54 | a body that creates its children, submits the first and forwards the rest executes or hands over all of them, in the order PushOrder.Body says |
| `QuasiHorizontal.RunTask` | include/gempba/detail/nodes/node_core_impl.hpp:268-302 | a whole task on one thread: what ran inline and what was handed over is exactly what the node stands for; every node taken out was the shallowest exactly if PushOrder.InOrder says so for tree and plan, and every node handed over likewise; and nodes go to the pool, or to another process, only if an attempt to send there is granted |
| `QuasiHorizontal.TurnsConserve` | private/impl/load_balancing/quasi_horizontal_load_balancer.hpp:203-307 | over any number of threads and processes, executed plus waiting stays what was expected |
| `QuasiHorizontal.EveryNodeOnce` | private/impl/load_balancing/quasi_horizontal_load_balancer.hpp:82-106 | when nothing waits any more, each node has been executed exactly once if it and all above it are accepted by their initializers, and never otherwise |
| `PushOrder.OrderExactly` | private/impl/load_balancing/quasi_horizontal_load_balancer.hpp:203-267 | for every tree, and both for all nodes that send takes out and for those it hands over: all outcomes of locks, pool and channel keep to the shallowest pending node first, if and only if no path of the tree leads astray |
| `PushOrder.HarmlessIsInOrder` | private/impl/load_balancing/quasi_horizontal_load_balancer.hpp:203-234 | a tree without such a path keeps the order under every plan |
| `PushOrder.LeavesLast` | private/impl/load_balancing/quasi_horizontal_load_balancer.hpp:203-234 | in such a run the submitted node leaves only when nothing shallower is pending, unless it is discarded and discarded nodes do not count |
| `PushOrder.Misled` | private/impl/load_balancing/quasi_horizontal_load_balancer.hpp:315-352 | a tree with such a path has a plan, built along it, that takes out, or hands over, a node past a shallower one |
| `PushOrder.WideIsHarmless` | private/impl/load_balancing/quasi_horizontal_load_balancer.hpp:315-352 | trees in which no node has exactly one child have no such path |
| `PushOrder.OnlyChildBreaks` | private/impl/load_balancing/quasi_horizontal_load_balancer.hpp:386-417 | an input on which the order is lost: an only child with at least two children, the first of which runs and has a child, worth running itself if only nodes handed over count |
| `PushOrder.SecondChildBreaks` | private/impl/load_balancing/quasi_horizontal_load_balancer.hpp:386-417 | another, in which the fork sits below the second of two children of the only child |
| `PushOrder.FirstChildKeeps` | private/impl/load_balancing/quasi_horizontal_load_balancer.hpp:386-417 | an only child below the first of two children does no harm |
| `PushOrder.OnlyDiscarded` | private/impl/load_balancing/quasi_horizontal_load_balancer.hpp:269-307 | an input that tells the two apart: if that child declines, it is discarded past a shallower node, but all nodes handed over keep the order |
| `CentralizedInvariant.AcceptedOk` | private/impl/schedulers/mpi_centralized_scheduler.hpp:390-412 | taking a task keeps the worker's single token, its deficit and its link |
| `CentralizedInvariant.CompletedOk` | private/impl/schedulers/mpi_centralized_scheduler.hpp:429-435 | finishing one does too |
| `CentralizedInvariant.ReleasedOk` | private/impl/schedulers/mpi_centralized_scheduler.hpp:359-363 | so does release_parent_if_passive |
| `CentralizedInvariant.QuietWhenPaid` | private/impl/schedulers/mpi_centralized_scheduler.hpp:600-610 | a worker the center waits for in no way is quiet and was counted available |
| `CentralizedRuns.NeverStuck` | private/impl/schedulers/mpi_centralized_scheduler.hpp:531-553 | with deficit 0 every worker is AVAILABLE, so any of them can be given any queued task |
| `CentralizedRuns.AtMostOne` | private/impl/schedulers/mpi_centralized_scheduler.hpp:684-707 | throughout, a worker has at most one unfinished task and m_nodes_available counts the AVAILABLE workers |
| `CentralizedRuns.TakeTerminationSafe` | private/impl/schedulers/mpi_centralized_scheduler.hpp:313-348 | the guard of process_termination never throws and the drain is exact |
| `CentralizedRuns.CollectSafe` | private/impl/schedulers/mpi_centralized_scheduler.hpp:862-905 | receive_solution_from never meets an unknown tag |
| `CentralizedRuns.StepSafe` | private/impl/schedulers/mpi_centralized_scheduler.hpp:193-257 | no step throws, and each keeps the invariant |
| `CentralizedRuns.TerminationIsSafe` | private/impl/schedulers/mpi_centralized_scheduler.hpp:571-610 | in every run nothing throws, and once the center has left its loop the queue is empty, every worker is quiet, and the finished tasks are as a bag the seed plus every task ever pushed |
| `CentralizedSolutions.SolutionsAreCollected` | private/impl/schedulers/mpi_centralized_scheduler.hpp:856-905 | when a run has come to its end, the center has taken exactly one solution of each worker, the one it handed in, in rank order |
| `CentralizedSolutions.CollectsPast` | private/impl/schedulers/mpi_centralized_scheduler.hpp:862-905 | reports in front of a solution are passed over, then the solution is taken and the next rank has its turn |
| `CentralizedNotices.NoticesArrive` | private/impl/schedulers/mpi_centralized_scheduler.hpp:374-388 | in every run a worker takes the center to be full exactly if the last fullness notice it took says so; notices are taken in the order sent, with the rest queued, and no score update is lost |
| `CentralizedDetection.SomethingArrives` | private/impl/schedulers/mpi_centralized_scheduler.hpp:571-610 | while the center waits and nobody works, some acknowledgement or report can be received, whatever is queued |
| `CentralizedDetection.SomethingGoesOn` | private/impl/schedulers/mpi_centralized_scheduler.hpp:600-606 | in every such state the run goes on: a receipt, or with deficit 0 the dispatch of a queued task |
| `CentralizedDetection.StepCloser` | private/impl/schedulers/mpi_centralized_scheduler.hpp:359-363 | every such receipt lowers 2 * engaged + messages on links, keeps the queue, and leaves nobody working or, with an empty queue, the center notifying |
| `CentralizedDetection.TerminationIsDetected` | private/impl/schedulers/mpi_centralized_scheduler.hpp:571-610 | while nobody works, receipts alone bring the center to deficit 0, and with an empty queue to its termination notices |
| `CentralizedCompletion.FinalKept` | private/impl/schedulers/mpi_centralized_scheduler.hpp:838-845 | after the loop a worker that was sent its notice has it until it takes it, and a finished worker's solution is there until it is collected |
| `CentralizedCompletion.SomethingFinishes` | private/impl/schedulers/mpi_centralized_scheduler.hpp:313-323 | until everything is collected a notice, the receipt of one, or, when no worker is in the loop any more, a solution or its collection is enabled |
| `CentralizedCompletion.FinishingCloser` | private/impl/schedulers/mpi_centralized_scheduler.hpp:838-845 | each of these lowers 2 * (notices left + workers to leave) + messages on links |
| `CentralizedCompletion.CompletionIsReached` | private/impl/schedulers/mpi_centralized_scheduler.hpp:571-615 | wherever a run stands once work has stopped, receipts and then the steps behind the barrier lead on until the center has collected every worker |
| `CentralizedDispatch.DispatchToAvailable` | private/impl/schedulers/centralized_utils.hpp:113-127 | one queued task to each available rank but the center, in rank order and highest priority first, until tasks or available ranks run out; states and queue change accordingly |
| `CentralizedDispatch.PriorityAdds` | private/impl/schedulers/centralized_utils.hpp:66-93 | every byte of the packet, and the low byte of the runnable id, adds its set bits to the priority |
| `CentralizedDispatch.SetBits` | private/impl/schedulers/centralized_utils.hpp:59-64 | the multiplication, mask and remainder of get_nb_set_bits count the bits that are set |
| `CentralizedDispatch.DispatchRuns` | private/impl/schedulers/mpi_centralized_scheduler.hpp:531-553 | what it hands out is a run of dispatch steps of the protocol |
| `CentralizedDispatch.ClearBufferProgress` | private/impl/schedulers/mpi_centralized_scheduler.hpp:600-606 | with deficit 0 and a non-empty queue, clear_buffer dispatches at least one task |
| `ClientOutbox.Ledger.PushGood` | private/impl/telemetry/client_outbox.hpp:36-42 | after a push lines are still in order and unique, the newest is kept, and what went out is unchanged |
| `ClientOutbox.Outbox.Push` | private/impl/telemetry/client_outbox.hpp:36-42 | drops the oldest unstarted lines beyond the capacity, never a started one and never the newest |
| `ClientOutbox.Outbox.Flush` | private/impl/telemetry/client_outbox.hpp:48-65 | terminates for every partial-write behaviour; what the client received is the stream; ends with an empty queue, a refusal or a failure |
| `ClientOutbox.ClientReadsWholeLines` | private/impl/telemetry/client_outbox.hpp:17-23 | a client that cuts its bytes at newlines reads whole pushed lines in order, and the start of at most one more |
| `SchedulerTimes.SchedulerClock.Accrue` | private/impl/telemetry/scheduler_clock.hpp:129-143 | adds the elapsed time to exactly the accumulators of the current mode |
| `SchedulerTimes.SchedulerClock.OnRunEnd` | private/impl/telemetry/scheduler_clock.hpp:29-36 | the event's effect on all fields |
| `SchedulerTimes.SchedulerClock.OnWorkerWaiting` | private/impl/telemetry/scheduler_clock.hpp:38-47 | the event's effect on all fields |
| `SchedulerTimes.SchedulerClock.OnWorkerRunning` | private/impl/telemetry/scheduler_clock.hpp:49-59 | the event's effect on all fields |
| `SchedulerTimes.SchedulerClock.OnAssignmentAccepted` | private/impl/telemetry/scheduler_clock.hpp:67-76 | the event's effect on all fields |
| `SchedulerTimes.FillIsTotal` | private/impl/telemetry/scheduler_clock.hpp:109-143 | for every log: fill, plus what starts inside a run threw away, is the sum over all microseconds |
| `SchedulerTimes.FillIsExact` | private/impl/telemetry/scheduler_clock.hpp:109-143 | a reported time equals its definition if and only if every start inside a run comes while that time does not accrue or in the microsecond of the last start or accruing event |
| `SchedulerTimes.SeparateRunsAreClean` | private/impl/telemetry/scheduler_clock.hpp:23-36 | runs that do not overlap are clean |
| `SchedulerTimes.RestartLoses` | private/impl/telemetry/scheduler_clock.hpp:23-27 | a log on which it fails: a start 5 microseconds into a running phase loses them |
| `SchedulerTimes.RunningPlusWaiting` | private/impl/telemetry/scheduler_clock.hpp:38-59 | by definition running plus waiting is the time in a run since its first worker event |
| `SchedulerTimes.ReportedTimes` | private/impl/telemetry/scheduler_clock.hpp:109-121 | so does what fill reports, when both times are free of losses |
| `SchedulerTimes.LatencyBounds` | private/impl/telemetry/scheduler_clock.hpp:67-76 | max <= total <= count * max after every log |
| `SchedulerHistory.ModeIs` | private/impl/telemetry/scheduler_clock.hpp:23-107 | for every log: run, phase, queue and fullness state are what the events in runs said last |
| `SchedulerHistory.MomentsAre` | private/impl/telemetry/scheduler_clock.hpp:23-107 | for every log: the first task, the last task and the last improvement are noted in milliseconds from the start of their run |
| `SchedulerHistory.LatenciesAre` | private/impl/telemetry/scheduler_clock.hpp:61-76 | for every log: a slot holds the last assignment not accepted since, and total, number and maximum are those of all latencies |
| `JsonText.EscapeQuoted` | src/telemetry/json_serializer.cpp:10-40 | the loop appends the quoted, escaped string |
| `JsonText.EscapedIsJson` | src/telemetry/json_serializer.cpp:9-38 | for every byte string the result is a JSON string by the grammar of section 7 of RFC 8259: no control byte, quote or backslash stays raw |
| `JsonText.Utf8IsWellFormed` | src/telemetry/aggregator_tcp_server.cpp:170-186 | for every code point but surrogates the bytes decode to it by section 3 of RFC 3629, in shortest form |
| `JsonText.FindFieldValue` | src/telemetry/aggregator_tcp_server.cpp:140-155 | the first match of the key, then past the blanks |
| `JsonText.FindStringField` | src/telemetry/aggregator_tcp_server.cpp:188-250 | the scanning loop computes the recursive reader, every refusal included |
| `JsonText.StringFieldUndoesEscape` | src/telemetry/aggregator_tcp_server.cpp:188-250 | for every byte string, what escape_quoted wrote behind the first match of the key is read back |
| `JsonText.UnicodeTextRead` | src/telemetry/aggregator_tcp_server.cpp:227-243 | the \u escape of every code point, surrogate pairs included, is read as its UTF-8 |
| `JsonText.NoStringThere` | src/telemetry/aggregator_tcp_server.cpp:188-192 | behind the key and blanks anything but a quote gives no string |
| `JsonText.EscapesAre` | src/telemetry/json_serializer.cpp:9-38 | the letters of the short escapes and the digits of the long ones |
| `JsonText.EscapeTable` | src/telemetry/aggregator_tcp_server.cpp:205-243 | the one-letter escapes are read as section 7 of RFC 8259 says, and all others refused |
| `JsonText.LoneSurrogateRefused` | src/telemetry/aggregator_tcp_server.cpp:227-243 | a surrogate without its partner is refused |
| `JsonText.FindUintField` | src/telemetry/aggregator_tcp_server.cpp:252-270 | returns the number in front if there is one and it fits 32 bits; giving up at the first prefix that does not fit is right |
| `JsonText.UintFieldUndoesPrint` | src/telemetry/aggregator_tcp_server.cpp:252-270 | undoes emit_u32, and rejects every number from 2^32 on that emit_u64 prints |
| `TopologyCodec.Buffer.SerializeNodeTopology` | src/telemetry/topology_builder.cpp:437-453 | the pushes append the encoding |
| `TopologyCodec.NodeLayout` | src/telemetry/topology_builder.cpp:437-442 | where each field of a node stands in the bytes, and how wide it is |
| `TopologyCodec.SocketLayout` | src/telemetry/topology_builder.cpp:443-453 | the same for a socket and its CPU ids |
| `TopologyCodec.PutBytes` | src/telemetry/topology_builder.cpp:347-366 | the k-th byte written is the number divided by 256^k, modulo 256 |
| `TopologyCodec.ByteReader.Uint` | src/telemetry/topology_builder.cpp:389-422 | shifting byte by byte yields the little-endian number; an overrun latches and reads zero |
| `TopologyCodec.DeserializeNodeTopology` | src/telemetry/topology_builder.cpp:455-477 | the loops compute the recursive decoder |
| `TopologyCodec.DecodeEncode` | src/telemetry/topology_builder.cpp:437-477 | decoding undoes encoding and uses every byte, for every node whose sockets and CPU ids the counts can hold; texts are clipped to their first 65535 bytes |
| `TopologyCodec.PrefixRejected` | src/telemetry/topology_builder.cpp:375-387 | every strict prefix of an encoding is rejected |
| `TopologyCodec.CursorStaysInside` | src/telemetry/topology_builder.cpp:375-477 | for arbitrary bytes reading ends with the cursor inside them |

## Left out

- TASK with RUNNABLE_ID, and the two messages of HAS_RESULT, are one message each: the receiver takes both parts in one go.
- An MPI_Send is taken as buffered, so the sender goes on at once. The barrier behind TERMINATION and the synchronous sends of the seed, the first helper lists and the score proposals do block; the barriers before the protocol starts and after the last solution have nothing to order here.
- A received task is handed to one pool thread; which threads then join and leave the pool is arbitrary, and what they compute is not modelled.
- Integers are unbounded: counters, ranks and microseconds do not wrap, and the size limit of `send_task` is not modelled.
- Empty packets: `force_push` refuses them before anything happens, and `try_update_result` is only modelled with packets that are not empty.
- `set_custom_initial_topology`, `add_next` of a node to itself, and `build_topology` with more than two children per node.
- Floating-point scores. All scores of a run have one integer kind; only the comparison with `result::EMPTY` mixes kinds.
- The center's queue is a bag whose top is any task of the highest priority. Its comparator calls equal keys less, which `std::priority_queue` does not allow; what that could break in a standard library is not modelled.
- The centralized scheduler's score values and best solution: only the messages are modelled. Whether the center is full is a free choice.
- `m_nodes_available` and `m_nodes_running` of the semi-centralized center, which steer nothing.
- The MPI truncation error for a helper list longer than the buffer is a throw in `SemiScores`, proved not to happen.
- Semi-centralized center as one object: `SemiCenter.Center` covers its handlers; the loop that picks a message is the choice of the next action in a run.
- Locks, a full pool and the transmission channel are answers of a plan to each attempt to send; data races of the unlocked `forward` path between threads are outside, because a tree belongs to one thread.
- A delegated node runs elsewhere as a task of its own; results, futures and the RETRIEVED state are not modelled.
- The order in which several threads' pushes reach the pool or the scheduler.
- The work-stealing balancer, a simpler case of the same heap.
- `string_view::find` is a function, not a loop; the float and null forms of the serializer are not modelled.
- An empty line in the outbox waits at the front until it is dropped, because a send of no bytes takes none; the server pushes none.
- The sentinel of `m_assigned_at` is an option, so the time 2^64 - 1 is a time like any other.
- Encodings of nodes with more than 65535 sockets, or sockets with more than 2^32 - 1 CPU ids: the counts wrap as in the code, but nothing is proved about reading them back.
- MPI itself, sockets, threads, clocks, logging, statistics, memory probes and the telemetry transports.
