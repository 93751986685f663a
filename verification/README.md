# Verified model of the durable workflow engine

This project models the engine of `pkg/workflow` in Dafny and proves properties of the model: the DAG executor with its
checkpoints, crashes and resumes, the checks a graph passes when it is built, saga rollback, the fan-out pool, the drive
lease, cron and schedule arithmetic, signals with timeouts, and the small algorithms around them. `dafny verify
dfyconfig.toml` checks everything.

How the model is laid out:

* `Graph` has nodes, dependency edges and walks. `CycleSearch`, `Kahn` and `Dag` hold the cycle search, the level lists
  and the flat order, as methods of a class over the graph. `Boundary`, `Reconvergence` and `Builder` hold the checks of
  the build; `Rings` has the nodes above a node by distance.
* `Gate` holds the launch gate: the decision about one node, and every method that writes node statuses. `Executor` is
  the drive as a state machine. Its steps are launching or classifying the node at the cursor, marking a branch entry,
  finishing or parking a node, a fan-out's mid-level checkpoint, the barrier, cancellation, a crash, and the start of
  the next drive. A run is any sequence of enabled steps, so every schedule, checkpoint outcome and crash point is one.
  `ExecutorSafety`, `ExecutorRuns`, `Gating`, `Exits`, `Divergences` and `MidLevelParks` are about all runs.
* `Declared` gives every node the status that the graph and the actions' results declare. `Deviations` bounds what a run
  may do instead, `Sequential` builds the run that does as declared, and `Sweeps`, `StrayRuns`, `SweepAgreement`,
  `Frontier` and `AgreementRuns` say when all runs do. `ContestedRuns`, `DiamondRuns` and `FlushRuns` are three plans
  that the build accepts and whose runs disagree, each for another reason.
* `Saga`, `FanOut`, `Lease` and `FirstOf` are state machines of the same kind, with the code's own methods beside them.
  `FanOutSafety` and `FanOutRuns` are about the pool of a fan-out node, `Expansion` about the item lists of a level and
  `FanIn` about a fan-out's result. `FirstOfSafety` and `FirstOfRuns` are about a first-of node beside the fan-outs of
  its level.
* `Arithmetic`, `Calendar`, `Cron`, `CronParse`, `Intervals` and `Schedules` are about time; `Signals` is the mailbox
  and the first-of(signal, timer) action; `ActionSnapshot`, `GroupCommit` and `JsonDepth` are one algorithm each.
  `Names`, `Sets` and `Wrappers` are shared.

What an action does is an oracle: which nodes fail, and what each choice's predicates say. Whether a suspension
parks is left open at every encounter. A store write is one atomic step that may fail. Iteration over a Go map is an
arbitrary choice at each turn. Every checkpoint outside `Expansion` is taken to write the whole run data.

Seven statements of the code's own comments or documentation are false, and the model says exactly when each holds:

* A terminal status is not a function of the graph and the actions' results. A failure swept before a choice reports
  leaves the nodes behind a branch entry Skipped in one run and Bypassed in another (`ContestedRuns.SchedulesDisagree`),
  and the failure need not be behind those nodes (`DiamondRuns.UnrelatedFailureDisagrees`). A run can only skip what is
  declared otherwise (`Deviations.OnlySkipsDeviate`), some run always does as declared (`Sequential.DeclaredIsRealised`),
  and all runs agree exactly if no barrier sweeps a node astray (`SweepAgreement.AgreeIffNoBarrierStrays`). Unless some
  level has a fan-out that runs, a choice that completes and a hard failure, with snapshots and two slots, this is
  decided by the plan and the oracle before any run (`AgreementRuns.FinishedRunsAgreeIff`);
  `FlushRuns.CheckpointDisagrees` shows what such a level adds.
* A node may be persisted Waiting by a drive that does not suspend. It happens exactly if snapshots are taken and a level
  has a suspension and a fan-out that both run, with two slots or the suspension first in name order
  (`MidLevelParks.WaitsUnsuspendedIff`).
* A first-of node's durable deadline can move, and a completed one can show both arms. The deadline stays exactly if the
  node runs alone, or no fan-out comes after it in name order and at most one can still be open when it is launched
  (`FirstOfRuns.AlwaysKeepsDeadlineIff`); for the arms no sender may also reuse a signal ID under another name
  (`FirstOfRuns.OneArmIff`).
* A signal that is acknowledged need not be the one that was applied. An acknowledgement removes by ID, so the payload it
  removes is durable exactly if no sender delivers the taken ID again with another payload
  (`FirstOfRuns.NothingLostIff`).
* "Exactly the taken branch runs" fails for a branch entry whose name is empty (`Divergences.NotTakenIsBypassedIff`).
* "The item list is durable before the first branch" fails for a fan-out that is itself retried, for a store that batches
  its checkpoints, and, where a checkpoint writes only what changed since the last one, for two fan-outs of one level that
  may run at once: one drains the other's journal. It holds of every other level (`Expansion.DurableBeforeBranchesIff`).
* The cron and interval arithmetic is right up to 64-bit limits only: a step close to 2^63 wraps back into its field
  (`CronParse.SetBitsRightIff`), an interval that starts before 1970 never advances (`Intervals.AdvanceRightIff`), and
  a cron instant beyond the 64-bit range does not move past now (`Schedules.NextFirePassesNowIff`, and
  `Schedules.CronOverflowHappens` for a row that it happens to).

## Model

| member | source | states |
|---|---|---|
| Graph.LevelIsLongestPathDepth | pkg/workflow/dag.go:389-456 | a leveling puts each node at the length of the longest dependency path that ends in it: some walk is that long and none is longer |
| Graph.LevelingIsAcyclic | pkg/workflow/dag.go:389-456 | a graph that can be leveled has no cycle |
| CycleSearch.ClosingWalkIsCycle | pkg/workflow/dag.go:322-385 | a reported node list that closes on itself is a real cycle of the graph |
| CycleSearch.FinishOrderIsAcyclic | pkg/workflow/dag.go:322-385 | a depth-first finish order in which dependencies come first excludes every cycle |
| Dag.DAG.DetectCycle | pkg/workflow/dag.go:365-385 | found: the report is a dependency walk from the node into the open path; not found: the node and all below it are finished and the frontier invariant holds; terminates on unvisited nodes |
| Dag.DAG.Validate | pkg/workflow/dag.go:322-362 | succeeds exactly on acyclic graphs; otherwise cycleNodes is a real dependency walk whose last node occurs earlier in it |
| Dag.DAG.ReverseEdges | pkg/workflow/dag.go:389-425 | the dependents map inverts the dependency lists with multiplicity, in-degrees count entries, the queue is the roots |
| Dag.DAG.ReleaseDependents | pkg/workflow/dag.go:425-445 | taking one node off the queue keeps the in-degree count, the levels so far and the highest level exact, duplicate edges included |
| Dag.DAG.GetLevels | pkg/workflow/dag.go:389-456 | on every acyclic graph each node is in exactly the level of its longest-path depth, levels are sorted by name and none is empty |
| Dag.DAG.TopologicalSort | pkg/workflow/dag.go:466-516 | errs exactly on a cyclic graph, with a real cycle; otherwise a dependency-respecting permutation that takes the least ready name each time |
| Kahn.GreedyIsLeast | pkg/workflow/dag.go:458-516 | the greedy order is lexicographically least among all dependency-respecting permutations |
| Kahn.AcyclicHasSource | pkg/workflow/dag.go:389-456 | every non-empty set of nodes of an acyclic graph has a node that depends on none of it, so the queue never runs dry early |
| Kahn.CountReachesAll | pkg/workflow/dag.go:425-456 | an exact in-degree count with an empty queue means that every node was taken |
| Kahn.NoEmptyLevel | pkg/workflow/dag.go:445-456 | every level up to the highest has a node |
| Boundary.ReachAvoiding | pkg/workflow/boundary.go:335-379 | with one shared seen set the search returns none exactly when no path avoids the node, and otherwise a genuine avoiding path |
| Boundary.Successors | pkg/workflow/boundary.go:306-322 | the successor map is exactly the forward edges |
| Boundary.RootNames | pkg/workflow/boundary.go:324-333 | exactly the nodes without dependencies |
| Boundary.ValidateBoundary | pkg/workflow/boundary.go:157-302 | accepts exactly when, by walks of the graph, nodes exist and differ, actions are eligible, the verifier may not pass on failure, the sink is no root, a walk leads from the doer to it, and every walk from a root to it contains the verifier; a refusal names its real reason and path |
| Boundary.ValidateBoundaries | pkg/workflow/boundary.go:137-155 | accepts exactly when every declaration holds; otherwise refuses one that does not, with its reason |
| Reconvergence.NearestBranch | pkg/workflow/reconvergence.go:49-69 | the breadth-first queue with its visited map finds the branch whose entry is the fewest edges away: no walk from any entry of any choice is shorter, and of entries as near it is the first in the order of the dependency lists; none exactly if no entry leads to the node |
| Reconvergence.FoundIsNearest | pkg/workflow/reconvergence.go:40-69 | the recursive specification of the climb finds that nearest entry too |
| Rings.RingIsClimbs | pkg/workflow/reconvergence.go:49-69 | the nodes that the climb meets in its d-th round are exactly the starts of the walks of d edges |
| Reconvergence.NearestIsOnly | pkg/workflow/reconvergence.go:49-69 | a node has at most one nearest branch, and that is the one found |
| Reconvergence.NearestChoiceIsAncestor | pkg/workflow/reconvergence.go:36-69 | the choice found is a proper ancestor of the tail, by way of the entry returned with it |
| Reconvergence.NearestBranchExists | pkg/workflow/reconvergence.go:49-69 | a branch is found exactly when some choice has an entry that leads to the node |
| Reconvergence.ValidateReconvergence | pkg/workflow/reconvergence.go:74-186 | succeeds exactly on graphs whose nodes are all well shaped, by nearest branches, and then adds exactly the merge-to-choice edges; otherwise the error names a node that really has the shape it is refused for |
| Reconvergence.AcceptedShapes | pkg/workflow/reconvergence.go:74-163 | accepted exactly if no node is an entry of two choices, every merge tail is no choice and lies, by its nearest branch, under one and the same choice, and no other node depends on different branches of one choice |
| Reconvergence.AppendedIs | pkg/workflow/reconvergence.go:155-186 | a merge gets, at the end of its list, the choice its tails are nearest to unless it had it; kinds, settings and all other nodes stay |
| Reconvergence.SourceChoicesKeepAncestors | pkg/workflow/reconvergence.go:165-186 | the appended edges leave the ancestor relation and acyclicity unchanged |
| Reconvergence.SourceChoicesKeepLevels | pkg/workflow/reconvergence.go:165-186 | the appended edges leave every node's level unchanged |
| Builder.FoldEdges | pkg/workflow/builder.go:594-700 | folding generated choice and merge edges resolves every endpoint or reports a recorded edge that names no node |
| Builder.Build | pkg/workflow/builder.go:594-865 | returns a graph exactly when one can be certified: names resolve, the graph is acyclic and structured, the appended edges are the source choices, and every boundary holds of the final graph; otherwise the error names a clash, an unknown name, a cycle, a shape or a boundary that is really there |
| Builder.CertifiedOnce | pkg/workflow/builder.go:594-865 | a definition certifies at most one graph |
| Builder.CertifiedGraph | pkg/workflow/builder.go:780-865 | a certified graph is closed and acyclic and each routing arm and merge tail has its edge |
| Builder.CertifiedNodes | pkg/workflow/builder.go:619-865 | each declared node is in the certified graph with its kind and its continue-on-error, its declared dependencies first, then its generated ones, and at most its source choice after them; it has exactly these, and the graph no other nodes |
| Builder.IntoInOrder | pkg/workflow/builder.go:619-645 | generated dependencies come one for each edge into the node, in the order in which the edges were recorded |
| Gate.WorkflowData.ClassifyBlockedStatus | pkg/workflow/parallel_execution.go:338-368 | the scan without early exit computes the blocked status from all causes: a failed or skipped dependency wins, then an undecided one, then a mixture |
| Gate.WorkflowData.DecideNode | pkg/workflow/parallel_execution.go:86-162 | the launch loop's early exit and OR-join count reach the gate's verdict, which `Gate.DecideByStatus` states by dependency statuses |
| Gate.DecideByStatus | pkg/workflow/parallel_execution.go:86-162 | all four verdicts by dependency statuses: launched exactly if each dependency ran, or of a merge was bypassed, and of a merge a recorded tail ran; a resolved merge is Bypassed exactly if every recorded tail was; Skipped exactly on a hard failure, a skip, or, of a node that is no merge, a mixture of bypassed and run; else it waits |
| Gate.BlockedByStatus | pkg/workflow/parallel_execution.go:338-368 | which blocked status the statuses of the dependencies imply, and none otherwise |
| Gating.ExecutedHasItsInputs | pkg/workflow/parallel_execution.go:106-162 | in every reachable state and snapshot an executed node has only dependencies that are Completed, or Failed with continue-on-error, or of a merge Bypassed, and of a merge a recorded tail that is Completed or Failed with continue-on-error |
| Gate.WorkflowData.ExecuteNode | pkg/workflow/node.go:238-326 | a node ends Completed, Waiting or Failed: Waiting exactly for a park of a suspension, Completed exactly for a nil return with no forged write; no other status changes |
| Gate.WorkflowData.InitStatuses | pkg/workflow/dag.go:679-696 | before the first level exactly the nodes that are neither terminal nor Waiting become Pending |
| Gate.WorkflowData.ClearWaiting | pkg/workflow/dag.go:862-888 | every Waiting status becomes Pending and nothing else changes |
| Gate.WorkflowData.MarkSkippedFrom | pkg/workflow/dag.go:888-911 | the sweep decides each later node from what the sweep made of the nodes before it |
| Gate.WorkflowData.BypassExcept | pkg/workflow/choice.go:71-89 | marks exactly the branch entries other than the taken one and other than an empty name, once each |
| Gate.WorkflowData.Choose | pkg/workflow/choice.go:43-66 | the first arm that holds is taken, else the fallback; with neither it fails and marks nothing |
| Gate.RouteIsFirst | pkg/workflow/choice.go:43-66 | the route is the first arm whose predicate holds, the fallback exactly if none does, and none exactly without either |
| Executor.MarksAre | pkg/workflow/choice.go:68-89 | a choice marks exactly its entries other than the taken one and other than an empty name, and none without a taken one |
| Executor.DecideReadsDeps | pkg/workflow/parallel_execution.go:86-162 | the gate's verdict depends on the statuses of the node's dependencies only |
| Executor.LaunchNeedsSettled | pkg/workflow/parallel_execution.go:288-304 | a node launches only when every dependency is Completed, Failed or Bypassed, statuses that never change again |
| Executor.AdvancingIsSound | pkg/workflow/parallel_execution.go:86-256 | a write that keeps settled statuses and runs only launchable nodes keeps every recorded execution justified by its dependencies |
| ExecutorSafety.EntryWaitsForChoice | pkg/workflow/choice.go:43-89 | while a choice runs no branch entry it will bypass has started |
| ExecutorSafety.SweepIsSound | pkg/workflow/dag.go:888-911 | a sweep only blocks nodes that are not terminal and keeps every recorded execution justified |
| ExecutorSafety.SoundStep | pkg/workflow/dag.go:690-841 | every step of a drive keeps live data and snapshot sound |
| ExecutorSafety.ShapeStep | pkg/workflow/parallel_execution.go:77-256 | every step keeps live, parked and failed nodes those of the current level, Running exactly the live ones, within the bound |
| ExecutorRuns.DecidesWhenTerminal | pkg/workflow/parallel_execution.go:338-368 | with every dependency terminal and none compensated the gate always decides |
| ExecutorRuns.InvariantStep | pkg/workflow/dag.go:690-841 | soundness, recorded runs, the journal, durable waits and progress are kept by every step, crashes and resumes included |
| ExecutorRuns.ReachableInvariant | pkg/workflow/dag.go:690-841 | they hold in every reachable state of every run |
| Gating.AcceptedBoundaryGates | pkg/workflow/boundary.go:157-302 | if the build accepts (doer, verifier, sink), in every reachable state of every run the sink is launched only when the verifier is Completed |
| Gating.SinkRanAfterVerifier | pkg/workflow/boundary.go:157-302 | whenever memory or a snapshot records that the sink ran, it records the verifier Completed |
| Gating.RouteToLaunch | pkg/workflow/parallel_execution.go:106-162 | a launchable node is backed by executed dependencies all the way to a root |
| Gating.NotTakenBranchNeverRuns | pkg/workflow/choice.go:68-89 | in any run no node reached by a merge-free path from an entry its choice marks ever executes |
| Gating.EntryHasOneChoice | pkg/workflow/reconvergence.go:74-130 | in an accepted graph a branch entry belongs to one choice |
| Gating.ConcurrencyBound | pkg/workflow/parallel_execution.go:63-84 | at most MaxConcurrency nodes are live, and none between levels or after a return |
| Gating.SettledIsFinal | pkg/workflow/parallel_execution.go:86-104 | a status a snapshot settled is never launched again and never changes, whatever the events |
| Gating.DurablyCompletedNeverReruns | pkg/workflow/parallel_execution.go:86-104 | a node Completed in the durable snapshot is never executed again |
| Gating.ResultsAreReal | pkg/workflow/node.go:238-326 | Completed or Failed, live or durable, means that the node really ran and that this is its action's own result |
| Gating.WaitingMeansSuspended | pkg/workflow/dag.go:659-680 | a drive leaves a node Waiting exactly when it suspended, and then the snapshot is the live data |
| Gating.FinishedMeansTotal | pkg/workflow/dag.go:829-841 | a drive that returns nil has brought every node to a terminal status |
| Exits.ExitsAreRanked | pkg/workflow/dag.go:739-841 | why a drive returned, in every reachable state: cancellation outranks a hard failure, which outranks a park, which outranks the store; suspended only by a suspension that parked, and nil only without a failure and a park |
| Exits.FailureEndsTheDrive | pkg/workflow/dag.go:739-779 | a failure without continue-on-error is remembered until its drive is over, and no further level is entered |
| Exits.CheckpointSurvives | pkg/workflow/dag.go:739-841 | after a crash right behind a checkpoint the next drive starts with every terminal or Waiting status as it was; nothing but a checkpoint changes the snapshot |
| Declared.DeclaredIsTerminal | pkg/workflow/parallel_execution.go:86-162 | the recursive definition gives every node a terminal forward status |
| Declared.UncontestedDecidesRight | pkg/workflow/parallel_execution.go:338-368 | on an uncontested node whatever the gate decides from part of the picture is what the whole picture declares |
| Declared.ContestedDecidesWrong | pkg/workflow/parallel_execution.go:338-368 | on a contested node some partial view makes the gate skip what is declared Bypassed |
| Declared.EarlyDecisionsHoldIff | pkg/workflow/parallel_execution.go:306-368 | early decisions are never wrong at a node exactly if it is not a not-taken entry that also depends on a declared failure |
| Declared.AgreesStep | pkg/workflow/dag.go:690-841 | every step keeps terminal statuses of uncontested nodes equal to the declared ones, in memory and on disk |
| Declared.TerminalIsDeclared | pkg/workflow/dag.go:690-841 | in every reachable state a terminal status of an uncontested node, live or durable, is the declared one |
| Declared.FinishedRunsAgree | pkg/workflow/dag.go:690-841 | any two drives that return nil agree, as declared, on every node whose dependencies are uncontested, a contested branch entry included |
| Declared.StandAloneIsUncontested | pkg/workflow/choice.go:136-169 | if every branch entry depends on its choice alone, no oracle contests any node |
| Deviations.OnlySkipsDeviate | pkg/workflow/dag.go:690-841 | in every reachable state of every plan a terminal status, live or durable, is the declared one or Skipped, and only nodes declared to run have started |
| Sequential.DeclaredIsRealised | pkg/workflow/dag.go:690-841 | for every plan and oracle some run returns nil with every status as declared, and its snapshot says so |
| Sweeps.SweepEffect | pkg/workflow/dag.go:888-911 | the sweep in closed form: it leaves the levels behind it alone and decides each open node ahead from what it leaves of that node's dependencies |
| Sweeps.SweepByStatus | pkg/workflow/dag.go:888-911 | what a sweep leaves of an open node ahead, by the statuses it leaves of the dependencies: Skipped, Bypassed or as it was |
| SweepAgreement.AgreeIffNoBarrierStrays | pkg/workflow/dag.go:770-792 | for every plan all drives that return nil agree on every node exactly if no run comes to a barrier whose sweep skips for good a node declared otherwise |
| StrayRuns.StraySweepDisagrees | pkg/workflow/dag.go:770-792 | if the plan and oracle admit a sweep that leads astray, two drives return nil and disagree: one as declared, one with a node Skipped that is declared otherwise |
| Frontier.SweepBounded | pkg/workflow/dag.go:888-911 | what a sweep settles from any partial picture of a drive, a sweep of all that can be known there settles too |
| AgreementRuns.FinishedRunsAgreeIff | pkg/workflow/dag.go:690-841 | without snapshots, with one slot, or if no level has a fan-out that runs, a choice that completes and a hard failure, all drives that return nil agree on every node exactly if no place of a level behind a hard failure has a sweep that leads astray, a condition on plan and oracle alone; agreement implies it for every plan |
| ContestedRuns.SchedulesDisagree | pkg/workflow/dag.go:770-792 | one plan that the build accepts, one oracle, and two runs that return nil, "z" Skipped in one and Bypassed in the other, in memory and on disk |
| DiamondRuns.UnrelatedFailureDisagrees | pkg/workflow/dag.go:770-792 | runs of an accepted plan disagree although its only failing node has no dependents |
| FlushRuns.CheckpointDisagrees | pkg/workflow/fanout.go:781-785 | runs of an accepted plan without a straying sweep disagree, because a fan-out checkpoints a failure while a choice of its level has not reported |
| Divergences.PersistedWaitingIff | pkg/workflow/dag.go:659-671 | a step first persists a Waiting status exactly if it is a suspending barrier or a fan-out's mid-level checkpoint with a parked sibling |
| MidLevelParks.WaitsUnsuspendedIff | pkg/workflow/dag.go:659-671 | some run persists Waiting without suspending exactly if snapshots are taken and a level has a suspension and a fan-out both declared to run, with two slots or the suspension first |
| Divergences.EmptyNamedEntryRuns | pkg/workflow/choice.go:71-89 | a run of a plan that the build accepts in which the not-taken entry with the empty name executes |
| Divergences.NotTakenIsBypassedIff | pkg/workflow/choice.go:71-89 | once a choice completed, an entry it did not take, no merge, is Bypassed in every run exactly if its name is not empty |
| Divergences.ReachableCause | pkg/workflow/parallel_execution.go:338-368 | in every run a node that is no merge is Bypassed only because a choice routes away from it or because all its dependencies are Bypassed |
| Saga.StartsAfterDescendants | pkg/workflow/saga_rollback.go:87-116 | a node gets its turn, and its compensation is called, only if it was Completed at the trigger and declares one, and only after every such descendant is undone or recorded as failed |
| Saga.SnapshotsUndoDescendantsFirst | pkg/workflow/saga_rollback.go:151-172 | every durable snapshot has a node undone only with its owed descendants undone |
| Saga.DurablySettledNeverReruns | pkg/workflow/saga_rollback.go:155-172 | once a snapshot records an undo result, that compensation is never called again and the result never changes, over any crashes and saves |
| Saga.UndoIsReal | pkg/workflow/saga_rollback.go:318-407 | a recorded undo result belongs to an owed node; a compensated one was really called, and one recorded as failed was too unless the rollback has a deadline; every other status stays as it was at the trigger; concurrency is bounded |
| Saga.UncalledFailureIff | pkg/workflow/saga_rollback.go:366-407 | some run durably records a node as failed to be compensated without ever calling its compensation exactly if the node is owed an undo and the rollback has a deadline |
| Saga.PartitionIsExact | pkg/workflow/saga_rollback.go:190-235 | when the drive is over, compensated, failed and skipped are disjoint and cover exactly the nodes Completed at the trigger |
| Saga.InvariantStep | pkg/workflow/saga_rollback.go:118-174 | the order, the trigger statuses, the bound and the record of invocations are kept by every step |
| Saga.Workflow.HasPendingCompensation | pkg/workflow/saga_rollback.go:176-189 | true exactly if some compensable node is Completed |
| Saga.Workflow.CompensateLevel | pkg/workflow/saga_rollback.go:318-353 | exactly the nodes of the level that are Completed and declare a compensation become Compensated, or CompensationFailed when they have a fault, and the outcome gains exactly those turns and the Completed nodes that declare none |
| Saga.Workflow.DriveRollback | pkg/workflow/saga_rollback.go:118-174 | the reverse pass equals undoing all pending nodes at once; its outcome is the exact partition with the faults raised; the snapshot is that of the earliest level whose save succeeded, with the pending nodes of that level and later ones undone and no others, and stays as it was if none did; a failed save is remembered |
| Saga.Workflow.ReconstructOutcome | pkg/workflow/saga_rollback.go:191-235 | the three sorted lists hold exactly the nodes of the statuses they report, with this pass's fault or the recovered placeholder |
| Saga.Workflow.Rollback | pkg/workflow/saga_rollback.go:118-235 | the report of a first or resumed rollback, by the statuses it began with: compensated before or now, failed before or with a fault now, and skipped exactly if Completed without a compensation; sorted, with the faults of this pass as raised and earlier ones as recovered |
| Saga.RunCompensationWithRetry | pkg/workflow/saga_rollback.go:366-407 | nil exactly if some attempt succeeded with only retried failures before it, or if retryCount is negative; no call at all exactly if the deadline had passed before the first, and then it is that error; the call count is bounded and the error is the last one |
| FanOutSafety.InvariantStep | pkg/workflow/fanout.go:430-487 | each index is in exactly one place, only driven indices have results, and the context is done for a reason |
| FanOutRuns.BoundedAndOnce | pkg/workflow/fanout.go:413-487 | at most min(n, cap) branches are live, the cap being the configured one or 16; below it a queued index can be taken; no index is driven twice |
| FanOutRuns.DrivesIff | pkg/workflow/fanout.go:430-487 | a worker drives its index exactly while the caller is not cancelled and, failing fast, no index has ended with an error; else it skips it |
| FanOutRuns.EveryIndexEnds | pkg/workflow/fanout.go:445-487 | after the join every index has an outcome, an undriven one an error; CollectPartial drives all; a fail-fast pool that left one undriven holds the failure of a branch that ran |
| FanIn.FanInIsHonest | pkg/workflow/fanout.go:489-560 | failing fast never masks a failure by a cancelled sibling, and a cancellation is reported only if a branch that ran returned one; the failed list is exactly the driven branches that failed |
| FanIn.FirstCause | pkg/workflow/fanout.go:505-525 | none exactly if all succeeded, else the first error that is not and does not match the cancellation sentinel, else the first error |
| FanIn.ParentData.FanIn | pkg/workflow/fanout.go:489-675 | a cancelled caller wins and writes nothing, then the root cause, else the results are keyed unless a key holds a foreign value |
| FanIn.ParentData.KeyResults | pkg/workflow/fanout.go:527-675 | completes exactly if no key is foreign, and then writes exactly the successes, the count and the failed list |
| FanIn.WrittenIs | pkg/workflow/fanout.go:527-675 | a completed fan-in has each success under its index, the count, and, collecting partial results, exactly the failing indices in increasing order; every other key is as it was |
| FanIn.ForeignIs | pkg/workflow/fanout.go:527-675 | a key refuses the fan-in exactly if it holds another value than the success at its index, or, collecting partial results, a failed list that is not the one of this run |
| FanIn.KeyedIsExact | pkg/workflow/fanout.go:527-640 | a success has its result under its own index and no other key is touched |
| FanIn.FailingIsExact | pkg/workflow/fanout.go:535-545 | the failed list is the failing indices in increasing order |
| FanIn.ReapplyingChangesNothing | pkg/workflow/fanout.go:527-535 | completing a second time finds its own keys, refuses nothing and changes nothing |
| Expansion.ExpandedOnce | pkg/workflow/fanout.go:705-787 | once durable, the journal of a fan-out never changes over crashes, retries and checkpoints of it and its siblings, and every later pool of it runs over its items; a later attempt reads it back and runs exactly if it is within the configured width, or 1024 by default |
| Expansion.DurableBeforeBranchesIff | pkg/workflow/fanout.go:711-787 | no branch of any fan-out of a level ever starts before its item list is durable exactly if no fan-out of the level is retried, the store writes every checkpoint (K at most 1), and it writes the whole run data or the level has one slot or one fan-out |
| Lease.OneHolderPerId | pkg/workflow/lease.go:74-119 | at most one thread holds a workflow ID at any time, over cancellation, deletion and re-creation of entries |
| Lease.RegistryIsExact | pkg/workflow/lease.go:74-119 | the map holds exactly the IDs some thread holds or waits for, and refs is the number of those threads |
| Lease.TakenMeansHeld | pkg/workflow/lease.go:93-112 | a thread that cannot take the lease waits for another thread that holds it |
| Lease.FirstTryTakesIff | pkg/workflow/lease.go:85-112 | the first try takes the lease exactly if no thread holds the ID; otherwise the thread waits and may be cancelled |
| Lease.FailedClaimReleases | pkg/workflow/claim_locker.go:127-141 | after a failed outer claim the thread's own steps free the slot and give back its reference |
| Lease.ReleaseIsNeverBlocked | pkg/workflow/claim_locker.go:127-141 | whatever the other threads do, a thread that gives its lease back is never blocked or moved by them, and its last step unregisters the ID exactly if nobody else uses it |
| Lease.IdleMeansEmpty | pkg/workflow/lease.go:43-49 | with every thread out of the lock the map is empty |
| Lease.InvariantStep | pkg/workflow/lease.go:74-119 | registration, counting and exclusion are kept by every step of every thread |
| Lease.Serve | pkg/workflow/lease.go:74-119 | over any interleaving of any number of threads the registry's code, one critical section at a time, is in the machine's state, so every statement above holds of it |
| Calendar.DateOfDayNumber | pkg/workflow/cron.go:208-219 | a date's day number gives the date back, under the Gregorian leap rule |
| Calendar.DayNumberOfDate | pkg/workflow/cron.go:208-219 | a day's date gives the day number back |
| Calendar.NextDay | pkg/workflow/cron.go:227-243 | the date of the next day by the month lengths and the leap rule, and its weekday one more modulo 7 |
| Calendar.EpochIsThursday | pkg/workflow/cron.go:227-243 | 1970-01-01 is day 4 of the week |
| Calendar.LeapWithinEight | pkg/workflow/cron.go:195-202 | after any year a leap year follows within eight, across a century that is none |
| Cron.MatchingDayAhead | pkg/workflow/cron.go:195-202 | a schedule some calendar day satisfies has a matching day within nine years of any day, under the union rule of the two day fields |
| Cron.FiresWithinHorizon | pkg/workflow/cron.go:195-202 | a schedule some real minute satisfies fires within the horizon, wherever the search starts |
| Cron.Next | pkg/workflow/cron.go:204-225 | the least whole minute strictly after the input whose minute, hour and month are allowed and whose day is: either of the two day fields when both are restricted, the restricted one when one is, any when none is; no fire is reported exactly of schedules no minute satisfies |
| Cron.MatchesByFields | pkg/workflow/cron.go:208-243 | a minute matches exactly by its own minute, hour, month, date and weekday, under the union rule of the two day fields |
| CronParse.PrintedTermParses | pkg/workflow/cron.go:128-181 | every term of the grammar, printed, parses to its range, step and restriction |
| CronParse.DenotedIs | pkg/workflow/cron.go:103-181 | the values of each form of term, and that only `*`, also in steps of one, leaves a field unrestricted |
| CronParse.AtoiSigned | pkg/workflow/cron.go:183-193 | every number within 64 bits is read with its sign, and none outside |
| CronParse.AtoiNeedsDigits | pkg/workflow/cron.go:183-193 | what is read as a number is digits after an optional sign |
| CronParse.BareStepIsRefused | pkg/workflow/cron.go:163-172 | a step on a bare value is refused |
| CronParse.ParsedSpanIsInField | pkg/workflow/cron.go:131-196 | whatever parses is a non-empty range inside the field with a positive step |
| CronParse.SetBits | pkg/workflow/cron.go:120-122 | the loop with its unguarded 64-bit counter sets the stepped values and those a wrapped counter comes back to |
| CronParse.SetBitsRightIff | pkg/workflow/cron.go:120-122 | it sets exactly the meant values if and only if the range start is below twice the step's distance to 2^63 |
| CronParse.WrapAllowsMinuteZero | pkg/workflow/cron.go:120-122 | 2-59/9223372036854775807 also allows minute 0 |
| CronParse.ParseField | pkg/workflow/cron.go:103-126 | a comma list parses to the union of its terms or is refused at a malformed one |
| CronParse.FieldRefusedIff | pkg/workflow/cron.go:103-126 | a list is refused exactly if one of its terms is malformed, an empty one included |
| CronParse.PrintedFieldParses | pkg/workflow/cron.go:99-126 | a printed list of harmless terms parses to exactly the values some term denotes, restricted exactly if one is |
| CronParse.SpacedFields | pkg/workflow/cron.go:76-79 | words with any white space before, between and after them split into exactly these words |
| CronParse.ParseCron | pkg/workflow/cron.go:76-100 | refused exactly unless the text has five fields between white space that parse within 0-59, 0-23, 1-31, 1-12 and 0-6; otherwise the five parsed fields in order |
| Intervals.ClosedFormIsLoop | pkg/workflow/schedule.go:446-465 | for 0 <= nextFire <= now the closed form equals the stepping loop and errs exactly on 64-bit overflow |
| Intervals.AdvanceRightIff | pkg/workflow/schedule.go:446-465 | over all 64-bit starts it is the loop's result exactly if the start is not before the epoch or the loop overflows |
| Intervals.BeforeEpochAlwaysErrs | pkg/workflow/schedule.go:461-463 | from a start before the epoch every advance errs |
| Schedules.SQLiteStore.FireDue | pkg/workflow/schedule.go:303-433 | the transaction's code computes the fire function, whose outcomes the lemmas below state one by one: not due, lost claim, corrupt spec paused, missed at cap, fired, or a duplicate slot |
| Schedules.RecurringFireEnqueues | pkg/workflow/schedule.go:376-433 | a due, won recurring fire whose spec advances puts the run of its slot into the queue, pending with its target, exactly if the caps admit it and the slot is new; next fire is the advance in every case, no other row or run changes, and the result says which case it was |
| Schedules.IdleFireChangesNothing | pkg/workflow/schedule.go:308-356 | nothing due, or a lost claim, and nothing else, changes nothing |
| Schedules.SQLiteStore.CapAdmits | pkg/workflow/schedule.go:265-294 | admits exactly if, of the runs that are running or pending, fewer than the type cap have this target and fewer than the global cap exist |
| Schedules.IntervalAdvanceIsLeastSlot | pkg/workflow/schedule.go:446-465 | an interval's advance is its least slot past now, and none exactly if that slot does not fit 64 bits |
| Schedules.CronAdvanceIsLeastMatch | pkg/workflow/schedule.go:466-485 | a cron row's advance is the least matching minute past now, wrapped to the 64-bit column, and none exactly of a spec that no minute satisfies |
| Schedules.SlotEnqueuedOnce | pkg/workflow/schedule.go:229-243 | over any interleaving of pollers, callers, workers, failed transactions and crashes no slot is enqueued twice |
| Schedules.NextFirePassesNowIff | pkg/workflow/schedule.go:404-423 | a fire moves a recurring next fire strictly past now exactly if the next cron instant fits the 64-bit column |
| Schedules.CronOverflowHappens | pkg/workflow/schedule.go:404-423 | an every-minute row, due for whichever slot, that fires at the last 64-bit instant gets a next fire behind now and is due again |
| Schedules.OneshotIsRetainedThenGone | pkg/workflow/schedule.go:388-415 | a cap-blocked one-shot is left as it was and stays due; an admitted one is deleted and its run queued, pending and new unless that slot had been enqueued before; nothing else changes |
| Schedules.CorruptSpecPauses | pkg/workflow/schedule.go:357-375 | a spec that does not advance pauses the row, enqueues nothing and is not due again |
| Schedules.CapsHold | pkg/workflow/schedule.go:245-294 | no fire pushes a population above a cap it was not above |
| Schedules.RunIdsAreDistinct | pkg/workflow/schedule.go:296-301 | two slots share a run ID only if they are the same slot of the same schedule |
| Signals.InMemoryStore.DeliverSignal | pkg/workflow/signal_store.go:832-861 | delivery replaces by ID, never grows the mailbox over its cap, and is refused exactly above it |
| Signals.InMemoryStore.TakeSignals | pkg/workflow/signal_store.go:863-883 | all buffered signals in ID order, with the mailbox left as it is |
| Signals.InMemoryStore.AckSignals | pkg/workflow/signal_store.go:885-899 | removes exactly the named signals |
| Signals.FireAtSaturates | pkg/workflow/signal_timeout.go:101-114 | the wrapped sum with its two clamps is addition that stays at the ends of the 64-bit range |
| Signals.FirstNamedIsLeast | pkg/workflow/signal_timeout.go:84-97 | the signal taken is the one of that name with the least ID |
| Signals.WorkflowData.WaitForSignalOrTimeout | pkg/workflow/signal_timeout.go:64-131 | a buffered signal wins first and disarms, else the first encounter arms, else a passed deadline completes the timeout arm, else the node parks unchanged |
| FirstOf.AcknowledgedIsDurable | pkg/workflow/workflow.go:700-808 | a signal leaves the mailbox only by an acknowledgement, and from then on a snapshot of the completed node holds the payload that the node took under that ID |
| FirstOf.TimeoutNeverEarly | pkg/workflow/signal_timeout.go:119-127 | the timeout arm is taken only with no such signal buffered and after a durable deadline, wherever the clock moves |
| FirstOfRuns.AlwaysKeepsDeadlineIff | pkg/workflow/signal_timeout.go:98-127 | in every run a durable deadline stays until the node completes exactly if one slot or no fan-out leaves the node alone, or none comes after it and at most one can be open when it is launched |
| FirstOfRuns.OneArmIff | pkg/workflow/signal_timeout.go:84-127 | every completed snapshot of every run shows exactly one arm if and only if the node is alone, or the same holds and no sender reuses a signal ID under another name |
| FirstOfRuns.NothingLostIff | pkg/workflow/signal_store.go:832-899 | in every run the payload that an acknowledgement removes is the durable one exactly if no sender delivers the taken, unacknowledged ID again with another payload; the removed entry is moreover one of the node's signal exactly if no sender reuses an ID under another name either |
| ActionSnapshot.AcceptsExactlyEligible | pkg/workflow/boundary_action_kind.go:188-293 | the check accepts exactly the actions that unfold within the cap to a tree of eligible leaves with no empty composite |
| ActionSnapshot.RefusedIff | pkg/workflow/boundary_action_kind.go:188-293 | refused exactly if what the wrappers hold leads more than 1024 deep, or to a missing action, an ineligible leaf, a nil wrapper or an empty composite |
| ActionSnapshot.SnapshotBoundaryAction | pkg/workflow/boundary_action_kind.go:300-360 | the snapshot of an accepted action is the same tree, leaves in order and retry policies included, made of new wrapper objects; of each wrapper the kind, the leaves and the policy are those it had |
| ActionSnapshot.BuildThenChange | pkg/workflow/boundary.go:215-235 | no later sequence of Add calls or policy changes on reachable objects changes what the graph runs or the verdict on it |
| GroupCommit.FlatBuffersStore.SaveCheckpoint | pkg/workflow/workflow_store_groupcommit.go:31-69 | with batchK at most 1 every checkpoint is on disk when its write succeeds; with a greater one exactly those whose count it divides, and any other leaves the disk and becomes pending; accepted exactly if nil; no other run changes |
| GroupCommit.FlatBuffersStore.Sync | pkg/workflow/workflow_store_groupcommit.go:71-92 | a pending state is flushed, kept on failure, and nothing pending is nil without a write |
| GroupCommit.FlatBuffersStore.Save | pkg/workflow/workflow_store.go:899-942 | a full save supersedes the pending state and ends the batch window; a failed one changes nothing |
| GroupCommit.CheckpointedIsSound | pkg/workflow/workflow_store_groupcommit.go:40-69 | a batched save keeps the disk a complete accepted checkpoint and the pending state the last accepted and newer |
| GroupCommit.SyncIsTheFloor | pkg/workflow/workflow_store_groupcommit.go:71-92 | Sync returning nil means that the last accepted checkpoint is on disk; otherwise everything is kept for a retry |
| GroupCommit.CrashLosesLessThanK | pkg/workflow/workflow_store_groupcommit.go:31-69 | with no failed write a crash loses at most K-1 accepted checkpoints |
| GroupCommit.RunAll | pkg/workflow/workflow_store_groupcommit.go:31-165 | after any sequence of operations, failures and crashes every run is sound, and if no write failed a crash would lose at most batchK - 1 accepted checkpoints of it, none for batchK 0 |
| JsonDepth.StringKeeps | pkg/workflow/json_depth.go:36-48 | a string leaves the scanner where it was, whatever quotes, backslashes and brackets it holds |
| JsonDepth.DepthIsNesting | pkg/workflow/json_depth.go:33-61 | the depth of a value is the most arrays and objects that any descent into it goes through |
| JsonDepth.ScanValue | pkg/workflow/json_depth.go:33-61 | scanning a printed value raises the maximum to exactly the value's depth and comes back level |
| JsonDepth.JsonNestingDepth | pkg/workflow/json_depth.go:33-61 | the four-variable pass returns the container depth of every value with that text |
| JsonDepth.CheckJsonDepth | pkg/workflow/json_depth.go:76-82 | refuses exactly if the value nests deeper than 10000 |

## Left out

- FinishedRunsAgreeIff: for a plan with snapshots, two slots and a level with a fan-out that runs, a choice that completes
  and a hard failure, only one direction is decided by the plan and the oracle. A mid-level checkpoint can keep almost any
  part of such a level; `SweepAgreement.AgreeIffNoBarrierStrays`, over reachable barriers, holds there too.
- AcceptedBoundaryGates: which actions are ineligible for a boundary is a parameter there; `ActionSnapshot` proves what
  the check computes from an action.
- Build: checks of single actions and definition budgets are not modelled.
- FireDue: the lease claim is one bit per call, won or lost; owners, tokens and expiry of leases are not modelled.
- Next: evaluated in UTC; time zones and daylight saving are not modelled.
- DeliverSignal: the check of the signal's ID text and the delivery timestamp are not modelled.
- SaveCheckpoint: nil data and invalid IDs are not modelled, nor is `Delete`; every refusal of a write is one outcome.
- JsonNestingDepth: says nothing of text that is not well-formed JSON.
- CompensateLevel: a level's compensations are undone one after the other here; their interleaving is in the machine of
  `Saga` (`Saga.InvariantStep`).
- DriveRollback: the deadline is one of the faults there; the machine of `Saga` and `Saga.RunCompensationWithRetry` have
  it as a moment that passes.
- FailedClaimReleases: the thread's steps are taken in a row there; `Lease.ReleaseIsNeverBlocked` has the other threads.
- PersistedWaitingIff: speaks of one step of a run; `MidLevelParks.WaitsUnsuspendedIff` speaks of the plan.
- Executor: a launch and the Running status it writes are one step, and so are finishing and leaving the live set. A
  choice's marks are separate steps.
- Executor: a fan-out's mid-level checkpoint may come at any time while it is live, and more than once; the code takes
  it once per journal.
- Executor: every checkpoint writes the whole run data. A store that writes only what changed since the last checkpoint
  drops the changes of a write that failed; if the run goes on, because a fan-out with continue-on-error failed by it, a
  later snapshot misses them until one is written whole (`Gating.WaitingMeansSuspended`, `FirstOf`).
- Executor: plans declare no compensations. With one, a hard failure or a cancellation rolls the run back and it is not
  driven forward again, so the runs that disagree are of definitions without compensations.
- Executor: actions do not observe cancellation; the result of a launched action is the oracle's.
- Saga: the calls of one turn, its retries included, are one call; abandoned goroutines, back-off and the reconstructed
  trigger cause are not modelled.
- Expansion: concurrent writes of the whole run data are taken one after the other, as the stores' locks have them.
- FanOut: driving a branch is one outcome; child workflows and their IDs are not modelled. Keys under the result
  key are a datatype; their texts and the base-key collision check are not.
- Lease: registry entries are told apart by a number, and a dropped entry stays in the model unreferenced.
- Signals: one workflow's mailbox in memory; the file and SQLite mailboxes are not modelled.
- FirstOf: one such node per run, the only consumer of its signal name; besides it the level has fan-outs, and a node of
  another kind shows as a drive that exits, parks or fails. A checkpoint that a batching store defers is one that was
  not saved.
- ActionSnapshot: action kinds other than the two wrappers are leaves with a fixed verdict.
- Definition budgets, tracing, metrics, logging, the sub-workflow kinds, SQLite and FlatBuffers encoding, file locks,
  hashing and digests are not modelled.
- Nothing was executed; every statement above is about the model.
