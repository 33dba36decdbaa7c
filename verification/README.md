# Concurrency and graph kernels of Canvast, in Dafny

Canvast runs agents, and most of its hard logic sits in a few small kernels: a scheduler for
dependent steps, two permit pools, a bounded graph search, a reservation protocol for child
processes, an idempotency ledger, three kill ladders, several incremental buffers, and a gate on task
dependencies. This project models those kernels in Dafny and proves what they are for.

| module | models |
|---|---|
| `Workflow`, `WorkflowTheorems`, `WorkflowScheduler` | the `run_workflow` loop: the invariant it keeps, what its final states mean, and the loops themselves |
| `Permits`, `WorkflowSlots`, `AgentSlots` | one abstract first-come first-served permit pool, and the two implementations that refine it |
| `CanvasTraversal` | `CanvasStore.traverse` |
| `CanonicalJson`, `ActionLedger` | the idempotency key of a desktop action, and the ledger it guards |
| `DispatchContract`, `ChildCapacity`, `WorkerPool`, `LaneChildren` | the descriptors of sub-agent launches, the capacity they reserve, the lanes they run in, and the children those lanes register |
| `Processes`, `StepLifecycle`, `ChildLifecycle`, `BackgroundLifecycle` | the TERM, grace, KILL, watchdog ladders of workflow steps, sub-agents and background tasks |
| `StreamBuffers`, `LineFilter`, `FocusWindows` | incremental forms of whole-input functions |
| `TaskGate` | `task_create` and `task_update` |
| `Sequences`, `Sorting` | filtering, counting and stable sorting shared by the others |

Three conventions run through the project.

- What the source does by changing variables is a method or a class whose methods are proved equal to a
  step function (`Next`, `Drained`, `Settled` and so on); theorems over whole runs are about sequences of those
  steps (`After`, `Leads`, `Plays`).
- The environment is a parameter: the outcome of each step, the answer of each worker, the answer to each
  signal, each clock reading. Theorems quantify over all of them.
- Where something one would like to say is false of the code, a lemma gives the input, and the exact
  condition for it to hold is proved next to it.

## What the code does that one might not expect

- A workflow step whose child closes without an exit code counts as a success, even after an error event
  (`SuccessWithoutExitCode`; `OutcomeOfHistory` says exactly which histories succeed).
- A background task that is stopped and then reports an error on a dead tree ends as failed, not as cancelled
  (`StoppedButFailed`; `StatusIsCauseExactly`).
- A background task that closes without a code ends as failed even with exit code 0 on record
  (`FailedWithExitZero`; `ExitZeroExactly`).
- A sub-agent, and a background task, can have two watchdogs armed at once. Settlement clears only the one the
  variable refers to, so the forgotten timer outlives it, and fires later without effect (`TwoWatchdogs` in both
  modules; `WatchdogsExactly` counts them in every history).
- A sub-agent whose signal has fired before its launch arms its timeout after that signal was acted on, so the
  timer outlives an immediate settlement too (`TimeoutOutlivesLaunch`; `SettledAtLaunch` says which launches
  settle at once, `TimeoutOutlivesExactly` that no other settlement leaves the timeout armed).
- When the maximum grows while dispatches wait, each event serves one of them only, so a waiter can sit beside
  a free permit (`GrowthCanLeaveIdle`; `WaitLeavesIdle`, `FinallyLeavesIdle`, `TimerLeavesIdle`). While the
  maximum never grows, nobody does (`FallingMaxNeverIdle`).
- A session that shuts down idle publishes a capacity snapshot that its own validator rejects
  (`IdleShutdownSnapshotRejected`; `SnapshotValidExactly`).
- Two dispatches that differ only in the order of their branches do not match if two of their ids compare equal
  without being equal (`TiedIdsTellOrder`; `MatchingExactly`, `MatchingIsOrderFree`).
- `headTail` exceeds its limit when the text does not fit and the limit is below the length of its marker plus
  two (`HeadTailOverruns`; `HeadTailWithinLimit`). Its callers pass 50,000, so this concerns the function, not its
  use (extensions/web-tools/register-tools.ts:44).
- A focus window is reversed, and its snippet empty, when lower-casing lengthens the text and a hit lies behind
  the text's own end with no earlier window in reach (`StrayHit`, for every context size; `FocusRanges`, whose
  condition the text, terms and context determine by `RangesUnique`).
- A task created under an id that other tasks already name starts without the matching `blocks` entries
  (`NamedTooEarly`; `CreateKeepsSymmetryExactly`).

## Model

| member | source | states |
|---|---|---|
| WorkflowScheduler.CheckNames | extensions/workflow.ts:560-580 | accepts exactly lists of nonblank names without repetition |
| WorkflowScheduler.CheckDependencies | extensions/workflow.ts:588-595 | accepts exactly when every dependency is a step |
| WorkflowScheduler.Validate | extensions/workflow.ts:559-595 | refuses exactly the workflows with a blank or repeated name or an unknown dependency, and names a real offence |
| WorkflowScheduler.Propagate | extensions/workflow.ts:608-619 | the do-while reaches a fixpoint: no pending step depends on a failed or blocked one, and nothing but the blocked set changed |
| WorkflowScheduler.Ready | extensions/workflow.ts:622-625 | the ready steps are exactly the pending ones whose dependencies all completed; none ready means none runnable |
| WorkflowScheduler.Batch | extensions/workflow.ts:627-629 | a batch is a nonempty prefix of the ready steps: one step in sequential mode, else as many as the limit allows |
| WorkflowScheduler.RunBatch | extensions/workflow.ts:631-637 | records each step of the batch once, in batch order, with its own outcome, and keeps the invariant |
| WorkflowScheduler.RunReady | extensions/workflow.ts:622-640 | one round runs exactly the batch of the ready steps and records its results in order, and `remaining` shrinks; or nothing is runnable |
| WorkflowScheduler.RunWorkflow | extensions/workflow.ts:559-660 | for every mode and limit the loop ends in a final state with the workflow's meaning; it reports an error exactly when some step did not complete |
| Workflow.RecordKeeps | extensions/workflow.ts:632-637 | recording a runnable step keeps: every step in one class, each result after successful results of all its dependencies |
| Workflow.BlockKeeps | extensions/workflow.ts:611-618 | every step blocked has a dependency path to a failed one |
| WorkflowTheorems.ScheduleIndependence | extensions/workflow.ts:608-640 | two runs of one workflow, whatever their modes and limits, end with the same sets and the same results up to order |
| WorkflowTheorems.FinalHasMeaning | extensions/workflow.ts:608-640 | the final sets satisfy a definition that mentions neither mode, limit nor order |
| WorkflowTheorems.CompletedIsLeast | extensions/workflow.ts:608-640 | completed is the least set holding every succeeding step whose dependencies it holds |
| WorkflowTheorems.RanExactly | extensions/workflow.ts:622-637 | a step ran exactly when its dependencies completed, and then with its own outcome |
| WorkflowTheorems.BlockedExactly | extensions/workflow.ts:610-619 | blocked for a failed dependency means exactly a nonempty dependency path to a failed step, and no such step ran |
| WorkflowTheorems.HonestDeadlock | extensions/workflow.ts:625-646 | every leftover step reaches, through leftover steps, a cancelled step or a cycle |
| WorkflowTheorems.LeftoverMeansCycle | extensions/workflow.ts:625-646 | without cancellation a leftover step means a leftover dependency cycle |
| WorkflowTheorems.CyclesNeverRun | extensions/workflow.ts:608-640 | no step on a dependency cycle has run in any state the scheduler passes through |
| WorkflowTheorems.AcyclicLeavesNothing | extensions/workflow.ts:608-646 | an acyclic workflow without cancellation leaves nothing over |
| Permits.FairStep | extensions/workflow.ts:100-157 | one step of the abstract pool keeps: grants in arrival order, nobody overtaken, every arrival exactly one of granted, queued and dropped |
| Permits.FairRun | extensions/workflow.ts:100-157 | the same along every sequence of steps |
| Permits.NoOvertaking | src/agents/sub-agent-system.ts:360-405 | whoever arrived before a granted ticket was granted earlier or dropped |
| Permits.HeldCount | src/agents/sub-agent-system.ts:389-405 | permits in use are grants less returns |
| WorkflowSlots.DrainedRefines | extensions/workflow.ts:136-157 | draining is a sequence of abstract grants and drops and leaves no permit idle beside a waiter |
| WorkflowSlots.EventRefines | extensions/workflow.ts:107-157 | every acquire, abort, release and stop is a sequence of abstract steps, with grants below the limit |
| WorkflowSlots.EveryRunIsGood | extensions/workflow.ts:100-157 | in every reachable state `active` is the number of grants not yet released and within the limit, and a nonempty queue means it equals the limit |
| WorkflowSlots.ResolvedAtMostOnce | extensions/workflow.ts:107-134 | each waiter is resolved at most once, with a permit or without; grants follow arrival order |
| WorkflowSlots.ResolutionsAreFinal | extensions/workflow.ts:126-157 | resolutions stand; after stop there is never another grant; no grant goes to a waiter whose signal reads as aborted |
| WorkflowSlots.AcquireAnswers | extensions/workflow.ts:107-124 | a call is refused at once exactly when the pool is stopped or its signal has fired, granted at once exactly when a permit is free, and else waits; nobody else is answered |
| WorkflowSlots.AbortAnswers | extensions/workflow.ts:111-119 | an abort listener refuses its own waiter if that has no answer yet, and nobody else |
| WorkflowSlots.ReleaseAnswers | extensions/workflow.ts:136-154 | a release returns its permit once; it goes to the first waiter whose signal has not fired, and exactly those before it are refused |
| WorkflowSlots.StopAnswers | extensions/workflow.ts:126-134 | a stop refuses every waiter in order and takes no permit back |
| WorkflowSlots.FlagsOfRun | extensions/workflow.ts:126-127 | in every run the pool is stopped exactly when a stop has come, and a signal reads as aborted exactly when it has fired |
| WorkflowSlots.RefusedForAReason | extensions/workflow.ts:107-157 | in every run nobody is refused but after a stop, after the own signal has fired, or by the own abort listener |
| WorkflowSlots.ReleaseNeverClamps | extensions/workflow.ts:149-154 | the clamp at zero never acts, repeated releases included |
| WorkflowSlots.BoundedFifoSlots.Acquire | extensions/workflow.ts:107-124 | the method is the step function's acquire |
| WorkflowSlots.BoundedFifoSlots.OnAbort | extensions/workflow.ts:111-119 | the abort listener is the step function's, also when it runs inside `Drain` |
| WorkflowSlots.BoundedFifoSlots.Drain | extensions/workflow.ts:136-157 | the loop, re-entered by abort listeners, serves the queue from its head as the recursive description does |
| WorkflowSlots.BoundedFifoSlots.Release | extensions/workflow.ts:149-154 | the release closure, repeated or not, is the step function's release |
| WorkflowSlots.BoundedFifoSlots.Stop | extensions/workflow.ts:126-134 | refuses every queued waiter once and closes the pool |
| AgentSlots.EventRefines | src/agents/sub-agent-system.ts:360-414 | every wait, timeout, release and cancellation is a sequence of abstract steps, each grant below the maximum then in force |
| AgentSlots.EveryRunIsGood | src/agents/sub-agent-system.ts:360-414 | however the maximum moves: fair service, each dispatch granted, queued or rejected exactly once, a count equal to the dispatches between grant and finally clause |
| AgentSlots.ResolutionsAreFinal | src/agents/sub-agent-system.ts:360-414 | grants and rejections are never taken back |
| AgentSlots.WaitAnswers | src/agents/sub-agent-system.ts:360-405 | a call joins the queue, and the head of the queue gets a permit exactly when one is free |
| AgentSlots.FinallyAnswers | src/agents/sub-agent-system.ts:389-405 | a dispatch that ends returns its permit once, and the head of the queue gets one exactly when it is free then |
| AgentSlots.TimerAnswers | src/agents/sub-agent-system.ts:372-379 | a timeout rejects its own waiter if that still waits, and nobody else |
| AgentSlots.CancelAnswers | src/agents/sub-agent-system.ts:408-414 | a cancellation rejects every waiter in order and leaves nobody waiting |
| AgentSlots.ReleaseAlwaysCounts | src/agents/sub-agent-system.ts:389-393 | the guard at zero never fires for a dispatch that holds a permit |
| AgentSlots.WaitLeavesIdle | src/agents/sub-agent-system.ts:360-386 | an arrival leaves somebody beside a free permit exactly when more than one permit was to be given away |
| AgentSlots.FinallyLeavesIdle | src/agents/sub-agent-system.ts:389-405 | a release does so exactly when two or more wait and a permit was free before |
| AgentSlots.TimerLeavesIdle | src/agents/sub-agent-system.ts:372-379 | a timeout does so exactly when somebody else waits and a permit was free before |
| AgentSlots.FallingMaxNeverIdle | src/agents/sub-agent-system.ts:360-414 | while each maximum read is at most those before it, nobody waits beside a free permit |
| AgentSlots.ConstantMaxNeverIdle | src/agents/sub-agent-system.ts:360-414 | under a constant maximum a nonempty queue means a full pool, and the count stays within the maximum |
| AgentSlots.GrowthCanLeaveIdle | src/agents/sub-agent-system.ts:384-405 | a run in which growth leaves a waiter beside two free permits |
| AgentSlots.SpawnQueue.WaitForSlot | src/agents/sub-agent-system.ts:360-386 | the method is the step function's wait |
| AgentSlots.SpawnQueue.TimerFires | src/agents/sub-agent-system.ts:372-379 | removes the waiter if it still queues, and rejects it |
| AgentSlots.SpawnQueue.FinallyRelease | src/agents/sub-agent-system.ts:339-341 | returns the permit and serves at most one waiter |
| AgentSlots.SpawnQueue.GrantNextSlot | src/agents/sub-agent-system.ts:396-405 | hands at most one permit to the head of the queue |
| AgentSlots.SpawnQueue.CancelQueuedSpawns | src/agents/sub-agent-system.ts:408-414 | rejects every waiter in order and touches no permit |
| CanvasTraversal.ReachIsPaths | extensions/canvast-core.ts:148-166 | the distance levels are the ends of undirected paths through stored nodes |
| CanvasTraversal.HeadIsExact | extensions/canvast-core.ts:152-158 | a stored node popped for the first time is at exactly its queue depth |
| CanvasTraversal.ReachFound | extensions/canvast-core.ts:152-166 | whatever is within k steps has been found by depth k, or the search is not past k |
| CanvasTraversal.ExhaustedFindsAll | extensions/canvast-core.ts:152-166 | an exhausted search has found every stored node within the depth |
| CanvasTraversal.OmittedIsFarther | extensions/canvast-core.ts:152-166 | what the node cut omits is at least as far as everything returned |
| CanvasTraversal.CanvasStore.PushNeighbours | extensions/canvast-core.ts:159-162 | pushes exactly the unvisited ends of edges at the node, one level deeper |
| CanvasTraversal.CanvasStore.Traverse | extensions/canvast-core.ts:148-166 | distinct stored nodes in non-decreasing shortest distance, within both cuts; all of them unless the node cut struck; otherwise none nearer was omitted; it ends on every graph |
| Sorting.StableSortsAgree | src/agents/sub-agent-dispatch-contract.ts:136-138 | a stable sort makes two sequences equal exactly when they agree, in order, on the elements that compare equal |
| CanonicalJson.EscapesDiffer | src/desktop-action/dispatcher.ts:224-226 | quoted strings, escapes and lone surrogates included, decode uniquely whatever follows them |
| CanonicalJson.PrintsDiffer | src/desktop-action/dispatcher.ts:221-227 | a text that starts with two printed values starts with one |
| CanonicalJson.PrintInjective | src/desktop-action/dispatcher.ts:221-227 | the printed text determines the value |
| CanonicalJson.CanonDecidesSame | src/desktop-action/dispatcher.ts:223-225 | sorting keys at every depth identifies exactly the values equal up to key order |
| CanonicalJson.TextEquations | src/desktop-action/dispatcher.ts:221-227 | the text satisfies the source's own recursion: map and join for arrays, sort keys then look up for objects |
| CanonicalJson.TextDecidesSame | src/desktop-action/dispatcher.ts:221-227 | two finite JSON values get the same text exactly when they are equal up to key order at every depth |
| ActionLedger.PruneIsWell | src/desktop-action/dispatcher.ts:316-330 | pruning keeps every in-flight entry and no expired one, at most the limit of completed ones, evicts none accessed after a survivor, and evicts no more than needed |
| ActionLedger.PruneKeeps | src/desktop-action/dispatcher.ts:316-330 | no unsettled run loses its entry, whatever the clock says |
| ActionLedger.SettleFindsOwn | src/desktop-action/dispatcher.ts:307-308 | completion always finds its own entry, in flight |
| ActionLedger.EveryRunIsGood | src/desktop-action/dispatcher.ts:264-330 | along every run the ledger holds one entry per request, each answers for a run of its request and payload, and every unsettled run is in it |
| ActionLedger.NoConcurrentRuns | src/desktop-action/dispatcher.ts:274-300 | two runs of one request are never under way together |
| ActionLedger.DispatchDecides | src/desktop-action/dispatcher.ts:274-300 | a run starts exactly when no entry is left; else an equal payload shares the run and a different one conflicts, and nothing runs |
| ActionLedger.SameRunWhileItStays | src/desktop-action/dispatcher.ts:274-330 | an event that leaves a request in the ledger leaves it standing for the same run |
| ActionLedger.OneRunWhileItStays | src/desktop-action/dispatcher.ts:274-330 | at most once: over any run during which a request stays in the ledger, its entry stands for one run and no other run of it starts |
| ActionLedger.AccessTimesAreReal | src/desktop-action/dispatcher.ts:274-314 | in every run each entry carries the time of the last event that dispatched its request or settled its run, and a completed one the time its run settled |
| ActionLedger.NoneExpired | src/desktop-action/dispatcher.ts:316-322 | after a dispatch, and after the settlement of a run, no completed entry is older than the time to live |
| ActionLedger.DispatchLeavesOwn | src/desktop-action/dispatcher.ts:277-300 | a dispatch leaves an entry of its own request, that of the run it answers with |
| ActionLedger.OthersStay | src/desktop-action/dispatcher.ts:276-294 | a dispatch touches no other entry but to prune it |
| ActionLedger.SettlePrunes | src/desktop-action/dispatcher.ts:307-314 | a settlement completes the entry of its run and prunes, and does nothing else |
| ActionLedger.DesktopActionDispatcher.PruneLedger | src/desktop-action/dispatcher.ts:316-330 | the two in-place deletion loops leave exactly the pruned ledger |
| ActionLedger.DesktopActionDispatcher.Dispatch | src/desktop-action/dispatcher.ts:274-300 | the method is the step function's dispatch and keeps the invariant |
| ActionLedger.DesktopActionDispatcher.CompleteLedgerEntry | src/desktop-action/dispatcher.ts:307-314 | the method is the step function's settlement and keeps the invariant |
| DispatchContract.CanonicalStringsExactly | src/agents/sub-agent-dispatch-contract.ts:34-39 | a list is accepted exactly when no normalised value is blank and none repeats; the result is its sorted set |
| DispatchContract.CanonicalListsAreSets | src/agents/sub-agent-dispatch-contract.ts:34-39 | canonical lists are equal exactly when they hold the same values |
| DispatchContract.ParsedIsCanonical | src/agents/sub-agent-dispatch-contract.ts:105-123 | an accepted branch has a name, canonical lists and no descriptor issue |
| DispatchContract.ModesAllow | src/agents/sub-agent-dispatch-contract.ts:71-96 | what each mode allows, and to which tool, in one table |
| DispatchContract.ParsedExactly | src/agents/sub-agent-dispatch-contract.ts:49-123 | a branch is accepted exactly when it has an id, is described in full, is allowed by its mode and would run as declared; each field comes from its own source, the lists as sets |
| DispatchContract.Parse | src/agents/sub-agent-dispatch-contract.ts:98-128 | accepts exactly the nonempty lists of acceptable branches with distinct ids, in order |
| DispatchContract.InvocationJsonInjective | src/agents/sub-agent-dispatch-contract.ts:140 | the JSON value compared determines the invocation |
| DispatchContract.MatchingExactly | src/agents/sub-agent-dispatch-contract.ts:130-141 | whatever two invocations hold, the comparison holds exactly for the same tool and, for each id, the same branches in the same order among those whose ids compare equal to it |
| DispatchContract.MatchingIsOrderFree | src/agents/sub-agent-dispatch-contract.ts:130-141 | for accepted invocations: exactly the same map from branch ids to executions, targets and keys as sets, up to the order of ids that compare equal; under an order that separates ids, exactly that map |
| DispatchContract.TiedIdsTellOrder | src/agents/sub-agent-dispatch-contract.ts:136-138 | any two ids that compare equal give two accepted invocations that differ only in order and do not match |
| ChildCapacity.EventKeeps | extensions/sub-agent.ts:563-846 | every reserve, release, launch, child start, child end, owner release and shutdown keeps the capacity invariant |
| ChildCapacity.EveryRunIsGood | extensions/sub-agent.ts:563-846 | the invariant holds in every reachable state |
| ChildCapacity.CapacityNeverExceeded | extensions/sub-agent.ts:572-606 | occupied plus reserved never exceeds the maximum |
| ChildCapacity.ReservesExactly | extensions/sub-agent.ts:586-592 | in every run a reserve call is granted, and held, exactly when its id is neither blank nor held, it asks for a slot, the session is open, and its slots fit |
| ChildCapacity.ReleasesExactly | extensions/sub-agent.ts:605 | releasing a reservation takes that one away and no other |
| ChildCapacity.ConsumeTakes | extensions/sub-agent.ts:593-604 | consuming takes that reservation away and no other, a call that consumes nothing changes nothing, and misses exactly when it names none |
| ChildCapacity.SpawnsExactly | extensions/sub-agent.ts:646-667 | in every run: when a single launch is refused, and why, and that it else occupies one slot |
| ChildCapacity.ParallelsExactly | extensions/sub-agent.ts:816-837 | in every run: when a parallel launch is refused, and why, and how many slots it else occupies |
| ChildCapacity.SnapshotTells | extensions/sub-agent.ts:575-585 | the snapshot tells the slots of launches under way from those reserved and those left |
| ChildCapacity.ReservedLaunchSucceeds | extensions/sub-agent.ts:646-667 | a launch that consumes its reservation is refused only by shutdown or abort; a parallel one gets both slots or as many as it has items |
| ChildCapacity.ConsumedExactly | src/agents/sub-agent-capacity.ts:86-100 | in every run a reservation is consumed exactly by a call with its id, its slots, its tool and its branches, up to an order that only ids comparing equal can tell |
| ChildCapacity.ReservedWereOffered | extensions/sub-agent.ts:586-592 | every reservation held was asked for by a reserve call, word for word |
| ChildCapacity.ConsumedOrderFree | extensions/sub-agent.ts:593-604 | in every run whose reserve calls carry accepted dispatches: exactly by an order-free equal dispatch |
| ChildCapacity.SnapshotValidExactly | src/agents/sub-agent-capacity.ts:48-64 | the provider's snapshot passes the validator exactly outside shutdown or with a full pool |
| ChildCapacity.IdleShutdownSnapshotRejected | src/agents/sub-agent-capacity.ts:59-62 | shutting down idle yields a rejected snapshot |
| ChildCapacity.LaneAlwaysFindsRoom | extensions/sub-agent.ts:864-868 | a lane about to start a child finds fewer than the maximum registered |
| ChildCapacity.SubAgentExtension.InspectCapacity | extensions/sub-agent.ts:575-585 | returns the snapshot, valid exactly when the theorem above says |
| ChildCapacity.SubAgentExtension.TryReserve | extensions/sub-agent.ts:586-592 | reserves exactly when the step function does, and keeps the invariant |
| ChildCapacity.SubAgentExtension.ConsumeReservation | extensions/sub-agent.ts:593-604 | consumes, misses or mismatches as the step function does |
| ChildCapacity.SubAgentExtension.SpawnAgent | extensions/sub-agent.ts:646-667 | admits a single launch as the step function does, and keeps the invariant |
| ChildCapacity.SubAgentExtension.ParallelAgents | extensions/sub-agent.ts:816-837 | admits a parallel launch as the step function does, and keeps the invariant |
| ChildCapacity.SubAgentExtension.ReleaseOwner | extensions/sub-agent.ts:839-846 | gives back exactly the owner's slots: the clamp at zero never acts |
| ChildCapacity.SubAgentExtension.Register | extensions/sub-agent.ts:607-608 | a lane registers a child, and the registered children stay within the maximum |
| ChildCapacity.SubAgentExtension.Unregister | extensions/sub-agent.ts:609 | a settled child is unregistered |
| ChildCapacity.SubAgentExtension.SessionShutdown | extensions/sub-agent.ts:985-987 | shutdown closes admission and clears every reservation |
| ChildCapacity.SubAgentExtension.DetachRuns | extensions/sub-agent-shutdown.ts:149-151 | the end of a shutdown leaves no child registered |
| WorkerPool.StepKeeps | extensions/sub-agent.ts:551-556 | every turn of every lane keeps: each index handed out is with one lane or answered, and answers are the worker's own |
| WorkerPool.StepDecreases | extensions/sub-agent.ts:551-556 | every turn brings the pool strictly closer to its end, under every interleaving |
| WorkerPool.InFlightBounded | extensions/sub-agent.ts:551-556 | never more workers under way than `concurrency` |
| WorkerPool.StoppedHasAsked | extensions/sub-agent.ts:551-560 | if a lane survives, every index was asked once and every answer is in its place, rejections of other lanes notwithstanding |
| WorkerPool.AllAnsweredExactly | extensions/sub-agent.ts:544-561 | with workers that never reject, all answers are in exactly when there is nothing to do or at least one lane |
| WorkerPool.DeadExactly | extensions/sub-agent.ts:557-559 | the pool rejects exactly when some worker rejects and there are lanes |
| WorkerPool.RunLane | extensions/sub-agent.ts:551-556 | one turn of one lane on the shared variables |
| WorkerPool.RunPool | extensions/sub-agent.ts:544-561 | for every order of turns: rejects exactly as above, else `results[i]` is the worker's answer for `items[i]`, each index started once, in order |
| LaneChildren.StartHasRoom | extensions/sub-agent.ts:551-556 | whenever a lane may start a child, fewer children run than the pool has lanes |
| LaneChildren.LaunchFollows | extensions/sub-agent.ts:837-851 | a parallel launch gives an owner that follows its new pool: as many slots as lanes, no more children than its lanes run |
| LaneChildren.StartPassesGuard | extensions/sub-agent.ts:607-609 | a lane that may start a child finds a free slot at its owner, and the owner goes on following |
| LaneChildren.OthersFollow | extensions/sub-agent.ts:551-609 | so do lane turns, settled children and the detaching of a shutdown |
| StepLifecycle.SettlesOnce | extensions/workflow.ts:315-470 | however events interleave, one result, one slot returned and one disposal of the lease, which is unconfirmed exactly when the result says so |
| StepLifecycle.SettlesInTime | extensions/workflow.ts:315-470 | an unsettled step has a timer armed; it settles within grace plus watchdog of the start of termination, and within its timeout plus both |
| StepLifecycle.LastWordsSettle | extensions/workflow.ts:353-462 | forced finalisation, the watchdog and the close of the child settle at once |
| StepLifecycle.FirstCauseLatched | extensions/workflow.ts:405-467 | until settlement the latched cause is that of the first event that brought one |
| StepLifecycle.ClockOfHistory | extensions/workflow.ts:315-470 | in every history the timers and the lease of an unsettled step are those the history calls for: KILL the whole grace period after TERM, the watchdog its whole period after KILL |
| StepLifecycle.SettlesExactly | extensions/workflow.ts:353-462 | in every history an event settles the step exactly when it is forced, a close or a watchdog, or its answer leaves nothing to wait for and termination has not begun before |
| StepLifecycle.ResultStands | extensions/workflow.ts:315-351 | what was reported, and what became of the lease, stands |
| StepLifecycle.OutcomeOfHistory | extensions/workflow.ts:315-462 | success is exactly a close with code 0 or none whose first timeout, cancellation or error, if any, was an error; any other result blames the first of them; cleanup is reported failed, and the lease unconfirmed, exactly when the answer that settled the step leaves something that may be alive |
| StepLifecycle.SuccessWithoutExitCode | extensions/workflow.ts:460-461 | a history with an error event and no exit code that reports success |
| StepLifecycle.StepRun.Handle | extensions/workflow.ts:315-470 | the closures over shared variables react as the step function does |
| ChildLifecycle.LaunchedWell | extensions/sub-agent-runtime.ts:380-386 | every launch starts well, its timeout armed, and with a signal already fired it is unsettled or has one result, cancelled |
| ChildLifecycle.SettledAtLaunch | extensions/sub-agent-runtime.ts:298-315 | a launch settles at once exactly when its signal has fired and the attempt to terminate finds nothing left or goes astray, with a result that says which; else it waits out the grace period |
| ChildLifecycle.TimeoutOutlivesExactly | extensions/sub-agent-runtime.ts:218-387 | in every history the timeout of a settled child is still armed exactly when it settled at launch and the timeout has not fired since |
| ChildLifecycle.TimeoutOutlivesLaunch | extensions/sub-agent-runtime.ts:380-386 | a launch that settles with its timeout armed |
| ChildLifecycle.SettlesOnce | extensions/sub-agent-runtime.ts:218-387 | one result; the lease is disposed of once, at settlement in accord with the result, or earlier and as unconfirmed by a shutdown that gives the child up |
| ChildLifecycle.SettlesInTime | extensions/sub-agent-runtime.ts:280-387 | settles within grace plus watchdog of the first terminate or error, re-armed watchdogs notwithstanding |
| ChildLifecycle.AnyWatchdogSettles | extensions/sub-agent-runtime.ts:280-291 | a watchdog settles the child even if the variable no longer refers to it |
| ChildLifecycle.FirstCauseLatched | extensions/sub-agent-runtime.ts:298-386 | until settlement the cause is the first to come and the exit code the last reported |
| ChildLifecycle.ClockOfHistory | extensions/sub-agent-runtime.ts:280-387 | in every history the timers, watchdogs and lease of an unsettled child are those the history calls for, each at its exact time |
| ChildLifecycle.SettlesExactly | extensions/sub-agent-runtime.ts:280-387 | in every history an event settles the child exactly when it is a close or a watchdog, or its answer leaves nothing to wait for and is not refused |
| ChildLifecycle.ResultStands | extensions/sub-agent-runtime.ts:235-248 | what was reported, and what became of the lease, stands |
| ChildLifecycle.OutcomeOfHistory | extensions/sub-agent-runtime.ts:218-386 | success is exactly a close with exit code 0, or none and exit code 0 on record, with no timeout, abort or error before; any other result blames the first of them; cleanup is reported failed exactly when the answer that settled the child leaves something that may be alive, and the lease follows unless shutdown took it |
| ChildLifecycle.WatchdogsExactly | extensions/sub-agent-runtime.ts:280-347 | in every history the armed watchdogs number the error events plus the kill timers, of which there is at most one; one outlives the settlement exactly when they were two or more |
| ChildLifecycle.TwoWatchdogs | extensions/sub-agent-runtime.ts:280-347 | a history with two watchdogs armed, the forgotten one outliving the close |
| ChildLifecycle.SubagentRun.Handle | extensions/sub-agent-runtime.ts:218-387 | the closures react as the step function does |
| BackgroundLifecycle.SettlesOnce | extensions/background-task.ts:205-528 | completes once; the lease is released or marked unconfirmed once, in accord with the cleanup flags |
| BackgroundLifecycle.SettlesInTime | extensions/background-task.ts:216-528 | settles within grace plus watchdog of the start of the ladder |
| BackgroundLifecycle.ClockOfHistory | extensions/background-task.ts:205-570 | in every history the timers, watchdogs, lease and shown status of an unsettled task are those the history calls for, each at its exact time |
| BackgroundLifecycle.SettlesExactly | extensions/background-task.ts:216-528 | in every history an event settles the task exactly when it is forced, a close or a watchdog, or its answer leaves nothing to wait for and is not refused |
| BackgroundLifecycle.ResultStands | extensions/background-task.ts:452-474 | the end of a task stands |
| BackgroundLifecycle.StatusOfHistory | extensions/background-task.ts:169-528 | the final status is the one its history calls for, the exit code that of the close or else the last observed, and the cleanup flags, hence the lease, say exactly what the answer that settled the task was |
| BackgroundLifecycle.StatusIsCauseExactly | extensions/background-task.ts:496 | the status is the latched cause exactly unless an error event finds the tree gone after another cause was latched |
| BackgroundLifecycle.StoppedButFailed | extensions/background-task.ts:487-505 | a possible history of a stopped task that ends as failed |
| BackgroundLifecycle.ExitZeroExactly | extensions/background-task.ts:478-486 | completed and exit code 0 on record mean the same exactly unless the process closes with code 0 on record after a timeout, stop or error, or without a code of its own |
| BackgroundLifecycle.FailedWithExitZero | extensions/background-task.ts:478-486 | a possible history of a failed task with exit code 0 on record |
| BackgroundLifecycle.WatchdogsExactly | extensions/background-task.ts:216-267 | in every history the armed watchdogs number the error events plus the kill timers, of which there is at most one; one outlives the settlement exactly when they were two or more |
| BackgroundLifecycle.TwoWatchdogs | extensions/background-task.ts:216-267 | a history with two watchdogs armed, the forgotten one outliving the close |
| BackgroundLifecycle.BgTask.Handle | extensions/background-task.ts:205-570 | the field updates of every listener, timer and tool call are the step function's |
| StreamBuffers.HeadTailOfStream | extensions/background-task.ts:96-113 | for every cut into chunks the buffer is the whole stream or its exact head and tail, counts what it dropped and stays within the cap |
| StreamBuffers.TaskStream.OnData | extensions/background-task.ts:444-451 | the field holds what is kept of the stream so far |
| StreamBuffers.OutputOfStream | extensions/sub-agent-runtime.ts:208-217 | for every cut the output is the whole stream, or head, one marker and tail of total length exactly the cap |
| StreamBuffers.ChildOutput.Append | extensions/sub-agent-runtime.ts:208-217 | the closure variable holds what is shown of the stream so far |
| StreamBuffers.StepOutputOfStream | extensions/workflow.ts:274-281 | a step's reported output is its whole stream, or the beginning up to the cap and a marker |
| StreamBuffers.HeadTailWithinLimit | extensions/web-tools/parse.ts:36-45 | the limit is kept exactly when the text fits or the limit leaves two characters beside the marker; then the result is head, marker and tail of exactly that length |
| StreamBuffers.HeadTailOverruns | extensions/web-tools/parse.ts:36-45 | a text that comes out longer than its limit |
| LineFilter.SplitSeparates | src/cli.ts:517 | the lines and their separators make up the text, and a CR before an LF always belongs to the separator |
| LineFilter.SeparationIsUnique | src/cli.ts:517 | no other lines separate the same text |
| LineFilter.SplitAppend | src/cli.ts:515-518 | splitting the rest together with more text continues the split |
| LineFilter.ContinueSplit | src/cli.ts:516-518 | one chunk more keeps: lines handed on plus the rest are the split of all output so far |
| LineFilter.ChunksDoNotMatter | src/cli.ts:515-529 | for every way of cutting, also between CR and LF, lines plus rest are the whole output split once |
| LineFilter.Filter | src/cli.ts:515-529 | what the sanitizer sees is the lines of the whole output, an empty rest left out |
| LineFilter.JsonLineFilter.OnData | src/cli.ts:515-523 | keeps the same between chunks; lines handed on stay handed on |
| LineFilter.JsonLineFilter.OnEnd | src/cli.ts:524-529 | flushes a nonempty rest |
| FocusWindows.FindHits | extensions/web-tools/parse.ts:89-104 | the first three left-to-right occurrences that do not overlap, none skipped |
| FocusWindows.CollectRanges | extensions/web-tools/parse.ts:87-104 | the windows around those hits, term by term |
| FocusWindows.RangesUnique | extensions/web-tools/parse.ts:87-104 | text, terms, lower-casing and context determine the ranges |
| FocusWindows.WindowSurrounds | extensions/web-tools/parse.ts:96-100 | a window holds its hit, every position of the text at most the context away from it, and no other |
| FocusWindows.RangesSurround | extensions/web-tools/parse.ts:87-104 | every range so surrounds a hit of its own term |
| FocusWindows.RangesAreTame | extensions/web-tools/parse.ts:96-100 | every range ends inside the text; it is reversed only if it starts behind its end, which takes a lower-casing that lengthens the text |
| FocusWindows.OpenKeeps | extensions/web-tools/parse.ts:118-120 | a range far behind starts a window and keeps the merge |
| FocusWindows.ExtendKeeps | extensions/web-tools/parse.ts:115-117 | a range near the last window extends it and keeps the merge |
| FocusWindows.MergeNeedsAnchors | extensions/web-tools/parse.ts:112-121 | no sequence of windows merges ranges of which one is reversed and out of reach of every earlier one |
| FocusWindows.Merge | extensions/web-tools/parse.ts:112-121 | the loop merges, exactly when every reversed range is in reach of an earlier one: sorted windows more than 200 apart, ends taken from ranges, no wide gap bridged, terms exactly those of the ranges inside |
| FocusWindows.FocusRanges | extensions/web-tools/parse.ts:87-121 | for every text, terms and lower-casing: collecting, sorting and merging give a merge of the collected ranges, inside the text, exactly under that condition; it holds whenever lower-casing does not lengthen the text |
| FocusWindows.StrayHit | extensions/web-tools/parse.ts:96-100 | for every context size, a text, a two-letter term and a lower-casing that leave one reversed range out of reach |
| FocusWindows.ExactlyOneWindow | extensions/web-tools/parse.ts:112-121 | every range lies in exactly one merged window, and no window comes twice |
| FocusWindows.MergeIsUnique | extensions/web-tools/parse.ts:112-121 | there is only one such merge, up to the order of terms |
| TaskGate.UniqueIds | extensions/task-manager.ts:67-69 | the nonempty ids, each once |
| TaskGate.UpdateGate | extensions/task-manager.ts:327-365 | an update to in progress or completed is accepted exactly when every blocker the task would then have is already completed |
| TaskGate.CreateGate | extensions/task-manager.ts:262-274 | so is a create |
| TaskGate.CandidateEdges | extensions/task-manager.ts:332-348 | for every task, the edges an update adds are the ones asked for, at both ends where there is a task |
| TaskGate.UpdatedExactly | extensions/task-manager.ts:327-365 | refused, an update changes nothing; accepted, it adds its edges, sets the status asked for, and leaves every other status and the numbering alone |
| TaskGate.CreatedExactly | extensions/task-manager.ts:256-282 | refused, a create changes only the numbering; accepted, it adds one task with the status and blockers asked for and notes it at each blocker that exists |
| TaskGate.EdgesStay | extensions/task-manager.ts:256-365 | one event removes no task and no `blockedBy` edge |
| TaskGate.RestartChangesNothing | extensions/task-manager.ts:142-165 | reading back the state just written gives the same manager |
| TaskGate.EdgesStayForever | extensions/task-manager.ts:256-365 | nor does any run of creates, updates and restarts |
| TaskGate.IdsNeverReused | extensions/task-manager.ts:258-274 | no two creates share an id, refused ones and restarts in between included, and no create takes the id of a task |
| TaskGate.CycleIsStuck | extensions/task-manager.ts:75-83 | a dependency cycle of unfinished tasks is a stuck set |
| TaskGate.StuckIsRefused | extensions/task-manager.ts:349-359 | starting or completing a stuck task is refused |
| TaskGate.StuckStaysStuck | extensions/task-manager.ts:256-365 | no event completes or starts a stuck task, and stuck tasks stay stuck |
| TaskGate.CycleNeverMoves | extensions/task-manager.ts:256-365 | once unfinished tasks wait for each other in a cycle, no run of creates, updates and restarts completes or starts any of them |
| TaskGate.UpdateKeepsSymmetry | extensions/task-manager.ts:335-348 | updates keep `blocks` and `blockedBy` in step between existing tasks |
| TaskGate.CreateKeepsSymmetryExactly | extensions/task-manager.ts:274-278 | an accepted create does exactly when nobody already names the new id, except blockers it lists itself |
| TaskGate.NamedTooEarly | extensions/task-manager.ts:261-278 | two creates from an empty manager after which they are out of step |
| TaskGate.LoadedIsSound | extensions/task-manager.ts:142-165 | whatever the state file holds, restored ids are all in the past and restored id lists clean, so that every run may start from it |
| TaskGate.LoadedExactly | extensions/task-manager.ts:113-165 | every task of the file comes back with its status and its nonblank ids, and numbering goes on behind both the number in the file and every id in it |
| TaskGate.SaveThenLoad | extensions/task-manager.ts:142-165 | writing the state and reading it back gives the same manager |
| TaskGate.TaskManager.TaskCreate | extensions/task-manager.ts:256-282 | the method is the step function's create and keeps the invariant |
| TaskGate.TaskManager.TaskUpdate | extensions/task-manager.ts:327-365 | the method, on a copy it commits only when the gate accepts, is the step function's update |

## Left out

Deliberately narrower statements:

- FocusWindows.FocusRanges: fractional context sizes are not modelled.
- FocusWindows.MergeIsUnique: sees the terms of a window as a set; their order, that of the sorted ranges, is in the loop but not in the contract.
- WorkerPool.RunPool: a worker's answer is a function of the index; a worker that never answers is not modelled.
- ActionLedger.DispatchDecides: the SHA-256 hash stands for the text it digests, so a collision is not modelled.
- StepLifecycle.SettlesInTime: timers fire at their deadlines, in this and the two other ladders; a late event loop adds its delay.
- TaskGate.SaveThenLoad: for states whose id lists hold no repetition and no blank, which every create, update and restore keeps.

Modelled as parameters or abstracted:

- `MAX_CONCURRENT` is an integer of at least 1; the environment variable may make it fractional or not a number.
- Step names and dependencies, and the id lists of tasks, arrive trimmed. String trimming and path resolution are parameters of the parser.
- `localeCompare` is any total preorder: it may rank distinct ids as equal.
- The ladders accept any number of error events, although the source listens for one; the theorems hold for every number, and the histories given as witnesses have one.
- JSON numbers are their decimal texts, and `undefined`, functions and non-finite numbers are not values.
- The two names a raw execution may use for its targets, and for its keys, are one field each, the one the parser picks.
- Promises, waiters and permits are known by number; `resolve` calls are entries of a log.
- Signals, process trees and exit codes are answers of the environment; the bounded lifecycle, the lease registry and the terminal cause latch appear only through what the ladders do with them.
- `Math.floor(n * 0.55)` in `headTail` is taken exactly; the result is the same.
- A file of the task manager's state is any list of identified tasks; its JSON, its version field and the safe integer bound are not modelled.

Not modelled:

- Early exits of `runStep` before its child exists (admission frozen, spawn failure), checkpoint publishing, the report text of a workflow, and the text and duration fields of results.
- The edge type filter, persistence and the editing operations of the canvas store.
- Parsing and persisting of desktop actions, and the actions themselves.
- Deterministic local runs of sub-agents, the limit on the number of parallel items, and the order in which shutdown drains its owners.
- Launch admission and history pruning of background tasks.
- The path of `task_update` that edits a task known only to the runtime status, runtime id aliases, and the recovery of tasks from the runtime status when the state file is missing, which keeps neither edges nor the ids of refused creates.
- The snippet text and length cap of focused extraction, and the sanitizer and closed pipe handling behind the line filter.
- Prompts, terminal and desktop interfaces, network tools and their budgets, permission and sandbox policy.
