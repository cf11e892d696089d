# Verified models of the tutoring platform's Workers, event streams and records

This project models the parts of the platform that must not go wrong quietly, and proves what they keep.

- **Workers.** `WorkerEvents` is the bus that carries results from Workers to the Coordinator; `PublishRace` looks
  closer at overlapping publications. `WorkerLifecycle`, `Capacity`, `Retention` and `Cancellation` are the four
  concerns of the task manager. `CapacityEffects` says what each scheduling step does. `WorkerRegistry` puts them
  together as one state with one invariant, `RegistryEffects` says field by field what each operation does,
  `RegistryRuns` follows that state over whole runs, and `TaskManager` is the class that changes its fields in place.
- **Coordinator.** `Barrier` waits for the Workers of a plan, `WaitPlans` follows plans over whole runs, and
  `Coordinator` is one session: foreground turns, notifications and the detached resume task; `CoordinatorEffects`
  says what its steps do.
- **Gateway.** `EventLog` is the durable log with its pruning, `EventStream` the stream that fills the gaps of a lossy
  queue from it and `StreamEffects` what happens to it; `EventBroker` and `EventTable` are the owners of queues and
  log. `Turns` is the state machine of turns and submissions, and `SubmissionAnswers` says what each step answers.
  `KnowledgeBook` holds teaching material, `BookEffects` says what each operation on it does, `FileUpdates` looks
  closer at overlapping updates and `UpdateCalls` says what their acts do; `Grading` scores exercises,
  `ExerciseSessions` records them and `ExerciseEffects` says what each step does. `RedisWorker` is the delivery of
  turns to Workers that may crash.
- **Tools and sandbox.** `ToolRuntime` is retrying and batching of tool calls, `OutputCollector` the clipping of
  output.

## How the models are built

- A protocol is a state machine whose step is what runs between two suspensions. Its functions are called `Next` or
  `Apply`, its runs `Run` (`Acted` and `Play` where one model drives another), and a theorem about every run quantifies
  over all lists of steps. A step that is not enabled changes nothing, so lists of steps need no precondition.
- An object that the program updates in place is a class. Its methods say with a function of the old state what the new
  state is; what that function keeps is proved once, about values.
- What other tasks do while a call is suspended is a parameter: `arrivals` for the bus, `script` for the event stream,
  `Meets` for a Redis delivery. A timeout is a choice, a clock is a number, and an oracle says how an invocation ends.
- Histories that no operation reads (`accepted`, `delivered`, `leaked`, `drafts`, `plans`, `started`) are auxiliary.

## Where the program does not do what it seems to

Each of these is proved, with the exact condition under which it happens or a concrete run.

- A pass over finished Workers compares a length that has already shrunk, so it repairs an excess of at most one
  (`Retention.OnePassRepairsOneExcess`). In every reachable state the excess is at most one.
- Two overlapping publications of one event id are both accepted (`PublishRace.OverlapIsAcceptedTwice`,
  `PublishRace.RunStaysSpacedIff`).
- A resume task that fails loses its batch and strands what arrived meanwhile unless a notification is still scheduled
  (`Coordinator.ResumeFailureStrandsUnlessNotified`).
- A Worker registered again while a plan waits for its id counts as waited for when that plan is done, although it was
  in no plan when that plan was built; the plan may take its result, but does not wait for it
  (`WaitPlans.NeverSkippedIff`, `WaitPlans.SkippedFromStart`).
- When the wait for a plan fails its Workers can be planned again, and nobody else is
  (`WaitPlans.PlannedOnceIff`, `WaitPlans.GivenUpIsPlannedAgain`).
- A Worker registered under itself or under one below it makes a later request to stop recurse without end
  (`Cancellation.RegisterKeepsAcyclicIff` with `Cancellation.StopTerminatesIffAcyclic`).
- A wait whose deadline has passed times out even if a matching result is in the queue, if and only if none was put
  aside before (`WorkerEvents.WorkerEventBus.GetForTurn`).
- Publications out of order can push the newest event out of a full queue (`EventStream.PublishUncoversIff`,
  `EventStream.OutOfOrderIsMissed`).
- A failure of the engine can be overwritten by a failed dispatch and then be accepted again
  (`Turns.BecomesRetryableIff`, `Turns.EngineFailureIsUndone`).
- An update of a file whose check comes before a publication and whose write comes after it changes a published file
  (`FileUpdates.LateWriteChangesPublished`, `FileUpdates.PlayKeepsPublishedIff`).
- Two overlapping gradings can leave two attempts (`ExerciseSessions.OverlapLeavesTwoAttempts`,
  `ExerciseSessions.OneAttemptIffNoRecount`).
- A second turn with an empty idempotency key is refused, because the key is stored but never looked up
  (`Turns.TurnRepository.CreateTurn`).
- The truncation flag is set by an empty text that comes when the budget is used up
  (`OutputCollector.FlagIsExactUnlessEmptyAtLimit`).
- A rubric without positive weights scores 0 even if everything is achieved (`Grading.FullScoreIffSomeWeight`).
- Slots leak when a Worker acquires twice or its record goes before its slot
  (`Capacity.CountersEqualHoldersIffDisciplined`).

The third loop of `drain` (core/worker_events.py:172-174) never runs: when the queue is empty so is the overflow. The
guard at core/coordinator_runtime.py:332 never fires unless the runtime is closed.

## Model

| member | source | states |
|---|---|---|
| WorkerEvents.Remember | core/worker_events.py:233-239 | Adding an accepted id keeps the window exact: it holds the last W ids of the acceptance history, its set holds exactly those, and equal ids in the history stay more than W acceptances apart. |
| WorkerEvents.Accept | core/worker_events.py:99-116 | A result is accepted if and only if its id is not among the last W accepted ones; then it is the new last element of the one list that the three containers stand for, and it goes to the overflow exactly when the queue is full. |
| WorkerEvents.Refill | core/worker_events.py:241-245 | Moving overflow into the queue changes neither content nor order, and leaves overflow only behind a full queue. |
| WorkerEvents.AcceptKeepsSpacing | core/worker_events.py:99-115 | Accepting an id keeps equal ids more than W apart if and only if the window does not hold it. |
| WorkerEvents.WindowDistinct | core/worker_events.py:233-239 | The window never holds an id twice nor more than W ids. |
| WorkerEvents.SelectedMeans | core/worker_events.py:134-215 | Selected are exactly the results of the turn, by one of its Workers if these are named; all others are rejected. |
| WorkerEvents.WithoutKeepsTheRest | core/worker_events.py:178-215 | Removing the first k selected results leaves every other result in order and drops exactly those k. |
| WorkerEvents.WithoutConserves | core/worker_events.py:178-215 | What is taken and what stays make up the list, counted with multiplicity. |
| WorkerEvents.WithoutTwice | core/worker_events.py:125-215 | Removals compose: taking a and then b matches is taking a + b matches. |
| WorkerEvents.WithoutConcat | core/worker_events.py:178-215 | Removal from two containers in a row: the second is touched only after the first has run out of matches. |
| WorkerEvents.TakeDeferred | core/worker_events.py:134-142 | The scan of the deferred list finds the first match, or shows that there is none, and removes only that. |
| WorkerEvents.SplitDeferred | core/worker_events.py:188-200 | The pass over the deferred list takes its first `limit` matches and retains the rest in order. |
| WorkerEvents.DrainSelected | core/worker_events.py:178-215 | A turn's drain takes the first `limit` matches of the one list and leaves everything else in order. |
| WorkerEvents.DrainAny | core/worker_events.py:160-176 | A drain takes the prefix of length min(limit, n) of the one list. |
| WorkerEvents.ScanQueue | core/worker_events.py:144-158 | The scan of the queue finds the first match of the one list, which is then the last of the entries it has looked at and within those it has time for; everything passed over is deferred in order, and a match stays behind only if that time was used up. |
| WorkerEvents.WorkerEventBus.Publish | core/worker_events.py:99-116 | On the bus: an accepted result is appended to its session's list, counted, and its subscriber is scheduled once; a duplicate changes nothing but a counter. Published always equals consumed plus pending over all sessions. |
| WorkerEvents.WorkerEventBus.Get | core/worker_events.py:118-123 | Takes the first result behind the deferred list, and keeps all others in order. |
| WorkerEvents.WorkerEventBus.Drain | core/worker_events.py:160-176 | The drained results followed by the pending ones are the old list; min(limit, n) are drained and counted; other sessions are untouched. |
| WorkerEvents.WorkerEventBus.DrainForTurn | core/worker_events.py:178-215 | Takes the first `limit` results of the turn's Workers; the rest of the session's list keeps its order; other sessions are untouched. |
| WorkerEvents.WorkerEventBus.GetForTurn | core/worker_events.py:125-158 | A deferred match is returned whatever the deadline, without a look at the queue; once the deadline has passed nothing else is. Whatever is published while the call waits, it returns the first match of the old list followed by the arrivals, the last of the entries looked at, and leaves the rest in order. A timeout leaves the list unchanged, leaves no deferred match, and leaves another only if the deadline passed after as many entries as it allowed. |
| WorkerEvents.WorkerEventBus.HasPending | core/worker_events.py:217-222 | True if and only if the one list is not empty. |
| PublishRace.CheckPasses | core/worker_events.py:99-104 | A publication passes the duplicate check if and only if its id is not among the last accepted ones of the window. |
| PublishRace.ApartRunsStaySpaced | core/worker_events.py:99-116 | With the check and the acceptance as separate steps, equal ids stay more than W apart in every run in which publications of one id do not overlap. |
| PublishRace.OverlapIsAcceptedTwice | core/worker_events.py:99-116 | A run in which two overlapping publications of one id are both accepted, next to each other; it breaks the spacing if and only if W is positive. |
| PublishRace.CommitKeepsSpacingIff | core/worker_events.py:107-115 | An acceptance keeps the spacing if and only if the id is outside the window at that moment, whatever the earlier check said. |
| PublishRace.RunStaysSpacedIff | core/worker_events.py:99-116 | Over every run equal ids stay more than W apart if and only if no acceptance finds its id in the window. |
| WorkerLifecycle.TerminalIsAbsorbing | core/worker_lifecycle.py:44-83 | In a legal history nothing but the same status follows a terminal one. |
| WorkerLifecycle.CancellingNeverSucceeds | core/worker_lifecycle.py:48-83 | After `cancelling` a Worker is cancelling, cancelled or failed, never completed or timed out. |
| WorkerLifecycle.SuccessNeedsRunning | core/worker_lifecycle.py:48-83 | Waiting, retrying, completed and timed-out Workers have been running before. |
| WorkerLifecycle.AppendFollowsHistory | core/task_manager.py:391-403 | The trace is the last `trace_limit` entries of a history numbered 1, 2, 3 and so on. |
| WorkerLifecycle.NumberingNeedsRoom | core/task_manager.py:391-403 | However many notes are written, the last number in the trace is their count if and only if `trace_limit` is at least one. |
| WorkerLifecycle.NewTaskIsRecorded | core/task_manager.py:118-137 | A registered Worker starts a legal, numbered history. |
| WorkerLifecycle.NewTaskHolds | core/task_manager.py:118-137 | A new record holds what it was registered with, a quorum of at least one, a timeout of at least 0.1, and is pending. |
| WorkerLifecycle.MoveKeepsRecord | core/task_manager.py:164-184 | An allowed transition keeps a record's history legal, numbered and mirrored in the trace. |
| WorkerLifecycle.MoveWrites | core/task_manager.py:164-184 | A move leaves the status asked for, the time of completion exactly with a terminal one, and a last trace entry with status and reason; nothing else changes. |
| WorkerLifecycle.StopWrites | core/task_manager.py:250-260 | A request to stop leaves a cancelling Worker with the reason and a cancelled future, and one trace entry unless it was cancelling before. |
| WorkerLifecycle.StopKeepsRecord | core/task_manager.py:250-260 | So does a request to stop. |
| Capacity.ClampsNeverAct | core/task_manager.py:236-243 | When a holder releases, neither counter is zero, so the clamps at zero never act. |
| Capacity.StepKeepsAccounts | core/task_manager.py:210-248 | Every turn of the acquire loop, release, pruning, resumption and cancellation keeps: counters add up to the total, both limits hold, each session's counter is its holders plus its leaked slots, and every waiter not yet woken is blocked right now. |
| Capacity.RunKeepsAccounts | core/task_manager.py:210-248 | The same over every interleaving. |
| Capacity.CountersEqualHoldersIffDisciplined | core/task_manager.py:210-248 | Over a whole run the counters equal the real holders if and only if Workers acquired only while holding nothing and gave up their records only after their slots. |
| CapacityEffects.AcquireEffect | core/task_manager.py:210-234 | A slot is given if and only if both limits leave room, and then counted for its session only; otherwise the Worker parks last. |
| CapacityEffects.ReleaseEffect | core/task_manager.py:236-248 | A holder gives back exactly one slot of its own session and wakes every waiter; a release of anybody else does nothing. |
| CapacityEffects.ForgetEffect | core/task_manager.py:365-376 | A record that goes takes no counter down: its slot counts as leaked in its session. |
| CapacityEffects.ReregisterEffect | core/task_manager.py:101-140 | So it is with a new registration, which leaves the waiters of earlier ones on their own. |
| CapacityEffects.WaiterEffects | core/task_manager.py:228-234 | Only a waiter that is done leaves the queue, and the others keep their order; cancelling one wakes no other. |
| Retention.StepKeepsOk | core/task_manager.py:365-376 | Finishing, registering again and cleaning up keep at most `terminal_limit` finished Workers, each once. |
| Retention.RunKeepsOk | core/task_manager.py:365-376 | The same over every run. |
| Retention.PassRemovesHalfTheExcess | core/task_manager.py:365-376 | One pass removes only half of an excess of unexpired entries, rounded up, because it compares a length that has already shrunk. |
| Retention.OnePassRepairsOneExcess | core/task_manager.py:365-376 | So one pass restores the limit if and only if the excess is at most one. |
| Retention.StaysRetrievable | core/task_manager.py:193-208 | A finished Worker stays retrievable until it is registered again, its time-to-live passes, or `terminal_limit` others have finished after it. |
| Retention.EvictedAtTheLimit | core/task_manager.py:365-376 | The bound is sharp: the oldest entry of a full store goes with the next completion. |
| Cancellation.StopTerminatesIffAcyclic | core/task_manager.py:250-282 | The recursion that stops a Worker ends for every active Worker if and only if the parent links among active Workers are acyclic. |
| Cancellation.SiblingsDisjoint | core/task_manager.py:271-282 | Different children of one Worker have disjoint subtrees, so nobody is visited twice. |
| Cancellation.SubtreeIsRootAndBelow | core/task_manager.py:250-282 | A subtree is its root and, apart from it, the subtrees of the root's children. |
| Cancellation.BelowGrows | core/task_manager.py:271-282 | Visiting one more child adds exactly that child's subtree and repeats nobody. |
| Cancellation.RegisterKeepsAcyclicIff | core/task_manager.py:101-140 | Registering a Worker creates a cycle if and only if its parent is the Worker itself or lies below it. |
| Cancellation.RemoveKeepsAcyclic | core/task_manager.py:193-208 | A Worker that leaves the active set creates no cycle. |
| WorkerRegistry.OpKeepsInv | core/task_manager.py:101-403 | Every operation of the task manager keeps every invariant at once: records, retention, scheduling and acyclic parent links. |
| WorkerRegistry.OpKeepsAcyclic | core/task_manager.py:101-282 | Every operation keeps the parent links among active Workers acyclic, a registration because its parent does not lie at or below it. |
| WorkerRegistry.RunKeepsInv | core/task_manager.py:101-403 | Every reachable state satisfies them. |
| WorkerRegistry.EveryRun | core/task_manager.py:101-403 | After any run: active and finished ids are disjoint; parent links are acyclic, so every request to stop returns; at most `terminal_limit` are finished; counters add up, respect both limits and cover the holders; every waiter that has not been woken really has to wait; traces are the tail of consecutive histories; terminal statuses absorb; cancelling never succeeds. |
| WorkerRegistry.CleanProjects | core/task_manager.py:365-376 | The clean-up loop, which drops from the order it was copied from, is one step of the retention model. |
| WorkerRegistry.CleanIsLoop | core/task_manager.py:365-376 | On the order alone the loop over records and the loop of the retention model agree. |
| WorkerRegistry.LoopIsSweep | core/task_manager.py:365-376 | That loop leaves what a sweep leaves that decides entry by entry. |
| WorkerRegistry.CompleteKeepsInv | core/task_manager.py:193-208 | A completion keeps every invariant and reports whether it was done, illegal or for an unknown Worker. |
| WorkerRegistry.StopKeepsInv | core/task_manager.py:250-260 | Stopping a set of Workers keeps every invariant. |
| WorkerRegistry.StopTurnByParts | core/task_manager.py:250-260 | Asking the root, stopping its children's subtrees and cancelling its future amounts to stopping its subtree. |
| WorkerRegistry.StopChild | core/task_manager.py:271-282 | Stopping the next child extends what is stopped by that child's subtree, whatever was stopped before. |
| WorkerRegistry.BuildWaitPlan | core/task_manager.py:300-322 | There is a plan if and only if a Worker of the turn is joined and unconsumed; it covers exactly those; its mode is theirs if they agree and `all` if not; its quorum lies between one and their number and is the largest asked for; its timeout is the shortest. |
| WorkerRegistry.ConsumedPlanIsDone | core/task_manager.py:324-328 | After its plan is consumed a turn has nothing to wait for until another Worker joins. |
| RegistryRuns.RunRefinesStore | core/task_manager.py:101-403 | Every run of the task manager is a run of the finished-Worker store: finished Workers change only by finishing, by registering again and by clean-up. |
| RegistryRuns.FinishedStaysRetrievable | core/task_manager.py:193-208 | Over every run of the task manager a finished Worker stays retrievable until it is registered again, its time-to-live passes, or as many others as the limit allows have completed after it. |
| RegistryRuns.CountersAreExact | core/task_manager.py:210-248 | Over every run in which slots are given back before completion and re-registration, each session's counter is exactly the number of its active Workers that hold a slot. |
| RegistryEffects.AllowedAfter | core/worker_lifecycle.py:48-83 | Who may become what, seen from the new status: running again after waiting or retrying, completed only out of running, failed or cancelled out of everything that has not ended. |
| RegistryEffects.RegistrationEffect | core/task_manager.py:101-140 | A registration leaves a pending record with what was asked for and the next attempt; every other record and all counters stay. |
| RegistryEffects.TransitionEffect | core/task_manager.py:164-184 | A transition gives exactly that Worker the status asked for, wherever its record is. |
| RegistryEffects.CompletionEffect | core/task_manager.py:193-208 | A completed Worker is active no longer, and is found with the status it was completed with, or with its earlier ending, as long as it is retained; everybody else keeps their record that long. |
| RegistryEffects.AcquireEffect | core/task_manager.py:210-226 | While neither limit is reached the slot is given: the Worker holds it and runs if it may, and both counters rise by one. |
| RegistryEffects.ParkEffect | core/task_manager.py:228-234 | Behind a limit that is reached the Worker parks at the end of the queue, and no counter moves. |
| RegistryEffects.ResumeEffect | core/task_manager.py:228-234 | A waiter that is done leaves the queue; the others keep their order and nothing else changes. |
| RegistryEffects.ReleaseEffect | core/task_manager.py:236-248 | A release lowers both counters by exactly one, wakes every waiter and changes no other record. |
| TaskManager.TaskManager.constructor | core/task_manager.py:76-99 | The manager starts empty and with every invariant. |
| TaskManager.TaskManager.RegisterTask | core/task_manager.py:101-140 | The fields change as the registry model's registration says, with the attempt counted on from an earlier record. |
| TaskManager.TaskManager.TransitionTask | core/task_manager.py:164-184 | Either the record, active or finished, moves and is traced, or nothing changes and the error is reported: done if and only if the state changed, and then the Worker has the status asked for. |
| WorkerRegistry.AttemptIsTraced | core/task_manager.py:186-191 | A new attempt is the last entry of the Worker's trace, numbered on, and the next registration of its id counts on from it; its status, everybody else and the accounts stay. |
| TaskManager.TaskManager.AcquireExecutionSlot | core/task_manager.py:210-234 | One turn of the loop, run for the present registration or an earlier one: it runs, parks, is gone, or is refused with its slot counted; each outcome has its exact condition, parking is counted, and the new state is the model's. |
| TaskManager.TaskManager.ReleaseExecutionSlot | core/task_manager.py:236-248 | Gives back a held slot once and wakes every waiter; without a slot nothing changes. |
| TaskManager.TaskManager.CleanupTerminal | core/task_manager.py:365-376 | The loop over the snapshot computes the model's pass and counts exactly what it removes. |
| TaskManager.TaskManager.CompleteTask | core/task_manager.py:193-208 | Files the final record, moves the Worker to the end of the order and cleans up; an unknown Worker or an illegal status changes nothing. Afterwards the Worker is not active, and while it is retained its record has the status asked for and the time, or is the one that it had finished with before. |
| TaskManager.TaskManager.MarkWaitConsumed | core/task_manager.py:324-328 | Marks exactly the named records, wherever they are. |
| TaskManager.TaskManager.StopTask | core/task_manager.py:250-260 | Stops exactly the subtree below an active Worker; the recursion ends on the acyclic parent links of every reachable state; an unknown Worker is an error. |
| TaskManager.TaskManager.CancelDescendants | core/task_manager.py:271-282 | Stops exactly what lies below the children. |
| TaskManager.TaskManager.CancelWorkers | core/task_manager.py:262-269 | Afterwards exactly the active Workers at or below the named ones are cancelling with their futures cancelled; the active ones named are returned; nobody else changes. |
| TaskManager.StopReachesTheSubtree | core/task_manager.py:250-282 | One request reaches each Worker of the subtree once: the counter rises by its size, each gets the reason of its own parent, and everything else stays. |
| WaitPlans.PlannedOnceUnlessGivenUp | core/coordinator_runtime.py:232-258 | Over every run two plans share a registration only if the wait for the earlier one failed, and there are no more plans than registrations and failed waits, so the plan loop ends unless Workers keep registering. |
| WaitPlans.BuildRepeatsIff | core/task_manager.py:300-322 | A new plan shares a registration with an earlier one if and only if it shares one with a plan whose wait failed. |
| WaitPlans.PlannedOnceIff | core/coordinator_runtime.py:232-258 | Over every run no registration is in two plans if and only if no plan is built with somebody who is in a plan whose wait failed. |
| WaitPlans.GivenUpIsPlannedAgain | core/coordinator_runtime.py:232-258 | A run in which the wait for a plan fails and the same registration is planned again. |
| WaitPlans.BuildIsNew | core/task_manager.py:300-322 | A new plan covers only registrations that were in no plan before, but for plans whose wait failed. |
| WaitPlans.SkippedIffOverlapping | core/task_manager.py:324-328 | A registration comes to count as waited for although it was in no plan when that plan was built if and only if it was registered under an id of a plan that was open at that moment. |
| WaitPlans.NeverSkippedIff | core/task_manager.py:324-328 | Over every run nobody is ever passed over if and only if nobody is registered under an id of an open plan. |
| WaitPlans.SkippedFromStart | core/task_manager.py:324-328 | A run from the start in which that happens, and after which nothing is left to wait for. |
| WaitPlansOfRegistry.OpIsChange | core/task_manager.py:101-403 | Every operation of the task manager except consuming a plan leaves what is waited for as it is, but for a registered record. |
| WaitPlansOfRegistry.ConsumeWaits | core/task_manager.py:324-328 | Consuming a plan in the task manager is closing it in the plan model. |
| WaitPlansOfRegistry.JoinedIsDue | core/task_manager.py:300-309 | The Workers a plan is built from are the ones the plan model calls due. |
| WaitPlansOfRegistry.PlayIsRun | core/task_manager.py:101-403 | Every run of the task manager in which turns build, finish and abandon plans is a run of the plan model, with the same plans, registrations and failed waits. |
| WaitPlansOfRegistry.PlansAreFew | core/coordinator_runtime.py:232-258 | Over every run of the task manager turns build no more plans than Workers were registered and waits failed. |
| Barrier.BarrierMeaning | core/coordinator_runtime.py:320-327 | `all` is satisfied if and only if every Worker of the plan is completed, `any` if and only if one is, `quorum` if and only if some set of that size is. |
| Barrier.BarrierMonotone | core/coordinator_runtime.py:320-327 | More completed Workers never unsatisfy a barrier. |
| Barrier.PlanCanBeMet | core/coordinator_runtime.py:320-327 | A plan that was built can be met, by all its Workers, and is not met by none. |
| Barrier.CollectBarrierEvents | core/coordinator_runtime.py:285-318 | Under any publications meanwhile: it takes a prefix of the plan's results in the order of acceptance and nothing else; it waits no longer than until the barrier is satisfied, and times out if and only if it is not, because no round was left, the last round has looked at as many entries as its deadline allowed, or neither an arrival nor a result of the plan was left; when the wait is over it takes what else of the plan is there, up to 100 results. |
| Barrier.CollectedLeavesTheRest | core/coordinator_runtime.py:285-318 | Results of other turns and other Workers keep their order, nothing is lost or doubled, and only results of the plan's turn and Workers are collected. |
| Coordinator.ResumeNeverMeetsForeground | core/coordinator_runtime.py:329-333 | In every reachable state the resume task that gets the lock finds no foreground turn, so its guard never fires. |
| Coordinator.StepKeepsLocked | core/coordinator_runtime.py:139-230 | A foreground turn is active exactly while it holds the session lock, the resume task holds a batch exactly while it does. |
| Coordinator.GroupSplitsBatch | core/coordinator_runtime.py:336-339 | A resume message and the rest of its batch make up the batch. |
| Coordinator.GroupIsOneTurn | core/coordinator_runtime.py:336-339 | A resume message holds results of one turn, and all of the batch if they have a turn. |
| Coordinator.GroupByTurn | core/coordinator_runtime.py:336-339 | The dictionary loop computes the messages in the order of their oldest results. |
| Coordinator.StepConserves | core/coordinator_runtime.py:139-369 | Every step, failing ones included, keeps each accepted result in exactly one place: pending, in hand, in the batch, delivered or lost. |
| Coordinator.StepKeepsAwake | core/coordinator_runtime.py:154-230 | Every step but a failing resume keeps: pending results have an active turn, a live resume task or a scheduled notification. A failing foreground turn is covered. |
| Coordinator.ResumeFailureStrandsUnlessNotified | core/coordinator_runtime.py:362-365 | A failing resume task strands what is pending if and only if no notification is scheduled. |
| Coordinator.NextPublicationOrTurnRecovers | core/coordinator_runtime.py:216-230 | From a state with stranded results, after the next publication, notification or end of a turn the session can settle by its own steps, and then everything accepted has been delivered, once, but for what had been lost by then. |
| Coordinator.ResumeFailureStrands | core/coordinator_runtime.py:329-369 | A concrete run that strands one result and loses another. |
| Coordinator.DeliveredAtMostOnce | core/coordinator_runtime.py:329-369 | Over every run no result is delivered more often than it was accepted. |
| Coordinator.QuietMeansAllDelivered | core/coordinator_runtime.py:139-369 | Without failures, whenever nobody runs and nothing is scheduled, every accepted result has been delivered, once. |
| Coordinator.CanSettle | core/coordinator_runtime.py:223-369 | From every state in which nothing is stranded the session can settle by its own steps, with nothing left on the bus. |
| Coordinator.InternalStepAdvances | core/coordinator_runtime.py:223-369 | Whichever of its own steps a session takes next, it comes closer to being quiet in an order without infinite descent. |
| Coordinator.WhereItStops | core/coordinator_runtime.py:223-369 | Whatever own steps are taken in whatever order, where none is left the session is quiet with nothing left on the bus. |
| Coordinator.SessionRuntime.NotifyWorkerEvent | core/coordinator_runtime.py:223-230 | Afterwards a foreground turn or a resume task is there to take what is pending, and a live resume task was not replaced. |
| Coordinator.SessionRuntime.LeaveTurn | core/coordinator_runtime.py:216-221 | The end of a turn clears the flag, starts a resume task if results are pending and releases the lock, as one step of the model. |
| Coordinator.SessionRuntime.PublishResult | core/worker_events.py:99-116 | On the real bus a publication is one step of the session model, or none for a duplicate. |
| Coordinator.SessionRuntime.CollectForPlan | core/coordinator_runtime.py:309-318 | On the real bus a collection is one step of the session model. |
| Coordinator.SessionRuntime.DrainBatch | core/coordinator_runtime.py:331-335 | On the real bus a drain of the resume task is one step of the session model; an empty one ends the task. |
| Coordinator.SessionRuntime.DeliverNextGroup | core/coordinator_runtime.py:340-361 | Each message sent is the next group of the batch, and the rest of the groups is kept. |
| Coordinator.SessionRuntime.SubmitTurn | core/coordinator_runtime.py:154-161 | A user turn waits for the lock unless a turn is active. |
| CoordinatorEffects.SubmitEffect | core/coordinator_runtime.py:154-161 | Submitting a turn moves no result and no task; only outside a turn does one more wait for the lock. |
| CoordinatorEffects.StartEffect | core/coordinator_runtime.py:329-335 | A resume task that meets a foreground turn ends and touches nothing; any other takes the oldest hundred results, in order, and ends if there are none. |
| CoordinatorEffects.LeaveEffect | core/coordinator_runtime.py:216-230 | The end of a turn frees the lock and starts a resume task if and only if results are pending and none is live; what it had in hand after an exception is lost, and nothing else is. |
| CoordinatorEffects.ResumeEffect | core/coordinator_runtime.py:336-367 | A resume message takes its results out of the batch, beginning with the oldest; an exception loses the whole batch. |
| CoordinatorEffects.NotifyEffect | core/coordinator_runtime.py:223-230 | A notification starts a resume task if and only if there is neither an active turn nor a live resume task. |
| EventLog.PageIsSlice | gateway/repository.py:482-491 | On a log without gaps a page is the slice behind the given number, of at most the clamped limit. |
| EventStream.HappenKeeps | gateway/events.py:96-114 | Appending, publishing and pruning, in any order and with repetitions, keep the table in order and the queue within what the turn ever had; the log only grows and stays gapless while no pruning counts the turn as over; while publications never go back, the newest is yielded, in hand or last in the queue. |
| EventStream.PublishUncoversIff | gateway/events.py:96-114 | A publication loses the newest event if and only if the queue is full, its oldest entry is the only copy of it and the published event is older. |
| EventStream.ReplayHistory | gateway/core.py:1244-1253 | The paging loop ends, whatever is appended or pruned meanwhile; on an intact log it has yielded exactly what lies behind the start number up to its last read. |
| EventStream.FillGap | gateway/core.py:1274-1291 | The gap loop ends; on an intact log it yields exactly what is missing in front of the live event and never meets an empty page. |
| EventStream.TakeEvent | gateway/core.py:1270-1300 | An event of the queue is skipped if it was yielded, and otherwise yielded behind whatever was missing; numbers only rise. |
| EventStream.FollowLive | gateway/core.py:1270-1300 | The live loop keeps the stream ascending, and exact on an intact log; it stops at a terminal event or after everything has happened and, with publications in order, having yielded everything published. |
| EventStream.StreamEvents | gateway/core.py:1235-1302 | For every script of appends, publications and prunings and every table: numbers rise above the start number, so nothing is yielded twice, and only events of the turn are. If the log was gapless and no pruning counts the turn as over it stays intact, and what is yielded is that log behind the start number, at least as far as it went at the start. The stream of a turn that is over finishes, with a terminal event or one page behind the replay; that of another one finishes only upon a terminal event, the last one yielded or one in the last page of the replay; one that has not finished has emptied its queue after everything in the script has happened, has not passed a terminal event unless it closed a full page of the replay, and, with publications in order, misses nothing published. |
| EventStream.OutOfOrderIsMissed | gateway/events.py:96-114 | A run from an empty table: two events are appended, published the other way round to a queue for one event, and the newest is dropped although the log is intact. |
| StreamEffects.AppendEffect | gateway/repository.py:445-480 | An appended event comes last in its turn's log with the next number; no other turn's log and no queue changes. |
| StreamEffects.AppendNumbers | gateway/repository.py:445-480 | In a gapless log the next event gets the number that is one more than its length, and the log stays gapless. |
| StreamEffects.PublishEffect | gateway/events.py:96-114 | A published event is the newest in a subscriber's queue, which keeps to its capacity and loses nothing below it. |
| StreamEffects.PruneEffect | gateway/repository.py:1750-1810 | Pruning never reaches a subscriber's queue; a turn that is not over keeps its rows, and the log counts as intact exactly while no pruning counts its turn as over. |
| StreamEffects.InOrderIff | gateway/events.py:96-114 | Publications count as in order over a script if and only if the numbers published never fall. |
| EventBroker.OfferMeaning | gateway/events.py:102-113 | The new event is last, the queue keeps its order and bound, and only the oldest entry can go, and only from a full queue. |
| EventBroker.GatewayEventBroker.Subscribe | gateway/events.py:67-83 | A subscription gets a new id and an empty queue; one without a turn and a session is an error. |
| EventBroker.GatewayEventBroker.Publish | gateway/events.py:96-114 | Exactly the subscribers who asked for the event's turn and session, or did not name one, have it last in their queues, behind what they had or all but its oldest entry; nobody else changes; the result counts those who lost an entry. |
| EventTable.EventRepository.AppendEvent | gateway/repository.py:445-480 | A new event's number is above all of its turn, a gapless log stays gapless, and ids stay unique. |
| EventTable.EventRepository.EnsureEvent | gateway/repository.py:493-515 | Returns the turn's first event of the kind, and appends one if and only if there was none. |
| EventLog.NumberingSurvivesIff | gateway/repository.py:452-457 | After a deletion the numbering goes on where it was if and only if the turn's newest row survived. |
| EventLog.CapBounds | gateway/repository.py:1786-1801 | The cap leaves at most that many rows, |
| EventLog.CapSpares | gateway/repository.py:1786-1801 | all of them if they fit, |
| EventLog.CapKeepsNewest | gateway/repository.py:1786-1801 | and the newest ones. |
| EventLog.NewerIsByAge | gateway/repository.py:1786-1801 | Newer is by time, then by number, then by id. |
| EventLog.PruningTakes | gateway/repository.py:1750-1810 | A pruning takes of finished turns exactly the rows that are older than the cutoff and tell neither a message nor an ending, and those beyond the cap among the rest of their session; every other row stays. |
| EventLog.PruningSparesActiveTurns | gateway/repository.py:1750-1810 | A whole pruning leaves the rows of a turn that is not over exactly as they were. |
| EventLog.PruningLeavesNewest | gateway/repository.py:1750-1810 | Of a session's finished turns, compaction aside, exactly the newest rows within the cap are left. |
| EventTable.EventRepository.PruneEvents | gateway/repository.py:1750-1810 | The session loop computes the whole pruning: turns that are not over keep their rows in order, and of its finished turns each session keeps, compaction aside, exactly the newest rows within its cap. |
| Turns.UpdateKeepsTable | gateway/repository.py:362-381 | A status change, with every field it writes, keeps a turn ended if and only if it has an end time, and keys unique. |
| SubmissionAnswers.UpdateEffect | gateway/repository.py:349-411 | A status change that no ending blocks writes status, both texts and the times of that turn and of no other; one that is blocked writes nothing. |
| SubmissionAnswers.RecoveryEffect | gateway/repository.py:1812-1828 | A restart interrupts every active turn, with the time and the reason, and leaves all others as they were. |
| Turns.TurnRepository.CreateTurn | gateway/repository.py:281-347 | Creates a turn unless somebody holds its key: a key that is looked up returns the holder, an empty one violates the table's uniqueness rule, and either changes nothing. |
| Turns.TurnRepository.UpdateTurn | gateway/repository.py:349-411 | Writes the status unless the turn has ended otherwise; an unknown turn is an error. |
| Turns.TurnRepository.RecoverInterrupted | gateway/repository.py:1812-1828 | Interrupts exactly the accepted and running turns. |
| Turns.StepKeepsOk | gateway/core.py:375-691 | Every step of submissions, aborted ones included, executions, cancellations and recoveries keeps: one turn per key, at most one active turn per session, replies that name the key's turn, and no active turn between a submission's check and its creation. |
| Turns.OneActiveTurnAndOnePerKey | gateway/core.py:375-691 | In every reachable state a session has at most one accepted or running turn, and a user's key at most one turn. |
| Turns.RepliesAgree | gateway/core.py:409-432 | All replies to one key of one user and session name the same turn. |
| Turns.RepliesNameOwnTurn | gateway/core.py:409-432 | A reply names a turn of the request's own user, session and key that was created for the same content. |
| SubmissionAnswers.SubmitAndAbort | gateway/core.py:400-432 | A submission starts only in a session that has none, and an abort ends it without an answer and without touching a turn. |
| SubmissionAnswers.EngineSteps | gateway/repository.py:349-411 | The engine's status changes and a restart touch no submission and no answer. |
| SubmissionAnswers.LookUpAnswers | gateway/core.py:409-432 | A request whose key belongs to a turn of the same content that is not to be retried is answered with that turn as a duplicate; one whose key belongs to a turn of other content is refused; every other one goes on. |
| SubmissionAnswers.ActiveAnswers | gateway/core.py:433-437 | A session with an accepted or running turn refuses another one, and no other session does. |
| SubmissionAnswers.CreateAnswers | gateway/repository.py:281-347 | The creation makes exactly one accepted turn with the request's content if nobody holds its key; otherwise all turns stay, and it answers with the key's turn, goes on to its retry, or refuses a second empty key. |
| SubmissionAnswers.RetryAnswers | gateway/repository.py:349-411 | A retry accepts the failed turn again with nothing left of its failure. |
| SubmissionAnswers.DispatchAnswers | gateway/core.py:640-691 | A dispatch answers with the turn that was created or accepted again. |
| SubmissionAnswers.DispatchFailureAnswers | gateway/core.py:640-691 | A failing dispatch refuses, and leaves its turn to be retried unless that has ended otherwise meanwhile. |
| SubmissionAnswers.ResubmissionIsAnswered | gateway/core.py:409-432 | A request whose key has a settled turn of the same content is answered with that turn when it is submitted again, whatever happens between its submission and its look for the key. |
| SubmissionAnswers.AnsweredAgain | gateway/core.py:409-432 | From every reachable state: what was ever answered for a key is answered again once its turn is settled. |
| Turns.StepKeepsEndings | gateway/repository.py:388-405 | A step changes a terminal status only by accepting a failed dispatch again, and only through that submission. |
| Turns.SettledForever | gateway/repository.py:388-405 | Completed, cancelled and interrupted are for ever, over every run. |
| Turns.BecomesRetryableIff | gateway/repository.py:388-405 | A step turns another failure into one that a retry may undo if and only if it records a failed dispatch for that turn. |
| Turns.FailedForGoodIff | gateway/repository.py:388-405 | Over a run another failure stays one throughout if and only if nobody records a failed dispatch for it. |
| Turns.EngineFailureIsUndone | gateway/repository.py:388-405 | A run from the start in which an engine failure is overwritten by a failed dispatch and the turn is then accepted again. |
| OutputCollector.RoundTrip | sandbox-runtime/nova_runtime.py:50-59 | Decoding undoes the encoding of section 3 of RFC 3629. |
| OutputCollector.MatchedIsEncoded | sandbox-runtime/nova_runtime.py:50-59 | A sequence that decodes to a character is the encoding of that character, which is a code point that can be encoded. |
| OutputCollector.RoundTripIff | sandbox-runtime/nova_runtime.py:50-59 | Decoding gives a text back if and only if each of its code points can be encoded. |
| OutputCollector.CutCharacterIsIgnored | sandbox-runtime/nova_runtime.py:55-58 | A cut-off character decodes to nothing. |
| OutputCollector.ClipKeepsWholeCharacters | sandbox-runtime/nova_runtime.py:55-58 | Cutting the bytes and ignoring what is cut off keeps exactly the whole characters that fit. |
| OutputCollector.FitsIsLongest | sandbox-runtime/nova_runtime.py:55-58 | Those are the most that fit. |
| OutputCollector.FlagIsExactUnlessEmptyAtLimit | sandbox-runtime/nova_runtime.py:52-57 | The flag of one call says that something was lost, except for an empty text when the budget is used up. |
| OutputCollector.OutputCollector.Append | sandbox-runtime/nova_runtime.py:50-60 | The used bytes are the encoded length of both streams and within the budget; a text is stored up to its last whole character that fits; an unset flag means that nothing was ever lost; a text that cannot be encoded is an error. |
| ToolRuntime.ValidatedIffContract | core/tool_runtime.py:207-223 | A descriptor passes if and only if it keeps the contract once an exclusive tool has been given its lock. |
| ToolRuntime.RetryMeansTransient | core/tool_runtime.py:712-725 | A retry follows if and only if attempts are left and the ending is a listed timeout, network failure or rate limit of a tool that may run twice. |
| ToolRuntime.Execute | core/tool_runtime.py:479-620 | The number of invocations is exact: none when denied or invalid, otherwise up to the first ending that is not transient and at most `max_attempts`; one for a tool that is neither read-only nor idempotent. The result is a success if and only if the last invocation returned; a reported error, a timeout and an exception give failures of their kinds, retryable if and only if the ending is transient. |
| ToolRuntime.ExecuteMany | core/tool_runtime.py:896-923 | Result i belongs to call i; the batches are the calls in order, each one call or a run of safe calls, and no run could be longer; every call starts and ends once, and a batch starts only after the one before has ended. |
| ToolRuntime.Gather | core/tool_runtime.py:917-921 | Whatever order the calls of a batch start and end in, the results are in the order of the calls. |
| ToolRuntime.OnlyReadersOverlap | core/tool_runtime.py:896-923 | If one call starts while another is running, both tools are read-only and without a lock. |
| ToolRuntime.BatchesAreDetermined | core/tool_runtime.py:896-923 | The batches are the only ones with these properties. |
| RedisWorker.StepKeepsJustified | gateway/redis_transport.py:173-281 | Every step, crashes included, keeps: an acknowledged entry was dead-lettered, found cancelled or over, cancelled before its start, stopped after its cancel key was set, given up by its own execution, or executed to the end. |
| RedisWorker.AcksAreJustified | gateway/redis_transport.py:173-281 | The same over every run; and a delivery whose second check found the cancel key is never started. |
| RedisWorker.AckedForever | gateway/redis_transport.py:311-314 | No entry disappears and an acknowledgement is final. |
| RedisWorker.EveryEntryCanBeSettled | gateway/redis_transport.py:173-281 | Whatever crashed before, any idle Worker can take any entry that is not acknowledged to its acknowledgement. |
| RedisWorker.CrashBeforeAckRepeats | gateway/redis_transport.py:270-280 | A crash between the end of an execution and its acknowledgement leaves the entry to be taken again. |
| RedisWorker.RunOnce | gateway/redis_transport.py:173-281 | What the Worker meets decides whether and why it acknowledges: malformed or unknown turns as dead letters, a key at the first check, a turn that is over, a key at the second check, a stop while running, an execution that gave up or ended; an entry that nobody else takes ends in exactly that state, the call counts one exactly then, and it is a run of the model. |
| KnowledgeBook.OrderedByPlace | gateway/repository.py:1398-1398 | A deduplicated list has no repetitions and is in the order of first occurrences. |
| KnowledgeBook.SameMembers | gateway/repository.py:1398-1398 | It has the same members. |
| KnowledgeBook.Dedupe | gateway/repository.py:1398-1398 | The loop keeps exactly the first occurrences. |
| KnowledgeBook.CheckRefs | gateway/repository.py:1399-1407 | The first reference to a missing file or to another point's file decides the error. |
| KnowledgeBook.StepKeepsOk | gateway/repository.py:1072-1482 | Every operation keeps: references are to existing files of the same point, each once; drafts are numbered by revision; what is published is the draft of its revision, not newer than the page's. |
| KnowledgeBook.PublicationIntegrity | gateway/repository.py:1072-1482 | The same over every run. |
| KnowledgeBook.StepKeepsPublishedIff | gateway/repository.py:1326-1384 | A step changes or removes a published file if and only if it is a write of other content that finds its file published. |
| KnowledgeBook.RunKeepsPublishedIff | gateway/repository.py:1326-1384 | Over every run published content is kept if and only if no write finds its file published. |
| FileUpdates.CallsRunTheBook | gateway/repository.py:1326-1369 | With reading, checking and writing of an update as separate steps of any number of callers, what happens to the book is a run of the book. |
| FileUpdates.ActKeepsPublishedIff | gateway/repository.py:1326-1369 | In every state that such calls can reach, an act changes or removes published content if and only if it is the write of a call whose file was published after its check, is still published and has other content. |
| FileUpdates.PlayKeepsPublishedIff | gateway/repository.py:1326-1369 | Over every run of such calls published content is kept if and only if no call writes in that way. |
| FileUpdates.PlayKeepsAware | gateway/repository.py:1326-1369 | Over every run a checked call whose file is published by now was overtaken by that publication. |
| FileUpdates.LateWriteChangesPublished | gateway/repository.py:1326-1369 | A run from a reachable book in which a publication comes between check and write and the published file changes. |
| UpdateCalls.BeginEffect | gateway/repository.py:1338-1352 | An update opens for a file that exists, with the new content or the content it has read. |
| UpdateCalls.CheckEffect | gateway/repository.py:1341-1348 | The check ends the call if and only if some published list has the file. |
| UpdateCalls.OtherEffect | gateway/repository.py:1326-1369 | Any other operation leaves every call as it was, but for the note that its file was published after its check. |
| UpdateCalls.NothingElse | gateway/repository.py:1326-1369 | What is not possible changes neither the book nor the calls: a second check, a write without a check, a write that no call makes. |
| UpdateCalls.FinishEffect | gateway/repository.py:1353-1369 | A checked call writes its content into its file and into nothing else. |
| KnowledgeBook.ImportIsAtomic | gateway/repository.py:1155-1216 | A stale revision refuses the package; a refused package changes nothing; one that is taken raises each page's revision by one. |
| KnowledgeBook.NewPageTwiceIsRefused | gateway/repository.py:1171-1190 | A package with a page twice is refused by the table's key if and only if the page is new. |
| KnowledgeBook.ListingReturnsLastSet | gateway/repository.py:1437-1451 | Over every run listing returns the first occurrences of the ids last set, until a step that writes this very list. |
| KnowledgeBook.ImportInto | gateway/repository.py:1155-1216 | The loops of the import compute the model's import or its first error. |
| BookEffects.SaveEffect | gateway/repository.py:1079-1105 | A draft is saved as the next revision if and only if the expected one is current or none is expected; what was published stays. |
| BookEffects.PublishEffect | gateway/repository.py:1107-1145 | A page is published if and only if it exists, the expected revision is current, its draft is not blank and its list may be set; then the draft is what is published, as that revision. |
| BookEffects.SetRefsEffect | gateway/repository.py:1390-1421 | A list is replaced if and only if its files exist and belong to the point, by the same ids without repetitions; every other list stays. |
| BookEffects.FileEffects | gateway/repository.py:1326-1384 | Adding, writing and deleting a file change that file only; a file is deleted if and only if no list has it. |
| BookEffects.ImportTakenIff | gateway/repository.py:1155-1216 | A package is taken if and only if every revision is current, no new page comes twice and every list may be set. |
| BookEffects.ImportEffect | gateway/repository.py:1155-1216 | A package that is taken leaves each page with the text of its last item, one revision up, each list with the ids that came last for it, and everything else as it was. |
| KnowledgeBook.KnowledgeRepository.UpdatePage | gateway/repository.py:1079-1105 | Saves a draft as the next revision, or refuses a stale one and changes nothing. |
| KnowledgeBook.KnowledgeRepository.PublishPage | gateway/repository.py:1107-1145 | Publishes page and file list together or neither. |
| KnowledgeBook.PublishingRefsFixesFiles | gateway/repository.py:1453-1482 | The published list becomes the draft list and no other list changes; from then on each of these files counts as published, so an update finds it so and a deletion is refused. |
| KnowledgeBook.KnowledgeRepository.ReplaceRefs | gateway/repository.py:1390-1421 | Replaces one list after checking every id, or nothing. |
| KnowledgeBook.KnowledgeRepository.UpdateFile | gateway/repository.py:1326-1369 | Without interference: replaces the content, or reports that the file is missing or published and changes nothing. |
| KnowledgeBook.KnowledgeRepository.DeleteFile | gateway/repository.py:1371-1384 | Deletes a file that no list refers to, or reports why not and changes nothing. |
| KnowledgeBook.KnowledgeRepository.ApplyImport | gateway/repository.py:1155-1216 | Takes the whole package or nothing. |
| Grading.AcceptedIffPermutes | gateway/repository.py:1702-1705 | The comparison of index sets and of lengths accepts exactly the permutations of the criteria. |
| Grading.ScoreIsPercentage | gateway/repository.py:1706-1708 | The score is between 0 and 100. |
| Grading.RoundIsNearest | gateway/repository.py:1708 | No integer is nearer, and of two that are equally near the even one is taken. |
| Grading.WeightAdds | gateway/repository.py:1706-1708 | A set of criteria weighs what its parts weigh. |
| Grading.WeightOfOne | gateway/repository.py:1706-1708 | One criterion weighs its own weight. |
| Grading.ScoreIsNearestShare | gateway/repository.py:1706-1708 | With some weight the score is the integer nearest to the achieved share of it in percent. |
| Grading.ScoreMonotone | gateway/repository.py:1706-1708 | Achieving more never lowers it. |
| Grading.FullScoreIffSomeWeight | gateway/repository.py:1706-1708 | Achieving everything scores 100 if and only if some weight is positive; otherwise it scores 0. |
| Grading.Grade | gateway/repository.py:1701-1709 | A result is graded if and only if it is a permutation; the score does not depend on its order; 60 passes. |
| ExerciseSessions.OneQuestion | gateway/repository.py:1664-1727 | Over every run, however calls overlap, a session has at most one question, its attempts are numbered without gaps and its evidence is the same list. |
| ExerciseSessions.StepAddsSecondIff | gateway/repository.py:1692-1727 | A step adds a second attempt if and only if it writes a number taken after another attempt was written. |
| ExerciseSessions.OneAttemptIffNoRecount | gateway/repository.py:1692-1727 | A run ends with at most one attempt and one piece of evidence if and only if no call writes after it has counted another call's attempt. |
| ExerciseSessions.OverlapLeavesTwoAttempts | gateway/repository.py:1692-1727 | A run from a reachable session in which two overlapping calls leave two attempts. |
| ExerciseSessions.OneOfEach | gateway/repository.py:1664-1727 | Over every run in which grading calls do not overlap a session has at most one question, one attempt and one piece of evidence. |
| ExerciseSessions.StepKeepsOk | gateway/repository.py:1664-1738 | Every step of overlapping calls keeps the numbering, completes a session with its first attempt, and never removes or changes an attempt. |
| ExerciseSessions.ExerciseSession.RecordQuestion | gateway/repository.py:1664-1690 | Without interference: records the first question of an active session and says so, or refuses and changes nothing. |
| ExerciseSessions.ExerciseSession.GradeAnswer | gateway/repository.py:1692-1727 | Without interference: grades the open question of an active session, completes it and returns the score it recorded, or refuses and changes nothing. |
| ExerciseEffects.RecordOpens | gateway/repository.py:1664-1690 | A recording call opens with a text that is not empty, in an active session only. |
| ExerciseEffects.RecordLooks | gateway/repository.py:1664-1690 | It goes on only while the session has no question. |
| ExerciseEffects.RecordWrites | gateway/repository.py:1664-1690 | A recording call writes its text as the open question unless another call has written one by then, and touches no other call. |
| ExerciseEffects.GradeOpens | gateway/repository.py:1692-1727 | A grading call opens in an active session only. |
| ExerciseEffects.GradeLooks | gateway/repository.py:1692-1727 | A grading call goes on if and only if there is an open question and its result was accepted. |
| ExerciseEffects.GradeCounts | gateway/repository.py:1692-1727 | It takes the number of attempts there are, and nothing else changes. |
| ExerciseEffects.GradeWrites | gateway/repository.py:1692-1727 | A grading call records its answer and score one above the attempts it counted, answers the question and completes the session, unless there is evidence of that number. |
| ExerciseEffects.CloseEffect | gateway/repository.py:1729-1738 | Only an active session is closed, as completed, cancelled or expired. |

## Left out

- WorkerEvents.WorkerEventBus.Publish: the wait for room and its timeout are one step that ends in the queue or the overflow; cancellation inside `put` and `get` is not modelled. `PublishRace` has the two-step form.
- The five dictionaries of the bus are one record per session, and its list of subscribers is one subscriber whose scheduled calls are recorded.
- A negative deduplication window, which fails in the program, is excluded by the type.
- WorkerEvents.WorkerEventBus.GetForTurn: the deadline is a number of entries looked at, and waiting ends when the given arrivals end; real time is not modelled.
- Barrier.CollectBarrierEvents: the deadline is a number of rounds and of entries looked at in each, chosen by the environment.
- The mailbox and its commands (core/task_manager.py:149-162), snapshots, timelines and metrics: lookups and counters without an invariant of their own.
- TaskManager.TaskManager.StopTask: requires acyclic parent links, which is exactly when the recursion ends, and active Workers that are not in a terminal status; every reachable state has both (`WorkerRegistry.Inv`).
- WorkerRegistry.EveryRun: ranges over runs that enter terminal statuses through completion only, as the program does, and in which no registration closes a cycle, without which a request to stop does not return.
- The records of Workers are values in the tables, so aliasing of a record that was handed out is not captured.
- Resource budgets, Worker retry policies and error classification (core/worker_lifecycle.py:86-160): configuration checks.
- Coordinator: closing, releasing a session, injected user messages and the invocation of the model itself. An invocation may publish, register and collect at will.
- Coordinator.CanSettle: that the scheduler keeps taking steps that are enabled is not modelled; that whichever it takes leads to a quiet session is `Coordinator.InternalStepAdvances` with `Coordinator.WhereItStops`.
- `interrupt_all` and the bridge that feeds events from Redis: `stream_events` has no case for the interruption marker.
- EventStream.StreamEvents: which turns count as over is an input of each pruning; whether a stream ends with a terminal event is decided elsewhere, because the durable status is written first.
- EventTable: rows of a turn are a sequence, and event ids are numbers; text formats and time formats are not modelled.
- Turns: quotas, attachments, teaching sessions, authorization and the deletion of sessions. One gateway process is assumed, since the session lock is local to it.
- The same turn and page logic behind MySQL, and its claim generations, which depend on services that are not part of this model.
- RedisWorker: heartbeats, idle times and the fencing of executions; the control channel is the key that it sets. An execution that outlives the short drain after a cancellation may still be running when the entry is acknowledged.
- RedisWorker.RunOnce: what a delivery meets are the database's answers, cancel keys and requests to stop; a failing call to Redis itself is a crash of the model and not one of this call.
- RedisWorker.AcksAreJustified: justifies acknowledgements; exactly-once execution is not claimed, since the fencing is not part of this model.
- ToolRuntime: name prefixes of custom and MCP tools, semaphores and locks across calls, argument schemas, audit records and the text of errors; an exception comes with its class.
- The jitter of retry delays and every real delay.
- OutputCollector: artifact collection and the request parser.
- KnowledgeBook: one workspace; assets and their paths, names, media types and digests of files. Blank means spaces, tabs and line ends.
- KnowledgeBook.KnowledgeRepository.UpdateFile: the call without interference; overlapping calls are in `FileUpdates`.
- Grading: weights are exact reals instead of floating-point numbers; evidence texts are not modelled.
- ExerciseSessions.ExerciseSession.GradeAnswer: the call without interference; overlapping calls are the steps of the same module.
- Access control, settings, whiteboards, guided dialogues, statistics, telemetry, seeds, the web interface: easy lookups or input and output.
