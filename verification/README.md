# AI cloud control plane: a verified model

This project models, in Dafny, the parts of the control plane that keep durable work correct under
concurrency, crashes and retries, and proves what they promise over every run.

* **Node leases and attempts** (`LeaseProtocol`, `LeaseRuns`, `LeaseMeaning`, `LeaseRepository`, `Retry`,
  `ExecutionTypes`). Workers claim plan nodes under fenced leases. The protocol is a pure state machine; the
  repository class with its guarded updates is proved to compute it, safety is proved over all interleavings,
  and `LeaseMeaning` says what each operation gives its caller and when it is accepted.
* **Budget and worker** (`Budget`, `Worker`). The ledger's running counters are proved equal to sums over a
  book of reservations. The worker is proved on top of both, with other workers' operations between any two
  of its calls.
* **Plans and scheduling** (`PlanDag`, `Ordering`, `Scheduler`, `ScheduledRuns`). The three-colour search, plan validation,
  and the scheduler's ordering and no-stall guarantees.
* **Task commands** (`Tasks`, `TaskKernel`, `TaskProofs`, `KernelMeaning`, `TaskCommandStore`). Seven
  transactional commands over task projection, event log, idempotency records, outbox and route decisions.
  `TaskKernel` says when a command is admitted and what it writes, `KernelMeaning` what that comes to field by
  field and over runs; the class performs it statement by statement with rollback.
* **Model execution** (`ModelFlight`, `ModelCommands`). Single-flight provider calls: a counting law over all
  runs, a client system with crashes, and the client procedure itself.
* **Outbox** (`Outbox`, `OutboxStore`). Message leases, retries, the dispatcher and its backoff.
* **Lifecycle workflow** (`Lifecycle`, `LifecycleTurns`, `LifecycleWorkflow`). The loop that drives a task to a
  terminal status, and exactly when it would not end.

Conventions. One SQL transaction is one atomic step. Clocks, random tokens, ids, provider and delivery
results, and everything other clients do are parameters. Cost is `real`. Time 0 is Go's zero time.

Where code and comments or tests differ, or a natural property fails, the model follows the code:

* `CommitTransition` does not check the lifecycle; the log stays legal exactly for legal edges
  (`TransitionLegalIff`, `ReopensFinishedTask`).
* `Register` accepts records the protocol cannot start from (`RegisterInvariant`).
* An idempotency key of white space passes plan validation and is refused by `Register`
  (`ValidEffectRegisters`).
* The retry maximum bounds requeues decided on a current attempt number (`RetryBound`, `OverlapWitness`); it
  does not bound attempts, because reclaim and release add them without a requeue (`ReclaimAddsAttempt`).
* Releasing a node is the one move outside the table of node transitions (`MovesByTableIff`).
* A target that reports a negative cost leaves its reservation open (`PersistentWorker.Execute`).
* Task ids that differ only in surrounding space share lifecycle operation keys, which can keep a loop going
  for ever (`LoopsForeverIff`, `TwinIdsLoop`).
* Cost can pass its limit and outbox attempts their maximum, each under an exact condition (`CostPassesIff`,
  `AttemptsWithinIff`).
* An expired lease stays dead only while the clock does not step back (`ClockStepBackRevives`).

## Model

| member | source | states |
|---|---|---|
| `LeaseProtocol.RegisterInvariant` | internal/repository/postgres_execution_node_leases.go:38-64 | An accepted registration keeps the protocol invariant if and only if the record starts at attempt 0 and fence 0 in a state that claims no finished attempt; Register itself accepts others |
| `LeaseProtocol.RegisterWitness` | internal/repository/postgres_execution_node_leases.go:38-64 | A record that starts at attempt 3 is accepted and breaks the invariant |
| `LeaseProtocol.ClaimKeepsInv` | internal/repository/postgres_execution_node_leases.go:69-165 | Claiming, and reclaiming after expiry, keeps the row and the attempt history in agreement and never leaves two open attempts |
| `LeaseProtocol.MarkKeepsInv` | internal/repository/postgres_execution_node_leases.go:210-265 | Starting an attempt and both effect marks keep row and last attempt in agreement |
| `LeaseProtocol.CloseKeepsInv` | internal/repository/postgres_execution_node_leases.go:270-354 | Release and completion close the last attempt consistently with the new row state |
| `LeaseProtocol.RowOnlyKeepsInv` | internal/repository/postgres_execution_node_retry.go:15-51 | Renew and requeue touch the row only, and that stays consistent with the history |
| `LeaseProtocol.StepKeepsInv` | internal/repository/postgres_execution_node_leases.go:69-354 | Every transaction, accepted or refused, keeps the whole invariant of every node |
| `LeaseRuns.RunKeepsInv` | internal/repository/postgres_execution_node_leases.go:69-354 | Every interleaving of transactions by any workers, with their own clock readings, keeps the invariant |
| `LeaseRuns.ReachableNode` | internal/repository/postgres_execution_node_leases.go:69-354 | In every reachable state attempt number = fence = history length, attempt k carries number and fence k, RUNNING iff the last attempt is open, all earlier ones are closed, and the row's effect marks are the last attempt's |
| `LeaseRuns.RunExtends` | internal/repository/postgres_execution_attempts.go:108-202 | Over every run nodes persist, fences never fall, plan semantics are frozen and each attempt only grows |
| `LeaseRuns.AttemptHistory` | internal/repository/postgres_execution_attempts.go:45-63 | Over all runs a closed attempt never changes, a binding is set once, and every succeeded or effect-marked attempt has a complete binding |
| `LeaseRuns.NonIdempotentStartsOnce` | internal/repository/postgres_execution_node_leases.go:95-111 | After a non-idempotent mutation starts its effect no further attempt is ever created and no other attempt of the node ever starts one, through crashes, expiries, releases and requeues |
| `LeaseRuns.MutationCommitsOnce` | internal/repository/postgres_execution_node_leases.go:238-265 | A committed attempt of a mutation is and stays the last one, so no second attempt ever commits |
| `LeaseRuns.SucceededMutationIsCommitted` | internal/repository/postgres_execution_node_leases.go:329-335 | A SUCCEEDED mutation node has a committed SUCCEEDED last attempt and never changes again |
| `LeaseRuns.ClosedForGood` | internal/repository/postgres_execution_node_retry.go:28-33 | Terminal nodes that may not be requeued are frozen over every run |
| `LeaseRuns.GrantsMatchHistory` | internal/repository/postgres_execution_node_leases.go:122-163 | Along every run the i-th lease issued for a node carries the next fence and names the attempt stored under that fence |
| `LeaseRuns.FencedOut` | internal/repository/postgres_execution_node_leases.go:434-441 | Once a higher fence exists every operation with the older lease is refused, now and later, and changes nothing |
| `LeaseRuns.OneEffectiveLease` | internal/repository/postgres_execution_node_leases.go:434-441 | Of all leases ever issued for a node only the newest can have an operation accepted in a reachable state |
| `LeaseRuns.ExpiredForGood` | internal/repository/postgres_execution_node_leases.go:169-206 | With a clock that does not step back an expired, superseded or released lease never succeeds again |
| `LeaseRuns.ClockStepBackRevives` | internal/repository/postgres_execution_node_leases.go:169-206 | Without that premise an expired lease can be renewed: exactly when the clock reading lies between claim time less duration and expiry |
| `LeaseRuns.ClockStepBackWitness` | internal/repository/postgres_execution_node_leases.go:169-206 | A lease that expired at 20 is refused at 25 and renewed by a clock that reads 15 |
| `LeaseRuns.MovesByTableIff` | execution/state.go:67-113 | A transaction moves a node along the table of node transitions if and only if it is not an accepted release of that node |
| `LeaseRuns.RunByTableIff` | execution/state.go:67-113 | A whole run of a node follows the table if and only if it never releases the node |
| `LeaseRuns.ReleaseWitness` | internal/repository/postgres_execution_node_leases.go:270-300 | A freshly claimed node goes from RUNNING to READY, which the table does not list |
| `LeaseRepository.UpdateOne` | internal/repository/postgres_execution_attempts.go:316-325 | The update loop rewrites exactly the rows its WHERE clause matches and succeeds iff exactly one matches |
| `LeaseRepository.UpdateCurrent` | internal/repository/postgres_execution_attempts.go:155-202 | Over a numbered history an update naming the current fence can only affect the last attempt |
| `LeaseRepository.PostgresExecutionNodeLeases.Register` | internal/repository/postgres_execution_node_leases.go:38-64 | New table state and error are those of the protocol; the invariant survives iff the record is admissible or was refused |
| `LeaseRepository.PostgresExecutionNodeLeases.Claim` | internal/repository/postgres_execution_node_leases.go:69-165 | The transaction computes the protocol's claim and returns the lease with the next fence, in force from then until exactly now + duration; a refusal changes nothing |
| `LeaseRepository.PostgresExecutionNodeLeases.Renew` | internal/repository/postgres_execution_node_leases.go:169-206 | Only the unexpired current holder can renew; the lease is then in force until exactly now + duration, and a refusal changes nothing |
| `LeaseRepository.PostgresExecutionNodeLeases.StartAttempt` | internal/repository/postgres_execution_attempts.go:23-68 | Binds and starts the pending attempt of the presented lease and no other row |
| `LeaseRepository.PostgresExecutionNodeLeases.MarkEffectStarted` | internal/repository/postgres_execution_node_leases.go:210-233 | Row mark and attempt mark are set together or not at all |
| `LeaseRepository.PostgresExecutionNodeLeases.MarkEffectCommitted` | internal/repository/postgres_execution_node_leases.go:238-265 | Commit marks follow start marks, on row and attempt together |
| `LeaseRepository.PostgresExecutionNodeLeases.ReleaseBeforeEffect` | internal/repository/postgres_execution_node_leases.go:270-300 | Gives the node back only before any effect, abandoning the attempt |
| `LeaseRepository.PostgresExecutionNodeLeases.Complete` | internal/repository/postgres_execution_node_leases.go:305-354 | Closes row and attempt together; a mutation succeeds only with a committed effect |
| `LeaseRepository.PostgresExecutionNodeLeases.RequeueFailed` | internal/repository/postgres_execution_node_retry.go:15-51 | Requeues only failed, retry-safe, non-mutating nodes |
| `LeaseMeaning.ClaimGives` | internal/repository/postgres_execution_node_leases.go:122-163 | A claim gives a lease in force until exactly now + duration, for a new pending attempt of this owner, with no effect mark |
| `LeaseMeaning.ReclaimAbandons` | internal/repository/postgres_execution_node_leases.go:113-120 | Taking over an expired node abandons the attempt that ran out and touches no other |
| `LeaseMeaning.RenewGives` | internal/repository/postgres_execution_node_leases.go:181-187 | A renewal moves the end of the lease to now + duration and changes neither attempts nor effect marks |
| `LeaseMeaning.RenewAcceptedIff` | internal/repository/postgres_execution_node_leases.go:169-206 | The holder can renew exactly while the lease is in force and the new end lies after the claim |
| `LeaseMeaning.Undisturbed` | internal/repository/postgres_execution_node_leases.go:101-104 | Until a lease ends and while its holder does nothing, no run of other workers' operations changes the node: no claim of it is accepted and the holder keeps its authority |
| `LeaseMeaning.ClaimableIff` | internal/repository/postgres_execution_node_leases.go:101-108 | Anyone can claim a held node exactly from the end of its lease on, if it is retry-safe and not committed |
| `LeaseMeaning.StartGives` | internal/repository/postgres_execution_attempts.go:23-68 | The holder can start its pending attempt, which is then running and bound to exactly the binding presented |
| `LeaseMeaning.EffectStartGives` | internal/repository/postgres_execution_node_leases.go:210-233 | The holder of a running unmarked attempt can mark it; row and attempt carry the same time and the lease stays in force |
| `LeaseMeaning.EffectCommitGives` | internal/repository/postgres_execution_node_leases.go:238-265 | The holder of a marked uncommitted attempt can commit it; row and attempt carry the same time and the lease stays in force |
| `LeaseMeaning.CompleteRecords` | internal/repository/postgres_execution_node_leases.go:305-354 | An accepted completion leaves the node in the terminal state, without lease, and the lease's own attempt with the given status, class and usage |
| `LeaseMeaning.CompleteAcceptedIff` | internal/repository/postgres_execution_node_leases.go:305-354 | The holder of a running attempt can complete it exactly while the lease is in force, a mutation as SUCCEEDED only once committed |
| `LeaseMeaning.CompletedForGood` | internal/repository/postgres_execution_attempts.go:45-63 | What a completion recorded about its attempt is on record in every later state |
| `LeaseMeaning.ReleaseGivesBack` | internal/repository/postgres_execution_node_leases.go:270-300 | A release leaves the node READY without lease and the attempt abandoned |
| `LeaseMeaning.ReleaseAcceptedIff` | internal/repository/postgres_execution_node_leases.go:270-300 | The holder can give the node back exactly while the lease is in force and no effect has been started |
| `LeaseMeaning.ReadyIsClaimable` | internal/repository/postgres_execution_node_leases.go:97-100 | A READY node can be claimed by any valid worker at once |
| `LeaseMeaning.RequeueRecords` | internal/repository/postgres_execution_node_retry.go:15-51 | A node can be requeued exactly if it failed and its effect may be repeated; it is then READY with its history and fence |
| `LeaseMeaning.RegisterRecords` | internal/repository/postgres_execution_node_leases.go:38-64 | A registered node carries what its plan says, without lease, marks or attempts |
| `Retry.RetryActivity.PrepareRetry` | internal/workflow/execution_activity.go:232-258 | Two transactions with any others between: a refused decision changes nothing; a requeue follows only a failure of a listed class, of a retry-safe non-mutating effect, with a number below the maximum, and passes the maximum if and only if that number is out of date and the current one has reached it |
| `Retry.RetryClassAllowed` | internal/workflow/execution_activity.go:293-303 | True iff the class is not empty and is on the list |
| `Retry.TimelyBound` | internal/workflow/execution_activity.go:239-255 | Over any run at most m - 1 requeues of a node are made with attempts left |
| `Retry.RetryBound` | internal/workflow/execution_activity.go:239-255 | Over any run whatever exceeds m - 1 requeues was requeued past the maximum |
| `Retry.UpToDateBound` | internal/workflow/execution_activity.go:239-255 | Activities whose decisions are current when they requeue make at most m - 1 requeues, over any run |
| `Retry.RequeueIgnoresMaximum` | internal/repository/postgres_execution_node_retry.go:15-51 | A failed, retry-safe, non-mutating node is requeued at any number of attempts |
| `Retry.ReclaimAddsAttempt` | internal/workflow/execution_activity.go:144-150 | Reclaiming an expired attempt adds one without any requeue and leaves the node open to the next reclaim |
| `Retry.OverlapWitness` | internal/workflow/execution_activity.go:232-258 | With a maximum of two, two activities that decide after the first failure both requeue, the second one past the maximum |
| `Budget.ClosesAtMostOnce` | execution/budget.go:85-120 | Over every run a closed reservation keeps its entry, estimates never change and no entry is dropped |
| `Budget.ConsumedIsSettled` | execution/budget.go:85-104 | Over every run the growth of Consumed is the sum of the accepted settlements, per counter |
| `Budget.SharedBound` | execution/budget.go:64-104 | Reserved plus Consumed stays within every positive call limit, and cost exceeds its limit at most by the sum of per-settlement overruns, under any interleaving whose settlements stay within their call estimates |
| `Budget.FreshLedgerBounded` | execution/budget.go:37-42 | A ledger opened within its limits meets the bound's premise |
| `Budget.CostPassesIff` | execution/budget.go:100-102 | One operation takes committed cost past its limit exactly when it is a settlement whose excess over its estimate does not fit what is left |
| `Budget.CostWithinIff` | execution/budget.go:100-102 | Over any run cost is within its limit in every state if and only if no settlement overshoots |
| `Budget.CostOvershootWitness` | execution/budget.go:100-102 | Reserving 1 and settling 2 under a limit of 1 is accepted and passes it |
| `Budget.BudgetLedger.Reserve` | execution/budget.go:50-83 | Accepted exactly for a new id and a non-negative estimate that each positive limit has room for; then the estimate is held and the reservation stored as given, otherwise nothing changes; the running counters stay equal to the sums over the book |
| `Budget.BudgetLedger.Settle` | execution/budget.go:85-104 | Accepted exactly for an open reservation and non-negative usage; its own estimate leaves Reserved and the actual usage enters Consumed; counters stay equal to the book's sums |
| `Budget.BudgetLedger.Release` | execution/budget.go:106-120 | Accepted exactly for an open reservation; its estimate leaves Reserved and nothing is consumed; counters stay equal to the book's sums |
| `Budget.BudgetLedger.Exhausted` | execution/budget.go:122-132 | True iff held plus spent, summed from the book, passes a positive limit |
| `Worker.Classify` | execution/runner.go:132-147 | A given class is kept; without one a deadline is TIMEOUT, a cancellation TRANSIENT, anything else UNKNOWN; never empty, as completion of a FAILED attempt demands |
| `Worker.WorkersAreCovered` | internal/workflow/execution_activity.go:267-282 | What workers settle never exceeds, call for call, the estimate frozen for the same target |
| `Worker.WorkersShareBudget` | execution/runner.go:121-130 | Any number of workers on one ledger that starts within its limits stay within the call limits, and pass the cost limit only by their own overruns |
| `Worker.LoggedBudget` | execution/budget.go:64-104 | The running counters of a ledger whose whole log was booked by workers on frozen targets keep the call limits, and the cost limit up to overruns |
| `Worker.PersistentWorker.Execute` | execution/persistent_worker.go:70-136 | For every outcome of every call and any interference: nil error means node and last attempt SUCCEEDED under this lease, and committed for a mutation; with no error but the call's own, the attempt is stored as the call went, SUCCEEDED or FAILED with its class and the reported usage; the attempt is bound to the candidate's target, policy and reservation; a mutation target is called only with its mark durable, and for a non-idempotent node only if no attempt ever started an effect; an open effect asks for resolution; a made reservation ends released or settled with the reported usage, open only for a negative cost; and given a claimable node, room in the budget and peace while its lease lasts, the target is called and its result recorded |
| `Worker.PersistentWorker.InvokeAndFinish` | execution/persistent_worker.go:122-136 | Entered for a mutation only with the effect mark durable; the reservation is settled with the reported usage and the attempt stored as the call went; an unaccounted call is not closed; a holder left in peace always gets a resolved result recorded |
| `Worker.PersistentWorker.CompleteAs` | execution/persistent_worker.go:149-156 | Unless the store refuses, the attempt is stored SUCCEEDED without an invocation error, and FAILED with its class with one, carrying the reported usage; the invocation error is returned first; a holder left in peace is not refused |
| `Worker.PersistentWorker.FinishMutation` | execution/persistent_worker.go:159-198 | Nil only after a durable commit and a successful completion; whenever disposition and error leave the effect open the first error asks for resolution and no more than the commit mark was tried; otherwise the attempt is stored as the call went |
| `Worker.OneInvocationPerNonIdempotentNode` | execution/persistent_worker.go:70-136 | Along any interleaved run only the last lease ever issued for a non-idempotent node can be the marked one under which its target is called |
| `Worker.ExecuteTwice` | execution/persistent_worker.go:70-136 | Two successive executions of one non-idempotent node, by any workers with any transactions around them, never both call the target |
| `Worker.NegativeCostWitness` | execution/budget.go:85-104 | A reported cost of -1 is refused and leaves the reservation open |
| `PlanDag.RankedIsAcyclic` | execution/plan.go:79-116 | A topological ranking excludes every cycle |
| `PlanDag.CycleSearch.Visit` | execution/plan.go:92-108 | The recursive visit terminates; true means a cycle exists, false leaves the node and all it reaches ranked |
| `PlanDag.HasCycle` | execution/plan.go:79-116 | True iff the dependency relation has a cycle, for every visiting order; false comes with a ranking |
| `PlanDag.ValidatePlan` | execution/plan.go:6-55 | Accepts exactly the plans with ids, goal, positive revision, non-empty unique nodes, known distinct dependencies, valid effects and a topological ranking; the error names a fault the plan has |
| `PlanDag.ValidEffectRegisters` | execution/plan.go:57-77 | A validated effect registers in the runtime iff it is not an idempotent mutation with an all-space key |
| `PlanDag.BlankKeyWitness` | internal/repository/postgres_execution_node_leases.go:485-499 | Such a key passes the plan check and is refused by Register |
| `Ordering.SortById` | execution/supervisor.go:72-73 | The sorted copy is a permutation of the plan's nodes in id order |
| `Scheduler.PrepareRunnable` | execution/supervisor.go:67-147 | Lists, in id order and without repeats for unique ids, exactly the eligible nodes the collaborators clear; conditions name exactly the other eligible ones with their reason; it fails exactly when the phase forbids it, nothing can run or wait, or a collaborator fails on an eligible node; a valid unfinished plan with nothing stuck always lists a node |
| `Scheduler.HasActive` | execution/supervisor.go:193-203 | True iff some node is running, blocked or waiting for approval |
| `Scheduler.OneVerdict` | execution/supervisor.go:90-137 | Every node is cleared, blocked for exactly one reason, or broken |
| `Scheduler.NoStall` | execution/supervisor.go:184-191 | In a valid plan of waiting and succeeded nodes, not all succeeded, some node has all its dependencies done |
| `Scheduler.DependenciesFirst` | execution/supervisor.go:184-191 | In every state of every run whatever has begun has all its transitive dependencies SUCCEEDED |
| `ScheduledRuns.LeaseRunIsPlanRun` | execution/supervisor.go:67-147 | Every run of the lease repository whose claims follow the scheduler's readings is a run of the plan: nodes begin by an accepted claim only and SUCCEEDED is never left |
| `ScheduledRuns.RepositoryDependenciesFirst` | execution/supervisor.go:184-191 | In the repository itself whatever has begun has all its transitive dependencies SUCCEEDED |
| `Tasks.Move` | internal/domain/task_aggregate.go:103-135 | Succeeds iff the evidence is complete and the edge is legal; records both ends, actor, cause and time, stamps completion exactly on terminal targets, and changes nothing else |
| `Tasks.StatusOf` | internal/domain/task_event.go:56-81 | Inverse of the canonical state event: each state event determines its status and back |
| `TaskProofs.LogIsTheTask` | internal/repository/postgres_task_commands.go:106-174 | In every database reachable by any interleaving of the seven commands a task's version counts its events, sequences are 1..n, and folding the log gives the persisted status |
| `TaskProofs.NextKeepsInv` | internal/repository/postgres_task_commands.go:106-174 | Each command, admitted or not, keeps projection and log in agreement |
| `TaskProofs.FinalizeAgrees` | internal/repository/postgres_model_execution_commands.go:256-339 | The two-event and one-event finalizations advance version, sequence and status together |
| `TaskProofs.SelectionAgrees` | internal/repository/postgres_route_selection.go:134-178 | Route selection bumps version and log without changing the folded status |
| `TaskProofs.TransitionLegalIff` | internal/repository/postgres_task_commands.go:109-118 | CommitTransition keeps the log a legal lifecycle path iff the transition is an edge; it does not check that itself |
| `TaskProofs.OthersStayLegal` | internal/repository/postgres_model_execution_commands.go:111-178 | Every other command keeps the log legal by its own checks |
| `TaskProofs.RunStaysLegal` | internal/domain/task_aggregate.go:78-101 | Commands built with Task.Transition keep every task on a legal path in every run |
| `TaskProofs.TerminalIsFinal` | internal/domain/task_aggregate.go:69-76 | Under the same premise a terminal task's row and log never change again |
| `TaskProofs.ReopensFinishedTask` | internal/repository/postgres_task_commands.go:109-118 | Without the premise any finished task can be reopened by an admitted hand-built command |
| `TaskProofs.RecordsOnlyExtend` | internal/repository/postgres_task_commands.go:235-325 | Over every run no key is dropped, no digest changes, and completed or failed_final records are immutable |
| `TaskProofs.DuplicatesWriteNothing` | internal/repository/postgres_task_commands.go:255-262 | A duplicate of a finished command, and any command with another digest, changes nothing in any later state and replays the same record |
| `TaskProofs.FrozenBinding` | internal/repository/postgres_route_selection.go:27-46 | After a selection commits every later lookup of its key returns the same plan revision, node, decision, policy and target, whatever runs in between |
| `KernelMeaning.CommandMeans` | internal/repository/postgres_task_commands.go:106-233 | Every admitted command leaves its task, log, answer, decision and messages as it brought them, identity and creation time kept, and no other task or key touched |
| `KernelMeaning.EntersIff` | internal/repository/postgres_task_creates.go:195-214 | Which messages a command may carry, in terms of the message and the task alone, and what is then stored |
| `KernelMeaning.OutboxIsWhatWasSent` | internal/repository/postgres_task_commands.go:176-217 | Over every run the outbox holds exactly the messages of the admitted commands, once each, in the order of commitment, and nothing of a refused or replayed one |
| `KernelMeaning.VersionTells` | internal/repository/postgres_task_commands.go:125-143 | Over every run versions never fall, and as long as the version is the same so are the task and its log |
| `KernelMeaning.OneWriterPerVersion` | internal/repository/postgres_task_commands.go:125-143 | Of the commands built on one version of a task, once one has written it no other is ever admitted |
| `KernelMeaning.ProjectsAreIsolated` | internal/repository/postgres_task_commands.go:60-105 | Whatever principals of other projects run, a project's tasks, logs and records stay as they are |
| `KernelMeaning.EntitledIff` | internal/repository/postgres_task_commands.go:52-68 | Who may use a key for a request, and when the key is free, spelled out |
| `KernelMeaning.CreateAdmittedIff` | internal/repository/postgres_task_creates.go:25-157 | A creation is admitted exactly for a complete new task of the caller's with its event and messages complete, under a free key |
| `KernelMeaning.TransitionAdmittedIff` | internal/repository/postgres_task_commands.go:48-217 | A transition is admitted exactly when it is current, evidenced and carries the event of its target, under a free key |
| `KernelMeaning.RouteAdmittedIff` | internal/repository/postgres_route_commands.go:38-205 | A route is admitted exactly for a current PLANNING task with a named decision about it, under a free key |
| `KernelMeaning.SelectionAdmittedIff` | internal/repository/postgres_route_selection.go:48-178 | A selection is admitted exactly for a current ROUTING task with a dated decision about it and a complete target, under a free key |
| `KernelMeaning.BeginAdmittedIff` | internal/repository/postgres_model_execution_commands.go:50-178 | A call begins exactly for a current ROUTING task with its start evidenced, or an EXECUTING one without, under a free key |
| `TaskCommandStore.ScopedPostgresTaskCommands.ReserveIdempotency` | internal/repository/postgres_task_commands.go:235-275 | Takes the key iff it is new or a retryable failure of the same digest, replays iff finished with the same digest, and names the cause otherwise |
| `TaskCommandStore.ScopedPostgresTaskCommands.CompleteIdempotency` | internal/repository/postgres_task_commands.go:301-325 | Only the same request can finish its key; a final result is replayable from then on, a retryable one can be taken again, digest and dates stay, and no other key is touched |
| `TaskCommandStore.ScopedPostgresTaskCommands.UpdateTask` | internal/repository/postgres_task_commands.go:125-143 | A row is written only while its version matches; it keeps identity and creation time, takes the whole content of the command, and the reported version is the persisted one; a refusal writes nothing |
| `TaskCommandStore.ScopedPostgresTaskCommands.InsertOutbox` | internal/repository/postgres_task_commands.go:176-217 | Fails iff some message does not fit; otherwise appends the messages in order, each with its id, aggregate, payload, destination, key, attempts and given status and times, in the task's scope; one given as pending or without status can be delivered from its available time on |
| `TaskCommandStore.ScopedPostgresTaskCommands.CommitTransition` | internal/repository/postgres_task_commands.go:48-233 | One transaction: the tables become the kernel's next state; committed iff admitted, and then the row, event, answer and messages are the command's own, field by field; replay returns the stored record, any error restores everything |
| `TaskCommandStore.ScopedPostgresTaskCommands.CreateTask` | internal/repository/postgres_task_creates.go:25-174 | As CommitTransition, for creation: the new task is the caller's with the command's content, its messages are stored as InsertOutbox says; a replay needs the stored task |
| `TaskCommandStore.ScopedPostgresTaskCommands.CommitRouteTransition` | internal/repository/postgres_route_commands.go:38-225 | As CommitTransition, with the decision stored in the same transaction, named by the task and carried by the answer; a replay needs the stored task and a response that reads as a decision |
| `TaskCommandStore.ScopedPostgresTaskCommands.CommitRouteSelection` | internal/repository/postgres_route_selection.go:48-196 | As CommitTransition, storing the frozen binding as the response; apart from decision, cost estimate, time and version the task is as it was |
| `TaskCommandStore.ScopedPostgresTaskCommands.BeginModelExecution` | internal/repository/postgres_model_execution_commands.go:50-188 | As CommitTransition: the key is held and the task EXECUTING; a retry of an EXECUTING task only takes the key back |
| `TaskCommandStore.ScopedPostgresTaskCommands.CheckChain` | internal/repository/postgres_model_execution_commands.go:260-276 | The loop accepts exactly the evidenced chains with canonical events that end in the final status |
| `TaskCommandStore.ScopedPostgresTaskCommands.InsertEvents` | internal/repository/postgres_model_execution_commands.go:314-339 | Appends all stamped events with consecutive sequences, or fails iff one is invalid |
| `TaskCommandStore.ScopedPostgresTaskCommands.FinalizeModelExecution` | internal/repository/postgres_model_execution_commands.go:194-353 | As CommitTransition, for the holder of the key only; one event per transition and the final answer |
| `TaskCommandStore.ScopedPostgresTaskCommands.MarkModelExecutionRetryable` | internal/repository/postgres_model_execution_commands.go:359-403 | Frees the key iff the caller holds it; no task is touched |
| `TaskCommandStore.ScopedPostgresTaskCommands.ResolveIdempotency` | internal/repository/postgres_idempotency_lookup.go:18-77 | A record found is the stored final one, and it, like a digest conflict, is the answer of every later lookup whatever commands run in between |
| `TaskCommandStore.ScopedPostgresTaskCommands.ResolveRouteSelection` | internal/repository/postgres_route_selection.go:27-46 | A selection found is the stored one and is found unchanged after every further run of commands |
| `TaskCommandStore.ScopedPostgresTaskCommands.Interleave` | internal/repository/postgres_task_commands.go:36-42 | Any sequence of method calls by any clients is a run of the kernel |
| `ModelFlight.Balance` | internal/repository/postgres_model_execution_commands.go:82-91 | For every run and key: commands admitted under the key = retryable endings recorded + one iff the record is in progress, completed or failed_final |
| `ModelFlight.SingleFlightCount` | internal/repository/postgres_model_execution_commands.go:386-398 | From an empty database: provider calls authorised = retryable failures + one iff the record is taken, when only model commands use the key |
| `ModelFlight.ModelOperationIsPrivate` | internal/controlplane/task_model_commands.go:340-342 | No other command's operation can equal a model operation, for any task ids |
| `ModelFlight.CallsNeverOverlap` | internal/controlplane/task_model_commands.go:122-153 | In every run of any clients, with crashes, two outstanding provider calls never share a key and each holds its key in progress |
| `ModelFlight.CrashBlocks` | internal/controlplane/task_model_commands.go:37-42 | A key whose caller is gone stays in progress and is never called again |
| `ModelFlight.CrashOrphans` | internal/controlplane/task_model_commands.go:37-42 | A crash with the call outstanding puts its key in that state, for every continuation |
| `ModelCommands.HoldSurvives` | internal/repository/postgres_model_execution_commands.go:226-235 | While a call is outstanding its key stays held whatever other clients do |
| `ModelCommands.ModelClient.ExecuteModelIdempotent` | internal/controlplane/task_model_commands.go:43-261 | The provider is called exactly when nothing is stored or running under the key and the caller's routed task is startable and unchanged until the call begins; at most one call, authorised by an admitted begin, with its key in progress throughout, and one closing command; the outcome is recorded exactly unless the task changed meanwhile or the evidence is incomplete: then the task has that result and cost, and the key answers with that text in every later state; a finished call is answered from its record |
| `ModelCommands.ModelClient.FinishSucceeded` | internal/controlplane/task_model_commands.go:197-260 | Recorded exactly if the task is as it was read and the evidence complete: COMPLETED with the provider's text and the ledger's total, and every later lookup of the key finds that answer; otherwise nothing changes and the key stays in progress |
| `ModelCommands.ModelClient.FinishFailed` | internal/controlplane/task_model_commands.go:155-195 | Recorded under the same condition: FAILED with the provider's message, which every later lookup of the key finds |
| `ModelCommands.ModelClient.Prepare` | internal/controlplane/task_model_commands.go:84-120 | A ROUTING task with an actor and a time moves to EXECUTING with its evidence, an EXECUTING one is taken as it is, any other is refused |
| `Outbox.RunExtends` | internal/repository/postgres_outbox.go:35-156 | Over every run rows persist, attempts only grow, and delivered or dead-lettered rows never change |
| `Outbox.RunKeepsInv` | internal/repository/postgres_outbox.go:35-90 | A lease exists only on a delivering message that was counted when leased, in every run |
| `Outbox.LostLeaseStaysLost` | internal/repository/postgres_outbox.go:92-156 | Through any interleaving an owner who lost a message, to another owner or otherwise, cannot change it by any report until that owner leases it anew |
| `Outbox.LeaseGives` | internal/repository/postgres_outbox.go:62-72 | A due message that is picked is the owner's, counted once more and otherwise unchanged, and due to anyone else exactly from the end of the lease on |
| `Outbox.DeliverGives` | internal/repository/postgres_outbox.go:96-101 | A delivered message keeps its content and delivery time and is never due again |
| `Outbox.FailGives` | internal/repository/postgres_outbox.go:131-141 | A failed message keeps content, count and reason; it is due exactly from the next time on, or, its attempts used up, never again |
| `Outbox.HeldRun` | internal/repository/postgres_outbox.go:35-90 | Until a lease ends and while its owner reports nothing, no run of other operations changes the message |
| `Outbox.ContentKept` | internal/repository/postgres_outbox.go:49-156 | No run changes a message's payload, destination, key, scope or aggregate |
| `Outbox.DeliveredIff` | internal/repository/postgres_outbox.go:92-114 | Over any run a message is delivered in the store if and only if the owner then holding it reported so |
| `Outbox.BoundedRetries` | internal/repository/postgres_outbox.go:118-156 | With a fixed maximum m a message returns to pending by failure at most m - 1 times over any run, lease expiries included |
| `Outbox.DispatchersCap` | internal/outbox/dispatcher.go:83-118 | Any number of dispatchers built with one maximum meet that bound's premise |
| `Outbox.StepWithinIff` | internal/repository/postgres_outbox.go:49-68 | One operation takes attempts past the maximum exactly when it re-leases an expired last attempt |
| `Outbox.AttemptsWithinIff` | internal/repository/postgres_outbox.go:49-68 | Over any run attempts stay within the maximum if and only if no expired last attempt is re-leased |
| `Outbox.AttemptsPassMaximum` | internal/repository/postgres_outbox.go:49-68 | With a maximum of one, an expired lease that is taken over makes two attempts |
| `OutboxStore.Pick` | internal/repository/postgres_outbox.go:50-61 | Picks the first rows in (available, created, id) order, up to the limit, skipping none |
| `OutboxStore.ScopedPostgresOutbox.LeaseDue` | internal/repository/postgres_outbox.go:35-90 | Leases the due unlocked messages in order, at most 1000; each is unchanged but delivering, counted once more, and the trimmed owner's until now + duration; all other rows unchanged |
| `OutboxStore.ScopedPostgresOutbox.MarkDelivered` | internal/repository/postgres_outbox.go:92-114 | Succeeds iff the owner holds the message, which is then delivered at that time and never due again; otherwise nothing changes |
| `OutboxStore.ScopedPostgresOutbox.FailDelivery` | internal/repository/postgres_outbox.go:118-156 | For the holder only: dead-lettered, never due again, iff the attempts reached the maximum, else pending and due exactly from the given time; the trimmed reason is kept |
| `OutboxStore.EntersTheQueue` | internal/repository/postgres_outbox.go:50-61 | A new pending message is among those a lease considers exactly from its available time on |
| `OutboxStore.ComputeBackoff` | internal/outbox/dispatcher.go:131-143 | Equals min(5 min, base * 2^(max(n,1)-1)) and never leaves the 64-bit range |
| `OutboxStore.BackoffDoubles` | internal/outbox/dispatcher.go:131-143 | The first wait is the base, each later one twice the one before, none over five minutes |
| `OutboxStore.Dispatcher.NewDispatcher` | internal/outbox/dispatcher.go:48-58 | Exists iff its settings are usable, and leases and reports under one trimmed name |
| `OutboxStore.EveryReportCounted` | internal/outbox/dispatcher.go:29-35 | Each report is counted in exactly one column of the result |
| `OutboxStore.Dispatcher.DispatchItem` | internal/outbox/dispatcher.go:83-127 | Delivered only if the adapter accepted; refused only leads to a failure record with the configured maximum: due again after min(5 min, base * 2^(max(n,1)-1)) or dead-lettered; an unknown destination ends dead-lettered; a report is lost, changing nothing, exactly when the lease is lost or the report is not in order |
| `OutboxStore.Dispatcher.DispatchOnce` | internal/outbox/dispatcher.go:72-129 | Leases the first due messages; each is counted once, by what its adapter answered, so Leased = Delivered + Retried + DeadLetter + Failed; what is counted delivered or dead-lettered is so in the store on return; none fails in a batch that finishes within its lease |
| `Lifecycle.StepForward` | internal/workflow/lifecycle_activities.go:174-203 | A step leaves its task alone or uses up an injected race; nothing loses rank |
| `Lifecycle.TransitionKeepsOwn` | internal/workflow/lifecycle_activities.go:64-119 | A transition keeps the operation records truthful for its own task and for every task whose id differs once trimmed |
| `Lifecycle.TransitionProgress` | internal/workflow/lifecycle_activities.go:86-118 | From the status below its target a transition climbs, uses up a fault or fails outright |
| `Lifecycle.ClimbsIff` | internal/workflow/lifecycle_activities.go:86-118 | With no fault in its way a legal transition climbs if and only if its key is not yet on record |
| `LifecycleTurns.StuckTurn` | internal/workflow/lifecycle.go:130-225 | When the next target is already on record a turn changes nothing and goes round again |
| `LifecycleTurns.StubSucceedsIff` | internal/workflow/lifecycle.go:264-271 | Without a race an activity gets through if and only if it fails at most twice |
| `LifecycleTurns.LoopsForeverIff` | internal/workflow/lifecycle.go:130-225 | A fault-free loop never ends if and only if some target still ahead, other than COMPLETED, is on record under its task's key |
| `LifecycleTurns.EndsTerminalIff` | internal/workflow/lifecycle.go:130-225 | A fault-free loop ends with its task terminal if and only if nothing ahead is on record under its keys at the start |
| `LifecycleTurns.RecordedCompletionLies` | internal/workflow/lifecycle.go:190-210 | COMPLETED on record ahead of time ends the loop without error while its task is still VALIDATING |
| `LifecycleTurns.TwinIdsLoop` | internal/workflow/lifecycle.go:109-111 | Of two new tasks whose ids agree once trimmed, the first one's first turn keeps the second in its loop for ever |
| `LifecycleTurns.TwinIdsWitness` | internal/workflow/lifecycle.go:109-111 | Two concrete tasks, a and a with a trailing space, in a fresh backend |
| `LifecycleTurns.TwinCompletionLies` | internal/workflow/lifecycle.go:190-210 | Of two VALIDATING tasks with ids that agree once trimmed, completing the first makes the second report COMPLETED and stay VALIDATING for good |
| `Lifecycle.MemoryLifecycleActivities.TransitionTask` | internal/workflow/lifecycle_activities.go:64-119 | Nothing goes backwards, records stay truthful under the operation key, a reported target is passed, and a stale version means a fault now used up or a version that moved on |
| `Lifecycle.MemoryLifecycleActivities.RunStep` | internal/workflow/lifecycle_activities.go:174-203 | Each call in scope is counted; nothing goes backwards, records stay truthful, and a task is left alone unless an injected race moved it up and is used up |
| `LifecycleWorkflow.TaskLifecycle.ExecuteStub` | internal/workflow/lifecycle.go:264-271 | Up to three calls, success only after a call; tasks are as before or a race was used up |
| `LifecycleWorkflow.TaskLifecycle.TransitionTask` | internal/workflow/lifecycle.go:242-262 | A reported target has really been passed; from a fresh snapshot the remaining work shrinks |
| `LifecycleWorkflow.TaskLifecycle.Run` | internal/workflow/lifecycle.go:113-225 | Ends for every status and every finite set of faults (rank, then injections) when no status still ahead is on record under its own keys; nil error only after observing a terminal status the backend confirms, and always when no fault stands in the way; each status entered at most once and right after its own activity was called; other tasks' records kept |

## Left out

- SQL text, row-level security, drivers and migrations: each method is one atomic step over maps; the runtime table's CHECK constraints on a registered row are the only ones used.
- Unique-constraint failures on generated ids (attempt, event, outbox, decision ids): they only add rejections that change nothing.
- JSON encoding and SHA-256 digests: stored responses are taken as the values they encode; only whether other text reads as a decision is kept.
- float64 rounding: costs are real numbers.
- Trimming of the strings that leases, attempts and task commands store: callers are taken to pass trimmed strings; only blankness is checked. The outbox, the model client and the lifecycle keys do trim.
- updated_at and created_at columns of runtime, attempt and outbox rows that no decision reads.
- Read-only accessors (Get, GetAttempt, ListAttempts, Snapshot, StepCalls).
- Order of validation errors within one command: every refusal is modelled, only conflict, in-progress, not-found and version errors are told apart.
- SelectRunnable and AttemptRunner: a legacy path with a fixed attempt number.
- Task.Transition updates its receiver in place: Tasks.Move is modelled on values, so aliasing of the receiver is not captured.
- Trace events and the texts of event payloads and request ids around a model call.
- Temporal's scheduling, timeouts and retries of activities other than the step stubs: their errors are deterministic; one clock reading serves a whole workflow run.
- OIDC, HTTP handlers, authorization policy, routing scores, pricing, admission, sandboxing and GitOps: input and output or single-branch checks.
- LifecycleWorkflow.TaskLifecycle.Run: requires that no status still ahead is on record under its own keys; without it the loop does not end, or ends before the task does (LoopsForeverIff, RecordedCompletionLies).
- ModelCommands.ModelClient.ExecuteModelIdempotent: assumes other clients do not finalize or release a call that is not theirs, as the client procedure itself never does.
- LeaseRuns.ExpiredForGood: assumes a clock that does not step back; ClockStepBackRevives shows why.
