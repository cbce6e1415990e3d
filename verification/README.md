# A verified model of the task queue, the request gateway and the backend lifecycle

Two services share this model. The queue proxy stores durable tasks, claims them fairly, runs them with
retries, limits concurrent requests per model and leases backends for them. The lifecycle service keeps a
registry of backend instances, places them on GPUs, stops idle ones and reloads those whose shape no longer
suits the queue. A context plan computed by the first service decides what the second one reloads.

The modules follow the program:

| part | modules |
|---|---|
| durable tasks | Tasks, FairClaim, TaskStore, StoreRuns, TaskLife, Records, Fairness, PostgresStore |
| executor | Executor (its transition system), ExecutorLoop (its code) |
| concurrency | Limiter, Gateway, RequestLife, Routing |
| lifecycle | Fleet, Registry, Replicas, Scheduler, Runtime, Allocation, Cleanup, LiveSync, Controller, Overbooking, Ports |
| planning and text | ContextPlans, Reload, Convergence, TokenPolicy, Templates, Timestamps |
| foundations | Wrappers, JsonValues, TextOrder, Seqs, Dicts |

Objects that the program updates in place are classes whose methods state the whole new state; their laws are
lemmas about the values they hold and about runs of steps. Concurrent code is a state machine with one step
for each stretch between two suspension points. Time is an integer number of microseconds; Timestamps shows
that comparing the printed texts, as the program does, compares these numbers.

Where the code does not do what one would expect, the exact condition is proved: raising a limit strands waiters
(`Limiter.WakeupLostIff`), cancelled waiters leak queue places (`Limiter.QueuedExactIff`), a lost answer or a
failed release leaks a lease (`Routing.BackendResolver.Resolve`, `Gateway.LeasesExactIff`), the two stores part
on a cancelled task that had finished before (`PostgresStore.StepsAgreeIff`), a base policy can reject its own
default (`TokenPolicy.PolicyWins`), models planned together can overbook a GPU (`Overbooking.ReconcileFitsIff`,
`Overbooking.TwoPlansOverbook`), a load can stay unrecorded or unaccounted for (`LiveSync.LoadRecordedIff`,
`LiveSync.LoadCoveredIff`), and a hard mismatch can be put off (`Reload.HardDelayedIff`).

`dafny verify dfyconfig.toml` checks everything.

## Model

| member | source | states |
|---|---|---|
| `FairClaim.ChooseFairTask` | services/queue_proxy/queue_proxy/task_queue.py:896-925 | The two dictionaries filled in loops and the two minima return the one task that precedes every other candidate in a single lexicographic order of rows. |
| `FairClaim.FairestUnique` | services/queue_proxy/queue_proxy/task_queue.py:904-925 | That order leaves no tie: two fairest tasks of one candidate list are the same task. |
| `FairClaim.FairestExists` | services/queue_proxy/queue_proxy/task_queue.py:904-925 | A non-empty candidate list has a fairest task. |
| `FairClaim.FairestIgnoresOrder` | services/queue_proxy/queue_proxy/task_queue.py:896-925 | The choice depends on which rows exist, not on the order in which they are listed. |
| `FairClaim.TwoStagesGiveFairest` | services/queue_proxy/queue_proxy/task_queue.py:919-925 | First of the best group is first of all rows. |
| `FairClaim.LastClaims` | services/queue_proxy/queue_proxy/task_queue.py:900-908 | The loop collects, for each group with an attempted task, the latest `updated_at` of these. |
| `FairClaim.BestGroup` | services/queue_proxy/queue_proxy/task_queue.py:910-919 | The group chosen by the sort key is below every other group with candidates: unserved groups first, then the stalest, the oldest task, the tuple. |
| `FairClaim.FirstTask` | services/queue_proxy/queue_proxy/task_queue.py:920-925 | The first task of the group by creation time and then id. |
| `Tasks.Candidates` | services/queue_proxy/queue_proxy/task_queue.py:882-893 | Exactly the queued tasks of the wanted model whose retry time has come. |
| `TaskStore.TaskStore.SubmitMany` | services/queue_proxy/queue_proxy/task_queue.py:252-285 | The batch folded over the old store, in order; and entry by entry: the first mention of an unknown key is answered with a new task that waits to be claimed, any other with the task its key leads to. If anything was accepted, a claim without filter finds something at any time. |
| `TaskStore.TaskStore.SubmitTask` | services/queue_proxy/queue_proxy/task_queue.py:257-283 | One entry: a known key answers with its task and changes nothing; an unknown one stores a queued, unattempted task with the request and stamp of the entry, claimable at once, under both dictionaries. |
| `TaskStore.SubmitConsistent` | services/queue_proxy/queue_proxy/task_queue.py:252-285 | A batch keeps the task map and the key index inverse to each other, changes no stored task, moves no known key, and adds only tasks with the fresh ids. |
| `TaskStore.SubmitKnows` | services/queue_proxy/queue_proxy/task_queue.py:257-283 | The keys known afterwards are those known before and those the batch names, and no others. |
| `TaskStore.AcceptedIffNew` | services/queue_proxy/queue_proxy/task_queue.py:257-283 | An entry is accepted iff its key is unknown and no earlier entry of the batch has it. |
| `TaskStore.ReceiptsLead` | services/queue_proxy/queue_proxy/task_queue.py:257-283 | Every entry is answered with the task that its key leads to after the batch. |
| `TaskStore.AcceptedWaits` | services/queue_proxy/queue_proxy/task_queue.py:262-283 | Every accepted task carries the request and the stamp of its entry, no attempt, no time, no result and no error, and is claimable at every instant under every filter that lets its model pass. |
| `TaskStore.AcceptedAreCandidates` | services/queue_proxy/queue_proxy/task_queue.py:252-285 | After a batch that accepted anything there is a candidate for an unfiltered claim at every instant. |
| `TaskStore.KnownBatchIsReused` | services/queue_proxy/queue_proxy/task_queue.py:252-285 | A batch of known keys changes nothing, accepts nothing and returns the stored tasks. |
| `TaskStore.TaskStore.ClaimNext` | services/queue_proxy/queue_proxy/task_queue.py:336-353 | Nothing iff nothing is claimable; else the fairest task, and field by field: running, one more attempt, its first start time kept or set now, no next attempt time, the rest and every other task as before. |
| `TaskStore.TaskStore.RecordResult` | services/queue_proxy/queue_proxy/task_queue.py:355-364 | The named task becomes succeeded, field by field: the result, no error, finished now, attempts and start as before; nothing else changes, and an unknown id changes nothing. |
| `TaskStore.TaskStore.RecordError` | services/queue_proxy/queue_proxy/task_queue.py:366-374 | The named task becomes failed, field by field: the error, finished now, an older result kept; nothing else changes, and an unknown id changes nothing. |
| `TaskStore.TaskStore.RecordRetry` | services/queue_proxy/queue_proxy/task_queue.py:376-388 | The named task is queued again, field by field: the error, the next attempt time, an older result and finish time kept; nothing else changes, and an unknown id changes nothing. |
| `TaskStore.TaskStore.CancelTask` | services/queue_proxy/queue_proxy/task_queue.py:390-401 | Another tenant's task is not found; a succeeded, failed or cancelled one is returned unchanged; any other becomes cancelled and finished now, field by field, and nothing else changes. |
| `TaskStore.TaskStore.InMemory` | services/queue_proxy/queue_proxy/task_queue.py:248-250 | The store starts empty and consistent. |
| `TaskStore.TaskStore.FromFile` | services/queue_proxy/queue_proxy/task_queue.py:415-438 | Any file opens as the store it loads into; one with distinct ids opens consistently iff its keys are distinct too. |
| `TaskStore.TaskStore.AfterMutation` | services/queue_proxy/queue_proxy/task_queue.py:403-454 | After every mutation the file holds the rows in order of their ids, and reading it gives the store back. |
| `TaskStore.SaveRestores` | services/queue_proxy/queue_proxy/task_queue.py:406-454 | Loading what was saved gives the same tasks and the same index, from a file sorted by id. |
| `TaskStore.LoadConsistentIff` | services/queue_proxy/queue_proxy/task_queue.py:406-411 | A file with distinct ids loads into mutually inverse dictionaries iff its keys are distinct too. |
| `TaskStore.SameTasksSameClaim` | services/queue_proxy/queue_proxy/task_queue.py:336-353 | Stores with the same tasks claim the same task although their rows are listed in different orders. |
| `StoreRuns.ApplyKeeps` | services/queue_proxy/queue_proxy/task_queue.py:252-454 | Every operation and every restart keeps the dictionaries inverse, loses and renames no task, moves no key, and counts an attempt only for a claim. |
| `StoreRuns.KeysAreForEver` | services/queue_proxy/queue_proxy/task_queue.py:252-285 | Through any history with restarts a key leads to the same task for ever. |
| `StoreRuns.AnswerLasts` | services/queue_proxy/queue_proxy/task_queue.py:252-285 | The id an entry was answered with is the one its key leads to at every later point of the history. |
| `StoreRuns.ResubmissionReuses` | services/queue_proxy/queue_proxy/task_queue.py:252-285 | Submitting a batch again after any history accepts nothing, changes nothing and answers with the ids of the first time. |
| `StoreRuns.RestartIsInvisible` | services/queue_proxy/queue_proxy/task_queue.py:406-454 | At any point of any history a restart changes neither tasks nor index, and the next claim takes the same task. |
| `TaskLife.StepLaw` | services/queue_proxy/queue_proxy/task_queue.py:252-454 | One event, one task: it creates the task exactly as the first mention of an unknown key, rewrites its record field by field, or leaves it as it was; no task is lost. |
| `TaskLife.StateIsLastWritten` | services/queue_proxy/queue_proxy/task_queue.py:263-401 | In any history the state of a task and its next attempt time are those its last writing event gives: submit and retry queue it, a claim runs it, a result, an error and a cancel end it. |
| `TaskLife.RecordIsHistory` | services/queue_proxy/queue_proxy/task_queue.py:336-401 | In any history the record of a task is a projection of its events: as many attempts as claims, started at the first, the last result, the last error not overtaken by a result, finished when it last ended. |
| `TaskLife.ClaimedOnceUntilRetried` | services/queue_proxy/queue_proxy/task_queue.py:336-388 | In any history there is a retry of a task between any two claims of it, so no attempt is given out twice. |
| `TaskLife.HasWriter` | services/queue_proxy/queue_proxy/task_queue.py:252-285 | Every task that was not there at the start has a last writing event. |
| `Records.RecordRoundTripIff` | services/queue_proxy/queue_proxy/task_queue.py:119-197 | `from_record` of `to_record` is the identity iff all names are non-empty and trimmed, the token numbers are in range, the mappings are objects and the state is not one of the nine names in disguise; for every task whose instants a clock can show. |
| `Records.FileRoundTripIff` | services/queue_proxy/queue_proxy/task_queue.py:423-454 | A list of tasks comes back from its records unchanged iff each of them fits. |
| `Records.HistoryIsRecorded` | services/queue_proxy/queue_proxy/task_queue.py:119-197 | After any history of well-formed submissions and object-valued outcomes, the records on disk bring back exactly the current tasks and index. |
| `Records.StepFits` | services/queue_proxy/queue_proxy/task_queue.py:252-401 | Every store operation keeps all tasks within what survives the file. |
| `Records.ReadAll` | services/queue_proxy/queue_proxy/task_queue.py:423-438 | A file is read iff every record is, so one that does not read refuses it; and each task is read from its own record. |
| `Records.ReadFits` | services/queue_proxy/queue_proxy/task_queue.py:150-197 | Whatever is read from a record fits, so from then on it comes back unchanged. |
| `Records.ReadIff` | services/queue_proxy/queue_proxy/task_queue.py:150-197 | A record is read iff its ten names are texts and not blank, its mappings are objects where they are there, its four numbers are readable and not below their least, and its state is nothing or a name. |
| `Records.BareRecord` | services/queue_proxy/queue_proxy/task_queue.py:150-197 | A record with nothing but its names is a queued task without attempts, times, result or error, made now, with the default numbers 0, 1024 and 1. |
| `Records.ProgramText` | services/queue_proxy/queue_proxy/task_queue.py:955-963 | The program's own printing and reading of instants meets what the round trips ask of it. |
| `Records.Strip` | services/queue_proxy/queue_proxy/task_queue.py:703-706 | What is left of a name has no blank at either end, and a trimmed name is left alone. |
| `Fairness.ClaimedOnce` | services/queue_proxy/queue_proxy/task_queue.py:336-353 | While one group has a due task and waits, no other group is claimed twice, under a strictly increasing clock and unfiltered claims. |
| `Fairness.BoundedBypass` | services/queue_proxy/queue_proxy/task_queue.py:896-925 | With k groups, at most k - 1 claims pass over a waiting group in any run, whatever is submitted, recorded or restarted in between. |
| `Fairness.ServedWithinRound` | services/queue_proxy/queue_proxy/task_queue.py:896-925 | So any run with k claims claims the group that stays due. |
| `Fairness.WaitingStandsStill` | services/queue_proxy/queue_proxy/task_queue.py:900-908 | The last claim of a waiting group does not move while none of its attempted tasks is written. |
| `PostgresStore.ClaimsAgree` | services/queue_proxy/queue_proxy/postgres_task_store.py:205-305 | On equal rows the grouped query picks a row iff `choose_fair_task` picks that task. |
| `PostgresStore.PickIsFirst` | services/queue_proxy/queue_proxy/postgres_task_store.py:211-280 | The query picks exactly the row that precedes every other runnable row in the same lexicographic order. |
| `PostgresStore.PickExists` | services/queue_proxy/queue_proxy/postgres_task_store.py:205-305 | The query finds a row whenever some task is claimable. |
| `PostgresStore.SubqueryIsLastClaimed` | services/queue_proxy/queue_proxy/postgres_task_store.py:220-230 | The correlated MAX subquery computes the dictionary of last claims. |
| `PostgresStore.ColumnsAreTuples` | services/queue_proxy/queue_proxy/postgres_task_store.py:249-258 | Ordering by the six columns is the order of the six-tuples. |
| `PostgresStore.ClaimMirrors` | services/queue_proxy/queue_proxy/postgres_task_store.py:281-288 | The UPDATE of a claim writes the fields that the other store writes. |
| `PostgresStore.SubmitsAgree` | services/queue_proxy/queue_proxy/postgres_task_store.py:68-90 | INSERT ... ON CONFLICT under the unique constraint leaves the tasks that the idempotency index leaves. |
| `PostgresStore.PostgresTaskStore.SubmitMany` | services/queue_proxy/queue_proxy/postgres_task_store.py:68-90 | Accepted and reused rows are those of the other store, in the same order, and the tables stay equal; entry by entry a new row waits to be claimed, so that the claim query finds a row at any time. |
| `PostgresStore.PostgresTaskStore.ClaimNext` | services/queue_proxy/queue_proxy/postgres_task_store.py:205-305 | With equal rows and clock the row claimed and the table left are those of the other store; column by column, the runnable row becomes running with one more attempt, and no other row changes. |
| `PostgresStore.PostgresTaskStore.RecordResult` | services/queue_proxy/queue_proxy/postgres_task_store.py:307-329 | One row is completed, column by column; an unknown id changes nothing. |
| `PostgresStore.PostgresTaskStore.RecordError` | services/queue_proxy/queue_proxy/postgres_task_store.py:331-352 | One row is failed, column by column; an unknown id changes nothing. |
| `PostgresStore.PostgresTaskStore.RecordRetry` | services/queue_proxy/queue_proxy/postgres_task_store.py:354-379 | One row is queued again, column by column; an unknown id changes nothing. |
| `PostgresStore.PostgresTaskStore.CancelTask` | services/queue_proxy/queue_proxy/postgres_task_store.py:381-411 | One unfinished row of the tenant is cancelled, column by column, keeping a finish time it already has; a final row is returned unchanged. |
| `PostgresStore.CancelsAgreeIff` | services/queue_proxy/queue_proxy/postgres_task_store.py:381-411 | The two stores cancel a task alike iff it is final, has no finish time, or has this very one: the SQL keeps an old finish time, the other store overwrites it. |
| `PostgresStore.StepsAgreeIff` | services/queue_proxy/queue_proxy/postgres_task_store.py:205-411 | Any operation leaves the two stores equal iff it is not such a cancel. |
| `PostgresStore.HistoriesAgree` | services/queue_proxy/queue_proxy/postgres_task_store.py:205-411 | Over any history without such a cancel the two stores accept the same operations, pick the same tasks and hold the same tasks. |
| `PostgresStore.OrderlyHistoriesAgree` | services/queue_proxy/queue_proxy/postgres_task_store.py:205-411 | They agree on every history in which no finished task is queued again. |
| `PostgresStore.RevivedTaskDivides` | services/queue_proxy/queue_proxy/postgres_task_store.py:354-411 | They part otherwise: result, then retry, then cancel leaves different finish times. |
| `Executor.BackoffGrows` | services/queue_proxy/queue_proxy/main.py:726-729 | The first delay is the base up to the cap, and each later one is exactly twice the one before up to the cap. |
| `Executor.EnrichedTells` | services/queue_proxy/queue_proxy/main.py:699-711 | A recorded error tells whether it was retryable, the attempts made and allowed, and, iff another attempt follows, when and after how long; every other field is kept. |
| `Executor.NextKeeps` | services/queue_proxy/queue_proxy/main.py:555-723 | Every action of executor, clients and restarts keeps: no task has more than `max_attempts` attempts, a queued one has fewer, and the claims made are the sum of attempts. |
| `Executor.HandlersStep` | services/queue_proxy/queue_proxy/main.py:555-575 | A submission, a cancel and a restart do to the store what their own operation does; only the restart makes the executor idle, and none counts a claim. |
| `Executor.BudgetStep` | services/queue_proxy/queue_proxy/main.py:555-723 | A claim lowers the attempts left by exactly one; only a submission raises them, by `max_attempts` per created task. |
| `Executor.BudgetBounds` | services/queue_proxy/queue_proxy/main.py:693-723 | The attempts left are never negative. |
| `Executor.FinitelyManyClaims` | services/queue_proxy/queue_proxy/main.py:555-575 | In every reachable state the claims so far are at most `max_attempts` times the tasks submitted, with any outcomes, cancellations, catch-all failures and restarts. |
| `Executor.PhaseKeeps` | services/queue_proxy/queue_proxy/main.py:555-692 | The executor only ever works on a task that is stored. |
| `ExecutorLoop.RecordTaskFailure` | services/queue_proxy/queue_proxy/main.py:693-723 | Field by field: a retryable failure with an attempt left is queued again for now plus the least of the cap and the base times two to the number of earlier attempts; any other has failed. The recorded error is the enriched one, and nothing else in the store changes. |
| `ExecutorLoop.TaskExecutor.ClaimTask` | services/queue_proxy/queue_proxy/main.py:555-560 | The top of the loop is the claim step of the transition system: it is busy afterwards iff something was claimable, and the task it works on is running with one more attempt. |
| `ExecutorLoop.TaskExecutor.ExecuteStoredTask` | services/queue_proxy/queue_proxy/main.py:578-679 | A backend is asked for iff there is a payload and neither check failed; the first thing that went wrong, or the answer, is recorded by its step; and a lease that was granted is given back whatever the request came to. |
| `ExecutorLoop.TaskExecutor.RecordAttempt` | services/queue_proxy/queue_proxy/main.py:578-723 | Field by field in the store: a missing or invalid payload and a missing policy fail for good, no backend and transport errors may be retried, an error status may be retried iff it is 408, 409, 425, 429 or at least 500, and anything below 400 is the result. |
| `ExecutorLoop.TaskExecutor.CatchAll` | services/queue_proxy/queue_proxy/main.py:562-575 | Whatever was recorded before, the catch-all records a retryable failure on top, field by field. |
| `ExecutorLoop.TaskExecutor.AfterReconcile` | services/queue_proxy/queue_proxy/main.py:682-691 | After reconciling the loop is idle again; an exception inside the handler ends it. |
| `ExecutorLoop.ClaimIsPoll` | services/queue_proxy/queue_proxy/task_queue.py:336-353 | The store after a claim is the one the transition system continues with. |
| `Limiter.StepExact` | services/queue_proxy/queue_proxy/limiter.py:50-89 | Each atomic step keeps active equal to the holders and queued equal to the waiters and the cancelled ones, whatever the limits do. |
| `Limiter.ReleaseNeverClamps` | services/queue_proxy/queue_proxy/limiter.py:76-79 | A release by a holder lowers active by exactly one; the clamp does not act. |
| `Limiter.GrantsBelowLimit` | services/queue_proxy/queue_proxy/limiter.py:50-89 | Active grows by one at a time and only below the limit in force; likewise queued. |
| `Limiter.WithinLimits` | services/queue_proxy/queue_proxy/limiter.py:50-79 | With fixed limits active and queued never exceed them. |
| `Limiter.LimitsInForce` | services/queue_proxy/queue_proxy/limiter.py:81-89 | In any run the limits at a state are those that were set last, or those of the start. |
| `Limiter.NewcomerIff` | services/queue_proxy/queue_proxy/limiter.py:50-68 | In any run a newcomer gets a slot iff fewer hold one than the last limit allows, else a place iff waiters and leaked places are below the last queue limit, and is refused with nothing changed otherwise. |
| `Limiter.TimedOutNeverServed` | services/queue_proxy/queue_proxy/limiter.py:60-74 | In any run a caller whose timer has fired never takes a slot, and stays a waiter until its handler runs or it is cancelled. |
| `Limiter.TimeoutLeaves` | services/queue_proxy/queue_proxy/limiter.py:60-68 | Any waiter that is not leaving may time out, and then leaves and gives back one place. |
| `Limiter.WakeupLostIff` | services/queue_proxy/queue_proxy/limiter.py:50-89 | A step loses a wakeup iff it raises the limit past the load while somebody sleeps. |
| `Limiter.NoWakeupLost` | services/queue_proxy/queue_proxy/limiter.py:50-79 | With limits fixed or lowered, a sleeping waiter means the limiter is full, in every interleaving. |
| `Limiter.SomebodyCanMove` | services/queue_proxy/queue_proxy/limiter.py:50-79 | With a positive limit and waiters, somebody holds a slot or some waiter is awake. |
| `Limiter.RaisedLimitStrandsWaiter` | services/queue_proxy/queue_proxy/limiter.py:81-89 | A concrete run in which raising the limit leaves a waiter asleep beside a free slot. |
| `Limiter.QueuedExactIff` | services/queue_proxy/queue_proxy/limiter.py:60-68 | Queued equals the number of waiters iff no queued caller has been cancelled from outside. |
| `Limiter.CancelledWaiterLeaks` | services/queue_proxy/queue_proxy/limiter.py:60-68 | A concrete run: one cancelled waiter, and the next caller is refused although nobody waits. |
| `Limiter.LeaksStay` | services/queue_proxy/queue_proxy/limiter.py:60-68 | A leaked place is never given back. |
| `Limiter.LeakedPlacesRefuse` | services/queue_proxy/queue_proxy/limiter.py:50-68 | Once as many waiters were cancelled as the queue has places, every later newcomer to a full limiter is refused, for the rest of the run. |
| `Limiter.NotifiedTakeFreeSlots` | services/queue_proxy/queue_proxy/limiter.py:70-74 | In whatever order the notified waiters run, they fill exactly the free slots or all get one. |
| `Limiter.ModelLimiter.Acquire` | services/queue_proxy/queue_proxy/limiter.py:50-68 | In counters and limits: granted iff active is below its limit, else queued iff queued is below its limit, else refused with nothing changed; the counters move by the one caller. |
| `Limiter.ModelLimiter.WaitForSlot` | services/queue_proxy/queue_proxy/limiter.py:70-74 | A notified waiter takes a slot iff active is below its limit, moving one from queued to active, else it sleeps again and nothing moves. |
| `Limiter.ModelLimiter.TimedOut` | services/queue_proxy/queue_proxy/limiter.py:60-68 | A timed-out waiter gives its one place back, and every other sleeper is notified. |
| `Limiter.ModelLimiter.Release` | services/queue_proxy/queue_proxy/limiter.py:76-79 | Active goes down by one, and every sleeper is notified. |
| `Limiter.ModelLimiter.UpdateLimits` | services/queue_proxy/queue_proxy/limiter.py:81-89 | Both limits are exactly the new ones; counters and callers stay as they were, and nobody is woken. |
| `Gateway.StepConserves` | services/queue_proxy/queue_proxy/main.py:299-437 | Every step of any request, the executor and the registry, lost answers, failed releases and cancelled waiters included, keeps each counter equal to its holders and what has leaked. |
| `Gateway.RunConserves` | services/queue_proxy/queue_proxy/main.py:332-437 | Under any interleaving of any number of requests and the executor each counter is its holders and its leaks at every step. |
| `Gateway.CountersAre` | services/lifecycle/lifecycle/registry.py:103-110 | Active is the number of requests with a slot, queued the waiters and the cancelled ones, `active_requests` the requests and executor that hold the instance and its leaked leases. |
| `Gateway.LeasesExactIff` | services/queue_proxy/queue_proxy/routing.py:27-70 | In every run the lease count of an instance is exactly its holders iff since its registration no answer was lost and no release failed. |
| `Gateway.QueuesExactIff` | services/queue_proxy/queue_proxy/limiter.py:60-68 | In every run active is exact, and queued is exactly the waiters iff no request of the model was cancelled in the queue. |
| `Gateway.NothingIsClamped` | services/lifecycle/lifecycle/registry.py:103-110 | Neither clamp at zero ever acts: what is given back was counted. |
| `Gateway.NothingLeaks` | services/queue_proxy/queue_proxy/main.py:332-437 | Whenever nothing is in flight every slot is free; a queue counter is zero iff no request of the model was cancelled in the queue, a lease counter iff no lease of the instance has leaked since it was registered. |
| `RequestLife.StageLaw` | services/queue_proxy/queue_proxy/main.py:332-437 | A step leaves a request in its stage, or it is the one that takes it on: from the queue to its slot or out, from resolving to serving or giving back, from serving through the lease and then the slot to the end. |
| `RequestLife.ResolutionLaw` | services/queue_proxy/queue_proxy/main.py:332-437 | A request serves from a leased instance iff one was leased, from upstream iff resolution says so, gives slot and nothing else back without a backend, and goes through its handler when resolution raises. |
| `RequestLife.NeverBack` | services/queue_proxy/queue_proxy/main.py:332-437 | In any run a request never returns to an earlier stage. |
| `RequestLife.FreedOnce` | services/queue_proxy/queue_proxy/main.py:332-437 | In any run a request gives its slot back at most once, and no step of it comes after that. |
| `RequestLife.CanGoOn` | services/queue_proxy/queue_proxy/main.py:332-437 | In any conserved state every unfinished request has a step that takes it on. |
| `RequestLife.ConfiguredLast` | services/queue_proxy/queue_proxy/limiter.py:105-125 | In any run the limits of a model are those of its last configuration. |
| `RequestLife.ArrivalIff` | services/queue_proxy/queue_proxy/main.py:332-437 | A new request gets a slot iff fewer requests of its model hold one than allowed, waits iff the queue with its leaked places has room, and is refused otherwise. |
| `Routing.ChooseBackend` | services/queue_proxy/queue_proxy/backend_registry.py:34-43 | The first serving instance with the fewest active requests; none iff none serves the model. |
| `Routing.LeastBusyBalances` | services/queue_proxy/queue_proxy/backend_registry.py:34-43 | With loads within one of each other, a lease keeps them so iff it goes to a least busy instance. |
| `Routing.BackendResolver.Resolve` | services/queue_proxy/queue_proxy/routing.py:27-98 | Which of the three outcomes comes back, both ways; the counters rise by exactly the lease that is reported iff no lease was counted whose answer got lost, and without a registered instance to lease nothing changes. |
| `Routing.BackendResolver.FindBackend` | services/queue_proxy/queue_proxy/routing.py:39-62 | The one instance to lease, if there is one: a listed least busy one, else a ready one from allocation; refused iff nothing serves and allocation refuses. |
| `Routing.LostAnswerLeaks` | services/queue_proxy/queue_proxy/routing.py:57-66 | One idle backend and a lost answer: the request goes upstream and the counter stays at one. |
| `Routing.BackendResolver.Release` | services/queue_proxy/queue_proxy/routing.py:100-109 | One instance's counter goes down by one; no lease, an unknown instance or an unreached service changes nothing. |
| `Routing.BackendResolver.LeaseBackend` | services/queue_proxy/queue_proxy/backend_registry.py:99-102 | The lease is counted iff the call reaches a registered instance, and reported iff the answer comes back too. |
| `Routing.Forwarding.ReleaseOnce` | services/queue_proxy/queue_proxy/main.py:353-369 | The first call returns lease and slot, each lowering its counter by one; every later call changes nothing. |
| `Templates.MatchIff` | services/queue_proxy/queue_proxy/task_queue.py:20 | The greedy scan finds a prefix iff the regular expression describes it, with the same name. |
| `Templates.UnscanScan` | services/queue_proxy/queue_proxy/task_queue.py:623-635 | Scanning into literals and placeholders and printing them back is the identity. |
| `Templates.ScanAround` | services/queue_proxy/queue_proxy/task_queue.py:623-635 | A placeholder is found wherever it stands, whatever surrounds it. |
| `Templates.RenderFails` | services/queue_proxy/queue_proxy/task_queue.py:607-646 | Rendering succeeds iff every referenced path resolves; otherwise it reports the first that does not. |
| `Templates.RenderDepends` | services/queue_proxy/queue_proxy/task_queue.py:607-646 | The result depends only on the variables at the referenced paths. |
| `Templates.PlainRenders` | services/queue_proxy/queue_proxy/task_queue.py:607-620 | A template without placeholders renders to itself. |
| `Templates.WholeIsValue` | services/queue_proxy/queue_proxy/task_queue.py:607-635 | A string that is exactly one placeholder becomes the value itself, of whatever type, or the error that names it. |
| `Templates.InsertedVerbatim` | services/queue_proxy/queue_proxy/task_queue.py:623-635 | Inserted text is never expanded again, braces or not. |
| `Templates.JoinSplit` | services/queue_proxy/queue_proxy/task_queue.py:638-646 | Splitting a path at its dots loses nothing and leaves no dot in a component. |
| `Templates.PathStep` | services/queue_proxy/queue_proxy/task_queue.py:638-646 | A path of one component is a field of the variables; a longer one goes on below the field of its first component, and has no value where that is missing. |
| `ContextPlans.BucketIsLeast` | services/queue_proxy/queue_proxy/task_queue.py:943-948 | A number is the bucket of a requirement iff it is the least size that covers it. |
| `ContextPlans.BucketCloses` | services/queue_proxy/queue_proxy/task_queue.py:943-948 | Bucketing covers, is monotone and idempotent. |
| `ContextPlans.OversizedExact` | services/queue_proxy/queue_proxy/task_queue.py:802-846 | The oversized tasks are those larger than the recommended context; there are none iff it covers every task. |
| `ContextPlans.PlanBounds` | services/queue_proxy/queue_proxy/task_queue.py:802-846 | Recommended slots lie between one and both the queue length and the requested maximum; the context respects every task's cap. |
| `ContextPlans.PlanExtremes` | services/queue_proxy/queue_proxy/task_queue.py:802-846 | The plan is made for the largest requirement of any task, the most slots any task asks for, and the tightest cap. |
| `ContextPlans.PlanSizes` | services/queue_proxy/queue_proxy/task_queue.py:802-846 | Its context is the least size that covers the largest requirement unless the cap is below that, its slots are the lesser of those asked for and one for each task, and its total is their product. |
| `ContextPlans.PlanIgnoresOrder` | services/queue_proxy/queue_proxy/task_queue.py:802-846 | The numbers do not depend on task order, and the oversized ids are only reordered. |
| `ContextPlans.QueueLengths` | services/queue_proxy/queue_proxy/task_queue.py:849-855 | One entry per model with queued tasks, with their number. |
| `ContextPlans.PlansFor` | services/queue_proxy/queue_proxy/task_queue.py:858-867 | One plan per model with queued tasks, made from exactly these. |
| `Timestamps.TextOrderIsTimeOrder` | services/queue_proxy/queue_proxy/task_queue.py:955-956 | Printed UTC timestamps compare as their instants, although 25 and 32 characters long ones mix. |
| `Timestamps.LengthsDiffer` | services/queue_proxy/queue_proxy/task_queue.py:955-956 | Two instants one microsecond apart whose texts differ in length, outside what section 5.1 of RFC 3339 grants. |
| `Timestamps.ParsePrinted` | services/queue_proxy/queue_proxy/task_queue.py:955-963 | Reading a printed timestamp gives back every field. |
| `Timestamps.PrintableIff` | services/queue_proxy/queue_proxy/task_queue.py:951-956 | The instants that can be printed are exactly those from the first to the last microsecond of years 1 to 9999. |
| `Timestamps.InstantsSurvive` | services/queue_proxy/queue_proxy/task_queue.py:955-963 | Every such instant is read back from its text, and the texts are ordered as the instants. |
| `TokenPolicy.ApplyTokenPolicy` | services/queue_proxy/queue_proxy/policy.py:199-245 | The statements in order admit, refuse and rewrite as the one-expression form says, with the error of the first failing check. |
| `TokenPolicy.RefusedIff` | services/queue_proxy/queue_proxy/policy.py:199-240 | Each refusal iff its own reason holds and none of the earlier ones: input too large, unreadable number, output rejected, no room left. |
| `TokenPolicy.RequestedIs` | services/queue_proxy/queue_proxy/policy.py:439-444 | The request asks for what the first present of the three output keys says, or for the default where that is null or none is there. |
| `TokenPolicy.AsIntIs` | services/queue_proxy/queue_proxy/policy.py:199-245 | Numbers are cut off towards zero, truth values are one or none, texts are read, and nothing else is a number. |
| `TokenPolicy.EstimateIs` | services/queue_proxy/queue_proxy/policy.py:447-451 | The estimate is none iff there is no text, one iff the quotient is below one and a half, and otherwise the nearest integer to it. |
| `TokenPolicy.NothingEscapes` | services/queue_proxy/queue_proxy/policy.py:454-471 | The collected text of a value contains the text of everything nested in it under the text keys. |
| `TokenPolicy.EstimateCovers` | services/queue_proxy/queue_proxy/policy.py:447-471 | So the estimate of a request is no less than what any single text in it amounts to, up to rounding. |
| `TokenPolicy.LimitIsWritten` | services/queue_proxy/queue_proxy/policy.py:216-245 | The admitted payload carries exactly min(requested or default, maximum, total - input) under the key it used, and every other field is kept. |
| `TokenPolicy.AppliedTwice` | services/queue_proxy/queue_proxy/policy.py:199-245 | Applying the policy again grants the same limit. |
| `TokenPolicy.OverridesTighten` | services/queue_proxy/queue_proxy/policy.py:248-305 | Client overrides only lower limits and touch nothing else of the policy. |
| `TokenPolicy.OverridesExact` | services/queue_proxy/queue_proxy/policy.py:248-305 | Each limit of the tightened policy is its own override brought between one and the old limit; there is no such policy iff some override is unreadable. |
| `TokenPolicy.PolicyWins` | services/queue_proxy/queue_proxy/policy.py:199-305 | What a tightened policy admits the base policy admits with at least as many output tokens, iff the base does not reject its own default for a request that asks for nothing. |
| `TokenPolicy.OverrideAdmits` | services/queue_proxy/queue_proxy/policy.py:199-305 | A concrete base policy that rejects its own default, and an override with which the same request is admitted. |
| `TokenPolicy.ApplyOrchestrationOverrides` | services/queue_proxy/queue_proxy/policy.py:248-305 | The field-by-field loop gives the tightened policy, or the error of the first unreadable override. |
| `TokenPolicy.BoundedIntOverride` | services/queue_proxy/queue_proxy/policy.py:415-424 | A blank override leaves the limit alone, any other records the smaller of the two. |
| `TokenPolicy.RawIs` | services/queue_proxy/queue_proxy/policy.py:248-305 | Which value overrides a limit: the nested tokens object goes before the top level, and `max_parallel` before `max_active_requests`. |
| `TokenPolicy.TightenedIs` | services/queue_proxy/queue_proxy/policy.py:415-424 | A readable override is brought between one and the limit. |
| `TokenPolicy.TimeoutTightened` | services/queue_proxy/queue_proxy/policy.py:427-436 | A readable timeout is brought between a millisecond and the limit. |
| `Registry.BackendRegistry.ReservedVramByGpu` | services/lifecycle/lifecycle/registry.py:61-68 | The loops compute, for every GPU, the sum reserved by active and external instances. |
| `Registry.HoldingIs` | services/lifecycle/lifecycle/registry.py:61-68 | An active or external backend holds its memory on each GPU it lists, any other holds none. |
| `Registry.BackendRegistry.NextHostPort` | services/lifecycle/lifecycle/registry.py:70-79 | The least free port at or above the start, within as many steps as there are used ports. |
| `Registry.NextPortUnique` | services/lifecycle/lifecycle/registry.py:70-79 | The least free port is unique, so registry and start determine the port of a new backend. |
| `Registry.UsedRun` | services/lifecycle/lifecycle/registry.py:70-79 | Pigeonhole: a run of used ports is no longer than the number of used ports. |
| `Registry.BackendRegistry.MarkState` | services/lifecycle/lifecycle/registry.py:88-93 | One record changes state and time; an unknown id changes nothing. |
| `Registry.BackendRegistry.MarkFailed` | services/lifecycle/lifecycle/registry.py:95-101 | One record becomes failed with its reason; an unknown id changes nothing. |
| `Registry.BackendRegistry.AdjustActiveRequests` | services/lifecycle/lifecycle/registry.py:103-110 | One counter moves, not below zero, and a lease stamps the last use; an unknown id changes nothing. |
| `Registry.ForModel` | services/lifecycle/lifecycle/registry.py:47-59 | Exactly the ready, or the active, records of the model. |
| `Scheduler.ChooseGpu` | services/lifecycle/lifecycle/scheduler.py:7-50 | The first allowed GPU with the most room if one fits, else a refusal with the best room there is. |
| `Scheduler.PlacementUnique` | services/lifecycle/lifecycle/scheduler.py:12-50 | The answer is determined by profile, snapshot and registry. |
| `Scheduler.StartsIff` | services/lifecycle/lifecycle/scheduler.py:12-50 | A start is decided iff some GPU that the profile prefers by id, by index or as `auto` has as much free and unreserved memory as the estimate and the margin together. |
| `Runtime.StartInstance` | services/lifecycle/lifecycle/runtime.py:29-64 | Raises or gives a record, field by field: the least free port, the one GPU, the required memory, the profile's shape, ready at once only in a dry run. |
| `Runtime.InitializeInstance` | services/lifecycle/lifecycle/runtime.py:66-89 | Ready, or failed at either stage with its reason, field by field; in between others see it warming, unless the warmup is never reached. |
| `Runtime.StopInstance` | services/lifecycle/lifecycle/runtime.py:150-167 | Stopped, or failed with its reason, field by field, and draining in between; either way no memory stays reserved. |
| `Allocation.Allocate` | services/lifecycle/lifecycle/allocation_service.py:55-103 | Reuses a least busy ready backend; else, verified, places, records and initialises one; else refuses or raises and leaves the registry alone. |
| `Allocation.Place` | services/lifecycle/lifecycle/allocation_service.py:74-94 | The uninterrupted part: a GPU with room, the least free port, one record; or a refusal iff no allowed GPU has room; whatever else of the model has become ready. |
| `Allocation.AllocationAdds` | services/lifecycle/lifecycle/allocation_service.py:74-94 | A placement adds exactly the required memory to one allowed GPU with the most room, and nothing elsewhere. |
| `Allocation.AllocationFits` | services/lifecycle/lifecycle/allocation_service.py:74-94 | Even on an overbooked fleet it never pushes a GPU over its free memory. |
| `Allocation.NeverOverbooked` | services/lifecycle/lifecycle/registry.py:61-68 | Over any run of placing, initialising, leasing, stopping and purging, with overlapping allocations of one model too, reservations on each GPU stay within the snapshot. |
| `Allocation.PortsStayUnique` | services/lifecycle/lifecycle/registry.py:70-86 | Over any run of starts, syncs, state changes and removals no two records share a port. |
| `Allocation.InitialisingMoves` | services/lifecycle/lifecycle/runtime.py:66-89 | Initialising a started backend is a run of the steps: warming and ready, or failed at either stage. |
| `Allocation.StoppingMoves` | services/lifecycle/lifecycle/runtime.py:150-167 | Stopping a live backend is a run of the steps: draining, then stopped or failed. |
| `Allocation.NeverBack` | services/lifecycle/lifecycle/runtime.py:66-167 | In any run no backend goes back to an earlier stage: once stopped or failed it is never active again. |
| `Overbooking.TurnsMemory` | services/lifecycle/lifecycle/controller.py:259-281 | After every turn of a reconcile each GPU holds what it held plus what the planned actions so far change: starts that stay, minus stopped predecessors. |
| `Overbooking.ReconcileFitsIff` | services/lifecycle/lifecycle/controller.py:259-281 | After every turn all GPUs are within their free memory iff on each of them those changes are no more than the room there was when the reconcile planned. |
| `Overbooking.PlanFitsIff` | services/lifecycle/lifecycle/controller.py:136-165 | Before the outcome is known: every run of the plan, whatever its starts and initialisations come to, keeps every GPU within its free memory after each turn iff the sums of the run in which all succeed are within the room. |
| `Overbooking.OneStartFits` | services/lifecycle/lifecycle/controller.py:136-165 | With at most one start on each GPU, and reloads that need no more than they give back, no GPU is pushed over its free memory. |
| `Overbooking.ReconcilePrepared` | services/lifecycle/lifecycle/controller.py:244-287 | Every reconcile meets what these results assume of its plan. |
| `Overbooking.TwoPlansOverbook` | services/lifecycle/lifecycle/controller.py:136-165 | A reconcile that overbooks: two models of 6 planned on an empty GPU of 10, both started, 12 reserved. |
| `Ports.ReconcilePorts` | services/lifecycle/lifecycle/controller.py:244-336 | After every turn of a whole reconcile, aborted or not, no two records share a port. |
| `Cleanup.StopIdleInstances` | services/lifecycle/lifecycle/cleanup.py:44-65 | The sweep over all profiles stops exactly the victims judged on the registry before it, and reports them in order. |
| `Cleanup.FloorKept` | services/lifecycle/lifecycle/cleanup.py:44-65 | The ready count of each model afterwards, exactly; so at least min(ready before, minimum replicas). |
| `Cleanup.OnlyIdleStopped` | services/lifecycle/lifecycle/cleanup.py:44-65 | Every stopped one was ready, unleased, past its idle time, of a model with an empty queue, and no longer-idle candidate was spared. |
| `Cleanup.StoppableIff` | services/lifecycle/lifecycle/cleanup.py:48-101 | A backend may be stopped iff it is ready, without requests, and its last use, or else its last change, is as long ago as its own time to live, or else that of its profile. |
| `Cleanup.VictimsDistinct` | services/lifecycle/lifecycle/cleanup.py:48-63 | Victims are distinct registered candidates, longest idle first. |
| `Cleanup.StopAllIs` | services/lifecycle/lifecycle/cleanup.py:60-65 | Only the victims change, and each ends stopped or failed. |
| `Cleanup.PurgeStaleInstances` | services/lifecycle/lifecycle/cleanup.py:67-78 | Exactly the stopped or failed LM Studio records past the time to live go, all others stay as they were. |
| `Reload.NoDecisionIff` | services/lifecycle/lifecycle/controller.py:657-700 | No decision iff every ready or draining instance fits. |
| `Reload.NoDecisionMeans` | services/lifecycle/lifecycle/controller.py:657-758 | With both shapes desired: no decision iff every live instance has context for desired and required and parallel slots for desired. |
| `Reload.DecisionIs` | services/lifecycle/lifecycle/controller.py:657-700 | Any decision is about the first live misfit. |
| `Reload.ReplacedIff` | services/lifecycle/lifecycle/controller.py:710-795 | A misfit is replaced iff its context is unknown, or too small for the largest task with known slots, or it is old enough and something is gained: unknown or too few slots, or a smaller bucket where that counts. |
| `Reload.ReasonHolds` | services/lifecycle/lifecycle/controller.py:710-795 | The reason given for replacing or keeping a backend is true of it. |
| `Reload.HardDelayedIff` | services/lifecycle/lifecycle/controller.py:710-758 | A hard mismatch is put off iff the context is known, the wanted parallel count is not, and the instance is young. |
| `Reload.HardMismatchHeld` | services/lifecycle/lifecycle/controller.py:710-758 | A concrete backend that is too small for the largest task and yet kept, and replaced at once were its parallel count known. |
| `Reload.FreshFitsIff` | services/lifecycle/lifecycle/allocation.py:32-46 | An instance started with the planned shape fits that plan iff no task is oversized. |
| `Reload.Converged` | services/lifecycle/lifecycle/controller.py:657-700 | Once every live instance has the planned shape nothing is decided, at any time. |
| `Reload.ReloadHelps` | services/lifecycle/lifecycle/controller.py:421-464 | Every reload leaves one misfit fewer. |
| `Reload.ReloadsEnd` | services/lifecycle/lifecycle/controller.py:421-464 | A fixed plan causes at most as many reloads as there were misfits, then none. |
| `Controller.PlanModel` | services/lifecycle/lifecycle/controller.py:136-176 | When a model is scaled up, reloaded or left alone: a start iff nothing is oversized, the active ones are below the ceiling and below the larger of floor and ready plus one if requests wait, and an allowed GPU has the room; a reload of a backend iff that one is due. |
| `Controller.StartsWhenDue` | services/lifecycle/lifecycle/controller.py:136-165 | Whatever is planned is a start iff one is due, in counts, limits, queue and memory. |
| `Controller.ReloadsWhenDue` | services/lifecycle/lifecycle/controller.py:136-176 | Whatever is planned is the reload of a backend iff requests wait, nothing is oversized, there are enough backends, and it is the first live one without the planned shape and one to replace. |
| `Controller.LiveShapeIs` | services/lifecycle/lifecycle/controller.py:830-846 | The shape a backend is judged by is that of the first live load of its backend model, where that tells one, and the recorded one otherwise. |
| `Controller.PlannedMeans` | services/lifecycle/lifecycle/controller.py:136-176 | A start is planned only below the replica ceiling, a reload only for an active backend of the model. |
| `Controller.PlanAll` | services/lifecycle/lifecycle/controller.py:125-209 | Every model is planned on one and the same registry, a start or a reload iff it is due there. |
| `LiveSync.SyncProfile` | services/lifecycle/lifecycle/controller.py:307-336 | Each record of the profile follows the first load that goes by one of its names, or goes when it was only adopted and none does; loads that no record follows are adopted. |
| `LiveSync.SyncLive` | services/lifecycle/lifecycle/controller.py:289-305 | All LM Studio profiles in order, each on what the ones before it left. |
| `LiveSync.SyncedInTurn` | services/lifecycle/lifecycle/controller.py:289-305 | Profile by profile: only LM Studio ones, each with what its own binary lists, on what the ones before it left. |
| `LiveSync.SyncedSyncs` | services/lifecycle/lifecycle/controller.py:289-336 | No sync makes a backend active, none takes away one that serves as long as adopted records have ids of their own, and ports stay unique. |
| `LiveSync.RecordFollows` | services/lifecycle/lifecycle/controller.py:307-336 | Field by field: a record takes shape and name from the first load of its profile that goes by one of its names; without one it stays, or goes if it was adopted; records of other models stay. |
| `LiveSync.LoadAdopted` | services/lifecycle/lifecycle/controller.py:896-918 | Field by field: a load of the profile that no record goes with is recorded as external, with the memory of the profile and the shape of the load. |
| `LiveSync.LoadRecordedIff` | services/lifecycle/lifecycle/controller.py:307-336 | A load of the profile has a record after a sync iff no record was matched with it, or one was that no other load takes over. |
| `LiveSync.LoadCoveredIff` | services/lifecycle/lifecycle/controller.py:307-336 | The memory of a load is accounted for after a sync iff no record was matched with it, or one was that still reserves and that no other load takes over. |
| `LiveSync.LoadUncovered` | services/lifecycle/lifecycle/controller.py:307-336 | A load that lives on after a failed stop: recorded, but its memory is not accounted for. |
| `LiveSync.LoadOverlooked` | services/lifecycle/lifecycle/controller.py:307-336 | Two loads of one backend model and one record, adopted from the second: the first load stays unrecorded. |
| `Controller.StartAndInitialize` | services/lifecycle/lifecycle/controller.py:275-281 | The one record added, exactly, or nothing when the start raises. |
| `Controller.ReloadInstance` | services/lifecycle/lifecycle/controller.py:421-464 | Busy backends are only drained, loads of others left alone, the rest stopped and replaced; the active count does not grow and no serving backend is lost. |
| `Controller.ActAll` | services/lifecycle/lifecycle/controller.py:259-281 | The registry after every turn, the profile derived again for each, ending early only when a start raises. |
| `Controller.Reconcile` | services/lifecycle/lifecycle/controller.py:244-287 | The whole new registry: synced, swept, planned, acted on in order; a start is among the actions iff one is due after the sweep, and so is a reload; no model's active count exceeds the larger of its ceiling and what it was, and no backend with requests is stopped as long as adopted records have ids of their own. |
| `Convergence.EstimateIgnored` | services/lifecycle/lifecycle/controller.py:818-827 | The memory estimate never decides about a reload. |
| `Convergence.RenewalIsReload` | services/lifecycle/lifecycle/controller.py:421-464 | A planned reload that goes through takes one misfit off the list that the plan saw, live shapes included. |
| `Convergence.CycleReloads` | services/lifecycle/lifecycle/controller.py:244-287 | So does a whole reconcile with such a turn, whatever its turns for other models do. |
| `Convergence.LiveShapePrevails` | services/lifecycle/lifecycle/controller.py:830-846 | As long as LM Studio lists a load of the backend model that is too small, every plan wants a backend replaced, whatever has been started since. |
| `Convergence.PlannedReloadsEnd` | services/lifecycle/lifecycle/controller.py:136-176 | Over any sequence of reconciles between which no misfit is added: for the queue's own plan without oversized tasks at most as many reloads go through as the first of them saw misfits, and then none is planned any more. |

## Left out

- Shared objects: the Python stores and the registry hand out the very objects they keep, so a caller sees later updates; here tasks and instances are values held by the dictionaries, and methods return them as they were.
- Dates in a file that are not timestamps: reading one is a function that may answer anything.
- Records.ToRecord: the order of keys inside a payload, which sorting the saved file changes, is part of a value here and is kept.
- Records.RecordRoundTripIff: asks that no lower-case letter counts as a blank, and that the instants of the task lie in years 1 to 9999.
- JSON text, and the replacement of the file by renaming: each save is one atomic assignment.
- ExecutorLoop.TaskExecutor.ExecuteStoredTask: what the payload check and the policy lookup find is an input, and neither they nor request envelopes are modelled further.
- Executor.NextKeeps: an exception from the store itself inside the claim, which ends the loop, is not among the actions; retry delays are whole microseconds.
- PostgresStore: isolation levels, `SKIP LOCKED` and collation; one operation is one transaction, and text has one abstract order in both stores.
- Fairness.BoundedBypass: assumes what the program cannot ensure, a strictly increasing clock, claims without a model filter, and attempted tasks of the group left alone.
- Limiter: first-in first-out order is not claimed, because a newcomer may take a free slot; cancelling a caller from outside is the step Abandon.
- Gateway.RunConserves: an instance is unregistered only while nobody holds it, and a request that is cancelled after it got its slot goes through its handler like any other exception. Streaming is one suspension between resolve and release.
- Routing.BackendResolver.Resolve: the listing, the allocation reply and the fate of the lease call are inputs, because other requests run in between; which base URLs are usable is a predicate.
- Allocation.Allocate: starts after the profile was resolved and takes the profile enriched from LM Studio metadata; it does not consult the replica ceiling, and neither does the program.
- Allocation.NeverOverbooked: leaves out starts planned by a reconcile or a reload and discovered loads, which do not look at free memory when they happen; module Overbooking says exactly when a reconcile keeps the memory.
- LiveSync.SyncProfile: the id that a load hashes to and the GPUs that its text names are functions that come from outside.
- Controller.Reconcile: one atomic step with one memory estimate and one live list per model and cycle; its explanations, counters and payloads are left out.
- Convergence.PlannedReloadsEnd: what happens between two of the reconciles, the live state included, adds no misfit; `Convergence.LiveShapePrevails` is what may not happen.
- Registry.BackendRegistry.Upsert: the registry file that the program rewrites after every change, and loading it, are not modelled; the instance ids of starts are fresh inputs.
- Cleanup.StopIdleInstances: one clock reading for the whole sweep.
- That a draining instance ever leaves that state.
- TokenPolicy.ApplyTokenPolicy: how values print as text and how texts read as numbers are parameters; floating point is `real`.
- ContextPlans: the hints of a task for parallel slots and context cap are taken as already parsed.
- HTTP routes, forwarding, streaming bodies, health checks, subprocesses, GPU discovery, YAML, metrics, logging, the command line and the client library.
