# TaskMesh, verified

A Dafny model of TaskMesh's task lifecycle: any number of API callers, Celery
workers and recovery scans acting on one task table, one table of execution
attempts and one broker that may duplicate messages. The only concurrency
control is the guarded `UPDATE ... WHERE status = X` and a lease timestamp. The
project proves what this protocol keeps in every run, and shows, with concrete
runs, what it does not keep. A second, independent part verifies the
interpolated percentiles of the load tester.

`dafny verify dfyconfig.toml` checks everything.

## How it is built

| File | Content |
|---|---|
| `Model.dfy` | tasks, attempts, rows, the error text stored for an exception |
| `Backoff.dfy` | the bounded exponential retry delay |
| `Lifecycle.dfy` | the transitions of one row as its guarded UPDATEs perform them, with the row invariants |
| `Ledger.dfy` | history variables of a task and the exact laws they obey |
| `Dispatch.dfy` | queues and messages |
| `Machine.dfy` | the whole system as a state machine over interleaved steps |
| `Safety.dfy` | the invariant of every reachable state |
| `Steps.dfy` | single steps of the machine, told by columns, messages and process states |
| `Statements.dfy` | what holds with every SELECT-then-UPDATE pair split; refinement of split reclaims |
| `Accounting.dfy` | exact accounts, bounds and the five-state lifecycle |
| `Drift.dfy` | the account of every run with split failures, exact up to their lags |
| `Reclaims.dfy` | at most one reclaim per RUNNING period; a scan's report is true |
| `Coverage.dfy` | no task is lost silently |
| `Counters.dfy` | Celery's retry counter against the task's own |
| `Exclusion.dfy` | timed mutual exclusion |
| `Late.dfy` | exactly when the outcome of a reclaimed worker is discarded, and when the record of a closed attempt changes |
| `Replay.dfy` | single steps of a small system, from which such runs are built |
| `Shortfalls.dfy` | runs that break what the system does not guarantee |
| `Monitoring.dfy` | the uninterrupted scan, its order independence, the gauges |
| `LoneScan.dfy` | the machine's scan steps, with nobody else at work, do what the loop is specified to do |
| `Store.dfy` | the service functions as imperative code on mutable tables |
| `LoadTest.dfy` | `percentile` and `summarize` over reals |

`Machine.Action` has the steps of every process: `Api` (submit, requeue,
redispatch, and the publication after them, which may fail or be abandoned by a
crash), `Work` (delivery, visibility timeout, claim, outcome, retry hand-off,
crash), `Recover` (start of a scan, reclaims, redispatches, end, crash),
`Duplicate` and `Tick`. A run is any sequence of enabled steps from the empty
system. `Lifecycle.Commit` is the one definition of what a transaction does; the
methods of `Store.TaskStore` are proved to perform it, and the steps of the
machine are built from it.

**Two granularities.** At level S the SELECT and the UPDATE of the failure
transaction (`FailSelect`, `FailUpdate`) and of the reclaim transaction
(`ScanSelect`, `ScanUpdate`) are separate steps with anything in between. At
level T runs consist of `Machine.Atomic` steps: the failure transaction is one
step; a reclaim need not be, because splitting it changes nothing
(`Statements.SplitReclaimsRefine`). Lemmas without such a hypothesis hold
at level S and therefore at both. Between the two are the runs with split failures
of which none acts on an outdated retry count (`Accounting.CurrentRun`, marked C
below): every level-T run is one (`Accounting.AtomicRunIsCurrent`), and every timely
run (`Exclusion.TimelyRunKeeps`).

**Assumptions.** READ COMMITTED isolation, with the row lock held from a guarded
UPDATE to the commit; one monotone clock; the clock read of a transaction and
its UPDATE are one step, except that a split failure keeps the earlier time it
read; a non-negative lease, the same for all workers; a scan's `now` is not in
the future. A killed worker's delivery returns to the queue, the broker may
duplicate any message, `self.retry` keeps the queue, adds one to the message's
counter and refuses when the counter would pass `max_retries`. Countdown delays
are not waited for: a message may arrive at any time, which only adds runs. In `Store`, which calls
reach the broker is an arbitrary function of their number. The
handler is a nondeterministic success, retryable failure or permanent failure.
Handler executions are counted at their claims. `max_retries` is arbitrary per
task (the service always uses the column default of 3).

## Where the code does less than its documentation says

* `README.md:160` of TaskMesh lists the late outcome of a reclaimed worker as
  eliminated, and `docs/architecture.md:147-155` as the race that the guard
  closes. The UPDATE checks only `status = RUNNING`
  (`app/services/task_lifecycle.py:181`, `:260`). In every run such an outcome is
  discarded if and only if the task is not RUNNING at that moment, that is, until
  somebody has claimed it again; if it is accepted it ends the run of the later
  claim and leaves that claim's attempt open (`Late.LateOutcomeIsRefusedIff`).
  `Shortfalls.LateOutcomeIsApplied` gives the run: the late worker completes the
  task and overwrites the record of its closed attempt while another worker is
  executing it. As long as no live worker is past its own lease this cannot happen
  (`Exclusion.TimedMutualExclusion`, `Exclusion.OutcomeNeverReclaimed`).
* An accepted outcome therefore does not always leave every attempt closed. It
  does if and only if it comes from the current attempt and no earlier attempt is
  open (`Lifecycle.OutcomeClosesAllIff`); that the current attempt alone is not
  enough is shown by `Shortfalls.CurrentOutcomeLeavesOpen`.
* `app/services/recovery.py:33` and `docs/architecture.md:123-137` promise that the
  retry budget is respected. The retry count that `_finalize_failure` writes may be
  outdated (`Shortfalls.StaleRetryCountIsWritten`), and then a task with one retry
  can be executed three times (`Shortfalls.BudgetIsOverspent`). Each such failure
  moves the account of its task by exactly the lag of the count it read
  (`Ledger.OpMovesSurplus`), and the account of every run is exact up to the sum
  of these lags (`Drift.ReachableDrift`). A step takes an illegal edge of the
  lifecycle if and only if it is such a failure (`Accounting.StepIsEdgeIff`). The
  CHECK constraints survive in any case (`Statements.ReachableRows`).
* `app/services/recovery.py:31-32` promises that a closed attempt is never silently
  altered. A step changes the record of a closed attempt only by recording an
  outcome of that very attempt (`Late.StepAltersClosed`), which happens exactly when
  a late or repeated outcome is accepted and says something else
  (`Late.OpAltersClosedIff`); in timely runs it never happens (`Late.ClosedIsFinal`).
* A retry that is already committed can be refused by Celery, which leaves the task
  QUEUED with nothing to cover it. It happens after a requeue, because a duplicate of
  an old message carries the counter of the previous epoch
  (`Shortfalls.CommittedRetryIsRefused`), and without any requeue after an outdated
  failure set the retry count back (`Shortfalls.OutdatedCountIsRefused`). The hand-off
  succeeds if and only if the message's counter is below `max_retries`
  (`Counters.RetryIsSentIff`). For a task never requeued, in a run without outdated
  failures, and so at level T, it always is (`Counters.CommittedRetryIsPublished`).

## Model

| member | source | states |
|---|---|---|
| Statements.ReachableRows | app/models/task.py:42-44 | S: in every reachable state 0 <= retry_count <= max_retries, DEAD_LETTER means the budget is spent, the lease is set exactly while RUNNING, completed_at exactly when COMPLETED, last_error is null when RUNNING or COMPLETED and non-empty when FAILED or DEAD_LETTER, attempt numbers are 1..n, and a running task's latest open attempt is the one whose claim set its lease |
| Statements.RunGrows | app/models/task_execution_attempt.py:26-27 | S: along every run no task and no attempt disappears; priority, max_retries and each attempt's number, worker and start never change |
| Statements.RunFreezes | app/services/task_lifecycle.py:179-205 | S: once COMPLETED or FAILED, the row and its whole attempt history stay the same in every continuation |
| Statements.ReachableRouting | app/services/dispatcher.py:10-33 | S: every message and delivery names a persisted task and is on the high queue exactly for HIGH, the medium for MEDIUM, the low for LOW, never on the control queue; publishers carry their task's priority; a scan about to redispatch finds its row, so the MEDIUM fallback is never taken |
| Statements.MissingErrorsUnreachable | app/services/task_lifecycle.py:125-130 | S: "does not exist" and "attempt no longer exists" cannot come up for a delivery, whatever its worker does next |
| Statements.RetryNumbersAreValid | app/services/task_lifecycle.py:287-304 | S: every retry request and every redispatch carries a retry number the backoff accepts |
| Statements.SplitReclaimIsAtomic | app/services/recovery.py:88-120 | S: whatever others did between a reclaim's SELECT and its UPDATE, the UPDATE has the effect of an atomic reclaim on the current row; if it applies, it ends the RUNNING period the SELECT saw and closes that period's attempt |
| Statements.SplitReclaimsRefine | app/services/recovery.py:80-147 | S: every run with split reclaims has a run with atomic reclaims that ends in the same database, broker, workers, histories and log; if the given run splits no failure, the other splits nothing |
| Safety.Reachable | app/services/task_lifecycle.py:103-160 | S: the conjunction of row, broker, worker, publisher and scan invariants holds after every run |
| Safety.StepKeepsInv | app/services/recovery.py:80-147 | S: each single step of any process keeps that invariant |
| Safety.ScanStays | app/services/task_lifecycle.py:108-121 | S: a scan's selection survives every step of anyone: if the row is still stale it is in the same RUNNING period with the same retry count, since a later claim sets a lease not before the scan's `now` |
| Steps.ClaimStep | app/services/task_lifecycle.py:108-148 | a delivery's claim changes its task's row only, if QUEUED, with this worker and the present time; the worker then executes that attempt under that lease, and otherwise is free |
| Steps.SucceedStep | app/services/task_lifecycle.py:177-205 | a success changes its task's row only, if its guard passes, at the present time, and frees the worker |
| Steps.FailStep | app/services/task_lifecycle.py:230-304 | a failure in one piece records its own error on the current retry count, and leaves the worker with the retry to publish exactly if the task went back to QUEUED |
| Steps.FailSelectStep | app/services/task_lifecycle.py:230-245 | the first half of a split failure reads the current budget of a RUNNING task, changes nothing, and keeps its error and time |
| Steps.FailUpdateStep | app/services/task_lifecycle.py:247-304 | the second half decides on what the first half kept |
| Steps.ReclaimStep | app/services/recovery.py:88-147 | a scan's reclaim of its next candidate acts on the current retry count and at the scan's own time |
| Steps.ReceiveStep | app/workers/celery_app.py:61-68 | a delivery takes one message and changes no row |
| Steps.TimeoutStep | app/workers/celery_app.py:63-68 | a visibility timeout puts a copy of the delivery back while its worker goes on, and changes no row |
| Steps.CrashStep | app/workers/celery_app.py:36-39 | a killed worker's delivery goes back to the broker, and no row changes |
| Steps.DuplicateStep | app/workers/celery_app.py:41-50 | any message may be copied, and no row changes |
| Lifecycle.OpSetsColumns | app/services/task_lifecycle.py:111-285 | every transaction applies exactly when its guard passes, and then every column of the task and of its attempts is the one the transaction names: times, worker, error text, lease, status and retry count |
| Lifecycle.OpKeepsRow | app/services/task_lifecycle.py:179-285 | every transaction keeps the row invariants, also one that decided on an outdated retry count |
| Lifecycle.OpExtends | app/services/task_lifecycle.py:142-148 | no transaction removes an attempt or touches priority, max_retries or an attempt's number, worker or start |
| Lifecycle.OpTouchesOneAttempt | app/services/task_lifecycle.py:200-205 | every transaction opens one new attempt at the end, closes one attempt, or leaves all attempts as they are; none is reopened |
| Lifecycle.MaxNumberIsLength | app/services/task_lifecycle.py:132-136 | with numbers 1..n, the query for the highest number gives the number of attempts, so the next one leaves no gap |
| Lifecycle.LatestOpen | app/services/recovery.py:128-139 | the query returns an open attempt with the highest number among the open ones, and nothing exactly when all are closed |
| Lifecycle.LatestOpenIsLast | app/services/recovery.py:128-139 | while a task is RUNNING that attempt is the last one, and its start plus the lease length is the task's lease |
| Lifecycle.FinishedRefuses | app/services/task_lifecycle.py:258-278 | COMPLETED and FAILED rows refuse every transaction |
| Lifecycle.AppliedIsNotStale | app/services/task_lifecycle.py:108-121 | no transaction leaves a row stale for a scan that has already read its clock |
| Lifecycle.StaleFinalizeIsAtomicIff | app/services/task_lifecycle.py:232-268 | the failure UPDATE does what an atomic one would do if and only if the retry count it read is current |
| Lifecycle.OutcomeClosesAllIff | app/services/task_lifecycle.py:179-205 | an accepted outcome leaves no attempt open if and only if it comes from the current attempt and all earlier attempts were closed |
| Ledger.OpKeepsLaws | app/services/task_lifecycle.py:247-268 | every transaction with a current snapshot keeps the laws on attempts, executions, status changes and requested retries |
| Ledger.OpLowersMeasure | app/services/recovery.py:100-120 | every transaction but a requeue, acting on the current retry count, lowers 2*(max_retries - retry_count) + (2 QUEUED, 1 RUNNING, 0 otherwise) by exactly one |
| Ledger.FinalizeKeepsAccountIff | app/services/task_lifecycle.py:232-268 | a failure UPDATE keeps the attempt account if and only if its retry count is current |
| Ledger.OpMovesSurplus | app/services/task_lifecycle.py:232-268 | a failure UPDATE moves the difference between attempts and account by exactly current minus read retry_count; no other transaction moves it |
| Ledger.LawsBound | app/services/tasks.py:45-55 | the laws imply executions <= (requeues+1)*(max_retries+1), at most 2*(max_retries+1) status changes in an epoch, and backoff of at most S(max_retries) in it |
| Drift.ReachableDrift | app/services/task_lifecycle.py:232-268 | S: in every run, attempts = executions = account + the sum of the lags of the split failures that acted on an outdated count, hence executions <= (requeues+1)*(max_retries+1) + that sum |
| Accounting.ReachableAccounts | app/services/task_lifecycle.py:132-149 | C, and so T: attempts = requeues*(max_retries+1) + retry_count + (0 if QUEUED else 1) = executions, in every reachable state; the requested retry numbers of an epoch are 1, 2, ..., retry_count; and the three bounds follow |
| Accounting.AtomicRunIsCurrent | app/services/task_lifecycle.py:232-268 | a run whose failure transactions are all in one piece never acts on an outdated retry count |
| Accounting.AtomicIsFresh | app/services/recovery.py:88-126 | every step other than the two halves of a split failure acts on the current retry count; a reclaim, split or not, always does |
| Accounting.StepIsEdgeIff | docs/architecture.md:17-34 | S: every step of every run takes one legal edge of the five-state lifecycle on exactly one task, with the right change of budget and attempts, or leaves the database alone, except exactly the split failures whose UPDATE applies with an outdated retry count; so at T every step does |
| Accounting.FinalizeIsEdgeIff | app/services/task_lifecycle.py:247-268 | a failure UPDATE of a RUNNING row takes a legal edge if and only if the retry count it read is current |
| Accounting.OpIsEdge | docs/architecture.md:17-34 | every applied transaction acting on the current retry count is an edge of the diagram, or the start of a new task |
| Accounting.ApiStutters | app/api/tasks.py:131-153 | a redispatch, a publication and a caller's crash leave the database alone |
| Accounting.RequeueRefused | app/api/tasks.py:82-93 | a requeue does nothing at all, and publishes nothing, if and only if the task is missing or not dead-lettered |
| Accounting.WorkerStutters | app/services/task_lifecycle.py:336-359 | S: a delivery for a task that is not QUEUED, a redelivery, a retry hand-off and a crash leave the database alone |
| Accounting.FailUpdateKeepsAccountIff | app/services/task_lifecycle.py:232-268 | S: in any state that keeps the laws, a split failure keeps its task's account if and only if nobody changed the retry count since its SELECT |
| Reclaims.ReclaimedOncePerPeriod | app/services/recovery.py:122-126 | S: however many scans overlap, no RUNNING period is reclaimed twice |
| Reclaims.FinishedScanIsTruthful | app/services/recovery.py:180-219 | S: a scan that ran to completion returns exactly the reclaims it committed, in order (redispatch flags apart), and attempted one publication for each QUEUED outcome |
| Reclaims.ScanSendsAsListed | app/services/recovery.py:186-217 | S: in every run, the entries of a scan marked redispatched are, in order, exactly the messages it published, each on the queue of its task's priority |
| Reclaims.ScanListsTruly | app/services/recovery.py:186-217 | each step of a scan adds at most one entry, marked redispatched if and only if the step publishes a message for that task, and publishes nothing else; the QUEUED outcomes are listed by their redispatch |
| Reclaims.RunKeepsLog | app/services/recovery.py:104-147 | S: every logged reclaim names an attempt that is closed, never a running task's current one, and a task's reclaimed periods strictly increase |
| Reclaims.ReclaimEndsPeriod | app/services/recovery.py:104-140 | a reclaim that applies starts from a running row, ends its period and closes the attempt that was running |
| Coverage.NoTaskSilentlyLost | app/workers/tasks.py:13-22 | S: every QUEUED task has a message, a delivery not yet claimed, a delivery whose retry is committed but not republished, or a publisher; otherwise some step of the run gave up a publication of this task and it has been uncovered ever since |
| Coverage.StepLoses | app/services/recovery.py:187-200 | S: a step turns a task that is covered or not waiting into one waiting uncovered only by giving up a publication of that very task |
| Coverage.StrandsOnlyByLostPublication | app/services/recovery.py:187-200 | the only steps that give up a publication are a failed publication, a retry refused by Celery or not sent, and the crash of a publisher or scan |
| Coverage.RedispatchRescues | app/api/tasks.py:131-153 | a manual redispatch of any QUEUED task is possible, publishes one message on the queue of its priority, changes no row, and leaves the task covered |
| Counters.CommittedRetryIsPublished | app/workers/tasks.py:18-22 | C, and so T: for a task never requeued the message's Celery counter is below the committed retry number, and handing the retry over publishes it on the same queue |
| Counters.RunKeepsCounters | app/services/task_lifecycle.py:298-304 | C, and so T: no message of a never-requeued task is ahead of the task's retry_count |
| Counters.RetryIsSentIff | app/workers/tasks.py:18-22 | S: in any reachable state the hand-off of a committed retry publishes if and only if the message's counter is below max_retries; otherwise the publication is given up |
| Exclusion.TimedMutualExclusion | app/services/recovery.py:104-139 | S: while no live worker is past its own lease, no two live workers ever execute the same task, exactly the newest attempt is open while a task is RUNNING and none otherwise, and the exact accounts hold |
| Exclusion.OutcomeNeverReclaimed | app/services/task_lifecycle.py:177-205 | S: in such runs no outcome of a live worker is rejected, and each lands on the current attempt |
| Exclusion.TimelyRunKeeps | app/services/task_lifecycle.py:108-121 | S: every timely run keeps each live worker the owner of its task's current attempt and lease, and no failure in it acts on an outdated retry count |
| Late.LateOutcomeIsRefusedIff | app/services/task_lifecycle.py:179-205 | S: in every run, the outcome of a worker whose attempt was reclaimed is refused if and only if the task is not RUNNING, equivalently if and only if no later claim is being executed; refused, it changes nothing; accepted, it ends the later claim's run and leaves its attempt open |
| Late.OpAltersClosedIff | app/services/recovery.py:31-32 | a transaction that applies keeps a closed attempt closed, and changes its record if and only if it is an outcome of that very attempt that says something else |
| Late.StepAltersClosed | app/services/task_lifecycle.py:200-205 | S: any step changes the record of a closed attempt only if it is a worker's step that records an outcome of that attempt |
| Late.ClosedIsFinal | app/services/recovery.py:31-32 | S: in timely runs the record of a closed attempt never changes again |
| Shortfalls.LateOutcomeIsApplied | app/services/task_lifecycle.py:179-188 | T: a run after which the late completion of a reclaimed worker is the next step and completes the task while another worker executes it |
| Shortfalls.CurrentOutcomeLeavesOpen | app/services/task_lifecycle.py:258-285 | T: a run after which the completion of the current attempt leaves an earlier attempt open |
| Shortfalls.StaleRetryCountIsWritten | app/services/task_lifecycle.py:232-268 | S: a run after which a task with two attempts is QUEUED with one retry counted |
| Shortfalls.BudgetIsOverspent | app/services/task_lifecycle.py:232-268 | S: a run without a requeue that executes a task with one retry three times |
| Shortfalls.CommittedRetryIsRefused | app/workers/tasks.py:18-22 | T: a run, with a requeue and a duplicate, after which a QUEUED task is covered by nothing at all |
| Shortfalls.OutdatedCountIsRefused | app/workers/tasks.py:18-22 | S: a run without a requeue, after which a committed retry is refused by Celery and leaves its task QUEUED and covered by nothing |
| Monitoring.ScanRecoversAll | app/services/recovery.py:166-219 | for every order of the candidates, the scan reclaims exactly the stale rows and leaves all others alone |
| Monitoring.ReclaimEachIs | app/services/recovery.py:180-184 | for any candidate list, repetitions and unknown ids included, the loop's result depends on the listed ids only |
| Monitoring.SecondScanFindsNothing | app/services/recovery.py:169-178 | after a scan nothing is stale, and a second scan at the same time changes nothing |
| LoneScan.LoneScanRecoversAll | app/services/recovery.py:166-219 | S: from any state, a scan that starts and finishes while nobody else moves leaves exactly the database that reclaiming every stale task gives, and returns as many entries as there were stale tasks |
| LoneScan.ScanCanFinish | app/services/recovery.py:180-219 | a scan in progress that has not crashed can always run to its end on its own |
| Monitoring.ScanFlow | app/services/monitoring.py:116-128 | a scan moves exactly the stale tasks out of RUNNING, by budget to QUEUED or DEAD_LETTER; the other counts, the throughput and the total stay; the stale gauge becomes 0 |
| Monitoring.HistogramIsPartition | app/services/monitoring.py:116-128 | the five counts add up to the number of tasks |
| Monitoring.GaugesAreBounded | app/services/monitoring.py:130-144 | the stale gauge is at most the running count and the throughput at most the completed count |
| Monitoring.MetricsOneRow | app/services/monitoring.py:116-144 | all gauges of an empty table are 0, and writing one row takes its old contribution out of every gauge and puts its new one in: its status, an expired lease while RUNNING, a completion in the last 60 seconds |
| Monitoring.ThroughputFollowsCompletions | app/services/monitoring.py:130-144 | a completion that applies raises the throughput of the 60 seconds from its time on by one; no other transaction changes it |
| Store.TaskStore.CreateTask | app/services/tasks.py:13-33 | adds one QUEUED row with no attempts, three retries and all other columns null, and changes nothing else |
| Store.TaskStore.ClaimTask | app/services/task_lifecycle.py:103-160 | performs the claim transaction, column by column; tells a missing task from one not QUEUED, changing nothing for both; returns the new, last attempt |
| Store.TaskStore.CompleteTask | app/services/task_lifecycle.py:163-205 | performs the completion transaction, column by column; rejects exactly when its guard fails, with the reason of the case, and then changes nothing |
| Store.TaskStore.FinalizeFailure | app/services/task_lifecycle.py:215-314 | performs the failure transaction on the values it read, column by column, with the failure's own text; requests a retry with the right number, limit and countdown exactly when the task went back to QUEUED, otherwise dead-letters or fails it; each rejection has the reason of its case |
| Store.TaskStore.ProcessTask | app/services/task_lifecycle.py:317-359 | undisturbed, one delivery of a QUEUED task adds exactly one attempt, by this worker, from the claim to the end of the handler, and leaves the status, retry count, times and error text that the handler's outcome and the budget call for, and says so; other deliveries change nothing |
| Store.TaskStore.RecordOutcome | app/services/task_lifecycle.py:342-359 | the outcome of a handler runs the transaction it should and reports what became of the task; for a task not RUNNING it aborts and changes nothing |
| Store.TaskStore.ExecuteTask | app/workers/tasks.py:7-22 | only the delivered task's row changes; a retry is handed to Celery exactly when the task went back to QUEUED, and refused as exhausted exactly when the message's next counter would pass max_retries; a hand-off not refused is one call to the broker |
| Store.TaskStore.RequeueDeadLetterTask | app/services/tasks.py:44-62 | resets exactly a DEAD_LETTER row, column by column, and keeps its attempts; refuses and changes nothing otherwise |
| Store.TaskStore.SubmitTask | app/api/tasks.py:22-43 | the row is persisted, and one publication is asked for with its priority; success is reported, and a message is there, exactly if that call reached the broker |
| Store.TaskStore.RequeueTask | app/api/tasks.py:76-105 | 404 and 409 exactly in their cases, with nothing changed and nothing asked for; otherwise the row is reset and one publication asked for, reported as it went |
| Store.TaskStore.RedispatchTask | app/api/tasks.py:108-153 | never changes the database; asks for one publication exactly for a QUEUED task, and reports it as it went |
| Store.TaskStore.ReclaimOne | app/services/recovery.py:80-147 | reclaims a stale row, column by column, and reports its new status and retry count; returns nothing and changes nothing otherwise |
| Store.TaskStore.SelectStale | app/services/recovery.py:169-178 | lists every stale task once, and nothing else |
| Store.TaskStore.Republish | app/services/recovery.py:186-206 | asks for one publication exactly for a task put back to QUEUED, and marks it redispatched exactly if that call reached the broker |
| Store.TaskStore.RecoverOne | app/services/recovery.py:181-217 | one candidate: reclaimed, correctly reported, and one publication asked for exactly if it went back to QUEUED |
| Store.TaskStore.RecoverStaleTasks | app/services/recovery.py:150-219 | undisturbed, the loop leaves exactly what reclaiming every stale row gives; it returns as many entries as count_stale_running counted before, each correct, for different tasks; it asks for one publication for each entry put back to QUEUED, in order, and for no other, and marks exactly those whose call reached the broker |
| Store.Broker.Dispatch | app/services/dispatcher.py:29-44 | every call is recorded; if it reaches the broker there is one fresh message more, on the queue of the priority's own name, otherwise none |
| Store.Broker.Retry | app/workers/tasks.py:18-22 | exhausted exactly when the counter would pass the limit; otherwise one recorded call, and one message on the same queue with the next counter exactly if it reaches the broker |
| Store.ExecutedOnce | app/services/task_lifecycle.py:336-359 | a claim followed by its own outcome applies both, and the two together leave one closed attempt more and the columns the outcome calls for |
| Dispatch.QueuesAreSeparate | app/services/dispatcher.py:10-26 | HIGH goes to the high queue, MEDIUM to medium, LOW to low; no two share a queue, and none uses the queue of the recovery scans |
| Backoff.CountdownTable | app/services/task_lifecycle.py:77-83 | the delay is refused below retry 1 and is 2, 4, 8, then always 16 seconds |
| Backoff.CountdownMonotone | app/services/task_lifecycle.py:77-83 | delays never shrink, lie between 2 and 16 seconds, and reach the cap from the fourth retry on |
| Backoff.TotalDelayIsBound | app/services/task_lifecycle.py:77-83 | the first n delays add up to 2^(n+1)-2 for n <= 4 and 30+16(n-4) beyond |
| Model.SafeErrorMessage | app/services/task_lifecycle.py:95-100 | the stored text has 1 to 2000 characters; it is a task error's stripped message, cut only at the limit, or the fixed text if that is empty; of a foreign exception it tells only the type |
| Model.StripIsInner | app/services/task_lifecycle.py:97 | stripping takes away all whitespace at both ends and nothing else |
| Model.Classify | app/services/task_lifecycle.py:344-352 | a failure is retryable exactly for a retryable task error, and its text is the safe message of what was raised, never empty |
| Model.Truncated | app/services/task_lifecycle.py:145 | the longest prefix within the limit |
| LoadTest.Sorted | scripts/load_test.py:26 | a sorted permutation of the samples |
| LoadTest.SortedIsUnique | scripts/load_test.py:26 | the only one |
| LoadTest.PercentileIgnoresOrder | scripts/load_test.py:23-31 | the percentile depends on the samples as a multiset only |
| LoadTest.PercentileIsBracketed | scripts/load_test.py:26-31 | it lies between the samples of the two neighbouring ranks |
| LoadTest.PercentileAtRank | scripts/load_test.py:26-31 | at an integral rank it is the sample of that rank |
| LoadTest.PercentileIsLinear | scripts/load_test.py:28-31 | from each rank to the next, both included, it is linear: it preserves every weighted mean |
| LoadTest.PercentileMonotone | scripts/load_test.py:23-31 | a higher percentage never gives a lower value, across rank boundaries too |
| LoadTest.PercentilePointwise | scripts/load_test.py:23-31 | slower samples never lower a percentile |
| LoadTest.PercentileEnds | scripts/load_test.py:44-49 | percentile 0 is the least sample and percentile 1 the greatest, 0.0 for no samples |
| LoadTest.SortedMonotone | scripts/load_test.py:26 | pointwise larger samples have larger order statistics, rank by rank |
| LoadTest.SummaryShowsErrors | scripts/load_test.py:51 | the summary shows the first ten errors: those at the first ten of the positions that hold an error, in order |
| LoadTest.PercentileSplits | scripts/load_test.py:26-31 | of n samples, at least floor((n-1)*percent)+1 are at most the percentile and at least n-ceil((n-1)*percent) at least |
| LoadTest.SummarySplits | scripts/load_test.py:46-48 | the reported p50, p95 and p99 split the latencies in this way at 0.50, 0.95 and 0.99 |
| LoadTest.SummaryMean | scripts/load_test.py:45 | the reported mean times the number of submissions is the total of their latencies |
| LoadTest.SummaryRate | scripts/load_test.py:42 | the reported rate times the duration is the number of submissions, and the rate is 0 if no time passed |
| LoadTest.SummaryExtremes | scripts/load_test.py:44-49 | min and max bound all latencies and are attained; without submissions all statistics are 0 |
| LoadTest.SummaryIsOrdered | scripts/load_test.py:34-52 | min <= p50 <= p95 <= p99 <= max, min <= mean <= max, successes and failures add up to the requests, and successes are counted exactly |

## Left out

- Celery, Redis, SQLAlchemy and PostgreSQL internals: they are the assumptions listed above. Database outages are outside the fault model.
- Handlers, task types and payloads: the outcome of a handler is arbitrary.
- FastAPI plumbing, schemas, HTTP status codes, logging, settings and UUID parsing: task ids are naturals, always valid, and a new id is not yet in use.
- Attempt ids: an attempt is named by its task and its position in the task's list, which `Statements.RunGrows` shows to be stable.
- `created_at`, `get_task`, `list_tasks`, the recent-task lists of the monitoring summary: direct database queries.
- Worker and Redis inspection, degraded monitoring responses, the dashboard, migrations, Docker and CI.
- The asynchronous load client, URL validation, rounding and floating-point error: latencies are reals.
- A `percent` outside [0, 1]: `percentile` itself does not check it; its callers pass 0.50, 0.95 and 0.99.
- A negative lease, clock skew between processes, rows from before the lease column existed.
- Enforcement of the countdown delay of a retry: messages may arrive early.
- Interference in `Store`: its methods run undisturbed there. The interleaved behaviour is `Machine`, whose transactions are the same `Lifecycle.Commit`.
- Accounting.ReachableAccounts: holds for `CurrentRun`s, and so at level T and for timely runs; the exact law of all runs is `Drift.ReachableDrift`.
- Counters.CommittedRetryIsPublished: holds for tasks never requeued in `CurrentRun`s, and so at level T; the exact condition in all runs is `Counters.RetryIsSentIff`.
