/** What the system does not guarantee, each with a run that shows it.  The
    conditions under which it does are in `Late`, `Exclusion`, `Accounting`,
    `Drift` and `Counters`. */
module Shortfalls {
  import opened Model
  import opened Backoff
  import opened Lifecycle
  import opened Dispatch
  import opened Machine
  import opened Coverage
  import opened Exclusion
  import opened Drift
  import opened Replay

  /***** A late outcome *****/

  /** Task 0 is submitted, published, delivered to worker 0 and claimed. */
  lemma Begin(c: Config, maxRetries: nat, hostname: string, split: bool) returns (r: Record)
    ensures r == ClaimRow(NewRecord(High, maxRetries), hostname, 0, c.leaseSeconds).record
    ensures Shows(c, View(0, Some(r), multiset{}, Executing(Published(0, High), 0, c.leaseSeconds),
                          Idle, Gone, None, true), split)
  {
    var v := START;
    var m := Published(0, High);
    ShowsStart(c, split);
    GoSubmit(c, v, split, maxRetries);
    v := v.(row := Some(NewRecord(High, maxRetries)), p := Publishing(0, High));
    GoPublish(c, v, split);
    v := v.(broker := multiset{m}, p := Gone);
    GoTake(c, v, split, 0, m, hostname);
    assert v.broker - multiset{m} == multiset{};
    r := ClaimRow(NewRecord(High, maxRetries), hostname, 0, c.leaseSeconds).record;
  }

  predicate Overdue(v: View, now: int) {
    && v.clock <= now && v.alone && v.broker == multiset{} && v.w1.Idle? && v.scan.None?
    && v.row.Some? && Stale(v.row.value.task, now) && v.row.value.task.retryCount < v.row.value.task.maxRetries
    && v.row.value.task.priority == High
  }

  /** A scan reclaims and redispatches task 0. */
  lemma Expired(c: Config, v: View, now: int, split: bool) returns (x: View)
    requires Shows(c, v, split) && Overdue(v, now)
    ensures Shows(c, x, split)
    ensures x == v.(clock := now, row := Some(ReclaimNow(v.row.value, now).record), scan := x.scan,
                    broker := multiset{Published(0, High)})
    ensures x.scan.Some? && x.scan.value.pc.Looping?
  {
    GoTick(c, v, split, now);
    x := v.(clock := now);
    GoScanStart(c, x, split);
    x := x.(scan := Some(Scan(now, [0], Looping, [], [])));
    GoReclaim(c, x, split, now);
    ReclaimRequeues(v.row.value, now);
    x := Reclaimed(x, now);
    var scan := GoRedispatch(c, x, split);
    x := x.(scan := scan, broker := x.broker + multiset{Published(0, High)});
  }

  lemma ReclaimKeepsLength(r: Record, now: int)
    requires Stale(r.task, now)
    ensures |ReclaimNow(r, now).record.attempts| == |r.attempts|
  {
  }

  /** Worker 1 claims it while worker 0 is still at it. */
  lemma Overtaken(c: Config, v: View, now: int, hostname: string, split: bool) returns (x: View)
    requires Shows(c, v, split) && Overdue(v, now)
    ensures Shows(c, x, split)
    ensures ReclaimNow(v.row.value, now).Applied? && ReclaimNow(v.row.value, now).record.task.status == Queued
    ensures x == TakenOver(c, v, now, ReclaimNow(v.row.value, now).record, x.scan, hostname)
    ensures |ReclaimNow(v.row.value, now).record.attempts| == |v.row.value.attempts|
    ensures x.scan.Some? && x.scan.value.pc.Looping?
  {
    ReclaimRequeues(v.row.value, now);
    ReclaimKeepsLength(v.row.value, now);
    var y := Expired(c, v, now, split);
    GoTake(c, y, split, 1, Published(0, High), hostname);
    OvertakenView(c, v, y, hostname);
    x := Taken(c, y, 1, Published(0, High), hostname);
  }

  /** Worker 1 has claimed the reclaimed row `q`. */
  function TakenOver(c: Config, v: View, now: int, q: Record, scan: Option<Scan>, hostname: string): View
    requires q.task.status == Queued
  {
    v.(clock := now, scan := scan, w1 := Executing(Published(0, High), |q.attempts|, now + c.leaseSeconds),
       row := Some(ClaimRow(q, hostname, now, c.leaseSeconds).record))
  }

  lemma OvertakenView(c: Config, v: View, y: View, hostname: string)
    requires y.row.Some? && y.row.value.task.status == Queued && v.broker == multiset{}
    requires y == v.(clock := y.clock, row := y.row, scan := y.scan, broker := multiset{Published(0, High)})
    ensures Taken(c, y, 1, Published(0, High), hostname) == TakenOver(c, v, y.clock, y.row.value, y.scan, hostname)
  {
    assert multiset{Published(0, High)} - multiset{Published(0, High)} == multiset{};
  }

  lemma FirstRow(c: Config, maxRetries: nat, hostname: string)
    ensures var r := ClaimRow(NewRecord(High, maxRetries), hostname, 0, c.leaseSeconds).record;
            && r.task.status == Running && Stale(r.task, c.leaseSeconds + 1) && |r.attempts| == 1
            && r.task.retryCount == 0 && r.task.maxRetries == maxRetries && r.task.priority == High
            && r.attempts[0].finishedAt.None?
  {
  }

  lemma OvertakenRow(c: Config, r: Record, now: int, hostname: string)
    requires Stale(r.task, now) && r.task.retryCount < r.task.maxRetries
    requires |r.attempts| == 1 && r.attempts[0].finishedAt.None?
    ensures var q := ClaimRow(ReclaimNow(r, now).record, hostname, now, c.leaseSeconds).record;
            && q.task.status == Running && |q.attempts| == 2
            && q.task.retryCount == r.task.retryCount + 1 && q.task.maxRetries == r.task.maxRetries
            && q.task.priority == r.task.priority
            && q.attempts[0].error == Some(STALE_LEASE_ERROR) && q.attempts[1].finishedAt.None?
  {
    assert LatestOpen(r.attempts) == Some(0);
    var mid := ReclaimNow(r, now).record;
    assert |mid.attempts| == 1 && mid.attempts[0].error == Some(STALE_LEASE_ERROR);
  }

  /** What a late outcome needs to be applied: worker 0's completion, after its
      lease ran out and worker 1 claimed the task, completes the task, overwrites
      the record of worker 0's closed attempt and leaves the attempt of worker 1,
      which is still executing, open for good. */
  lemma LateOutcomeIsApplied(c: Config) returns (before: System, after: System)
    ensures Reaches(c, before, false)
    ensures Live(WorkerAt(before, 0)) && Live(WorkerAt(before, 1))
    ensures WorkerAt(before, 0).msg.task == WorkerAt(before, 1).msg.task == 0
    ensures 0 in before.db && |before.db[0].attempts| == 2
    ensures before.db[0].attempts[0].error == Some(STALE_LEASE_ERROR)
    ensures Enabled(before, Work(0, Succeed)) && after == Next(c, before, Work(0, Succeed))
    ensures 0 in after.db && after.db[0].task.status == Completed && |after.db[0].attempts| == 2
    ensures after.db[0].attempts[0].error.None? && after.db[0].attempts[1].finishedAt.None?
    ensures Live(WorkerAt(after, 1))
  {
    var r := Begin(c, 3, "a", false);
    FirstRow(c, 3, "a");
    var v := View(0, Some(r), multiset{}, Executing(Published(0, High), 0, c.leaseSeconds), Idle, Gone, None, true);
    OvertakenRow(c, r, c.leaseSeconds + 1, "b");
    v := Overtaken(c, v, c.leaseSeconds + 1, "b", false);
    before :| Reaches(c, before, false) && ViewOf(before) == v;
    SuccessShown(c, before, 0);
    after := Next(c, before, Work(0, Succeed));
    assert ViewOf(after) == Succeeding(v, 0);
  }

  lemma LateFailureRow(c: Config, r: Record, seen: Snapshot, error: string, at: int, hostname: string, again: int)
    requires r.task.status == Running && |r.attempts| == 2 && r.attempts[1].finishedAt.None?
    requires seen.retryCount < seen.maxRetries && error != ""
    ensures var q := FinalizeRow(r, 0, seen, true, error, at).record;
            && q.task.status == Queued && q.task.retryCount == seen.retryCount + 1 && |q.attempts| == 2
            && q.task.maxRetries == r.task.maxRetries
            && var x := ClaimRow(q, hostname, again, c.leaseSeconds).record;
               x.task.status == Running && |x.attempts| == 3 && x.attempts[1].finishedAt.None?
               && x.task.maxRetries == r.task.maxRetries
  {
  }

  /** A late retryable failure of worker 0 puts the task back to QUEUED while worker
      1 is executing it, and worker 0 claims its own retry. */
  lemma LateFailureRetried(c: Config) returns (v: View)
    ensures Shows(c, v, false) && CanEnd(v, 0) && v.w0.Executing? && v.w0.attempt == 2
    ensures |v.row.value.attempts| == 3 && v.row.value.attempts[1].finishedAt.None?
  {
    var now := c.leaseSeconds + 1;
    var r := Begin(c, 3, "a", false);
    FirstRow(c, 3, "a");
    v := View(0, Some(r), multiset{}, Executing(Published(0, High), 0, c.leaseSeconds), Idle, Gone, None, true);
    OvertakenRow(c, r, now, "b");
    v := Overtaken(c, v, now, "b", false);
    LateFailureRow(c, v.row.value, Snapshot(1, 3), "busy", now, "a", now);
    GoFail(c, v, false, 0, "busy");
    v := Failing(v, 0, Snapshot(1, 3), "busy", now);
    GoAgain(c, v, false, 0, "a");
    v := Rerun(c, v, 0, "a");
  }

  /** Even an outcome of the current attempt can leave an attempt open: worker 0's
      retry completes the task as attempt 3, and the attempt 2 that its late failure
      left behind stays open for good. */
  lemma CurrentOutcomeLeavesOpen(c: Config) returns (before: System, after: System)
    ensures Reaches(c, before, false)
    ensures Enabled(before, Work(0, Succeed)) && after == Next(c, before, Work(0, Succeed))
    ensures 0 in before.db && |before.db[0].attempts| == 3 && WorkerAt(before, 0).attempt == 2
    ensures 0 in after.db && after.db[0].task.status == Completed && |after.db[0].attempts| == 3
    ensures after.db[0].attempts[2].finishedAt.Some? && after.db[0].attempts[1].finishedAt.None?
  {
    var v := LateFailureRetried(c);
    before :| Reaches(c, before, false) && ViewOf(before) == v;
    SuccessShown(c, before, 0);
    after := Next(c, before, Work(0, Succeed));
    assert ViewOf(after) == Succeeding(v, 0);
  }

  /***** A stale retry count *****/

  /** Worker 0 has read the retry count 0; then a scan reclaims the task, which
      raises it to 1, and worker 1 claims. */
  lemma ReadAndOvertaken(c: Config, maxRetries: nat) returns (v: View)
    requires maxRetries > 0
    ensures Shows(c, v, true) && CanEnd(v, 0) && CanEnd(v, 1) && v.w0.FailureRead? && v.w0.retryable
    ensures v.w0.attempt == 0
    ensures v.w0.msg == Published(0, High) && v.w0.seen == Snapshot(0, maxRetries) && v.w0.error == "busy"
    ensures v.w1.Executing? && v.w1.msg == Published(0, High) && v.w1.attempt == 1
    ensures Fields(v.row.value, Running, 1, maxRetries) && |v.row.value.attempts| == 2
    ensures v.row.value.attempts[1].finishedAt.None?
    ensures v.alone && v.broker == multiset{} && v.p.Gone? && v.scan.Some? && v.scan.value.pc.Looping?
  {
    var now := c.leaseSeconds + 1;
    var r := Begin(c, maxRetries, "a", true);
    FirstRow(c, maxRetries, "a");
    v := View(0, Some(r), multiset{}, Executing(Published(0, High), 0, c.leaseSeconds), Idle, Gone, None, true);
    GoFailSelect(c, v, "busy");
    v := v.(w0 := Reading(v, "busy"));
    OvertakenRow(c, r, now, "b");
    v := Overtaken(c, v, now, "b", true);
  }

  /** The count of 0 decides after all. */
  lemma OutdatedRetry(c: Config, maxRetries: nat) returns (v: View)
    requires maxRetries > 0
    ensures Shows(c, v, true) && v.row.Some? && v.row.value.task.maxRetries == maxRetries
    ensures v.row.value.task.status == Queued && v.row.value.task.retryCount == 1 && |v.row.value.attempts| == 2
    ensures v.w0 == RetryPending(Published(0, High), 1, maxRetries, RetryCountdown(1))
    ensures |ClaimRow(v.row.value, "a", v.clock, c.leaseSeconds).record.attempts| == 3
    ensures ClaimRow(v.row.value, "a", v.clock, c.leaseSeconds).record.task.maxRetries == maxRetries
  {
    v := ReadAndOvertaken(c, maxRetries);
    var k := v.w0;
    LateFailureRow(c, v.row.value, k.seen, "busy", k.at, "a", v.clock);
    GoFailUpdate(c, v);
    v := Failing(v, 0, k.seen, k.error, k.at);
  }

  /** A retry count read before a reclaim is written back after it: two attempts
      have been made, but the task is QUEUED with one retry on its account. */
  lemma StaleRetryCountIsWritten(c: Config) returns (n: System)
    ensures Reaches(c, n, true)
    ensures 0 in n.db
    ensures n.db[0].task.status == Queued && n.db[0].task.retryCount == 1 && |n.db[0].attempts| == 2
  {
    var v := OutdatedRetry(c, 3);
    n :| Reaches(c, n, true) && ViewOf(n) == v;
  }

  /** With one retry allowed and no requeue, the task is executed three times. */
  lemma BudgetIsOverspent(c: Config) returns (n: System)
    ensures Reaches(c, n, true)
    ensures 0 in n.db && 0 in n.hist && n.db[0].task.maxRetries == 1
    ensures n.hist[0].requeues == 0 && n.hist[0].executions == 3
  {
    var v := OutdatedRetry(c, 1);
    GoAgain(c, v, true, 0, "a");
    v := Rerun(c, v, 0, "a");
    n :| Reaches(c, n, true) && ViewOf(n) == v;
    ReachedHistory(c, n);
  }

  lemma ReachedHistory(c: Config, n: System)
    requires Reaches(c, n, true) && 0 in n.db
    ensures 0 in n.hist && n.hist[0].requeues == 0 && n.hist[0].executions == |n.db[0].attempts|
  {
    var acts :| CanRun(c, Init(0), acts) && End(c, Init(0), acts) == n && AllowedAll(acts, true);
    NoRequeues(c, Init(0), acts);
    RunKeepsDrift(c, Init(0), acts, 0);
  }

  /** Without a requeue call no task is requeued. */
  lemma {:induction false} NoRequeues(c: Config, s: System, acts: seq<Action>)
    requires CanRun(c, s, acts) && AllowedAll(acts, true)
    requires HistoryAt(s, 0).requeues == 0
    ensures HistoryAt(End(c, s, acts), 0).requeues == 0
    decreases |acts|
  {
    if acts != [] {
      NoRequeueOp(c, s, acts[0]);
      NoRequeues(c, Next(c, s, acts[0]), acts[1..]);
    }
  }

  lemma NoRequeueOp(c: Config, s: System, a: Action)
    requires Enabled(s, a) && Allowed(a, true)
    ensures var e := EffectOf(c, s, a); e.op.Some? ==> !e.op.value.1.Requeue?
  {
  }

  /***** A retry that Celery refuses *****/

  /** Worker 0's attempt fails retryably. */
  lemma FailedRound(c: Config, v: View, error: string) returns (q: Record)
    requires Shows(c, v, false) && CanEnd(v, 0) && v.w0.Executing? && error != ""
    requires Fields(v.row.value, Running, v.row.value.task.retryCount, 1) && 0 <= v.row.value.task.retryCount <= 1
    ensures var again := v.row.value.task.retryCount < 1;
            && Fields(q, if again then Queued else DeadLetter, 1, 1)
            && Shows(c, v.(row := Some(q),
                           w0 := if again then RetryPending(v.w0.msg, 1, 1, RetryCountdown(1)) else Idle), false)
  {
    FailureFields(v.row.value, v.w0.attempt, TakeSnapshot(v.row.value.task), error, v.clock);
    GoFail(c, v, false, 0, error);
    q := FinalizeRow(v.row.value, v.w0.attempt, TakeSnapshot(v.row.value.task), true, error, v.clock).record;
  }

  /** Worker 0 takes message `m` and claims. */
  lemma ClaimedRound(c: Config, v: View, m: Message, hostname: string) returns (x: View)
    requires Shows(c, v, false) && v.w0.Idle? && m in v.broker && m.task == 0
    requires v.row.Some? && Fields(v.row.value, Queued, v.row.value.task.retryCount, 1)
    ensures Shows(c, x, false) && x.row.Some? && x.w0.Executing?
    ensures x == v.(row := x.row, w0 := x.w0, broker := v.broker - multiset{m}) && x.w0.msg == m && CanEnd(x, 0)
    ensures Fields(x.row.value, Running, v.row.value.task.retryCount, 1)
  {
    ClaimFields(v.row.value, hostname, v.clock, c.leaseSeconds);
    GoTake(c, v, false, 0, m, hostname);
    x := Taken(c, v, 0, m, hostname);
  }

  /** One retry allowed; the first attempt fails and its retry is published. */
  lemma Retried(c: Config) returns (v: View)
    ensures Shows(c, v, false) && v.row.Some? && Fields(v.row.value, Queued, 1, 1)
    ensures v == View(0, v.row, multiset{Message(0, HighQueue, 1)}, Idle, Idle, Gone, None, true)
  {
    var r := Begin(c, 1, "a", false);
    FirstRow(c, 1, "a");
    v := View(0, Some(r), multiset{}, Executing(Published(0, High), 0, c.leaseSeconds), Idle, Gone, None, true);
    var q := FailedRound(c, v, "busy");
    v := v.(row := Some(q), w0 := RetryPending(Published(0, High), 1, 1, RetryCountdown(1)));
    GoSendRetry(c, v, false, 0);
    v := v.(w0 := Idle, broker := multiset{Message(0, HighQueue, 1)});
  }

  /** The broker duplicates the retry; its first copy fails for good. */
  lemma DeadLettered(c: Config) returns (v: View)
    ensures Shows(c, v, false) && v.row.Some? && Fields(v.row.value, DeadLetter, 1, 1)
    ensures v == View(0, v.row, multiset{Message(0, HighQueue, 1)}, Idle, Idle, Gone, None, true)
  {
    var m := Message(0, HighQueue, 1);
    v := Retried(c);
    GoDuplicate(c, v, false, m);
    v := v.(broker := multiset{m, m});
    v := ClaimedRound(c, v, m, "a");
    assert v.broker == multiset{m};
    var q := FailedRound(c, v, "busy");
    v := v.(row := Some(q), w0 := Idle);
  }

  /** A requeue publishes a fresh message beside the old copy. */
  lemma Requeued(c: Config) returns (v: View)
    ensures Shows(c, v, false) && v.row.Some? && Fields(v.row.value, Queued, 0, 1)
    ensures v == START.(row := v.row, broker := multiset{Message(0, HighQueue, 1), Published(0, High)})
  {
    v := DeadLettered(c);
    GoRequeue(c, v);
    v := v.(row := Some(RequeueRow(v.row.value).record), p := Publishing(0, High));
    GoPublish(c, v, false);
    v := v.(broker := multiset{Message(0, HighQueue, 1), Published(0, High)}, p := Gone);
  }

  /** The old copy claims the new epoch before the fresh message, which then finds
      the task taken. */
  lemma OldCopyClaims(c: Config) returns (v: View)
    ensures Shows(c, v, false) && CanEnd(v, 0) && v.w0.Executing? && v.w0.msg == Message(0, HighQueue, 1)
    ensures Fields(v.row.value, Running, 0, 1)
    ensures v == START.(row := v.row, w0 := v.w0)
  {
    var copy, published := Message(0, HighQueue, 1), Published(0, High);
    v := Requeued(c);
    v := ClaimedRound(c, v, copy, "a");
    assert v.broker == multiset{published};
    GoReceive(c, v, false, 1, published);
    v := Turned(v, 1, Delivered(published)).(broker := v.broker - multiset{published});
    GoSkip(c, v, false, 1, "b");
    v := Turned(v, 1, Idle);
  }

  /** When that attempt fails, the retry is committed but Celery, whose counter is
      already at the limit, refuses it: the task is QUEUED, nothing covers it, and
      no failed publication was reported to anyone. */
  lemma CommittedRetryIsRefused(c: Config) returns (n: System)
    ensures Reaches(c, n, false)
    ensures 0 in n.db && n.db[0].task.status == Queued && n.db[0].task.retryCount == 1
    ensures !Covered(n, 0)
  {
    var v := OldCopyClaims(c);
    var q := FailedRound(c, v, "busy");
    v := v.(row := Some(q), w0 := RetryPending(Message(0, HighQueue, 1), 1, 1, RetryCountdown(1)));
    var before :| Reaches(c, before, false) && ViewOf(before) == v;
    RefusalShown(c, before, 0);
    n := Next(c, before, Work(0, SendRetry(true)));
    ReachesNext(c, before, Work(0, SendRetry(true)), false);
    NobodyCovers(n, 0);
  }

  /***** A retry that Celery refuses without a requeue *****/

  /** The worker fails retryably, and takes and claims its own retry. */
  lemma FailAndRetake(c: Config, v: View, w: WorkerId) returns (x: View)
    requires Shows(c, v, true) && w <= 1 && CanEnd(v, w) && At(v, w).Executing?
    requires var task := v.row.value.task; Fields(v.row.value, Running, task.retryCount, task.maxRetries)
    requires v.row.value.task.retryCount < v.row.value.task.maxRetries
    requires At(v, w).msg.retries < v.row.value.task.maxRetries
    ensures Shows(c, x, true) && CanEnd(x, w)
    ensures x == Turned(v, w, At(x, w)).(row := x.row)
    ensures At(x, w).Executing? && At(x, w).msg == At(v, w).msg.(retries := At(v, w).msg.retries + 1)
    ensures Fields(x.row.value, Running, v.row.value.task.retryCount + 1, v.row.value.task.maxRetries)
    ensures |x.row.value.attempts| == |v.row.value.attempts| + 1
  {
    var seen := TakeSnapshot(v.row.value.task);
    FailureFields(v.row.value, At(v, w).attempt, seen, "busy", v.clock);
    GoFail(c, v, true, w, "busy");
    x := Failing(v, w, seen, "busy", v.clock);
    ClaimFields(x.row.value, "c", x.clock, c.leaseSeconds);
    GoAgain(c, x, true, w, "c");
    x := Rerun(c, x, w, "c");
  }

  /** Worker 1 retries twice, up to the limit of 3. */
  lemma TwoRetries(c: Config) returns (v: View)
    ensures Shows(c, v, true) && CanEnd(v, 0) && CanEnd(v, 1) && v.w0.FailureRead? && v.w0.retryable
    ensures v.w0.msg == Published(0, High) && v.w0.seen == Snapshot(0, 3) && v.w0.error == "busy"
    ensures v.w1.Executing? && v.w1.msg == Message(0, HighQueue, 2)
    ensures Fields(v.row.value, Running, 3, 3)
    ensures v.alone && v.broker == multiset{} && v.p.Gone? && v.scan.Some? && v.scan.value.pc.Looping?
  {
    v := ReadAndOvertaken(c, 3);
    v := FailAndRetake(c, v, 1);
    v := FailAndRetake(c, v, 1);
  }

  /** Worker 0's outdated failure sets the count back to 1 and worker 0 claims its
      own retry. */
  lemma CountSetBack(c: Config) returns (v: View)
    ensures Shows(c, v, true) && CanEnd(v, 1) && v.w0.Executing?
    ensures v.w1.Executing? && v.w1.msg == Message(0, HighQueue, 2)
    ensures Fields(v.row.value, Running, 1, 3)
    ensures v.alone && v.broker == multiset{} && v.p.Gone? && v.scan.Some? && v.scan.value.pc.Looping?
  {
    v := TwoRetries(c);
    var k := v.w0;
    FailureFields(v.row.value, k.attempt, k.seen, k.error, k.at);
    GoFailUpdate(c, v);
    v := Failing(v, 0, k.seen, k.error, k.at);
    ClaimFields(v.row.value, "a", v.clock, c.leaseSeconds);
    GoAgain(c, v, true, 0, "a");
    v := Rerun(c, v, 0, "a");
  }

  /** Worker 1's late failure sends counter 3, and worker 1 fails once more. */
  lemma CounterAhead(c: Config) returns (v: View)
    ensures Shows(c, v, true) && v.row.Some? && Fields(v.row.value, Queued, 3, 3) && v.w0.Executing?
    ensures v.w1 == RetryPending(Message(0, HighQueue, 3), 3, 3, RetryCountdown(3))
    ensures v.alone && v.broker == multiset{} && v.p.Gone? && v.scan.Some? && v.scan.value.pc.Looping?
  {
    v := CountSetBack(c);
    v := FailAndRetake(c, v, 1);
    FailureFields(v.row.value, v.w1.attempt, Snapshot(2, 3), "busy", v.clock);
    GoFail(c, v, true, 1, "busy");
    v := Failing(v, 1, Snapshot(2, 3), "busy", v.clock);
  }

  /** Without any requeue, an outdated failure lets the counter of a message run
      ahead of the retry count: the retry is committed, Celery refuses it, and then
      the task is QUEUED with nothing to cover it. */
  lemma OutdatedCountIsRefused(c: Config) returns (before: System, after: System)
    ensures Reaches(c, before, true)
    ensures 0 in before.db && 0 in before.hist && before.hist[0].requeues == 0
    ensures WorkerAt(before, 1).RetryPending? && WorkerAt(before, 1).msg.task == 0
    ensures WorkerEffect(c, before, 1, SendRetry(true)).put.None?
    ensures Enabled(before, Work(1, SendRetry(true))) && after == Next(c, before, Work(1, SendRetry(true)))
    ensures Lost(after, 0)
  {
    var v := CounterAhead(c);
    before :| Reaches(c, before, true) && ViewOf(before) == v;
    ReachedHistory(c, before);
    RetryRefused(c, before, 1);
    RefusalShown(c, before, 1);
    after := Next(c, before, Work(1, SendRetry(true)));
    NobodyCovers(after, 0);
  }
}
