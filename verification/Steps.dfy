/** What single steps of the machine do, told by columns, messages and process
    states rather than by effects. */
module Steps {
  import opened Model
  import opened Backoff
  import opened Lifecycle
  import opened Dispatch
  import opened Machine
  import opened Safety

  /** Only task `t` changes, as `op` says, if its guard passes; else nothing does. */
  ghost predicate Performs(before: Database, after: Database, t: TaskId, op: RowOp) {
    && t in before && t in after && after == before[t := after[t]]
    && if Passes(before[t], op) then Columns(before[t], op, after[t]) else after == before
  }

  lemma CommitPerforms(c: Config, db: Database, t: TaskId, op: RowOp)
    requires RowsOk(c, db) && t in db
    ensures Performs(db, Commit(db, t, op), t, op)
  {
    OpSetsColumns(c.leaseSeconds, db[t], op);
  }

  /** Where a worker stands after its failure was recorded as `after`. */
  ghost predicate AfterFailing(k: Worker, m: Message, seen: Snapshot, passed: bool, after: Record) {
    if passed && after.task.status == Queued
    then k == RetryPending(m, after.task.retryCount, seen.maxRetries, RetryCountdown(after.task.retryCount))
    else k.Idle?
  }

  /** Where a worker stands after its delivery `m` reached the claim. */
  ghost predicate AfterClaim(c: Config, s: System, k: Worker, m: Message) {
    if m.task in s.db && s.db[m.task].task.status == Queued
    then k == Executing(m, |s.db[m.task].attempts|, s.clock + c.leaseSeconds)
    else k.Idle?
  }

  lemma ClaimEffectStep(c: Config, s: System, w: WorkerId, m: Message, hostname: string)
    requires RowsOk(c, s.db) && m.task in s.db
    ensures var n := Apply(s, ClaimEffect(c, s, w, m, hostname));
            && Performs(s.db, n.db, m.task, Claim(hostname, s.clock, c.leaseSeconds))
            && n.broker == s.broker && AfterClaim(c, s, WorkerAt(n, w), m)
  {
    var op := Claim(hostname, s.clock, c.leaseSeconds);
    CommitPerforms(c, s.db, m.task, op);
    assert Outcome(s, m.task, op).Applied? <==> s.db[m.task].task.status == Queued;
  }

  lemma ClaimStep(c: Config, s: System, w: WorkerId, hostname: string)
    requires Inv(c, s) && WorkerEnabled(s, w, ClaimTask(hostname))
    ensures var (n, m) := (Next(c, s, Work(w, ClaimTask(hostname))), WorkerAt(s, w).msg);
            && Performs(s.db, n.db, m.task, Claim(hostname, s.clock, c.leaseSeconds))
            && n.broker == s.broker && AfterClaim(c, s, WorkerAt(n, w), m)
  {
    assert WorkerOk(s.db, WorkerAt(s, w));
    ClaimEffectStep(c, s, w, WorkerAt(s, w).msg, hostname);
  }

  lemma SucceedStep(c: Config, s: System, w: WorkerId)
    requires Inv(c, s) && WorkerEnabled(s, w, Succeed)
    ensures var (n, k) := (Next(c, s, Work(w, Succeed)), WorkerAt(s, w));
            && Performs(s.db, n.db, k.msg.task, Complete(k.attempt, s.clock))
            && n.broker == s.broker && WorkerAt(n, w).Idle?
  {
    var k := WorkerAt(s, w);
    assert WorkerOk(s.db, k);
    CommitPerforms(c, s.db, k.msg.task, Complete(k.attempt, s.clock));
  }

  lemma FailureStep(c: Config, s: System, w: WorkerId, m: Message, attempt: nat, seen: Snapshot,
                    retryable: bool, error: string, at: int)
    requires RowsOk(c, s.db) && m.task in s.db
    ensures var n := Apply(s, FailureEffect(s, w, m, attempt, seen, retryable, error, at));
            var op := FinalizeFailure(attempt, seen, retryable, error, at);
            && Performs(s.db, n.db, m.task, op) && n.broker == s.broker
            && AfterFailing(WorkerAt(n, w), m, seen, Passes(s.db[m.task], op), n.db[m.task])
  {
    CommitPerforms(c, s.db, m.task, FinalizeFailure(attempt, seen, retryable, error, at));
    OpSetsColumns(c.leaseSeconds, s.db[m.task], FinalizeFailure(attempt, seen, retryable, error, at));
  }

  lemma FailStep(c: Config, s: System, w: WorkerId, failure: Failure)
    requires Inv(c, s) && WorkerEnabled(s, w, Fail(failure))
    ensures var (n, k) := (Next(c, s, Work(w, Fail(failure))), WorkerAt(s, w));
            && k.msg.task in s.db
            && var seen := Snapshot(s.db[k.msg.task].task.retryCount, s.db[k.msg.task].task.maxRetries);
               var op := FinalizeFailure(k.attempt, seen, failure.retryable, failure.error, s.clock);
               && Performs(s.db, n.db, k.msg.task, op) && n.broker == s.broker
               && AfterFailing(WorkerAt(n, w), k.msg, seen, Passes(s.db[k.msg.task], op), n.db[k.msg.task])
  {
    var k := WorkerAt(s, w);
    assert WorkerOk(s.db, k);
    FailureStep(c, s, w, k.msg, k.attempt, TakeSnapshot(s.db[k.msg.task].task),
                failure.retryable, failure.error, s.clock);
  }

  /** The first half of a split failure reads the budget and keeps the rest for its
      second half. */
  lemma FailSelectStep(c: Config, s: System, w: WorkerId, failure: Failure)
    requires Inv(c, s) && WorkerEnabled(s, w, FailSelect(failure))
    ensures var (n, k) := (Next(c, s, Work(w, FailSelect(failure))), WorkerAt(s, w));
            && k.msg.task in s.db && n.db == s.db && n.broker == s.broker
            && var task := s.db[k.msg.task].task;
               WorkerAt(n, w) == if task.status != Running then Idle
                                 else FailureRead(k.msg, k.attempt, k.lease, Snapshot(task.retryCount, task.maxRetries),
                                                  failure.retryable, failure.error, s.clock)
  {
    assert WorkerOk(s.db, WorkerAt(s, w));
  }

  lemma FailUpdateStep(c: Config, s: System, w: WorkerId)
    requires Inv(c, s) && WorkerEnabled(s, w, FailUpdate)
    ensures var (n, k) := (Next(c, s, Work(w, FailUpdate)), WorkerAt(s, w));
            && k.msg.task in s.db
            && var op := FinalizeFailure(k.attempt, k.seen, k.retryable, k.error, k.at);
               && Performs(s.db, n.db, k.msg.task, op) && n.broker == s.broker
               && AfterFailing(WorkerAt(n, w), k.msg, k.seen, Passes(s.db[k.msg.task], op), n.db[k.msg.task])
  {
    var k := WorkerAt(s, w);
    assert WorkerOk(s.db, k);
    FailureStep(c, s, w, k.msg, k.attempt, k.seen, k.retryable, k.error, k.at);
  }

  /** A delivery takes one message from the broker. */
  lemma ReceiveStep(c: Config, s: System, w: WorkerId, m: Message)
    requires WorkerEnabled(s, w, Receive(m))
    ensures var n := Next(c, s, Work(w, Receive(m)));
            n.db == s.db && n.broker == s.broker - multiset{m} && WorkerAt(n, w) == Delivered(m)
  {
  }

  /** A visibility timeout copies the delivery back, and the worker goes on. */
  lemma TimeoutStep(c: Config, s: System, w: WorkerId)
    requires WorkerEnabled(s, w, VisibilityTimeout)
    ensures var n := Next(c, s, Work(w, VisibilityTimeout));
            n.db == s.db && n.broker == s.broker + multiset{WorkerAt(s, w).msg} && n.workers == s.workers
  {
  }

  /** A crash gives the delivery back. */
  lemma CrashStep(c: Config, s: System, w: WorkerId)
    requires WorkerEnabled(s, w, WorkerCrash)
    ensures var n := Next(c, s, Work(w, WorkerCrash));
            n.db == s.db && n.broker == s.broker + multiset{WorkerAt(s, w).msg} && WorkerAt(n, w).Idle?
  {
  }

  /** The broker may copy any message. */
  lemma DuplicateStep(c: Config, s: System, m: Message)
    requires m in s.broker
    ensures var n := Next(c, s, Duplicate(m));
            n.db == s.db && n.broker == s.broker + multiset{m} && n.workers == s.workers
  {
  }

  /** The reclaim of a scan acts at the scan's own time. */
  lemma ReclaimStep(c: Config, s: System, r: ScanId)
    requires Inv(c, s) && ScanEnabled(s, r, ReclaimOne)
    ensures var (n, scan) := (Next(c, s, Recover(r, ReclaimOne)), s.scans[r]);
            var t := scan.remaining[0];
            && t in s.db
            && Performs(s.db, n.db, t, Reclaim(Snapshot(s.db[t].task.retryCount, s.db[t].task.maxRetries), scan.now))
            && n.broker == s.broker && r in n.scans && n.scans[r].now == scan.now
            && n.scans[r].remaining == scan.remaining[1..]
  {
    var t := s.scans[r].remaining[0];
    assert ScanOk(s.clock, s.db, s.scans[r]);
    CommitPerforms(c, s.db, t, Reclaim(TakeSnapshot(s.db[t].task), s.scans[r].now));
  }
}
