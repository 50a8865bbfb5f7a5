/** The service functions as they run on mutable tables, statement by statement,
    each proved to perform one operation of `Lifecycle` on the database it
    finds. */
module Store {
  import opened Model
  import opened Backoff
  import opened Lifecycle
  import opened Dispatch
  import opened Machine
  import opened Monitoring

  /** What a broker holds and was asked for. */
  datatype Traffic = Traffic(messages: seq<Message>, attempted: seq<(TaskId, Priority)>, retried: seq<Message>) {
    function Calls(): nat {
      |attempted| + |retried|
    }
  }

  /** The broker as its publishers see it.  `up` says which of their calls reach it;
      `attempted` and `retried` record the calls, successful or not. */
  class Broker {
    const up: nat -> bool
    var messages: seq<Message>
    var attempted: seq<(TaskId, Priority)>
    var retried: seq<Message>

    /** How many calls there have been. */
    function Calls(): nat
      reads this
    {
      |attempted| + |retried|
    }

    function Seen(): Traffic
      reads this
    {
      Traffic(messages, attempted, retried)
    }

    constructor (up: nat -> bool)
      ensures messages == [] && attempted == [] && retried == [] && this.up == up
    {
      this.up := up;
      messages, attempted, retried := [], [], [];
    }

    /** Publication fails when the broker is not up; then nothing was published. */
    method Dispatch(t: TaskId, priority: Priority) returns (ok: bool)
      modifies this
      ensures attempted == old(attempted) + [(t, priority)] && retried == old(retried)
      ensures ok <==> up(old(Calls()))
      ensures !ok ==> messages == old(messages)
      ensures messages == old(messages) + if ok then [Published(t, priority)] else []
      ensures ok ==> var m := messages[|messages| - 1]; m.task == t && m.retries == 0 && Routes(priority, m.queue)
    {
      ok := up(|attempted| + |retried|);
      attempted := attempted + [(t, priority)];
      if ok {
        messages := messages + [Message(t, QueueForPriority(priority), 0)];
      }
    }

    /** Celery's `self.retry`: the same queue and one higher counter, unless the
        counter is at the limit, or the broker is not up. */
    method Retry(m: Message, limit: int) returns (r: RetryResult)
      modifies this
      ensures r == if m.retries + 1 > limit then Exhausted else if up(old(Calls())) then Accepted else Unreachable
      ensures retried == old(retried) + (if r.Exhausted? then [] else [m]) && attempted == old(attempted)
      ensures messages == old(messages) + if r.Accepted? then [m.(retries := m.retries + 1)] else []
    {
      if m.retries + 1 > limit {
        return Exhausted;
      }
      r := if up(|attempted| + |retried|) then Accepted else Unreachable;
      retried := retried + [m];
      if r.Accepted? {
        messages := messages + [Message(m.task, m.queue, m.retries + 1)];
      }
    }
  }

  datatype RetryResult = Accepted | Exhausted | Unreachable

  datatype ClaimResult = Claimed(attempt: nat) | NotQueued | TaskMissing

  /** `TaskRetryRequested`, or which of the other ends the failure path came to. */
  datatype FailureResult =
    | RetryRequested(number: int, countdown: int, limit: int)
    | Terminal(status: Status)
    | Rejected(why: Refusal)

  datatype ProcessResult =
    | Skipped
    | Succeeded
    | RetryRaised(number: int, countdown: int, limit: int)
    | FailedForGood(status: Status)
    | Aborted(why: Refusal)

  /** What an API caller is told. */
  datatype ApiResult = Done | NotDispatched | Missing | Conflict

  class TaskStore {
    const leaseSeconds: nat
    var tasks: map<TaskId, Task>
    var attempts: map<TaskId, seq<Attempt>>

    ghost function Db(): Database
      reads this
      requires tasks.Keys == attempts.Keys
    {
      map t | t in tasks :: Record(tasks[t], attempts[t])
    }

    ghost predicate Valid()
      reads this
    {
      tasks.Keys == attempts.Keys && RowsOk(Config(leaseSeconds), Db())
    }

    constructor (leaseSeconds: nat)
      ensures Valid() && Db() == map[] && this.leaseSeconds == leaseSeconds
    {
      this.leaseSeconds := leaseSeconds;
      tasks, attempts := map[], map[];
    }

    method CreateTask(t: TaskId, priority: Priority)
      requires Valid() && t !in tasks
      modifies this
      ensures Valid() && Db() == Commit(old(Db()), t, Create(priority, DEFAULT_MAX_RETRIES))
      ensures t in Db() && Db() == old(Db())[t := Db()[t]] && CreatedAs(Db()[t], priority)
    {
      ghost var op := Create(priority, DEFAULT_MAX_RETRIES);
      tasks := tasks[t := Task(priority, Queued, 0, DEFAULT_MAX_RETRIES, None, None, None, None)];
      attempts := attempts[t := []];
      assert Db() == Commit(old(Db()), t, op);
      CommitKeepsRows(leaseSeconds, old(Db()), t, op);
    }

    method ClaimTask(t: TaskId, hostname: string, now: int) returns (r: ClaimResult)
      requires Valid()
      modifies this
      ensures Valid() && Db() == Commit(old(Db()), t, Claim(hostname, now, leaseSeconds))
      ensures r.TaskMissing? <==> t !in old(Db())
      ensures r.NotQueued? <==> t in old(Db()) && old(Db())[t].task.status != Queued
      ensures !r.Claimed? ==> Db() == old(Db())
      ensures r.Claimed? ==>
                && t in Db() && r.attempt == |old(Db())[t].attempts|
                && Columns(old(Db())[t], Claim(hostname, now, leaseSeconds), Db()[t])
    {
      if t !in tasks {
        r := TaskMissing;
      } else if tasks[t].status != Queued {
        r := NotQueued;
      } else {
        tasks := tasks[t := tasks[t].(status := Running, startedAt := Some(now), completedAt := None,
                                      lastError := None, leaseExpiresAt := Some(now + leaseSeconds))];
        var number := MaxNumber(attempts[t]) + 1;
        var attempt := Attempt(number, Truncated(hostname, WORKER_LIMIT), now, None, None);
        r := Claimed(|attempts[t]|);
        attempts := attempts[t := attempts[t] + [attempt]];
        assert Db() == Commit(old(Db()), t, Claim(hostname, now, leaseSeconds));
        CommitSets(leaseSeconds, old(Db()), t, Claim(hostname, now, leaseSeconds));
      }
    }

    method CompleteTask(t: TaskId, k: nat, now: int) returns (rejected: Option<Refusal>)
      requires Valid()
      modifies this
      ensures Valid() && Db() == Commit(old(Db()), t, Complete(k, now))
      ensures rejected.None? <==> t in old(Db()) && Passes(old(Db())[t], Complete(k, now))
      ensures rejected.None? ==> t in Db() && Columns(old(Db())[t], Complete(k, now), Db()[t])
      ensures rejected.Some? ==> Db() == old(Db())
      ensures rejected == Some(WrongStatus) <==> t !in old(Db()) || old(Db())[t].task.status != Running
      ensures rejected == Some(AttemptGone) <==>
                t in old(Db()) && old(Db())[t].task.status == Running && k >= |old(Db())[t].attempts|
    {
      if t !in tasks || tasks[t].status != Running {
        return Some(WrongStatus);
      }
      // The task is updated before the attempt is looked up; a missing attempt
      // rolls the update back.
      if k >= |attempts[t]| {
        return Some(AttemptGone);
      }
      tasks := tasks[t := tasks[t].(status := Completed, completedAt := Some(now), lastError := None,
                                    leaseExpiresAt := None)];
      attempts := attempts[t := attempts[t][k := attempts[t][k].(finishedAt := Some(now), error := None)]];
      assert Db() == Commit(old(Db()), t, Complete(k, now));
      CommitSets(leaseSeconds, old(Db()), t, Complete(k, now));
      rejected := None;
    }

    method FinalizeFailure(t: TaskId, k: nat, failure: Failure, now: int) returns (r: FailureResult)
      requires Valid() && failure.error != ""
      modifies this
      ensures Valid()
      ensures t in old(Db()) ==>
                Db() == Commit(old(Db()), t, FailureOp(old(Db())[t], k, failure, now))
      ensures r.Rejected? ==> Db() == old(Db())
      ensures r == Rejected(NotFound) <==> t !in old(Db())
      ensures r == Rejected(WrongStatus) <==> t in old(Db()) && old(Db())[t].task.status != Running
      ensures r == Rejected(AttemptGone) <==>
                t in old(Db()) && old(Db())[t].task.status == Running && k >= |old(Db())[t].attempts|
      ensures r.Rejected? <==> t !in old(Db()) || old(Db())[t].task.status != Running || k >= |old(Db())[t].attempts|
      ensures !r.Rejected? ==>
                t in Db() && Columns(old(Db())[t], FailureOp(old(Db())[t], k, failure, now), Db()[t])
      ensures r.RetryRequested? ==>
                && t in Db() && Db()[t].task.status == Queued
                && r.number == Db()[t].task.retryCount == old(Db())[t].task.retryCount + 1
                && r.limit == Db()[t].task.maxRetries
                && RetryCountdown(r.number) == Some(r.countdown)
      ensures r.Terminal? ==>
                && t in Db() && Db()[t].task.status == r.status
                && r.status == (if failure.retryable then DeadLetter else Failed)
                && Db()[t].task.retryCount == old(Db())[t].task.retryCount
    {
      if t !in tasks {
        return Rejected(NotFound);
      }
      if tasks[t].status != Running {
        return Rejected(WrongStatus);
      }
      assert RowInv(leaseSeconds, Db()[t]);
      ghost var op := FailureOp(Db()[t], k, failure, now);
      var retryCount, maxRetries := tasks[t].retryCount, tasks[t].maxRetries;
      var retryRequested := failure.retryable && retryCount < maxRetries;
      var newRetryCount, newStatus := retryCount, Failed;
      if retryRequested {
        newRetryCount, newStatus := retryCount + 1, Queued;
      } else if failure.retryable {
        newStatus := DeadLetter;
      }
      if k >= |attempts[t]| {
        return Rejected(AttemptGone);
      }
      tasks := tasks[t := tasks[t].(status := newStatus, retryCount := newRetryCount, completedAt := None,
                                    lastError := Some(failure.error), leaseExpiresAt := None)];
      attempts := attempts[t := attempts[t][k := attempts[t][k].(finishedAt := Some(now),
                                                                 error := Some(failure.error))]];
      assert Db() == Commit(old(Db()), t, op);
      CommitSets(leaseSeconds, old(Db()), t, op);
      if retryRequested {
        r := RetryRequested(newRetryCount, RetryCountdown(newRetryCount).value, maxRetries);
      } else {
        r := Terminal(newStatus);
      }
    }

    method RequeueDeadLetterTask(t: TaskId) returns (found: bool)
      requires Valid()
      modifies this
      ensures Valid() && Db() == Commit(old(Db()), t, Requeue)
      ensures found <==> t in old(Db()) && old(Db())[t].task.status == DeadLetter
      ensures found ==> t in Db() && Columns(old(Db())[t], Requeue, Db()[t])
      ensures !found ==> Db() == old(Db())
    {
      found := t in tasks && tasks[t].status == DeadLetter;
      if found {
        tasks := tasks[t := tasks[t].(status := Queued, retryCount := 0, startedAt := None,
                                      completedAt := None, lastError := None)];
        assert Db() == Commit(old(Db()), t, Requeue);
        CommitSets(leaseSeconds, old(Db()), t, Requeue);
      }
    }

    /** One reclaim transaction. */
    method ReclaimOne(t: TaskId, now: int) returns (r: Option<ReclaimedTask>)
      requires Valid()
      modifies this
      ensures Valid()
      ensures t !in old(Db()) || !Stale(old(Db())[t].task, now) ==> r.None? && Db() == old(Db())
      ensures t in old(Db()) && Stale(old(Db())[t].task, now) ==>
                && r.Some? && t in Db()
                && Db() == old(Db())[t := Recovered(old(Db())[t], now)]
                && r.value == ReclaimedTask(t, Db()[t].task.status, Db()[t].task.retryCount, false)
                && (r.value.outcome == Queued ==> r.value.retryCount >= 1)
                && Columns(old(Db())[t], Reclaim(TakeSnapshot(old(Db())[t].task), now), Db()[t])
    {
      if t !in tasks || !Stale(tasks[t], now) {
        return None;
      }
      assert RowInv(leaseSeconds, Db()[t]);
      ghost var op := Reclaim(TakeSnapshot(Db()[t].task), now);
      var retryCount, maxRetries := tasks[t].retryCount, tasks[t].maxRetries;
      var retryRequested := retryCount < maxRetries;
      var newRetryCount := if retryRequested then retryCount + 1 else retryCount;
      var newStatus := if retryRequested then Queued else DeadLetter;
      tasks := tasks[t := tasks[t].(status := newStatus, retryCount := newRetryCount, startedAt := None,
                                    completedAt := None, lastError := Some(STALE_LEASE_ERROR),
                                    leaseExpiresAt := None)];
      var open := LatestOpen(attempts[t]);
      if open.Some? {
        var k := open.value;
        attempts := attempts[t := attempts[t][k := attempts[t][k].(finishedAt := Some(now),
                                                                   error := Some(STALE_LEASE_ERROR))]];
      }
      assert Db() == Commit(old(Db()), t, op);
      CommitSets(leaseSeconds, old(Db()), t, op);
      r := Some(ReclaimedTask(t, newStatus, newRetryCount, false));
    }

    /** The candidate query, in whatever order the database gives. */
    method SelectStale(now: int) returns (order: seq<TaskId>)
      requires Valid()
      ensures Lists(order, StaleIds(Db(), now))
    {
      var left := set t | t in tasks && Stale(tasks[t], now);
      assert left == StaleIds(Db(), now);
      order := [];
      while left != {}
        invariant left <= StaleIds(Db(), now)
        invariant Lists(order, StaleIds(Db(), now) - left)
        decreases |left|
      {
        var t :| t in left;
        ListsOneMore(order, StaleIds(Db(), now), left, t);
        left := left - {t};
        order := order + [t];
      }
    }

    /** The message for a reclaimed task that went back to QUEUED. */
    method Republish(result: ReclaimedTask, broker: Broker) returns (entry: ReclaimedTask)
      requires Valid() && !result.redispatched
      modifies broker
      ensures entry == result.(redispatched := entry.redispatched)
      ensures broker.Seen() == Talk(old(broker.Seen()), Db(), entry)
      ensures Reached(broker.up, old(broker.Seen()), entry)
    {
      entry := result;
      if result.outcome == Queued {
        var priority := if result.task in tasks then tasks[result.task].priority else Medium;
        assert priority == DispatchPriority(Db(), result.task);
        var ok := broker.Dispatch(result.task, priority);
        entry := result.(redispatched := ok);
      }
    }

    /** One candidate: the reclaim, and the message for a task put back to QUEUED. */
    method RecoverOne(t: TaskId, now: int, broker: Broker) returns (entry: Option<ReclaimedTask>)
      requires Valid()
      modifies this, broker
      ensures Valid()
      ensures t !in old(Db()) || !Stale(old(Db())[t].task, now) ==>
                entry.None? && Db() == old(Db()) && broker.Seen() == old(broker.Seen())
      ensures t in old(Db()) && Stale(old(Db())[t].task, now) ==>
                && entry.Some? && entry.value.task == t && EntryFor(old(Db()), entry.value, now)
                && Db() == old(Db())[t := Recovered(old(Db())[t], now)]
                && broker.Seen() == Talk(old(broker.Seen()), old(Db()), entry.value)
                && Reached(broker.up, old(broker.Seen()), entry.value)
    {
      entry := ReclaimOne(t, now);
      if entry.Some? {
        assert DispatchPriority(Db(), t) == DispatchPriority(old(Db()), t);
        var told := Republish(entry.value, broker);
        entry := Some(told);
      }
    }

    /** The scan, with no one else at work: it returns one entry per stale task,
        reclaims exactly those, asks the broker to publish each entry that went back
        to QUEUED, in order, and reports which of these calls reached it. */
    method RecoverStaleTasks(broker: Broker, now: int) returns (reclaimed: seq<ReclaimedTask>)
      requires Valid()
      modifies this, broker
      ensures Valid() && Db() == RecoverAll(old(Db()), now)
      ensures |reclaimed| == CountStaleRunning(old(Db()), now) && AllReported(old(Db()), reclaimed, now)
      ensures Talked(old(Db()), reclaimed, broker.up, old(broker.Seen()), broker.Seen())
    {
      var order := SelectStale(now);
      reclaimed := [];
      ghost var before, start := Db(), broker.Seen();
      var i := 0;
      while i < |order|
        invariant 0 <= i <= |order| && Valid()
        invariant Reports(before, order[..i], Db(), reclaimed, now)
        invariant Talked(before, reclaimed, broker.up, start, broker.Seen())
      {
        ghost var db, seen := Db(), broker.Seen();
        ReportsNext(before, order, i, db, reclaimed, now);
        var entry := RecoverOne(order[i], now, broker);
        if entry.Some? {
          ReportsOneMore(before, order, i, db, reclaimed, entry.value, now);
          TalkedOneMore(before, db, reclaimed, entry.value, broker.up, start, seen);
          reclaimed := reclaimed + [entry.value];
        }
        i := i + 1;
      }
      assert order[..i] == order;
      ReportsAll(before, order, Db(), reclaimed, now);
    }

    /***** The worker *****/

    /** The second half of an execution: the handler of attempt `k` has returned
        or raised `exc`. */
    method RecordOutcome(t: TaskId, k: nat, exc: Option<Raised>, at: int) returns (r: ProcessResult)
      requires Valid()
      modifies this
      ensures Valid()
      ensures t !in old(Db()) || old(Db())[t].task.status != Running || k >= |old(Db())[t].attempts| ==>
                r.Aborted? && Db() == old(Db())
      ensures t in old(Db()) && old(Db())[t].task.status != Running ==> r == Aborted(WrongStatus)
      ensures t in old(Db()) && old(Db())[t].task.status == Running && k < |old(Db())[t].attempts| ==>
                && Db() == Commit(old(Db()), t, OutcomeOp(old(Db())[t], k, exc, at))
                && t in Db() && Told(r, Db()[t].task)
    {
      if exc.None? {
        var rejected := CompleteTask(t, k, at);
        match rejected
        case None => r := Succeeded;
        case Some(why) => r := Aborted(why);
      } else {
        var failure := Classify(exc.value);
        var result := FinalizeFailure(t, k, failure, at);
        match result
        case RetryRequested(number, countdown, limit) => r := RetryRaised(number, countdown, limit);
        case Terminal(status) => r := FailedForGood(status);
        case Rejected(why) => r := Aborted(why);
      }
    }

    /** Claim, run the handler, record its outcome.  `exc` is what the handler
        raised, if anything; no one interferes. */
    method ProcessTask(t: TaskId, hostname: string, exc: Option<Raised>, claimedAt: int, finishedAt: int)
      returns (r: ProcessResult)
      requires Valid()
      modifies this
      ensures Valid()
      ensures t !in old(Db()) ==> r == Aborted(NotFound) && Db() == old(Db())
      ensures t in old(Db()) && old(Db())[t].task.status != Queued ==> r == Skipped && Db() == old(Db())
      ensures t in old(Db()) && old(Db())[t].task.status == Queued ==>
                && t in Db() && Db() == old(Db())[t := Db()[t]]
                && Executed(old(Db())[t], Db()[t], hostname, claimedAt, exc, finishedAt) && Told(r, Db()[t].task)
    {
      var claim := ClaimTask(t, hostname, claimedAt);
      match claim
      case TaskMissing => r := Aborted(NotFound);
      case NotQueued => r := Skipped;
      case Claimed(k) =>
        ExecutedIn(leaseSeconds, old(Db()), t, hostname, claimedAt, exc, finishedAt);
        r := RecordOutcome(t, k, exc, finishedAt);
    }

    /** The Celery entry point for a delivery `m`. */
    method ExecuteTask(m: Message, hostname: string, exc: Option<Raised>, claimedAt: int, finishedAt: int,
                       broker: Broker)
      returns (r: ProcessResult, sent: Option<RetryResult>)
      requires Valid()
      modifies this, broker
      ensures Valid()
      ensures m.task !in old(Db()) || old(Db())[m.task].task.status != Queued ==> Db() == old(Db()) && sent.None?
      ensures m.task in old(Db()) && old(Db())[m.task].task.status == Queued ==>
                && m.task in Db() && Db() == old(Db())[m.task := Db()[m.task]]
                && Executed(old(Db())[m.task], Db()[m.task], hostname, claimedAt, exc, finishedAt)
                && (sent.Some? <==> Db()[m.task].task.status == Queued)
                && (sent == Some(Exhausted) <==>
                      Db()[m.task].task.status == Queued && m.retries + 1 > Db()[m.task].task.maxRetries)
                && (sent == Some(Exhausted) ==> m.retries > old(Db())[m.task].task.retryCount)
      ensures sent == Some(Accepted) ==> broker.up(old(broker.Calls()))
      ensures sent == Some(Unreachable) ==> !broker.up(old(broker.Calls()))
      ensures broker.attempted == old(broker.attempted)
      ensures broker.retried == old(broker.retried) + if sent.Some? && !sent.value.Exhausted? then [m] else []
      ensures broker.messages == old(broker.messages)
                                 + if sent == Some(Accepted) then [m.(retries := m.retries + 1)] else []
    {
      r := ProcessTask(m.task, hostname, exc, claimedAt, finishedAt);
      sent := None;
      if r.RetryRaised? {
        var result := broker.Retry(m, r.limit);
        sent := Some(result);
      }
    }

    /***** The API *****/

    method SubmitTask(t: TaskId, priority: Priority, broker: Broker) returns (r: ApiResult)
      requires Valid() && t !in tasks
      modifies this, broker
      ensures Valid() && t in Db() && Db() == old(Db())[t := Db()[t]] && CreatedAs(Db()[t], priority)
      ensures r == if broker.up(old(broker.Calls())) then Done else NotDispatched
      ensures broker.attempted == old(broker.attempted) + [(t, priority)]
      ensures broker.messages == old(broker.messages) + if r.Done? then [Published(t, priority)] else []
    {
      CreateTask(t, priority);
      assert t in Db() && tasks[t] == Db()[t].task;
      var ok := broker.Dispatch(t, tasks[t].priority);
      r := if ok then Done else NotDispatched;
    }

    method RequeueTask(t: TaskId, broker: Broker) returns (r: ApiResult)
      requires Valid()
      modifies this, broker
      ensures Valid() && Db() == Commit(old(Db()), t, Requeue)
      ensures r.Missing? <==> t !in old(Db())
      ensures r.Conflict? <==> t in old(Db()) && old(Db())[t].task.status != DeadLetter
      ensures r.Missing? || r.Conflict? ==> broker.attempted == old(broker.attempted) && Db() == old(Db())
      ensures t in old(Db()) && old(Db())[t].task.status == DeadLetter ==>
                && t in Db() && Columns(old(Db())[t], Requeue, Db()[t])
                && r == (if broker.up(old(broker.Calls())) then Done else NotDispatched)
                && broker.attempted == old(broker.attempted) + [(t, old(Db())[t].task.priority)]
      ensures broker.messages == old(broker.messages)
                                 + if r.Done? then [Published(t, DispatchPriority(old(Db()), t))] else []
    {
      var found := RequeueDeadLetterTask(t);
      if !found {
        assert Db() == old(Db()) && (t in tasks <==> t in Db());
        return if t in tasks then Conflict else Missing;
      }
      assert t in Db() && Db()[t].task == tasks[t];
      var ok := broker.Dispatch(t, tasks[t].priority);
      r := if ok then Done else NotDispatched;
    }

    /** A redispatch never touches the database. */
    method RedispatchTask(t: TaskId, broker: Broker) returns (r: ApiResult)
      requires Valid()
      modifies broker
      ensures r.Missing? <==> t !in Db()
      ensures r.Conflict? <==> t in Db() && Db()[t].task.status != Queued
      ensures r.Missing? || r.Conflict? ==> broker.attempted == old(broker.attempted)
      ensures t in Db() && Db()[t].task.status == Queued ==>
                && r == (if broker.up(old(broker.Calls())) then Done else NotDispatched)
                && broker.attempted == old(broker.attempted) + [(t, Db()[t].task.priority)]
      ensures broker.messages == old(broker.messages)
                                 + if r.Done? then [Published(t, DispatchPriority(Db(), t))] else []
    {
      if t !in tasks {
        return Missing;
      }
      if tasks[t].status != Queued {
        return Conflict;
      }
      var ok := broker.Dispatch(t, tasks[t].priority);
      r := if ok then Done else NotDispatched;
    }
  }

  /** A new task: QUEUED, with three retries and no attempts. */
  predicate CreatedAs(r: Record, priority: Priority) {
    && r.task.priority == priority && r.task.status == Queued && r.task.retryCount == 0 && r.task.maxRetries == 3
    && r.task.startedAt.None? && r.task.completedAt.None? && r.task.lastError.None? && r.task.leaseExpiresAt.None?
    && r.attempts == []
  }

  /** The attempts after an execution: one more, by this worker, from its claim to
      the end of the handler, with the text of what the handler raised. */
  predicate AttemptMade(before: seq<Attempt>, after: seq<Attempt>, worker: string, at: int,
                        error: Option<string>, end: int) {
    var n := |before|;
    && |after| == n + 1 && after[..n] == before
    && after[n].number == n + 1 && after[n].startedAt == at && after[n].finishedAt == Some(end)
    && after[n].worker == (if |worker| <= 255 then worker else worker[..255])
    && after[n].error == error
  }

  function ErrorText(exc: Option<Raised>): Option<string> {
    if exc.Some? then Some(SafeErrorMessage(exc.value)) else None
  }

  /** One execution from start to end: one attempt more, and it is closed; status,
      retry count, times and error follow from what the handler did, when, and from
      the retry budget. */
  predicate Executed(before: Record, after: Record, worker: string, at: int, exc: Option<Raised>, end: int) {
    && AttemptMade(before.attempts, after.attempts, worker, at, ErrorText(exc), end)
    && after.task.priority == before.task.priority && after.task.maxRetries == before.task.maxRetries
    && (after.task.status == Completed <==> exc.None?)
    && (after.task.status == Failed <==> exc.Some? && !exc.value.RetryableError?)
    && (after.task.status == Queued <==>
          exc.Some? && exc.value.RetryableError? && before.task.retryCount < before.task.maxRetries)
    && after.task.status != Running
    && after.task.retryCount == before.task.retryCount + (if after.task.status == Queued then 1 else 0)
    && after.task.startedAt == Some(at) && after.task.leaseExpiresAt.None?
    && after.task.completedAt == (if exc.None? then Some(end) else None)
    && after.task.lastError == ErrorText(exc)
  }

  /** The worker is told what became of the task. */
  ghost predicate Told(r: ProcessResult, task: Task) {
    match r
    case Succeeded => task.status == Completed
    case RetryRaised(number, countdown, limit) =>
      && task.status == Queued && number == task.retryCount && limit == task.maxRetries
      && RetryCountdown(number) == Some(countdown)
    case FailedForGood(status) => task.status == status && (status == Failed || status == DeadLetter)
    case Skipped => false
    case Aborted(_) => false
  }

  /** The transaction that records what a handler did. */
  function OutcomeOp(r: Record, k: nat, exc: Option<Raised>, at: int): RowOp {
    match exc
    case None => Complete(k, at)
    case Some(raised) => FailureOp(r, k, Classify(raised), at)
  }

  /** The failure transaction on the retry count it finds. */
  function FailureOp(r: Record, k: nat, failure: Failure, at: int): RowOp {
    RowOp.FinalizeFailure(k, TakeSnapshot(r.task), failure.retryable, failure.error, at)
  }

  lemma ExecutedOnce(leaseSeconds: int, before: Record, hostname: string, at: int, exc: Option<Raised>, end: int)
    requires RowInv(leaseSeconds, before) && before.task.status == Queued
    ensures var claimed := ClaimRow(before, hostname, at, leaseSeconds).record;
            var res := ApplyOp(Some(claimed), OutcomeOp(claimed, |before.attempts|, exc, end));
            && claimed.task.status == Running && |claimed.attempts| == |before.attempts| + 1
            && res.Applied? && Executed(before, res.record, hostname, at, exc, end)
  {
    var claim := Claim(hostname, at, leaseSeconds);
    var claimed := ClaimRow(before, hostname, at, leaseSeconds).record;
    OpSetsColumns(leaseSeconds, before, claim);
    OpKeepsRow(leaseSeconds, Some(before), claim);
    OpSetsColumns(leaseSeconds, claimed, OutcomeOp(claimed, |before.attempts|, exc, end));
    ColumnsExecuted(before, claimed, leaseSeconds, hostname, at, exc, end,
                    ApplyOp(Some(claimed), OutcomeOp(claimed, |before.attempts|, exc, end)).record);
  }

  lemma ColumnsExecuted(before: Record, claimed: Record, leaseSeconds: int, hostname: string, at: int,
                        exc: Option<Raised>, end: int, after: Record)
    requires Columns(before, Claim(hostname, at, leaseSeconds), claimed)
    requires Columns(claimed, OutcomeOp(claimed, |before.attempts|, exc, end), after)
    ensures Executed(before, after, hostname, at, exc, end)
  {
    var n := |before.attempts|;
    assert after.attempts[..n] == before.attempts by {
      assert forall i :: 0 <= i < n ==> after.attempts[i] == claimed.attempts[i] == claimed.attempts[..n][i];
    }
  }

  lemma CommitTwice(db: Database, t: TaskId, first: RowOp, second: RowOp, r: Record, q: Record)
    requires t in db && ApplyOp(Some(db[t]), first) == Applied(r) && ApplyOp(Some(r), second) == Applied(q)
    ensures Commit(db, t, first) == db[t := r]
    ensures Commit(db[t := r], t, second) == db[t := q]
  {
    assert Lookup(db[t := r], t) == Some(r);
    assert db[t := r][t := q] == db[t := q];
  }

  lemma ExecutedIn(leaseSeconds: int, db: Database, t: TaskId, hostname: string, at: int, exc: Option<Raised>, end: int)
    requires t in db && RowInv(leaseSeconds, db[t]) && db[t].task.status == Queued
    ensures var mid := Commit(db, t, Claim(hostname, at, leaseSeconds));
            && t in mid && mid[t].task.status == Running && |mid[t].attempts| == |db[t].attempts| + 1
            && var after := Commit(mid, t, OutcomeOp(mid[t], |db[t].attempts|, exc, end));
               && t in after && after == db[t := after[t]]
               && Executed(db[t], after[t], hostname, at, exc, end)
  {
    var claim := Claim(hostname, at, leaseSeconds);
    var r := ClaimRow(db[t], hostname, at, leaseSeconds).record;
    var op := OutcomeOp(r, |db[t].attempts|, exc, end);
    ExecutedOnce(leaseSeconds, db[t], hostname, at, exc, end);
    CommitTwice(db, t, claim, op, r, ApplyOp(Some(r), op).record);
  }

  lemma CommitKeepsRows(leaseSeconds: nat, db: Database, t: TaskId, op: RowOp)
    requires RowsOk(Config(leaseSeconds), db) && OpOk(leaseSeconds, Lookup(db, t), op)
    ensures RowsOk(Config(leaseSeconds), Commit(db, t, op))
  {
    OpKeepsRow(leaseSeconds, Lookup(db, t), op);
  }

  /** A committed operation keeps all rows in order and sets its columns. */
  lemma CommitSets(leaseSeconds: nat, db: Database, t: TaskId, op: RowOp)
    requires RowsOk(Config(leaseSeconds), db) && OpOk(leaseSeconds, Lookup(db, t), op)
    requires t in db && ApplyOp(Some(db[t]), op).Applied?
    ensures RowsOk(Config(leaseSeconds), Commit(db, t, op))
    ensures t in Commit(db, t, op) && Columns(db[t], op, Commit(db, t, op)[t])
  {
    CommitKeepsRows(leaseSeconds, db, t, op);
    OpSetsColumns(leaseSeconds, db[t], op);
  }

  /** A correct report about a stale task. */
  ghost predicate EntryFor(db: Database, x: ReclaimedTask, now: int) {
    && x.task in db && Stale(db[x.task].task, now)
    && var r := Recovered(db[x.task], now);
       && x.outcome == r.task.status && x.retryCount == r.task.retryCount
       && (x.redispatched ==> x.outcome == Queued)
       && (x.outcome == Queued ==> RetryCountdown(x.retryCount).Some?)
  }

  /** The message a reported redispatch stands for. */
  function MessageFor(db: Database, x: ReclaimedTask): seq<Message> {
    if x.redispatched then [Published(x.task, DispatchPriority(db, x.task))] else []
  }

  function Redispatches(db: Database, xs: seq<ReclaimedTask>): seq<Message> {
    if xs == [] then [] else Redispatches(db, xs[..|xs| - 1]) + MessageFor(db, xs[|xs| - 1])
  }

  /** The candidates in `order` are done: `xs` holds one correct entry for each. */
  ghost predicate Reports(before: Database, order: seq<TaskId>, db: Database, xs: seq<ReclaimedTask>, now: int) {
    && db == ReclaimEach(before, order, now)
    && |xs| == |order|
    && forall j :: 0 <= j < |xs| ==> xs[j].task == order[j] && EntryFor(before, xs[j], now)
  }

  /** The next candidate is still as the scan found it. */
  lemma ReportsNext(before: Database, order: seq<TaskId>, i: nat, db: Database, xs: seq<ReclaimedTask>, now: int)
    requires Lists(order, StaleIds(before, now)) && i < |order| && Reports(before, order[..i], db, xs, now)
    ensures var t := order[i]; t in before && t in db && db[t] == before[t] && Stale(db[t].task, now)
    ensures DispatchPriority(db, order[i]) == DispatchPriority(before, order[i])
  {
    NextIsUntouched(before, order, i, now);
  }

  lemma ReportsOneMore(before: Database, order: seq<TaskId>, i: nat, db: Database, xs: seq<ReclaimedTask>,
                       x: ReclaimedTask, now: int)
    requires i < |order| && Reports(before, order[..i], db, xs, now)
    requires order[i] in before && order[i] in db && db[order[i]] == before[order[i]]
    requires x.task == order[i] && EntryFor(db, x, now)
    ensures Reports(before, order[..i + 1], db[order[i] := Recovered(db[order[i]], now)], xs + [x], now)
  {
    assert order[..i + 1][..i] == order[..i];
  }

  /** The publication recovery must ask for: one for a task put back to QUEUED. */
  function AskedFor(db: Database, x: ReclaimedTask): seq<(TaskId, Priority)> {
    if x.outcome == Queued then [(x.task, DispatchPriority(db, x.task))] else []
  }

  function Asked(db: Database, xs: seq<ReclaimedTask>): seq<(TaskId, Priority)> {
    if xs == [] then [] else Asked(db, xs[..|xs| - 1]) + AskedFor(db, xs[|xs| - 1])
  }

  /** An entry is marked redispatched if and only if its call, after `calls` earlier
      ones and those for the entries before it, reached the broker. */
  predicate FlagsTrue(db: Database, xs: seq<ReclaimedTask>, up: nat -> bool, calls: nat) {
    xs == [] ||
    var (rest, last) := (xs[..|xs| - 1], xs[|xs| - 1]);
    && FlagsTrue(db, rest, up, calls)
    && (last.redispatched <==> last.outcome == Queued && up(calls + |Asked(db, rest)|))
  }

  /** `x` is marked redispatched if and only if it asked for a publication and this
      call, the next one, reached the broker. */
  predicate Reached(up: nat -> bool, seen: Traffic, x: ReclaimedTask) {
    x.redispatched <==> x.outcome == Queued && up(seen.Calls())
  }

  /** The broker after recovery talked to it about `x`. */
  function Talk(seen: Traffic, db: Database, x: ReclaimedTask): Traffic {
    Traffic(seen.messages + MessageFor(db, x), seen.attempted + AskedFor(db, x), seen.retried)
  }

  /** What the broker has seen since `start`, for the entries `xs`. */
  predicate Talked(before: Database, xs: seq<ReclaimedTask>, up: nat -> bool, start: Traffic, now: Traffic) {
    && now.messages == start.messages + Redispatches(before, xs)
    && now.attempted == start.attempted + Asked(before, xs)
    && now.retried == start.retried
    && FlagsTrue(before, xs, up, start.Calls())
  }

  lemma EntryOneMore(before: Database, xs: seq<ReclaimedTask>, x: ReclaimedTask, up: nat -> bool, calls: nat)
    ensures Redispatches(before, xs + [x]) == Redispatches(before, xs) + MessageFor(before, x)
    ensures Asked(before, xs + [x]) == Asked(before, xs) + AskedFor(before, x)
    ensures FlagsTrue(before, xs, up, calls)
            && (x.redispatched <==> x.outcome == Queued && up(calls + |Asked(before, xs)|))
            ==> FlagsTrue(before, xs + [x], up, calls)
  {
    assert (xs + [x])[..|xs|] == xs;
  }

  lemma Regroup<T>(a: seq<T>, b: seq<T>, d: seq<T>)
    ensures a + (b + d) == a + b + d
  {
  }

  lemma TalkedOneMore(before: Database, db: Database, xs: seq<ReclaimedTask>, x: ReclaimedTask,
                      up: nat -> bool, start: Traffic, now: Traffic)
    requires Talked(before, xs, up, start, now)
    requires DispatchPriority(db, x.task) == DispatchPriority(before, x.task)
    requires Reached(up, now, x)
    ensures Talked(before, xs + [x], up, start, Talk(now, db, x))
  {
    EntryOneMore(before, xs, x, up, start.Calls());
    Regroup(start.messages, Redispatches(before, xs), MessageFor(before, x));
    Regroup(start.attempted, Asked(before, xs), AskedFor(before, x));
  }

  /** Correct entries, for different tasks. */
  ghost predicate AllReported(db: Database, xs: seq<ReclaimedTask>, now: int) {
    && (forall i :: 0 <= i < |xs| ==> EntryFor(db, xs[i], now))
    && (forall i, j :: 0 <= i < j < |xs| ==> xs[i].task != xs[j].task)
  }

  lemma ReportsAll(before: Database, order: seq<TaskId>, db: Database, xs: seq<ReclaimedTask>, now: int)
    requires Lists(order, StaleIds(before, now)) && Reports(before, order, db, xs, now)
    ensures db == RecoverAll(before, now)
    ensures |xs| == CountStaleRunning(before, now) && AllReported(before, xs, now)
  {
    ScanRecoversAll(before, order, now);
    ListLength(order, StaleIds(before, now));
  }

  lemma ListsOneMore(order: seq<TaskId>, ids: set<TaskId>, left: set<TaskId>, t: TaskId)
    requires left <= ids && Lists(order, ids - left) && t in left
    ensures Lists(order + [t], ids - (left - {t}))
  {
    forall u | u in ids - (left - {t}) ensures u in order + [t] {
      assert u == t || u in ids - left;
    }
  }
}
