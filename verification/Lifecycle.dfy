/** The transitions of one task, as the guarded UPDATEs perform them.  From its
    UPDATE to its commit a transaction holds the row lock, and every writer of a
    task's attempts takes that lock first, so each operation below is atomic.
    What a transaction read before its UPDATE arrives as a `Snapshot`. */
module Lifecycle {
  import opened Model

  /** The columns a transaction selects before it decides on the new status. */
  datatype Snapshot = Snapshot(retryCount: int, maxRetries: int)

  datatype RowOp =
    | Create(priority: Priority, maxRetries: nat)
    | Claim(worker: string, at: int, leaseSeconds: int)
    | Complete(attempt: nat, at: int)
    | FinalizeFailure(attempt: nat, seen: Snapshot, retryable: bool, error: string, at: int)
    | Reclaim(seen: Snapshot, now: int)
    | Requeue

  datatype Refusal = NotFound | AlreadyExists | WrongStatus | AttemptGone

  /** A refused operation rolls back: the row and its attempts stay as they are. */
  datatype RowResult = Applied(record: Record) | Refused(why: Refusal)

  /***** Attempts *****/

  function MaxNumber(attempts: seq<Attempt>): int {
    if attempts == [] then 0
    else
      var rest := MaxNumber(attempts[..|attempts| - 1]);
      var last := attempts[|attempts| - 1].number;
      if rest < last then last else rest
  }

  /** The open attempt with the highest number, if any attempt is open. */
  function LatestOpen(attempts: seq<Attempt>): (r: Option<nat>)
    ensures r.None? <==> forall i :: 0 <= i < |attempts| ==> attempts[i].finishedAt.Some?
    ensures r.Some? ==> r.value < |attempts| && attempts[r.value].finishedAt.None?
    ensures r.Some? ==> forall i :: 0 <= i < |attempts| && attempts[i].finishedAt.None?
                                    ==> attempts[i].number <= attempts[r.value].number
  {
    if attempts == [] then None
    else
      var n := |attempts| - 1;
      var rest := LatestOpen(attempts[..n]);
      assert forall i :: 0 <= i < n ==> attempts[..n][i] == attempts[i];
      if attempts[n].finishedAt.None? && (rest.None? || attempts[rest.value].number <= attempts[n].number)
      then Some(n) else rest
  }

  function Close(attempts: seq<Attempt>, k: nat, at: int, error: Option<string>): seq<Attempt>
    requires k < |attempts|
  {
    attempts[k := attempts[k].(finishedAt := Some(at), error := error)]
  }

  /***** Decisions *****/

  predicate Stale(task: Task, now: int) {
    task.status == Running && task.leaseExpiresAt.Some? && task.leaseExpiresAt.value < now
  }

  function TakeSnapshot(task: Task): Snapshot {
    Snapshot(task.retryCount, task.maxRetries)
  }

  /** The retry count and status a failed attempt leads to. */
  function AfterFailure(seen: Snapshot, retryable: bool): (int, Status) {
    if retryable && seen.retryCount < seen.maxRetries then (seen.retryCount + 1, Queued)
    else if retryable then (seen.retryCount, DeadLetter)
    else (seen.retryCount, Failed)
  }

  /***** Operations *****/

  function NewRecord(priority: Priority, maxRetries: nat): Record {
    Record(Task(priority, Queued, 0, maxRetries, None, None, None, None), [])
  }

  function ClaimRow(r: Record, worker: string, at: int, leaseSeconds: int): RowResult {
    if r.task.status != Queued then Refused(WrongStatus)
    else
      var attempt := Attempt(MaxNumber(r.attempts) + 1, Truncated(worker, WORKER_LIMIT), at, None, None);
      Applied(Record(
        r.task.(status := Running, startedAt := Some(at), completedAt := None, lastError := None,
                leaseExpiresAt := Some(at + leaseSeconds)),
        r.attempts + [attempt]))
  }

  function CompleteRow(r: Record, k: nat, at: int): RowResult {
    if r.task.status != Running then Refused(WrongStatus)
    else if k >= |r.attempts| then Refused(AttemptGone)
    else Applied(Record(
      r.task.(status := Completed, completedAt := Some(at), lastError := None, leaseExpiresAt := None),
      Close(r.attempts, k, at, None)))
  }

  function FinalizeRow(r: Record, k: nat, seen: Snapshot, retryable: bool, error: string, at: int): RowResult {
    if r.task.status != Running then Refused(WrongStatus)
    else if k >= |r.attempts| then Refused(AttemptGone)
    else
      var (retryCount, status) := AfterFailure(seen, retryable);
      Applied(Record(
        r.task.(status := status, retryCount := retryCount, completedAt := None,
                lastError := Some(error), leaseExpiresAt := None),
        Close(r.attempts, k, at, Some(error))))
  }

  function ReclaimRow(r: Record, seen: Snapshot, now: int): RowResult {
    if !Stale(r.task, now) then Refused(WrongStatus)
    else
      var (retryCount, status) := AfterFailure(seen, true);
      var open := LatestOpen(r.attempts);
      Applied(Record(
        r.task.(status := status, retryCount := retryCount, startedAt := None, completedAt := None,
                lastError := Some(STALE_LEASE_ERROR), leaseExpiresAt := None),
        if open.Some? then Close(r.attempts, open.value, now, Some(STALE_LEASE_ERROR)) else r.attempts))
  }

  function RequeueRow(r: Record): RowResult {
    if r.task.status != DeadLetter then Refused(WrongStatus)
    else Applied(r.(task := r.task.(status := Queued, retryCount := 0, startedAt := None,
                                    completedAt := None, lastError := None)))
  }

  function ApplyOp(row: Option<Record>, op: RowOp): RowResult {
    match row
    case None => if op.Create? then Applied(NewRecord(op.priority, op.maxRetries)) else Refused(NotFound)
    case Some(r) =>
      match op
      case Create(_, _) => Refused(AlreadyExists)
      case Claim(worker, at, leaseSeconds) => ClaimRow(r, worker, at, leaseSeconds)
      case Complete(k, at) => CompleteRow(r, k, at)
      case FinalizeFailure(k, seen, retryable, error, at) => FinalizeRow(r, k, seen, retryable, error, at)
      case Reclaim(seen, now) => ReclaimRow(r, seen, now)
      case Requeue => RequeueRow(r)
  }

  /** The database after the operation ran against task `t`. */
  function Commit(db: Database, t: TaskId, op: RowOp): Database {
    var res := ApplyOp(Lookup(db, t), op);
    if res.Applied? then db[t := res.record] else db
  }

  /** A reclaim whose SELECT and UPDATE see the same row. */
  function ReclaimNow(r: Record, now: int): RowResult {
    ReclaimRow(r, TakeSnapshot(r.task), now)
  }

  /***** Invariants of a row *****/

  /** Which columns are set in which status. */
  ghost predicate Shape(task: Task) {
    && (task.leaseExpiresAt.Some? <==> task.status == Running)
    && (task.completedAt.Some? <==> task.status == Completed)
    && (task.status in {Running, Completed, Failed} ==> task.startedAt.Some?)
    && (task.status in {Running, Completed} ==> task.lastError.None?)
    && (task.status in {Failed, DeadLetter} ==> task.lastError.Some?)
    && (task.lastError.Some? ==> task.lastError.value != "")
  }

  /** The CHECK constraints, and that only a spent budget dead-letters. */
  ghost predicate Bounds(task: Task) {
    && 0 <= task.retryCount <= task.maxRetries
    && (task.status == DeadLetter ==> task.retryCount == task.maxRetries)
  }

  /** Numbers are 1..n, and a running task's newest attempt is the one whose
      claim set the lease. */
  ghost predicate AttemptHistory(leaseSeconds: int, r: Record) {
    && (forall i :: 0 <= i < |r.attempts| ==>
          && r.attempts[i].number == i + 1
          && |r.attempts[i].worker| <= WORKER_LIMIT
          && (r.attempts[i].error.Some? ==> r.attempts[i].finishedAt.Some?))
    && (r.task.status == Running ==>
          && r.attempts != []
          && var last := r.attempts[|r.attempts| - 1];
             && last.finishedAt.None?
             && r.task.startedAt == Some(last.startedAt)
             && r.task.leaseExpiresAt == Some(last.startedAt + leaseSeconds))
  }

  ghost predicate RowInv(leaseSeconds: int, r: Record) {
    Shape(r.task) && Bounds(r.task) && AttemptHistory(leaseSeconds, r)
  }

  /** Nothing but `finishedAt` and `error` of an attempt ever changes, and no
      attempt disappears. */
  ghost predicate Extends(before: Record, after: Record) {
    && after.task.priority == before.task.priority
    && after.task.maxRetries == before.task.maxRetries
    && |before.attempts| <= |after.attempts|
    && forall i :: 0 <= i < |before.attempts| ==> SameOrigin(before.attempts[i], after.attempts[i])
  }

  ghost predicate SameOrigin(a: Attempt, b: Attempt) {
    b.number == a.number && b.worker == a.worker && b.startedAt == a.startedAt
  }

  /** A snapshot some earlier state of the row could have given. */
  ghost predicate SeenOk(r: Record, seen: Snapshot) {
    0 <= seen.retryCount <= seen.maxRetries == r.task.maxRetries
  }

  /** What the callers of an operation guarantee; a snapshot may be stale. */
  ghost predicate OpOk(leaseSeconds: int, row: Option<Record>, op: RowOp) {
    match op
    case Create(_, _) => row.None?
    case Claim(_, _, l) => l == leaseSeconds
    case FinalizeFailure(_, seen, _, error, _) => error != "" && (row.Some? ==> SeenOk(row.value, seen))
    case Reclaim(seen, _) => row.Some? ==> SeenOk(row.value, seen)
    case _ => true
  }

  /***** Lemmas *****/

  lemma {:induction false} MaxNumberIsLength(attempts: seq<Attempt>)
    requires forall i :: 0 <= i < |attempts| ==> attempts[i].number == i + 1
    ensures MaxNumber(attempts) == |attempts|
  {
    if attempts != [] {
      MaxNumberIsLength(attempts[..|attempts| - 1]);
    }
  }

  /** While a task runs, the "latest open attempt" query finds the attempt of
      the claim that set the current lease. */
  lemma LatestOpenIsLast(leaseSeconds: int, r: Record)
    requires AttemptHistory(leaseSeconds, r) && r.task.status == Running
    ensures LatestOpen(r.attempts) == Some(|r.attempts| - 1)
    ensures r.attempts[LatestOpen(r.attempts).value].startedAt + leaseSeconds == r.task.leaseExpiresAt.value
  {
    var last := |r.attempts| - 1;
    assert r.attempts[last].finishedAt.None?;
    assert LatestOpen(r.attempts).Some?;
    assert r.attempts[LatestOpen(r.attempts).value].number >= r.attempts[last].number;
  }

  /** Every operation keeps the row invariants, whatever (possibly stale)
      snapshot a failure or a reclaim decided on. */
  lemma OpKeepsRow(leaseSeconds: int, row: Option<Record>, op: RowOp)
    requires row.Some? ==> RowInv(leaseSeconds, row.value)
    requires OpOk(leaseSeconds, row, op)
    ensures var res := ApplyOp(row, op); res.Applied? ==> RowInv(leaseSeconds, res.record)
  {
    if row.Some? {
      MaxNumberIsLength(row.value.attempts);
    }
  }

  lemma OpExtends(row: Option<Record>, op: RowOp)
    requires row.Some?
    ensures var res := ApplyOp(row, op); res.Applied? ==> Extends(row.value, res.record)
  {
  }

  /** An operation opens one new attempt, closes one, or leaves them all alone; a
      closed attempt stays closed. */
  ghost predicate OneAttempt(before: seq<Attempt>, after: seq<Attempt>) {
    || after == before
    || (exists a: Attempt :: after == before + [a] && a.finishedAt.None? && a.error.None?)
    || (exists k: nat, at: int, error: Option<string> ::
          k < |before| && after == before[k := before[k].(finishedAt := Some(at), error := error)])
  }

  lemma OpTouchesOneAttempt(row: Option<Record>, op: RowOp)
    requires row.Some?
    ensures var res := ApplyOp(row, op); res.Applied? ==> OneAttempt(row.value.attempts, res.record.attempts)
  {
    var res := ApplyOp(row, op);
    if res.Applied? {
      var (before, after) := (row.value.attempts, res.record.attempts);
      match op
      case Create(_, _) =>
      case Claim(_, _, _) =>
        assert after == before + [after[|before|]];
      case Complete(k, at) =>
        assert after == before[k := before[k].(finishedAt := Some(at), error := None)];
      case FinalizeFailure(k, _, _, error, at) =>
        assert after == before[k := before[k].(finishedAt := Some(at), error := Some(error))];
      case Reclaim(_, now) =>
        if LatestOpen(before).Some? {
          var k := LatestOpen(before).value;
          assert after == before[k := before[k].(finishedAt := Some(now), error := Some(STALE_LEASE_ERROR))];
        }
      case Requeue =>
    }
  }

  lemma ExtendsTransitive(a: Record, b: Record, c: Record)
    requires Extends(a, b) && Extends(b, c)
    ensures Extends(a, c)
  {
    forall i | 0 <= i < |a.attempts| ensures SameOrigin(a.attempts[i], c.attempts[i]) {
      assert SameOrigin(a.attempts[i], b.attempts[i]);
      assert SameOrigin(b.attempts[i], c.attempts[i]);
    }
  }

  /** COMPLETED and FAILED rows refuse everything. */
  lemma FinishedRefuses(r: Record, op: RowOp)
    requires r.task.status == Completed || r.task.status == Failed
    ensures ApplyOp(Some(r), op).Refused?
  {
  }

  /** The row an operation leaves behind is not stale for any scan that has
      already read its clock: it is not running, or was claimed just now. */
  lemma AppliedIsNotStale(leaseSeconds: nat, row: Option<Record>, op: RowOp, now: int)
    requires OpOk(leaseSeconds, row, op)
    requires op.Claim? ==> now <= op.at
    ensures var res := ApplyOp(row, op); res.Applied? ==> !Stale(res.record.task, now)
  {
  }

  /***** What each operation leaves in the columns *****/

  /** All attempts but number `k` are untouched; `k` now ends at `at` with `error`. */
  predicate ClosesOnly(before: seq<Attempt>, after: seq<Attempt>, k: nat, at: int, error: Option<string>) {
    && k < |before| == |after|
    && (forall i :: 0 <= i < |before| && i != k ==> after[i] == before[i])
    && after[k].number == before[k].number && after[k].worker == before[k].worker
    && after[k].startedAt == before[k].startedAt
    && after[k].finishedAt == Some(at) && after[k].error == error
  }

  /** The last attempt is new and open; its number is its place. */
  predicate OpensOnly(before: seq<Attempt>, after: seq<Attempt>, worker: string, at: int) {
    var n := |before|;
    && |after| == n + 1 && after[..n] == before
    && after[n].number == n + 1 && after[n].startedAt == at
    && after[n].worker == (if |worker| <= 255 then worker else worker[..255])
    && after[n].finishedAt.None? && after[n].error.None?
  }

  /** When the guard of an operation passes. */
  predicate Passes(r: Record, op: RowOp) {
    match op
    case Create(_, _) => false
    case Claim(_, _, _) => r.task.status == Queued
    case Complete(k, _) => r.task.status == Running && k < |r.attempts|
    case FinalizeFailure(k, _, _, _, _) => r.task.status == Running && k < |r.attempts|
    case Reclaim(_, now) =>
      r.task.status == Running && r.task.leaseExpiresAt.Some? && r.task.leaseExpiresAt.value < now
    case Requeue => r.task.status == DeadLetter
  }

  /** Status and retry count after a failure that had read `seen`. */
  predicate Decides(seen: Snapshot, retryable: bool, task: Task) {
    && (task.status == Queued <==> retryable && seen.retryCount < seen.maxRetries)
    && (task.status == DeadLetter <==> retryable && seen.retryCount >= seen.maxRetries)
    && (task.status == Failed <==> !retryable)
    && task.retryCount == seen.retryCount + if task.status == Queued then 1 else 0
  }

  /** Every column of the row and of its attempts after an operation. */
  predicate Columns(r: Record, op: RowOp, after: Record) {
    var (a, b) := (r.task, after.task);
    && b.priority == a.priority && b.maxRetries == a.maxRetries
    && match op
       case Create(_, _) => false
       case Claim(worker, at, leaseSeconds) =>
         && b.status == Running && b.retryCount == a.retryCount
         && b.startedAt == Some(at) && b.completedAt.None? && b.lastError.None?
         && b.leaseExpiresAt == Some(at + leaseSeconds)
         && OpensOnly(r.attempts, after.attempts, worker, at)
       case Complete(k, at) =>
         && b.status == Completed && b.retryCount == a.retryCount
         && b.startedAt == a.startedAt && b.completedAt == Some(at) && b.lastError.None? && b.leaseExpiresAt.None?
         && ClosesOnly(r.attempts, after.attempts, k, at, None)
       case FinalizeFailure(k, seen, retryable, error, at) =>
         && Decides(seen, retryable, b)
         && b.startedAt == a.startedAt && b.completedAt.None? && b.lastError == Some(error) && b.leaseExpiresAt.None?
         && ClosesOnly(r.attempts, after.attempts, k, at, Some(error))
       case Reclaim(seen, now) =>
         && Decides(seen, true, b)
         && b.startedAt.None? && b.completedAt.None? && b.lastError == Some(STALE_LEASE_ERROR) && b.leaseExpiresAt.None?
         && |r.attempts| > 0
         && ClosesOnly(r.attempts, after.attempts, |r.attempts| - 1, now, Some(STALE_LEASE_ERROR))
       case Requeue =>
         && b.status == Queued && b.retryCount == 0
         && b.startedAt.None? && b.completedAt.None? && b.lastError.None? && b.leaseExpiresAt.None?
         && after.attempts == r.attempts
  }

  /** An operation applies exactly when its guard passes, and then every column is
      as the operation says. */
  lemma OpSetsColumns(leaseSeconds: int, r: Record, op: RowOp)
    requires RowInv(leaseSeconds, r)
    ensures var res := ApplyOp(Some(r), op);
            && (res.Applied? <==> Passes(r, op))
            && (res.Applied? ==> Columns(r, op, res.record))
  {
    MaxNumberIsLength(r.attempts);
    if r.task.status == Running {
      LatestOpenIsLast(leaseSeconds, r);
    }
  }

  /***** Exactly when a stale read does no harm *****/

  /** The failure UPDATE with a stale snapshot does what an atomic one would do
      if and only if the retry count it read is still the current one. */
  lemma StaleFinalizeIsAtomicIff(leaseSeconds: int, r: Record, k: nat, seen: Snapshot,
                                 retryable: bool, error: string, at: int)
    requires RowInv(leaseSeconds, r) && SeenOk(r, seen)
    requires r.task.status == Running && k < |r.attempts|
    ensures FinalizeRow(r, k, seen, retryable, error, at)
            == FinalizeRow(r, k, TakeSnapshot(r.task), retryable, error, at)
            <==> seen.retryCount == r.task.retryCount
  {
  }

  ghost predicate AllClosed(attempts: seq<Attempt>) {
    forall i :: 0 <= i < |attempts| ==> attempts[i].finishedAt.Some?
  }

  /** An outcome that is accepted leaves no attempt open if and only if it comes
      from the current attempt and no earlier attempt was open; the UPDATE checks
      neither. */
  lemma OutcomeClosesAllIff(leaseSeconds: int, r: Record, k: nat, op: RowOp)
    requires RowInv(leaseSeconds, r) && r.task.status == Running && k < |r.attempts|
    requires (op.Complete? || op.FinalizeFailure?) && op.attempt == k
    ensures ApplyOp(Some(r), op).Applied?
    ensures AllClosed(ApplyOp(Some(r), op).record.attempts)
            <==> k == |r.attempts| - 1 && AllClosed(r.attempts[..|r.attempts| - 1])
  {
    var last := |r.attempts| - 1;
    var after := ApplyOp(Some(r), op).record.attempts;
    assert r.attempts[last].finishedAt.None?;
    if k != last {
      assert after[last].finishedAt.None?;
    } else {
      assert after[..last] == r.attempts[..last];
      assert AllClosed(after) <==> AllClosed(after[..last]) by {
        assert forall i :: 0 <= i < last ==> after[..last][i] == after[i];
      }
    }
  }
}
