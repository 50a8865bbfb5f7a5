/** What a run adds up to for one task: attempts, handler executions, status
    changes and requested delays.  A `History` is a history variable; the
    program does not store it. */
module Ledger {
  import opened Model
  import opened Backoff
  import opened Lifecycle

  /** `changes` and `asked` start afresh with every requeue. */
  datatype History = History(
    requeues: nat,
    executions: nat,   // claims, each followed by at most one handler call
    changes: nat,      // status changes in the current epoch
    asked: seq<int>)   // retry numbers requested in the current epoch

  const NO_HISTORY := History(0, 0, 0, [])

  function Recorded(h: History, before: Option<Record>, op: RowOp, after: Record): History {
    match op
    case Create(_, _) => NO_HISTORY
    case Requeue => History(h.requeues + 1, h.executions, 0, [])
    case _ =>
      History(
        h.requeues,
        h.executions + (if op.Claim? then 1 else 0),
        h.changes + (if before.Some? && before.value.task.status == after.task.status then 0 else 1),
        if !op.Claim? && after.task.status == Queued then h.asked + [after.task.retryCount] else h.asked)
  }

  /** Every status change but a requeue takes one off this measure. */
  function Measure(task: Task): int {
    2 * (task.maxRetries - task.retryCount)
    + (if task.status == Queued then 2 else if task.status == Running then 1 else 0)
  }

  /** How many attempts a task must have. */
  function ExpectedAttempts(task: Task, h: History): int {
    h.requeues * (task.maxRetries + 1) + task.retryCount + (if task.status == Queued then 0 else 1)
  }

  ghost predicate Accounted(r: Record, h: History) {
    |r.attempts| == ExpectedAttempts(r.task, h)
  }

  ghost predicate Laws(r: Record, h: History) {
    && Accounted(r, h)
    && h.executions == |r.attempts|
    && h.changes + Measure(r.task) == 2 * (r.task.maxRetries + 1)
    && |h.asked| == r.task.retryCount
    && forall i :: 0 <= i < |h.asked| ==> h.asked[i] == i + 1
  }

  /** The snapshot an operation carries agrees with the row it meets. */
  ghost predicate Fresh(r: Record, op: RowOp) {
    match op
    case FinalizeFailure(_, seen, _, _, _) => r.task.status == Running ==> seen == TakeSnapshot(r.task)
    case Reclaim(seen, now) => Stale(r.task, now) ==> seen == TakeSnapshot(r.task)
    case _ => true
  }

  lemma OneMoreEpoch(requeues: nat, perEpoch: int)
    ensures (requeues + 1) * perEpoch == requeues * perEpoch + perEpoch
  {
  }

  lemma OpKeepsLaws(leaseSeconds: int, r: Record, h: History, op: RowOp)
    requires RowInv(leaseSeconds, r) && Laws(r, h) && Fresh(r, op)
    ensures var res := ApplyOp(Some(r), op); res.Applied? ==> Laws(res.record, Recorded(h, Some(r), op, res.record))
  {
    OneMoreEpoch(h.requeues, r.task.maxRetries + 1);
  }

  /** An epoch moves strictly down the measure; only a requeue lifts it. */
  lemma OpLowersMeasure(leaseSeconds: int, r: Record, op: RowOp)
    requires RowInv(leaseSeconds, r) && Fresh(r, op) && !op.Requeue?
    ensures var res := ApplyOp(Some(r), op); res.Applied? ==> Measure(res.record.task) == Measure(r.task) - 1
  {
  }

  /** A failure UPDATE keeps the attempt account exactly when the retry count it
      had read is the current one. */
  lemma FinalizeKeepsAccountIff(leaseSeconds: int, r: Record, h: History, k: nat, seen: Snapshot,
                                retryable: bool, error: string, at: int)
    requires RowInv(leaseSeconds, r) && Accounted(r, h) && SeenOk(r, seen)
    requires r.task.status == Running && k < |r.attempts|
    ensures var op := FinalizeFailure(k, seen, retryable, error, at);
            var after := ApplyOp(Some(r), op).record;
            Accounted(after, Recorded(h, Some(r), op, after)) <==> seen.retryCount == r.task.retryCount
  {
  }

  /***** The account with outdated snapshots *****/

  /** Attempts beyond what the account explains. */
  function Surplus(r: Record, h: History): int {
    |r.attempts| - ExpectedAttempts(r.task, h)
  }

  /** How far the retry count an operation acts on lags behind the row's. */
  function Lag(r: Record, op: RowOp): int {
    if op.FinalizeFailure? then r.task.retryCount - op.seen.retryCount else 0
  }

  /** A failure UPDATE moves the account by exactly the lag of its snapshot, and
      nothing else moves it. */
  lemma OpMovesSurplus(leaseSeconds: int, r: Record, h: History, op: RowOp)
    requires RowInv(leaseSeconds, r) && OpOk(leaseSeconds, Some(r), op) && (op.Reclaim? ==> Fresh(r, op))
    ensures var res := ApplyOp(Some(r), op);
            res.Applied? ==> Surplus(res.record, Recorded(h, Some(r), op, res.record)) == Surplus(r, h) + Lag(r, op)
  {
    OneMoreEpoch(h.requeues, r.task.maxRetries + 1);
  }

  /***** What the laws mean for a caller *****/

  function Sum(xs: seq<int>): int {
    if xs == [] then 0 else Sum(xs[..|xs| - 1]) + RetryCountdown(xs[|xs| - 1]).Or(0)
  }

  lemma {:induction false} AskedSums(xs: seq<int>)
    requires forall i :: 0 <= i < |xs| ==> xs[i] == i + 1
    ensures Sum(xs) == TotalDelay(|xs|)
  {
    if xs != [] {
      AskedSums(xs[..|xs| - 1]);
    }
  }

  /** The books of a task: its attempts are accounted for and were each executed
      once; executions, the status changes of the epoch and its total backoff are
      bounded; its retries were requested as numbers 1, 2, and so on. */
  ghost predicate Balanced(r: Record, h: History) {
    && Bounds(r.task)
    && |r.attempts| == ExpectedAttempts(r.task, h)
    && h.executions == |r.attempts| <= (h.requeues + 1) * (r.task.maxRetries + 1)
    && h.changes == 2 * (r.task.maxRetries + 1) - Measure(r.task) <= 2 * (r.task.maxRetries + 1)
    && |h.asked| == r.task.retryCount && (forall i :: 0 <= i < |h.asked| ==> h.asked[i] == i + 1)
    && Sum(h.asked) == BackoffBound(r.task.retryCount) <= BackoffBound(r.task.maxRetries)
  }

  lemma LawsBound(r: Record, h: History)
    requires Bounds(r.task) && Laws(r, h)
    ensures Balanced(r, h)
  {
    OneMoreEpoch(h.requeues, r.task.maxRetries + 1);
    AskedSums(h.asked);
    TotalDelayIsBound(r.task.retryCount);
    BoundMonotone(r.task.retryCount, r.task.maxRetries);
  }
}
