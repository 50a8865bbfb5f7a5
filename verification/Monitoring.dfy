/** An uninterrupted recovery scan, and the gauges that watch it. */
module Monitoring {
  import opened Model
  import opened Lifecycle
  import opened Machine

  /***** The scan *****/

  /** What an uninterrupted scan makes of a row. */
  function Recovered(r: Record, now: int): Record {
    var res := ReclaimNow(r, now);
    if res.Applied? then res.record else r
  }

  function RecoverAll(db: Database, now: int): Database {
    map t | t in db :: Recovered(db[t], now)
  }

  /** The scan's loop over a candidate list. */
  function ReclaimEach(db: Database, order: seq<TaskId>, now: int): Database {
    if order == [] then db
    else
      var rest := ReclaimEach(db, order[..|order| - 1], now);
      var t := order[|order| - 1];
      if t in rest then rest[t := Recovered(rest[t], now)] else rest
  }

  lemma RecoveredIsSettled(r: Record, now: int)
    ensures !Stale(Recovered(r, now).task, now)
    ensures Recovered(Recovered(r, now), now) == Recovered(r, now)
    ensures !Stale(r.task, now) ==> Recovered(r, now) == r
  {
  }

  lemma {:induction false} ReclaimEachIs(db: Database, order: seq<TaskId>, now: int)
    ensures ReclaimEach(db, order, now) == map t | t in db :: if t in order then Recovered(db[t], now) else db[t]
  {
    if order != [] {
      var t := order[|order| - 1];
      var init := order[..|order| - 1];
      ReclaimEachIs(db, init, now);
      assert order == init + [t];
      if t in db {
        RecoveredIsSettled(db[t], now);
      }
    }
  }

  /** Whatever the order of the candidates, the scan reclaims exactly the stale
      rows and leaves every other row alone. */
  lemma ScanRecoversAll(db: Database, order: seq<TaskId>, now: int)
    requires Lists(order, StaleIds(db, now))
    ensures ReclaimEach(db, order, now) == RecoverAll(db, now)
    ensures forall t :: t in db && !Stale(db[t].task, now) ==> RecoverAll(db, now)[t] == db[t]
    ensures forall t :: t in db && Stale(db[t].task, now) ==>
              ReclaimNow(db[t], now).Applied? && RecoverAll(db, now)[t] == ReclaimNow(db[t], now).record
  {
    ReclaimEachIs(db, order, now);
    forall t | t in db ensures !Stale(db[t].task, now) ==> Recovered(db[t], now) == db[t] {
      RecoveredIsSettled(db[t], now);
    }
  }

  /** Nothing stays stale, so a second scan at the same time finds nothing. */
  lemma SecondScanFindsNothing(db: Database, now: int)
    ensures StaleIds(RecoverAll(db, now), now) == {}
    ensures RecoverAll(RecoverAll(db, now), now) == RecoverAll(db, now)
  {
    forall t | t in db ensures !Stale(RecoverAll(db, now)[t].task, now) {
      RecoveredIsSettled(db[t], now);
    }
    forall t | t in db ensures RecoverAll(RecoverAll(db, now), now)[t] == RecoverAll(db, now)[t] {
      RecoveredIsSettled(db[t], now);
    }
  }

  lemma {:induction false} ListLength(order: seq<TaskId>, ids: set<TaskId>)
    requires Lists(order, ids)
    ensures |order| == |ids|
  {
    if order == [] {
      assert ids == {};
    } else {
      var last := order[|order| - 1];
      assert ids == (ids - {last}) + {last};
      ListLength(order[..|order| - 1], ids - {last});
    }
  }

  /** A candidate the loop has not reached is still as the scan found it. */
  lemma NextIsUntouched(before: Database, order: seq<TaskId>, i: nat, now: int)
    requires Lists(order, StaleIds(before, now)) && i < |order|
    ensures var (db, t) := (ReclaimEach(before, order[..i], now), order[i]);
            && t in before && t in db && db[t] == before[t] && Stale(db[t].task, now)
            && ReclaimEach(before, order[..i + 1], now) == db[t := Recovered(db[t], now)]
  {
    ReclaimEachIs(before, order[..i], now);
    assert order[i] !in order[..i];
    assert order[..i + 1][..i] == order[..i];
  }

  /***** The gauges *****/

  const WINDOW_SECONDS: int := 60

  function WithStatus(db: Database, status: Status): set<TaskId> {
    set t | t in db && db[t].task.status == status
  }

  function CountStaleRunning(db: Database, now: int): nat {
    |StaleIds(db, now)|
  }

  function CompletedSince(db: Database, start: int): set<TaskId> {
    set t | t in db && db[t].task.status == Completed
            && db[t].task.completedAt.Some? && start <= db[t].task.completedAt.value
  }

  datatype Metrics = Metrics(
    queued: nat, running: nat, completed: nat, failed: nat, deadLetter: nat, staleRunning: nat, throughput: nat)

  function QueryTaskMetrics(db: Database, now: int): Metrics {
    Metrics(
      |WithStatus(db, Queued)|, |WithStatus(db, Running)|, |WithStatus(db, Completed)|,
      |WithStatus(db, Failed)|, |WithStatus(db, DeadLetter)|,
      CountStaleRunning(db, now), |CompletedSince(db, now - WINDOW_SECONDS)|)
  }

  function Total(m: Metrics): nat {
    m.queued + m.running + m.completed + m.failed + m.deadLetter
  }

  lemma SubsetSize<T>(a: set<T>, b: set<T>)
    requires a <= b
    ensures |a| <= |b| && |b - a| == |b| - |a|
  {
    assert b == a + (b - a);
  }

  lemma FiveParts<T>(q: set<T>, r: set<T>, c: set<T>, f: set<T>, d: set<T>)
    requires q !! r !! c !! f !! d
    ensures |q + r + c + f + d| == |q| + |r| + |c| + |f| + |d|
  {
    assert |q + r| == |q| + |r|;
    assert |q + r + c| == |q + r| + |c|;
    assert |q + r + c + f| == |q + r + c| + |f|;
  }

  lemma EachInOne(db: Database)
    ensures WithStatus(db, Queued) !! WithStatus(db, Running) !! WithStatus(db, Completed)
            !! WithStatus(db, Failed) !! WithStatus(db, DeadLetter)
    ensures db.Keys == WithStatus(db, Queued) + WithStatus(db, Running) + WithStatus(db, Completed)
                       + WithStatus(db, Failed) + WithStatus(db, DeadLetter)
  {
  }

  lemma HistogramTotal(db: Database)
    ensures |WithStatus(db, Queued)| + |WithStatus(db, Running)| + |WithStatus(db, Completed)|
            + |WithStatus(db, Failed)| + |WithStatus(db, DeadLetter)| == |db|
  {
    EachInOne(db);
    FiveParts(WithStatus(db, Queued), WithStatus(db, Running), WithStatus(db, Completed),
              WithStatus(db, Failed), WithStatus(db, DeadLetter));
    assert |db| == |db.Keys|;
  }

  lemma StaleAreRunning(db: Database, now: int)
    ensures StaleIds(db, now) <= WithStatus(db, Running)
    ensures |StaleIds(db, now)| <= |WithStatus(db, Running)|
  {
    SubsetSize(StaleIds(db, now), WithStatus(db, Running));
  }

  lemma RecentAreCompleted(db: Database, start: int)
    ensures |CompletedSince(db, start)| <= |WithStatus(db, Completed)|
  {
    SubsetSize(CompletedSince(db, start), WithStatus(db, Completed));
  }

  /** The histogram counts every task exactly once. */
  lemma HistogramIsPartition(db: Database, now: int)
    ensures Total(QueryTaskMetrics(db, now)) == |db|
  {
    HistogramTotal(db);
  }

  /** The stale gauge never exceeds the running count, nor the throughput the
      completed count. */
  lemma GaugesAreBounded(db: Database, now: int)
    ensures var m := QueryTaskMetrics(db, now); m.staleRunning <= m.running && m.throughput <= m.completed
  {
    StaleAreRunning(db, now);
    RecentAreCompleted(db, now - WINDOW_SECONDS);
  }

  /** The stale tasks with retries left. */
  function Requeueable(db: Database, now: int): set<TaskId> {
    set t | t in StaleIds(db, now) && db[t].task.retryCount < db[t].task.maxRetries
  }

  /** A stale row leaves RUNNING by its budget, and is not completed. */
  lemma RecoveredStatus(r: Record, now: int)
    ensures var q := Recovered(r, now);
            if !Stale(r.task, now) then q == r
            else
              && q.task.status == (if r.task.retryCount < r.task.maxRetries then Queued else DeadLetter)
              && q.task.completedAt.None?
  {
  }

  lemma RunningAfter(db: Database, now: int)
    ensures WithStatus(RecoverAll(db, now), Running) == WithStatus(db, Running) - StaleIds(db, now)
  {
    forall t | t in db { RecoveredStatus(db[t], now); }
  }

  lemma QueuedAfter(db: Database, now: int)
    ensures WithStatus(RecoverAll(db, now), Queued) == WithStatus(db, Queued) + Requeueable(db, now)
  {
    forall t | t in db { RecoveredStatus(db[t], now); }
  }

  lemma DeadLetterAfter(db: Database, now: int)
    ensures WithStatus(RecoverAll(db, now), DeadLetter)
            == WithStatus(db, DeadLetter) + (StaleIds(db, now) - Requeueable(db, now))
  {
    forall t | t in db { RecoveredStatus(db[t], now); }
  }

  lemma FinishedAfter(db: Database, now: int, start: int)
    ensures WithStatus(RecoverAll(db, now), Completed) == WithStatus(db, Completed)
    ensures WithStatus(RecoverAll(db, now), Failed) == WithStatus(db, Failed)
    ensures CompletedSince(RecoverAll(db, now), start) == CompletedSince(db, start)
  {
    forall t | t in db { RecoveredStatus(db[t], now); }
  }

  /** A scan moves exactly the stale tasks out of RUNNING: those with retries left
      to QUEUED, the others to DEAD_LETTER; every other count, and the total, is
      conserved, and the stale gauge drops to zero. */
  lemma ScanFlow(db: Database, now: int)
    ensures var (before, after) := (QueryTaskMetrics(db, now), QueryTaskMetrics(RecoverAll(db, now), now));
            && after.running == before.running - before.staleRunning
            && after.queued == before.queued + |Requeueable(db, now)|
            && after.deadLetter == before.deadLetter + (before.staleRunning - |Requeueable(db, now)|)
            && after.completed == before.completed && after.failed == before.failed
            && after.throughput == before.throughput
            && after.staleRunning == 0 && Total(after) == Total(before)
  {
    SecondScanFindsNothing(db, now);
    RunningAfter(db, now);
    QueuedAfter(db, now);
    DeadLetterAfter(db, now);
    FinishedAfter(db, now, now - WINDOW_SECONDS);
    SubsetSize(StaleIds(db, now), WithStatus(db, Running));
    SubsetSize(Requeueable(db, now), StaleIds(db, now));
    assert WithStatus(db, Queued) !! Requeueable(db, now);
    assert WithStatus(db, DeadLetter) !! (StaleIds(db, now) - Requeueable(db, now));
  }

  /***** What one changed row does to the gauges *****/

  lemma SetOneRow<T>(before: set<T>, after: set<T>, t: T)
    requires after - {t} == before - {t}
    ensures |after| == |before| - (if t in before then 1 else 0) + (if t in after then 1 else 0)
  {
    assert t in before ==> before == (before - {t}) + {t};
    assert t in after ==> after == (after - {t}) + {t};
    assert t !in before ==> before == before - {t};
    assert t !in after ==> after == after - {t};
  }

  /** The gauge of a status. */
  function GaugeOf(m: Metrics, status: Status): nat {
    match status
    case Queued => m.queued
    case Running => m.running
    case Completed => m.completed
    case Failed => m.failed
    case DeadLetter => m.deadLetter
  }

  /** The row is completed, in the last minute before `now`. */
  predicate JustCompleted(r: Record, now: int) {
    r.task.status == Completed && r.task.completedAt.Some? && now - 60 <= r.task.completedAt.value
  }

  /** The row is running on a lease that is over. */
  predicate Overdue(r: Record, now: int) {
    r.task.status == Running && r.task.leaseExpiresAt.Some? && r.task.leaseExpiresAt.value < now
  }

  function One(b: bool): int {
    if b then 1 else 0
  }

  lemma StatusOneRow(db: Database, t: TaskId, r: Record, status: Status)
    ensures |WithStatus(db[t := r], status)|
            == |WithStatus(db, status)| - One(t in db && db[t].task.status == status) + One(r.task.status == status)
  {
    SetOneRow(WithStatus(db, status), WithStatus(db[t := r], status), t);
  }

  /** Writing one row takes its old contribution out of every gauge and puts its new
      one in; an empty table shows zero everywhere. */
  lemma MetricsOneRow(db: Database, t: TaskId, r: Record, now: int)
    ensures var (before, after) := (QueryTaskMetrics(db, now), QueryTaskMetrics(db[t := r], now));
            && (forall status :: GaugeOf(after, status) == GaugeOf(before, status)
                                 - One(t in db && db[t].task.status == status) + One(r.task.status == status))
            && after.staleRunning == before.staleRunning - One(t in db && Overdue(db[t], now)) + One(Overdue(r, now))
            && after.throughput
               == before.throughput - One(t in db && JustCompleted(db[t], now)) + One(JustCompleted(r, now))
    ensures QueryTaskMetrics(map[], now) == Metrics(0, 0, 0, 0, 0, 0, 0)
  {
    forall status: Status
      ensures GaugeOf(QueryTaskMetrics(db[t := r], now), status) == GaugeOf(QueryTaskMetrics(db, now), status)
              - One(t in db && db[t].task.status == status) + One(r.task.status == status)
    {
      StatusOneRow(db, t, r, status);
    }
    SetOneRow(StaleIds(db, now), StaleIds(db[t := r], now), t);
    SetOneRow(CompletedSince(db, now - WINDOW_SECONDS), CompletedSince(db[t := r], now - WINDOW_SECONDS), t);
  }

  /** A completion that applies counts for the throughput of the minute after it;
      no other transaction changes the throughput. */
  lemma ThroughputFollowsCompletions(leaseSeconds: int, db: Database, t: TaskId, op: RowOp, now: int)
    requires t in db ==> RowInv(leaseSeconds, db[t])
    ensures var after := QueryTaskMetrics(Commit(db, t, op), now).throughput;
            after == QueryTaskMetrics(db, now).throughput
                     + if op.Complete? && t in db && Passes(db[t], op) && now - 60 <= op.at then 1 else 0
  {
    var res := ApplyOp(Lookup(db, t), op);
    if t in db {
      OpSetsColumns(leaseSeconds, db[t], op);
    }
    if res.Applied? {
      MetricsOneRow(db, t, res.record, now);
    }
  }
}
