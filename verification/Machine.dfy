/** The whole system as a state machine: any number of workers, API callers and
    recovery scans over one database, one broker and one monotone clock.  Every
    step is an `Action`; `EffectOf` says what it does.  Steps of different
    processes interleave freely. */
module Machine {
  import opened Model
  import opened Backoff
  import opened Lifecycle
  import opened Ledger
  import opened Dispatch

  type WorkerId = nat
  type PublisherId = nat
  type ScanId = nat

  /** `leaseSeconds` is the configured lease; a negative one is out of scope. */
  datatype Config = Config(leaseSeconds: nat)

  ghost predicate RowsOk(c: Config, db: Database) {
    forall t :: t in db ==> RowInv(c.leaseSeconds, db[t])
  }

  /***** Processes *****/

  /** A worker with its un-acknowledged delivery. */
  datatype Worker =
    | Idle
    | Delivered(msg: Message)
    | Executing(msg: Message, attempt: nat, lease: int)
      // the failure transaction is between its SELECT and its UPDATE
    | FailureRead(msg: Message, attempt: nat, lease: int, seen: Snapshot, retryable: bool, error: string, at: int)
      // the retry is committed but not yet published
    | RetryPending(msg: Message, number: int, limit: int, countdown: Option<int>)

  /** An API call between its commit (or status check) and its publication. */
  datatype Publisher = Gone | Publishing(task: TaskId, priority: Priority)

  datatype ReclaimedTask = ReclaimedTask(task: TaskId, outcome: Status, retryCount: int, redispatched: bool)

  datatype ScanPc =
    | Looping
      // the reclaim transaction is between its SELECT and its UPDATE;
      // `period` is the number of attempts the task had at the SELECT
    | Selected(task: TaskId, seen: Snapshot, period: nat)
    | Redispatching(pending: ReclaimedTask)
    | Finished
    | Crashed

  datatype Scan = Scan(
    now: int,
    remaining: seq<TaskId>,
    pc: ScanPc,
    reclaimed: seq<ReclaimedTask>,   // the list the scan returns
    attempted: seq<TaskId>)          // the tasks it called dispatch for

  /** One committed reclaim: which task, which of its RUNNING periods (the
      number of its claim), by which scan, with which result. */
  datatype Committed = Committed(scan: ScanId, period: nat, result: ReclaimedTask)

  datatype System = System(
    clock: int,
    db: Database,
    hist: map<TaskId, History>,
    broker: multiset<Message>,
    workers: map<WorkerId, Worker>,
    publishers: map<PublisherId, Publisher>,
    scans: map<ScanId, Scan>,
    reclaims: seq<Committed>)

  function Init(clock: int): System {
    System(clock, map[], map[], multiset{}, map[], map[], map[], [])
  }

  /***** Steps *****/

  datatype ApiStep =
    | Submit(t: TaskId, priority: Priority, maxRetries: nat)
    | RequeueCall(t: TaskId)
    | RedispatchCall(t: TaskId)
    | Publish(ok: bool)
    | PublisherCrash

  datatype WorkerStep =
    | Receive(m: Message)
    | VisibilityTimeout            // the broker delivers a second copy
    | ClaimTask(hostname: string)
    | Succeed
    | Fail(failure: Failure)       // FailSelect and FailUpdate at once
    | FailSelect(failure: Failure)
    | FailUpdate
    | SendRetry(ok: bool)
    | WorkerCrash

  datatype ScanStep =
    | ScanStart(now: int, order: seq<TaskId>)
    | ReclaimOne                   // ScanSelect and ScanUpdate at once
    | ScanSelect
    | ScanUpdate
    | Redispatch(ok: bool)
    | ScanEnd
    | ScanCrash

  datatype Action =
    | Tick(to: int)
    | Duplicate(m: Message)
    | Api(p: PublisherId, call: ApiStep)
    | Work(w: WorkerId, step: WorkerStep)
    | Recover(r: ScanId, pass: ScanStep)

  function WorkerAt(s: System, w: WorkerId): Worker {
    if w in s.workers then s.workers[w] else Idle
  }

  function PublisherAt(s: System, p: PublisherId): Publisher {
    if p in s.publishers then s.publishers[p] else Gone
  }

  function StaleIds(db: Database, now: int): set<TaskId> {
    set t | t in db && Stale(db[t].task, now)
  }

  /** `order` lists exactly the ids in `ids`, each once. */
  ghost predicate Lists(order: seq<TaskId>, ids: set<TaskId>) {
    && (forall i :: 0 <= i < |order| ==> order[i] in ids)
    && (forall t :: t in ids ==> t in order)
    && (forall i, j :: 0 <= i < j < |order| ==> order[i] != order[j])
  }

  ghost predicate ApiEnabled(s: System, p: PublisherId, call: ApiStep) {
    match call
    case Submit(t, _, _) => PublisherAt(s, p).Gone? && t !in s.db
    case RequeueCall(_) => PublisherAt(s, p).Gone?
    case RedispatchCall(_) => PublisherAt(s, p).Gone?
    case Publish(_) => PublisherAt(s, p).Publishing?
    case PublisherCrash => PublisherAt(s, p).Publishing?
  }

  ghost predicate WorkerEnabled(s: System, w: WorkerId, step: WorkerStep) {
    match step
    case Receive(m) => WorkerAt(s, w).Idle? && m in s.broker
    case VisibilityTimeout => !WorkerAt(s, w).Idle?
    case ClaimTask(_) => WorkerAt(s, w).Delivered?
    case Succeed => WorkerAt(s, w).Executing?
    case Fail(failure) => WorkerAt(s, w).Executing? && failure.error != ""
    case FailSelect(failure) => WorkerAt(s, w).Executing? && failure.error != ""
    case FailUpdate => WorkerAt(s, w).FailureRead?
    case SendRetry(_) => WorkerAt(s, w).RetryPending?
    case WorkerCrash => !WorkerAt(s, w).Idle?
  }

  ghost predicate ScanEnabled(s: System, r: ScanId, pass: ScanStep) {
    match pass
    case ScanStart(now, order) => r !in s.scans && now <= s.clock && Lists(order, StaleIds(s.db, now))
    case ReclaimOne => r in s.scans && s.scans[r].pc.Looping? && s.scans[r].remaining != []
    case ScanSelect => r in s.scans && s.scans[r].pc.Looping? && s.scans[r].remaining != []
    case ScanUpdate => r in s.scans && s.scans[r].pc.Selected?
    case Redispatch(_) => r in s.scans && s.scans[r].pc.Redispatching?
    case ScanEnd => r in s.scans && s.scans[r].pc.Looping? && s.scans[r].remaining == []
    case ScanCrash => r in s.scans && !s.scans[r].pc.Finished? && !s.scans[r].pc.Crashed?
  }

  ghost predicate Enabled(s: System, a: Action) {
    match a
    case Tick(to) => s.clock <= to
    case Duplicate(m) => m in s.broker
    case Api(p, call) => ApiEnabled(s, p, call)
    case Work(w, step) => WorkerEnabled(s, w, step)
    case Recover(r, pass) => ScanEnabled(s, r, pass)
  }

  /** What one step changes.  `op` is a transaction against one task; it takes
      effect only if its guard passes.  `strand` is no change: it names the task of
      a publication that failed, was refused or was abandoned. */
  datatype Effect = Effect(
    clock: int,
    op: Option<(TaskId, RowOp)>,
    take: Option<Message>,
    put: Option<Message>,
    worker: Option<(WorkerId, Worker)>,
    publisher: Option<(PublisherId, Publisher)>,
    scan: Option<(ScanId, Scan)>,
    strand: Option<TaskId>)

  function Quiet(s: System): Effect {
    Effect(s.clock, None, None, None, None, None, None, None)
  }

  /** The result of running `op` against the current row of `t`. */
  function Outcome(s: System, t: TaskId, op: RowOp): RowResult {
    ApplyOp(Lookup(s.db, t), op)
  }

  ghost function ApiEffect(s: System, p: PublisherId, call: ApiStep): Effect
    requires ApiEnabled(s, p, call)
  {
    var e := Quiet(s);
    match call
    case Submit(t, priority, maxRetries) =>
      e.(op := Some((t, Create(priority, maxRetries))), publisher := Some((p, Publishing(t, priority))))
    case RequeueCall(t) =>
      if Outcome(s, t, Requeue).Applied?
      then e.(op := Some((t, Requeue)), publisher := Some((p, Publishing(t, s.db[t].task.priority))))
      else e
    case RedispatchCall(t) =>
      if t in s.db && s.db[t].task.status == Queued
      then e.(publisher := Some((p, Publishing(t, s.db[t].task.priority))))
      else e
    case Publish(ok) =>
      var pub := PublisherAt(s, p);
      if ok then e.(publisher := Some((p, Gone)), put := Some(Published(pub.task, pub.priority)))
      else e.(publisher := Some((p, Gone)), strand := Some(pub.task))
    case PublisherCrash =>
      e.(publisher := Some((p, Gone)), strand := Some(PublisherAt(s, p).task))
  }

  ghost function WorkerEffect(c: Config, s: System, w: WorkerId, step: WorkerStep): Effect
    requires WorkerEnabled(s, w, step)
  {
    var e := Quiet(s);
    var k := WorkerAt(s, w);
    match step
    case Receive(m) => e.(take := Some(m), worker := Some((w, Delivered(m))))
    case VisibilityTimeout => e.(put := Some(k.msg))
    case WorkerCrash => e.(worker := Some((w, Idle)), put := Some(k.msg))
    case ClaimTask(hostname) => ClaimEffect(c, s, w, k.msg, hostname)
    case Succeed => e.(op := Some((k.msg.task, Complete(k.attempt, s.clock))), worker := Some((w, Idle)))
    case Fail(failure) =>
      var t := k.msg.task;
      if t in s.db
      then FailureEffect(s, w, k.msg, k.attempt, TakeSnapshot(s.db[t].task), failure.retryable, failure.error, s.clock)
      else e.(worker := Some((w, Idle)))
    case FailSelect(failure) =>
      var t := k.msg.task;
      if t in s.db && s.db[t].task.status == Running
      then e.(worker := Some((w, FailureRead(k.msg, k.attempt, k.lease, TakeSnapshot(s.db[t].task),
                                             failure.retryable, failure.error, s.clock))))
      else e.(worker := Some((w, Idle)))
    case FailUpdate => FailureEffect(s, w, k.msg, k.attempt, k.seen, k.retryable, k.error, k.at)
    case SendRetry(ok) =>
      // Celery refuses a retry whose counter would exceed the limit it was
      // given; a refused or unpublished retry is lost with its delivery.
      if ok && k.msg.retries + 1 <= k.limit
      then e.(worker := Some((w, Idle)), put := Some(k.msg.(retries := k.msg.retries + 1)))
      else e.(worker := Some((w, Idle)), strand := Some(k.msg.task))
  }

  ghost function ScanEffect(s: System, r: ScanId, pass: ScanStep): Effect
    requires ScanEnabled(s, r, pass)
  {
    var e := Quiet(s);
    match pass
    case ScanStart(now, order) => e.(scan := Some((r, Scan(now, order, Looping, [], []))))
    case ReclaimOne =>
      var (t, scan) := NextCandidate(s.scans[r]);
      if t in s.db then ReclaimEffect(s, r, scan, t, TakeSnapshot(s.db[t].task))
      else e.(scan := Some((r, scan)))
    case ScanSelect =>
      var (t, scan) := NextCandidate(s.scans[r]);
      if t in s.db && Stale(s.db[t].task, scan.now)
      then e.(scan := Some((r, scan.(pc := Selected(t, TakeSnapshot(s.db[t].task), |s.db[t].attempts|)))))
      else e.(scan := Some((r, scan)))
    case ScanUpdate =>
      var scan := s.scans[r];
      ReclaimEffect(s, r, scan.(pc := Looping), scan.pc.task, scan.pc.seen)
    case Redispatch(ok) => RedispatchEffect(s, r, s.scans[r], ok)
    case ScanEnd => e.(scan := Some((r, s.scans[r].(pc := Finished))))
    case ScanCrash =>
      var scan := s.scans[r];
      var crashed := e.(scan := Some((r, scan.(remaining := [], pc := Crashed))));
      if scan.pc.Redispatching? then crashed.(strand := Some(scan.pc.pending.task)) else crashed
  }

  ghost function EffectOf(c: Config, s: System, a: Action): Effect
    requires Enabled(s, a)
  {
    match a
    case Tick(to) => Quiet(s).(clock := to)
    case Duplicate(m) => Quiet(s).(put := Some(m))
    case Api(p, call) => ApiEffect(s, p, call)
    case Work(w, step) => WorkerEffect(c, s, w, step)
    case Recover(r, pass) => ScanEffect(s, r, pass)
  }

  /** A delivery reaches its claim: it starts an execution if the task is
      QUEUED, and is acknowledged without effect otherwise. */
  function ClaimEffect(c: Config, s: System, w: WorkerId, m: Message, hostname: string): Effect {
    var op := Claim(hostname, s.clock, c.leaseSeconds);
    if Outcome(s, m.task, op).Applied?
    then Quiet(s).(op := Some((m.task, op)),
                   worker := Some((w, Executing(m, |s.db[m.task].attempts|, s.clock + c.leaseSeconds))))
    else Quiet(s).(worker := Some((w, Idle)))
  }

  /** The failure UPDATE, and the retry request it may raise. */
  function FailureEffect(s: System, w: WorkerId, m: Message, attempt: nat, seen: Snapshot,
                         retryable: bool, error: string, at: int): Effect {
    var op := FinalizeFailure(attempt, seen, retryable, error, at);
    var res := Outcome(s, m.task, op);
    if res.Applied? && res.record.task.status == Queued
    then
      var number := res.record.task.retryCount;
      Quiet(s).(op := Some((m.task, op)),
                worker := Some((w, RetryPending(m, number, seen.maxRetries, RetryCountdown(number)))))
    else Quiet(s).(op := Some((m.task, op)), worker := Some((w, Idle)))
  }

  function NextCandidate(scan: Scan): (TaskId, Scan)
    requires scan.remaining != []
  {
    (scan.remaining[0], scan.(remaining := scan.remaining[1..]))
  }

  /** The reclaim UPDATE.  A task that goes back to QUEUED is redispatched next;
      a dead-lettered one is reported at once. */
  function ReclaimEffect(s: System, r: ScanId, scan: Scan, t: TaskId, seen: Snapshot): Effect {
    var op := Reclaim(seen, scan.now);
    var res := Outcome(s, t, op);
    if res.Applied? then
      var result := ReclaimedTask(t, res.record.task.status, res.record.task.retryCount, false);
      Quiet(s).(op := Some((t, op)),
                scan := Some((r, if result.outcome == Queued then scan.(pc := Redispatching(result))
                                 else scan.(reclaimed := scan.reclaimed + [result]))))
    else Quiet(s).(scan := Some((r, scan)))
  }

  /** A task without a row would be dispatched with MEDIUM priority. */
  function DispatchPriority(db: Database, t: TaskId): Priority {
    if t in db then db[t].task.priority else Medium
  }

  function RedispatchEffect(s: System, r: ScanId, scan: Scan, ok: bool): Effect
    requires scan.pc.Redispatching?
  {
    var pending := scan.pc.pending;
    var e := Quiet(s).(scan := Some((r, scan.(
      pc := Looping,
      reclaimed := scan.reclaimed + [pending.(redispatched := ok)],
      attempted := scan.attempted + [pending.task]))));
    if ok then e.(put := Some(Published(pending.task, DispatchPriority(s.db, pending.task))))
    else e.(strand := Some(pending.task))
  }

  /***** Performing an effect *****/

  /** The operation of an effect, if its guard passes. */
  predicate Commits(s: System, e: Effect) {
    e.op.Some? && Outcome(s, e.op.value.0, e.op.value.1).Applied?
  }

  function CommittedRow(s: System, e: Effect): Record
    requires Commits(s, e)
  {
    Outcome(s, e.op.value.0, e.op.value.1).record
  }

  function NextDb(s: System, e: Effect): Database {
    if e.op.Some? then Commit(s.db, e.op.value.0, e.op.value.1) else s.db
  }

  function HistoryAt(s: System, t: TaskId): History {
    if t in s.hist then s.hist[t] else NO_HISTORY
  }

  function NextHist(s: System, e: Effect): map<TaskId, History> {
    if Commits(s, e) then
      var t := e.op.value.0;
      s.hist[t := Recorded(HistoryAt(s, t), Lookup(s.db, t), e.op.value.1, CommittedRow(s, e))]
    else s.hist
  }

  function NextBroker(s: System, e: Effect): multiset<Message> {
    var left := if e.take.Some? then s.broker - multiset{e.take.value} else s.broker;
    if e.put.Some? then left + multiset{e.put.value} else left
  }

  function NextReclaims(s: System, e: Effect): seq<Committed> {
    if Commits(s, e) && e.op.value.1.Reclaim? && e.scan.Some? then
      var t := e.op.value.0;
      var task := CommittedRow(s, e).task;
      var period := if t in s.db then |s.db[t].attempts| else 0;
      s.reclaims + [Committed(e.scan.value.0, period, ReclaimedTask(t, task.status, task.retryCount, false))]
    else s.reclaims
  }

  function Apply(s: System, e: Effect): System {
    System(
      e.clock,
      NextDb(s, e),
      NextHist(s, e),
      NextBroker(s, e),
      if e.worker.Some? then s.workers[e.worker.value.0 := e.worker.value.1] else s.workers,
      if e.publisher.Some? then s.publishers[e.publisher.value.0 := e.publisher.value.1] else s.publishers,
      if e.scan.Some? then s.scans[e.scan.value.0 := e.scan.value.1] else s.scans,
      NextReclaims(s, e))
  }

  ghost function Next(c: Config, s: System, a: Action): System
    requires Enabled(s, a)
  {
    Apply(s, EffectOf(c, s, a))
  }

  /***** Runs *****/

  ghost predicate CanRun(c: Config, s: System, acts: seq<Action>)
    decreases |acts|
  {
    acts == [] || (Enabled(s, acts[0]) && CanRun(c, Next(c, s, acts[0]), acts[1..]))
  }

  ghost function End(c: Config, s: System, acts: seq<Action>): System
    requires CanRun(c, s, acts)
    decreases |acts|
  {
    if acts == [] then s else End(c, Next(c, s, acts[0]), acts[1..])
  }

  /** Steps that keep every SELECT-then-UPDATE of a failing worker together. */
  predicate Atomic(a: Action) {
    a.Work? ==> !a.step.FailSelect? && !a.step.FailUpdate?
  }
}
