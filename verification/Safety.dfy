/** The invariant of every run, with the SELECT-then-UPDATE pairs split. */
module Safety {
  import opened Model
  import opened Backoff
  import opened Lifecycle
  import opened Dispatch
  import opened Machine

  predicate Waits(db: Database, t: TaskId) {
    t in db && db[t].task.status == Queued
  }

  /** A message names a persisted task and waits on the queue of its priority. */
  ghost predicate MessageOk(db: Database, m: Message) {
    && m.task in db
    && m.queue == QueueForPriority(db[m.task].task.priority)
    && 0 <= m.retries
  }

  ghost predicate WorkerOk(db: Database, w: Worker) {
    match w
    case Idle => true
    case Delivered(m) => MessageOk(db, m)
    case Executing(m, k, _) => MessageOk(db, m) && k < |db[m.task].attempts|
    case FailureRead(m, k, _, seen, _, error, _) =>
      MessageOk(db, m) && k < |db[m.task].attempts| && SeenOk(db[m.task], seen) && error != ""
    case RetryPending(m, number, limit, countdown) =>
      && MessageOk(db, m)
      && 1 <= number <= limit == db[m.task].task.maxRetries
      && countdown.Some? && countdown == RetryCountdown(number)
  }

  ghost predicate PublisherOk(db: Database, p: Publisher) {
    p.Publishing? ==> p.task in db && p.priority == db[p.task].task.priority
  }

  /** If a scan's UPDATE guard would pass, the row has not left the RUNNING
      period its SELECT saw, and the retry count it read is the current one. */
  ghost predicate StillSelected(r: Record, now: int, seen: Snapshot, period: nat) {
    Stale(r.task, now) ==> |r.attempts| == period && seen == TakeSnapshot(r.task)
  }

  ghost predicate ScanOk(clock: int, db: Database, scan: Scan) {
    && scan.now <= clock
    && (forall i :: 0 <= i < |scan.remaining| ==> scan.remaining[i] in db)
    && match scan.pc
       case Selected(t, seen, period) =>
         t in db && SeenOk(db[t], seen) && StillSelected(db[t], scan.now, seen, period)
       case Redispatching(pending) =>
         pending.task in db && pending.outcome == Queued && 1 <= pending.retryCount && !pending.redispatched
       case _ => true
  }

  ghost predicate BrokerOk(db: Database, broker: multiset<Message>) {
    forall m :: m in broker ==> MessageOk(db, m)
  }

  ghost predicate WorkersOk(db: Database, workers: map<WorkerId, Worker>) {
    forall w :: w in workers ==> WorkerOk(db, workers[w])
  }

  ghost predicate PublishersOk(db: Database, publishers: map<PublisherId, Publisher>) {
    forall p :: p in publishers ==> PublisherOk(db, publishers[p])
  }

  ghost predicate ScansOk(clock: int, db: Database, scans: map<ScanId, Scan>) {
    forall r :: r in scans ==> ScanOk(clock, db, scans[r])
  }

  ghost predicate Inv(c: Config, s: System) {
    && s.hist.Keys == s.db.Keys
    && RowsOk(c, s.db)
    && BrokerOk(s.db, s.broker)
    && WorkersOk(s.db, s.workers)
    && PublishersOk(s.db, s.publishers)
    && ScansOk(s.clock, s.db, s.scans)
  }

  /***** One step of the database *****/

  ghost predicate Grows(db: Database, next: Database) {
    forall t :: t in db ==> t in next && Extends(db[t], next[t])
  }

  /** The transaction of an effect is one its process may run. */
  ghost predicate TransactionOk(c: Config, s: System, e: Effect) {
    e.op.Some? ==>
      var (t, op) := e.op.value;
      && OpOk(c.leaseSeconds, Lookup(s.db, t), op)
      && (op.Claim? || op.Complete? ==> op.at == s.clock)
  }

  lemma StepGrows(s: System, e: Effect)
    ensures Grows(s.db, NextDb(s, e))
  {
    forall t | t in s.db ensures t in NextDb(s, e) && Extends(s.db[t], NextDb(s, e)[t]) {
      if Commits(s, e) && t == e.op.value.0 {
        OpExtends(Lookup(s.db, t), e.op.value.1);
      }
    }
  }

  lemma StepKeepsRows(c: Config, s: System, e: Effect)
    requires RowsOk(c, s.db) && TransactionOk(c, s, e)
    ensures RowsOk(c, Apply(s, e).db)
  {
    if Commits(s, e) {
      OpKeepsRow(c.leaseSeconds, Lookup(s.db, e.op.value.0), e.op.value.1);
    }
  }

  lemma MessageStays(db: Database, next: Database, m: Message)
    requires Grows(db, next) && MessageOk(db, m)
    ensures MessageOk(next, m)
  {
    assert Extends(db[m.task], next[m.task]);
  }

  lemma WorkerStays(db: Database, next: Database, w: Worker)
    requires Grows(db, next) && WorkerOk(db, w)
    ensures WorkerOk(next, w)
  {
    if !w.Idle? {
      MessageStays(db, next, w.msg);
      assert Extends(db[w.msg.task], next[w.msg.task]);
    }
  }

  lemma PublisherStays(db: Database, next: Database, p: Publisher)
    requires Grows(db, next) && PublisherOk(db, p)
    ensures PublisherOk(next, p)
  {
    if p.Publishing? {
      assert Extends(db[p.task], next[p.task]);
    }
  }

  /** A selection survives every step of anyone: the row is untouched, no longer
      running, or claimed after the scan read its clock. */
  lemma ScanStays(c: Config, s: System, e: Effect, scan: Scan)
    requires TransactionOk(c, s, e) && s.clock <= e.clock
    requires ScanOk(s.clock, s.db, scan)
    ensures ScanOk(e.clock, NextDb(s, e), scan)
  {
    StepGrows(s, e);
    if scan.pc.Selected? {
      var t := scan.pc.task;
      assert Extends(s.db[t], NextDb(s, e)[t]);
      if Commits(s, e) && t == e.op.value.0 {
        AppliedIsNotStale(c.leaseSeconds, Lookup(s.db, t), e.op.value.1, scan.now);
      }
    }
  }

  /***** One step of the processes *****/

  /** Everything an effect newly puts somewhere is in order. */
  ghost predicate EffectOk(c: Config, s: System, e: Effect) {
    var db := NextDb(s, e);
    && TransactionOk(c, s, e)
    && s.clock <= e.clock
    && (e.put.Some? ==> MessageOk(db, e.put.value))
    && (e.worker.Some? ==> WorkerOk(db, e.worker.value.1))
    && (e.publisher.Some? ==> PublisherOk(db, e.publisher.value.1))
    && (e.scan.Some? ==> ScanOk(e.clock, db, e.scan.value.1))
  }

  lemma ApplyKeepsKeys(s: System, e: Effect)
    requires s.hist.Keys == s.db.Keys
    ensures Apply(s, e).hist.Keys == Apply(s, e).db.Keys
  {
  }

  lemma ApplyKeepsBroker(s: System, e: Effect)
    requires BrokerOk(s.db, s.broker)
    requires e.put.Some? ==> MessageOk(NextDb(s, e), e.put.value)
    ensures BrokerOk(Apply(s, e).db, Apply(s, e).broker)
  {
    var db := NextDb(s, e);
    StepGrows(s, e);
    forall m | m in NextBroker(s, e) ensures MessageOk(db, m) {
      if m in s.broker { MessageStays(s.db, db, m); }
    }
  }

  lemma ApplyKeepsWorkers(s: System, e: Effect)
    requires WorkersOk(s.db, s.workers)
    requires e.worker.Some? ==> WorkerOk(NextDb(s, e), e.worker.value.1)
    ensures WorkersOk(Apply(s, e).db, Apply(s, e).workers)
  {
    var db := NextDb(s, e);
    StepGrows(s, e);
    forall w | w in s.workers ensures WorkerOk(db, s.workers[w]) {
      WorkerStays(s.db, db, s.workers[w]);
    }
  }

  lemma ApplyKeepsPublishers(s: System, e: Effect)
    requires PublishersOk(s.db, s.publishers)
    requires e.publisher.Some? ==> PublisherOk(NextDb(s, e), e.publisher.value.1)
    ensures PublishersOk(Apply(s, e).db, Apply(s, e).publishers)
  {
    var db := NextDb(s, e);
    StepGrows(s, e);
    forall p | p in s.publishers ensures PublisherOk(db, s.publishers[p]) {
      PublisherStays(s.db, db, s.publishers[p]);
    }
  }

  lemma ApplyKeepsScans(c: Config, s: System, e: Effect)
    requires TransactionOk(c, s, e) && s.clock <= e.clock && ScansOk(s.clock, s.db, s.scans)
    requires e.scan.Some? ==> ScanOk(e.clock, NextDb(s, e), e.scan.value.1)
    ensures ScansOk(Apply(s, e).clock, Apply(s, e).db, Apply(s, e).scans)
  {
    forall r | r in s.scans ensures ScanOk(e.clock, NextDb(s, e), s.scans[r]) {
      ScanStays(c, s, e, s.scans[r]);
    }
  }

  lemma ApplyKeepsInv(c: Config, s: System, e: Effect)
    requires Inv(c, s) && EffectOk(c, s, e)
    ensures Inv(c, Apply(s, e))
  {
    ApplyKeepsKeys(s, e);
    StepKeepsRows(c, s, e);
    ApplyKeepsBroker(s, e);
    ApplyKeepsWorkers(s, e);
    ApplyKeepsPublishers(s, e);
    ApplyKeepsScans(c, s, e);
  }

  lemma ApiEffectOk(c: Config, s: System, p: PublisherId, call: ApiStep)
    requires Inv(c, s) && ApiEnabled(s, p, call)
    ensures EffectOk(c, s, ApiEffect(s, p, call))
  {
    if call.Publish? {
      assert PublisherOk(s.db, PublisherAt(s, p));
    }
  }

  lemma FailureEffectOk(c: Config, s: System, w: WorkerId, m: Message, k: nat, seen: Snapshot,
                        retryable: bool, error: string, at: int)
    requires MessageOk(s.db, m) && SeenOk(s.db[m.task], seen) && error != ""
    ensures EffectOk(c, s, FailureEffect(s, w, m, k, seen, retryable, error, at))
  {
    var e := FailureEffect(s, w, m, k, seen, retryable, error, at);
    StepGrows(s, e);
    MessageStays(s.db, NextDb(s, e), m);
  }

  lemma ClaimEffectOk(c: Config, s: System, w: WorkerId, m: Message, hostname: string)
    requires MessageOk(s.db, m)
    ensures EffectOk(c, s, ClaimEffect(c, s, w, m, hostname))
  {
    var e := ClaimEffect(c, s, w, m, hostname);
    StepGrows(s, e);
    MessageStays(s.db, NextDb(s, e), m);
  }

  lemma FailOk(c: Config, s: System, w: WorkerId, step: WorkerStep)
    requires Inv(c, s) && WorkerEnabled(s, w, step) && (step.Fail? || step.FailUpdate?)
    ensures EffectOk(c, s, WorkerEffect(c, s, w, step))
  {
    var k := WorkerAt(s, w);
    assert WorkerOk(s.db, k);
    if step.Fail? {
      assert RowInv(c.leaseSeconds, s.db[k.msg.task]);
      FailureEffectOk(c, s, w, k.msg, k.attempt, TakeSnapshot(s.db[k.msg.task].task),
                      step.failure.retryable, step.failure.error, s.clock);
    } else {
      FailureEffectOk(c, s, w, k.msg, k.attempt, k.seen, k.retryable, k.error, k.at);
    }
  }

  lemma FailSelectOk(c: Config, s: System, w: WorkerId, step: WorkerStep)
    requires Inv(c, s) && WorkerEnabled(s, w, step) && step.FailSelect?
    ensures EffectOk(c, s, WorkerEffect(c, s, w, step))
  {
    var k := WorkerAt(s, w);
    assert WorkerOk(s.db, k);
    assert RowInv(c.leaseSeconds, s.db[k.msg.task]);
  }

  lemma WorkerEffectOk(c: Config, s: System, w: WorkerId, step: WorkerStep)
    requires Inv(c, s) && WorkerEnabled(s, w, step)
    ensures EffectOk(c, s, WorkerEffect(c, s, w, step))
  {
    var k := WorkerAt(s, w);
    assert WorkerOk(s.db, k);
    match step
    case Receive(m) =>
    case VisibilityTimeout =>
    case ClaimTask(hostname) => ClaimEffectOk(c, s, w, k.msg, hostname);
    case Succeed =>
    case Fail(_) => FailOk(c, s, w, step);
    case FailSelect(_) => FailSelectOk(c, s, w, step);
    case FailUpdate => FailOk(c, s, w, step);
    case SendRetry(_) =>
    case WorkerCrash =>
  }

  lemma ReclaimEffectOk(c: Config, s: System, r: ScanId, scan: Scan, t: TaskId, seen: Snapshot)
    requires t in s.db && SeenOk(s.db[t], seen)
    requires scan.pc.Looping? && ScanOk(s.clock, s.db, scan)
    ensures EffectOk(c, s, ReclaimEffect(s, r, scan, t, seen))
  {
    StepGrows(s, ReclaimEffect(s, r, scan, t, seen));
  }

  lemma ReclaimOk(c: Config, s: System, r: ScanId, pass: ScanStep)
    requires Inv(c, s) && ScanEnabled(s, r, pass) && (pass.ReclaimOne? || pass.ScanUpdate?)
    ensures EffectOk(c, s, ScanEffect(s, r, pass))
  {
    var scan := s.scans[r];
    assert ScanOk(s.clock, s.db, scan);
    if pass.ReclaimOne? {
      var (t, rest) := NextCandidate(scan);
      assert RowInv(c.leaseSeconds, s.db[t]);
      ReclaimEffectOk(c, s, r, rest, t, TakeSnapshot(s.db[t].task));
    } else {
      ReclaimEffectOk(c, s, r, scan.(pc := Looping), scan.pc.task, scan.pc.seen);
    }
  }

  lemma ScanEffectOk(c: Config, s: System, r: ScanId, pass: ScanStep)
    requires Inv(c, s) && ScanEnabled(s, r, pass)
    ensures EffectOk(c, s, ScanEffect(s, r, pass))
  {
    if !pass.ScanStart? {
      assert ScanOk(s.clock, s.db, s.scans[r]);
    }
    match pass
    case ScanStart(_, _) =>
    case ReclaimOne => ReclaimOk(c, s, r, pass);
    case ScanSelect =>
      assert RowInv(c.leaseSeconds, s.db[s.scans[r].remaining[0]]);
    case ScanUpdate => ReclaimOk(c, s, r, pass);
    case Redispatch(_) =>
    case ScanEnd =>
    case ScanCrash =>
  }

  lemma ActionEffectOk(c: Config, s: System, a: Action)
    requires Inv(c, s) && Enabled(s, a)
    ensures EffectOk(c, s, EffectOf(c, s, a))
  {
    match a
    case Tick(_) =>
    case Duplicate(_) =>
    case Api(p, call) => ApiEffectOk(c, s, p, call);
    case Work(w, step) => WorkerEffectOk(c, s, w, step);
    case Recover(r, pass) => ScanEffectOk(c, s, r, pass);
  }

  lemma StepKeepsInv(c: Config, s: System, a: Action)
    requires Inv(c, s) && Enabled(s, a)
    ensures Inv(c, Next(c, s, a))
  {
    ActionEffectOk(c, s, a);
    ApplyKeepsInv(c, s, EffectOf(c, s, a));
  }

  lemma {:induction false} RunKeepsInv(c: Config, s: System, acts: seq<Action>)
    requires Inv(c, s) && CanRun(c, s, acts)
    ensures Inv(c, End(c, s, acts))
    decreases |acts|
  {
    if acts != [] {
      StepKeepsInv(c, s, acts[0]);
      RunKeepsInv(c, Next(c, s, acts[0]), acts[1..]);
    }
  }

  /** Every state any run can reach satisfies the invariant. */
  lemma Reachable(c: Config, clock: int, acts: seq<Action>)
    requires CanRun(c, Init(clock), acts)
    ensures Inv(c, End(c, Init(clock), acts))
  {
    RunKeepsInv(c, Init(clock), acts);
  }
}
