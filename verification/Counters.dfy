/** Celery's retry counter and the task's own.  In a run without outdated failures,
    the broker's counter never runs ahead for a task never requeued, so a retry that
    was committed is never refused. */
module Counters {
  import opened Model
  import opened Lifecycle
  import opened Ledger
  import opened Dispatch
  import opened Machine
  import opened Safety
  import opened Accounting

  type Histories = map<TaskId, History>

  ghost predicate NeverRequeued(hist: Histories, t: TaskId) {
    t in hist && hist[t].requeues == 0
  }

  ghost predicate Behind(db: Database, hist: Histories, m: Message) {
    m.task in db && (NeverRequeued(hist, m.task) ==> m.retries <= db[m.task].task.retryCount)
  }

  ghost predicate WorkerBehind(db: Database, hist: Histories, w: Worker) {
    !w.Idle? ==>
      && Behind(db, hist, w.msg)
      && (w.RetryPending? && NeverRequeued(hist, w.msg.task) ==>
            w.msg.retries + 1 <= w.number <= db[w.msg.task].task.retryCount)
  }

  ghost predicate BrokerBehind(db: Database, hist: Histories, broker: multiset<Message>) {
    forall m :: m in broker ==> Behind(db, hist, m)
  }

  ghost predicate WorkersBehind(db: Database, hist: Histories, workers: map<WorkerId, Worker>) {
    forall w :: w in workers ==> WorkerBehind(db, hist, workers[w])
  }

  ghost predicate CounterInv(s: System) {
    BrokerBehind(s.db, s.hist, s.broker) && WorkersBehind(s.db, s.hist, s.workers)
  }

  /** Within the first epoch a task's retry count only rises. */
  ghost predicate Rises(s: System, e: Effect) {
    forall t :: t in s.db ==>
      && t in NextDb(s, e)
      && (NeverRequeued(NextHist(s, e), t) ==>
            NeverRequeued(s.hist, t) && s.db[t].task.retryCount <= NextDb(s, e)[t].task.retryCount)
  }

  lemma OpRises(leaseSeconds: int, r: Record, h: History, op: RowOp)
    requires RowInv(leaseSeconds, r) && Fresh(r, op)
    ensures var res := ApplyOp(Some(r), op);
            res.Applied? && Recorded(h, Some(r), op, res.record).requeues == 0 ==>
              h.requeues == 0 && r.task.retryCount <= res.record.task.retryCount
  {
  }

  lemma ApplyRises(c: Config, s: System, e: Effect)
    requires RowsOk(c, s.db) && s.hist.Keys == s.db.Keys && FreshEffect(s, e)
    ensures Rises(s, e)
  {
    if Commits(s, e) && e.op.value.0 in s.db {
      var (t, op) := e.op.value;
      OpRises(c.leaseSeconds, s.db[t], s.hist[t], op);
    }
  }

  ghost predicate EffectBehind(s: System, e: Effect) {
    && (e.put.Some? ==> Behind(NextDb(s, e), NextHist(s, e), e.put.value))
    && (e.worker.Some? ==> WorkerBehind(NextDb(s, e), NextHist(s, e), e.worker.value.1))
  }

  lemma BrokerStaysBehind(s: System, e: Effect)
    requires BrokerBehind(s.db, s.hist, s.broker) && Rises(s, e) && EffectBehind(s, e)
    ensures BrokerBehind(Apply(s, e).db, Apply(s, e).hist, Apply(s, e).broker)
  {
  }

  lemma WorkersStayBehind(s: System, e: Effect)
    requires WorkersBehind(s.db, s.hist, s.workers) && Rises(s, e) && EffectBehind(s, e)
    ensures WorkersBehind(Apply(s, e).db, Apply(s, e).hist, Apply(s, e).workers)
  {
  }

  lemma ApplyKeepsCounters(s: System, e: Effect)
    requires CounterInv(s) && Rises(s, e) && EffectBehind(s, e)
    ensures CounterInv(Apply(s, e))
  {
    BrokerStaysBehind(s, e);
    WorkersStayBehind(s, e);
  }

  lemma ApiBehind(c: Config, s: System, p: PublisherId, call: ApiStep)
    requires Inv(c, s) && ApiEnabled(s, p, call)
    ensures EffectBehind(s, ApiEffect(s, p, call))
  {
    if call.Publish? {
      assert PublisherOk(s.db, PublisherAt(s, p));
    }
  }

  lemma FailureBehind(c: Config, s: System, w: WorkerId, m: Message, k: nat, retryable: bool, error: string, at: int)
    requires Inv(c, s) && Behind(s.db, s.hist, m)
    ensures EffectBehind(s, FailureEffect(s, w, m, k, TakeSnapshot(s.db[m.task].task), retryable, error, at))
  {
  }

  lemma FailUpdateBehind(c: Config, s: System, w: WorkerId)
    requires Inv(c, s) && CounterInv(s) && WorkerEnabled(s, w, FailUpdate) && !Outdated(s, Work(w, FailUpdate))
    ensures EffectBehind(s, WorkerEffect(c, s, w, FailUpdate))
  {
    var k := WorkerAt(s, w);
    assert WorkerOk(s.db, k) && WorkerBehind(s.db, s.hist, k);
    if s.db[k.msg.task].task.status == Running {
      FailureBehind(c, s, w, k.msg, k.attempt, k.retryable, k.error, k.at);
    }
  }

  lemma ClaimBehind(c: Config, s: System, w: WorkerId, m: Message, hostname: string)
    requires Inv(c, s) && Behind(s.db, s.hist, m)
    ensures EffectBehind(s, ClaimEffect(c, s, w, m, hostname))
  {
  }

  lemma WorkerStepBehind(c: Config, s: System, w: WorkerId, step: WorkerStep)
    requires Inv(c, s) && CounterInv(s) && WorkerEnabled(s, w, step) && !Outdated(s, Work(w, step))
    ensures EffectBehind(s, WorkerEffect(c, s, w, step))
  {
    var k := WorkerAt(s, w);
    assert WorkerBehind(s.db, s.hist, k);
    match step
    case Receive(_) =>
    case VisibilityTimeout =>
    case ClaimTask(hostname) => ClaimBehind(c, s, w, k.msg, hostname);
    case Succeed =>
    case Fail(failure) =>
      FailureBehind(c, s, w, k.msg, k.attempt, failure.retryable, failure.error, s.clock);
    case FailSelect(_) =>
    case FailUpdate => FailUpdateBehind(c, s, w);
    case SendRetry(_) =>
    case WorkerCrash =>
  }

  lemma ScanStepBehind(c: Config, s: System, r: ScanId, pass: ScanStep)
    requires Inv(c, s) && ScanEnabled(s, r, pass)
    ensures EffectBehind(s, ScanEffect(s, r, pass))
  {
    if pass.Redispatch? {
      assert ScanOk(s.clock, s.db, s.scans[r]);
    }
  }

  lemma ActionBehind(c: Config, s: System, a: Action)
    requires Inv(c, s) && CounterInv(s) && Enabled(s, a) && !Outdated(s, a)
    ensures EffectBehind(s, EffectOf(c, s, a))
  {
    match a
    case Tick(_) =>
    case Duplicate(_) =>
    case Api(p, call) => ApiBehind(c, s, p, call);
    case Work(w, step) => WorkerStepBehind(c, s, w, step);
    case Recover(r, pass) => ScanStepBehind(c, s, r, pass);
  }

  lemma {:induction false} RunKeepsCounters(c: Config, s: System, acts: seq<Action>)
    requires Inv(c, s) && CounterInv(s) && CanRun(c, s, acts) && CurrentRun(c, s, acts)
    ensures CounterInv(End(c, s, acts))
    decreases |acts|
  {
    if acts != [] {
      var e := EffectOf(c, s, acts[0]);
      CurrentIsFresh(c, s, acts[0]);
      ActionBehind(c, s, acts[0]);
      ApplyRises(c, s, e);
      ApplyKeepsCounters(s, e);
      StepKeepsInv(c, s, acts[0]);
      RunKeepsCounters(c, Next(c, s, acts[0]), acts[1..]);
    }
  }

  /** A worker with a committed retry of a task never requeued: its counter is
      below the retry it asks for, and handing it to Celery publishes it on the
      queue it came from. */
  ghost predicate RetryIsSent(c: Config, s: System, w: WorkerId) {
    var k := WorkerAt(s, w);
    k.RetryPending? && NeverRequeued(s.hist, k.msg.task) ==>
      && k.msg.task in s.db
      && k.msg.retries < k.number <= s.db[k.msg.task].task.retryCount <= k.limit
      && WorkerEffect(c, s, w, SendRetry(true)).put == Some(Message(k.msg.task, k.msg.queue, k.msg.retries + 1))
  }

  lemma BehindIsSent(c: Config, s: System, w: WorkerId)
    requires Inv(c, s) && CounterInv(s)
    ensures RetryIsSent(c, s, w)
  {
    var k := WorkerAt(s, w);
    if k.RetryPending? && NeverRequeued(s.hist, k.msg.task) {
      assert WorkerOk(s.db, k) && WorkerBehind(s.db, s.hist, k);
      assert RowInv(c.leaseSeconds, s.db[k.msg.task]);
    }
  }

  lemma CommittedRetryIsPublished(c: Config, clock: int, acts: seq<Action>, w: WorkerId)
    requires CanRun(c, Init(clock), acts) && CurrentRun(c, Init(clock), acts)
    ensures RetryIsSent(c, End(c, Init(clock), acts), w)
  {
    Reachable(c, clock, acts);
    RunKeepsCounters(c, Init(clock), acts);
    BehindIsSent(c, End(c, Init(clock), acts), w);
  }

  /** The hand-off of a committed retry succeeds if and only if the delivery's own
      counter is still below the task's limit; otherwise Celery refuses it and the
      publication is given up. */
  ghost predicate SentExactlyBelowLimit(c: Config, s: System, w: WorkerId) {
    var k := WorkerAt(s, w);
    k.RetryPending? ==>
      && k.msg.task in s.db
      && var e := WorkerEffect(c, s, w, SendRetry(true));
         && (e.put.Some? <==> k.msg.retries < s.db[k.msg.task].task.maxRetries)
         && (e.put.None? <==> e.strand == Some(k.msg.task))
  }

  lemma PendingIsSentIff(c: Config, s: System, w: WorkerId)
    requires Inv(c, s)
    ensures SentExactlyBelowLimit(c, s, w)
  {
    assert WorkerOk(s.db, WorkerAt(s, w));
  }

  /** In general, after requeues and with all transactions split. */
  lemma RetryIsSentIff(c: Config, clock: int, acts: seq<Action>, w: WorkerId)
    requires CanRun(c, Init(clock), acts)
    ensures SentExactlyBelowLimit(c, End(c, Init(clock), acts), w)
  {
    Reachable(c, clock, acts);
    PendingIsSentIff(c, End(c, Init(clock), acts), w);
  }
}
