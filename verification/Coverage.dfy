/** No task is lost silently: a QUEUED task always has a message, a delivery or a
    publisher, unless one of its publications failed, was refused or was abandoned
    at the moment nothing else covered it. */
module Coverage {
  import opened Model
  import opened Lifecycle
  import opened Dispatch
  import opened Machine
  import opened Safety

  predicate WorkerCovers(w: Worker, t: TaskId) {
    (w.Delivered? || w.RetryPending?) && w.msg.task == t
  }

  predicate PublisherCovers(p: Publisher, t: TaskId) {
    p.Publishing? && p.task == t
  }

  predicate ScanCovers(scan: Scan, t: TaskId) {
    scan.pc.Redispatching? && scan.pc.pending.task == t
  }

  /** A ready or scheduled message, a delivery before its claim or after a
      committed retry, or a caller or scan about to publish. */
  ghost predicate Covered(s: System, t: TaskId) {
    || (exists m :: m in s.broker && m.task == t)
    || (exists w :: w in s.workers && WorkerCovers(s.workers[w], t))
    || (exists p :: p in s.publishers && PublisherCovers(s.publishers[p], t))
    || (exists r :: r in s.scans && ScanCovers(s.scans[r], t))
  }

  /** The task waits, and nothing will bring it to a worker. */
  ghost predicate Lost(s: System, t: TaskId) {
    Waits(s.db, t) && !Covered(s, t)
  }

  /** The effect may take away what covered the task. */
  ghost predicate Releases(s: System, e: Effect, t: TaskId) {
    || (Commits(s, e) && e.op.value.0 == t)
    || (e.take.Some? && e.take.value.task == t)
    || (e.worker.Some? && WorkerCovers(WorkerAt(s, e.worker.value.0), t))
    || (e.publisher.Some? && PublisherCovers(PublisherAt(s, e.publisher.value.0), t))
    || (e.scan.Some? && e.scan.value.0 in s.scans && ScanCovers(s.scans[e.scan.value.0], t))
  }

  /** The effect puts something in place that covers the task. */
  ghost predicate Places(e: Effect, t: TaskId) {
    || (e.put.Some? && e.put.value.task == t)
    || (e.worker.Some? && WorkerCovers(e.worker.value.1, t))
    || (e.publisher.Some? && PublisherCovers(e.publisher.value.1, t))
    || (e.scan.Some? && ScanCovers(e.scan.value.1, t))
  }

  ghost predicate EffectCovers(s: System, e: Effect) {
    forall t: TaskId :: Waits(NextDb(s, e), t) && Releases(s, e, t) ==> Places(e, t) || e.strand == Some(t)
  }

  lemma PlacedIsCovered(s: System, e: Effect, t: TaskId)
    requires Places(e, t)
    ensures Covered(Apply(s, e), t)
  {
    var n := Apply(s, e);
    if e.put.Some? && e.put.value.task == t {
      assert e.put.value in n.broker;
    } else if e.worker.Some? && WorkerCovers(e.worker.value.1, t) {
      assert e.worker.value.0 in n.workers;
    } else if e.publisher.Some? && PublisherCovers(e.publisher.value.1, t) {
      assert e.publisher.value.0 in n.publishers;
    } else {
      assert e.scan.value.0 in n.scans;
    }
  }

  lemma MessageKeeps(s: System, e: Effect, t: TaskId, m: Message)
    requires m in s.broker && m.task == t && !Releases(s, e, t)
    ensures Covered(Apply(s, e), t)
  {
    assert m in Apply(s, e).broker;
  }

  lemma WorkerKeeps(s: System, e: Effect, t: TaskId, w: WorkerId)
    requires w in s.workers && WorkerCovers(s.workers[w], t) && !Releases(s, e, t)
    ensures Covered(Apply(s, e), t)
  {
    var n := Apply(s, e);
    assert w in n.workers && n.workers[w] == s.workers[w];
  }

  lemma PublisherKeeps(s: System, e: Effect, t: TaskId, p: PublisherId)
    requires p in s.publishers && PublisherCovers(s.publishers[p], t) && !Releases(s, e, t)
    ensures Covered(Apply(s, e), t)
  {
    var n := Apply(s, e);
    assert p in n.publishers && n.publishers[p] == s.publishers[p];
  }

  lemma ScanKeeps(s: System, e: Effect, t: TaskId, r: ScanId)
    requires r in s.scans && ScanCovers(s.scans[r], t) && !Releases(s, e, t)
    ensures Covered(Apply(s, e), t)
  {
    var n := Apply(s, e);
    assert r in n.scans && n.scans[r] == s.scans[r];
  }

  lemma KeptIsCovered(s: System, e: Effect, t: TaskId)
    requires Covered(s, t) && !Releases(s, e, t)
    ensures Covered(Apply(s, e), t)
  {
    if m :| m in s.broker && m.task == t {
      MessageKeeps(s, e, t, m);
    } else if w :| w in s.workers && WorkerCovers(s.workers[w], t) {
      WorkerKeeps(s, e, t, w);
    } else if p :| p in s.publishers && PublisherCovers(s.publishers[p], t) {
      PublisherKeeps(s, e, t, p);
    } else {
      var r :| r in s.scans && ScanCovers(s.scans[r], t);
      ScanKeeps(s, e, t, r);
    }
  }

  lemma ApplyLoses(s: System, e: Effect, t: TaskId)
    requires EffectCovers(s, e) && !Lost(s, t) && Lost(Apply(s, e), t)
    ensures e.strand == Some(t)
  {
    if Places(e, t) {
      PlacedIsCovered(s, e, t);
    } else if !Releases(s, e, t) {
      KeptIsCovered(s, e, t);
    }
  }

  lemma ApiCovers(s: System, p: PublisherId, call: ApiStep)
    requires ApiEnabled(s, p, call)
    ensures EffectCovers(s, ApiEffect(s, p, call))
  {
  }

  lemma FailureCovers(s: System, w: WorkerId, m: Message, k: nat, seen: Snapshot,
                      retryable: bool, error: string, at: int)
    requires !WorkerAt(s, w).Delivered? && !WorkerAt(s, w).RetryPending?
    ensures EffectCovers(s, FailureEffect(s, w, m, k, seen, retryable, error, at))
  {
  }

  lemma ClaimCovers(c: Config, s: System, w: WorkerId, m: Message, hostname: string)
    requires WorkerAt(s, w) == Delivered(m)
    ensures EffectCovers(s, ClaimEffect(c, s, w, m, hostname))
  {
  }

  lemma WorkerStepCovers(c: Config, s: System, w: WorkerId, step: WorkerStep)
    requires WorkerEnabled(s, w, step)
    ensures EffectCovers(s, WorkerEffect(c, s, w, step))
  {
    var k := WorkerAt(s, w);
    match step
    case Receive(_) =>
    case VisibilityTimeout =>
    case ClaimTask(hostname) => ClaimCovers(c, s, w, k.msg, hostname);
    case Succeed =>
    case Fail(failure) =>
      if k.msg.task in s.db {
        FailureCovers(s, w, k.msg, k.attempt, TakeSnapshot(s.db[k.msg.task].task),
                      failure.retryable, failure.error, s.clock);
      }
    case FailSelect(_) =>
    case FailUpdate => FailureCovers(s, w, k.msg, k.attempt, k.seen, k.retryable, k.error, k.at);
    case SendRetry(_) =>
    case WorkerCrash =>
  }

  lemma ScanStepCovers(s: System, r: ScanId, pass: ScanStep)
    requires ScanEnabled(s, r, pass)
    ensures EffectCovers(s, ScanEffect(s, r, pass))
  {
  }

  lemma ActionCovers(c: Config, s: System, a: Action)
    requires Enabled(s, a)
    ensures EffectCovers(s, EffectOf(c, s, a))
  {
    match a
    case Tick(_) =>
    case Duplicate(_) =>
    case Api(p, call) => ApiCovers(s, p, call);
    case Work(w, step) => WorkerStepCovers(c, s, w, step);
    case Recover(r, pass) => ScanStepCovers(s, r, pass);
  }

  /** A step loses a task only by giving up a publication of that very task. */
  lemma StepLoses(c: Config, s: System, a: Action, t: TaskId)
    requires Enabled(s, a) && !Lost(s, t) && Lost(Next(c, s, a), t)
    ensures EffectOf(c, s, a).strand == Some(t)
  {
    ActionCovers(c, s, a);
    ApplyLoses(s, EffectOf(c, s, a), t);
  }

  /** The task is lost in every state of the run. */
  ghost predicate LostThroughout(c: Config, s: System, acts: seq<Action>, t: TaskId)
    requires CanRun(c, s, acts)
    decreases |acts|
  {
    Lost(s, t) && (acts == [] || LostThroughout(c, Next(c, s, acts[0]), acts[1..], t))
  }

  /** Some step of the run gives up a publication of the task, and from then on the
      task is lost. */
  ghost predicate GivenUp(c: Config, s: System, acts: seq<Action>, t: TaskId)
    requires CanRun(c, s, acts)
    decreases |acts|
  {
    acts != [] &&
    var n := Next(c, s, acts[0]);
    || (EffectOf(c, s, acts[0]).strand == Some(t) && LostThroughout(c, n, acts[1..], t))
    || GivenUp(c, n, acts[1..], t)
  }

  lemma {:induction false} RunLoses(c: Config, s: System, acts: seq<Action>, t: TaskId)
    requires CanRun(c, s, acts) && Lost(End(c, s, acts), t)
    ensures LostThroughout(c, s, acts, t) || GivenUp(c, s, acts, t)
    decreases |acts|
  {
    if acts != [] {
      var n := Next(c, s, acts[0]);
      RunLoses(c, n, acts[1..], t);
      if !Lost(s, t) && Lost(n, t) {
        StepLoses(c, s, acts[0], t);
      }
    }
  }

  /** In every reachable state a QUEUED task is covered, unless a publication of
      it was given up at a moment from which on nothing has covered it since. */
  lemma NoTaskSilentlyLost(c: Config, clock: int, acts: seq<Action>, t: TaskId)
    requires CanRun(c, Init(clock), acts)
    ensures Waits(End(c, Init(clock), acts).db, t) ==>
              Covered(End(c, Init(clock), acts), t) || GivenUp(c, Init(clock), acts, t)
  {
    if Lost(End(c, Init(clock), acts), t) {
      RunLoses(c, Init(clock), acts, t);
    }
  }

  /** The only steps that strand a task: a failed, refused or abandoned
      publication. */
  lemma StrandsOnlyByLostPublication(c: Config, s: System, a: Action)
    requires Enabled(s, a) && EffectOf(c, s, a).strand.Some?
    ensures || (a.Api? && (a.call == Publish(false) || a.call.PublisherCrash?))
            || (a.Work? && a.step.SendRetry? &&
                  (a.step.ok ==> WorkerAt(s, a.w).msg.retries + 1 > WorkerAt(s, a.w).limit))
            || (a.Recover? && (a.pass == Redispatch(false) || a.pass.ScanCrash?))
  {
  }

  /** A manual redispatch brings any QUEUED task back: once it has published, a
      message for the task waits on the queue of its priority. */
  lemma RedispatchRescues(c: Config, s: System, p: PublisherId, t: TaskId)
    requires Waits(s.db, t) && PublisherAt(s, p).Gone?
    ensures var acts := [Api(p, RedispatchCall(t)), Api(p, Publish(true))];
            && CanRun(c, s, acts)
            && var end := End(c, s, acts);
               && end.db == s.db
               && end.broker == s.broker + multiset{Published(t, s.db[t].task.priority)}
               && Covered(end, t)
  {
    var a, b := Api(p, RedispatchCall(t)), Api(p, Publish(true));
    var mid := Next(c, s, a);
    assert PublisherAt(mid, p) == Publishing(t, s.db[t].task.priority);
    var end := Next(c, mid, b);
    assert [a, b][1..] == [b];
    assert CanRun(c, end, []);
    assert CanRun(c, mid, [b]) by { assert [b][1..] == []; }
    assert End(c, mid, [b]) == end by { assert [b][1..] == []; }
    assert Published(t, s.db[t].task.priority) in end.broker;
  }
}
