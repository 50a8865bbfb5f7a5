/** Timed mutual exclusion.  The UPDATE of an outcome checks the status only, not
    which attempt owns the run; what keeps attempts apart is the lease.  As long
    as no worker is still executing past its own lease, every outcome lands on
    the current attempt, and all accounts stay exact even when the failure
    transaction is split. */
module Exclusion {
  import opened Model
  import opened Lifecycle
  import opened Dispatch
  import opened Machine
  import opened Safety
  import opened Accounting

  /** A live worker between its claim and the commit of its outcome. */
  predicate Live(w: Worker) {
    w.Executing? || w.FailureRead?
  }

  /** The worker's attempt is the task's current one, under the task's lease. */
  ghost predicate Owns(db: Database, w: Worker) {
    Live(w) ==>
      && w.msg.task in db
      && var r := db[w.msg.task];
         && r.task.status == Running
         && |r.attempts| == w.attempt + 1
         && r.task.leaseExpiresAt == Some(w.lease)
         && (w.FailureRead? ==> w.seen == TakeSnapshot(r.task))
  }

  /** Exactly the newest attempt is open while the task runs; otherwise none. */
  ghost predicate OpenExactly(r: Record) {
    forall i :: 0 <= i < |r.attempts| ==>
      (r.attempts[i].finishedAt.None? <==> r.task.status == Running && i == |r.attempts| - 1)
  }

  ghost predicate RowsOpenExactly(db: Database) {
    forall t :: t in db ==> OpenExactly(db[t])
  }

  ghost predicate AllOwn(db: Database, workers: map<WorkerId, Worker>) {
    forall w :: w in workers ==> Owns(db, workers[w])
  }

  ghost predicate Apart(a: Worker, b: Worker) {
    Live(a) && Live(b) ==> a.msg.task != b.msg.task
  }

  ghost predicate AllApart(workers: map<WorkerId, Worker>) {
    forall v, w :: v in workers && w in workers && v != w ==> Apart(workers[v], workers[w])
  }

  ghost predicate LiveInv(s: System) {
    RowsOpenExactly(s.db) && AllOwn(s.db, s.workers) && AllApart(s.workers)
  }

  /** No live worker is past its own lease. */
  ghost predicate Timely(s: System) {
    forall w :: w in s.workers && Live(s.workers[w]) ==> s.clock <= s.workers[w].lease
  }

  ghost predicate TimelyRun(c: Config, s: System, acts: seq<Action>)
    requires CanRun(c, s, acts)
    decreases |acts|
  {
    acts == [] || (Timely(s) && TimelyRun(c, Next(c, s, acts[0]), acts[1..]))
  }

  /***** One operation *****/

  /** The operation hits the current attempt, if it hits one. */
  ghost predicate OnCurrent(r: Record, op: RowOp) {
    (op.Complete? || op.FinalizeFailure?) && r.task.status == Running ==> op.attempt + 1 == |r.attempts|
  }

  lemma OpOpensExactly(leaseSeconds: int, row: Option<Record>, op: RowOp)
    requires row.Some? ==> RowInv(leaseSeconds, row.value) && OpenExactly(row.value) && OnCurrent(row.value, op)
    ensures var res := ApplyOp(row, op); res.Applied? ==> OpenExactly(res.record)
  {
    if row.Some? && row.value.task.status == Running {
      LatestOpenIsLast(leaseSeconds, row.value);
    }
  }

  /***** One effect *****/

  /** Which transactions an effect may run: an outcome only by the live worker
      that owns the attempt, a claim only from QUEUED, a reclaim only when the
      lease is over. */
  ghost predicate OwnedEffect(s: System, e: Effect) {
    && (Commits(s, e) ==>
          var (t, op) := e.op.value;
          match op
          case Complete(k, _) => ByOwner(s, e, t, k)
          case FinalizeFailure(k, _, _, _, _) => ByOwner(s, e, t, k)
          case Reclaim(_, now) => now <= s.clock
          case _ => true)
    && (e.worker.Some? && Live(e.worker.value.1) ==>
          && Owns(NextDb(s, e), e.worker.value.1)
          && ((Live(WorkerAt(s, e.worker.value.0)) && WorkerAt(s, e.worker.value.0).msg == e.worker.value.1.msg)
              || Waits(s.db, e.worker.value.1.msg.task)))
  }

  ghost predicate ByOwner(s: System, e: Effect, t: TaskId, k: nat) {
    && e.worker.Some?
    && var w := WorkerAt(s, e.worker.value.0);
       && Live(w) && w.msg.task == t && w.attempt == k
       && !Live(e.worker.value.1)
  }

  lemma ApplyOpensExactly(c: Config, s: System, e: Effect)
    requires RowsOk(c, s.db) && RowsOpenExactly(s.db) && AllOwn(s.db, s.workers) && OwnedEffect(s, e)
    ensures RowsOpenExactly(NextDb(s, e))
  {
    if Commits(s, e) {
      var (t, op) := e.op.value;
      if t in s.db && e.worker.Some? && e.worker.value.0 in s.workers {
        assert Owns(s.db, s.workers[e.worker.value.0]);
      }
      OpOpensExactly(c.leaseSeconds, Lookup(s.db, t), op);
    }
  }

  /** A live worker keeps its run through every step of the others. */
  lemma OtherStaysOwner(s: System, e: Effect, w: WorkerId)
    requires w in s.workers && AllOwn(s.db, s.workers) && AllApart(s.workers)
    requires Timely(s) && OwnedEffect(s, e)
    requires e.worker.None? || e.worker.value.0 != w
    ensures Owns(NextDb(s, e), s.workers[w])
  {
    var k := s.workers[w];
    assert Owns(s.db, k);
    if Live(k) {
      assert s.clock <= k.lease;
    }
    if e.worker.Some? && e.worker.value.0 in s.workers {
      assert Apart(s.workers[e.worker.value.0], k);
    }
  }

  lemma ApplyKeepsOwners(s: System, e: Effect)
    requires AllOwn(s.db, s.workers) && AllApart(s.workers) && Timely(s) && OwnedEffect(s, e)
    ensures AllOwn(NextDb(s, e), Apply(s, e).workers)
  {
    forall w | w in Apply(s, e).workers ensures Owns(NextDb(s, e), Apply(s, e).workers[w]) {
      if e.worker.None? || e.worker.value.0 != w {
        OtherStaysOwner(s, e, w);
      }
    }
  }

  lemma ApplyKeepsApart(s: System, e: Effect)
    requires AllOwn(s.db, s.workers) && AllApart(s.workers) && OwnedEffect(s, e)
    ensures AllApart(Apply(s, e).workers)
  {
    if e.worker.Some? && Live(e.worker.value.1) {
      var (v, k) := e.worker.value;
      forall w | w in s.workers && w != v ensures Apart(k, s.workers[w]) {
        assert Owns(s.db, s.workers[w]);
        if Live(WorkerAt(s, v)) {
          assert Apart(s.workers[v], s.workers[w]);
        }
      }
    }
  }

  lemma ApplyKeepsLive(c: Config, s: System, e: Effect)
    requires RowsOk(c, s.db) && LiveInv(s) && Timely(s) && OwnedEffect(s, e)
    ensures LiveInv(Apply(s, e))
  {
    ApplyOpensExactly(c, s, e);
    ApplyKeepsOwners(s, e);
    ApplyKeepsApart(s, e);
  }

  /***** The steps *****/

  lemma ClaimOwned(c: Config, s: System, w: WorkerId, m: Message, hostname: string)
    requires Inv(c, s) && MessageOk(s.db, m)
    ensures OwnedEffect(s, ClaimEffect(c, s, w, m, hostname))
  {
  }

  lemma FailureOwned(s: System, w: WorkerId, seen: Snapshot, retryable: bool, error: string, at: int)
    requires Live(WorkerAt(s, w))
    ensures var k := WorkerAt(s, w);
            OwnedEffect(s, FailureEffect(s, w, k.msg, k.attempt, seen, retryable, error, at))
  {
  }

  lemma SucceedOwned(c: Config, s: System, w: WorkerId)
    requires WorkerEnabled(s, w, Succeed)
    ensures OwnedEffect(s, WorkerEffect(c, s, w, Succeed))
  {
  }

  lemma FailOwned(c: Config, s: System, w: WorkerId, step: WorkerStep)
    requires Inv(c, s) && WorkerEnabled(s, w, step) && (step.Fail? || step.FailUpdate?)
    ensures OwnedEffect(s, WorkerEffect(c, s, w, step))
  {
    var k := WorkerAt(s, w);
    assert WorkerOk(s.db, k);
    if step.Fail? {
      FailureOwned(s, w, TakeSnapshot(s.db[k.msg.task].task), step.failure.retryable, step.failure.error, s.clock);
    } else {
      FailureOwned(s, w, k.seen, k.retryable, k.error, k.at);
    }
  }

  lemma FailSelectOwned(c: Config, s: System, w: WorkerId, step: WorkerStep)
    requires LiveInv(s) && WorkerEnabled(s, w, step) && step.FailSelect?
    ensures OwnedEffect(s, WorkerEffect(c, s, w, step))
  {
    assert Owns(s.db, WorkerAt(s, w));
  }

  /** Deliveries, retry hand-offs and crashes run no transaction. */
  lemma HandlingOwned(c: Config, s: System, w: WorkerId, step: WorkerStep)
    requires WorkerEnabled(s, w, step)
    requires step.Receive? || step.VisibilityTimeout? || step.SendRetry? || step.WorkerCrash?
    ensures OwnedEffect(s, WorkerEffect(c, s, w, step))
  {
  }

  lemma ClaimStepOwned(c: Config, s: System, w: WorkerId, step: WorkerStep)
    requires Inv(c, s) && WorkerEnabled(s, w, step) && step.ClaimTask?
    ensures OwnedEffect(s, WorkerEffect(c, s, w, step))
  {
    var k := WorkerAt(s, w);
    assert WorkerOk(s.db, k);
    ClaimOwned(c, s, w, k.msg, step.hostname);
  }

  lemma WorkerOwned(c: Config, s: System, w: WorkerId, step: WorkerStep)
    requires Inv(c, s) && LiveInv(s) && WorkerEnabled(s, w, step)
    ensures OwnedEffect(s, WorkerEffect(c, s, w, step))
  {
    if step.ClaimTask? {
      ClaimStepOwned(c, s, w, step);
    } else if step.Succeed? {
      SucceedOwned(c, s, w);
    } else if step.FailSelect? {
      FailSelectOwned(c, s, w, step);
    } else if step.Fail? || step.FailUpdate? {
      FailOwned(c, s, w, step);
    } else {
      HandlingOwned(c, s, w, step);
    }
  }

  lemma ScanOwned(c: Config, s: System, r: ScanId, pass: ScanStep)
    requires Inv(c, s) && ScanEnabled(s, r, pass)
    ensures OwnedEffect(s, ScanEffect(s, r, pass))
  {
    if !pass.ScanStart? {
      assert ScanOk(s.clock, s.db, s.scans[r]);
    }
  }

  lemma EnvironmentOwned(c: Config, s: System, a: Action)
    requires Enabled(s, a) && !a.Work? && !a.Recover?
    ensures OwnedEffect(s, EffectOf(c, s, a))
  {
  }

  lemma ActionOwned(c: Config, s: System, a: Action)
    requires Inv(c, s) && LiveInv(s) && Enabled(s, a)
    ensures OwnedEffect(s, EffectOf(c, s, a))
  {
    if a.Work? {
      WorkerOwned(c, s, a.w, a.step);
    } else if a.Recover? {
      ScanOwned(c, s, a.r, a.pass);
    } else {
      EnvironmentOwned(c, s, a);
    }
  }

  /** With the owner in charge, even a split failure acts on the current count. */
  lemma OwnedIsCurrent(s: System, a: Action)
    requires LiveInv(s) && Enabled(s, a)
    ensures !Outdated(s, a)
  {
    if a.Work? && a.w in s.workers {
      assert Owns(s.db, s.workers[a.w]);
    }
  }

  /** A timely run keeps every live worker the owner of its run, and no failure in
      it acts on an outdated retry count. */
  lemma {:induction false} TimelyRunKeeps(c: Config, s: System, acts: seq<Action>)
    requires Inv(c, s) && LiveInv(s) && CanRun(c, s, acts) && TimelyRun(c, s, acts)
    ensures LiveInv(End(c, s, acts)) && CurrentRun(c, s, acts)
    decreases |acts|
  {
    if acts != [] {
      ActionOwned(c, s, acts[0]);
      OwnedIsCurrent(s, acts[0]);
      ApplyKeepsLive(c, s, EffectOf(c, s, acts[0]));
      StepKeepsInv(c, s, acts[0]);
      TimelyRunKeeps(c, Next(c, s, acts[0]), acts[1..]);
    }
  }

  /** In a timely run no two live workers ever execute the same task, exactly the
      newest attempt is open while a task runs and none otherwise, and the exact
      accounts hold with all transactions split. */
  lemma TimedMutualExclusion(c: Config, clock: int, acts: seq<Action>)
    requires CanRun(c, Init(clock), acts) && TimelyRun(c, Init(clock), acts)
    ensures var s := End(c, Init(clock), acts);
            && (forall v, w :: v in s.workers && w in s.workers && v != w ==> Apart(s.workers[v], s.workers[w]))
            && (forall t :: t in s.db ==> OpenExactly(s.db[t]))
            && LawsOk(s)
  {
    TimelyRunKeeps(c, Init(clock), acts);
    RunKeepsLaws(c, Init(clock), acts);
  }

  /** `op` records an outcome of the attempt a live worker executes. */
  predicate OutcomeOf(k: Worker, op: RowOp) {
    Live(k) && (op.Complete? || op.FinalizeFailure?) && op.attempt == k.attempt
  }

  lemma OwnerIsAccepted(s: System, w: WorkerId, op: RowOp)
    requires AllOwn(s.db, s.workers) && OutcomeOf(WorkerAt(s, w), op)
    ensures var t := WorkerAt(s, w).msg.task;
            && t in s.db
            && Outcome(s, t, op).Applied?
            && op.attempt == |s.db[t].attempts| - 1
            && WorkerAt(s, w).lease == s.db[t].task.leaseExpiresAt.Or(0)
  {
    assert Owns(s.db, WorkerAt(s, w));
  }

  /** In a timely run a live worker's outcome is never rejected as reclaimed, and
      it lands on the current attempt. */
  lemma OutcomeNeverReclaimed(c: Config, clock: int, acts: seq<Action>, w: WorkerId, op: RowOp)
    requires CanRun(c, Init(clock), acts) && TimelyRun(c, Init(clock), acts)
    ensures var s := End(c, Init(clock), acts);
            OutcomeOf(WorkerAt(s, w), op) ==>
              var t := WorkerAt(s, w).msg.task;
              t in s.db && Outcome(s, t, op).Applied? && op.attempt == |s.db[t].attempts| - 1
  {
    TimelyRunKeeps(c, Init(clock), acts);
    if OutcomeOf(WorkerAt(End(c, Init(clock), acts), w), op) {
      OwnerIsAccepted(End(c, Init(clock), acts), w, op);
    }
  }
}
