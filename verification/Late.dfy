/** Exactly when the outcome of a worker whose attempt was reclaimed is discarded. */
module Late {
  import opened Model
  import opened Lifecycle
  import opened Machine
  import opened Safety
  import opened Reclaims
  import opened Exclusion

  /** Recovery has reclaimed the RUNNING period of the attempt `k` executes. */
  ghost predicate WasReclaimed(s: System, k: Worker) {
    Live(k) && exists i :: 0 <= i < |s.reclaims| && ReclaimOf(s.reclaims[i], k)
  }

  predicate ReclaimOf(x: Committed, k: Worker)
    requires Live(k)
  {
    x.result.task == k.msg.task && x.period == k.attempt + 1
  }

  /** Somebody has claimed the task after attempt `attempt` and is still RUNNING. */
  predicate ClaimedSince(r: Record, attempt: nat) {
    r.task.status == Running && attempt + 1 < |r.attempts|
  }

  /** A late outcome is discarded if and only if nobody is executing the task under
      a later claim.  Discarded, it changes nothing; accepted, it ends the run of
      the later claim and leaves the attempt of that claim open. */
  ghost predicate RefusedExactlyUntilClaimed(db: Database, t: TaskId, op: RowOp)
    requires op.Complete? || op.FinalizeFailure?
  {
    && t in db
    && var (r, res) := (db[t], ApplyOp(Some(db[t]), op));
       && (res.Refused? <==> r.task.status != Running)
       && (res.Refused? <==> !ClaimedSince(r, op.attempt))
       && (res.Refused? ==> Commit(db, t, op) == db)
       && (res.Applied? ==>
             && |res.record.attempts| == |r.attempts|
             && res.record.task.status != Running
             && res.record.attempts[|r.attempts| - 1].finishedAt.None?)
  }

  lemma LateOnRow(leaseSeconds: int, db: Database, t: TaskId, op: RowOp)
    requires t in db && RowInv(leaseSeconds, db[t])
    requires (op.Complete? || op.FinalizeFailure?) && op.attempt < |db[t].attempts|
    requires db[t].task.status == Running ==> op.attempt + 1 < |db[t].attempts|
    ensures RefusedExactlyUntilClaimed(db, t, op)
  {
  }

  lemma ReclaimedIsOver(c: Config, s: System, k: Worker)
    requires LogInv(s) && WorkerOk(s.db, k) && WasReclaimed(s, k)
    ensures k.msg.task in s.db && k.attempt < |s.db[k.msg.task].attempts|
    ensures var r := s.db[k.msg.task]; r.task.status == Running ==> k.attempt + 1 < |r.attempts|
  {
    var i :| 0 <= i < |s.reclaims| && ReclaimOf(s.reclaims[i], k);
    assert EntryOk(s.db, s.reclaims[i]);
  }

  lemma LateInState(c: Config, s: System, w: WorkerId, op: RowOp)
    requires Inv(c, s) && LogInv(s)
    requires WasReclaimed(s, WorkerAt(s, w)) && OutcomeOf(WorkerAt(s, w), op)
    ensures RefusedExactlyUntilClaimed(s.db, WorkerAt(s, w).msg.task, op)
  {
    var k := WorkerAt(s, w);
    assert WorkerOk(s.db, k);
    ReclaimedIsOver(c, s, k);
    LateOnRow(c.leaseSeconds, s.db, k.msg.task, op);
  }

  /** In every run, the outcome of a worker whose attempt recovery reclaimed is
      discarded exactly until somebody has claimed the task again. */
  lemma LateOutcomeIsRefusedIff(c: Config, clock: int, acts: seq<Action>, w: WorkerId, op: RowOp)
    requires CanRun(c, Init(clock), acts)
    ensures var s := End(c, Init(clock), acts);
            WasReclaimed(s, WorkerAt(s, w)) && OutcomeOf(WorkerAt(s, w), op) ==>
              RefusedExactlyUntilClaimed(s.db, WorkerAt(s, w).msg.task, op)
  {
    Reachable(c, clock, acts);
    RunKeepsLog(c, Init(clock), acts);
    var s := End(c, Init(clock), acts);
    if WasReclaimed(s, WorkerAt(s, w)) && OutcomeOf(WorkerAt(s, w), op) {
      LateInState(c, s, w, op);
    }
  }

  /***** Records of closed attempts *****/

  predicate Closed(db: Database, t: TaskId, i: nat) {
    t in db && i < |db[t].attempts| && db[t].attempts[i].finishedAt.Some?
  }

  /** A transaction changes the record of a closed attempt if and only if it is an
      outcome of that very attempt that is accepted and says something else. */
  lemma OpAltersClosedIff(r: Record, op: RowOp, i: nat)
    requires i < |r.attempts| && r.attempts[i].finishedAt.Some?
    ensures var res := ApplyOp(Some(r), op);
            res.Applied? ==>
              && i < |res.record.attempts| && res.record.attempts[i].finishedAt.Some?
              && (res.record.attempts[i] != r.attempts[i] <==>
                    && (op.Complete? || op.FinalizeFailure?) && op.attempt == i
                    && (r.attempts[i].finishedAt != Some(op.at)
                        || r.attempts[i].error != if op.Complete? then None else Some(op.error)))
  {
  }

  /** The worker step records an outcome of attempt `i` of task `t`. */
  ghost predicate Records(s: System, a: Action, t: TaskId, i: nat) {
    && a.Work? && (a.step.Succeed? || a.step.Fail? || a.step.FailUpdate?)
    && Live(WorkerAt(s, a.w)) && WorkerAt(s, a.w).msg.task == t && WorkerAt(s, a.w).attempt == i
  }

  /** Outcomes are committed only by the worker steps that record them. */
  lemma OutcomeIsRecorded(c: Config, s: System, a: Action)
    requires Enabled(s, a)
    ensures var e := EffectOf(c, s, a);
            e.op.Some? && (e.op.value.1.Complete? || e.op.value.1.FinalizeFailure?) ==>
              Records(s, a, e.op.value.0, e.op.value.1.attempt)
  {
  }

  lemma ApplyAlters(s: System, e: Effect, t: TaskId, i: nat)
    requires Closed(s.db, t, i)
    ensures Closed(NextDb(s, e), t, i)
    ensures NextDb(s, e)[t].attempts[i] != s.db[t].attempts[i] ==>
              && Commits(s, e) && e.op.value.0 == t
              && (e.op.value.1.Complete? || e.op.value.1.FinalizeFailure?) && e.op.value.1.attempt == i
  {
    if Commits(s, e) && e.op.value.0 == t {
      OpAltersClosedIff(s.db[t], e.op.value.1, i);
    }
  }

  /** In any state, a step changes the record of a closed attempt only by recording
      an outcome of that very attempt, which its reclaim or an earlier outcome had
      closed. */
  lemma StepAltersClosed(c: Config, s: System, a: Action, t: TaskId, i: nat)
    requires Enabled(s, a) && Closed(s.db, t, i)
    ensures Closed(Next(c, s, a).db, t, i)
    ensures Next(c, s, a).db[t].attempts[i] != s.db[t].attempts[i] ==> Records(s, a, t, i)
  {
    ApplyAlters(s, EffectOf(c, s, a), t, i);
    OutcomeIsRecorded(c, s, a);
  }

  /** The attempt of a live worker that owns its run is open. */
  lemma OwnerRecordsOpen(s: System, a: Action, t: TaskId, i: nat)
    requires LiveInv(s) && Closed(s.db, t, i)
    ensures !Records(s, a, t, i)
  {
    assert OpenExactly(s.db[t]);
    if a.Work? && a.w in s.workers {
      assert Owns(s.db, s.workers[a.w]);
    }
  }

  lemma {:induction false} TimelyRunSeals(c: Config, s: System, acts: seq<Action>, t: TaskId, i: nat)
    requires Inv(c, s) && LiveInv(s) && CanRun(c, s, acts) && TimelyRun(c, s, acts)
    requires Closed(s.db, t, i)
    ensures Closed(End(c, s, acts).db, t, i) && End(c, s, acts).db[t].attempts[i] == s.db[t].attempts[i]
    decreases |acts|
  {
    if acts != [] {
      OwnerRecordsOpen(s, acts[0], t, i);
      StepAltersClosed(c, s, acts[0], t, i);
      ActionOwned(c, s, acts[0]);
      ApplyKeepsLive(c, s, EffectOf(c, s, acts[0]));
      StepKeepsInv(c, s, acts[0]);
      TimelyRunSeals(c, Next(c, s, acts[0]), acts[1..], t, i);
    }
  }

  /** In a timely run the record of a closed attempt is final. */
  lemma ClosedIsFinal(c: Config, clock: int, acts: seq<Action>, more: seq<Action>, t: TaskId, i: nat)
    requires CanRun(c, Init(clock), acts) && TimelyRun(c, Init(clock), acts)
    requires CanRun(c, End(c, Init(clock), acts), more) && TimelyRun(c, End(c, Init(clock), acts), more)
    ensures var (s, end) := (End(c, Init(clock), acts), End(c, End(c, Init(clock), acts), more));
            Closed(s.db, t, i) ==> Closed(end.db, t, i) && end.db[t].attempts[i] == s.db[t].attempts[i]
  {
    Reachable(c, clock, acts);
    TimelyRunKeeps(c, Init(clock), acts);
    if Closed(End(c, Init(clock), acts).db, t, i) {
      TimelyRunSeals(c, End(c, Init(clock), acts), more, t, i);
    }
  }
}
