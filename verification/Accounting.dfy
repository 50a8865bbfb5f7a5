/** Exact accounts over whole runs, the five-state lifecycle every step obeys,
    and the bounds both imply.  The accounts need the failure transaction to act
    on the retry count that is current at its UPDATE, as in a `CurrentRun`; runs of
    `Atomic` steps always do. */
module Accounting {
  import opened Model
  import opened Lifecycle
  import opened Ledger
  import opened Machine
  import opened Safety

  ghost predicate LawsOk(s: System) {
    s.hist.Keys == s.db.Keys && forall t :: t in s.db ==> Laws(s.db[t], s.hist[t])
  }

  /** The transaction of an effect does not act on an outdated retry count. */
  ghost predicate FreshEffect(s: System, e: Effect) {
    e.op.Some? && e.op.value.0 in s.db ==> Fresh(s.db[e.op.value.0], e.op.value.1)
  }

  lemma WorkerIsFresh(c: Config, s: System, w: WorkerId, step: WorkerStep)
    requires WorkerEnabled(s, w, step) && !step.FailUpdate?
    ensures FreshEffect(s, WorkerEffect(c, s, w, step))
  {
  }

  lemma ScanIsFresh(c: Config, s: System, r: ScanId, pass: ScanStep)
    requires Inv(c, s) && ScanEnabled(s, r, pass)
    ensures FreshEffect(s, ScanEffect(s, r, pass))
  {
    if pass.ScanUpdate? {
      assert ScanOk(s.clock, s.db, s.scans[r]);
    }
  }

  /** Only a split failure transaction can be outdated: a reclaim never is. */
  lemma AtomicIsFresh(c: Config, s: System, a: Action)
    requires Inv(c, s) && Enabled(s, a) && Atomic(a)
    ensures FreshEffect(s, EffectOf(c, s, a))
  {
    match a
    case Tick(_) =>
    case Duplicate(_) =>
    case Api(_, _) =>
    case Work(w, step) => WorkerIsFresh(c, s, w, step);
    case Recover(r, pass) => ScanIsFresh(c, s, r, pass);
  }

  /** A split failure whose UPDATE will apply with a retry count that is not the
      current one. */
  ghost predicate Outdated(s: System, a: Action) {
    && a.Work? && a.step.FailUpdate?
    && var k := WorkerAt(s, a.w);
       && k.FailureRead?
       && k.msg.task in s.db && s.db[k.msg.task].task.status == Running
       && k.attempt < |s.db[k.msg.task].attempts|
       && k.seen.retryCount != s.db[k.msg.task].task.retryCount
  }

  lemma FailUpdateIsFresh(c: Config, s: System, w: WorkerId)
    requires Inv(c, s) && WorkerEnabled(s, w, FailUpdate) && !Outdated(s, Work(w, FailUpdate))
    ensures FreshEffect(s, WorkerEffect(c, s, w, FailUpdate))
  {
    assert WorkerOk(s.db, WorkerAt(s, w));
  }

  lemma CurrentIsFresh(c: Config, s: System, a: Action)
    requires Inv(c, s) && Enabled(s, a) && !Outdated(s, a)
    ensures FreshEffect(s, EffectOf(c, s, a))
  {
    if Atomic(a) {
      AtomicIsFresh(c, s, a);
    } else if a.step.FailUpdate? {
      FailUpdateIsFresh(c, s, a.w);
    }
  }

  /** No split failure of the run acts on an outdated retry count. */
  ghost predicate CurrentRun(c: Config, s: System, acts: seq<Action>)
    requires CanRun(c, s, acts)
    decreases |acts|
  {
    acts == [] || (!Outdated(s, acts[0]) && CurrentRun(c, Next(c, s, acts[0]), acts[1..]))
  }

  /** Runs without split failures are of this kind. */
  lemma {:induction false} AtomicRunIsCurrent(c: Config, s: System, acts: seq<Action>)
    requires CanRun(c, s, acts) && forall i :: 0 <= i < |acts| ==> Atomic(acts[i])
    ensures CurrentRun(c, s, acts)
    decreases |acts|
  {
    if acts != [] {
      AtomicRunIsCurrent(c, Next(c, s, acts[0]), acts[1..]);
    }
  }

  lemma ApplyKeepsLaws(c: Config, s: System, e: Effect)
    requires RowsOk(c, s.db) && LawsOk(s) && FreshEffect(s, e)
    ensures LawsOk(Apply(s, e))
  {
    if Commits(s, e) {
      var (t, op) := e.op.value;
      if t in s.db {
        OpKeepsLaws(c.leaseSeconds, s.db[t], s.hist[t], op);
      }
    }
  }

  lemma {:induction false} RunKeepsLaws(c: Config, s: System, acts: seq<Action>)
    requires Inv(c, s) && LawsOk(s) && CanRun(c, s, acts) && CurrentRun(c, s, acts)
    ensures LawsOk(End(c, s, acts))
    decreases |acts|
  {
    if acts != [] {
      CurrentIsFresh(c, s, acts[0]);
      ApplyKeepsLaws(c, s, EffectOf(c, s, acts[0]));
      StepKeepsInv(c, s, acts[0]);
      RunKeepsLaws(c, Next(c, s, acts[0]), acts[1..]);
    }
  }

  /** Every reachable state keeps the books exactly, late outcomes of reclaimed
      workers included; hence the bounds on executions, on status changes and on
      the total backoff of an epoch. */
  lemma ReachableAccounts(c: Config, clock: int, acts: seq<Action>, t: TaskId)
    requires CanRun(c, Init(clock), acts) && CurrentRun(c, Init(clock), acts)
    requires t in End(c, Init(clock), acts).db
    ensures var s := End(c, Init(clock), acts);
            t in s.hist && Balanced(s.db[t], s.hist[t])
  {
    Reachable(c, clock, acts);
    RunKeepsLaws(c, Init(clock), acts);
    var s := End(c, Init(clock), acts);
    assert RowInv(c.leaseSeconds, s.db[t]);
    LawsBound(s.db[t], s.hist[t]);
  }

  /***** The lifecycle *****/

  /** What the lifecycle diagram knows of a task. */
  datatype Stage = Stage(status: Status, budget: int, limit: int, runs: nat)

  function StageOf(r: Record): Stage {
    Stage(r.task.status, r.task.maxRetries - r.task.retryCount, r.task.maxRetries, |r.attempts|)
  }

  function Abstract(db: Database): map<TaskId, Stage> {
    map t | t in db :: StageOf(db[t])
  }

  /** The edges of the diagram. */
  predicate LegalEdge(a: Stage, b: Stage) {
    && b.limit == a.limit
    && match (a.status, b.status)
       case (Queued, Running) => b.budget == a.budget && b.runs == a.runs + 1
       case (Running, Completed) => b.budget == a.budget && b.runs == a.runs
       case (Running, Failed) => b.budget == a.budget && b.runs == a.runs
       case (Running, Queued) => a.budget > 0 && b.budget == a.budget - 1 && b.runs == a.runs
       case (Running, DeadLetter) => a.budget == 0 == b.budget && b.runs == a.runs
       case (DeadLetter, Queued) => b.budget == b.limit && b.runs == a.runs
       case _ => false
  }

  predicate LegalStart(b: Stage) {
    b.status == Queued && b.budget == b.limit && b.runs == 0
  }

  /** One edge, on one task. */
  ghost predicate OneEdge(before: map<TaskId, Stage>, after: map<TaskId, Stage>, t: TaskId) {
    && t in after
    && after == before[t := after[t]]
    && if t in before then LegalEdge(before[t], after[t]) else LegalStart(after[t])
  }

  lemma OpIsEdge(leaseSeconds: int, row: Option<Record>, op: RowOp)
    requires row.Some? ==> RowInv(leaseSeconds, row.value) && Fresh(row.value, op)
    ensures var res := ApplyOp(row, op);
            res.Applied? ==>
              if row.Some? then LegalEdge(StageOf(row.value), StageOf(res.record)) else LegalStart(StageOf(res.record))
  {
  }

  /** Every step of the system leaves the database alone or takes one legal edge
      on exactly one task. */
  lemma EffectIsEdgeOrStutter(c: Config, s: System, e: Effect)
    requires RowsOk(c, s.db) && FreshEffect(s, e)
    ensures EdgeOrStutter(s.db, NextDb(s, e))
  {
    if Commits(s, e) {
      var (t, op) := e.op.value;
      OpIsEdge(c.leaseSeconds, Lookup(s.db, t), op);
      assert Abstract(NextDb(s, e)) == Abstract(s.db)[t := StageOf(NextDb(s, e)[t])];
      assert OneEdge(Abstract(s.db), Abstract(NextDb(s, e)), t);
    }
  }

  ghost predicate EdgeOrStutter(before: Database, after: Database) {
    after == before || exists t :: OneEdge(Abstract(before), Abstract(after), t)
  }

  /** A failure UPDATE takes a legal edge if and only if its retry count is the
      current one. */
  lemma FinalizeIsEdgeIff(leaseSeconds: int, r: Record, k: nat, seen: Snapshot, retryable: bool, error: string, at: int)
    requires RowInv(leaseSeconds, r) && SeenOk(r, seen) && r.task.status == Running && k < |r.attempts|
    ensures LegalEdge(StageOf(r), StageOf(FinalizeRow(r, k, seen, retryable, error, at).record))
            <==> seen.retryCount == r.task.retryCount
    ensures FinalizeRow(r, k, seen, retryable, error, at).record.task.status != Running
  {
  }

  lemma OnlyEdge(before: map<TaskId, Stage>, after: map<TaskId, Stage>, t: TaskId, u: TaskId)
    requires t in before && t in after && before[t] != after[t]
    requires OneEdge(before, after, u)
    ensures u == t
  {
  }

  lemma OutdatedIsNoEdge(c: Config, s: System, w: WorkerId)
    requires Inv(c, s) && WorkerEnabled(s, w, FailUpdate) && Outdated(s, Work(w, FailUpdate))
    ensures !EdgeOrStutter(s.db, NextDb(s, WorkerEffect(c, s, w, FailUpdate)))
  {
    var k := WorkerAt(s, w);
    assert WorkerOk(s.db, k);
    var t := k.msg.task;
    var r := FinalizeRow(s.db[t], k.attempt, k.seen, k.retryable, k.error, k.at).record;
    FinalizeIsEdgeIff(c.leaseSeconds, s.db[t], k.attempt, k.seen, k.retryable, k.error, k.at);
    FailUpdateDb(c, s, w);
    var after := s.db[t := r];
    assert after[t] != s.db[t];
    if u :| OneEdge(Abstract(s.db), Abstract(after), u) {
      OnlyEdge(Abstract(s.db), Abstract(after), t, u);
    }
  }

  lemma FailUpdateDb(c: Config, s: System, w: WorkerId)
    requires WorkerEnabled(s, w, FailUpdate) && Outdated(s, Work(w, FailUpdate))
    ensures var k := WorkerAt(s, w);
            var r := FinalizeRow(s.db[k.msg.task], k.attempt, k.seen, k.retryable, k.error, k.at).record;
            NextDb(s, WorkerEffect(c, s, w, FailUpdate)) == s.db[k.msg.task := r]
  {
    var k := WorkerAt(s, w);
    var op := FinalizeFailure(k.attempt, k.seen, k.retryable, k.error, k.at);
    assert WorkerEffect(c, s, w, FailUpdate).op == Some((k.msg.task, op));
    assert Outcome(s, k.msg.task, op) == FinalizeRow(s.db[k.msg.task], k.attempt, k.seen, k.retryable, k.error, k.at);
  }

  /** Every step of every run takes one legal edge on one task or leaves the
      database alone, except exactly the split failures that act on an outdated
      retry count. */
  lemma StepIsEdgeIff(c: Config, clock: int, acts: seq<Action>, a: Action)
    requires CanRun(c, Init(clock), acts) && Enabled(End(c, Init(clock), acts), a)
    ensures var s := End(c, Init(clock), acts);
            EdgeOrStutter(s.db, Next(c, s, a).db) <==> !Outdated(s, a)
  {
    Reachable(c, clock, acts);
    var s := End(c, Init(clock), acts);
    if Outdated(s, a) {
      OutdatedIsNoEdge(c, s, a.w);
    } else {
      CurrentIsFresh(c, s, a);
      EffectIsEdgeOrStutter(c, s, EffectOf(c, s, a));
    }
  }

  /** Publishing, a crash of the caller, and every redispatch. */
  lemma ApiStutters(s: System, p: PublisherId, call: ApiStep)
    requires ApiEnabled(s, p, call) && !call.Submit? && !call.RequeueCall?
    ensures NextDb(s, ApiEffect(s, p, call)) == s.db
  {
  }

  /** A requeue of a task that is not dead-lettered is refused outright: nothing
      is committed and nothing will be published. */
  lemma RequeueRefused(s: System, p: PublisherId, t: TaskId)
    requires ApiEnabled(s, p, RequeueCall(t))
    ensures ApiEffect(s, p, RequeueCall(t)) == Quiet(s) <==> t !in s.db || s.db[t].task.status != DeadLetter
  {
  }

  /** A delivery for a task that is not QUEUED, a redelivery, a retry hand-off
      and a worker's death. */
  lemma WorkerStutters(c: Config, s: System, w: WorkerId, step: WorkerStep)
    requires WorkerEnabled(s, w, step)
    requires || step.Receive? || step.VisibilityTimeout? || step.FailSelect? || step.SendRetry? || step.WorkerCrash?
             || (step.ClaimTask? &&
                   var t := WorkerAt(s, w).msg.task; t in s.db ==> s.db[t].task.status != Queued)
    ensures NextDb(s, WorkerEffect(c, s, w, step)) == s.db
  {
  }

  /***** The other direction: when a split failure breaks the account *****/

  /** The failure UPDATE of a worker keeps its task's account exactly when no one
      changed the retry count since its SELECT. */
  lemma FailUpdateKeepsAccountIff(c: Config, s: System, w: WorkerId)
    requires Inv(c, s) && LawsOk(s) && WorkerEnabled(s, w, FailUpdate)
    requires var t := WorkerAt(s, w).msg.task; t in s.db && s.db[t].task.status == Running
    ensures var t := WorkerAt(s, w).msg.task;
            var n := Apply(s, WorkerEffect(c, s, w, FailUpdate));
            Accounted(n.db[t], n.hist[t]) <==> WorkerAt(s, w).seen.retryCount == s.db[t].task.retryCount
  {
    var k := WorkerAt(s, w);
    assert WorkerOk(s.db, k);
    var t := k.msg.task;
    FinalizeKeepsAccountIff(c.leaseSeconds, s.db[t], s.hist[t], k.attempt, k.seen, k.retryable, k.error, k.at);
    var op := FinalizeFailure(k.attempt, k.seen, k.retryable, k.error, k.at);
    assert WorkerEffect(c, s, w, FailUpdate).op == Some((t, op));
    assert Outcome(s, t, op).Applied?;
  }
}
