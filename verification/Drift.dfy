/** The attempt account of every run, split failures included: it is off by exactly
    the lags of the retry counts that split failures acted on. */
module Drift {
  import opened Model
  import opened Lifecycle
  import opened Ledger
  import opened Machine
  import opened Safety
  import opened Accounting

  /** How far the retry count a split failure read lags behind the current one, if
      this step is such a failure on task `t` and its UPDATE applies. */
  ghost function StepDrift(s: System, a: Action, t: TaskId): int {
    if Outdated(s, a) && WorkerAt(s, a.w).msg.task == t
    then s.db[t].task.retryCount - WorkerAt(s, a.w).seen.retryCount
    else 0
  }

  ghost function Drift(c: Config, s: System, acts: seq<Action>, t: TaskId): int
    requires CanRun(c, s, acts)
    decreases |acts|
  {
    if acts == [] then 0
    else StepDrift(s, acts[0], t) + Drift(c, Next(c, s, acts[0]), acts[1..], t)
  }

  function SurplusAt(s: System, t: TaskId): int {
    if t in s.db then Surplus(s.db[t], HistoryAt(s, t)) else 0
  }

  /** Every attempt was executed, once. */
  predicate AttemptsExecuted(s: System, t: TaskId) {
    t in s.db ==> HistoryAt(s, t).executions == |s.db[t].attempts|
  }

  /** The lag of what an effect commits to task `t`. */
  function EffectLag(s: System, e: Effect, t: TaskId): int {
    if Commits(s, e) && e.op.value.0 == t && t in s.db then Lag(s.db[t], e.op.value.1) else 0
  }

  /** Reclaims are never outdated. */
  ghost predicate FreshReclaim(s: System, e: Effect) {
    e.op.Some? && e.op.value.0 in s.db && e.op.value.1.Reclaim? ==> Fresh(s.db[e.op.value.0], e.op.value.1)
  }

  lemma ApplyDrifts(c: Config, s: System, e: Effect, t: TaskId)
    requires RowsOk(c, s.db) && TransactionOk(c, s, e) && FreshReclaim(s, e) && AttemptsExecuted(s, t)
    ensures SurplusAt(Apply(s, e), t) == SurplusAt(s, t) + EffectLag(s, e, t)
    ensures AttemptsExecuted(Apply(s, e), t)
  {
    if Commits(s, e) && e.op.value.0 == t && t in s.db {
      OpMovesSurplus(c.leaseSeconds, s.db[t], HistoryAt(s, t), e.op.value.1);
      OpExecutes(s.db[t], HistoryAt(s, t), e.op.value.1);
    }
  }

  lemma OpExecutes(r: Record, h: History, op: RowOp)
    requires h.executions == |r.attempts|
    ensures var res := ApplyOp(Some(r), op);
            res.Applied? ==> Recorded(h, Some(r), op, res.record).executions == |res.record.attempts|
  {
  }

  /** A snapshot taken at the UPDATE has no lag. */
  lemma FreshHasNoLag(s: System, e: Effect, t: TaskId)
    requires FreshEffect(s, e)
    ensures EffectLag(s, e, t) == 0 && FreshReclaim(s, e)
  {
  }

  lemma FailUpdateLag(c: Config, s: System, w: WorkerId, t: TaskId)
    requires WorkerEnabled(s, w, FailUpdate) && Outdated(s, Work(w, FailUpdate))
    ensures var e := WorkerEffect(c, s, w, FailUpdate);
            EffectLag(s, e, t) == StepDrift(s, Work(w, FailUpdate), t) && FreshReclaim(s, e)
  {
    var k := WorkerAt(s, w);
    var op := RowOp.FinalizeFailure(k.attempt, k.seen, k.retryable, k.error, k.at);
    assert WorkerEffect(c, s, w, FailUpdate).op == Some((k.msg.task, op));
    assert Outcome(s, k.msg.task, op).Applied?;
  }

  lemma StepLag(c: Config, s: System, a: Action, t: TaskId)
    requires Inv(c, s) && Enabled(s, a)
    ensures var e := EffectOf(c, s, a); EffectLag(s, e, t) == StepDrift(s, a, t) && FreshReclaim(s, e)
  {
    if Outdated(s, a) {
      FailUpdateLag(c, s, a.w, t);
    } else {
      CurrentIsFresh(c, s, a);
      FreshHasNoLag(s, EffectOf(c, s, a), t);
    }
  }

  lemma {:induction false} RunKeepsDrift(c: Config, s: System, acts: seq<Action>, t: TaskId)
    requires Inv(c, s) && AttemptsExecuted(s, t) && CanRun(c, s, acts)
    ensures SurplusAt(End(c, s, acts), t) == SurplusAt(s, t) + Drift(c, s, acts, t)
    ensures AttemptsExecuted(End(c, s, acts), t) && Inv(c, End(c, s, acts))
    decreases |acts|
  {
    if acts != [] {
      StepLag(c, s, acts[0], t);
      ActionEffectOk(c, s, acts[0]);
      ApplyDrifts(c, s, EffectOf(c, s, acts[0]), t);
      StepKeepsInv(c, s, acts[0]);
      RunKeepsDrift(c, Next(c, s, acts[0]), acts[1..], t);
    }
  }

  /** The attempts of a task, and its executions, are those of the account plus the
      drift; hence the bound on executions. */
  predicate OffBy(r: Record, h: History, drift: int) {
    && |r.attempts| == h.executions == ExpectedAttempts(r.task, h) + drift
    && h.executions <= (h.requeues + 1) * (r.task.maxRetries + 1) + drift
  }

  lemma SurplusBounds(r: Record, h: History)
    requires Bounds(r.task) && h.executions == |r.attempts|
    ensures OffBy(r, h, Surplus(r, h))
  {
    OneMoreEpoch(h.requeues, r.task.maxRetries + 1);
  }

  /** Every run keeps every task's account up to its drift. */
  lemma ReachableDrift(c: Config, clock: int, acts: seq<Action>, t: TaskId)
    requires CanRun(c, Init(clock), acts)
    ensures var s := End(c, Init(clock), acts);
            t in s.db ==> OffBy(s.db[t], HistoryAt(s, t), Drift(c, Init(clock), acts, t))
  {
    RunKeepsDrift(c, Init(clock), acts, t);
    var s := End(c, Init(clock), acts);
    if t in s.db {
      assert RowInv(c.leaseSeconds, s.db[t]);
      SurplusBounds(s.db[t], HistoryAt(s, t));
    }
  }
}
