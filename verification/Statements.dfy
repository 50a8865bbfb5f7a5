/** Results that hold with every SELECT-then-UPDATE pair split in two: nothing a
    stale read can do breaks them. */
module Statements {
  import opened Model
  import opened Backoff
  import opened Lifecycle
  import opened Dispatch
  import opened Machine
  import opened Safety

  /** In every reachable state: the CHECK constraints hold, only a spent budget
      is dead-lettered, the nullable columns follow the status, and recovery's
      query for the latest open attempt finds the one whose claim set the lease. */
  lemma ReachableRows(c: Config, clock: int, acts: seq<Action>, t: TaskId)
    requires CanRun(c, Init(clock), acts)
    requires t in End(c, Init(clock), acts).db
    ensures var r := End(c, Init(clock), acts).db[t];
            && Bounds(r.task) && Shape(r.task) && AttemptHistory(c.leaseSeconds, r)
            && (r.task.status == Running ==>
                  && LatestOpen(r.attempts) == Some(|r.attempts| - 1)
                  && r.attempts[|r.attempts| - 1].startedAt + c.leaseSeconds == r.task.leaseExpiresAt.value)
  {
    Reachable(c, clock, acts);
    var r := End(c, Init(clock), acts).db[t];
    assert RowInv(c.leaseSeconds, r);
    if r.task.status == Running {
      LatestOpenIsLast(c.leaseSeconds, r);
    }
  }

  /** Along any run no task and no attempt disappears, and a task's priority and
      limit and an attempt's number, worker and start never change. */
  lemma {:induction false} RunGrows(c: Config, s: System, acts: seq<Action>)
    requires CanRun(c, s, acts)
    ensures Grows(s.db, End(c, s, acts).db)
    decreases |acts|
  {
    if acts != [] {
      var n := Next(c, s, acts[0]);
      StepGrows(s, EffectOf(c, s, acts[0]));
      RunGrows(c, n, acts[1..]);
      var end := End(c, s, acts).db;
      forall t | t in s.db ensures t in end && Extends(s.db[t], end[t]) {
        ExtendsTransitive(s.db[t], n.db[t], end[t]);
      }
    }
  }

  /** A completed or permanently failed task is frozen, row and history, in every
      continuation. */
  lemma {:induction false} RunFreezes(c: Config, s: System, acts: seq<Action>, t: TaskId)
    requires CanRun(c, s, acts)
    requires t in s.db && s.db[t].task.status in {Completed, Failed}
    ensures t in End(c, s, acts).db && End(c, s, acts).db[t] == s.db[t]
    decreases |acts|
  {
    if acts != [] {
      var e := EffectOf(c, s, acts[0]);
      if e.op.Some? && e.op.value.0 == t {
        FinishedRefuses(s.db[t], e.op.value.1);
      }
      RunFreezes(c, Next(c, s, acts[0]), acts[1..], t);
    }
  }

  /***** Routing and references *****/

  ghost predicate WellRouted(db: Database, m: Message) {
    m.task in db && Routes(db[m.task].task.priority, m.queue)
  }

  /** Every message and every delivery names a persisted task and carries the queue
      of its priority; a publisher's priority is its task's; and a scan about to
      redispatch finds the row, so the MEDIUM fallback is never taken. */
  ghost predicate AllRouted(s: System) {
    && (forall m :: m in s.broker ==> WellRouted(s.db, m))
    && (forall w :: w in s.workers && !s.workers[w].Idle? ==> WellRouted(s.db, s.workers[w].msg))
    && (forall p :: p in s.publishers ==> PublisherOk(s.db, s.publishers[p]))
    && (forall r :: r in s.scans && s.scans[r].pc.Redispatching? ==> s.scans[r].pc.pending.task in s.db)
  }

  lemma InvIsRouted(c: Config, s: System)
    requires Inv(c, s)
    ensures AllRouted(s)
  {
    forall m | m in s.broker ensures WellRouted(s.db, m) {
      assert MessageOk(s.db, m);
    }
    forall w | w in s.workers && !s.workers[w].Idle? ensures WellRouted(s.db, s.workers[w].msg) {
      assert WorkerOk(s.db, s.workers[w]);
    }
    forall r | r in s.scans && s.scans[r].pc.Redispatching? ensures s.scans[r].pc.pending.task in s.db {
      assert ScanOk(s.clock, s.db, s.scans[r]);
    }
  }

  lemma ReachableRouting(c: Config, clock: int, acts: seq<Action>)
    requires CanRun(c, Init(clock), acts)
    ensures AllRouted(End(c, Init(clock), acts))
  {
    Reachable(c, clock, acts);
    InvIsRouted(c, End(c, Init(clock), acts));
  }

  /** The errors "does not exist" and "attempt no longer exists" are unreachable
      from dispatched messages, whatever a worker does next. */
  lemma MissingErrorsUnreachable(c: Config, clock: int, acts: seq<Action>, w: WorkerId, op: RowOp)
    requires CanRun(c, Init(clock), acts)
    ensures var s := End(c, Init(clock), acts);
            MayRun(WorkerAt(s, w), op) ==>
              var res := Outcome(s, WorkerAt(s, w).msg.task, op);
              res != Refused(NotFound) && res != Refused(AttemptGone)
  {
    Reachable(c, clock, acts);
    var s := End(c, Init(clock), acts);
    if MayRun(WorkerAt(s, w), op) {
      RowsAreFound(s, w, op);
    }
  }

  lemma RowsAreFound(s: System, w: WorkerId, op: RowOp)
    requires WorkerOk(s.db, WorkerAt(s, w)) && MayRun(WorkerAt(s, w), op)
    ensures var res := Outcome(s, WorkerAt(s, w).msg.task, op);
            res != Refused(NotFound) && res != Refused(AttemptGone)
  {
  }

  /** The transactions of a worker with a delivery: a claim, or an outcome of the
      attempt it executes. */
  predicate MayRun(k: Worker, op: RowOp) {
    || (k.Delivered? && op.Claim?)
    || ((k.Executing? || k.FailureRead?) && (op.Complete? || op.FinalizeFailure?) && op.attempt == k.attempt)
  }

  /** Both callers of the backoff pass a retry number of at least 1, so the
      ValueError cannot be raised. */
  lemma RetryNumbersAreValid(c: Config, clock: int, acts: seq<Action>)
    requires CanRun(c, Init(clock), acts)
    ensures var s := End(c, Init(clock), acts);
            && (forall w :: w in s.workers && s.workers[w].RetryPending? ==>
                  s.workers[w].countdown.Some? && s.workers[w].countdown == RetryCountdown(s.workers[w].number))
            && (forall r :: r in s.scans && s.scans[r].pc.Redispatching? ==>
                  RetryCountdown(s.scans[r].pc.pending.retryCount).Some?)
  {
    Reachable(c, clock, acts);
    var s := End(c, Init(clock), acts);
    forall w | w in s.workers && s.workers[w].RetryPending?
      ensures s.workers[w].countdown.Some? && s.workers[w].countdown == RetryCountdown(s.workers[w].number)
    {
      assert WorkerOk(s.db, s.workers[w]);
    }
    forall r | r in s.scans && s.scans[r].pc.Redispatching?
      ensures RetryCountdown(s.scans[r].pc.pending.retryCount).Some?
    {
      assert ScanOk(s.clock, s.db, s.scans[r]);
    }
  }

  /***** The reclaim transaction *****/

  /** Whatever happened since its SELECT, the reclaim UPDATE has exactly the
      effect of a reclaim that selects and updates at once; if it applies, it
      ends the very RUNNING period the SELECT saw. */
  lemma SplitReclaimIsAtomic(c: Config, s: System, r: ScanId)
    requires Inv(c, s) && ScanEnabled(s, r, ScanUpdate)
    ensures var scan := s.scans[r];
            var t := scan.pc.task;
            && t in s.db
            && ScanEffect(s, r, ScanUpdate)
               == ReclaimEffect(s, r, scan.(pc := Looping), t, TakeSnapshot(s.db[t].task))
            && (Stale(s.db[t].task, scan.now) ==>
                  && |s.db[t].attempts| == scan.pc.period
                  && LatestOpen(s.db[t].attempts) == Some(scan.pc.period - 1))
  {
    var scan := s.scans[r];
    assert ScanOk(s.clock, s.db, scan);
    var t := scan.pc.task;
    assert RowInv(c.leaseSeconds, s.db[t]);
    if Stale(s.db[t].task, scan.now) {
      LatestOpenIsLast(c.leaseSeconds, s.db[t]);
    }
  }

  /***** Runs with split reclaims refine runs with atomic ones *****/

  /** A scan that has only selected looks like one that has not begun. */
  function Erase(scan: Scan): Scan {
    if scan.pc.Selected? then scan.(remaining := [scan.pc.task] + scan.remaining, pc := Looping) else scan
  }

  function EraseAll(s: System): System {
    s.(scans := map r | r in s.scans :: Erase(s.scans[r]))
  }

  ghost predicate SplitsReclaim(a: Action) {
    a.Recover? && (a.pass.ScanSelect? || a.pass.ScanUpdate?)
  }

  lemma ApiEffectErases(s: System, p: PublisherId, call: ApiStep)
    requires ApiEnabled(s, p, call)
    ensures ApiEnabled(EraseAll(s), p, call) && ApiEffect(EraseAll(s), p, call) == ApiEffect(s, p, call)
  {
    var z := EraseAll(s);
    assert Quiet(z) == Quiet(s);
    assert PublisherAt(z, p) == PublisherAt(s, p);
  }

  lemma FailureEffectErases(s: System, w: WorkerId, k: Worker, seen: Snapshot, retryable: bool, error: string, at: int)
    requires k.Executing? || k.FailureRead?
    ensures FailureEffect(EraseAll(s), w, k.msg, k.attempt, seen, retryable, error, at)
            == FailureEffect(s, w, k.msg, k.attempt, seen, retryable, error, at)
  {
    assert Quiet(EraseAll(s)) == Quiet(s);
  }

  lemma WorkerEffectErases(c: Config, s: System, w: WorkerId, step: WorkerStep)
    requires WorkerEnabled(s, w, step)
    ensures WorkerEnabled(EraseAll(s), w, step)
    ensures WorkerEffect(c, EraseAll(s), w, step) == WorkerEffect(c, s, w, step)
  {
    var z := EraseAll(s);
    var k := WorkerAt(s, w);
    assert Quiet(z) == Quiet(s);
    assert WorkerAt(z, w) == k;
    match step
    case Fail(failure) =>
      if k.msg.task in s.db {
        FailureEffectErases(s, w, k, TakeSnapshot(s.db[k.msg.task].task), failure.retryable, failure.error, s.clock);
      }
    case FailUpdate => FailureEffectErases(s, w, k, k.seen, k.retryable, k.error, k.at);
    case ClaimTask(hostname) => assert ClaimEffect(c, z, w, k.msg, hostname) == ClaimEffect(c, s, w, k.msg, hostname);
    case Receive(_) =>
    case VisibilityTimeout =>
    case Succeed =>
    case FailSelect(_) =>
    case SendRetry(_) =>
    case WorkerCrash =>
  }

  lemma ScanEffectErases(s: System, r: ScanId, pass: ScanStep)
    requires ScanEnabled(s, r, pass) && !pass.ScanSelect? && !pass.ScanUpdate? && !pass.ScanCrash?
    ensures ScanEnabled(EraseAll(s), r, pass) && ScanEffect(EraseAll(s), r, pass) == ScanEffect(s, r, pass)
  {
    var z := EraseAll(s);
    assert Quiet(z) == Quiet(s);
    if !pass.ScanStart? {
      assert z.scans[r] == s.scans[r];
    }
  }

  lemma CrashEffectErases(s: System, r: ScanId)
    requires ScanEnabled(s, r, ScanCrash)
    ensures ScanEnabled(EraseAll(s), r, ScanCrash)
    ensures ScanEffect(EraseAll(s), r, ScanCrash) == ScanEffect(s, r, ScanCrash)
  {
    var z := EraseAll(s);
    assert Quiet(z) == Quiet(s);
    assert z.scans[r] == Erase(s.scans[r]);
  }

  ghost predicate SetsNoSelection(e: Effect) {
    e.scan.Some? ==> !e.scan.value.1.pc.Selected?
  }

  /** What a step does outside the scans does not depend on the scans. */
  lemma NextErases(s: System, e: Effect)
    ensures var z := EraseAll(s);
            && NextDb(z, e) == NextDb(s, e)
            && NextHist(z, e) == NextHist(s, e)
            && NextBroker(z, e) == NextBroker(s, e)
            && NextReclaims(z, e) == NextReclaims(s, e)
  {
  }

  lemma ApplyErases(s: System, e: Effect)
    requires SetsNoSelection(e)
    ensures EraseAll(Apply(s, e)) == Apply(EraseAll(s), e)
  {
    NextErases(s, e);
    assert EraseAll(Apply(s, e)).scans == Apply(EraseAll(s), e).scans;
  }

  lemma EffectErases(c: Config, s: System, a: Action)
    requires Enabled(s, a) && !SplitsReclaim(a)
    ensures Enabled(EraseAll(s), a)
    ensures EffectOf(c, EraseAll(s), a) == EffectOf(c, s, a) && SetsNoSelection(EffectOf(c, s, a))
  {
    match a
    case Tick(_) =>
    case Duplicate(_) =>
    case Api(p, call) => ApiEffectErases(s, p, call);
    case Work(w, step) => WorkerEffectErases(c, s, w, step);
    case Recover(r, pass) =>
      if pass.ScanCrash? { CrashEffectErases(s, r); } else { ScanEffectErases(s, r, pass); }
  }

  /** Selecting a stale task erases to nothing; passing over a task is the
      atomic reclaim that finds nothing to do. */
  lemma SelectErases(c: Config, s: System, r: ScanId)
    requires ScanEnabled(s, r, ScanSelect)
    ensures var n := Next(c, s, Recover(r, ScanSelect));
            var z := EraseAll(s);
            && ScanEnabled(z, r, ReclaimOne)
            && EraseAll(n) == if n.scans[r].pc.Selected? then z else Next(c, z, Recover(r, ReclaimOne))
  {
    var z := EraseAll(s);
    var n := Next(c, s, Recover(r, ScanSelect));
    var scan := s.scans[r];
    assert z.scans[r] == scan;
    if n.scans[r].pc.Selected? {
      assert scan.remaining == [scan.remaining[0]] + scan.remaining[1..];
      assert EraseAll(n).scans == z.scans;
    } else {
      var e := ScanEffect(s, r, ScanSelect);
      assert Quiet(z) == Quiet(s);
      assert ScanEffect(z, r, ReclaimOne) == e;
      ApplyErases(s, e);
    }
  }

  lemma UpdateEffectErases(c: Config, s: System, r: ScanId)
    requires Inv(c, s) && ScanEnabled(s, r, ScanUpdate)
    ensures ScanEnabled(EraseAll(s), r, ReclaimOne)
    ensures ScanEffect(EraseAll(s), r, ReclaimOne) == ScanEffect(s, r, ScanUpdate)
    ensures SetsNoSelection(ScanEffect(s, r, ScanUpdate))
  {
    var z := EraseAll(s);
    var scan := s.scans[r];
    assert z.scans[r] == Erase(scan);
    assert Erase(scan).remaining[1..] == scan.remaining;
    assert Quiet(z) == Quiet(s);
    SplitReclaimIsAtomic(c, s, r);
  }

  lemma UpdateErases(c: Config, s: System, r: ScanId)
    requires Inv(c, s) && ScanEnabled(s, r, ScanUpdate)
    ensures ScanEnabled(EraseAll(s), r, ReclaimOne)
    ensures EraseAll(Apply(s, ScanEffect(s, r, ScanUpdate)))
            == Apply(EraseAll(s), ScanEffect(EraseAll(s), r, ReclaimOne))
  {
    UpdateEffectErases(c, s, r);
    ApplyErases(s, ScanEffect(s, r, ScanUpdate));
  }

  /** At most one atomic step stands for `a`, and it ends where `a` does. */
  ghost predicate Simulates(c: Config, s: System, a: Action, first: seq<Action>)
    requires Enabled(s, a)
  {
    if first == [] then EraseAll(Next(c, s, a)) == EraseAll(s)
    else
      && |first| == 1
      && !SplitsReclaim(first[0])
      && Enabled(EraseAll(s), first[0])
      && Next(c, EraseAll(s), first[0]) == EraseAll(Next(c, s, a))
  }

  lemma PlainSimulates(c: Config, s: System, a: Action)
    requires Enabled(s, a) && !SplitsReclaim(a)
    ensures Simulates(c, s, a, [a])
  {
    EffectErases(c, s, a);
    ApplyErases(s, EffectOf(c, s, a));
  }

  lemma SelectSimulates(c: Config, s: System, r: ScanId)
    requires ScanEnabled(s, r, ScanSelect)
    ensures var n := Next(c, s, Recover(r, ScanSelect));
            Simulates(c, s, Recover(r, ScanSelect), if n.scans[r].pc.Selected? then [] else [Recover(r, ReclaimOne)])
  {
    SelectErases(c, s, r);
  }

  lemma UpdateSimulates(c: Config, s: System, r: ScanId)
    requires Inv(c, s) && ScanEnabled(s, r, ScanUpdate)
    ensures Simulates(c, s, Recover(r, ScanUpdate), [Recover(r, ReclaimOne)])
  {
    NextErased(c, s, r);
    OneSimulates(c, s, Recover(r, ScanUpdate), Recover(r, ReclaimOne));
  }

  lemma NextErased(c: Config, s: System, r: ScanId)
    requires Inv(c, s) && ScanEnabled(s, r, ScanUpdate)
    ensures Enabled(s, Recover(r, ScanUpdate)) && Enabled(EraseAll(s), Recover(r, ReclaimOne))
    ensures Next(c, EraseAll(s), Recover(r, ReclaimOne)) == EraseAll(Next(c, s, Recover(r, ScanUpdate)))
  {
    UpdateErases(c, s, r);
    NextIsScanEffect(c, s, r, ScanUpdate);
    NextIsScanEffect(c, EraseAll(s), r, ReclaimOne);
  }

  lemma OneSimulates(c: Config, s: System, a: Action, b: Action)
    requires Enabled(s, a) && !SplitsReclaim(b) && Enabled(EraseAll(s), b)
    requires Next(c, EraseAll(s), b) == EraseAll(Next(c, s, a))
    ensures Simulates(c, s, a, [b])
  {
  }

  lemma NextIsScanEffect(c: Config, s: System, r: ScanId, pass: ScanStep)
    requires ScanEnabled(s, r, pass)
    ensures Enabled(s, Recover(r, pass)) && Next(c, s, Recover(r, pass)) == Apply(s, ScanEffect(s, r, pass))
  {
  }

  predicate AllAtomic(acts: seq<Action>) {
    forall i :: 0 <= i < |acts| ==> Atomic(acts[i])
  }

  /** One step, or none, of the atomic run. */
  lemma AtomicStep(c: Config, s: System, a: Action) returns (first: seq<Action>)
    requires Inv(c, s) && Enabled(s, a)
    ensures Simulates(c, s, a, first)
    ensures Atomic(a) ==> AllAtomic(first)
  {
    if !SplitsReclaim(a) {
      PlainSimulates(c, s, a);
      first := [a];
    } else if a.pass.ScanSelect? {
      SelectSimulates(c, s, a.r);
      first := if Next(c, s, a).scans[a.r].pc.Selected? then [] else [Recover(a.r, ReclaimOne)];
    } else {
      UpdateSimulates(c, s, a.r);
      first := [Recover(a.r, ReclaimOne)];
    }
  }

  lemma RunPrepend(c: Config, s: System, a: Action, rest: seq<Action>)
    requires Enabled(s, a) && CanRun(c, Next(c, s, a), rest)
    ensures CanRun(c, s, [a] + rest) && End(c, s, [a] + rest) == End(c, Next(c, s, a), rest)
  {
    assert ([a] + rest)[1..] == rest;
  }

  /** `atomic` does not split reclaims and ends where `acts` does. */
  ghost predicate Refines(c: Config, s: System, acts: seq<Action>, atomic: seq<Action>)
    requires CanRun(c, s, acts)
  {
    && (forall i :: 0 <= i < |atomic| ==> !SplitsReclaim(atomic[i]))
    && CanRun(c, EraseAll(s), atomic)
    && End(c, EraseAll(s), atomic) == EraseAll(End(c, s, acts))
  }

  lemma RefinesNothing(c: Config, s: System, acts: seq<Action>, rest: seq<Action>)
    requires acts != [] && CanRun(c, s, acts)
    requires Simulates(c, s, acts[0], []) && Refines(c, Next(c, s, acts[0]), acts[1..], rest)
    ensures Refines(c, s, acts, rest)
  {
  }

  lemma RefinesOne(c: Config, s: System, acts: seq<Action>, a: Action, rest: seq<Action>)
    requires acts != [] && CanRun(c, s, acts)
    requires Simulates(c, s, acts[0], [a]) && Refines(c, Next(c, s, acts[0]), acts[1..], rest)
    ensures Refines(c, s, acts, [a] + rest)
  {
    RunPrepend(c, EraseAll(s), a, rest);
  }

  lemma {:induction false} RunRefines(c: Config, s: System, acts: seq<Action>) returns (atomic: seq<Action>)
    requires Inv(c, s) && CanRun(c, s, acts)
    ensures Refines(c, s, acts, atomic)
    ensures AllAtomic(acts) ==> AllAtomic(atomic)
    decreases |acts|
  {
    if acts == [] {
      atomic := [];
    } else {
      StepKeepsInv(c, s, acts[0]);
      var rest := RunRefines(c, Next(c, s, acts[0]), acts[1..]);
      var first := AtomicStep(c, s, acts[0]);
      StepRefines(c, s, acts, first, rest);
      AtomicJoined(acts, first, rest);
      atomic := first + rest;
    }
  }

  lemma StepRefines(c: Config, s: System, acts: seq<Action>, first: seq<Action>, rest: seq<Action>)
    requires acts != [] && CanRun(c, s, acts)
    requires Simulates(c, s, acts[0], first) && Refines(c, Next(c, s, acts[0]), acts[1..], rest)
    ensures Refines(c, s, acts, first + rest)
  {
    if first == [] {
      RefinesNothing(c, s, acts, rest);
      assert first + rest == rest;
    } else {
      assert first == [first[0]];
      RefinesOne(c, s, acts, first[0], rest);
    }
  }

  lemma AtomicJoined(acts: seq<Action>, first: seq<Action>, rest: seq<Action>)
    requires acts != [] && (Atomic(acts[0]) ==> AllAtomic(first)) && (AllAtomic(acts[1..]) ==> AllAtomic(rest))
    ensures AllAtomic(acts) ==> AllAtomic(first + rest)
  {
    if AllAtomic(acts) {
      assert forall i :: 0 <= i < |acts[1..]| ==> acts[1..][i] == acts[i + 1];
    }
  }

  /** A run in which reclaims are split has an atomic counterpart: the same run
      with each selection left out and each reclaim done at its UPDATE.  It ends
      in the same database, broker, workers and log, and splits no failure unless
      the given run does. */
  lemma SplitReclaimsRefine(c: Config, clock: int, acts: seq<Action>) returns (atomic: seq<Action>)
    requires CanRun(c, Init(clock), acts)
    ensures forall i :: 0 <= i < |atomic| ==> !SplitsReclaim(atomic[i])
    ensures AllAtomic(acts) ==> AllAtomic(atomic)
    ensures CanRun(c, Init(clock), atomic)
    ensures End(c, Init(clock), atomic) == EraseAll(End(c, Init(clock), acts))
  {
    assert EraseAll(Init(clock)) == Init(clock);
    atomic := RunRefines(c, Init(clock), acts);
  }
}
