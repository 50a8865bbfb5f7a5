/** Runs of a small system, built step by step: one task, two workers, one API
    caller and one scan. */
module Replay {
  import opened Model
  import opened Backoff
  import opened Lifecycle
  import opened Dispatch
  import opened Machine
  import opened Coverage

  /** A system whose only task is task 0, as its workers 0 and 1, API caller 0 and
      scan 0 see it; `alone` says there are no others. */
  datatype View = View(
    clock: int, row: Option<Record>, broker: multiset<Message>,
    w0: Worker, w1: Worker, p: Publisher, scan: Option<Scan>, alone: bool)

  const START := View(0, None, multiset{}, Idle, Idle, Gone, None, true)

  predicate Alone(s: System) {
    s.db.Keys <= {0} && s.workers.Keys <= {0, 1} && s.publishers.Keys <= {0} && s.scans.Keys <= {0}
  }

  function ViewOf(s: System): View {
    View(s.clock, Lookup(s.db, 0), s.broker, WorkerAt(s, 0), WorkerAt(s, 1), PublisherAt(s, 0),
         if 0 in s.scans then Some(s.scans[0]) else None, Alone(s))
  }

  /** The view with another state of worker `w`. */
  function Turned(v: View, w: WorkerId, k: Worker): View {
    if w == 0 then v.(w0 := k) else v.(w1 := k)
  }

  function At(v: View, w: WorkerId): Worker {
    if w == 0 then v.w0 else v.w1
  }

  /** The effect touches nothing but what the view shows. */
  predicate InView(e: Effect) {
    && (e.op.Some? ==> e.op.value.0 == 0)
    && (e.worker.Some? ==> e.worker.value.0 <= 1)
    && (e.publisher.Some? ==> e.publisher.value.0 == 0)
    && (e.scan.Some? ==> e.scan.value.0 == 0)
  }

  /** The view after an effect, from the view before. */
  function Shown(n: System, e: Effect): View {
    View(e.clock,
         if Commits(n, e) then Some(CommittedRow(n, e)) else Lookup(n.db, 0),
         NextBroker(n, e),
         if e.worker.Some? && e.worker.value.0 == 0 then e.worker.value.1 else WorkerAt(n, 0),
         if e.worker.Some? && e.worker.value.0 == 1 then e.worker.value.1 else WorkerAt(n, 1),
         if e.publisher.Some? then e.publisher.value.1 else PublisherAt(n, 0),
         if e.scan.Some? then Some(e.scan.value.1) else if 0 in n.scans then Some(n.scans[0]) else None,
         Alone(n))
  }

  lemma AloneStays(n: System, e: Effect)
    requires InView(e)
    ensures Alone(Apply(n, e)) <==> Alone(n)
  {
    assert e.worker.Some? ==> e.worker.value.0 in {0, 1};
  }

  lemma ViewApply(n: System, e: Effect)
    requires InView(e)
    ensures ViewOf(Apply(n, e)) == Shown(n, e)
  {
    AloneStays(n, e);
  }

  /***** Runs *****/

  /** Failure transactions may be `split`, but then nobody requeues; or they are in
      one piece. */
  predicate Allowed(a: Action, split: bool) {
    if split then !(a.Api? && a.call.RequeueCall?) else Atomic(a)
  }

  ghost predicate AllowedAll(acts: seq<Action>, split: bool) {
    forall i :: 0 <= i < |acts| ==> Allowed(acts[i], split)
  }

  /** A run of allowed steps from the empty system ends in `n`. */
  ghost predicate Reaches(c: Config, n: System, split: bool) {
    exists acts :: CanRun(c, Init(0), acts) && End(c, Init(0), acts) == n && AllowedAll(acts, split)
  }

  lemma {:induction false} RunSnoc(c: Config, s: System, acts: seq<Action>, a: Action)
    requires CanRun(c, s, acts) && Enabled(End(c, s, acts), a)
    ensures CanRun(c, s, acts + [a]) && End(c, s, acts + [a]) == Next(c, End(c, s, acts), a)
    decreases |acts|
  {
    if acts == [] {
      assert CanRun(c, Next(c, s, a), [a][1..]);
      assert acts + [a] == [a];
    } else {
      assert (acts + [a])[1..] == acts[1..] + [a];
      RunSnoc(c, Next(c, s, acts[0]), acts[1..], a);
    }
  }

  lemma ReachesNext(c: Config, n: System, a: Action, split: bool)
    requires Reaches(c, n, split) && Enabled(n, a) && Allowed(a, split)
    ensures Reaches(c, Next(c, n, a), split)
  {
    var acts :| CanRun(c, Init(0), acts) && End(c, Init(0), acts) == n && AllowedAll(acts, split);
    RunSnoc(c, Init(0), acts, a);
    assert AllowedAll(acts + [a], split);
  }

  /** Some run leads to this view. */
  ghost predicate Shows(c: Config, v: View, split: bool) {
    exists n :: Reaches(c, n, split) && ViewOf(n) == v
  }

  lemma ShowsStart(c: Config, split: bool)
    ensures Shows(c, START, split)
  {
    var s := Init(0);
    assert CanRun(c, s, []) && End(c, s, []) == s && AllowedAll([], split);
    assert Reaches(c, s, split);
    assert ViewOf(s) == START;
  }

  lemma ShowsNext(c: Config, n: System, a: Action, e: Effect, split: bool)
    requires Reaches(c, n, split) && Enabled(n, a) && Allowed(a, split)
    requires EffectOf(c, n, a) == e && InView(e)
    ensures Shows(c, Shown(n, e), split)
  {
    ReachesNext(c, n, a, split);
    ViewApply(n, e);
  }

  lemma ShowsWork(c: Config, n: System, w: WorkerId, step: WorkerStep, e: Effect, split: bool)
    requires Reaches(c, n, split) && WorkerEnabled(n, w, step) && Allowed(Work(w, step), split)
    requires WorkerEffect(c, n, w, step) == e && InView(e)
    ensures Shows(c, Shown(n, e), split)
  {
    ShowsNext(c, n, Work(w, step), e, split);
  }

  lemma ShowsApi(c: Config, n: System, call: ApiStep, e: Effect, split: bool)
    requires Reaches(c, n, split) && ApiEnabled(n, 0, call) && Allowed(Api(0, call), split)
    requires ApiEffect(n, 0, call) == e && InView(e)
    ensures Shows(c, Shown(n, e), split)
  {
    ShowsNext(c, n, Api(0, call), e, split);
  }

  lemma ShowsScan(c: Config, n: System, pass: ScanStep, e: Effect, split: bool)
    requires Reaches(c, n, split) && ScanEnabled(n, 0, pass)
    requires ScanEffect(n, 0, pass) == e && InView(e)
    ensures Shows(c, Shown(n, e), split)
  {
    ShowsNext(c, n, Recover(0, pass), e, split);
  }

  /***** What single steps do to the view *****/

  lemma GoTick(c: Config, v: View, split: bool, to: int)
    requires Shows(c, v, split) && v.clock <= to
    ensures Shows(c, v.(clock := to), split)
  {
    var n :| Reaches(c, n, split) && ViewOf(n) == v;
    var e := Quiet(n).(clock := to);
    assert Shown(n, e) == v.(clock := to);
    ShowsNext(c, n, Tick(to), e, split);
  }

  lemma GoDuplicate(c: Config, v: View, split: bool, m: Message)
    requires Shows(c, v, split) && m in v.broker
    ensures Shows(c, v.(broker := v.broker + multiset{m}), split)
  {
    var n :| Reaches(c, n, split) && ViewOf(n) == v;
    var e := Quiet(n).(put := Some(m));
    assert Shown(n, e) == v.(broker := v.broker + multiset{m});
    ShowsNext(c, n, Duplicate(m), e, split);
  }

  lemma SubmitEffect(n: System, maxRetries: nat)
    requires PublisherAt(n, 0).Gone? && 0 !in n.db
    ensures ApiEffect(n, 0, Submit(0, High, maxRetries))
            == Quiet(n).(op := Some((0, Create(High, maxRetries))), publisher := Some((0, Publishing(0, High))))
  {
  }

  lemma GoSubmit(c: Config, v: View, split: bool, maxRetries: nat)
    requires Shows(c, v, split) && v.row.None? && v.p.Gone?
    ensures Shows(c, v.(row := Some(NewRecord(High, maxRetries)), p := Publishing(0, High)), split)
  {
    var n :| Reaches(c, n, split) && ViewOf(n) == v;
    var op := Create(High, maxRetries);
    var e := Quiet(n).(op := Some((0, op)), publisher := Some((0, Publishing(0, High))));
    SubmitEffect(n, maxRetries);
    assert Outcome(n, 0, op) == Applied(NewRecord(High, maxRetries));
    assert Shown(n, e) == v.(row := Some(NewRecord(High, maxRetries)), p := Publishing(0, High));
    ShowsApi(c, n, Submit(0, High, maxRetries), e, split);
  }

  lemma PublishEffect(n: System)
    requires PublisherAt(n, 0) == Publishing(0, High)
    ensures ApiEffect(n, 0, Publish(true)) == Quiet(n).(publisher := Some((0, Gone)), put := Some(Published(0, High)))
  {
  }

  lemma GoPublish(c: Config, v: View, split: bool)
    requires Shows(c, v, split) && v.p == Publishing(0, High)
    ensures Shows(c, v.(broker := v.broker + multiset{Published(0, High)}, p := Gone), split)
  {
    var n :| Reaches(c, n, split) && ViewOf(n) == v;
    var e := Quiet(n).(publisher := Some((0, Gone)), put := Some(Published(0, High)));
    PublishEffect(n);
    assert Shown(n, e) == v.(broker := v.broker + multiset{Published(0, High)}, p := Gone);
    ShowsApi(c, n, Publish(true), e, split);
  }

  lemma RequeueEffect(n: System)
    requires PublisherAt(n, 0).Gone? && 0 in n.db && n.db[0].task.status == DeadLetter && n.db[0].task.priority == High
    ensures ApiEffect(n, 0, RequeueCall(0))
            == Quiet(n).(op := Some((0, Requeue)), publisher := Some((0, Publishing(0, High))))
  {
  }

  lemma GoRequeue(c: Config, v: View)
    requires Shows(c, v, false) && v.p.Gone?
    requires v.row.Some? && v.row.value.task.status == DeadLetter && v.row.value.task.priority == High
    ensures Shows(c, v.(row := Some(RequeueRow(v.row.value).record), p := Publishing(0, High)), false)
  {
    var n :| Reaches(c, n, false) && ViewOf(n) == v;
    var e := Quiet(n).(op := Some((0, Requeue)), publisher := Some((0, Publishing(0, High))));
    RequeueEffect(n);
    assert Outcome(n, 0, Requeue) == RequeueRow(n.db[0]);
    assert Shown(n, e) == v.(row := Some(RequeueRow(v.row.value).record), p := Publishing(0, High));
    ShowsApi(c, n, RequeueCall(0), e, false);
  }

  lemma ReceiveEffect(c: Config, n: System, w: WorkerId, m: Message)
    requires WorkerAt(n, w).Idle? && m in n.broker
    ensures WorkerEffect(c, n, w, Receive(m)) == Quiet(n).(take := Some(m), worker := Some((w, Delivered(m))))
  {
  }

  lemma GoReceive(c: Config, v: View, split: bool, w: WorkerId, m: Message)
    requires Shows(c, v, split) && w <= 1 && At(v, w).Idle? && m in v.broker
    ensures Shows(c, Turned(v, w, Delivered(m)).(broker := v.broker - multiset{m}), split)
  {
    var n :| Reaches(c, n, split) && ViewOf(n) == v;
    var e := Quiet(n).(take := Some(m), worker := Some((w, Delivered(m))));
    ReceiveEffect(c, n, w, m);
    assert Shown(n, e) == Turned(v, w, Delivered(m)).(broker := v.broker - multiset{m});
    ShowsWork(c, n, w, Receive(m), e, split);
  }

  function Claimed(c: Config, v: View, hostname: string): Record
    requires v.row.Some? && v.row.value.task.status == Queued
  {
    ClaimRow(v.row.value, hostname, v.clock, c.leaseSeconds).record
  }

  function ClaimedBy(c: Config, v: View, w: WorkerId, hostname: string): View
    requires v.row.Some? && v.row.value.task.status == Queued && At(v, w).Delivered?
  {
    Turned(v, w, Executing(At(v, w).msg, |v.row.value.attempts|, v.clock + c.leaseSeconds))
    .(row := Some(Claimed(c, v, hostname)))
  }

  lemma ClaimShown(c: Config, n: System, w: WorkerId, hostname: string)
    requires w <= 1 && At(ViewOf(n), w).Delivered? && At(ViewOf(n), w).msg.task == 0
    requires 0 in n.db && n.db[0].task.status == Queued
    ensures var e := ClaimEffect(c, n, w, At(ViewOf(n), w).msg, hostname);
            InView(e) && Shown(n, e) == ClaimedBy(c, ViewOf(n), w, hostname)
  {
    var op := Claim(hostname, n.clock, c.leaseSeconds);
    assert Outcome(n, 0, op) == ClaimRow(n.db[0], hostname, n.clock, c.leaseSeconds);
  }

  lemma GoClaim(c: Config, v: View, split: bool, w: WorkerId, hostname: string)
    requires Shows(c, v, split) && w <= 1 && At(v, w).Delivered? && At(v, w).msg.task == 0
    requires v.row.Some? && v.row.value.task.status == Queued
    ensures Shows(c, ClaimedBy(c, v, w, hostname), split)
  {
    var n :| Reaches(c, n, split) && ViewOf(n) == v;
    ClaimShown(c, n, w, hostname);
    ShowsWork(c, n, w, ClaimTask(hostname), ClaimEffect(c, n, w, At(v, w).msg, hostname), split);
  }

  /** The view after worker `w` took message `m` from the broker and claimed. */
  function Taken(c: Config, v: View, w: WorkerId, m: Message, hostname: string): View
    requires v.row.Some? && v.row.value.task.status == Queued
  {
    Turned(v, w, Executing(m, |v.row.value.attempts|, v.clock + c.leaseSeconds))
    .(row := Some(Claimed(c, v, hostname)), broker := v.broker - multiset{m})
  }

  lemma GoTake(c: Config, v: View, split: bool, w: WorkerId, m: Message, hostname: string)
    requires Shows(c, v, split) && w <= 1 && At(v, w).Idle? && m in v.broker && m.task == 0
    requires v.row.Some? && v.row.value.task.status == Queued
    ensures Shows(c, Taken(c, v, w, m, hostname), split)
  {
    GoReceive(c, v, split, w, m);
    var x := Turned(v, w, Delivered(m)).(broker := v.broker - multiset{m});
    TakenIsClaimed(c, v, w, m, hostname);
    GoClaim(c, x, split, w, hostname);
  }

  lemma TakenIsClaimed(c: Config, v: View, w: WorkerId, m: Message, hostname: string)
    requires w <= 1 && v.row.Some? && v.row.value.task.status == Queued
    ensures var x := Turned(v, w, Delivered(m)).(broker := v.broker - multiset{m});
            At(x, w) == Delivered(m) && ClaimedBy(c, x, w, hostname) == Taken(c, v, w, m, hostname)
  {
  }

  lemma SkipEffect(c: Config, n: System, w: WorkerId, m: Message, hostname: string)
    requires m.task in n.db && n.db[m.task].task.status != Queued
    ensures ClaimEffect(c, n, w, m, hostname) == Quiet(n).(worker := Some((w, Idle)))
  {
  }

  /** The worker finds the task taken. */
  lemma GoSkip(c: Config, v: View, split: bool, w: WorkerId, hostname: string)
    requires Shows(c, v, split) && w <= 1 && At(v, w).Delivered? && At(v, w).msg.task == 0
    requires v.row.Some? && v.row.value.task.status != Queued
    ensures Shows(c, Turned(v, w, Idle), split)
  {
    var n :| Reaches(c, n, split) && ViewOf(n) == v;
    var e := Quiet(n).(worker := Some((w, Idle)));
    SkipEffect(c, n, w, At(v, w).msg, hostname);
    assert Shown(n, e) == Turned(v, w, Idle);
    ShowsWork(c, n, w, ClaimTask(hostname), e, split);
  }

  lemma SucceedEffect(c: Config, n: System, w: WorkerId)
    requires WorkerAt(n, w).Executing?
    ensures var k := WorkerAt(n, w);
            WorkerEffect(c, n, w, Succeed)
            == Quiet(n).(op := Some((k.msg.task, Complete(k.attempt, n.clock))), worker := Some((w, Idle)))
  {
  }

  predicate CanEnd(v: View, w: WorkerId) {
    var k := At(v, w);
    && (k.Executing? || k.FailureRead?) && k.msg.task == 0
    && v.row.Some? && v.row.value.task.status == Running && k.attempt < |v.row.value.attempts|
  }

  function Succeeding(v: View, w: WorkerId): View
    requires CanEnd(v, w)
  {
    Turned(v, w, Idle).(row := Some(CompleteRow(v.row.value, At(v, w).attempt, v.clock).record))
  }

  lemma SuccessShown(c: Config, n: System, w: WorkerId)
    requires w <= 1 && CanEnd(ViewOf(n), w) && At(ViewOf(n), w).Executing?
    ensures ViewOf(Next(c, n, Work(w, Succeed))) == Succeeding(ViewOf(n), w)
  {
    var k := WorkerAt(n, w);
    var op := Complete(k.attempt, n.clock);
    var e := Quiet(n).(op := Some((0, op)), worker := Some((w, Idle)));
    SucceedEffect(c, n, w);
    assert Outcome(n, 0, op) == CompleteRow(n.db[0], k.attempt, n.clock);
    assert Shown(n, e) == Succeeding(ViewOf(n), w);
    ViewApply(n, e);
  }

  function Failing(v: View, w: WorkerId, seen: Snapshot, error: string, at: int): View
    requires CanEnd(v, w)
  {
    var k := At(v, w);
    var r := FinalizeRow(v.row.value, k.attempt, seen, true, error, at).record;
    var number := r.task.retryCount;
    Turned(v, w, if r.task.status == Queued
                 then RetryPending(k.msg, number, seen.maxRetries, RetryCountdown(number)) else Idle)
    .(row := Some(r))
  }

  lemma FailureShown(n: System, w: WorkerId, seen: Snapshot, error: string, at: int)
    requires w <= 1 && CanEnd(ViewOf(n), w)
    ensures var k := At(ViewOf(n), w);
            var e := FailureEffect(n, w, k.msg, k.attempt, seen, true, error, at);
            InView(e) && Shown(n, e) == Failing(ViewOf(n), w, seen, error, at)
  {
    var k := At(ViewOf(n), w);
    var op := FinalizeFailure(k.attempt, seen, true, error, at);
    assert Outcome(n, 0, op) == FinalizeRow(n.db[0], k.attempt, seen, true, error, at);
  }

  /** The worker fails retryably, all at once. */
  lemma GoFail(c: Config, v: View, split: bool, w: WorkerId, error: string)
    requires Shows(c, v, split) && w <= 1 && error != "" && CanEnd(v, w) && At(v, w).Executing?
    ensures Shows(c, Failing(v, w, TakeSnapshot(v.row.value.task), error, v.clock), split)
  {
    var n :| Reaches(c, n, split) && ViewOf(n) == v;
    var k := At(v, w);
    var seen := TakeSnapshot(n.db[0].task);
    FailureShown(n, w, seen, error, n.clock);
    var e := FailureEffect(n, w, k.msg, k.attempt, seen, true, error, n.clock);
    ShowsWork(c, n, w, Fail(Failure(true, error)), e, split);
  }

  function Reading(v: View, error: string): Worker
    requires CanEnd(v, 0)
  {
    FailureRead(v.w0.msg, v.w0.attempt, v.w0.lease, TakeSnapshot(v.row.value.task), true, error, v.clock)
  }

  lemma FailSelectEffect(c: Config, n: System, error: string)
    requires CanEnd(ViewOf(n), 0) && WorkerAt(n, 0).Executing? && error != ""
    ensures WorkerEffect(c, n, 0, FailSelect(Failure(true, error)))
            == Quiet(n).(worker := Some((0, Reading(ViewOf(n), error))))
  {
  }

  /** Worker 0 reads the retry count and stops before its UPDATE. */
  lemma GoFailSelect(c: Config, v: View, error: string)
    requires Shows(c, v, true) && error != "" && CanEnd(v, 0) && v.w0.Executing?
    ensures Shows(c, v.(w0 := Reading(v, error)), true)
  {
    var n :| Reaches(c, n, true) && ViewOf(n) == v;
    var e := Quiet(n).(worker := Some((0, Reading(v, error))));
    FailSelectEffect(c, n, error);
    assert Shown(n, e) == v.(w0 := Reading(v, error));
    ShowsWork(c, n, 0, FailSelect(Failure(true, error)), e, true);
  }

  lemma GoFailUpdate(c: Config, v: View)
    requires Shows(c, v, true) && CanEnd(v, 0) && v.w0.FailureRead? && v.w0.retryable
    ensures Shows(c, Failing(v, 0, v.w0.seen, v.w0.error, v.w0.at), true)
  {
    var n :| Reaches(c, n, true) && ViewOf(n) == v;
    var k := v.w0;
    FailureShown(n, 0, k.seen, k.error, k.at);
    ShowsWork(c, n, 0, FailUpdate, FailureEffect(n, 0, k.msg, k.attempt, k.seen, true, k.error, k.at), true);
  }

  function RetryMessage(k: Worker): Message
    requires k.RetryPending?
  {
    k.msg.(retries := k.msg.retries + 1)
  }

  lemma RetryAccepted(c: Config, n: System, w: WorkerId)
    requires WorkerAt(n, w).RetryPending? && WorkerAt(n, w).msg.retries + 1 <= WorkerAt(n, w).limit
    ensures WorkerEffect(c, n, w, SendRetry(true))
            == Quiet(n).(worker := Some((w, Idle)), put := Some(RetryMessage(WorkerAt(n, w))))
  {
  }

  /** Celery accepts the retry. */
  lemma GoSendRetry(c: Config, v: View, split: bool, w: WorkerId)
    requires Shows(c, v, split) && w <= 1 && At(v, w).RetryPending? && At(v, w).msg.retries + 1 <= At(v, w).limit
    ensures Shows(c, Turned(v, w, Idle).(broker := v.broker + multiset{RetryMessage(At(v, w))}), split)
  {
    var n :| Reaches(c, n, split) && ViewOf(n) == v;
    var m := RetryMessage(At(v, w));
    var e := Quiet(n).(worker := Some((w, Idle)), put := Some(m));
    RetryAccepted(c, n, w);
    assert Shown(n, e) == Turned(v, w, Idle).(broker := v.broker + multiset{m});
    ShowsWork(c, n, w, SendRetry(true), e, split);
  }

  lemma RetryRefused(c: Config, n: System, w: WorkerId)
    requires WorkerAt(n, w).RetryPending? && WorkerAt(n, w).msg.retries + 1 > WorkerAt(n, w).limit
    ensures WorkerEffect(c, n, w, SendRetry(true))
            == Quiet(n).(worker := Some((w, Idle)), strand := Some(WorkerAt(n, w).msg.task))
  {
  }

  /** Celery refuses the retry. */
  lemma RefusalShown(c: Config, n: System, w: WorkerId)
    requires w <= 1 && WorkerAt(n, w).RetryPending? && WorkerAt(n, w).msg.retries + 1 > WorkerAt(n, w).limit
    ensures ViewOf(Next(c, n, Work(w, SendRetry(true)))) == Turned(ViewOf(n), w, Idle)
    ensures Next(c, n, Work(w, SendRetry(true))).db == n.db
  {
    var e := Quiet(n).(worker := Some((w, Idle)), strand := Some(WorkerAt(n, w).msg.task));
    RetryRefused(c, n, w);
    assert Shown(n, e) == Turned(ViewOf(n), w, Idle);
    ViewApply(n, e);
  }

  lemma ScanStartEnabled(n: System)
    requires Alone(n) && 0 !in n.scans && 0 in n.db && Stale(n.db[0].task, n.clock)
    ensures ScanEnabled(n, 0, ScanStart(n.clock, [0]))
  {
    assert StaleIds(n.db, n.clock) == {0};
  }

  lemma GoScanStart(c: Config, v: View, split: bool)
    requires Shows(c, v, split) && v.alone && v.scan.None? && v.row.Some? && Stale(v.row.value.task, v.clock)
    ensures Shows(c, v.(scan := Some(Scan(v.clock, [0], Looping, [], []))), split)
  {
    var n :| Reaches(c, n, split) && ViewOf(n) == v;
    ScanStartEnabled(n);
    var e := Quiet(n).(scan := Some((0, Scan(n.clock, [0], Looping, [], []))));
    assert ScanEffect(n, 0, ScanStart(n.clock, [0])) == e;
    assert Shown(n, e) == v.(scan := Some(Scan(v.clock, [0], Looping, [], [])));
    ShowsScan(c, n, ScanStart(n.clock, [0]), e, split);
  }

  /** A stale row with retries left goes back to QUEUED. */
  lemma ReclaimRequeues(r: Record, now: int)
    requires Stale(r.task, now) && r.task.retryCount < r.task.maxRetries
    ensures ReclaimNow(r, now).Applied?
    ensures var task := ReclaimNow(r, now).record.task;
            && task.status == Queued && task.retryCount == r.task.retryCount + 1
            && task.maxRetries == r.task.maxRetries && task.priority == r.task.priority
  {
  }

  predicate CanReclaim(v: View, now: int) {
    && v.row.Some? && Stale(v.row.value.task, now) && v.row.value.task.retryCount < v.row.value.task.maxRetries
    && v.scan == Some(Scan(now, [0], Looping, [], []))
  }

  function Reclaimed(v: View, now: int): View
    requires CanReclaim(v, now)
  {
    var result := ReclaimedTask(0, Queued, v.row.value.task.retryCount + 1, false);
    v.(row := Some(ReclaimNow(v.row.value, now).record),
       scan := Some(Scan(now, [], Redispatching(result), [], [])))
  }

  lemma ReclaimShown(n: System, now: int)
    requires CanReclaim(ViewOf(n), now)
    ensures ScanEnabled(n, 0, ReclaimOne)
    ensures var e := ScanEffect(n, 0, ReclaimOne);
            InView(e) && Shown(n, e) == Reclaimed(ViewOf(n), now)
  {
    var seen := TakeSnapshot(n.db[0].task);
    var scan := Scan(now, [], Looping, [], []);
    var result := ReclaimedTask(0, Queued, n.db[0].task.retryCount + 1, false);
    ReclaimRequeues(n.db[0], now);
    assert Outcome(n, 0, Reclaim(seen, now)) == ReclaimNow(n.db[0], now);
    assert n.scans[0].remaining[1..] == [];
    assert NextCandidate(n.scans[0]) == (0, scan);
    var e := Quiet(n).(op := Some((0, Reclaim(seen, now))), scan := Some((0, scan.(pc := Redispatching(result)))));
    assert ScanEffect(n, 0, ReclaimOne) == e;
    assert Shown(n, e) == Reclaimed(ViewOf(n), now);
  }

  lemma GoReclaim(c: Config, v: View, split: bool, now: int)
    requires Shows(c, v, split) && CanReclaim(v, now)
    ensures Shows(c, Reclaimed(v, now), split)
  {
    var n :| Reaches(c, n, split) && ViewOf(n) == v;
    ReclaimShown(n, now);
    ShowsScan(c, n, ReclaimOne, ScanEffect(n, 0, ReclaimOne), split);
  }

  lemma GoRedispatch(c: Config, v: View, split: bool) returns (scan: Option<Scan>)
    requires Shows(c, v, split) && v.scan.Some? && v.scan.value.pc.Redispatching?
    requires v.scan.value.pc.pending.task == 0 && v.row.Some?
    ensures scan.Some? && scan.value.pc.Looping?
    ensures Shows(c, v.(scan := scan,
                        broker := v.broker + multiset{Published(0, v.row.value.task.priority)}), split)
  {
    var n :| Reaches(c, n, split) && ViewOf(n) == v;
    var e := ScanEffect(n, 0, Redispatch(true));
    scan := Some(e.scan.value.1);
    ShowsScan(c, n, Redispatch(true), e, split);
  }

  /***** A worker that takes its own retry *****/

  lemma PutAndTaken(b: multiset<Message>, m: Message)
    ensures b + multiset{m} - multiset{m} == b
  {
  }

  /** The view after the worker sent its retry, got it back and claimed. */
  function Rerun(c: Config, v: View, w: WorkerId, hostname: string): View
    requires At(v, w).RetryPending? && v.row.Some? && v.row.value.task.status == Queued
  {
    Turned(v, w, Executing(RetryMessage(At(v, w)), |v.row.value.attempts|, v.clock + c.leaseSeconds))
    .(row := Some(Claimed(c, v, hostname)))
  }

  lemma RerunIsTaken(c: Config, v: View, w: WorkerId, hostname: string)
    requires w <= 1 && At(v, w).RetryPending? && v.row.Some? && v.row.value.task.status == Queued
    ensures var m := RetryMessage(At(v, w));
            Taken(c, Turned(v, w, Idle).(broker := v.broker + multiset{m}), w, m, hostname) == Rerun(c, v, w, hostname)
  {
    PutAndTaken(v.broker, RetryMessage(At(v, w)));
  }

  lemma GoAgain(c: Config, v: View, split: bool, w: WorkerId, hostname: string)
    requires Shows(c, v, split) && w <= 1 && At(v, w).RetryPending? && At(v, w).msg.task == 0
    requires At(v, w).msg.retries + 1 <= At(v, w).limit
    requires v.row.Some? && v.row.value.task.status == Queued
    ensures Shows(c, Rerun(c, v, w, hostname), split)
  {
    var m := RetryMessage(At(v, w));
    GoSendRetry(c, v, split, w);
    GoTake(c, Turned(v, w, Idle).(broker := v.broker + multiset{m}), split, w, m, hostname);
    RerunIsTaken(c, v, w, hostname);
  }

  /***** Coverage *****/

  /** Nothing in the view will bring the task to a worker. */
  predicate Uncovering(v: View) {
    && v.alone && v.broker == multiset{} && v.p.Gone?
    && !v.w0.Delivered? && !v.w0.RetryPending? && !v.w1.Delivered? && !v.w1.RetryPending?
    && (v.scan.Some? ==> !v.scan.value.pc.Redispatching?)
  }

  lemma NobodyCovers(n: System, t: TaskId)
    requires Uncovering(ViewOf(n))
    ensures !Covered(n, t)
  {
    forall w | w in n.workers ensures !WorkerCovers(n.workers[w], t) {
      assert w in {0, 1};
    }
    forall p | p in n.publishers ensures !PublisherCovers(n.publishers[p], t) {
      assert p in {0};
    }
    forall r | r in n.scans ensures !ScanCovers(n.scans[r], t) {
      assert r in {0};
    }
  }

  /***** Facts about one row *****/

  predicate Fields(r: Record, status: Status, retryCount: int, maxRetries: int) {
    && r.task.status == status && r.task.retryCount == retryCount && r.task.maxRetries == maxRetries
    && r.task.priority == High
  }

  lemma ClaimFields(r: Record, hostname: string, at: int, leaseSeconds: int)
    requires Fields(r, Queued, r.task.retryCount, r.task.maxRetries)
    ensures var res := ClaimRow(r, hostname, at, leaseSeconds);
            && res.Applied? && Fields(res.record, Running, r.task.retryCount, r.task.maxRetries)
            && |res.record.attempts| == |r.attempts| + 1
  {
  }

  lemma FailureFields(r: Record, k: nat, seen: Snapshot, error: string, at: int)
    requires Fields(r, Running, r.task.retryCount, r.task.maxRetries) && k < |r.attempts|
    ensures var res := FinalizeRow(r, k, seen, true, error, at);
            && res.Applied? && |res.record.attempts| == |r.attempts|
            && (if seen.retryCount < seen.maxRetries
                then Fields(res.record, Queued, seen.retryCount + 1, r.task.maxRetries)
                else Fields(res.record, DeadLetter, seen.retryCount, r.task.maxRetries))
  {
  }
}
