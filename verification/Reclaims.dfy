/** Recovery over whole runs, with its transactions split: every RUNNING period
    is reclaimed at most once, and what a scan returns is exactly what it did. */
module Reclaims {
  import opened Model
  import opened Lifecycle
  import opened Dispatch
  import opened Machine
  import opened Safety

  /** The reclaims of one scan, in commit order. */
  function Mine(log: seq<Committed>, r: ScanId): seq<ReclaimedTask> {
    if log == [] then []
    else
      var rest := Mine(log[..|log| - 1], r);
      var last := log[|log| - 1];
      if last.scan == r then rest + [last.result] else rest
  }

  /** A scan's list without the redispatch flags. */
  function Plain(xs: seq<ReclaimedTask>): seq<ReclaimedTask> {
    if xs == [] then [] else Plain(xs[..|xs| - 1]) + [xs[|xs| - 1].(redispatched := false)]
  }

  /** The tasks a list reports as requeued. */
  function Requeued(xs: seq<ReclaimedTask>): seq<TaskId> {
    if xs == [] then []
    else
      var rest := Requeued(xs[..|xs| - 1]);
      var last := xs[|xs| - 1];
      if last.outcome == Queued then rest + [last.task] else rest
  }

  /** What a live scan has reclaimed, a task it is still dispatching included. */
  function Listed(scan: Scan): seq<ReclaimedTask> {
    Plain(scan.reclaimed) + if scan.pc.Redispatching? then [scan.pc.pending] else []
  }

  /** An entry names an attempt that is closed now; a running task's current
      attempt is in no entry. */
  ghost predicate EntryOk(db: Database, x: Committed) {
    && x.result.task in db
    && var r := db[x.result.task];
       && 1 <= x.period <= |r.attempts|
       && r.attempts[x.period - 1].finishedAt.Some?
       && (r.task.status == Running ==> x.period < |r.attempts|)
  }

  ghost predicate LogOk(db: Database, log: seq<Committed>) {
    && (forall i :: 0 <= i < |log| ==> EntryOk(db, log[i]))
    && (forall i, j :: 0 <= i < j < |log| && log[i].result.task == log[j].result.task ==> log[i].period < log[j].period)
  }

  ghost predicate ScanMatches(log: seq<Committed>, r: ScanId, scan: Scan) {
    && scan.attempted == Requeued(scan.reclaimed)
    && if scan.pc.Crashed? then Plain(scan.reclaimed) <= Mine(log, r) else Mine(log, r) == Listed(scan)
  }

  ghost predicate ScansMatch(s: System) {
    && (forall r :: r in s.scans ==> ScanMatches(s.reclaims, r, s.scans[r]))
    && (forall i :: 0 <= i < |s.reclaims| ==> s.reclaims[i].scan in s.scans)
  }

  ghost predicate LogInv(s: System) {
    LogOk(s.db, s.reclaims) && ScansMatch(s)
  }

  /***** The redispatch flag *****/

  /** What a scan step does to its list: at most one entry more, marked redispatched
      if and only if this step publishes a message for it; the requeued tasks, and
      only they, are listed by their redispatch. */
  ghost predicate ListsTruly(s: System, e: Effect, r: ScanId, pass: ScanStep) {
    r in s.scans && e.scan.Some? ==>
      var (before, after) := (s.scans[r].reclaimed, e.scan.value.1.reclaimed);
      || (after == before && e.put.None?)
      || (|after| == |before| + 1 && after[..|before|] == before
          && var x := after[|before|];
             && x.task in s.db
             && e.put == (if x.redispatched then Some(Published(x.task, s.db[x.task].task.priority)) else None)
             && (x.outcome == Queued <==> pass.Redispatch?))
  }

  lemma ReclaimListsTruly(s: System, r: ScanId, scan: Scan, t: TaskId, seen: Snapshot, pass: ScanStep)
    requires r in s.scans && scan.reclaimed == s.scans[r].reclaimed && !pass.Redispatch? && t in s.db
    ensures ListsTruly(s, ReclaimEffect(s, r, scan, t, seen), r, pass)
  {
  }

  lemma RedispatchListsTruly(s: System, r: ScanId, ok: bool)
    requires ScanEnabled(s, r, Redispatch(ok))
    requires s.scans[r].pc.pending.outcome == Queued && s.scans[r].pc.pending.task in s.db
    ensures ListsTruly(s, ScanEffect(s, r, Redispatch(ok)), r, Redispatch(ok))
  {
  }

  lemma ScanListsTruly(c: Config, s: System, r: ScanId, pass: ScanStep)
    requires Inv(c, s) && ScanEnabled(s, r, pass)
    ensures ListsTruly(s, ScanEffect(s, r, pass), r, pass)
  {
    if pass.ReclaimOne? {
      var (t, rest) := NextCandidate(s.scans[r]);
      assert ScanOk(s.clock, s.db, s.scans[r]);
      ReclaimListsTruly(s, r, rest, t, TakeSnapshot(s.db[t].task), pass);
    } else if pass.ScanUpdate? {
      var scan := s.scans[r];
      assert ScanOk(s.clock, s.db, scan);
      ReclaimListsTruly(s, r, scan.(pc := Looping), scan.pc.task, scan.pc.seen, pass);
    } else if pass.Redispatch? {
      assert ScanOk(s.clock, s.db, s.scans[r]);
      RedispatchListsTruly(s, r, pass.ok);
    }
  }

  /** The tasks a list reports as redispatched. */
  function Redispatched(xs: seq<ReclaimedTask>): seq<TaskId> {
    if xs == [] then []
    else
      var rest := Redispatched(xs[..|xs| - 1]);
      var last := xs[|xs| - 1];
      if last.redispatched then rest + [last.task] else rest
  }

  /** The messages are those of the tasks, in order, on the queues of their
      priorities. */
  ghost predicate MessagesOf(db: Database, sent: seq<Message>, ts: seq<TaskId>) {
    && |sent| == |ts|
    && forall j :: 0 <= j < |ts| ==> ts[j] in db && sent[j] == Published(ts[j], db[ts[j]].task.priority)
  }

  lemma MessagesStay(db: Database, next: Database, sent: seq<Message>, ts: seq<TaskId>)
    requires Grows(db, next) && MessagesOf(db, sent, ts)
    ensures MessagesOf(next, sent, ts)
  {
    forall j | 0 <= j < |ts| ensures sent[j] == Published(ts[j], next[ts[j]].task.priority) {
      assert Extends(db[ts[j]], next[ts[j]]);
    }
  }

  /** What one step of scan `r` publishes. */
  ghost function StepSends(c: Config, s: System, a: Action, r: ScanId): seq<Message>
    requires Enabled(s, a)
  {
    var put := EffectOf(c, s, a).put;
    if a.Recover? && a.r == r && put.Some? then [put.value] else []
  }

  /** What scan `r` publishes in a run, in order. */
  ghost function Sends(c: Config, s: System, acts: seq<Action>, r: ScanId): seq<Message>
    requires CanRun(c, s, acts)
    decreases |acts|
  {
    if acts == [] then [] else StepSends(c, s, acts[0], r) + Sends(c, Next(c, s, acts[0]), acts[1..], r)
  }

  ghost predicate SentAsListed(s: System, r: ScanId, sent: seq<Message>) {
    if r in s.scans then MessagesOf(s.db, sent, Redispatched(s.scans[r].reclaimed)) else sent == []
  }

  lemma RedispatchedOneMore(before: seq<ReclaimedTask>, after: seq<ReclaimedTask>)
    requires |after| == |before| + 1 && after[..|before|] == before
    ensures var x := after[|before|];
            Redispatched(after) == Redispatched(before) + if x.redispatched then [x.task] else []
  {
  }

  /** The step is one of another process. */
  lemma OthersKeepScan(c: Config, s: System, a: Action, r: ScanId)
    requires Enabled(s, a) && !(a.Recover? && a.r == r)
    ensures var e := EffectOf(c, s, a); e.scan.Some? ==> e.scan.value.0 != r
  {
  }

  lemma ListedIsSent(s: System, e: Effect, r: ScanId, pass: ScanStep, sent: seq<Message>)
    requires r in s.scans && e.scan.Some? && e.scan.value.0 == r
    requires ListsTruly(s, e, r, pass) && SentAsListed(s, r, sent)
    ensures SentAsListed(Apply(s, e), r, sent + if e.put.Some? then [e.put.value] else [])
  {
    var (before, after) := (s.scans[r].reclaimed, e.scan.value.1.reclaimed);
    StepGrows(s, e);
    if after != before {
      RedispatchedOneMore(before, after);
      assert MessagesOf(s.db, sent + if e.put.Some? then [e.put.value] else [], Redispatched(after));
    }
    MessagesStay(s.db, NextDb(s, e), sent + if e.put.Some? then [e.put.value] else [], Redispatched(after));
  }

  lemma OthersSend(s: System, e: Effect, r: ScanId, sent: seq<Message>)
    requires SentAsListed(s, r, sent) && (e.scan.Some? ==> e.scan.value.0 != r)
    ensures SentAsListed(Apply(s, e), r, sent)
  {
    StepGrows(s, e);
    if r in s.scans {
      MessagesStay(s.db, NextDb(s, e), sent, Redispatched(s.scans[r].reclaimed));
    }
  }

  lemma StartSends(c: Config, s: System, r: ScanId, pass: ScanStep)
    requires ScanEnabled(s, r, pass) && pass.ScanStart?
    ensures var e := ScanEffect(s, r, pass); e.put.None? && SentAsListed(Apply(s, e), r, [])
  {
  }

  lemma EveryPassListsIts(c: Config, s: System, r: ScanId, pass: ScanStep)
    requires ScanEnabled(s, r, pass)
    ensures var e := ScanEffect(s, r, pass); e.scan.Some? && e.scan.value.0 == r
  {
  }

  lemma StepSendsAsListed(c: Config, s: System, a: Action, r: ScanId, sent: seq<Message>)
    requires Inv(c, s) && Enabled(s, a) && SentAsListed(s, r, sent)
    ensures SentAsListed(Next(c, s, a), r, sent + StepSends(c, s, a, r))
  {
    var e := EffectOf(c, s, a);
    if !(a.Recover? && a.r == r) {
      OthersKeepScan(c, s, a, r);
      OthersSend(s, e, r, sent);
      assert sent + [] == sent;
    } else if a.pass.ScanStart? {
      StartSends(c, s, r, a.pass);
      assert sent == [];
    } else {
      ScanListsTruly(c, s, r, a.pass);
      EveryPassListsIts(c, s, r, a.pass);
      ListedIsSent(s, e, r, a.pass, sent);
    }
  }

  lemma Regroup(a: seq<Message>, b: seq<Message>, d: seq<Message>)
    ensures a + (b + d) == a + b + d
  {
  }

  lemma {:induction false} RunSendsAsListed(c: Config, s: System, acts: seq<Action>, r: ScanId, sent: seq<Message>)
    requires Inv(c, s) && CanRun(c, s, acts) && SentAsListed(s, r, sent)
    ensures SentAsListed(End(c, s, acts), r, sent + Sends(c, s, acts, r))
    decreases |acts|
  {
    if acts == [] {
      assert sent + [] == sent;
    } else {
      var first := StepSends(c, s, acts[0], r);
      StepSendsAsListed(c, s, acts[0], r, sent);
      StepKeepsInv(c, s, acts[0]);
      RunSendsAsListed(c, Next(c, s, acts[0]), acts[1..], r, sent + first);
      Regroup(sent, first, Sends(c, Next(c, s, acts[0]), acts[1..], r));
    }
  }

  /** In every run, the entries of a scan marked redispatched are, in order, exactly
      the messages it published, each on the queue of its task's priority; so for a
      finished scan, and at any time before. */
  lemma ScanSendsAsListed(c: Config, clock: int, acts: seq<Action>, r: ScanId)
    requires CanRun(c, Init(clock), acts)
    ensures var (s, sent) := (End(c, Init(clock), acts), Sends(c, Init(clock), acts, r));
            if r in s.scans then MessagesOf(s.db, sent, Redispatched(s.scans[r].reclaimed)) else sent == []
  {
    RunSendsAsListed(c, Init(clock), acts, r, []);
    assert [] + Sends(c, Init(clock), acts, r) == Sends(c, Init(clock), acts, r);
  }

  /***** The log and the rows *****/

  ghost predicate StaysClosed(before: Record, after: Record) {
    && |before.attempts| <= |after.attempts|
    && (after.task.status == Running ==> |before.attempts| < |after.attempts|)
    && forall i :: 0 <= i < |before.attempts| && before.attempts[i].finishedAt.Some? ==>
         after.attempts[i].finishedAt.Some?
  }

  lemma OpStaysClosed(row: Option<Record>, op: RowOp)
    requires row.Some?
    ensures var res := ApplyOp(row, op); res.Applied? ==> StaysClosed(row.value, res.record)
  {
  }

  lemma EntryStays(s: System, e: Effect, x: Committed)
    requires EntryOk(s.db, x)
    ensures EntryOk(NextDb(s, e), x)
  {
    if Commits(s, e) && e.op.value.0 == x.result.task {
      OpStaysClosed(Lookup(s.db, x.result.task), e.op.value.1);
    }
  }

  /** A committed reclaim starts from a running row and closes the attempt that
      was running. */
  lemma ReclaimEndsPeriod(leaseSeconds: int, r: Record, seen: Snapshot, now: int)
    requires RowInv(leaseSeconds, r)
    ensures var res := ReclaimRow(r, seen, now);
            res.Applied? ==>
              && r.task.status == Running
              && |res.record.attempts| == |r.attempts| >= 1
              && res.record.attempts[|r.attempts| - 1].finishedAt.Some?
              && res.record.task.status != Running
  {
    if r.task.status == Running {
      LatestOpenIsLast(leaseSeconds, r);
    }
  }

  /** The effect commits a reclaim of a scan. */
  predicate CommitsReclaim(s: System, e: Effect) {
    Commits(s, e) && e.op.value.1.Reclaim? && e.scan.Some?
  }

  /** The new entry is in order, and later than the task's other entries. */
  lemma NewEntryOk(c: Config, s: System, e: Effect)
    requires RowsOk(c, s.db) && LogOk(s.db, s.reclaims) && CommitsReclaim(s, e)
    ensures |NextReclaims(s, e)| == |s.reclaims| + 1 && NextReclaims(s, e)[..|s.reclaims|] == s.reclaims
    ensures var x := NextReclaims(s, e)[|s.reclaims|];
            && EntryOk(NextDb(s, e), x)
            && forall i :: 0 <= i < |s.reclaims| && s.reclaims[i].result.task == x.result.task ==>
                 s.reclaims[i].period < x.period
  {
    var (t, op) := e.op.value;
    ReclaimEndsPeriod(c.leaseSeconds, s.db[t], op.seen, op.now);
    forall i | 0 <= i < |s.reclaims| && s.reclaims[i].result.task == t
      ensures s.reclaims[i].period < |s.db[t].attempts|
    {
      assert EntryOk(s.db, s.reclaims[i]);
    }
  }

  lemma EntriesStay(s: System, e: Effect)
    requires LogOk(s.db, s.reclaims)
    ensures LogOk(NextDb(s, e), s.reclaims)
  {
    forall i | 0 <= i < |s.reclaims| ensures EntryOk(NextDb(s, e), s.reclaims[i]) {
      EntryStays(s, e, s.reclaims[i]);
    }
  }

  lemma LogOneMore(db: Database, log: seq<Committed>, next: seq<Committed>)
    requires LogOk(db, log) && |next| == |log| + 1 && next[..|log|] == log
    requires EntryOk(db, next[|log|])
    requires forall i :: 0 <= i < |log| && log[i].result.task == next[|log|].result.task ==>
               log[i].period < next[|log|].period
    ensures LogOk(db, next)
  {
    assert forall i :: 0 <= i < |log| ==> next[i] == log[i];
  }

  lemma ApplyKeepsLog(c: Config, s: System, e: Effect)
    requires RowsOk(c, s.db) && LogOk(s.db, s.reclaims)
    ensures LogOk(NextDb(s, e), NextReclaims(s, e))
  {
    EntriesStay(s, e);
    if CommitsReclaim(s, e) {
      NewEntryOk(c, s, e);
      LogOneMore(NextDb(s, e), s.reclaims, NextReclaims(s, e));
    }
  }

  /***** The log and the scans *****/

  /** The log entry an effect adds, as its scan will list it. */
  function Entry(s: System, e: Effect): seq<ReclaimedTask> {
    if Commits(s, e) && e.op.value.1.Reclaim? && e.scan.Some? then
      var task := CommittedRow(s, e).task;
      [ReclaimedTask(e.op.value.0, task.status, task.retryCount, false)]
    else []
  }

  /** An effect lists in its scan exactly what it reclaims. */
  ghost predicate EffectMatches(s: System, e: Effect) {
    if e.scan.None? then !Commits(s, e) || !e.op.value.1.Reclaim?
    else
      var (r, scan) := e.scan.value;
      && scan.attempted == Requeued(scan.reclaimed)
      && if r !in s.scans then Entry(s, e) == [] && !scan.pc.Crashed? && Listed(scan) == []
         else if scan.pc.Crashed? then
           && !s.scans[r].pc.Crashed? && Entry(s, e) == [] && scan.reclaimed == s.scans[r].reclaimed
         else !s.scans[r].pc.Crashed? && Listed(scan) == Listed(s.scans[r]) + Entry(s, e)
  }

  lemma MineExtends(s: System, e: Effect, r: ScanId)
    ensures Mine(NextReclaims(s, e), r)
            == Mine(s.reclaims, r) + if e.scan.Some? && e.scan.value.0 == r then Entry(s, e) else []
  {
    if |NextReclaims(s, e)| > |s.reclaims| {
      assert NextReclaims(s, e)[..|s.reclaims|] == s.reclaims;
    }
  }

  lemma {:induction false} MineOfStranger(log: seq<Committed>, r: ScanId)
    requires forall i :: 0 <= i < |log| ==> log[i].scan != r
    ensures Mine(log, r) == []
  {
    if log != [] {
      MineOfStranger(log[..|log| - 1], r);
    }
  }

  lemma ApplyKeepsMatch(s: System, e: Effect)
    requires ScansMatch(s) && EffectMatches(s, e)
    ensures ScansMatch(Apply(s, e))
  {
    var n := Apply(s, e);
    forall r | r in n.scans ensures ScanMatches(n.reclaims, r, n.scans[r]) {
      MineExtends(s, e, r);
      if r in s.scans {
        assert ScanMatches(s.reclaims, r, s.scans[r]);
      } else {
        MineOfStranger(s.reclaims, r);
      }
    }
  }

  /***** The steps *****/

  lemma WorkerMatches(c: Config, s: System, w: WorkerId, step: WorkerStep)
    requires WorkerEnabled(s, w, step)
    ensures EffectMatches(s, WorkerEffect(c, s, w, step))
  {
  }

  lemma PlainSnoc(xs: seq<ReclaimedTask>, x: ReclaimedTask)
    ensures Plain(xs + [x]) == Plain(xs) + [x.(redispatched := false)]
    ensures Requeued(xs + [x]) == Requeued(xs) + if x.outcome == Queued then [x.task] else []
  {
    assert (xs + [x])[..|xs|] == xs;
  }

  lemma ReclaimMatches(s: System, r: ScanId, scan: Scan, t: TaskId, seen: Snapshot)
    requires r in s.scans && scan.pc.Looping?
    requires !s.scans[r].pc.Crashed? && Listed(scan) == Listed(s.scans[r])
    requires scan.attempted == Requeued(scan.reclaimed)
    ensures EffectMatches(s, ReclaimEffect(s, r, scan, t, seen))
  {
    var res := Outcome(s, t, Reclaim(seen, scan.now));
    if res.Applied? {
      PlainSnoc(scan.reclaimed, ReclaimedTask(t, res.record.task.status, res.record.task.retryCount, false));
    }
  }

  lemma ReclaimStepMatches(c: Config, s: System, r: ScanId, pass: ScanStep)
    requires Inv(c, s) && ScansMatch(s) && ScanEnabled(s, r, pass) && (pass.ReclaimOne? || pass.ScanUpdate?)
    ensures EffectMatches(s, ScanEffect(s, r, pass))
  {
    var scan := s.scans[r];
    assert ScanMatches(s.reclaims, r, scan);
    assert ScanOk(s.clock, s.db, scan);
    if pass.ReclaimOne? {
      var (t, rest) := NextCandidate(scan);
      ReclaimMatches(s, r, rest, t, TakeSnapshot(s.db[t].task));
    } else {
      ReclaimMatches(s, r, scan.(pc := Looping), scan.pc.task, scan.pc.seen);
    }
  }

  lemma RedispatchMatches(c: Config, s: System, r: ScanId, ok: bool)
    requires Inv(c, s) && ScansMatch(s) && ScanEnabled(s, r, Redispatch(ok))
    ensures EffectMatches(s, ScanEffect(s, r, Redispatch(ok)))
  {
    var scan := s.scans[r];
    assert ScanMatches(s.reclaims, r, scan);
    assert ScanOk(s.clock, s.db, scan);
    PlainSnoc(scan.reclaimed, scan.pc.pending.(redispatched := ok));
  }

  lemma StartMatches(c: Config, s: System, r: ScanId, pass: ScanStep)
    requires ScanEnabled(s, r, pass) && pass.ScanStart?
    ensures EffectMatches(s, ScanEffect(s, r, pass))
  {
  }

  /** Selecting, finishing and crashing list nothing. */
  lemma QuietPassMatches(s: System, r: ScanId, pass: ScanStep)
    requires ScansMatch(s) && ScanEnabled(s, r, pass) && (pass.ScanSelect? || pass.ScanEnd? || pass.ScanCrash?)
    ensures EffectMatches(s, ScanEffect(s, r, pass))
  {
    assert ScanMatches(s.reclaims, r, s.scans[r]);
  }

  lemma ScanMatchesStep(c: Config, s: System, r: ScanId, pass: ScanStep)
    requires Inv(c, s) && ScansMatch(s) && ScanEnabled(s, r, pass)
    ensures EffectMatches(s, ScanEffect(s, r, pass))
  {
    if pass.ScanStart? {
      StartMatches(c, s, r, pass);
    } else if pass.ReclaimOne? || pass.ScanUpdate? {
      ReclaimStepMatches(c, s, r, pass);
    } else if pass.Redispatch? {
      RedispatchMatches(c, s, r, pass.ok);
    } else {
      QuietPassMatches(s, r, pass);
    }
  }

  lemma ActionMatches(c: Config, s: System, a: Action)
    requires Inv(c, s) && ScansMatch(s) && Enabled(s, a)
    ensures EffectMatches(s, EffectOf(c, s, a))
  {
    if a.Work? {
      WorkerMatches(c, s, a.w, a.step);
    } else if a.Recover? {
      ScanMatchesStep(c, s, a.r, a.pass);
    } else {
      EnvironmentMatches(c, s, a);
    }
  }

  lemma EnvironmentMatches(c: Config, s: System, a: Action)
    requires Enabled(s, a) && !a.Work? && !a.Recover?
    ensures EffectMatches(s, EffectOf(c, s, a))
  {
  }

  lemma {:induction false} RunKeepsLog(c: Config, s: System, acts: seq<Action>)
    requires Inv(c, s) && LogInv(s) && CanRun(c, s, acts)
    ensures LogInv(End(c, s, acts))
    decreases |acts|
  {
    if acts != [] {
      var e := EffectOf(c, s, acts[0]);
      ActionMatches(c, s, acts[0]);
      ApplyKeepsLog(c, s, e);
      ApplyKeepsMatch(s, e);
      StepKeepsInv(c, s, acts[0]);
      RunKeepsLog(c, Next(c, s, acts[0]), acts[1..]);
    }
  }

  /** However many scans overlap, no RUNNING period is reclaimed twice, by the
      same scan or by two. */
  lemma ReclaimedOncePerPeriod(c: Config, clock: int, acts: seq<Action>, i: nat, j: nat)
    requires CanRun(c, Init(clock), acts)
    requires i < j < |End(c, Init(clock), acts).reclaims|
    ensures var log := End(c, Init(clock), acts).reclaims;
            !(log[i].result.task == log[j].result.task && log[i].period == log[j].period)
  {
    RunKeepsLog(c, Init(clock), acts);
  }

  /** A scan that ran to completion returns one entry for each reclaim it
      committed, in order, and called dispatch once for each requeued task. */
  lemma FinishedScanIsTruthful(c: Config, clock: int, acts: seq<Action>, r: ScanId)
    requires CanRun(c, Init(clock), acts)
    ensures var s := End(c, Init(clock), acts);
            r in s.scans && s.scans[r].pc.Finished? ==>
              && Plain(s.scans[r].reclaimed) == Mine(s.reclaims, r)
              && s.scans[r].attempted == Requeued(s.scans[r].reclaimed)
  {
    RunKeepsLog(c, Init(clock), acts);
    var s := End(c, Init(clock), acts);
    assert r in s.scans ==> ScanMatches(s.reclaims, r, s.scans[r]);
  }
}
