/** A recovery scan of the machine with nobody else at work does what its loop is
    specified to do. */
module LoneScan {
  import opened Model
  import opened Lifecycle
  import opened Machine
  import opened Monitoring

  /** A step of scan `r` other than its crash. */
  predicate StepOf(a: Action, r: ScanId) {
    a.Recover? && a.r == r && !a.pass.ScanStart? && !a.pass.ScanCrash?
  }

  /** The candidates before number `i` are done, one entry for each. */
  ghost predicate Done(before: Database, db: Database, order: seq<TaskId>, i: nat, scan: Scan, listed: nat) {
    && i <= |order|
    && scan.remaining == order[i..]
    && listed <= i
    && db == ReclaimEach(before, order[..listed], scan.now)
  }

  /** How far the scan is. */
  ghost predicate Progress(before: Database, db: Database, order: seq<TaskId>, scan: Scan) {
    var i := |order| - |scan.remaining|;
    && 0 <= i
    && match scan.pc
       case Looping => Done(before, db, order, i, scan, i) && |scan.reclaimed| == i
       case Finished => Done(before, db, order, i, scan, i) && |scan.reclaimed| == i && i == |order|
       case Redispatching(_) => 0 < i && Done(before, db, order, i, scan, i) && |scan.reclaimed| == i - 1
       case Selected(t, seen, _) =>
         && 0 < i && Done(before, db, order, i, scan, i - 1) && |scan.reclaimed| == i - 1
         && t == order[i - 1] && t in before && seen == TakeSnapshot(before[t].task)
       case Crashed => false
  }

  lemma ReclaimProgress(before: Database, s: System, r: ScanId, order: seq<TaskId>, scan: Scan, i: nat)
    requires Lists(order, StaleIds(before, scan.now)) && i < |order| && scan.pc.Looping?
    requires scan.remaining == order[i + 1..] && |scan.reclaimed| == i
    requires s.db == ReclaimEach(before, order[..i], scan.now)
    ensures order[i] in s.db && order[i] in before && s.db[order[i]] == before[order[i]]
    ensures Stale(before[order[i]].task, scan.now)
    ensures var e := ReclaimEffect(s, r, scan, order[i], TakeSnapshot(s.db[order[i]].task));
            && e.scan.Some? && e.scan.value.0 == r && e.scan.value.1.now == scan.now
            && Progress(before, NextDb(s, e), order, e.scan.value.1)
  {
    NextIsUntouched(before, order, i, scan.now);
    var t := order[i];
    var op := Reclaim(TakeSnapshot(s.db[t].task), scan.now);
    assert Outcome(s, t, op) == ReclaimNow(s.db[t], scan.now);
    assert Commit(s.db, t, op) == s.db[t := Recovered(s.db[t], scan.now)];
  }

  ghost predicate ScanIn(before: Database, s: System, r: ScanId, order: seq<TaskId>, now: int) {
    r in s.scans && s.scans[r].now == now && Progress(before, s.db, order, s.scans[r])
  }

  /** The effect moves scan `r` along. */
  ghost predicate Advances(before: Database, s: System, e: Effect, r: ScanId, order: seq<TaskId>, now: int) {
    && e.scan.Some? && e.scan.value.0 == r && e.scan.value.1.now == now
    && Progress(before, NextDb(s, e), order, e.scan.value.1)
  }

  lemma ReclaimAdvances(before: Database, s: System, r: ScanId, pass: ScanStep, order: seq<TaskId>, now: int)
    requires Lists(order, StaleIds(before, now)) && ScanIn(before, s, r, order, now)
    requires ScanEnabled(s, r, pass) && (pass.ReclaimOne? || pass.ScanUpdate?)
    ensures Advances(before, s, ScanEffect(s, r, pass), r, order, now)
  {
    var scan := s.scans[r];
    var i := |order| - |scan.remaining|;
    if pass.ReclaimOne? {
      var (t, rest) := NextCandidate(scan);
      assert t == order[i] && rest.remaining == order[i + 1..];
      ReclaimProgress(before, s, r, order, rest, i);
    } else {
      ReclaimProgress(before, s, r, order, scan.(pc := Looping), i - 1);
    }
  }

  lemma SelectAdvances(before: Database, s: System, r: ScanId, order: seq<TaskId>, now: int)
    requires Lists(order, StaleIds(before, now)) && ScanIn(before, s, r, order, now)
    requires ScanEnabled(s, r, ScanSelect)
    ensures Advances(before, s, ScanEffect(s, r, ScanSelect), r, order, now)
  {
    var scan := s.scans[r];
    var i := |order| - |scan.remaining|;
    NextIsUntouched(before, order, i, now);
    var (t, rest) := NextCandidate(scan);
    assert t == order[i] && rest.remaining == order[i + 1..];
  }

  lemma OthersAdvance(before: Database, s: System, r: ScanId, pass: ScanStep, order: seq<TaskId>, now: int)
    requires ScanIn(before, s, r, order, now) && ScanEnabled(s, r, pass) && (pass.Redispatch? || pass.ScanEnd?)
    ensures Advances(before, s, ScanEffect(s, r, pass), r, order, now)
  {
  }

  lemma StepAdvances(c: Config, before: Database, s: System, a: Action, r: ScanId, order: seq<TaskId>, now: int)
    requires Lists(order, StaleIds(before, now)) && ScanIn(before, s, r, order, now)
    requires Enabled(s, a) && StepOf(a, r)
    ensures ScanIn(before, Next(c, s, a), r, order, now)
  {
    if a.pass.ScanSelect? {
      SelectAdvances(before, s, r, order, now);
    } else if a.pass.ReclaimOne? || a.pass.ScanUpdate? {
      ReclaimAdvances(before, s, r, a.pass, order, now);
    } else {
      OthersAdvance(before, s, r, a.pass, order, now);
    }
  }

  lemma {:induction false} RunAdvances(c: Config, before: Database, s: System, acts: seq<Action>, r: ScanId,
                                       order: seq<TaskId>, now: int)
    requires Lists(order, StaleIds(before, now)) && ScanIn(before, s, r, order, now)
    requires CanRun(c, s, acts) && forall i :: 0 <= i < |acts| ==> StepOf(acts[i], r)
    ensures ScanIn(before, End(c, s, acts), r, order, now)
    decreases |acts|
  {
    if acts != [] {
      StepAdvances(c, before, s, acts[0], r, order, now);
      RunAdvances(c, before, Next(c, s, acts[0]), acts[1..], r, order, now);
    }
  }

  /** From any state: a scan that starts and runs to its end, its transactions split
      or not, while nobody else moves, leaves the database that recovering every
      stale task gives, and returns one entry for each of them. */
  lemma LoneScanRecoversAll(c: Config, s: System, acts: seq<Action>, r: ScanId, now: int, order: seq<TaskId>)
    requires ScanEnabled(s, r, ScanStart(now, order))
    requires var started := Next(c, s, Recover(r, ScanStart(now, order))); CanRun(c, started, acts)
    requires forall i :: 0 <= i < |acts| ==> StepOf(acts[i], r)
    ensures var end := End(c, Next(c, s, Recover(r, ScanStart(now, order))), acts);
            r in end.scans &&
            (end.scans[r].pc.Finished? ==>
               && end.db == RecoverAll(s.db, now)
               && |end.scans[r].reclaimed| == CountStaleRunning(s.db, now))
  {
    var started := Next(c, s, Recover(r, ScanStart(now, order)));
    assert order[0..] == order && order[..0] == [];
    RunAdvances(c, s.db, started, acts, r, order, now);
    var end := End(c, started, acts);
    assert ScanIn(s.db, end, r, order, now);
    assert order[..|order|] == order;
    ScanRecoversAll(s.db, order, now);
    ListLength(order, StaleIds(s.db, now));
  }

  /***** Such runs exist *****/

  /** Steps a scan still has to make, at most. */
  function Left(scan: Scan): nat {
    2 * |scan.remaining| + match scan.pc
                           case Looping => 1
                           case Redispatching(_) => 2
                           case Selected(_, _, _) => 3
                           case Finished => 0
                           case Crashed => 0
  }

  function NextPass(scan: Scan): ScanStep {
    match scan.pc
    case Looping => if scan.remaining == [] then ScanEnd else ReclaimOne
    case Selected(_, _, _) => ScanUpdate
    case Redispatching(_) => Redispatch(true)
    case Finished => ScanCrash
    case Crashed => ScanCrash
  }

  /** The effect keeps scan `r` going and leaves it with less to do. */
  predicate Shortens(s: System, e: Effect, r: ScanId)
    requires r in s.scans
  {
    && e.scan.Some? && e.scan.value.0 == r
    && !e.scan.value.1.pc.Crashed? && Left(e.scan.value.1) < Left(s.scans[r])
  }

  lemma ReclaimShortens(s: System, r: ScanId, scan: Scan, t: TaskId, seen: Snapshot)
    requires r in s.scans && scan.pc.Looping? && 2 * |scan.remaining| + 2 < Left(s.scans[r])
    ensures Shortens(s, ReclaimEffect(s, r, scan, t, seen), r)
  {
  }

  lemma ReclaimPassShortens(s: System, r: ScanId, pass: ScanStep)
    requires ScanEnabled(s, r, pass) && (pass.ReclaimOne? || pass.ScanUpdate?)
    ensures Shortens(s, ScanEffect(s, r, pass), r)
  {
    var scan := s.scans[r];
    if pass.ScanUpdate? {
      ReclaimShortens(s, r, scan.(pc := Looping), scan.pc.task, scan.pc.seen);
    } else {
      var (t, rest) := NextCandidate(scan);
      if t in s.db {
        ReclaimShortens(s, r, rest, t, TakeSnapshot(s.db[t].task));
      }
    }
  }

  lemma OtherPassShortens(s: System, r: ScanId, pass: ScanStep)
    requires ScanEnabled(s, r, pass) && (pass.Redispatch? || pass.ScanEnd?)
    ensures Shortens(s, ScanEffect(s, r, pass), r)
  {
  }

  lemma PassShortens(c: Config, s: System, r: ScanId)
    requires r in s.scans && !s.scans[r].pc.Finished? && !s.scans[r].pc.Crashed?
    ensures var pass := NextPass(s.scans[r]);
            ScanEnabled(s, r, pass) && StepOf(Recover(r, pass), r) && Shortens(s, ScanEffect(s, r, pass), r)
  {
    var pass := NextPass(s.scans[r]);
    if pass.ReclaimOne? || pass.ScanUpdate? {
      ReclaimPassShortens(s, r, pass);
    } else {
      OtherPassShortens(s, r, pass);
    }
  }

  /** A scan in progress can run to its end on its own. */
  lemma {:induction false} ScanCanFinish(c: Config, s: System, r: ScanId) returns (acts: seq<Action>)
    requires r in s.scans && !s.scans[r].pc.Crashed?
    ensures CanRun(c, s, acts) && forall i :: 0 <= i < |acts| ==> StepOf(acts[i], r)
    ensures r in End(c, s, acts).scans && End(c, s, acts).scans[r].pc.Finished?
    decreases Left(s.scans[r])
  {
    acts := [];
    if !s.scans[r].pc.Finished? {
      var a := Recover(r, NextPass(s.scans[r]));
      PassShortens(c, s, r);
      var rest := ScanCanFinish(c, Next(c, s, a), r);
      acts := [a] + rest;
      assert acts[1..] == rest;
    }
  }
}
