/** The persisted entities of TaskMesh: tasks, execution attempts and the small
    enumerations they use.  A `Record` is one row of `tasks` together with its
    rows of `task_execution_attempts`, in insertion order. */
module Model {

  datatype Option<+T> = None | Some(value: T) {
    function Or(default: T): T {
      if Some? then value else default
    }
  }

  type TaskId = nat

  datatype Status = Queued | Running | Completed | Failed | DeadLetter

  datatype Priority = High | Medium | Low

  /** `max_retries` when the inserting code leaves it to the column default. */
  const DEFAULT_MAX_RETRIES: nat := 3

  datatype Task = Task(
    priority: Priority,
    status: Status,
    retryCount: int,
    maxRetries: int,
    startedAt: Option<int>,
    completedAt: Option<int>,
    lastError: Option<string>,
    leaseExpiresAt: Option<int>)

  datatype Attempt = Attempt(
    number: int,
    worker: string,
    startedAt: int,
    finishedAt: Option<int>,
    error: Option<string>)

  datatype Record = Record(task: Task, attempts: seq<Attempt>)

  type Database = map<TaskId, Record>

  function Lookup(db: Database, t: TaskId): Option<Record> {
    if t in db then Some(db[t]) else None
  }

  /** What a handler may raise.  `RetryableError` is the subclass of `TaskError`
      that may be retried; everything else is a `ForeignError`. */
  datatype Raised =
    | TaskError(text: string)
    | RetryableError(text: string)
    | ForeignError(typeName: string)

  const ERROR_LIMIT: nat := 2000
  const WORKER_LIMIT: nat := 255
  const STALE_LEASE_ERROR: string := "Execution lease expired; worker presumed lost"

  /** What `str.strip` removes. */
  predicate IsSpace(c: char) {
    || '\t' <= c <= '\r' || '\U{1C}' <= c <= ' ' || c in {'\U{85}', '\U{A0}', '\U{1680}'}
    || '\U{2000}' <= c <= '\U{200A}' || c in {'\U{2028}', '\U{2029}', '\U{202F}', '\U{205F}', '\U{3000}'}
  }

  function StripLeft(s: string): (r: string)
    ensures |r| <= |s| && r == s[|s| - |r|..]
    ensures r != "" ==> !IsSpace(r[0])
    ensures forall i :: 0 <= i < |s| - |r| ==> IsSpace(s[i])
  {
    if s != "" && IsSpace(s[0]) then StripLeft(s[1..]) else s
  }

  function StripRight(s: string): (r: string)
    ensures r <= s
    ensures r != "" ==> !IsSpace(r[|r| - 1])
    ensures forall i :: |r| <= i < |s| ==> IsSpace(s[i])
  {
    if s != "" && IsSpace(s[|s| - 1]) then StripRight(s[..|s| - 1]) else s
  }

  function Strip(s: string): string {
    StripRight(StripLeft(s))
  }

  /** Stripping takes away whitespace at both ends, all of it, and nothing else. */
  lemma StripIsInner(s: string) returns (lo: nat, hi: nat)
    ensures lo <= hi <= |s| && Strip(s) == s[lo..hi]
    ensures forall i :: 0 <= i < lo || hi <= i < |s| ==> IsSpace(s[i])
    ensures lo < hi ==> !IsSpace(s[lo]) && !IsSpace(s[hi - 1])
  {
    var left := StripLeft(s);
    lo := |s| - |left|;
    hi := lo + |Strip(s)|;
    forall i | hi <= i < |s| ensures IsSpace(s[i]) {
      assert s[i] == left[i - lo];
    }
  }

  function Truncated(s: string, limit: nat): (r: string)
    ensures r <= s && |r| <= limit
    ensures |s| <= limit ==> r == s
    ensures |s| > limit ==> |r| == limit
  {
    if |s| <= limit then s else s[..limit]
  }

  const NO_MESSAGE: string := "Task execution failed"
  const FOREIGN_SUFFIX: string := ": task execution failed"

  /** The text stored in `last_error` and in the attempt's `error`: a task error's
      own message, stripped and cut to the limit, or a fixed text if it has none; of
      any other exception only the type is told. */
  function SafeErrorMessage(exc: Raised): (r: string)
    ensures 0 < |r| <= 2000
    ensures exc.ForeignError? ==> r <= exc.typeName + FOREIGN_SUFFIX
    ensures exc.ForeignError? && |r| < ERROR_LIMIT ==> r == exc.typeName + FOREIGN_SUFFIX
    ensures !exc.ForeignError? && Strip(exc.text) == "" ==> r == "Task execution failed"
    ensures !exc.ForeignError? && Strip(exc.text) != "" ==> r <= Strip(exc.text)
    ensures !exc.ForeignError? && Strip(exc.text) != "" && |r| < ERROR_LIMIT ==> r == Strip(exc.text)
  {
    var message :=
      match exc
      case ForeignError(typeName) => typeName + FOREIGN_SUFFIX
      case _ => if Strip(exc.text) != "" then Strip(exc.text) else NO_MESSAGE;
    Truncated(message, ERROR_LIMIT)
  }

  /** What the failure path passes on of an exception. */
  datatype Failure = Failure(retryable: bool, error: string)

  function Classify(exc: Raised): (f: Failure)
    ensures f.error == SafeErrorMessage(exc) != ""
    ensures f.retryable <==> exc.RetryableError?
  {
    Failure(exc.RetryableError?, SafeErrorMessage(exc))
  }
}
