/** Task records (src/task.rs).

  Instants are integers counting nanoseconds. `created_at` and `updated_at` are
  never written to the log (src/task.rs:76-80), so a record here has neither;
  the log module supplies the parse-time `updated_at` where compaction reads it.
*/
module Tasks {
  datatype Option<+T> = None | Some(value: T)

  type TaskId = string
  type Hash = string
  type Time = int
  type Int32 = x: int | -0x8000_0000 <= x < 0x8000_0000

  const INT32_MIN: int := -0x8000_0000
  const SECOND: int := 1_000_000_000

  datatype JobError = JobError(message: string, retryWorthy: bool)

  datatype Task = Task(
    id: TaskId,
    taskType: string,
    taskData: string,
    maxRetries: Int32,
    retryCount: Int32,
    retryAfterHours: real,
    retryAfterTime: Time,
    lastError: Option<string>,
    lastJobError: Option<JobError>,
    rateLimitGroup: Option<string>,
    maxPerMinute: Option<Int32>,
    urgency: Option<real>,
    payloadHash: Option<Hash>,
    deletedAt: Option<Time>,
    executeAt: Time,
    pool: Option<string>,
    cron: Option<string>)

  /** Two's-complement wrap to 32 bits, the release-build result of i32 arithmetic. */
  function Wrap32(x: int): (r: Int32)
    ensures -0x8000_0000 <= x < 0x8000_0000 ==> r == x
  {
    (x + 0x8000_0000) % 0x1_0000_0000 - 0x8000_0000
  }

  function MarkDeleted(t: Task, now: Time): Task {
    t.(deletedAt := Some(now))
  }

  /** `as i64` drops the fraction, toward zero on both sides. */
  function BackoffSeconds(hours: real): int {
    if hours >= 0.0 then (hours * 3600.0).Floor else -((-hours * 3600.0).Floor)
  }

  /** n is the whole number between zero and x, both included, that is nearest x. */
  predicate NearestZero(n: int, x: real) {
    if x >= 0.0 then n as real <= x < n as real + 1.0 else n as real - 1.0 < x <= n as real
  }

  /** The backoff in seconds is the asked hours cut to whole seconds toward zero. */
  lemma BackoffTruncates(hours: real, n: int)
    ensures NearestZero(n, hours * 3600.0) <==> n == BackoffSeconds(hours)
  {
    var x := hours * 3600.0;
    if hours >= 0.0 {
      assert x >= 0.0 && NearestZero(x.Floor, x);
    } else {
      assert x < 0.0 && -hours * 3600.0 == -x && NearestZero(-((-x).Floor), x);
    }
    OneNearestZero(n, BackoffSeconds(hours), x);
  }

  lemma OneNearestZero(n: int, m: int, x: real)
    requires NearestZero(m, x)
    ensures NearestZero(n, x) <==> n == m
  {}

  function UpdateRetryConfig(t: Task, error: Option<string>, now: Time): Task
    requires t.retryCount < 0x7fff_ffff
  {
    t.(retryCount := t.retryCount + 1,
       retryAfterTime := now + BackoffSeconds(t.retryAfterHours) * SECOND,
       lastError := error,
       lastJobError := if error.Some? then Some(JobError(error.value, true)) else None)
  }

  /** The guard of the retry branch: `retry_count < max_retries - 1`. */
  predicate RetryAllowed(t: Task) {
    t.retryCount < Wrap32(t.maxRetries - 1)
  }

  /** All of a record that its caller sets and nothing changes later. */
  predicate SameContent(a: Task, b: Task) {
    && a.id == b.id && a.taskType == b.taskType && a.taskData == b.taskData
    && a.maxRetries == b.maxRetries && a.retryAfterHours == b.retryAfterHours
    && a.rateLimitGroup == b.rateLimitGroup && a.maxPerMinute == b.maxPerMinute
    && a.urgency == b.urgency && a.payloadHash == b.payloadHash && a.pool == b.pool && a.cron == b.cron
  }

  /** r is t due at `next` with a clean count. */
  predicate IsRescheduled(t: Task, r: Task, next: Time) {
    && SameContent(r, t) && r.executeAt == next && r.retryAfterTime == t.retryAfterTime
    && r.retryCount == 0 && r.lastError.None? && r.lastJobError.None? && r.deletedAt == t.deletedAt
  }

  /** r is t put back to run at `now`: undeleted, its errors and failures forgotten. */
  predicate IsRevived(t: Task, r: Task, now: Time) {
    && SameContent(r, t) && r.executeAt == now && r.retryAfterTime == t.retryAfterTime
    && r.retryCount == 0 && r.lastError.None? && r.lastJobError.None? && r.deletedAt.None?
  }

  /** r is t with one failure more, to be retried after its backoff from `now`. */
  ghost predicate IsRetry(t: Task, r: Task, error: string, now: Time) {
    && SameContent(r, t) && r.executeAt == t.executeAt && r.retryCount == t.retryCount + 1
    && r.lastError == Some(error) && r.lastJobError == Some(JobError(error, true)) && r.deletedAt == t.deletedAt
    && exists n: int :: NearestZero(n, t.retryAfterHours * 3600.0) && r.retryAfterTime == now + n * SECOND
  }

  lemma UpdateIsRetry(t: Task, error: string, now: Time)
    requires t.retryCount < 0x7fff_ffff
    ensures IsRetry(t, UpdateRetryConfig(t, Some(error), now), error, now)
  {
    BackoffTruncates(t.retryAfterHours, BackoffSeconds(t.retryAfterHours));
  }

  predicate Due(t: Task, now: Time) {
    t.executeAt <= now && t.retryAfterTime <= now && t.deletedAt.None?
  }

  function PoolOf(t: Task): (pool: string)
    ensures t.pool == Some(pool) || (t.pool.None? && pool == "default")
  {
    if t.pool.Some? then t.pool.value else "default"
  }

  function Urgency(t: Task): (urgency: real)
    ensures t.urgency == Some(urgency) || (t.urgency.None? && urgency == 0.0)
  {
    if t.urgency.Some? then t.urgency.value else 0.0
  }

  /** Which failure of a task, counted since it was enqueued or last succeeded,
      sends it to the dead-letter path. */
  function DeadLetterNumber(maxRetries: Int32): (n: int)
    ensures n >= 1
  {
    if maxRetries == INT32_MIN then 0x8000_0000 else if maxRetries > 1 then maxRetries else 1
  }
}
