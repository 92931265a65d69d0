/**
 The values the service works on: the columns of a job row, the snapshot of one
 processing attempt, and the retry timetable.
 */
module Jobs {

  datatype Option<+T> = None | Some(value: T)

  // Canonical text of a UUID: 36 lower-case hexadecimal digits and hyphens.
  predicate IsUuidChar(i: nat, c: char) {
    if i == 8 || i == 13 || i == 18 || i == 23
    then c == '-'
    else '0' <= c <= '9' || 'a' <= c <= 'f'
  }

  predicate IsUuid(text: string) {
    |text| == 36 && forall i | 0 <= i < 36 :: IsUuidChar(i, text[i])
  }

  type JobId = text: string | IsUuid(text)
    witness "00000000-0000-0000-0000-000000000000"

  type WorkerId = string

  // A uuid4 drawn by a claim. Only its identity matters.
  type Token = nat

  // Database timestamps, in microseconds.
  type Time = int

  const SECOND: int := 1_000_000
  const IDEMPOTENCY_TTL: int := 24 * 3600 * SECOND
  const DEFAULT_MAX_ATTEMPTS: int := 3
  const MAX_PRIORITY: int := 100

  datatype JobStatus = SCHEDULED | PENDING | PROCESSING | COMPLETED | FAILED | CANCELLED

  // One row of the jobs table; a nullable column is an Option.
  datatype Row = Row(
    jobType: string,
    status: JobStatus,
    priority: int,
    attemptCount: int,
    maxAttempts: int,
    progress: int,
    result: Option<string>,
    error: Option<string>,
    scheduledAt: Option<Time>,
    createdAt: Time,
    startedAt: Option<Time>,
    completedAt: Option<Time>,
    workerId: Option<WorkerId>,
    executionToken: Option<Token>,
    leaseExpiresAt: Option<Time>,
    idempotencyKey: Option<string>,
    idempotencyExpiresAt: Option<Time>
  )

  // The CHECK constraints of the table.
  predicate ChecksHold(r: Row) {
    && r.attemptCount >= 0
    && r.maxAttempts >= 1
    && r.attemptCount <= r.maxAttempts
    && 0 <= r.progress <= 100
  }

  // SQL comparisons: NULL on either side never matches.
  predicate SqlBefore(t: Option<Time>, now: Time) {
    t.Some? && t.value < now
  }

  predicate SqlAtMost(t: Option<Time>, now: Time) {
    t.Some? && t.value <= now
  }

  // Identity of one processing attempt, read off a PROCESSING row.
  datatype Attempt = Attempt(
    jobId: JobId,
    workerId: WorkerId,
    executionToken: Token,
    attemptCount: int,
    maxAttempts: int
  ) {
    predicate HasAttemptsLeft() {
      attemptCount < maxAttempts
    }
  }

  // None stands for the ValueError raised on a row that carries no owned attempt.
  function AttemptOf(id: JobId, r: Row): Option<Attempt> {
    if r.workerId.None? || r.executionToken.None? then None
    else Some(Attempt(id, r.workerId.value, r.executionToken.value, r.attemptCount, r.maxAttempts))
  }

  const RETRY_DELAYS_SECONDS: map<int, int> := map[1 := 30, 2 := 120]

  // None stands for the ValueError raised outside the table of known attempts.
  function RetryDelaySeconds(attemptCount: int): Option<int> {
    if attemptCount !in RETRY_DELAYS_SECONDS then None
    else Some(RETRY_DELAYS_SECONDS[attemptCount])
  }
}
