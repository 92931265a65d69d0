/**
 The conditional UPDATE statements of the job service, row by row: what each WHERE
 clause demands and what each SET list writes.
 */
module Statements {
  import opened Jobs

  const LEASE_EXPIRED_ERROR := "worker lease expired"

  predicate HasStatus(rows: map<JobId, Row>, id: JobId, wanted: set<JobStatus>) {
    id in rows && rows[id].status in wanted
  }

  // A row without an owner: no worker, no token, no lease.
  function Released(r: Row): Row {
    r.(workerId := None, executionToken := None, leaseExpiresAt := None)
  }

  // ----- create_job -----

  predicate IsFuture(scheduledAt: Option<Time>, now: Time) {
    scheduledAt.Some? && scheduledAt.value > now
  }

  // `builtAt` is the application clock, `insertedAt` the server default of created_at.
  function BuildJob(jobType: string, priority: int, scheduledAt: Option<Time>, key: Option<string>,
                    builtAt: Time, insertedAt: Time): Row
  {
    Row(jobType, if IsFuture(scheduledAt, builtAt) then SCHEDULED else PENDING,
        priority, 0, DEFAULT_MAX_ATTEMPTS, 0, None, None,
        scheduledAt, insertedAt, None, None, None, None, None,
        key, if key.Some? then Some(builtAt + IDEMPOTENCY_TTL) else None)
  }

  // WHERE of the lookup: the key is held and its window, if any, is still open.
  predicate HoldsLiveKey(r: Row, key: string, now: Time) {
    && r.idempotencyKey == Some(key)
    && (r.idempotencyExpiresAt.None? || r.idempotencyExpiresAt.value > now)
  }

  // WHERE of the release: the key is held and its window has closed.
  predicate HoldsExpiredKey(r: Row, key: string, now: Time) {
    && r.idempotencyKey == Some(key)
    && SqlAtMost(r.idempotencyExpiresAt, now)
  }

  function WithoutKey(r: Row): Row {
    r.(idempotencyKey := None, idempotencyExpiresAt := None)
  }

  // ----- claim_job -----

  predicate Claimable(r: Row) {
    r.status == PENDING && r.attemptCount < r.maxAttempts
  }

  function ClaimValues(r: Row, worker: WorkerId, token: Token, lease: int, now: Time): Row {
    r.(status := PROCESSING,
       workerId := Some(worker),
       executionToken := Some(token),
       leaseExpiresAt := Some(now + lease),
       startedAt := Some(now),
       attemptCount := r.attemptCount + 1)
  }

  // ----- Fenced writes -----

  // The fence, on the row the attempt names.
  predicate OwnedBy(r: Row, a: Attempt) {
    && r.status == PROCESSING
    && r.workerId == Some(a.workerId)
    && r.executionToken == Some(a.executionToken)
  }

  function ExtendValues(r: Row, lease: int, now: Time): Row {
    r.(leaseExpiresAt := Some(now + lease))
  }

  function ClampedProgress(progress: int): int {
    if progress < 0 then 0 else if progress > 100 then 100 else progress
  }

  function ProgressValues(r: Row, progress: int): Row {
    r.(progress := ClampedProgress(progress))
  }

  function CompleteValues(r: Row, result: string, now: Time): Row {
    Released(r).(status := COMPLETED,
                 result := Some(result),
                 progress := 100,
                 completedAt := Some(now),
                 error := None)
  }

  // ----- _apply_failed_attempt -----

  datatype AttemptOutcome = RETRY_SCHEDULED | PERMANENTLY_FAILED

  datatype FailureWrite =
    | NoDelayDefined                              // retry_delay_seconds raised
    | NoRowMatched
    | Settled(row: Row, outcome: AttemptOutcome)

  function ApplyFailedAttempt(r: Row, a: Attempt, error: string, requireExpiredLease: bool, now: Time): FailureWrite {
    var proven := OwnedBy(r, a) && (requireExpiredLease ==> SqlBefore(r.leaseExpiresAt, now));
    if a.HasAttemptsLeft() then
      match RetryDelaySeconds(a.attemptCount)
      case None => NoDelayDefined
      case Some(delay) =>
        if proven && r.attemptCount < r.maxAttempts then
          Settled(Released(r).(status := SCHEDULED,
                               scheduledAt := Some(now + delay * SECOND),
                               error := Some(error)),
                  RETRY_SCHEDULED)
        else NoRowMatched
    else if proven && r.attemptCount >= r.maxAttempts then
      Settled(Released(r).(status := FAILED,
                           error := Some(error),
                           completedAt := Some(now)),
              PERMANENTLY_FAILED)
    else NoRowMatched
  }

  // ----- Sweeps -----

  predicate IsDue(r: Row, now: Time) {
    r.status == SCHEDULED && SqlAtMost(r.scheduledAt, now)
  }

  function ActivateValues(r: Row): Row {
    r.(status := PENDING)
  }

  predicate IsExpired(r: Row, now: Time) {
    r.status == PROCESSING && SqlBefore(r.leaseExpiresAt, now)
  }

  // ----- cancel_job and retry_job -----

  predicate Cancellable(r: Row) {
    r.status == PENDING || r.status == SCHEDULED
  }

  function CancelValues(r: Row): Row {
    Released(r).(status := CANCELLED)
  }

  predicate Retriable(r: Row) {
    r.status == FAILED
  }

  function RetryValues(r: Row): Row {
    Released(r).(status := PENDING,
                 attemptCount := 0,
                 progress := 0,
                 error := None,
                 result := None,
                 completedAt := None,
                 startedAt := None,
                 scheduledAt := None)
  }
}
