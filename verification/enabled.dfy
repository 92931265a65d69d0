/**
 When each call takes effect, and what it leaves alone, told by the history of the job.
 The statements decide on columns; nothing here names their conditions.
 */
module Enabled {
  import opened Jobs
  import opened Statements
  import opened Histories
  import opened Protocol
  import opened Guarantees
  import opened Idempotency

  predicate StatusIs(s: Store, id: JobId, wanted: set<JobStatus>) {
    id in s.past && s.past[id].More? && Status(s.past[id]) in wanted
  }

  // One job as the invariant knows it.
  lemma SoundJob(s: Store, id: JobId)
    requires Reachable(s)
    ensures s.rows.Keys == s.past.Keys
    ensures id in s.rows ==> JobInv(id, s.rows[id], s.past[id], s.now, s.minted)
  {
    ReachableInv(s);
  }

  lemma Appended(s: Store, s': Store, id: JobId, e: Event)
    requires id in s.past && id in s'.past && s'.past[id] == More(s.past[id], e)
    ensures s' != s
  {
    LongerDiffers(s.past[id], e);
  }

  // ----- Which calls take effect -----

  /** A submission is accepted exactly for a new id, under a key whose last submission is 24 hours old. */
  lemma CreatedIff(s: Store, id: JobId, jobType: string, priority: int, scheduledAt: Option<Time>,
                   key: Option<string>, releasedAt: Time, builtAt: Time)
    requires Reachable(s) && releasedAt <= builtAt <= s.now
    ensures Next(s, Create(id, jobType, priority, scheduledAt, key, releasedAt, builtAt)) != s
       <==> id !in s.past && KeyFree(s, key, releasedAt)
  {
    ReachableInv(s);
    KeyFreeIffNoConflict(s, key, releasedAt);
  }

  /** A claim goes through exactly for a job whose history leaves it PENDING. */
  lemma ClaimedIff(s: Store, id: JobId, worker: WorkerId, token: Token, lease: int)
    requires Reachable(s) && token !in s.minted
    ensures Next(s, Claim(id, worker, token, lease)) != s <==> StatusIs(s, id, {PENDING})
    ensures StatusIs(s, id, {PENDING}) ==> id in s.rows && Claimable(s.rows[id])
  {
    SoundJob(s, id);
    if StatusIs(s, id, {PENDING}) {
      var s' := Next(s, Claim(id, worker, token, lease));
      assert token in s'.minted;
    }
  }

  /** An activation goes through exactly for a job that is SCHEDULED for a time that has come. */
  lemma ActivatedIff(s: Store, id: JobId)
    requires Reachable(s)
    ensures Next(s, Activate(id)) != s <==>
              StatusIs(s, id, {SCHEDULED}) && DueAt(s.past[id]).Some? && DueAt(s.past[id]).value <= s.now
  {
    SoundJob(s, id);
    if Next(s, Activate(id)) == s && id in s.rows && IsDue(s.rows[id], s.now) {
      Appended(s, Next(s, Activate(id)), id, Activated(s.now));
    }
  }

  /** A cancellation goes through exactly for a job that is PENDING or SCHEDULED. */
  lemma CancelledIff(s: Store, id: JobId)
    requires Reachable(s)
    ensures Next(s, Cancel(id)) != s <==> StatusIs(s, id, {PENDING, SCHEDULED})
  {
    SoundJob(s, id);
    if id in s.rows && Cancellable(s.rows[id]) {
      Appended(s, Next(s, Cancel(id)), id, Cancelled(s.now));
    }
  }

  /** A manual retry goes through exactly for a job that has FAILED. */
  lemma RetriedIff(s: Store, id: JobId)
    requires Reachable(s)
    ensures Next(s, Retry(id)) != s <==> StatusIs(s, id, {FAILED})
  {
    SoundJob(s, id);
    if id in s.rows && Retriable(s.rows[id]) {
      Appended(s, Next(s, Retry(id)), id, Retried(s.now));
    }
  }

  /** A recovery goes through exactly for a job in flight whose lease ended before now. */
  lemma RecoveredIff(s: Store, id: JobId)
    requires Reachable(s)
    ensures Next(s, Recover(id)) != s <==>
              && StatusIs(s, id, {PROCESSING}) && id in s.rows
              && s.rows[id].leaseExpiresAt.Some? && s.rows[id].leaseExpiresAt.value < s.now
  {
    SoundJob(s, id);
    if id in s.rows && IsExpired(s.rows[id], s.now) {
      RecoveryNeverRaises(s, id);
      var a := AttemptOf(id, s.rows[id]).value;
      ReachableInv(s);
      ExpiredAttemptKnown(s, id);
      SettledDiffers(s, a, LEASE_EXPIRED_ERROR, true);
    }
  }

  lemma SettledDiffers(s: Store, a: Attempt, error: string, recovered: bool)
    requires a.jobId in s.rows && a.jobId in s.past
    requires ApplyFailedAttempt(s.rows[a.jobId], a, error, recovered, s.now).Settled?
    ensures Failed(s, a, error, recovered) != s
  {
    var w := ApplyFailedAttempt(s.rows[a.jobId], a, error, recovered, s.now);
    Appended(s, Failed(s, a, error, recovered), a.jobId, FailureEvent(a, w, s.now, recovered, error));
  }

  /** A completion goes through exactly for the attempt of the latest claim, not settled yet. */
  lemma CompletedIff(s: Store, a: Attempt, result: string)
    requires Reachable(s) && Known(s, a)
    ensures Next(s, Complete(a, result)) != s <==> Owner(s.past[a.jobId]) == Some(a)
  {
    ReachableInv(s);
    OwnerSnapshot(s, a);
    if Owns(s, a) {
      Appended(s, Next(s, Complete(a, result)), a.jobId, Completed(a, s.now, result));
    } else {
      WriteRefused(s, Complete(a, result), a);
    }
  }

  /** A failure likewise. */
  lemma FailedIff(s: Store, a: Attempt, error: string)
    requires Reachable(s) && Known(s, a)
    ensures Next(s, Fail(a, error)) != s <==> Owner(s.past[a.jobId]) == Some(a)
  {
    assert Inv(s) by { ReachableInv(s); }
    assert Owns(s, a) <==> Owner(s.past[a.jobId]) == Some(a) by { OwnerSnapshot(s, a); }
    if Owns(s, a) {
      OwnersFailureCounts(s, a, error);
    } else {
      WriteRefused(s, Fail(a, error), a);
    }
  }

  lemma OwnersFailureCounts(s: Store, a: Attempt, error: string)
    requires Inv(s) && Known(s, a) && Owns(s, a)
    ensures Next(s, Fail(a, error)) != s
  {
    OwnersFailureSettles(s, a, error);
    FailIsFailed(s, a, error);
    SettledDiffers(s, a, error, false);
  }

  lemma OwnersFailureSettles(s: Store, a: Attempt, error: string)
    requires Inv(s) && Known(s, a) && Owns(s, a)
    ensures ApplyFailedAttempt(s.rows[a.jobId], a, error, false, s.now).Settled?
  {
    FailedKeeps(s, a, error, false);
  }

  lemma FailIsFailed(s: Store, a: Attempt, error: string)
    requires Known(s, a)
    ensures Next(s, Fail(a, error)) == Failed(s, a, error, false)
  {
  }

  // ----- What the calls write -----

  /** What a job was submitted as is what its row says, in every reachable table. */
  lemma SubmissionStands(s: Store, id: JobId)
    requires Reachable(s) && id in s.rows
    ensures id in s.past
    ensures SubmissionOf(s.past[id]) == Some(Submission(s.rows[id].jobType, s.rows[id].priority, s.rows[id].createdAt))
    ensures s.rows[id].error == ErrorOf(s.past[id]) && s.rows[id].startedAt == StartedAt(s.past[id])
    ensures s.rows[id].scheduledAt == DueAt(s.past[id])
  {
    SoundJob(s, id);
  }

  // The percentage in range that is nearest to the one reported.
  predicate Nearest(written: int, low: int, high: int, wanted: int) {
    && low <= written <= high
    && (low <= wanted <= high ==> written == wanted)
    && (wanted < low ==> written == low)
    && (wanted > high ==> written == high)
  }

  lemma ProgressInRange(progress: int)
    ensures Nearest(ClampedProgress(progress), 0, 100, progress)
  {
  }

  /**
   The progress column after any step: a completion makes it 100, a manual retry 0, an
   owner's report what was reported; nothing else touches it.
   */
  lemma ProgressFollows(s: Store, action: Action, id: JobId)
    requires Reachable(s) && id in s.rows
    ensures id in Next(s, action).rows && id in s.past && id in Next(s, action).past
    ensures var r, r', h, h' := s.rows[id], Next(s, action).rows[id], s.past[id], Next(s, action).past[id];
            if h' == h then
              if action.Progress? && action.attempt.jobId == id && Owner(h) == Some(action.attempt)
                 && Known(s, action.attempt)
              then Nearest(r'.progress, 0, 100, action.progress)
              else r'.progress == r.progress
            else
              && h'.More?
              && r'.progress == if h'.last.Completed? then 100 else if h'.last.Retried? then 0 else r.progress
  {
    SoundJob(s, id);
    ReachableInv(s);
    PastStep(s, action, id);
    if action.Fail? || action.Recover? {
      FailuresSpareProgress(s, action, id);
    } else if action.Progress? {
      ReportsProgress(s, action.attempt, action.progress, id);
    } else if action.Extend? {
      ExtendsSpareProgress(s, action.attempt, action.lease, id);
    } else {
      OthersProgress(s, action, id);
    }
  }

  lemma FailureSparesProgress(s: Store, a: Attempt, error: string, recovered: bool, id: JobId)
    requires id in s.rows && id in s.past
    ensures var s' := Failed(s, a, error, recovered);
            && id in s'.rows && s'.rows[id].progress == s.rows[id].progress
            && id in s'.past && (s'.past[id] == s.past[id] || (s'.past[id].More? && s'.past[id].last.AttemptFailed?))
  {
  }

  lemma FailuresSpareProgress(s: Store, action: Action, id: JobId)
    requires s.rows.Keys == s.past.Keys && id in s.rows && (action.Fail? || action.Recover?)
    ensures var s' := Next(s, action);
            && id in s'.rows && s'.rows[id].progress == s.rows[id].progress
            && id in s'.past && (s'.past[id] == s.past[id] || (s'.past[id].More? && s'.past[id].last.AttemptFailed?))
  {
    if action.Fail? {
      FailureSparesProgress(s, action.attempt, action.error, false, id);
    } else if action.id in s.rows && AttemptOf(action.id, s.rows[action.id]).Some? {
      FailureSparesProgress(s, AttemptOf(action.id, s.rows[action.id]).value, LEASE_EXPIRED_ERROR, true, id);
    }
  }

  lemma ReportsProgress(s: Store, a: Attempt, progress: int, id: JobId)
    requires Inv(s) && id in s.rows
    ensures var s' := Next(s, Progress(a, progress));
            && id in s'.rows && s'.past == s.past
            && if a.jobId == id && Known(s, a) && Owner(s.past[id]) == Some(a)
               then Nearest(s'.rows[id].progress, 0, 100, progress)
               else s'.rows[id].progress == s.rows[id].progress
  {
    ProgressInRange(progress);
    if Known(s, a) {
      OwnerSnapshot(s, a);
    }
  }

  lemma ExtendsSpareProgress(s: Store, a: Attempt, lease: int, id: JobId)
    requires id in s.rows
    ensures var s' := Next(s, Extend(a, lease));
            id in s'.rows && s'.past == s.past && s'.rows[id].progress == s.rows[id].progress
  {
  }

  // What a step does to the progress of a job it adds no event to, or one of these.
  predicate ProgressGoes(r: Row, h: History, r': Row, h': History) {
    if h' == h then r'.progress == r.progress
    else h'.More? && r'.progress == if h'.last.Completed? then 100 else if h'.last.Retried? then 0 else r.progress
  }

  lemma CompletionProgress(s: Store, a: Attempt, result: string, id: JobId)
    requires id in s.rows && id in s.past
    ensures var s' := Next(s, Complete(a, result));
            id in s'.rows && id in s'.past && ProgressGoes(s.rows[id], s.past[id], s'.rows[id], s'.past[id])
  {
    LongerDiffers(s.past[id], Completed(a, s.now, result));
  }

  lemma RetryProgress(s: Store, job: JobId, id: JobId)
    requires id in s.rows && id in s.past
    ensures var s' := Next(s, Retry(job));
            id in s'.rows && id in s'.past && ProgressGoes(s.rows[id], s.past[id], s'.rows[id], s'.past[id])
  {
    LongerDiffers(s.past[id], Retried(s.now));
  }

  lemma OthersProgress(s: Store, action: Action, id: JobId)
    requires id in s.rows && id in s.past
    requires !action.Fail? && !action.Recover? && !action.Progress? && !action.Extend?
    ensures var s' := Next(s, action);
            id in s'.rows && id in s'.past && ProgressGoes(s.rows[id], s.past[id], s'.rows[id], s'.past[id])
  {
    match action
    case Complete(a, result) => CompletionProgress(s, a, result, id);
    case Retry(job) => RetryProgress(s, job, id);
    case _ =>
  }
}
