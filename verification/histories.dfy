/**
 What has happened to one job, newest event last, and what its columns must be
 if the lifecycle was obeyed. Nothing here looks at a row.
 */
module Histories {
  import opened Jobs

  // What a job was submitted as; no later write may change it.
  datatype Submission = Submission(jobType: string, priority: int, insertedAt: Time)

  datatype Event =
    | Created(key: Option<string>, builtAt: Time, scheduledAt: Option<Time>, submission: Submission)
    | Claimed(attempt: Attempt, at: Time)
    | Completed(attempt: Attempt, at: Time, result: string)
    | AttemptFailed(attempt: Attempt, at: Time, retryAt: Option<Time>, recovered: bool, error: string)
    | Activated(at: Time)
    | Cancelled(at: Time)
    | Retried(at: Time)

  datatype History = Nothing | More(past: History, last: Event)

  function At(e: Event): Time {
    if e.Created? then e.builtAt else e.at
  }

  // ----- Columns as functions of the history -----

  function Status(h: History): JobStatus
    requires h.More?
  {
    match h.last
    case Created(_, builtAt, at, _) => if at.Some? && at.value > builtAt then SCHEDULED else PENDING
    case Claimed(_, _) => PROCESSING
    case Completed(_, _, _) => COMPLETED
    case AttemptFailed(_, _, retryAt, _, _) => if retryAt.Some? then SCHEDULED else FAILED
    case Activated(_) => PENDING
    case Cancelled(_) => CANCELLED
    case Retried(_) => PENDING
  }

  predicate IsReset(e: Event) {
    e.Created? || e.Retried?
  }

  // Claims since the job was created or last retried by hand.
  function ClaimsInCycle(h: History): nat {
    match h
    case Nothing => 0
    case More(past, e) =>
      if IsReset(e) then 0
      else ClaimsInCycle(past) + if e.Claimed? then 1 else 0
  }

  function DueAt(h: History): Option<Time> {
    match h
    case Nothing => None
    case More(past, e) =>
      match e
      case Created(_, _, at, _) => at
      case AttemptFailed(_, _, retryAt, _, _) => if retryAt.Some? then retryAt else DueAt(past)
      case Retried(_) => None
      case _ => DueAt(past)
  }

  function Owner(h: History): Option<Attempt> {
    if h.More? && h.last.Claimed? then Some(h.last.attempt) else None
  }

  function Result(h: History): Option<string> {
    if h.More? && h.last.Completed? then Some(h.last.result) else None
  }

  function ErrorOf(h: History): Option<string> {
    match h
    case Nothing => None
    case More(past, e) =>
      if e.AttemptFailed? then Some(e.error)
      else if e.Completed? || IsReset(e) then None
      else ErrorOf(past)
  }

  function SubmissionOf(h: History): Option<Submission> {
    match h
    case Nothing => None
    case More(past, e) => if e.Created? then Some(e.submission) else SubmissionOf(past)
  }

  // The latest claim since the last reset.
  function StartedAt(h: History): Option<Time> {
    match h
    case Nothing => None
    case More(past, e) =>
      if e.Claimed? then Some(e.at) else if IsReset(e) then None else StartedAt(past)
  }

  function FinishedAt(h: History): Option<Time> {
    if h.Nothing? then None
    else
      match h.last
      case Completed(_, at, _) => Some(at)
      case AttemptFailed(_, at, retryAt, _, _) => if retryAt.Some? then None else Some(at)
      case _ => None
  }

  // ----- Counting -----

  function Claims(h: History): nat {
    if h.Nothing? then 0 else Claims(h.past) + if h.last.Claimed? then 1 else 0
  }

  predicate IsSettlement(e: Event) {
    e.Completed? || e.AttemptFailed?
  }

  function Settlements(h: History): nat {
    if h.Nothing? then 0 else Settlements(h.past) + if IsSettlement(h.last) then 1 else 0
  }

  function TimesClaimed(h: History, t: Token): nat {
    if h.Nothing? then 0 else
      TimesClaimed(h.past, t) + if h.last.Claimed? && h.last.attempt.executionToken == t then 1 else 0
  }

  function TimesSettled(h: History, t: Token): nat {
    if h.Nothing? then 0 else
      TimesSettled(h.past, t) + if IsSettlement(h.last) && h.last.attempt.executionToken == t then 1 else 0
  }

  predicate Issued(h: History, a: Attempt) {
    h.More? && ((h.last.Claimed? && h.last.attempt == a) || Issued(h.past, a))
  }

  function LatestClaim(h: History): Option<Attempt> {
    if h.Nothing? then None
    else if h.last.Claimed? then Some(h.last.attempt)
    else LatestClaim(h.past)
  }

  // ----- The lifecycle -----

  // Backoff after the failed attempt; the service's own table, in microseconds.
  function Backoff(attemptCount: int): int {
    if attemptCount == 1 then 30 * SECOND else 120 * SECOND
  }

  predicate MayFollow(id: JobId, past: History, e: Event) {
    match e
    case Created(_, _, _, _) => past == Nothing
    case Claimed(a, at) =>
      && past.More? && Status(past) == PENDING && At(past.last) <= at
      && ClaimsInCycle(past) < DEFAULT_MAX_ATTEMPTS
      && (DueAt(past).Some? ==> DueAt(past).value <= at)
      && a.jobId == id
      && a.attemptCount == ClaimsInCycle(past) + 1
      && a.maxAttempts == DEFAULT_MAX_ATTEMPTS
      && TimesClaimed(past, a.executionToken) == 0
    case Completed(a, at, _) =>
      Owner(past) == Some(a) && At(past.last) <= at
    case AttemptFailed(a, at, retryAt, _, _) =>
      && Owner(past) == Some(a) && At(past.last) <= at
      && retryAt == if a.attemptCount < DEFAULT_MAX_ATTEMPTS then Some(at + Backoff(a.attemptCount)) else None
    case Activated(at) =>
      && past.More? && Status(past) == SCHEDULED && At(past.last) <= at
      && DueAt(past).Some? && DueAt(past).value <= at
    case Cancelled(at) =>
      past.More? && (Status(past) == PENDING || Status(past) == SCHEDULED) && At(past.last) <= at
    case Retried(at) =>
      past.More? && Status(past) == FAILED && At(past.last) <= at
  }

  predicate Lawful(id: JobId, h: History) {
    h.More? ==> Lawful(id, h.past) && MayFollow(id, h.past, h.last)
  }

  // ----- What a lawful history implies -----

  /** Claims and settlements balance, and no token is claimed or settled twice. */
  lemma {:induction false} AttemptsConserved(id: JobId, h: History)
    requires Lawful(id, h)
    ensures Claims(h) == Settlements(h) + if Owner(h).Some? then 1 else 0
  {
    if h.More? {
      AttemptsConserved(id, h.past);
    }
  }

  lemma {:induction false} TokenSettledOnce(id: JobId, h: History, t: Token)
    requires Lawful(id, h)
    ensures TimesClaimed(h, t) <= 1
    ensures TimesSettled(h, t)
         == TimesClaimed(h, t) - if Owner(h).Some? && Owner(h).value.executionToken == t then 1 else 0
  {
    if h.More? {
      TokenSettledOnce(id, h.past, t);
    }
  }

  lemma {:induction false} IssuedIsClaimed(id: JobId, h: History, a: Attempt)
    requires Lawful(id, h) && Issued(h, a)
    ensures TimesClaimed(h, a.executionToken) == 1 && a.jobId == id
    ensures 1 <= a.attemptCount <= DEFAULT_MAX_ATTEMPTS == a.maxAttempts
  {
    TokenSettledOnce(id, h, a.executionToken);
    if h.last.Claimed? && h.last.attempt == a {
    } else {
      IssuedIsClaimed(id, h.past, a);
    }
  }

  // One token, one attempt.
  lemma {:induction false} TokenNamesAttempt(id: JobId, h: History, a: Attempt, b: Attempt)
    requires Lawful(id, h) && Issued(h, a) && Issued(h, b)
    requires a.executionToken == b.executionToken
    ensures a == b
  {
    if h.last.Claimed? && h.last.attempt == a {
      if a != b {
        IssuedIsClaimed(id, h.past, b);
      }
    } else if h.last.Claimed? && h.last.attempt == b {
      IssuedIsClaimed(id, h.past, a);
    } else {
      TokenNamesAttempt(id, h.past, a, b);
    }
  }

  /** Only a job's most recent claim can own or have completed it. */
  lemma ResultFromLatestClaim(id: JobId, h: History)
    requires Lawful(id, h) && h.More? && h.last.Completed?
    ensures LatestClaim(h) == Some(h.last.attempt)
    ensures Issued(h, h.last.attempt)
    ensures TimesSettled(h.past, h.last.attempt.executionToken) == 0
  {
    TokenSettledOnce(id, h.past, h.last.attempt.executionToken);
  }

  // ----- One retry cycle -----

  lemma {:induction false} ClaimsBounded(id: JobId, h: History)
    requires Lawful(id, h) && h.More?
    ensures ClaimsInCycle(h) <= DEFAULT_MAX_ATTEMPTS
    ensures Owner(h).Some? ==> h.last.attempt.attemptCount == ClaimsInCycle(h)
    ensures Status(h) in {PENDING, SCHEDULED, CANCELLED} ==> ClaimsInCycle(h) < DEFAULT_MAX_ATTEMPTS
    ensures Status(h) == FAILED ==> ClaimsInCycle(h) == DEFAULT_MAX_ATTEMPTS
  {
    if h.past.More? {
      ClaimsBounded(id, h.past);
    }
  }

  // Claims and failures of the current cycle, oldest first.
  datatype Mark = Start(at: Time) | Stop(at: Time)

  function Cycle(h: History): seq<Mark> {
    if h.Nothing? then []
    else
      match h.last
      case Claimed(_, at) => Cycle(h.past) + [Start(at)]
      case AttemptFailed(_, at, _, _, _) => Cycle(h.past) + [Stop(at)]
      case Completed(_, _, _) => Cycle(h.past)
      case Activated(_) => Cycle(h.past)
      case Cancelled(_) => Cycle(h.past)
      case Created(_, _, _, _) => []
      case Retried(_) => []
  }

  // Starts and stops alternate, and each restart waits out the backoff of the attempt before it.
  predicate Spaced(c: seq<Mark>) {
    && (forall i | 0 <= i < |c| :: c[i].Start? <==> i % 2 == 0)
    && (forall i | 0 <= i < |c| - 1 && i % 2 == 1 :: c[i].at + Backoff((i + 1) / 2) <= c[i + 1].at)
  }

  lemma {:induction false} CycleSpaced(id: JobId, h: History)
    requires Lawful(id, h)
    ensures Spaced(Cycle(h))
    ensures !Result(h).Some? ==>
              |Cycle(h)| == 2 * ClaimsInCycle(h) - if Owner(h).Some? then 1 else 0
    ensures var c := Cycle(h);
            h.More? && |c| > 0 && (Status(h) == PENDING || Status(h) == SCHEDULED) ==>
              DueAt(h).Some? && c[|c| - 1].at + Backoff(ClaimsInCycle(h)) <= DueAt(h).value
    ensures Owner(h).Some? ==> ClaimsInCycle(h) == h.last.attempt.attemptCount
  {
    if h.More? {
      CycleSpaced(id, h.past);
    }
  }

  ghost predicate FullCycle(c: seq<Mark>, c1: Time, f1: Time, c2: Time, f2: Time, c3: Time, f3: Time) {
    && c == [Start(c1), Stop(f1), Start(c2), Stop(f2), Start(c3), Stop(f3)]
    && f1 + 30 * SECOND <= c2
    && f2 + 120 * SECOND <= c3
  }

  lemma SpacedSix(c: seq<Mark>)
    requires Spaced(c) && |c| == 6
    ensures FullCycle(c, c[0].at, c[1].at, c[2].at, c[3].at, c[4].at, c[5].at)
  {
    assert c[1].at + Backoff(1) <= c[2].at && c[3].at + Backoff(2) <= c[4].at;
    assert c[0].Start? && !c[1].Start? && c[2].Start? && !c[3].Start? && c[4].Start? && !c[5].Start?;
  }

  /**
   A job that has failed for good was claimed three times in its cycle; 30 and then
   120 seconds passed between a failure and the claim after it.
   */
  lemma FailedCycle(id: JobId, h: History)
    requires Lawful(id, h) && h.More? && Status(h) == FAILED
    ensures ClaimsInCycle(h) == 3
    ensures exists c1, f1, c2, f2, c3, f3 :: FullCycle(Cycle(h), c1, f1, c2, f2, c3, f3)
  {
    ClaimsBounded(id, h);
    CycleSpaced(id, h);
    SpacedSix(Cycle(h));
  }

  // ----- Every cycle ends -----

  // Status changes a cycle can still make without a manual retry.
  function ChangesLeft(h: History): int
    requires h.More?
  {
    var left := DEFAULT_MAX_ATTEMPTS - ClaimsInCycle(h);
    match Status(h)
    case SCHEDULED => 3 * left
    case PENDING => 3 * left - 1
    case PROCESSING => 3 * left + 1
    case _ => 0
  }

  function ChangesInCycle(h: History): nat {
    if h.Nothing? || IsReset(h.last) then 0 else 1 + ChangesInCycle(h.past)
  }

  /** Every status change strictly uses up the cycle's allowance of nine. */
  lemma {:induction false} CycleEnds(id: JobId, h: History)
    requires Lawful(id, h) && h.More?
    ensures 0 <= ChangesLeft(h)
    ensures ChangesInCycle(h) + ChangesLeft(h) <= 9
    ensures h.past.More? && !IsReset(h.last) ==> ChangesLeft(h) < ChangesLeft(h.past)
  {
    ClaimsBounded(id, h);
    if h.past.More? {
      ClaimsBounded(id, h.past);
      CycleEnds(id, h.past);
    }
  }

  // ----- The first event -----

  function Birth(h: History): Option<Event> {
    if h.Nothing? then None else if h.past.Nothing? then Some(h.last) else Birth(h.past)
  }
}
