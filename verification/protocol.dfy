/**
 The job table under any interleaving of its writers. A run is a sequence of actions;
 an UPDATE that matches no row, or an action the environment cannot take, changes nothing.
 */
module Protocol {
  import opened Jobs
  import opened Statements
  import opened Histories

  /**
   `rows` is the table and `now` the database clock. `past` and `minted` only record
   what happened: each job's events and every execution token ever drawn.
   */
  datatype Store = Store(rows: map<JobId, Row>, past: map<JobId, History>, now: Time, minted: set<Token>)

  const EMPTY_STORE := Store(map[], map[], 0, {})

  datatype Action =
    | Tick(elapsed: nat)
    | Create(id: JobId, jobType: string, priority: int, scheduledAt: Option<Time>,
             key: Option<string>, releasedAt: Time, builtAt: Time)
    | Claim(id: JobId, worker: WorkerId, token: Token, lease: int)
    | Extend(attempt: Attempt, lease: int)
    | Progress(attempt: Attempt, progress: int)
    | Complete(attempt: Attempt, result: string)
    | Fail(attempt: Attempt, error: string)
    | Activate(id: JobId)
    | Recover(id: JobId)
    | Cancel(id: JobId)
    | Retry(id: JobId)

  // A write to one existing row, with the event it stands for.
  function Write(s: Store, id: JobId, r: Row, e: Event): Store
    requires id in s.past
  {
    s.(rows := s.rows[id := r], past := s.past[id := More(s.past[id], e)])
  }

  // ----- Submission -----

  function ReleaseExpired(rows: map<JobId, Row>, key: string, now: Time): map<JobId, Row> {
    map id | id in rows :: if HoldsExpiredKey(rows[id], key, now) then WithoutKey(rows[id]) else rows[id]
  }

  predicate KeyHeld(rows: map<JobId, Row>, key: string) {
    exists id | id in rows :: rows[id].idempotencyKey == Some(key)
  }

  function AfterRelease(s: Store, key: Option<string>, releasedAt: Time): map<JobId, Row> {
    if key.Some? then ReleaseExpired(s.rows, key.value, releasedAt) else s.rows
  }

  // The partial unique index would reject the insert.
  predicate KeyConflict(s: Store, key: Option<string>, releasedAt: Time) {
    key.Some? && KeyHeld(AfterRelease(s, key, releasedAt), key.value)
  }

  function Born(jobType: string, priority: int, scheduledAt: Option<Time>, key: Option<string>, builtAt: Time,
                insertedAt: Time): History
  {
    More(Nothing, Event.Created(key, builtAt, scheduledAt, Submission(jobType, priority, insertedAt)))
  }

  function Inserted(s: Store, id: JobId, jobType: string, priority: int, scheduledAt: Option<Time>,
                    key: Option<string>, releasedAt: Time, builtAt: Time): Store
  {
    s.(rows := AfterRelease(s, key, releasedAt)[id := BuildJob(jobType, priority, scheduledAt, key, builtAt, s.now)],
       past := s.past[id := Born(jobType, priority, scheduledAt, key, builtAt, s.now)])
  }

  // ----- Fenced writes -----

  // Attempts come only from claims; nobody forges one.
  predicate Known(s: Store, a: Attempt) {
    a.jobId in s.past && Issued(s.past[a.jobId], a)
  }

  predicate Owns(s: Store, a: Attempt) {
    a.jobId in s.rows && OwnedBy(s.rows[a.jobId], a)
  }

  function FailureEvent(a: Attempt, w: FailureWrite, now: Time, recovered: bool, error: string): Event
    requires w.Settled?
  {
    AttemptFailed(a, now, if w.outcome.RETRY_SCHEDULED? then w.row.scheduledAt else None, recovered, error)
  }

  function Failed(s: Store, a: Attempt, error: string, recovered: bool): Store {
    if a.jobId !in s.rows || a.jobId !in s.past then s
    else
      var w := ApplyFailedAttempt(s.rows[a.jobId], a, error, recovered, s.now);
      if w.Settled? then Write(s, a.jobId, w.row, FailureEvent(a, w, s.now, recovered, error)) else s
  }

  // ----- One step -----

  function Next(s: Store, action: Action): Store {
    match action
    case Tick(elapsed) =>
      s.(now := s.now + elapsed)
    case Create(id, jobType, priority, scheduledAt, key, releasedAt, builtAt) =>
      if id in s.rows || id in s.past || !(releasedAt <= builtAt <= s.now) then s
      else if KeyConflict(s, key, releasedAt) then s
      else Inserted(s, id, jobType, priority, scheduledAt, key, releasedAt, builtAt)
    case Claim(id, worker, token, lease) =>
      if id in s.rows && id in s.past && token !in s.minted && Claimable(s.rows[id]) then
        var r := ClaimValues(s.rows[id], worker, token, lease, s.now);
        var a := Attempt(id, worker, token, r.attemptCount, r.maxAttempts);
        Write(s, id, r, Claimed(a, s.now)).(minted := s.minted + {token})
      else s
    case Extend(a, lease) =>
      if Known(s, a) && Owns(s, a) then
        s.(rows := s.rows[a.jobId := ExtendValues(s.rows[a.jobId], lease, s.now)])
      else s
    case Progress(a, progress) =>
      if Known(s, a) && Owns(s, a) then
        s.(rows := s.rows[a.jobId := ProgressValues(s.rows[a.jobId], progress)])
      else s
    case Complete(a, result) =>
      if Known(s, a) && Owns(s, a) then
        Write(s, a.jobId, CompleteValues(s.rows[a.jobId], result, s.now), Completed(a, s.now, result))
      else s
    case Fail(a, error) =>
      if Known(s, a) then Failed(s, a, error, false) else s
    case Activate(id) =>
      if id in s.rows && id in s.past && IsDue(s.rows[id], s.now) then
        Write(s, id, ActivateValues(s.rows[id]), Activated(s.now))
      else s
    case Recover(id) =>
      if id in s.rows && IsExpired(s.rows[id], s.now) && AttemptOf(id, s.rows[id]).Some? then
        Failed(s, AttemptOf(id, s.rows[id]).value, LEASE_EXPIRED_ERROR, true)
      else s
    case Cancel(id) =>
      if id in s.rows && id in s.past && Cancellable(s.rows[id]) then
        Write(s, id, CancelValues(s.rows[id]), Cancelled(s.now))
      else s
    case Retry(id) =>
      if id in s.rows && id in s.past && Retriable(s.rows[id]) then
        Write(s, id, RetryValues(s.rows[id]), Retried(s.now))
      else s
  }

  function Run(s: Store, actions: seq<Action>): Store {
    if actions == [] then s else Next(Run(s, actions[..|actions| - 1]), actions[|actions| - 1])
  }

  lemma {:induction false} RunAppend(s: Store, first: seq<Action>, second: seq<Action>)
    ensures Run(s, first + second) == Run(Run(s, first), second)
  {
    if second == [] {
      assert first + second == first;
    } else {
      var all := first + second;
      assert all[..|all| - 1] == first + second[..|second| - 1];
      RunAppend(s, first, second[..|second| - 1]);
    }
  }

  lemma ClockStep(s: Store, action: Action)
    ensures s.now <= Next(s, action).now
  {
  }

  lemma {:induction false} ClockRuns(s: Store, actions: seq<Action>)
    ensures s.now <= Run(s, actions).now
  {
    if actions != [] {
      ClockRuns(s, actions[..|actions| - 1]);
      ClockStep(Run(s, actions[..|actions| - 1]), actions[|actions| - 1]);
    }
  }

  // ----- The invariant -----

  /** What is true of every row, whatever its history. */
  predicate RowInv(r: Row, now: Time) {
    && r.maxAttempts == DEFAULT_MAX_ATTEMPTS
    && 0 <= r.attemptCount <= r.maxAttempts
    && 0 <= r.progress <= 100
    && (r.status == PROCESSING <==> r.workerId.Some?)
    && (r.status == PROCESSING <==> r.executionToken.Some?)
    && (r.status == PROCESSING <==> r.leaseExpiresAt.Some?)
    && (r.status == PROCESSING || r.status == COMPLETED ==> r.attemptCount >= 1)
    && (r.status == PENDING || r.status == SCHEDULED || r.status == CANCELLED ==> r.attemptCount < r.maxAttempts)
    && (r.status == FAILED ==> r.attemptCount == r.maxAttempts)
    && (r.error.Some? <==> r.status != COMPLETED && r.attemptCount >= if r.status == PROCESSING then 2 else 1)
    && (r.status == COMPLETED ==> r.progress == 100)
    && (r.attemptCount == 0 ==> r.progress == 0)
    && (r.status == SCHEDULED ==> r.scheduledAt.Some?)
    && (r.status == PENDING || r.status == PROCESSING ==> r.scheduledAt.Some? ==> r.scheduledAt.value <= now)
    && (r.completedAt.Some? <==> r.status == COMPLETED || r.status == FAILED)
    && (r.result.Some? <==> r.status == COMPLETED)
    && (r.idempotencyKey.Some? <==> r.idempotencyExpiresAt.Some?)
  }

  /** The lifecycle columns are what the job's history says they are. */
  predicate Agrees(id: JobId, r: Row, h: History) {
    && h.More?
    && r.status == Status(h)
    && r.attemptCount == ClaimsInCycle(h)
    && r.scheduledAt == DueAt(h)
    && r.result == Result(h)
    && r.startedAt == StartedAt(h)
    && r.error == ErrorOf(h)
    && SubmissionOf(h) == Some(Submission(r.jobType, r.priority, r.createdAt))
    && r.completedAt == FinishedAt(h)
    && AttemptOf(id, r) == Owner(h)
  }

  predicate TokensMinted(h: History, minted: set<Token>) {
    h.More? ==>
      && TokensMinted(h.past, minted)
      && (h.last.Claimed? ==> h.last.attempt.executionToken in minted)
  }

  predicate JobInv(id: JobId, r: Row, h: History, now: Time, minted: set<Token>) {
    && RowInv(r, now)
    && Agrees(id, r, h)
    && Lawful(id, h)
    && At(h.last) <= now
    && TokensMinted(h, minted)
  }

  ghost predicate Inv(s: Store) {
    && s.rows.Keys == s.past.Keys
    && forall id | id in s.rows :: JobInv(id, s.rows[id], s.past[id], s.now, s.minted)
  }

  // ----- Helpers -----

  lemma {:induction false} UnmintedNeverClaimed(h: History, minted: set<Token>, t: Token)
    requires TokensMinted(h, minted) && t !in minted
    ensures TimesClaimed(h, t) == 0
  {
    if h.More? {
      UnmintedNeverClaimed(h.past, minted, t);
    }
  }

  lemma {:induction false} MintedGrows(h: History, minted: set<Token>, more: set<Token>)
    requires TokensMinted(h, minted) && minted <= more
    ensures TokensMinted(h, more)
  {
    if h.More? {
      MintedGrows(h.past, minted, more);
    }
  }

  lemma OwnerIsOwned(id: JobId, r: Row, h: History, now: Time, minted: set<Token>, a: Attempt)
    requires JobInv(id, r, h, now, minted) && Issued(h, a) && OwnedBy(r, a)
    ensures AttemptOf(id, r) == Some(a) == Owner(h)
  {
    TokenNamesAttempt(id, h, a, h.last.attempt);
  }

  // Replacing one job's row and history by a sound pair keeps the invariant.
  lemma InvUpdate(s: Store, id: JobId, r: Row, h: History, minted: set<Token>)
    requires Inv(s) && s.minted <= minted
    requires JobInv(id, r, h, s.now, minted)
    ensures Inv(Store(s.rows[id := r], s.past[id := h], s.now, minted))
  {
    forall other | other in s.rows && other != id
      ensures JobInv(other, s.rows[other], s.past[other], s.now, minted)
    {
      MintedGrows(s.past[other], s.minted, minted);
    }
  }

  // ----- Every action keeps the invariant -----

  lemma TickKeeps(s: Store, elapsed: nat)
    requires Inv(s)
    ensures Inv(Next(s, Tick(elapsed)))
  {
    forall id | id in s.rows ensures JobInv(id, s.rows[id], s.past[id], s.now + elapsed, s.minted) {
      assert JobInv(id, s.rows[id], s.past[id], s.now, s.minted);
    }
  }

  lemma ReleaseKeeps(s: Store, key: Option<string>, releasedAt: Time)
    requires Inv(s)
    ensures Inv(s.(rows := AfterRelease(s, key, releasedAt)))
  {
    var rows := AfterRelease(s, key, releasedAt);
    forall id | id in rows ensures JobInv(id, rows[id], s.past[id], s.now, s.minted) {
      assert JobInv(id, s.rows[id], s.past[id], s.now, s.minted);
    }
    assert rows.Keys == s.rows.Keys;
  }

  lemma NewJobInv(id: JobId, jobType: string, priority: int, scheduledAt: Option<Time>, key: Option<string>,
                  builtAt: Time, now: Time, minted: set<Token>)
    requires builtAt <= now
    ensures JobInv(id, BuildJob(jobType, priority, scheduledAt, key, builtAt, now),
                   Born(jobType, priority, scheduledAt, key, builtAt, now), now, minted)
  {
  }

  lemma CreateKeeps(s: Store, action: Action)
    requires Inv(s) && action.Create?
    ensures Inv(Next(s, action))
  {
    var Create(id, jobType, priority, scheduledAt, key, releasedAt, builtAt) := action;
    if id !in s.rows && releasedAt <= builtAt <= s.now && !KeyConflict(s, key, releasedAt) {
      ReleaseKeeps(s, key, releasedAt);
      NewJobInv(id, jobType, priority, scheduledAt, key, builtAt, s.now, s.minted);
      InvUpdate(s.(rows := AfterRelease(s, key, releasedAt)), id,
                BuildJob(jobType, priority, scheduledAt, key, builtAt, s.now),
                Born(jobType, priority, scheduledAt, key, builtAt, s.now), s.minted);
    }
  }

  lemma ClaimedJobInv(id: JobId, r: Row, h: History, now: Time, minted: set<Token>, worker: WorkerId, token: Token,
                      lease: int)
    requires JobInv(id, r, h, now, minted) && Claimable(r) && token !in minted
    ensures var r' := ClaimValues(r, worker, token, lease, now);
            var a := Attempt(id, worker, token, r'.attemptCount, r'.maxAttempts);
            JobInv(id, r', More(h, Claimed(a, now)), now, minted + {token})
  {
    UnmintedNeverClaimed(h, minted, token);
    MintedGrows(h, minted, minted + {token});
  }

  lemma ClaimKeeps(s: Store, id: JobId, worker: WorkerId, token: Token, lease: int)
    requires Inv(s)
    ensures Inv(Next(s, Claim(id, worker, token, lease)))
  {
    if id in s.rows && token !in s.minted && Claimable(s.rows[id]) {
      assert JobInv(id, s.rows[id], s.past[id], s.now, s.minted);
      var r := ClaimValues(s.rows[id], worker, token, lease, s.now);
      var a := Attempt(id, worker, token, r.attemptCount, r.maxAttempts);
      var h := More(s.past[id], Claimed(a, s.now));
      ClaimedJobInv(id, s.rows[id], s.past[id], s.now, s.minted, worker, token, lease);
      InvUpdate(s, id, r, h, s.minted + {token});
    }
  }

  lemma ExtendKeeps(s: Store, a: Attempt, lease: int)
    requires Inv(s)
    ensures Inv(Next(s, Extend(a, lease)))
  {
    if Known(s, a) && Owns(s, a) {
      var id := a.jobId;
      assert JobInv(id, s.rows[id], s.past[id], s.now, s.minted);
      InvUpdate(s, id, ExtendValues(s.rows[id], lease, s.now), s.past[id], s.minted);
      assert s.past[id := s.past[id]] == s.past;
    }
  }

  lemma ProgressKeeps(s: Store, a: Attempt, progress: int)
    requires Inv(s)
    ensures Inv(Next(s, Progress(a, progress)))
  {
    if Known(s, a) && Owns(s, a) {
      var id := a.jobId;
      assert JobInv(id, s.rows[id], s.past[id], s.now, s.minted);
      InvUpdate(s, id, ProgressValues(s.rows[id], progress), s.past[id], s.minted);
      assert s.past[id := s.past[id]] == s.past;
    }
  }

  lemma CompleteKeeps(s: Store, a: Attempt, result: string)
    requires Inv(s)
    ensures Inv(Next(s, Complete(a, result)))
  {
    if Known(s, a) && Owns(s, a) {
      var id := a.jobId;
      assert JobInv(id, s.rows[id], s.past[id], s.now, s.minted);
      OwnerIsOwned(id, s.rows[id], s.past[id], s.now, s.minted, a);
      var h := More(s.past[id], Completed(a, s.now, result));
      InvUpdate(s, id, CompleteValues(s.rows[id], result, s.now), h, s.minted);
    }
  }

  // With agreeing counters the Python branch and the SQL condition are one, and a delay is defined.
  lemma FailureMatches(r: Row, a: Attempt, error: string, recovered: bool, now: Time)
    requires 1 <= a.attemptCount <= DEFAULT_MAX_ATTEMPTS == a.maxAttempts
    requires OwnedBy(r, a) ==> r.attemptCount == a.attemptCount && r.maxAttempts == a.maxAttempts
    ensures var w := ApplyFailedAttempt(r, a, error, recovered, now);
            && !w.NoDelayDefined?
            && (w.Settled? <==> OwnedBy(r, a) && (recovered ==> SqlBefore(r.leaseExpiresAt, now)))
  {
  }

  /** Whatever counters the snapshot carries, a row is only failed with no attempt left and only retried with one. */
  lemma FailureFitsTheRow(r: Row, a: Attempt, error: string, recovered: bool, now: Time)
    ensures match ApplyFailedAttempt(r, a, error, recovered, now)
            case Settled(r', RETRY_SCHEDULED) => r.attemptCount < r.maxAttempts && r'.status == SCHEDULED
            case Settled(r', PERMANENTLY_FAILED) => r.attemptCount >= r.maxAttempts && r'.status == FAILED
            case _ => true
  {
  }

  lemma SettledJobInv(id: JobId, r: Row, h: History, now: Time, minted: set<Token>, a: Attempt, error: string,
                      recovered: bool)
    requires JobInv(id, r, h, now, minted) && Owner(h) == Some(a)
    requires ApplyFailedAttempt(r, a, error, recovered, now).Settled?
    ensures var w := ApplyFailedAttempt(r, a, error, recovered, now);
            JobInv(id, w.row, More(h, FailureEvent(a, w, now, recovered, error)), now, minted)
  {
  }

  // A known attempt's counters are the row's while it owns the row.
  lemma FailedKeeps(s: Store, a: Attempt, error: string, recovered: bool)
    requires Inv(s) && Known(s, a)
    ensures Inv(Failed(s, a, error, recovered))
    ensures var w := ApplyFailedAttempt(s.rows[a.jobId], a, error, recovered, s.now);
            && !w.NoDelayDefined?
            && (w.Settled? <==>
                  && Owns(s, a)
                  && (recovered ==> SqlBefore(s.rows[a.jobId].leaseExpiresAt, s.now)))
  {
    var id := a.jobId;
    var r, h := s.rows[id], s.past[id];
    assert JobInv(id, r, h, s.now, s.minted);
    IssuedIsClaimed(id, h, a);
    if Owns(s, a) {
      OwnerIsOwned(id, r, h, s.now, s.minted, a);
    }
    FailureMatches(r, a, error, recovered, s.now);
    var w := ApplyFailedAttempt(r, a, error, recovered, s.now);
    if w.Settled? {
      SettledJobInv(id, r, h, s.now, s.minted, a, error, recovered);
      InvUpdate(s, id, w.row, More(h, FailureEvent(a, w, s.now, recovered, error)), s.minted);
    }
  }

  // Whoever settles, only the named row can change.
  lemma FailedSparesOthers(s: Store, a: Attempt, error: string, recovered: bool)
    requires a.jobId in s.rows && a.jobId in s.past
    ensures var s' := Failed(s, a, error, recovered);
            && s'.rows.Keys == s.rows.Keys && s'.now == s.now && s'.minted == s.minted
            && (forall other | other in s.rows && other != a.jobId :: s'.rows[other] == s.rows[other])
  {
  }

  lemma FailedWithoutOwnership(s: Store, a: Attempt, error: string, recovered: bool)
    requires Inv(s) && Known(s, a) && !Owns(s, a)
    ensures Failed(s, a, error, recovered) == s
  {
    FailedKeeps(s, a, error, recovered);
  }

  // Recovering an expired row is the failure write of the attempt that owns it.
  lemma RecoverIsFailed(s: Store, a: Attempt)
    requires a.jobId in s.rows && AttemptOf(a.jobId, s.rows[a.jobId]) == Some(a) && IsExpired(s.rows[a.jobId], s.now)
    ensures Next(s, Recover(a.jobId)) == Failed(s, a, LEASE_EXPIRED_ERROR, true)
  {
  }

  // Recovery reads an attempt that some claim handed out.
  lemma ExpiredAttemptKnown(s: Store, id: JobId)
    requires Inv(s) && id in s.rows && IsExpired(s.rows[id], s.now)
    ensures AttemptOf(id, s.rows[id]).Some?
    ensures Known(s, AttemptOf(id, s.rows[id]).value) && Owns(s, AttemptOf(id, s.rows[id]).value)
    ensures AttemptOf(id, s.rows[id]).value.jobId == id
  {
    assert JobInv(id, s.rows[id], s.past[id], s.now, s.minted);
  }

  lemma ActivatedJobInv(id: JobId, r: Row, h: History, now: Time, minted: set<Token>)
    requires JobInv(id, r, h, now, minted) && IsDue(r, now)
    ensures JobInv(id, ActivateValues(r), More(h, Activated(now)), now, minted)
  {
  }

  lemma ActivateKeeps(s: Store, id: JobId)
    requires Inv(s)
    ensures Inv(Next(s, Activate(id)))
  {
    if id in s.rows && IsDue(s.rows[id], s.now) {
      assert JobInv(id, s.rows[id], s.past[id], s.now, s.minted);
      ActivatedJobInv(id, s.rows[id], s.past[id], s.now, s.minted);
      InvUpdate(s, id, ActivateValues(s.rows[id]), More(s.past[id], Activated(s.now)), s.minted);
    }
  }

  lemma CancelledJobInv(id: JobId, r: Row, h: History, now: Time, minted: set<Token>)
    requires JobInv(id, r, h, now, minted) && Cancellable(r)
    ensures JobInv(id, CancelValues(r), More(h, Cancelled(now)), now, minted)
  {
  }

  lemma CancelKeeps(s: Store, id: JobId)
    requires Inv(s)
    ensures Inv(Next(s, Cancel(id)))
  {
    if id in s.rows && Cancellable(s.rows[id]) {
      assert JobInv(id, s.rows[id], s.past[id], s.now, s.minted);
      CancelledJobInv(id, s.rows[id], s.past[id], s.now, s.minted);
      InvUpdate(s, id, CancelValues(s.rows[id]), More(s.past[id], Cancelled(s.now)), s.minted);
    }
  }

  lemma RetriedJobInv(id: JobId, r: Row, h: History, now: Time, minted: set<Token>)
    requires JobInv(id, r, h, now, minted) && Retriable(r)
    ensures JobInv(id, RetryValues(r), More(h, Retried(now)), now, minted)
  {
  }

  lemma RetryKeeps(s: Store, id: JobId)
    requires Inv(s)
    ensures Inv(Next(s, Retry(id)))
  {
    if id in s.rows && Retriable(s.rows[id]) {
      assert JobInv(id, s.rows[id], s.past[id], s.now, s.minted);
      RetriedJobInv(id, s.rows[id], s.past[id], s.now, s.minted);
      InvUpdate(s, id, RetryValues(s.rows[id]), More(s.past[id], Retried(s.now)), s.minted);
    }
  }

  lemma NextKeepsInv(s: Store, action: Action)
    requires Inv(s)
    ensures Inv(Next(s, action))
  {
    match action
    case Tick(elapsed) => TickKeeps(s, elapsed);
    case Create(_, _, _, _, _, _, _) => CreateKeeps(s, action);
    case Claim(id, worker, token, lease) => ClaimKeeps(s, id, worker, token, lease);
    case Extend(a, lease) => ExtendKeeps(s, a, lease);
    case Progress(a, progress) => ProgressKeeps(s, a, progress);
    case Complete(a, result) => CompleteKeeps(s, a, result);
    case Fail(a, error) =>
      if Known(s, a) {
        FailedKeeps(s, a, error, false);
      }
    case Activate(id) => ActivateKeeps(s, id);
    case Recover(id) =>
      if id in s.rows && IsExpired(s.rows[id], s.now) {
        ExpiredAttemptKnown(s, id);
        FailedKeeps(s, AttemptOf(id, s.rows[id]).value, LEASE_EXPIRED_ERROR, true);
      }
    case Cancel(id) => CancelKeeps(s, id);
    case Retry(id) => RetryKeeps(s, id);
  }

  /** Every run from the empty table, however interleaved, keeps the invariant. */
  lemma {:induction false} RunKeepsInv(s: Store, actions: seq<Action>)
    requires Inv(s)
    ensures Inv(Run(s, actions))
  {
    if actions != [] {
      RunKeepsInv(s, actions[..|actions| - 1]);
      NextKeepsInv(Run(s, actions[..|actions| - 1]), actions[|actions| - 1]);
    }
  }
}
