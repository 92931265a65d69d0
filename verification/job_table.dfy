/**
 The statements of the job service over the table it updates in place. Each method is one
 transaction; its commit is one action of the protocol (a run of them for the sweeps).
 */
module JobTables {
  import opened Jobs
  import opened Statements
  import opened Histories
  import opened Protocol
  import opened Guarantees
  import opened Idempotency
  import opened Sweeps
  import opened Leases

  ghost predicate Evolves(s: Store, s': Store) {
    exists actions :: s' == Run(s, actions)
  }

  lemma EvolvesRefl(s: Store)
    ensures Evolves(s, s)
  {
    assert s == Run(s, []);
  }

  lemma EvolvesStep(s: Store, action: Action)
    ensures Evolves(s, Next(s, action))
  {
    assert [action][..0] == [];
    assert Next(s, action) == Run(s, [action]);
  }

  lemma EvolvesTrans(s: Store, t: Store, u: Store)
    requires Evolves(s, t) && Evolves(t, u)
    ensures Evolves(s, u)
  {
    var first :| t == Run(s, first);
    var second :| u == Run(t, second);
    RunAppend(s, first, second);
  }

  lemma ReachableEvolves(s: Store, s': Store)
    requires Reachable(s) && Evolves(s, s')
    ensures Reachable(s')
  {
    var actions :| s' == Run(s, actions);
    ReachableRun(s, actions);
  }

  lemma ReachableNext(s: Store, action: Action)
    requires Reachable(s)
    ensures Reachable(Next(s, action))
  {
    EvolvesStep(s, action);
    ReachableEvolves(s, Next(s, action));
  }

  // How the insert of a new row ended: written, or rejected by one of the two unique indexes.
  datatype InsertResult = Inserted | IdTaken | KeyTaken

  datatype FailureResult =
    | OwnershipLost
    | Recorded(row: Row, outcome: AttemptOutcome)

  class JobTable {
    var rows: map<JobId, Row>
    var now: Time
    ghost var past: map<JobId, History>
    ghost var minted: set<Token>

    ghost function State(): Store
      reads this
    {
      Store(rows, past, now, minted)
    }

    ghost predicate Valid()
      reads this
    {
      Reachable(State())
    }

    constructor ()
      ensures Valid() && State() == EMPTY_STORE
    {
      rows, now, past, minted := map[], 0, map[], {};
      assert EMPTY_STORE == Run(EMPTY_STORE, []);
    }

    // ----- Submission -----

    method FindActiveByKey(key: string) returns (found: Option<JobId>)
      requires Valid()
      ensures found.Some? <==> !KeyFree(State(), Some(key), now)
      ensures match found
              case Some(id) =>
                && Holds(State(), id, key) && id in past
                && now < BuiltAt(past[id]) + 24 * 3600 * SECOND
              case None => KeyFree(State(), Some(key), now)
    {
      NoneLiveIffFree(State(), key);
      if id :| id in rows && HoldsLiveKey(rows[id], key, now) {
        found := Some(id);
        LiveIffWithinWindow(State(), id, key);
      } else {
        found := None;
      }
    }

    // The transaction that releases an expired key and inserts the new row under it.
    method InsertJob(id: JobId, jobType: string, priority: int, scheduledAt: Option<Time>, key: Option<string>)
      returns (answer: InsertResult)
      requires Valid()
      modifies this
      ensures Valid() && State() == Next(old(State()), Create(id, jobType, priority, scheduledAt, key, now, now))
      ensures answer.Inserted? <==> id !in old(rows) && KeyFree(old(State()), key, now)
      ensures answer.IdTaken? <==> id in old(rows)
      ensures answer.Inserted? ==> id in rows && rows[id] == BuildJob(jobType, priority, scheduledAt, key, now, now)
      ensures answer.Inserted? && key.Some? ==> forall j | Holds(State(), j, key.value) :: j == id
      ensures !answer.Inserted? ==> State() == old(State())
      ensures answer.KeyTaken? ==> key.Some? && KeyHeld(rows, key.value) && !KeyFree(State(), key, now)
    {
      ghost var s := State();
      ServiceStep(s, Create(id, jobType, priority, scheduledAt, key, now, now));
      KeyFreeIffNoConflict(s, key, now);
      if id in rows {
        return IdTaken;
      }
      var released := if key.Some? then ReleaseExpired(rows, key.value, now) else rows;
      if key.Some? && KeyHeld(released, key.value) {
        ConflictMeansHeld(s, key.value);
        return KeyTaken;
      }
      rows := released[id := BuildJob(jobType, priority, scheduledAt, key, now, now)];
      past := past[id := Born(jobType, priority, scheduledAt, key, now, now)];
      if key.Some? {
        assert Holds(State(), id, key.value);
        OneHolder(State(), id, key.value);
      }
      answer := Inserted;
    }

    // ----- Ownership -----

    /** A row comes back exactly when the claim went through; its reader then holds a full lease under a fresh token. */
    method ClaimJob(id: JobId, worker: WorkerId, token: Token, lease: int) returns (job: Option<Row>)
      requires Valid() && token !in minted
      modifies this
      ensures Valid() && State() == Next(old(State()), Claim(id, worker, token, lease))
      ensures job.Some? <==> HasStatus(old(rows), id, {PENDING})
      ensures job.Some? ==>
                job.value == old(rows)[id].(status := PROCESSING, workerId := Some(worker),
                                            executionToken := Some(token),
                                            leaseExpiresAt := Some(now + lease), startedAt := Some(now),
                                            attemptCount := old(rows)[id].attemptCount + 1)
      ensures job.Some? ==>
                && id in rows && rows[id] == job.value
                && AttemptOf(id, job.value).Some?
                && var a := AttemptOf(id, job.value).value;
                   && a.executionToken == token && a.workerId == worker && a.jobId == id
                   && Known(State(), a) && HoldsLease(State(), a, now, lease)
      ensures job.None? ==> State() == old(State())
    {
      job := None;
      ServiceStep(State(), Claim(id, worker, token, lease));
      PendingIsClaimable(State(), id);
      if id in rows && Claimable(rows[id]) {
        var r := ClaimValues(rows[id], worker, token, lease, now);
        rows := rows[id := r];
        past := past[id := More(past[id], Claimed(Attempt(id, worker, token, r.attemptCount, r.maxAttempts), now))];
        minted := minted + {token};
        job := Some(r);
      }
    }

    /** None is OwnershipLostError: raised exactly when the fence no longer matches. */
    method ExtendLease(a: Attempt, lease: int) returns (extended: Option<Time>)
      requires Valid() && Known(State(), a)
      modifies this
      ensures Valid() && State() == Next(old(State()), Extend(a, lease))
      ensures extended == if Owns(old(State()), a) then Some(now + lease) else None
      ensures extended.Some? ==> Owns(State(), a) && rows[a.jobId].leaseExpiresAt == extended
    {
      extended := None;
      ReachableNext(State(), Extend(a, lease));
      if a.jobId in rows && OwnedBy(rows[a.jobId], a) {
        rows := rows[a.jobId := ExtendValues(rows[a.jobId], lease, now)];
        extended := Some(now + lease);
      }
    }

    method UpdateProgress(a: Attempt, progress: int) returns (owned: bool)
      requires Valid() && Known(State(), a)
      modifies this
      ensures Valid() && State() == Next(old(State()), Progress(a, progress))
      ensures owned <==> Owns(old(State()), a)
      ensures owned ==> Owns(State(), a) && rows[a.jobId].progress == ClampedProgress(progress)
    {
      owned := false;
      ReachableNext(State(), Progress(a, progress));
      if a.jobId in rows && OwnedBy(rows[a.jobId], a) {
        rows := rows[a.jobId := ProgressValues(rows[a.jobId], progress)];
        owned := true;
      }
    }

    method CompleteJob(a: Attempt, result: string) returns (job: Option<Row>)
      requires Valid() && Known(State(), a)
      modifies this
      ensures Valid() && State() == Next(old(State()), Complete(a, result))
      ensures job.Some? <==> Owns(old(State()), a)
      ensures job.Some? ==>
                rows[a.jobId] == job.value && job.value.status == COMPLETED && job.value.result == Some(result)
      ensures job.Some? ==>
                && a.jobId in old(rows)
                && job.value == old(rows)[a.jobId].(status := COMPLETED, result := Some(result), progress := 100,
                                                    completedAt := Some(now), error := None, workerId := None,
                                                    executionToken := None, leaseExpiresAt := None)
      ensures !Owns(State(), a)
    {
      job := None;
      ServiceStep(State(), Complete(a, result));
      if a.jobId in rows && OwnedBy(rows[a.jobId], a) {
        var r := CompleteValues(rows[a.jobId], result, now);
        rows := rows[a.jobId := r];
        past := past[a.jobId := More(past[a.jobId], Completed(a, now, result))];
        job := Some(r);
      }
    }

    // _apply_failed_attempt: does not commit, so a sweep can settle many rows in one transaction.
    method ApplyFailure(a: Attempt, error: string, requireExpiredLease: bool) returns (w: FailureWrite)
      requires Valid() && Known(State(), a)
      requires requireExpiredLease ==> error == LEASE_EXPIRED_ERROR
      modifies this
      ensures Valid() && State() == Failed(old(State()), a, error, requireExpiredLease)
      ensures a.jobId in old(rows)
      ensures w == ApplyFailedAttempt(old(rows)[a.jobId], a, error, requireExpiredLease, now)
    {
      ReachableInv(State());
      FailedReachable(State(), a, error, requireExpiredLease);
      w := ApplyFailedAttempt(rows[a.jobId], a, error, requireExpiredLease, now);
      if w.Settled? {
        past := past[a.jobId := More(past[a.jobId], FailureEvent(a, w, now, requireExpiredLease, error))];
        rows := rows[a.jobId := w.row];
      }
    }

    /**
     Ownership lost exactly when the fence is gone; otherwise a retry exactly while the
     row has attempts left. retry_delay_seconds never raises.
     */
    method FailAttempt(a: Attempt, error: string) returns (r: FailureResult)
      requires Valid() && Known(State(), a)
      modifies this
      ensures Valid() && State() == Next(old(State()), Fail(a, error))
      ensures r.OwnershipLost? <==> !Owns(old(State()), a)
      ensures r.OwnershipLost? ==> State() == old(State())
      ensures r.Recorded? ==>
                && a.jobId in old(rows) && a.jobId in rows && rows[a.jobId] == r.row
                && r.row.status == (if old(rows)[a.jobId].attemptCount < old(rows)[a.jobId].maxAttempts
                                    then SCHEDULED else FAILED)
                && r.row.error == Some(error)
                && SameButSettled(old(rows)[a.jobId], r.row)
      ensures !Owns(State(), a)
    {
      SnapshotsAgree(State(), a, error, false);
      var w := ApplyFailure(a, error, false);
      match w {
        case NoDelayDefined => assert false; r := OwnershipLost;
        case NoRowMatched => r := OwnershipLost;
        case Settled(row, outcome) => r := Recorded(row, outcome);
      }
    }

    // ----- Sweeps -----

    /**
     One activation: exactly the first `limit` due rows nobody else has locked, and the
     returned rows are exactly those it moved, in any order.
     */
    method ActivateDueScheduledJobs(limit: nat, locked: set<JobId>) returns (activated: seq<JobId>)
      requires Valid()
      modifies this
      ensures Valid()
      ensures IsSelection(DueKeys(old(rows), now, locked), limit, activated)
      ensures TookFirstDue(old(rows), now, locked, limit, activated) && MadePending(old(rows), activated, rows)
      ensures State() == Run(old(State()), Activations(activated))
      ensures rows == ActivatedRows(old(rows), activated, now) && now == old(now)
      ensures rows.Keys == old(rows).Keys
      ensures forall id | id in rows :: (rows[id] != old(rows)[id] <==> id in activated)
      ensures forall id | id in activated :: id in rows && rows[id].status == PENDING
    {
      ghost var s := State();
      var due := OrderByLimit(DueKeys(rows, now, locked), limit);
      activated := Returning(due);
      ReturnedSelection(DueKeys(rows, now, locked), limit, due, activated);
      ActivationFrame(rows, activated, limit, now, locked);
      SelectionTookFirstDue(rows, now, locked, limit, activated);
      ActivationIsRun(s, activated);
      past := Run(s, Activations(activated)).past;
      rows := ActivatedRows(rows, activated, now);
    }

    /**
     One sweep with its row locks held: exactly the first `limit` expired rows nobody else
     has locked, oldest lease first, each settled once; no other row changes.
     */
    method RecoverExpiredLeases(limit: nat, locked: set<JobId>) returns (recovered: seq<JobId>)
      requires Valid()
      modifies this
      ensures Valid()
      ensures IsBatch(ExpiredKeys(old(rows), now, locked), limit, recovered)
      ensures TookFirstOver(old(rows), now, locked, limit, recovered)
      ensures State() == Run(old(State()), Recoveries(recovered))
      ensures SweptTo(old(State()), recovered, State())
      ensures |ExpiredSet(State())| == |ExpiredSet(old(State()))| - |recovered|
    {
      ghost var s := State();
      var expired := OrderByLimit(ExpiredKeys(rows, now, locked), limit);
      BatchExpired(s, limit, locked, expired);
      BatchTookFirstOver(rows, now, locked, limit, expired);
      recovered := SettleSelected(expired, rows);
      SweepShrinksExpired(s, recovered, State());
    }

    method SettleSelected(expired: seq<JobId>, selected: map<JobId, Row>) returns (recovered: seq<JobId>)
      requires Valid() && Distinct(expired) && forall id | id in expired :: Expired(State(), id)
      requires selected == rows
      modifies this
      ensures Valid() && recovered == expired
      ensures State() == Run(old(State()), Recoveries(expired))
      ensures SweptTo(old(State()), expired, State())
    {
      ghost var s := State();
      recovered := [];
      SweepStart(s);
      for i := 0 to |expired|
        invariant Valid() && recovered == expired[..i]
        invariant State() == Run(s, Recoveries(recovered))
        invariant SweptTo(s, recovered, State())
      {
        var id := expired[i];
        assert id in expired && id !in expired[..i];
        assert expired[..i + 1] == expired[..i] + [id];
        var settled := RecoverSelected(id, selected[id], s, recovered);
        if !settled {
          continue;
        }
        recovered := recovered + [id];
      }
      assert expired[..|expired|] == expired;
    }

    // One iteration of the sweep, on a row as selected; the lock kept it as it was.
    method RecoverSelected(id: JobId, row: Row, ghost s: Store, ghost before: seq<JobId>) returns (settled: bool)
      requires Valid() && Reachable(s) && Expired(s, id) && row == s.rows[id] && id !in before
      requires State() == Run(s, Recoveries(before)) && SweptTo(s, before, State())
      modifies this
      ensures Valid() && settled
      ensures State() == Run(s, Recoveries(before + [id])) && SweptTo(s, before + [id], State())
    {
      ReachableInv(s);
      SelectedIsRecoverable(s, before, State(), id);
      SweepStep(s, before, id);
      var attempt := AttemptOf(id, row);
      var w := ApplyFailure(attempt.value, LEASE_EXPIRED_ERROR, true);
      settled := !w.NoRowMatched?;
    }

    // ----- Cancellation and manual retry -----

    method MarkCancelled(id: JobId) returns (job: Option<Row>)
      requires Valid()
      modifies this
      ensures Valid() && State() == Next(old(State()), Cancel(id))
      ensures job.Some? <==> HasStatus(old(rows), id, {PENDING, SCHEDULED})
      ensures job.Some? ==> id in rows && rows[id] == job.value == old(rows)[id].(status := CANCELLED)
      ensures job.None? ==> State() == old(State())
    {
      job := None;
      ServiceStep(State(), Cancel(id));
      assert id in rows ==> RowInv(rows[id], now) by { if id in rows { RowsSound(State(), id); } }
      if id in rows && Cancellable(rows[id]) {
        var r := CancelValues(rows[id]);
        rows := rows[id := r];
        past := past[id := More(past[id], Cancelled(now))];
        job := Some(r);
      }
    }

    method MarkRetried(id: JobId) returns (job: Option<Row>)
      requires Valid()
      modifies this
      ensures Valid() && State() == Next(old(State()), Retry(id))
      ensures job.Some? <==> HasStatus(old(rows), id, {FAILED})
      ensures job.Some? ==>
                && id in rows && rows[id] == job.value
                && job.value == old(rows)[id].(status := PENDING, attemptCount := 0, progress := 0, error := None,
                                               result := None, completedAt := None, startedAt := None,
                                               scheduledAt := None)
      ensures job.None? ==> State() == old(State())
    {
      job := None;
      RetryWrites(State(), id);
      if id in rows && Retriable(rows[id]) {
        var r := RetryValues(rows[id]);
        rows := rows[id := r];
        past := past[id := More(past[id], Retried(now))];
        job := Some(r);
      }
    }
  }

  // ----- Lemmas for the calls above -----

  lemma ServiceStep(s: Store, action: Action)
    requires Reachable(s)
    ensures Reachable(Next(s, action)) && s.rows.Keys == s.past.Keys
  {
    ReachableInv(s);
    ReachableNext(s, action);
  }

  lemma RetryWrites(s: Store, id: JobId)
    requires Reachable(s)
    ensures Reachable(Next(s, Retry(id)))
    ensures id in s.rows ==> id in s.past && RowInv(s.rows[id], s.now)
  {
    ServiceStep(s, Retry(id));
    if id in s.rows {
      RowsSound(s, id);
    }
  }

  lemma PendingIsClaimable(s: Store, id: JobId)
    requires Reachable(s)
    ensures id in s.rows ==> (Claimable(s.rows[id]) <==> s.rows[id].status == PENDING)
  {
    if id in s.rows {
      RowsSound(s, id);
    }
  }

  lemma ConflictMeansHeld(s: Store, key: string)
    requires KeyHeld(ReleaseExpired(s.rows, key, s.now), key)
    ensures KeyHeld(s.rows, key)
  {
    var released := ReleaseExpired(s.rows, key, s.now);
    var id :| id in released && released[id].idempotencyKey == Some(key);
    assert id in s.rows && s.rows[id].idempotencyKey == Some(key);
  }

  lemma HeldAfter(s: Store, s': Store, key: string)
    requires Reachable(s) && Evolves(s, s') && KeyHeld(s.rows, key)
    ensures KeyHeld(s'.rows, key)
  {
    var actions :| s' == Run(s, actions);
    ReachableInv(s);
    KeyNeverFreed(s, actions, key);
  }

  lemma ActivationIsRun(s: Store, batch: seq<JobId>)
    requires Reachable(s) && Distinct(batch) && AllDue(s, batch)
    ensures var s' := Run(s, Activations(batch));
            Reachable(s') && s'.now == s.now && s'.minted == s.minted && s'.rows == ActivatedRows(s.rows, batch, s.now)
  {
    ReachableInv(s);
    ActivatesEach(s, batch);
    ReachableRun(s, Activations(batch));
  }

  lemma BatchExpired(s: Store, limit: nat, locked: set<JobId>, batch: seq<JobId>)
    requires Reachable(s) && IsBatch(ExpiredKeys(s.rows, s.now, locked), limit, batch)
    ensures Distinct(batch) && forall id | id in batch :: Expired(s, id)
  {
  }

  lemma SweepStart(s: Store)
    requires Reachable(s)
    ensures s == Run(s, Recoveries([])) && SweptTo(s, [], s)
  {
  }

  lemma UnsweptUnchanged(s: Store, before: seq<JobId>, t: Store, id: JobId)
    requires SweptTo(s, before, t) && Expired(s, id) && id !in before
    ensures Expired(t, id) && t.rows[id] == s.rows[id]
  {
    assert SweptRow(s, false, t, id);
  }

  // A selected row is still as it was, and settling it is what Recover does.
  lemma SelectedIsRecoverable(s: Store, before: seq<JobId>, t: Store, id: JobId)
    requires Reachable(t) && SweptTo(s, before, t) && Expired(s, id) && id !in before
    ensures id in t.rows && t.rows[id] == s.rows[id]
    ensures AttemptOf(id, t.rows[id]).Some?
    ensures var a := AttemptOf(id, t.rows[id]).value;
            && a.jobId == id && Known(t, a)
            && ApplyFailedAttempt(t.rows[id], a, LEASE_EXPIRED_ERROR, true, t.now).Settled?
            && Next(t, Recover(id)) == Failed(t, a, LEASE_EXPIRED_ERROR, true)
  {
    UnsweptUnchanged(s, before, t, id);
    ReachableInv(t);
    ExpiredAttemptKnown(t, id);
    RecoveryNeverRaises(t, id);
    RecoverIsFailed(t, AttemptOf(id, t.rows[id]).value);
  }

  // A failure write that recovery may make is a Recover step, any other a Fail step.
  lemma FailedReachable(s: Store, a: Attempt, error: string, recovered: bool)
    requires Reachable(s) && Known(s, a) && (recovered ==> error == LEASE_EXPIRED_ERROR)
    ensures Reachable(Failed(s, a, error, recovered))
  {
    if !recovered {
      ReachableNext(s, Fail(a, error));
    } else {
      RecoveredReachable(s, a);
    }
  }

  lemma RecoveredReachable(s: Store, a: Attempt)
    requires Reachable(s) && Known(s, a)
    ensures Reachable(Failed(s, a, LEASE_EXPIRED_ERROR, true))
  {
    ReachableInv(s);
    FailedKeeps(s, a, LEASE_EXPIRED_ERROR, true);
    if ApplyFailedAttempt(s.rows[a.jobId], a, LEASE_EXPIRED_ERROR, true, s.now).Settled? {
      OwnerSnapshot(s, a);
      RecoverIsFailed(s, a);
      ReachableNext(s, Recover(a.jobId));
    }
  }
}
