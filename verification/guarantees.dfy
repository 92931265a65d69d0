/**
 What the job table guarantees over whole runs, under every interleaving of
 submitters, owners, stale owners, sweeps, cancellers and manual retriers.
 */
module Guarantees {
  import opened Jobs
  import opened Statements
  import opened Histories
  import opened Protocol

  lemma EmptyInv()
    ensures Inv(EMPTY_STORE)
  {
  }

  ghost predicate Reachable(s: Store) {
    exists actions :: s == Run(EMPTY_STORE, actions)
  }

  lemma ReachableInv(s: Store)
    requires Reachable(s)
    ensures Inv(s)
  {
    var actions :| s == Run(EMPTY_STORE, actions);
    EmptyInv();
    RunKeepsInv(EMPTY_STORE, actions);
  }

  lemma ReachableRun(s: Store, actions: seq<Action>)
    requires Reachable(s)
    ensures Reachable(Run(s, actions))
  {
    var before :| s == Run(EMPTY_STORE, before);
    RunAppend(EMPTY_STORE, before, actions);
  }

  // ----- Rows -----

  /** The row invariant holds in every reachable table, so no CHECK constraint ever fires. */
  lemma RowsSound(s: Store, id: JobId)
    requires Reachable(s) && id in s.rows
    ensures RowInv(s.rows[id], s.now) && ChecksHold(s.rows[id])
  {
    ReachableInv(s);
    assert JobInv(id, s.rows[id], s.past[id], s.now, s.minted);
  }

  // ----- Histories only grow -----

  predicate Follows(later: History, earlier: History) {
    later == earlier || (later.More? && later.past == earlier)
  }

  // Which action can add which event to a job's history.
  predicate Stems(s: Store, action: Action, id: JobId, e: Event) {
    && (e.Claimed? ==> action.Claim? && action.id == id && action.token !in s.minted
                       && e.attempt.executionToken == action.token)
    && (e.Retried? ==> action == Retry(id))
    && (e.Activated? ==> action == Activate(id))
    && (e.Created? ==> id !in s.past)
  }

  lemma PastStep(s: Store, action: Action, id: JobId)
    requires id in s.past
    ensures id in Next(s, action).past
    ensures var h, h' := s.past[id], Next(s, action).past[id];
            h' == h || (h'.More? && h'.past == h && Stems(s, action, id, h'.last))
  {
  }

  lemma HistoryStep(s: Store, action: Action, id: JobId)
    requires Inv(s) && id in s.past
    ensures id in Next(s, action).past && id in Next(s, action).rows
    ensures Follows(Next(s, action).past[id], s.past[id])
    ensures Lawful(id, Next(s, action).past[id])
  {
    PastStep(s, action, id);
    NextKeepsInv(s, action);
    LawfulHistory(Next(s, action), id);
  }

  lemma LawfulHistory(s: Store, id: JobId)
    requires Inv(s) && id in s.past
    ensures id in s.rows && s.past[id].More? && Lawful(id, s.past[id])
  {
    assert JobInv(id, s.rows[id], s.past[id], s.now, s.minted);
  }

  lemma {:induction false} KnownForever(s: Store, actions: seq<Action>, a: Attempt)
    requires Inv(s) && Known(s, a)
    ensures Known(Run(s, actions), a)
  {
    if actions != [] {
      var before := actions[..|actions| - 1];
      KnownForever(s, before, a);
      RunKeepsInv(s, before);
      HistoryStep(Run(s, before), actions[|actions| - 1], a.jobId);
    }
  }

  // ----- Fencing -----

  // While an attempt owns its row, the row's owner columns and counters are the snapshot's.
  lemma OwnerSnapshot(s: Store, a: Attempt)
    requires Inv(s) && Known(s, a)
    ensures Owns(s, a) <==> Owner(s.past[a.jobId]) == Some(a)
    ensures Owns(s, a) ==> AttemptOf(a.jobId, s.rows[a.jobId]) == Some(a)
  {
    var id := a.jobId;
    assert JobInv(id, s.rows[id], s.past[id], s.now, s.minted);
    if Owns(s, a) {
      OwnerIsOwned(id, s.rows[id], s.past[id], s.now, s.minted, a);
    }
  }

  /**
   Whoever presents it, an attempt passes the fence exactly if the latest claim of the job,
   not settled yet, was made by that worker and under that token.
   */
  lemma FenceDemandsBoth(s: Store, a: Attempt)
    requires Reachable(s) && a.jobId in s.rows
    ensures a.jobId in s.past
    ensures Owns(s, a) <==>
              match Owner(s.past[a.jobId])
              case Some(b) => a.workerId == b.workerId && a.executionToken == b.executionToken
              case None => false
  {
    ReachableInv(s);
    assert JobInv(a.jobId, s.rows[a.jobId], s.past[a.jobId], s.now, s.minted);
  }

  lemma OwnerNeverReturns(id: JobId, h: History, h': History, a: Attempt)
    requires Lawful(id, h) && Lawful(id, h') && Follows(h', h)
    requires Issued(h, a) && Owner(h) != Some(a)
    ensures Issued(h', a) && Owner(h') != Some(a)
  {
    IssuedIsClaimed(id, h, a);
  }

  lemma FenceStaysDown(s: Store, action: Action, a: Attempt)
    requires Inv(s) && Known(s, a) && !Owns(s, a)
    ensures Known(Next(s, action), a) && !Owns(Next(s, action), a)
  {
    OwnerSnapshot(s, a);
    LawfulHistory(s, a.jobId);
    HistoryStep(s, action, a.jobId);
    OwnerNeverReturns(a.jobId, s.past[a.jobId], Next(s, action).past[a.jobId], a);
    NextKeepsInv(s, action);
    OwnerSnapshot(Next(s, action), a);
  }

  /**
   Fencing over whole runs: once a token is not the row's, no run brings it back, and
   every heartbeat, progress, completion and failure write made with it changes nothing.
   */
  lemma {:induction false} LostOwnershipNeverReturns(s: Store, actions: seq<Action>, a: Attempt)
    requires Inv(s) && Known(s, a) && !Owns(s, a)
    ensures var s' := Run(s, actions);
            && Known(s', a) && !Owns(s', a)
            && (forall lease :: Next(s', Extend(a, lease)) == s')
            && (forall progress :: Next(s', Progress(a, progress)) == s')
            && (forall result :: Next(s', Complete(a, result)) == s')
            && (forall error :: Next(s', Fail(a, error)) == s')
  {
    if actions != [] {
      var before := actions[..|actions| - 1];
      LostOwnershipNeverReturns(s, before, a);
      RunKeepsInv(s, before);
      FenceStaysDown(Run(s, before), actions[|actions| - 1], a);
    }
    RunKeepsInv(s, actions);
    WritesRefused(Run(s, actions), a);
  }

  lemma WriteRefused(s: Store, action: Action, a: Attempt)
    requires Inv(s) && Known(s, a) && !Owns(s, a) && ActsFor(action, a)
    ensures Next(s, action) == s
  {
    if action.Fail? {
      FailedWithoutOwnership(s, a, action.error, false);
    }
  }

  lemma WritesRefused(s: Store, a: Attempt)
    requires Inv(s) && Known(s, a) && !Owns(s, a)
    ensures forall lease :: Next(s, Extend(a, lease)) == s
    ensures forall progress :: Next(s, Progress(a, progress)) == s
    ensures forall result :: Next(s, Complete(a, result)) == s
    ensures forall error :: Next(s, Fail(a, error)) == s
  {
    forall lease ensures Next(s, Extend(a, lease)) == s { WriteRefused(s, Extend(a, lease), a); }
    forall progress ensures Next(s, Progress(a, progress)) == s { WriteRefused(s, Progress(a, progress), a); }
    forall result ensures Next(s, Complete(a, result)) == s { WriteRefused(s, Complete(a, result), a); }
    forall error ensures Next(s, Fail(a, error)) == s { WriteRefused(s, Fail(a, error), a); }
  }

  // The ways an attempt loses its row: its own settlement, or a recovery that finds the lease expired.
  predicate EndsAttempt(s: Store, action: Action, a: Attempt) {
    || (action.Complete? && action.attempt == a)
    || (action.Fail? && action.attempt == a)
    || (action == Recover(a.jobId) && a.jobId in s.rows && IsExpired(s.rows[a.jobId], s.now))
  }

  /** An owner loses its row only by settling it or to a recovery that found the lease expired. */
  lemma OnlySettlementEndsOwnership(s: Store, action: Action, a: Attempt)
    requires Inv(s) && Known(s, a) && Owns(s, a)
    ensures !Owns(Next(s, action), a) <==> EndsAttempt(s, action, a)
  {
    match action {
      case Fail(b, error) =>
        FailEnds(s, b, error, false, a);
      case Recover(j) =>
        if j in s.rows && IsExpired(s.rows[j], s.now) {
          ExpiredAttemptKnown(s, j);
          FailEnds(s, AttemptOf(j, s.rows[j]).value, LEASE_EXPIRED_ERROR, true, a);
          OwnerSnapshot(s, a);
        }
      case Complete(b, _) => OtherOwner(s, a, b);
      case _ => OtherActionsSpareOwner(s, action, a);
    }
  }

  // Somebody else's failure write leaves an owned row alone.
  lemma FailedSparesOwner(s: Store, b: Attempt, error: string, recovered: bool, a: Attempt)
    requires Inv(s) && Known(s, a) && Owns(s, a) && Known(s, b) && a != b
    ensures a.jobId in Failed(s, b, error, recovered).rows
    ensures Failed(s, b, error, recovered).rows[a.jobId] == s.rows[a.jobId]
  {
    OtherOwner(s, a, b);
    if Owns(s, b) {
      FailedSparesOthers(s, b, error, recovered);
    } else {
      FailedWithoutOwnership(s, b, error, recovered);
    }
  }

  predicate ActsFor(action: Action, a: Attempt) {
    (action.Extend? || action.Progress? || action.Complete? || action.Fail?) && action.attempt == a
  }

  lemma SimpleActionsSpareOwner(s: Store, action: Action, a: Attempt)
    requires s.rows.Keys == s.past.Keys && Owns(s, a)
    requires !action.Fail? && !action.Recover? && !action.Extend? && !action.Progress? && !action.Complete?
    ensures a.jobId in Next(s, action).rows
    ensures WithoutKey(Next(s, action).rows[a.jobId]) == WithoutKey(s.rows[a.jobId])
  {
  }

  lemma OtherOwnersSpareOwner(s: Store, action: Action, a: Attempt)
    requires Inv(s) && Known(s, a) && Owns(s, a)
    requires (action.Extend? || action.Progress? || action.Complete?) && action.attempt != a
    ensures a.jobId in Next(s, action).rows
    ensures Next(s, action).rows[a.jobId] == s.rows[a.jobId]
  {
    OtherOwner(s, a, action.attempt);
  }

  /** Nobody but the owner, or a recovery that ends the ownership, changes an owned row; its key may be detached. */
  lemma OwnedRowStep(s: Store, action: Action, a: Attempt)
    requires Inv(s) && Known(s, a) && Owns(s, a) && Owns(Next(s, action), a) && !ActsFor(action, a)
    ensures WithoutKey(Next(s, action).rows[a.jobId]) == WithoutKey(s.rows[a.jobId])
  {
    if action.Extend? || action.Progress? || action.Complete? {
      OtherOwnersSpareOwner(s, action, a);
    } else if action.Fail? {
      if Known(s, action.attempt) {
        FailedSparesOwner(s, action.attempt, action.error, false, a);
      }
    } else if action.Recover? {
      RecoverSparesOwner(s, action.id, a);
    } else {
      SimpleActionsSpareOwner(s, action, a);
    }
  }

  lemma RecoverSparesOwner(s: Store, id: JobId, a: Attempt)
    requires Inv(s) && Known(s, a) && Owns(s, a) && Owns(Next(s, Recover(id)), a)
    ensures Next(s, Recover(id)).rows[a.jobId] == s.rows[a.jobId]
  {
    if id in s.rows && IsExpired(s.rows[id], s.now) {
      ExpiredAttemptKnown(s, id);
      var b := AttemptOf(id, s.rows[id]).value;
      FailEnds(s, b, LEASE_EXPIRED_ERROR, true, a);
      FailedSparesOwner(s, b, LEASE_EXPIRED_ERROR, true, a);
    }
  }

  lemma FailEnds(s: Store, b: Attempt, error: string, recovered: bool, a: Attempt)
    requires Inv(s) && Known(s, a) && Owns(s, a)
    requires recovered ==> Known(s, b) && SqlBefore(s.rows[b.jobId].leaseExpiresAt, s.now) && Owns(s, b)
    ensures Known(s, b) ==> (!Owns(Failed(s, b, error, recovered), a) <==> b == a)
  {
    OtherOwner(s, a, b);
    if Known(s, b) {
      FailedKeeps(s, b, error, recovered);
    }
  }

  lemma RenewalsSpareOwner(s: Store, action: Action, a: Attempt)
    requires Owns(s, a) && (action.Extend? || action.Progress?)
    ensures Owns(Next(s, action), a)
  {
  }

  lemma OtherActionsSpareOwner(s: Store, action: Action, a: Attempt)
    requires Inv(s) && Known(s, a) && Owns(s, a)
    requires !action.Fail? && !action.Recover? && !action.Complete?
    ensures Owns(Next(s, action), a)
  {
    if action.Extend? || action.Progress? {
      RenewalsSpareOwner(s, action, a);
    } else {
      SimpleActionsSpareOwner(s, action, a);
      SameButKey(s.rows[a.jobId], Next(s, action).rows[a.jobId], a);
    }
  }

  lemma SameButKey(r: Row, r': Row, a: Attempt)
    requires WithoutKey(r) == WithoutKey(r')
    ensures OwnedBy(r, a) <==> OwnedBy(r', a)
  {
    assert WithoutKey(r).status == WithoutKey(r').status;
    assert WithoutKey(r).workerId == WithoutKey(r').workerId;
    assert WithoutKey(r).executionToken == WithoutKey(r').executionToken;
  }

  lemma OtherOwner(s: Store, a: Attempt, b: Attempt)
    requires Inv(s) && Known(s, a) && Owns(s, a)
    ensures Known(s, b) && b.jobId == a.jobId && Owns(s, b) ==> a == b
  {
    if Known(s, b) && b.jobId == a.jobId && Owns(s, b) {
      OwnerSnapshot(s, a);
      OwnerSnapshot(s, b);
    }
  }

  /** A completed row shows the result of the attempt that holds the newest token. */
  lemma ResultIsLatestAttempts(s: Store, id: JobId)
    requires Reachable(s) && id in s.rows && s.rows[id].status == COMPLETED
    ensures id in s.past && s.past[id].More? && s.past[id].last.Completed?
    ensures LatestClaim(s.past[id]) == Some(s.past[id].last.attempt)
    ensures s.rows[id].result == Some(s.past[id].last.result)
    ensures s.rows[id].completedAt == Some(s.past[id].last.at)
  {
    ReachableInv(s);
    assert JobInv(id, s.rows[id], s.past[id], s.now, s.minted);
    ResultFromLatestClaim(id, s.past[id]);
  }

  // ----- Tokens -----

  // No token is drawn for two jobs, and none twice for one.
  ghost predicate TokensDistinct(s: Store) {
    forall a, b | Known(s, a) && Known(s, b) && a.executionToken == b.executionToken :: a == b
  }

  lemma TokensDistinctStep(s: Store, action: Action)
    requires Inv(s) && TokensDistinct(s)
    ensures TokensDistinct(Next(s, action))
  {
    var s' := Next(s, action);
    NextKeepsInv(s, action);
    forall a, b | Known(s', a) && Known(s', b) && a.executionToken == b.executionToken
      ensures a == b
    {
      KnownBefore(s, action, a);
      KnownBefore(s, action, b);
      if !Known(s, a) && Known(s, b) {
        KnownIsMinted(s, b);
      } else if Known(s, a) && !Known(s, b) {
        KnownIsMinted(s, a);
      }
    }
  }

  // An attempt is new only in the step that claims it, under a token never drawn before.
  lemma KnownBefore(s: Store, action: Action, a: Attempt)
    requires Inv(s) && Known(Next(s, action), a)
    ensures Known(s, a) || (action.Claim? && a.executionToken == action.token && action.token !in s.minted
                            && Owner(Next(s, action).past[a.jobId]) == Some(a) && a.jobId == action.id)
  {
    if a.jobId in s.past {
      PastStep(s, action, a.jobId);
    } else {
      assert !Issued(Nothing, a);
    }
  }

  lemma {:induction false} IssuedIsMinted(h: History, minted: set<Token>, a: Attempt)
    requires TokensMinted(h, minted) && Issued(h, a)
    ensures a.executionToken in minted
  {
    if !(h.last.Claimed? && h.last.attempt == a) {
      IssuedIsMinted(h.past, minted, a);
    }
  }

  lemma KnownIsMinted(s: Store, a: Attempt)
    requires Inv(s) && Known(s, a)
    ensures a.executionToken in s.minted
  {
    assert JobInv(a.jobId, s.rows[a.jobId], s.past[a.jobId], s.now, s.minted);
    IssuedIsMinted(s.past[a.jobId], s.minted, a);
  }

  /** The token of an attempt is never reused, across claims, retries and jobs. */
  lemma {:induction false} TokensNeverReused(actions: seq<Action>)
    ensures TokensDistinct(Run(EMPTY_STORE, actions))
  {
    if actions != [] {
      TokensNeverReused(actions[..|actions| - 1]);
      EmptyInv();
      RunKeepsInv(EMPTY_STORE, actions[..|actions| - 1]);
      TokensDistinctStep(Run(EMPTY_STORE, actions[..|actions| - 1]), actions[|actions| - 1]);
    }
  }

  // ----- Attempts -----

  /**
   Per job: the counter is the claims since the last reset, claims are settlements plus
   the attempt in flight, and each token is settled exactly once after it leaves the row.
   */
  lemma AttemptsBalance(s: Store, id: JobId)
    requires Reachable(s) && id in s.rows
    ensures id in s.past
    ensures s.rows[id].attemptCount == ClaimsInCycle(s.past[id])
    ensures Claims(s.past[id]) == Settlements(s.past[id]) + if s.rows[id].status == PROCESSING then 1 else 0
    ensures forall a | Issued(s.past[id], a) ::
              TimesSettled(s.past[id], a.executionToken) == if Owns(s, a) then 0 else 1
  {
    ReachableInv(s);
    assert JobInv(id, s.rows[id], s.past[id], s.now, s.minted);
    AttemptsConserved(id, s.past[id]);
    forall a | Issued(s.past[id], a)
      ensures TimesSettled(s.past[id], a.executionToken) == if Owns(s, a) then 0 else 1
    {
      IssuedIsClaimed(id, s.past[id], a);
      assert Known(s, a);
      OwnerSnapshot(s, a);
      TokenSettledOnce(id, s.past[id], a.executionToken);
      if Owner(s.past[id]).Some? && Owner(s.past[id]).value.executionToken == a.executionToken {
        TokenNamesAttempt(id, s.past[id], a, Owner(s.past[id]).value);
      }
    }
  }

  ghost function OneOf(ids: set<JobId>): JobId
    requires ids != {}
  {
    var id :| id in ids; id
  }

  ghost function Total(past: map<JobId, History>, count: History -> nat, ids: set<JobId>): nat
    requires ids <= past.Keys
  {
    if ids == {} then 0
    else count(past[OneOf(ids)]) + Total(past, count, ids - {OneOf(ids)})
  }

  ghost function InFlight(s: Store, ids: set<JobId>): set<JobId> {
    set id | id in ids && id in s.rows && s.rows[id].status == PROCESSING
  }

  lemma {:induction false} TotalsBalance(s: Store, ids: set<JobId>)
    requires Reachable(s) && ids <= s.past.Keys && s.rows.Keys == s.past.Keys
    ensures Total(s.past, Claims, ids) == Total(s.past, Settlements, ids) + |InFlight(s, ids)|
  {
    if ids == {} {
      assert InFlight(s, ids) == {};
    } else {
      var id := OneOf(ids);
      TotalsBalance(s, ids - {id});
      AttemptsBalance(s, id);
      if s.rows[id].status == PROCESSING {
        assert InFlight(s, ids) == InFlight(s, ids - {id}) + {id};
      } else {
        assert InFlight(s, ids) == InFlight(s, ids - {id});
      }
    }
  }

  /** Over the whole table: total claims are total settlements plus PROCESSING rows. */
  lemma AttemptsConservedOverall(s: Store)
    requires Reachable(s)
    ensures s.rows.Keys == s.past.Keys
    ensures Total(s.past, Claims, s.past.Keys)
         == Total(s.past, Settlements, s.past.Keys) + |set id | id in s.rows && s.rows[id].status == PROCESSING|
  {
    assert s.rows.Keys == s.past.Keys by { ReachableInv(s); }
    TotalsBalance(s, s.past.Keys);
    AllInFlight(s);
  }

  lemma AllInFlight(s: Store)
    requires s.rows.Keys == s.past.Keys
    ensures InFlight(s, s.past.Keys) == set id | id in s.rows && s.rows[id].status == PROCESSING
  {
  }

  // ----- Snapshots -----

  /**
   A snapshot's counters are the row's for as long as its fence matches. Hence a failure
   write is refused exactly when the fence is gone (or, for recovery, the lease is not
   expired), it retries exactly while the row has attempts left, and no delay is undefined.
   */
  lemma SnapshotsAgree(s: Store, a: Attempt, error: string, recovered: bool)
    requires Reachable(s) && Known(s, a)
    ensures Owns(s, a) ==>
              && s.rows[a.jobId].attemptCount == a.attemptCount
              && s.rows[a.jobId].maxAttempts == a.maxAttempts
    ensures a.HasAttemptsLeft() ==> RetryDelaySeconds(a.attemptCount).Some?
    ensures a.jobId in s.rows
    ensures var r := s.rows[a.jobId];
            match ApplyFailedAttempt(r, a, error, recovered, s.now)
            case NoDelayDefined => false
            case NoRowMatched => !Owns(s, a) || (recovered && !SqlBefore(r.leaseExpiresAt, s.now))
            case Settled(_, outcome) =>
              && Owns(s, a) && (recovered ==> SqlBefore(r.leaseExpiresAt, s.now))
              && (outcome.RETRY_SCHEDULED? <==> r.attemptCount < r.maxAttempts)
  {
    ReachableInv(s);
    FailedKeeps(s, a, error, recovered);
    OwnerSnapshot(s, a);
    assert JobInv(a.jobId, s.rows[a.jobId], s.past[a.jobId], s.now, s.minted);
    IssuedIsClaimed(a.jobId, s.past[a.jobId], a);
  }

  /** A delay is defined after the first and the second attempt, and no other. */
  lemma DelaysDefinedIff(attemptCount: int)
    ensures RetryDelaySeconds(attemptCount) ==
              if attemptCount == 1 then Some(30) else if attemptCount == 2 then Some(120) else None
  {
  }

  /** Attempt.of never raises on a row recovery selects, so no row can abort a batch. */
  lemma RecoveryNeverRaises(s: Store, id: JobId)
    requires Reachable(s) && id in s.rows && IsExpired(s.rows[id], s.now)
    ensures AttemptOf(id, s.rows[id]).Some?
    ensures ApplyFailedAttempt(s.rows[id], AttemptOf(id, s.rows[id]).value, LEASE_EXPIRED_ERROR, true, s.now).Settled?
  {
    ReachableInv(s);
    ExpiredAttemptKnown(s, id);
    FailedKeeps(s, AttemptOf(id, s.rows[id]).value, LEASE_EXPIRED_ERROR, true);
  }

  // ----- Timing -----

  /** No claim happens before the row's scheduled time. */
  lemma ClaimsAreDue(s: Store, id: JobId, worker: WorkerId, token: Token, lease: int)
    requires Reachable(s) && Next(s, Claim(id, worker, token, lease)) != s
    ensures id in s.rows && (s.rows[id].scheduledAt.Some? ==> s.rows[id].scheduledAt.value <= s.now)
  {
    RowsSound(s, id);
  }

  /** A FAILED row went through three claims, 30 and then 120 seconds of backoff apart. */
  lemma FailedAfterFullBackoff(s: Store, id: JobId)
    requires Reachable(s) && id in s.rows && s.rows[id].status == FAILED
    ensures id in s.past && s.rows[id].attemptCount == 3
    ensures exists c1, f1, c2, f2, c3, f3 :: FullCycle(Cycle(s.past[id]), c1, f1, c2, f2, c3, f3)
  {
    ReachableInv(s);
    assert JobInv(id, s.rows[id], s.past[id], s.now, s.minted);
    FailedCycle(id, s.past[id]);
  }

  // ----- Lifecycle -----

  function Length(h: History): nat {
    if h.Nothing? then 0 else 1 + Length(h.past)
  }

  lemma LongerDiffers(h: History, e: Event)
    ensures More(h, e) != h
  {
    assert Length(More(h, e)) == 1 + Length(h);
  }

  /**
   Between manual retries a job changes status at most as often as its measure allows,
   never more than nine times; the measure only goes down.
   */
  lemma {:induction false} LifecycleTerminates(s: Store, actions: seq<Action>, id: JobId)
    requires Inv(s) && id in s.past
    requires Retry(id) !in actions
    ensures id in Run(s, actions).past && id in Run(s, actions).rows
    ensures var h, h' := s.past[id], Run(s, actions).past[id];
            && h.More? && h'.More?
            && 0 <= ChangesLeft(h') && ChangesLeft(h) <= 9
            && Length(h') - Length(h) <= ChangesLeft(h) - ChangesLeft(h')
            && (Status(h') != Status(h) ==> Length(h') > Length(h))
            && (Length(h') == Length(h) ==> h' == h)
            && Length(h') >= Length(h)
  {
    assert JobInv(id, s.rows[id], s.past[id], s.now, s.minted);
    CycleEnds(id, s.past[id]);
    if actions != [] {
      var before, action := actions[..|actions| - 1], actions[|actions| - 1];
      assert action in actions;
      LifecycleTerminates(s, before, id);
      RunKeepsInv(s, before);
      LifecycleStep(Run(s, before), action, id);
    }
  }

  lemma LifecycleStep(s: Store, action: Action, id: JobId)
    requires Inv(s) && id in s.past && action != Retry(id)
    ensures id in Next(s, action).past && id in Next(s, action).rows
    ensures var h, h' := s.past[id], Next(s, action).past[id];
            && h.More?
            && (h' == h || (h'.More? && h'.past == h && 0 <= ChangesLeft(h') < ChangesLeft(h)))
  {
    LawfulHistory(s, id);
    PastStep(s, action, id);
    HistoryStep(s, action, id);
    CycleEnds(id, Next(s, action).past[id]);
  }

  /** COMPLETED and CANCELLED are for ever, and FAILED until a manual retry; only the key may be detached. */
  lemma {:induction false} FinishedStaysFinished(s: Store, actions: seq<Action>, id: JobId)
    requires Inv(s) && id in s.rows
    requires s.rows[id].status in {COMPLETED, CANCELLED} || (s.rows[id].status == FAILED && Retry(id) !in actions)
    ensures id in Run(s, actions).rows
    ensures WithoutKey(Run(s, actions).rows[id]) == WithoutKey(s.rows[id])
  {
    if actions != [] {
      var before, action := actions[..|actions| - 1], actions[|actions| - 1];
      FinishedStaysFinished(s, before, id);
      RunKeepsInv(s, before);
      assert action in actions;
      FinishedStep(Run(s, before), action, id);
    }
  }

  lemma FinishedStep(s: Store, action: Action, id: JobId)
    requires Inv(s) && id in s.rows
    requires s.rows[id].status in {COMPLETED, CANCELLED} || (s.rows[id].status == FAILED && action != Retry(id))
    ensures id in Next(s, action).rows
    ensures WithoutKey(Next(s, action).rows[id]) == WithoutKey(s.rows[id])
  {
    if action.Fail? {
      FailedSparesFinished(s, action.attempt, action.error, false, id);
    } else if action.Recover? && action.id in s.rows && IsExpired(s.rows[action.id], s.now) {
      ExpiredAttemptKnown(s, action.id);
      FailedSparesFinished(s, AttemptOf(action.id, s.rows[action.id]).value, LEASE_EXPIRED_ERROR, true, id);
    } else {
      OtherActionsSpareFinished(s, action, id);
    }
  }

  lemma FailedSparesFinished(s: Store, a: Attempt, error: string, recovered: bool, id: JobId)
    requires Inv(s) && id in s.rows && s.rows[id].status != PROCESSING
    ensures Known(s, a) ==> id in Failed(s, a, error, recovered).rows
                            && Failed(s, a, error, recovered).rows[id] == s.rows[id]
  {
    if Known(s, a) {
      if Owns(s, a) {
        FailedSparesOthers(s, a, error, recovered);
      } else {
        FailedWithoutOwnership(s, a, error, recovered);
      }
    }
  }

  lemma OtherActionsSpareFinished(s: Store, action: Action, id: JobId)
    requires s.rows.Keys == s.past.Keys && id in s.rows && !action.Fail?
    requires action.Recover? ==> !(action.id in s.rows && IsExpired(s.rows[action.id], s.now))
    requires s.rows[id].status in {COMPLETED, CANCELLED} || (s.rows[id].status == FAILED && action != Retry(id))
    ensures id in Next(s, action).rows
    ensures WithoutKey(Next(s, action).rows[id]) == WithoutKey(s.rows[id])
  {
  }
}
