/**
 ORDER BY ... LIMIT over unlocked rows, and what activating or recovering a whole
 batch in one transaction amounts to.
 */
module Sweeps {
  import opened Jobs
  import opened Statements
  import opened Histories
  import opened Protocol

  // ----- Selection -----

  predicate Distinct(batch: seq<JobId>) {
    forall i, j | 0 <= i < j < |batch| :: batch[i] != batch[j]
  }

  /** The rows ORDER BY key LIMIT limit takes, each once, in whatever order they are returned. */
  predicate IsSelection(keys: map<JobId, Time>, limit: nat, batch: seq<JobId>) {
    && |batch| == (if limit < |keys| then limit else |keys|)
    && Distinct(batch)
    && (forall id | id in batch :: id in keys)
    && (forall id, other | id in batch && other in keys && other !in batch :: keys[id] <= keys[other])
  }

  /** A legal answer to SELECT id ORDER BY key LIMIT limit, ties in any order. */
  predicate IsBatch(keys: map<JobId, Time>, limit: nat, batch: seq<JobId>) {
    && IsSelection(keys, limit, batch)
    && (forall i, j | 0 <= i < j < |batch| :: keys[batch[i]] <= keys[batch[j]])
  }

  lemma {:induction false} EarliestExists(keys: map<JobId, Time>, ids: set<JobId>)
    requires ids != {} && ids <= keys.Keys
    ensures exists id :: id in ids && forall other | other in ids :: keys[id] <= keys[other]
  {
    var some :| some in ids;
    var others := ids - {some};
    if others == {} {
      assert ids == {some};
      assert some in ids && forall other | other in ids :: keys[some] <= keys[other];
    } else {
      EarliestExists(keys, others);
      var best :| best in others && forall other | other in others :: keys[best] <= keys[other];
      var least := if keys[some] <= keys[best] then some else best;
      assert forall other | other in ids :: other == some || other in others;
      assert least in ids && forall other | other in ids :: keys[least] <= keys[other];
    }
  }

  method OrderByLimit(keys: map<JobId, Time>, limit: nat) returns (batch: seq<JobId>)
    ensures IsBatch(keys, limit, batch)
  {
    batch := [];
    var left := keys.Keys;
    while |batch| < limit && left != {}
      invariant |batch| <= limit && |batch| + |left| == |keys|
      invariant Distinct(batch)
      invariant forall id :: id in keys <==> id in batch || id in left
      invariant forall id | id in batch :: id !in left
      invariant forall i, j | 0 <= i < j < |batch| :: keys[batch[i]] <= keys[batch[j]]
      invariant forall id, other | id in batch && other in left :: keys[id] <= keys[other]
      decreases left
    {
      EarliestExists(keys, left);
      var id :| id in left && forall other | other in left :: keys[id] <= keys[other];
      batch := batch + [id];
      left := left - {id};
    }
  }

  // The rows of a batch as RETURNING gives them: each once, in no particular order.
  method Returning(batch: seq<JobId>) returns (answer: seq<JobId>)
    requires Distinct(batch)
    ensures Distinct(answer) && |answer| == |batch| && forall id :: id in answer <==> id in batch
  {
    answer := [];
    var left := set id | id in batch;
    DistinctSize(batch);
    while left != {}
      invariant Distinct(answer) && |answer| + |left| == |batch|
      invariant forall id | id in answer :: id !in left
      invariant forall id :: id in batch <==> id in answer || id in left
      decreases left
    {
      var id :| id in left;
      answer := answer + [id];
      left := left - {id};
    }
  }

  lemma ReturnedSelection(keys: map<JobId, Time>, limit: nat, batch: seq<JobId>, answer: seq<JobId>)
    requires IsSelection(keys, limit, batch)
    requires Distinct(answer) && |answer| == |batch| && forall id :: id in answer <==> id in batch
    ensures IsSelection(keys, limit, answer)
  {
  }

  function Without(keys: map<JobId, Time>, batch: seq<JobId>): map<JobId, Time> {
    keys - set id | id in batch
  }

  /**
   Two calls at once, the second skipping what the first has locked: they share no row,
   and together they take what one call with both limits could have taken.
   */
  lemma ConcurrentSelectionsCompose(keys: map<JobId, Time>, limit: nat, a: seq<JobId>, limit': nat, b: seq<JobId>)
    requires IsSelection(keys, limit, a) && IsSelection(Without(keys, a), limit', b)
    ensures forall id | id in a :: id !in b
    ensures IsSelection(keys, limit + limit', a + b)
  {
    WithoutSize(keys, a);
    DistinctAppend(a, b);
    forall id, other | id in a + b && other in keys && other !in a + b ensures keys[id] <= keys[other] {
      assert other !in a && other !in b && other in Without(keys, a);
      assert id in a || id in b;
    }
  }

  lemma DistinctAppend(a: seq<JobId>, b: seq<JobId>)
    requires Distinct(a) && Distinct(b) && forall id | id in a :: id !in b
    ensures Distinct(a + b)
  {
    forall i, j | 0 <= i < j < |a + b| ensures (a + b)[i] != (a + b)[j] {
      if j < |a| {
        assert (a + b)[i] == a[i] && (a + b)[j] == a[j];
      } else if i >= |a| {
        assert (a + b)[i] == b[i - |a|] && (a + b)[j] == b[j - |a|];
      } else {
        assert (a + b)[i] in a && (a + b)[j] in b;
      }
    }
  }

  // The selecting queries themselves compose in their order, too.
  lemma ConcurrentBatchesCompose(keys: map<JobId, Time>, limit: nat, a: seq<JobId>, limit': nat, b: seq<JobId>)
    requires IsBatch(keys, limit, a) && IsBatch(Without(keys, a), limit', b)
    ensures IsBatch(keys, limit + limit', a + b)
  {
    ConcurrentSelectionsCompose(keys, limit, a, limit', b);
    forall i, j | 0 <= i < j < |a + b| ensures keys[(a + b)[i]] <= keys[(a + b)[j]] {
      FirstThenSecond(keys, limit, a, limit', b, i, j);
    }
  }

  lemma WithoutSize(keys: map<JobId, Time>, batch: seq<JobId>)
    requires Distinct(batch) && forall id | id in batch :: id in keys
    ensures |Without(keys, batch)| == |keys| - |batch|
  {
    DistinctSize(batch);
    var taken := set id | id in batch;
    assert taken <= keys.Keys && Without(keys, batch).Keys == keys.Keys - taken;
  }

  lemma FirstThenSecond(keys: map<JobId, Time>, limit: nat, a: seq<JobId>, limit': nat, b: seq<JobId>, i: nat, j: nat)
    requires IsBatch(keys, limit, a) && IsBatch(Without(keys, a), limit', b)
    requires i < j < |a + b|
    ensures (a + b)[i] in keys && (a + b)[j] in keys
    ensures (a + b)[i] != (a + b)[j] && keys[(a + b)[i]] <= keys[(a + b)[j]]
  {
    if j < |a| {
      assert (a + b)[i] == a[i] && (a + b)[j] == a[j];
    } else if i >= |a| {
      assert (a + b)[i] == b[i - |a|] && (a + b)[j] == b[j - |a|];
    } else {
      assert (a + b)[i] in a && (a + b)[j] in b;
    }
  }

  // ----- Activation -----

  function DueKeys(rows: map<JobId, Row>, now: Time, locked: set<JobId>): map<JobId, Time> {
    map id | id in rows && id !in locked && IsDue(rows[id], now) :: rows[id].scheduledAt.value
  }

  // The activating UPDATE: rows of the batch that are still due.
  function ActivatedRows(rows: map<JobId, Row>, batch: seq<JobId>, now: Time): map<JobId, Row> {
    map id | id in rows :: if id in batch && IsDue(rows[id], now) then ActivateValues(rows[id]) else rows[id]
  }

  // Committed or still locked, an activated batch is out of every later call's reach.
  lemma ActivatedOutOfReach(rows: map<JobId, Row>, batch: seq<JobId>, now: Time, locked: set<JobId>)
    requires forall id | id in batch :: id in rows && IsDue(rows[id], now)
    ensures DueKeys(rows, now, locked + set id | id in batch) == Without(DueKeys(rows, now, locked), batch)
    ensures DueKeys(ActivatedRows(rows, batch, now), now, locked) == Without(DueKeys(rows, now, locked), batch)
  {
  }

  function Activations(batch: seq<JobId>): seq<Action> {
    seq(|batch|, i requires 0 <= i < |batch| => Activate(batch[i]))
  }

  ghost predicate ActivatedTo(s: Store, batch: seq<JobId>, s': Store) {
    && Inv(s')
    && s'.now == s.now && s'.minted == s.minted
    && s'.rows == ActivatedRows(s.rows, batch, s.now)
  }

  lemma ActivateOne(s: Store, id: JobId)
    requires Inv(s) && id in s.rows && IsDue(s.rows[id], s.now)
    ensures Inv(Next(s, Activate(id)))
    ensures Next(s, Activate(id)).rows == s.rows[id := ActivateValues(s.rows[id])]
    ensures Next(s, Activate(id)).now == s.now && Next(s, Activate(id)).minted == s.minted
  {
    ActivateKeeps(s, id);
  }

  lemma ActivatedRowsExtend(rows: map<JobId, Row>, before: seq<JobId>, id: JobId, now: Time)
    requires id in rows && IsDue(rows[id], now)
    ensures ActivatedRows(rows, before + [id], now) == ActivatedRows(rows, before, now)[id := ActivateValues(rows[id])]
  {
    forall other | other in rows
      ensures other in before + [id] <==> other in before || other == id
    {
    }
  }

  lemma ActivatesOneMore(s: Store, before: seq<JobId>, s': Store, id: JobId)
    requires ActivatedTo(s, before, s') && id in s.rows && IsDue(s.rows[id], s.now) && id !in before
    ensures ActivatedTo(s, before + [id], Next(s', Activate(id)))
  {
    ActivateOne(s', id);
    ActivatedRowsExtend(s.rows, before, id, s.now);
  }

  predicate AllDue(s: Store, batch: seq<JobId>) {
    forall id | id in batch :: id in s.rows && IsDue(s.rows[id], s.now)
  }

  lemma SplitLast(batch: seq<JobId>)
    requires Distinct(batch) && batch != []
    ensures var before, last := batch[..|batch| - 1], batch[|batch| - 1];
            && batch == before + [last] && Distinct(before) && last in batch && last !in before
            && forall id | id in before :: id in batch
  {
  }

  lemma ActivationsAppend(s: Store, before: seq<JobId>, id: JobId)
    ensures Run(s, Activations(before + [id])) == Next(Run(s, Activations(before)), Activate(id))
  {
    assert Activations(before + [id])[..|before|] == Activations(before);
  }

  /** The set-wise UPDATE is the run that activates its rows one by one. */
  lemma {:induction false} ActivatesEach(s: Store, batch: seq<JobId>)
    requires Inv(s)
    requires Distinct(batch) && AllDue(s, batch)
    ensures ActivatedTo(s, batch, Run(s, Activations(batch)))
  {
    if batch == [] {
      assert ActivatedRows(s.rows, batch, s.now) == s.rows;
    } else {
      var before, last := batch[..|batch| - 1], batch[|batch| - 1];
      SplitLast(batch);
      ActivatesEach(s, before);
      ActivationsAppend(s, before, last);
      ActivatesOneMore(s, before, Run(s, Activations(before)), last);
    }
  }

  // What an activation leaves, row by row: moved rows are PENDING, the others as they were.
  lemma ActivationFrame(rows: map<JobId, Row>, batch: seq<JobId>, limit: nat, now: Time, locked: set<JobId>)
    requires IsSelection(DueKeys(rows, now, locked), limit, batch)
    ensures var rows' := ActivatedRows(rows, batch, now);
            && rows'.Keys == rows.Keys
            && (forall id | id in rows :: rows'[id] != rows[id] <==> id in batch)
            && (forall id | id in batch :: id in rows && IsDue(rows[id], now) && rows'[id].status == PENDING)
  {
  }

  // The time a row waits for, if it is SCHEDULED and that time has come.
  predicate DueSince(rows: map<JobId, Row>, id: JobId, t: Time, now: Time) {
    id in rows && rows[id].status == SCHEDULED && rows[id].scheduledAt == Some(t) && t <= now
  }

  /**
   An activation, on the columns themselves: at most `limit` unlocked SCHEDULED rows whose
   time has come; all of them if fewer; and none left behind has waited longer than one taken.
   */
  ghost predicate TookFirstDue(rows: map<JobId, Row>, now: Time, locked: set<JobId>, limit: nat, taken: seq<JobId>) {
    && |taken| <= limit && Distinct(taken)
    && (forall id | id in taken :: id !in locked && exists t :: DueSince(rows, id, t, now))
    && (forall id, t | DueSince(rows, id, t, now) && id !in locked && id !in taken ::
          |taken| == limit && forall other, u | other in taken && DueSince(rows, other, u, now) :: u <= t)
  }

  // The rows taken are PENDING, with every other column as it was; no other row differs.
  ghost predicate MadePending(rows: map<JobId, Row>, taken: seq<JobId>, rows': map<JobId, Row>) {
    && rows'.Keys == rows.Keys
    && forall id | id in rows :: rows'[id] == if id in taken then rows[id].(status := PENDING) else rows[id]
  }

  lemma SelectionTookFirstDue(rows: map<JobId, Row>, now: Time, locked: set<JobId>, limit: nat, batch: seq<JobId>)
    requires IsSelection(DueKeys(rows, now, locked), limit, batch)
    ensures TookFirstDue(rows, now, locked, limit, batch)
    ensures MadePending(rows, batch, ActivatedRows(rows, batch, now))
  {
    var keys := DueKeys(rows, now, locked);
    forall id | id in batch ensures id !in locked && exists t :: DueSince(rows, id, t, now) {
      assert id in keys && DueSince(rows, id, keys[id], now);
    }
    forall id, t | DueSince(rows, id, t, now) && id !in locked && id !in batch
      ensures |batch| == limit && forall other, u | other in batch && DueSince(rows, other, u, now) :: u <= t
    {
      assert id in keys && keys[id] == t;
      SomeLeftOut(keys, limit, batch, id);
    }
  }

  lemma SomeLeftOut(keys: map<JobId, Time>, limit: nat, batch: seq<JobId>, id: JobId)
    requires IsSelection(keys, limit, batch) && id in keys && id !in batch
    ensures |batch| == limit
  {
    var taken := set other | other in batch;
    DistinctSize(batch);
    SubsetIsSmaller(taken, keys.Keys, id);
  }

  lemma SubsetIsSmaller(a: set<JobId>, b: set<JobId>, id: JobId)
    requires a <= b && id in b && id !in a
    ensures |a| < |b|
  {
    assert b == (b - a) + a && id in b - a;
    assert |b| == |b - a| + |a|;
  }

  // ----- Recovery -----

  function ExpiredKeys(rows: map<JobId, Row>, now: Time, locked: set<JobId>): map<JobId, Time> {
    map id | id in rows && id !in locked && IsExpired(rows[id], now) :: rows[id].leaseExpiresAt.value
  }

  function Recoveries(batch: seq<JobId>): seq<Action> {
    seq(|batch|, i requires 0 <= i < |batch| => Recover(batch[i]))
  }

  // The end of the lease of a row in flight, if it is over.
  predicate OverSince(rows: map<JobId, Row>, id: JobId, t: Time, now: Time) {
    id in rows && rows[id].status == PROCESSING && rows[id].leaseExpiresAt == Some(t) && t < now
  }

  /** A sweep likewise: unlocked rows in flight whose lease is over, the oldest leases first. */
  ghost predicate TookFirstOver(rows: map<JobId, Row>, now: Time, locked: set<JobId>, limit: nat, taken: seq<JobId>) {
    && |taken| <= limit && Distinct(taken)
    && (forall id | id in taken :: id !in locked && exists t :: OverSince(rows, id, t, now))
    && (forall i, j, t, u | 0 <= i < j < |taken|
            && OverSince(rows, taken[i], t, now) && OverSince(rows, taken[j], u, now) ::
          t <= u)
    && (forall id, t | OverSince(rows, id, t, now) && id !in locked && id !in taken ::
          |taken| == limit && forall other, u | other in taken && OverSince(rows, other, u, now) :: u <= t)
  }

  lemma BatchTookFirstOver(rows: map<JobId, Row>, now: Time, locked: set<JobId>, limit: nat, batch: seq<JobId>)
    requires IsBatch(ExpiredKeys(rows, now, locked), limit, batch)
    ensures TookFirstOver(rows, now, locked, limit, batch)
  {
    var keys := ExpiredKeys(rows, now, locked);
    forall id | id in batch ensures id !in locked && exists t :: OverSince(rows, id, t, now) {
      assert id in keys && OverSince(rows, id, keys[id], now);
    }
    forall id, t | OverSince(rows, id, t, now) && id !in locked && id !in batch
      ensures |batch| == limit && forall other, u | other in batch && OverSince(rows, other, u, now) :: u <= t
    {
      assert id in keys && keys[id] == t;
      SomeLeftOut(keys, limit, batch, id);
    }
  }

  // What the sweep writes to a row it settles: back to SCHEDULED with the backoff, or FAILED.
  predicate RecoveredRow(r: Row, r': Row, now: Time) {
    && r'.error == Some("worker lease expired")
    && r'.workerId.None? && r'.executionToken.None? && r'.leaseExpiresAt.None?
    && (if r.attemptCount < r.maxAttempts
        then && r'.status == SCHEDULED && r'.scheduledAt == Some(now + Backoff(r.attemptCount))
             && r'.completedAt == r.completedAt
        else r'.status == FAILED && r'.completedAt == Some(now) && r'.scheduledAt == r.scheduledAt)
    && SameButSettled(r, r')
  }

  // All columns agree but those a failed attempt writes.
  predicate SameButSettled(r: Row, r': Row) {
    r'.(status := r.status, error := r.error, scheduledAt := r.scheduledAt, completedAt := r.completedAt,
        workerId := r.workerId, executionToken := r.executionToken, leaseExpiresAt := r.leaseExpiresAt) == r
  }

  lemma RecoverSparesOthers(s: Store, id: JobId)
    requires s.rows.Keys == s.past.Keys && id in s.rows
    requires AttemptOf(id, s.rows[id]).Some? ==> AttemptOf(id, s.rows[id]).value.jobId == id
    ensures Next(s, Recover(id)).rows.Keys == s.rows.Keys && Next(s, Recover(id)).now == s.now
    ensures forall other | other in s.rows && other != id :: Next(s, Recover(id)).rows[other] == s.rows[other]
  {
  }

  // An attempt settled by recovery, as the row is written.
  lemma SettledByRecovery(r: Row, a: Attempt, now: Time)
    requires OwnedBy(r, a) && SqlBefore(r.leaseExpiresAt, now)
    requires a.attemptCount == r.attemptCount && a.maxAttempts == r.maxAttempts == 3 && 1 <= r.attemptCount <= 3
    ensures ApplyFailedAttempt(r, a, LEASE_EXPIRED_ERROR, true, now).Settled?
    ensures RecoveredRow(r, ApplyFailedAttempt(r, a, LEASE_EXPIRED_ERROR, true, now).row, now)
  {
  }

  lemma RecoverWrites(s: Store, id: JobId)
    requires Inv(s) && id in s.rows && IsExpired(s.rows[id], s.now)
    ensures id in Next(s, Recover(id)).rows
    ensures RecoveredRow(s.rows[id], Next(s, Recover(id)).rows[id], s.now)
  {
    ExpiredAttemptKnown(s, id);
    assert RowInv(s.rows[id], s.now) by { assert JobInv(id, s.rows[id], s.past[id], s.now, s.minted); }
    SettledByRecovery(s.rows[id], AttemptOf(id, s.rows[id]).value, s.now);
  }

  lemma RecoverOne(s: Store, id: JobId)
    requires Inv(s) && id in s.rows && IsExpired(s.rows[id], s.now)
    ensures Inv(Next(s, Recover(id)))
    ensures Next(s, Recover(id)).rows.Keys == s.rows.Keys && Next(s, Recover(id)).now == s.now
    ensures RecoveredRow(s.rows[id], Next(s, Recover(id)).rows[id], s.now)
    ensures forall other | other in s.rows && other != id :: Next(s, Recover(id)).rows[other] == s.rows[other]
  {
    NextKeepsInv(s, Recover(id));
    RecoverSparesOthers(s, id);
    RecoverWrites(s, id);
  }

  predicate SweptRow(s: Store, swept: bool, s': Store, id: JobId)
    requires id in s.rows && id in s'.rows
  {
    if swept then RecoveredRow(s.rows[id], s'.rows[id], s.now) else s'.rows[id] == s.rows[id]
  }

  predicate SweptTo(s: Store, batch: seq<JobId>, s': Store) {
    && s'.now == s.now
    && s'.rows.Keys == s.rows.Keys
    && forall id | id in s.rows :: SweptRow(s, id in batch, s', id)
  }

  lemma SweptOneMore(s: Store, before: seq<JobId>, s': Store, id: JobId, s'': Store)
    requires SweptTo(s, before, s') && id in s.rows && id !in before
    requires s''.rows.Keys == s'.rows.Keys && s''.now == s'.now
    requires RecoveredRow(s'.rows[id], s''.rows[id], s'.now)
    requires forall other | other in s'.rows && other != id :: s''.rows[other] == s'.rows[other]
    ensures SweptTo(s, before + [id], s'')
  {
    assert SweptRow(s, false, s', id);
    forall other | other in s.rows ensures SweptRow(s, other in before + [id], s'', other) {
      assert SweptRow(s, other in before, s', other);
    }
  }

  lemma SweepOneMore(s: Store, before: seq<JobId>, s': Store, id: JobId)
    requires Inv(s') && SweptTo(s, before, s')
    requires id in s.rows && IsExpired(s.rows[id], s.now) && id !in before
    ensures SweptTo(s, before + [id], Next(s', Recover(id)))
  {
    assert SweptRow(s, id in before, s', id);
    RecoverOne(s', id);
    SweptOneMore(s, before, s', id, Next(s', Recover(id)));
  }

  lemma SweepStep(s: Store, before: seq<JobId>, id: JobId)
    requires id in s.rows && IsExpired(s.rows[id], s.now) && id !in before
    requires Inv(s) && SweptTo(s, before, Run(s, Recoveries(before)))
    ensures Run(s, Recoveries(before + [id])) == Next(Run(s, Recoveries(before)), Recover(id))
    ensures SweptTo(s, before + [id], Run(s, Recoveries(before + [id])))
  {
    RecoveriesAppend(s, before, id);
    RunKeepsInv(s, Recoveries(before));
    SweepOneMore(s, before, Run(s, Recoveries(before)), id);
  }

  lemma RecoveriesAppend(s: Store, before: seq<JobId>, id: JobId)
    ensures Run(s, Recoveries(before + [id])) == Next(Run(s, Recoveries(before)), Recover(id))
  {
    assert Recoveries(before + [id])[..|before|] == Recoveries(before);
  }

  predicate Expired(s: Store, id: JobId) {
    id in s.rows && IsExpired(s.rows[id], s.now)
  }

  ghost function ExpiredSet(s: Store): set<JobId> {
    set id | id in s.rows && Expired(s, id)
  }

  lemma SweptNotExpired(s: Store, batch: seq<JobId>, s': Store, id: JobId)
    requires SweptTo(s, batch, s')
    ensures Expired(s', id) <==> Expired(s, id) && id !in batch
  {
    if id in s.rows {
      assert SweptRow(s, id in batch, s', id);
    }
  }

  // A sweep and the next one settle the rows of both, each once.
  lemma SweepsCompose(s: Store, first: seq<JobId>, t: Store, second: seq<JobId>, u: Store)
    requires SweptTo(s, first, t) && SweptTo(t, second, u)
    requires Distinct(first) && Distinct(second)
    requires forall id | id in second :: Expired(t, id)
    ensures SweptTo(s, first + second, u) && Distinct(first + second)
  {
    forall id | id in first ensures id !in second {
      SweptNotExpired(s, first, t, id);
    }
    DistinctAppend(first, second);
    forall id | id in s.rows ensures SweptRow(s, id in first + second, u, id) {
      assert SweptRow(s, id in first, t, id) && SweptRow(t, id in second, u, id);
      SweptNotExpired(s, first, t, id);
    }
  }

  lemma AllSwept(s: Store, settled: seq<JobId>, s': Store)
    requires SweptTo(s, settled, s') && ExpiredSet(s') == {}
    requires forall id | id in settled :: Expired(s, id)
    ensures forall id :: id in settled <==> Expired(s, id)
  {
    forall id | Expired(s, id) ensures id in settled {
      SweptNotExpired(s, settled, s', id);
      assert id !in ExpiredSet(s');
    }
  }

  lemma ExpiredBefore(s: Store, first: seq<JobId>, t: Store, id: JobId)
    requires SweptTo(s, first, t) && Expired(t, id)
    ensures Expired(s, id)
  {
    SweptNotExpired(s, first, t, id);
  }

  /** A sweep takes exactly its batch out of the expired rows. */
  lemma SweepShrinksExpired(s: Store, batch: seq<JobId>, s': Store)
    requires SweptTo(s, batch, s') && Distinct(batch)
    requires forall id | id in batch :: Expired(s, id)
    ensures ExpiredSet(s') == ExpiredSet(s) - (set id | id in batch)
    ensures |ExpiredSet(s')| == |ExpiredSet(s)| - |batch|
  {
    var swept := set id | id in batch;
    forall id ensures Expired(s', id) <==> Expired(s, id) && id !in swept {
      SweptNotExpired(s, batch, s', id);
    }
    ExpiredDifference(s, s', swept);
    assert swept <= ExpiredSet(s);
    DistinctSize(batch);
  }

  lemma ExpiredDifference(s: Store, s': Store, swept: set<JobId>)
    requires forall id :: Expired(s', id) <==> Expired(s, id) && id !in swept
    ensures ExpiredSet(s') == ExpiredSet(s) - swept
  {
  }

  lemma {:induction false} DistinctSize(batch: seq<JobId>)
    requires Distinct(batch)
    ensures |set id | id in batch| == |batch|
  {
    if batch != [] {
      var before, last := batch[..|batch| - 1], batch[|batch| - 1];
      DistinctSize(before);
      assert (set id | id in batch) == (set id | id in before) + {last};
    }
  }
}
