/**
 Idempotency keys over whole runs: one holder at a time, and 24 hours between the
 builds of any two jobs submitted under one key.
 */
module Idempotency {
  import opened Jobs
  import opened Statements
  import opened Histories
  import opened Protocol
  import opened Guarantees

  // The job was submitted under this key; the column may have been detached since.
  predicate SubmittedUnder(h: History, key: string) {
    Birth(h).Some? && Birth(h).value.Created? && Birth(h).value.key == Some(key)
  }

  function BuiltAt(h: History): Time {
    if Birth(h).Some? then At(Birth(h).value) else 0
  }

  predicate Holds(s: Store, id: JobId, key: string) {
    id in s.rows && s.rows[id].idempotencyKey == Some(key)
  }

  // The holder's own window, and the distance of every earlier submission.
  ghost predicate HolderOf(s: Store, key: string, holder: JobId) {
    && Holds(s, holder, key)
    && holder in s.past
    && SubmittedUnder(s.past[holder], key)
    && s.rows[holder].idempotencyExpiresAt == Some(BuiltAt(s.past[holder]) + IDEMPOTENCY_TTL)
    && (forall id | Holds(s, id, key) :: id == holder)
    && (forall id | id in s.past && id != holder && SubmittedUnder(s.past[id], key) ::
          BuiltAt(s.past[id]) + IDEMPOTENCY_TTL <= BuiltAt(s.past[holder]))
  }

  predicate FarApart(s: Store, i: JobId, j: JobId)
    requires i in s.past && j in s.past
  {
    || BuiltAt(s.past[i]) + IDEMPOTENCY_TTL <= BuiltAt(s.past[j])
    || BuiltAt(s.past[j]) + IDEMPOTENCY_TTL <= BuiltAt(s.past[i])
  }

  ghost predicate KeyInv(s: Store) {
    && s.rows.Keys == s.past.Keys
    && (forall id, key | id in s.past && SubmittedUnder(s.past[id], key) :: exists holder :: HolderOf(s, key, holder))
    && (forall id, key | Holds(s, id, key) :: HolderOf(s, key, id))
    && (forall i, j, key | i in s.past && j in s.past && i != j
            && SubmittedUnder(s.past[i], key) && SubmittedUnder(s.past[j], key) ::
          FarApart(s, i, j))
  }

  predicate SameJobKeys(s: Store, s': Store, id: JobId) {
    && (id in s'.rows <==> id in s.rows)
    && (id in s'.past <==> id in s.past)
    && (id in s.rows && id in s'.rows ==>
          && s'.rows[id].idempotencyKey == s.rows[id].idempotencyKey
          && s'.rows[id].idempotencyExpiresAt == s.rows[id].idempotencyExpiresAt)
    && (id in s.past && id in s'.past ==> Birth(s'.past[id]) == Birth(s.past[id]))
  }

  // Neither key columns nor births differ.
  ghost predicate SameKeys(s: Store, s': Store) {
    forall id :: SameJobKeys(s, s', id)
  }

  lemma SameHolder(s: Store, s': Store, key: string, holder: JobId)
    requires SameKeys(s, s') && HolderOf(s, key, holder)
    ensures HolderOf(s', key, holder)
  {
    assert SameJobKeys(s, s', holder);
    forall id | Holds(s', id, key) ensures id == holder {
      assert SameJobKeys(s, s', id);
      assert Holds(s, id, key);
    }
    forall id | id in s'.past && id != holder && SubmittedUnder(s'.past[id], key)
      ensures BuiltAt(s'.past[id]) + IDEMPOTENCY_TTL <= BuiltAt(s'.past[holder])
    {
      assert SameJobKeys(s, s', id);
      assert SubmittedUnder(s.past[id], key);
    }
  }

  lemma SameKeysKeep(s: Store, s': Store)
    requires KeyInv(s) && SameKeys(s, s')
    ensures KeyInv(s')
  {
    forall id ensures id in s'.rows <==> id in s'.past {
      assert SameJobKeys(s, s', id);
    }
    assert s'.rows.Keys == s'.past.Keys;
    forall id, key | id in s'.past && SubmittedUnder(s'.past[id], key)
      ensures exists holder :: HolderOf(s', key, holder)
    {
      assert SameJobKeys(s, s', id);
      assert SubmittedUnder(s.past[id], key);
      var holder :| HolderOf(s, key, holder);
      SameHolder(s, s', key, holder);
    }
    forall id, key | Holds(s', id, key) ensures HolderOf(s', key, id) {
      assert SameJobKeys(s, s', id);
      assert Holds(s, id, key);
      SameHolder(s, s', key, id);
    }
    forall i, j, key | i in s'.past && j in s'.past && i != j
                       && SubmittedUnder(s'.past[i], key) && SubmittedUnder(s'.past[j], key)
      ensures FarApart(s', i, j)
    {
      assert SameJobKeys(s, s', i) && SameJobKeys(s, s', j);
      assert SubmittedUnder(s.past[i], key) && SubmittedUnder(s.past[j], key);
      assert FarApart(s, i, j);
    }
  }

  lemma OtherActionsSameJobKeys(s: Store, action: Action, id: JobId)
    requires s.rows.Keys == s.past.Keys && !action.Create?
    requires id in s.past ==> s.past[id].More?
    ensures SameJobKeys(s, Next(s, action), id)
  {
    if id in s.past {
      PastStep(s, action, id);
    }
  }

  lemma OtherActionsSameKeys(s: Store, action: Action)
    requires Inv(s) && !action.Create?
    ensures SameKeys(s, Next(s, action))
  {
    forall id ensures SameJobKeys(s, Next(s, action), id) {
      if id in s.past {
        LawfulHistory(s, id);
      }
      OtherActionsSameJobKeys(s, action, id);
    }
  }

  // The builder of a new job under a key comes a whole window after every earlier one.
  lemma EarlierSubmissionsFar(s: Store, key: string, releasedAt: Time, builtAt: Time, id: JobId)
    requires KeyInv(s) && releasedAt <= builtAt && !KeyConflict(s, Some(key), releasedAt)
    requires id in s.past && SubmittedUnder(s.past[id], key)
    ensures BuiltAt(s.past[id]) + IDEMPOTENCY_TTL <= builtAt
  {
    var holder :| HolderOf(s, key, holder);
    assert HoldsExpiredKey(s.rows[holder], key, releasedAt) by {
      assert !KeyHeld(AfterRelease(s, Some(key), releasedAt), key);
      assert holder in AfterRelease(s, Some(key), releasedAt);
    }
  }

  // A holder of another key is not touched by the insert.
  lemma InsertSparesOtherKeys(s: Store, action: Action, k: string, holder: JobId)
    requires action.Create? && action.key != Some(k) && HolderOf(s, k, holder)
    ensures HolderOf(Next(s, action), k, holder)
  {
    var s' := Next(s, action);
    if s' != s {
      forall i | Holds(s', i, k) ensures i == holder {
        assert Holds(s, i, k);
      }
      forall i | i in s'.past && i != holder && SubmittedUnder(s'.past[i], k)
        ensures BuiltAt(s'.past[i]) + IDEMPOTENCY_TTL <= BuiltAt(s'.past[holder])
      {
        assert i != action.id;
        assert SubmittedUnder(s.past[i], k);
      }
    }
  }

  // The new job becomes its key's holder.
  lemma InsertBecomesHolder(s: Store, action: Action, k: string)
    requires KeyInv(s) && action.Create? && action.key == Some(k) && Next(s, action) != s
    ensures HolderOf(Next(s, action), k, action.id)
  {
    var s' := Next(s, action);
    assert forall i | i in AfterRelease(s, Some(k), action.releasedAt) ::
        AfterRelease(s, Some(k), action.releasedAt)[i].idempotencyKey != Some(k);
    assert forall i | Holds(s', i, k) :: i == action.id;
    forall i | i in s'.past && i != action.id && SubmittedUnder(s'.past[i], k)
      ensures BuiltAt(s'.past[i]) + IDEMPOTENCY_TTL <= action.builtAt
    {
      EarlierSubmissionsFar(s, k, action.releasedAt, action.builtAt, i);
    }
  }

  lemma InsertHolder(s: Store, action: Action, i: JobId, k: string)
    requires KeyInv(s) && action.Create? && Next(s, action) != s
    requires i in Next(s, action).past && SubmittedUnder(Next(s, action).past[i], k)
    ensures exists holder :: HolderOf(Next(s, action), k, holder)
  {
    if action.key == Some(k) {
      InsertBecomesHolder(s, action, k);
    } else {
      assert SubmittedUnder(s.past[i], k);
      var holder :| HolderOf(s, k, holder);
      InsertSparesOtherKeys(s, action, k, holder);
    }
  }

  lemma InsertKeeps(s: Store, action: Action)
    requires KeyInv(s) && action.Create?
    ensures KeyInv(Next(s, action))
  {
    var s' := Next(s, action);
    if s' != s {
      forall i, k | i in s'.past && SubmittedUnder(s'.past[i], k) ensures exists holder :: HolderOf(s', k, holder) {
        InsertHolder(s, action, i, k);
      }
      forall i, k | Holds(s', i, k) ensures HolderOf(s', k, i) {
        if action.key == Some(k) {
          InsertBecomesHolder(s, action, k);
        } else {
          assert Holds(s, i, k);
          InsertSparesOtherKeys(s, action, k, i);
        }
      }
      forall i, j, k | i in s'.past && j in s'.past && i != j
                       && SubmittedUnder(s'.past[i], k) && SubmittedUnder(s'.past[j], k)
        ensures FarApart(s', i, j)
      {
        if i == action.id || j == action.id {
          InsertBecomesHolder(s, action, k);
        } else {
          assert SubmittedUnder(s.past[i], k) && SubmittedUnder(s.past[j], k);
          assert FarApart(s, i, j);
        }
      }
    }
  }

  lemma {:induction false} RunKeepsKeyInv(s: Store, actions: seq<Action>)
    requires Inv(s) && KeyInv(s)
    ensures KeyInv(Run(s, actions))
  {
    if actions != [] {
      var before, action := actions[..|actions| - 1], actions[|actions| - 1];
      RunKeepsKeyInv(s, before);
      RunKeepsInv(s, before);
      if action.Create? {
        InsertKeeps(Run(s, before), action);
      } else {
        OtherActionsSameKeys(Run(s, before), action);
        SameKeysKeep(Run(s, before), Next(Run(s, before), action));
      }
    }
  }

  lemma ReachableKeyInv(s: Store)
    requires Reachable(s)
    ensures KeyInv(s)
  {
    var actions :| s == Run(EMPTY_STORE, actions);
    EmptyInv();
    RunKeepsKeyInv(EMPTY_STORE, actions);
  }

  /** Two jobs submitted under one key were built at least 24 hours apart. */
  lemma WindowsApart(s: Store, i: JobId, j: JobId, key: string)
    requires Reachable(s) && i in s.past && j in s.past && i != j
    requires SubmittedUnder(s.past[i], key) && SubmittedUnder(s.past[j], key)
    ensures || BuiltAt(s.past[i]) + 24 * 3600 * SECOND <= BuiltAt(s.past[j])
            || BuiltAt(s.past[j]) + 24 * 3600 * SECOND <= BuiltAt(s.past[i])
  {
    ReachableKeyInv(s);
  }

  /** At most one row holds a key, and it is the newest job submitted under it. */
  lemma OneHolder(s: Store, i: JobId, key: string)
    requires Reachable(s) && Holds(s, i, key)
    ensures forall j | Holds(s, j, key) :: j == i
    ensures i in s.past
    ensures forall j | j in s.past && SubmittedUnder(s.past[j], key) ::
              BuiltAt(s.past[j]) <= BuiltAt(s.past[i])
    ensures s.rows[i].idempotencyExpiresAt == Some(BuiltAt(s.past[i]) + IDEMPOTENCY_TTL)
  {
    ReachableKeyInv(s);
    assert HolderOf(s, key, i);
  }

  lemma HeldStep(s: Store, action: Action, key: string)
    requires Inv(s) && KeyHeld(s.rows, key)
    ensures KeyHeld(Next(s, action).rows, key)
  {
    var id :| id in s.rows && s.rows[id].idempotencyKey == Some(key);
    if action.Create? {
      var heir := if Next(s, action) != s && action.key == Some(key) then action.id else id;
      assert heir in Next(s, action).rows && Next(s, action).rows[heir].idempotencyKey == Some(key);
    } else {
      OtherActionsSameJobKeys(s, action, id) by { LawfulHistory(s, id); }
      assert SameJobKeys(s, Next(s, action), id);
      assert Next(s, action).rows[id].idempotencyKey == Some(key);
    }
  }

  /**
   A key once used stays held for ever: the release and the insert that replaces the
   holder are one transaction.
   */
  lemma {:induction false} KeyNeverFreed(s: Store, actions: seq<Action>, key: string)
    requires Inv(s) && KeyHeld(s.rows, key)
    ensures KeyHeld(Run(s, actions).rows, key)
  {
    if actions != [] {
      KeyNeverFreed(s, actions[..|actions| - 1], key);
      RunKeepsInv(s, actions[..|actions| - 1]);
      HeldStep(Run(s, actions[..|actions| - 1]), actions[|actions| - 1], key);
    }
  }

  // ----- When a key is free, by the submissions made under it -----

  // Everything ever submitted under the key was built a whole window before `at`.
  ghost predicate KeyFree(s: Store, key: Option<string>, at: Time) {
    key.Some? ==>
      forall id | id in s.past && SubmittedUnder(s.past[id], key.value) ::
        BuiltAt(s.past[id]) + 24 * 3600 * SECOND <= at
  }

  /** The release leaves the key unheld exactly when its last submission is 24 hours old, or there is none. */
  lemma KeyFreeIffNoConflict(s: Store, key: Option<string>, at: Time)
    requires Reachable(s)
    ensures KeyFree(s, key, at) <==> !KeyConflict(s, key, at)
  {
    ReachableKeyInv(s);
    if key.Some? {
      if !KeyConflict(s, key, at) {
        forall id | id in s.past && SubmittedUnder(s.past[id], key.value)
          ensures BuiltAt(s.past[id]) + 24 * 3600 * SECOND <= at
        {
          EarlierSubmissionsFar(s, key.value, at, at, id);
        }
      } else {
        var id :| id in AfterRelease(s, key, at) && AfterRelease(s, key, at)[id].idempotencyKey == key;
        assert Holds(s, id, key.value);
        assert HolderOf(s, key.value, id);
      }
    }
  }

  /** The lookup finds a job exactly while it holds the key and its 24 hours are not over. */
  lemma LiveIffWithinWindow(s: Store, id: JobId, key: string)
    requires Reachable(s) && id in s.rows
    ensures id in s.past
    ensures HoldsLiveKey(s.rows[id], key, s.now) <==>
              Holds(s, id, key) && s.now < BuiltAt(s.past[id]) + 24 * 3600 * SECOND
  {
    ReachableKeyInv(s);
    if Holds(s, id, key) {
      assert HolderOf(s, key, id);
    }
  }

  /** No live holder means that the key is free, and a live holder that it is not. */
  lemma NoneLiveIffFree(s: Store, key: string)
    requires Reachable(s)
    ensures KeyFree(s, Some(key), s.now) <==> forall id | id in s.rows :: !HoldsLiveKey(s.rows[id], key, s.now)
  {
    ReachableKeyInv(s);
    forall id | id in s.rows ensures id in s.past {
      LiveIffWithinWindow(s, id, key);
    }
    if KeyFree(s, Some(key), s.now) {
      forall id | id in s.rows ensures !HoldsLiveKey(s.rows[id], key, s.now) {
        LiveIffWithinWindow(s, id, key);
        if Holds(s, id, key) {
          assert HolderOf(s, key, id);
        }
      }
    } else {
      var id :| id in s.past && SubmittedUnder(s.past[id], key) && s.now < BuiltAt(s.past[id]) + 24 * 3600 * SECOND;
      var holder :| HolderOf(s, key, holder);
      LiveIffWithinWindow(s, holder, key);
    }
  }
}
