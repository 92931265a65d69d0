/**
 Leases and heartbeats: when recovery can take a job from its owner, and how many
 missed beats a healthy owner survives.
 */
module Leases {
  import opened Jobs
  import opened Statements
  import opened Protocol
  import opened Guarantees

  // ----- The schedule of one heartbeat loop -----

  // One pass of the loop: when its write was over, and whether it renewed the lease.
  datatype Beat = Beat(at: Time, ok: bool)

  function LastBeat(claimedAt: Time, beats: seq<Beat>): Time {
    if beats == [] then claimedAt else beats[|beats| - 1].at
  }

  function LastRenewal(claimedAt: Time, beats: seq<Beat>): Time {
    if beats == [] then claimedAt
    else if beats[|beats| - 1].ok then beats[|beats| - 1].at
    else LastRenewal(claimedAt, beats[..|beats| - 1])
  }

  // Each pass takes at most `period`: the sleep plus the slowest write.
  predicate Paced(claimedAt: Time, beats: seq<Beat>, period: nat) {
    beats != [] ==>
      && Paced(claimedAt, beats[..|beats| - 1], period)
      && beats[|beats| - 1].at <= LastBeat(claimedAt, beats[..|beats| - 1]) + period
  }

  function FailingTail(beats: seq<Beat>): nat {
    if beats == [] || beats[|beats| - 1].ok then 0 else 1 + FailingTail(beats[..|beats| - 1])
  }

  // No more than k beats in a row fail.
  predicate Steady(beats: seq<Beat>, k: nat) {
    FailingTail(beats) <= k && (beats != [] ==> Steady(beats[..|beats| - 1], k))
  }

  // At time t the next pass is not overdue, and the lease has run out all the same.
  predicate Lapses(claimedAt: Time, beats: seq<Beat>, period: nat, lease: int, t: Time) {
    && t <= LastBeat(claimedAt, beats) + period
    && LastRenewal(claimedAt, beats) + lease < t
  }

  lemma {:induction false} TailReach(claimedAt: Time, beats: seq<Beat>, period: nat)
    requires Paced(claimedAt, beats, period)
    ensures LastBeat(claimedAt, beats) <= LastRenewal(claimedAt, beats) + FailingTail(beats) * period
  {
    if beats != [] && !beats[|beats| - 1].ok {
      var before := beats[..|beats| - 1];
      TailReach(claimedAt, before, period);
      assert FailingTail(beats) * period == FailingTail(before) * period + period;
    }
  }

  function Failures(n: nat, period: nat): seq<Beat> {
    seq(n, i requires 0 <= i < n => Beat((i + 1) * period, false))
  }

  lemma {:induction false} FailuresSchedule(n: nat, period: nat)
    ensures Paced(0, Failures(n, period), period) && FailingTail(Failures(n, period)) == n
    ensures LastBeat(0, Failures(n, period)) == n * period && LastRenewal(0, Failures(n, period)) == 0
    ensures Steady(Failures(n, period), n)
  {
    if n > 0 {
      FailuresSchedule(n - 1, period);
      assert Failures(n, period)[..n - 1] == Failures(n - 1, period);
      SteadyMore(Failures(n - 1, period), n - 1, n);
      assert n * period == (n - 1) * period + period;
    }
  }

  lemma {:induction false} SteadyMore(beats: seq<Beat>, k: nat, more: nat)
    requires Steady(beats, k) && k <= more
    ensures Steady(beats, more)
  {
    if beats != [] {
      SteadyMore(beats[..|beats| - 1], k, more);
    }
  }

  ghost predicate Survives(k: nat, period: nat, lease: int) {
    forall claimedAt, beats, t | Paced(claimedAt, beats, period) && Steady(beats, k) ::
      !Lapses(claimedAt, beats, period, lease, t)
  }

  /**
   An owner whose loop misses at most k beats in a row never lets its lease run out,
   whatever the timing, exactly when k + 1 passes fit into the lease.
   */
  lemma SurvivesIffPassesFit(k: nat, period: nat, lease: int)
    ensures Survives(k, period, lease) <==> (k + 1) * period <= lease
  {
    if (k + 1) * period <= lease {
      forall claimedAt, beats, t | Paced(claimedAt, beats, period) && Steady(beats, k)
        ensures !Lapses(claimedAt, beats, period, lease, t)
      {
        TailReach(claimedAt, beats, period);
        var m := FailingTail(beats);
        assert (m + 1) * period <= (k + 1) * period by { Monotone(m + 1, k + 1, period); }
        assert (m + 1) * period == m * period + period;
      }
    } else {
      FailuresSchedule(k, period);
      assert (k + 1) * period == k * period + period;
      assert Lapses(0, Failures(k, period), period, lease, (k + 1) * period);
    }
  }

  lemma Monotone(a: nat, b: nat, c: nat)
    requires a <= b
    ensures a * c <= b * c
  {
  }

  // Settings accepts any heartbeat interval below the lease.
  predicate SettingsAccept(heartbeat: int, lease: int) {
    0 < heartbeat < lease
  }

  /** Accepted are exactly the intervals after which a beat may still be late by some time and hold the lease. */
  lemma AcceptedIffSomeHeadroom(heartbeat: nat, lease: int)
    requires heartbeat > 0
    ensures SettingsAccept(heartbeat, lease) <==> Survives(0, heartbeat + 1, lease)
  {
    SurvivesIffPassesFit(0, heartbeat + 1, lease);
  }

  /** Being accepted is not being safe: a 59-second beat under a 60-second lease survives no miss. */
  lemma AcceptedSettingsMayNotSurviveOneMiss()
    ensures SettingsAccept(59 * SECOND, 60 * SECOND)
    ensures Survives(0, 59 * SECOND, 60 * SECOND) && !Survives(1, 59 * SECOND, 60 * SECOND)
    ensures Survives(2, 20 * SECOND, 60 * SECOND)
  {
    SurvivesIffPassesFit(0, 59 * SECOND, 60 * SECOND);
    SurvivesIffPassesFit(1, 59 * SECOND, 60 * SECOND);
    SurvivesIffPassesFit(2, 20 * SECOND, 60 * SECOND);
  }

  // ----- The lease column over a run -----

  // When the attempt's lease was last written: by the latest heartbeat of the run, or before it.
  function RenewedAt(s: Store, actions: seq<Action>, a: Attempt, before: Time): Time {
    if actions == [] then before
    else
      var last := actions[|actions| - 1];
      if last.Extend? && last.attempt == a then Run(s, actions[..|actions| - 1]).now
      else RenewedAt(s, actions[..|actions| - 1], a, before)
  }

  predicate HoldsLease(s: Store, a: Attempt, renewedAt: Time, lease: int) {
    Owns(s, a) && s.rows[a.jobId].leaseExpiresAt == Some(renewedAt + lease)
  }

  // Only the owner's own heartbeat writes its lease.
  lemma LeaseStep(s: Store, action: Action, a: Attempt)
    requires Inv(s) && Known(s, a) && Owns(s, a) && Owns(Next(s, action), a)
    requires !(action.Extend? && action.attempt == a)
    ensures Next(s, action).rows[a.jobId].leaseExpiresAt == s.rows[a.jobId].leaseExpiresAt
  {
    if ActsFor(action, a) {
      OnlySettlementEndsOwnership(s, action, a);
    } else {
      OwnedRowStep(s, action, a);
      assert WithoutKey(Next(s, action).rows[a.jobId]).leaseExpiresAt == WithoutKey(s.rows[a.jobId]).leaseExpiresAt;
    }
  }

  predicate RenewsBy(action: Action, a: Attempt, lease: int) {
    action.Extend? && action.attempt == a ==> action.lease == lease
  }

  // One step of a lease that is kept: renewed to now, or left as it was.
  lemma RenewalStep(s: Store, action: Action, a: Attempt, renewedAt: Time, lease: int)
    requires Inv(s) && Known(s, a) && HoldsLease(s, a, renewedAt, lease)
    requires RenewsBy(action, a, lease) && Owns(Next(s, action), a)
    ensures HoldsLease(Next(s, action), a, if action.Extend? && action.attempt == a then s.now else renewedAt, lease)
  {
    if !(action.Extend? && action.attempt == a) {
      LeaseStep(s, action, a);
    }
  }

  lemma {:induction false} LeaseIsLastRenewal(s: Store, actions: seq<Action>, a: Attempt, claimedAt: Time, lease: int)
    requires Inv(s) && Known(s, a) && HoldsLease(s, a, claimedAt, lease)
    requires forall action | action in actions :: RenewsBy(action, a, lease)
    requires Owns(Run(s, actions), a)
    ensures HoldsLease(Run(s, actions), a, RenewedAt(s, actions, a, claimedAt), lease)
  {
    if actions != [] {
      var before, action := actions[..|actions| - 1], actions[|actions| - 1];
      var t := Run(s, before);
      RunKeepsInv(s, before);
      KnownForever(s, before, a);
      if !Owns(t, a) {
        FenceStaysDown(t, action, a);
      } else {
        LeaseIsLastRenewal(s, before, a, claimedAt, lease);
        assert action in actions;
        RenewalStep(t, action, a, RenewedAt(s, before, a, claimedAt), lease);
      }
    }
  }

  /** Anywhere in a run, recovery takes the job exactly when the last renewal is more than a lease ago. */
  lemma RecoveryTakesIffLapsed(s: Store, actions: seq<Action>, a: Attempt, claimedAt: Time, lease: int)
    requires Inv(s) && Known(s, a) && HoldsLease(s, a, claimedAt, lease)
    requires forall action | action in actions :: RenewsBy(action, a, lease)
    requires Owns(Run(s, actions), a)
    ensures var t := Run(s, actions);
            !Owns(Next(t, Recover(a.jobId)), a) <==> RenewedAt(s, actions, a, claimedAt) + lease < t.now
  {
    RunKeepsInv(s, actions);
    KnownForever(s, actions, a);
    LeaseIsLastRenewal(s, actions, a, claimedAt, lease);
    OnlySettlementEndsOwnership(Run(s, actions), Recover(a.jobId), a);
  }

  // ----- Owners that keep beating -----

  // One turn of a run with the beats of one loop in it: a committed action, or a beat the database never saw.
  datatype Turn = Acts(action: Action) | Misses

  function Taken(log: seq<Turn>): seq<Action> {
    if log == [] then []
    else Taken(log[..|log| - 1]) + if log[|log| - 1].Acts? then [log[|log| - 1].action] else []
  }

  function After(s: Store, log: seq<Turn>): Store {
    Run(s, Taken(log))
  }

  lemma AfterLast(s: Store, log: seq<Turn>)
    requires log != []
    ensures var before, turn := log[..|log| - 1], log[|log| - 1];
            After(s, log) == if turn.Acts? then Next(After(s, before), turn.action) else After(s, before)
  {
    var before, turn := log[..|log| - 1], log[|log| - 1];
    if turn.Acts? {
      assert Taken(log)[..|Taken(before)|] == Taken(before);
    } else {
      assert Taken(log) == Taken(before);
    }
  }

  predicate IsBeat(turn: Turn, a: Attempt) {
    turn.Misses? || (turn.action.Extend? && turn.action.attempt == a)
  }

  // The beats of the attempt's loop, as the run has them.
  function Beats(s: Store, log: seq<Turn>, a: Attempt): seq<Beat> {
    if log == [] then []
    else
      var before, turn := log[..|log| - 1], log[|log| - 1];
      Beats(s, before, a) + if IsBeat(turn, a) then [Beat(After(s, before).now, turn.Acts?)] else []
  }

  // At no point of the run is the next pass of the loop overdue.
  predicate OnTime(s: Store, log: seq<Turn>, a: Attempt, claimedAt: Time, period: nat) {
    && (log != [] ==> OnTime(s, log[..|log| - 1], a, claimedAt, period))
    && After(s, log).now <= LastBeat(claimedAt, Beats(s, log, a)) + period
  }

  // The owner does not settle its attempt, and asks for the full lease whenever it renews.
  predicate Holding(action: Action, a: Attempt, lease: int) {
    && RenewsBy(action, a, lease)
    && !(action.Complete? && action.attempt == a)
    && !(action.Fail? && action.attempt == a)
  }

  ghost predicate Working(log: seq<Turn>, a: Attempt, lease: int) {
    forall turn | turn in log && turn.Acts? :: Holding(turn.action, a, lease)
  }

  // While the lease has not run out, nothing but the owner's settlement ends it.
  lemma HeldStep(s: Store, action: Action, a: Attempt, renewedAt: Time, lease: int)
    requires Inv(s) && Known(s, a) && HoldsLease(s, a, renewedAt, lease) && s.now <= renewedAt + lease
    requires Holding(action, a, lease)
    ensures Known(Next(s, action), a)
    ensures HoldsLease(Next(s, action), a, if action.Extend? && action.attempt == a then s.now else renewedAt, lease)
  {
    HistoryStep(s, action, a.jobId);
    OnlySettlementEndsOwnership(s, action, a);
    RenewalStep(s, action, a, renewedAt, lease);
  }

  lemma {:induction false} OnTimeIsPaced(s: Store, log: seq<Turn>, a: Attempt, claimedAt: Time, period: nat)
    requires OnTime(s, log, a, claimedAt, period)
    ensures Paced(claimedAt, Beats(s, log, a), period)
  {
    if log != [] {
      var before := log[..|log| - 1];
      OnTimeIsPaced(s, before, a, claimedAt, period);
      BeatsLast(s, log, a);
    }
  }

  lemma BeatsLast(s: Store, log: seq<Turn>, a: Attempt)
    requires log != []
    ensures var before, turn, beats := log[..|log| - 1], log[|log| - 1], Beats(s, log, a);
            if IsBeat(turn, a) then
              beats != [] && beats[..|beats| - 1] == Beats(s, before, a)
              && beats[|beats| - 1] == Beat(After(s, before).now, turn.Acts?)
            else beats == Beats(s, before, a)
  {
  }

  // A loop on time so far, with few enough misses in a row for the lease.
  predicate InTime(claimedAt: Time, beats: seq<Beat>, now: Time, k: nat, period: nat, lease: int) {
    && Paced(claimedAt, beats, period) && Steady(beats, k)
    && now <= LastBeat(claimedAt, beats) + period
    && (k + 1) * period <= lease
  }

  lemma BeatRecorded(claimedAt: Time, beats: seq<Beat>, beat: Beat, k: nat, period: nat, lease: int)
    ensures LastRenewal(claimedAt, beats + [beat]) == if beat.ok then beat.at else LastRenewal(claimedAt, beats)
    ensures InTime(claimedAt, beats + [beat], beat.at, k, period, lease) ==>
              InTime(claimedAt, beats, beat.at, k, period, lease)
  {
    assert (beats + [beat])[..|beats|] == beats;
  }

  lemma LeaseReaches(claimedAt: Time, beats: seq<Beat>, now: Time, k: nat, period: nat, lease: int)
    requires InTime(claimedAt, beats, now, k, period, lease)
    ensures now <= LastRenewal(claimedAt, beats) + lease
  {
    SurvivesIffPassesFit(k, period, lease);
    assert !Lapses(claimedAt, beats, period, lease, now);
  }

  /**
   An owner that keeps working, beats on time and misses at most k beats in a row keeps
   its job through every sweep of every run, if k + 1 passes fit into the lease.
   */
  lemma {:induction false} HealthyOwnerKeepsJob(s: Store, log: seq<Turn>, a: Attempt, claimedAt: Time, lease: int,
                                                k: nat, period: nat)
    requires Inv(s) && Known(s, a) && HoldsLease(s, a, claimedAt, lease)
    requires Working(log, a, lease) && OnTime(s, log, a, claimedAt, period)
    requires Steady(Beats(s, log, a), k) && (k + 1) * period <= lease
    ensures Known(After(s, log), a)
    ensures HoldsLease(After(s, log), a, LastRenewal(claimedAt, Beats(s, log, a)), lease)
  {
    if log != [] {
      var before, turn := log[..|log| - 1], log[|log| - 1];
      AfterLast(s, log);
      BeatsLast(s, log, a);
      HealthyOwnerKeepsJob(s, before, a, claimedAt, lease, k, period);
      if turn.Acts? {
        var beats := Beats(s, before, a);
        OnTimeIsPaced(s, before, a, claimedAt, period);
        LeaseReaches(claimedAt, beats, After(s, before).now, k, period, lease);
        RunKeepsInv(s, Taken(before));
        assert turn in log;
        HeldStep(After(s, before), turn.action, a, LastRenewal(claimedAt, beats), lease);
      }
    }
  }

  ghost predicate KeepsItsJob(s: Store, log: seq<Turn>, a: Attempt, claimedAt: Time, lease: int, k: nat, period: nat) {
    && Reachable(s) && Known(s, a) && HoldsLease(s, a, claimedAt, lease)
    && Working(log, a, lease) && OnTime(s, log, a, claimedAt, period) && Steady(Beats(s, log, a), k)
    ==> Owns(After(s, log), a)
  }

  ghost predicate HealthyOwnersAreSafe(k: nat, period: nat, lease: int) {
    forall s, log, a, claimedAt :: KeepsItsJob(s, log, a, claimedAt, lease, k, period)
  }

  // A job just created and claimed, the clock still at zero.
  function JustClaimed(id: JobId, lease: int): Store {
    Next(Next(EMPTY_STORE, Create(id, "email", 0, None, None, 0, 0)), Claim(id, "w", 1, lease))
  }

  lemma JustClaimedHolds(id: JobId, lease: int)
    ensures var s, a := JustClaimed(id, lease), Attempt(id, "w", 1, 1, 3);
            Reachable(s) && s.now == 0 && Known(s, a) && HoldsLease(s, a, 0, lease)
  {
    var actions := [Create(id, "email", 0, None, None, 0, 0), Claim(id, "w", 1, lease)];
    assert actions[..1][..0] == [];
    assert Run(EMPTY_STORE, actions[..1]) == Next(EMPTY_STORE, actions[0]);
    assert Run(EMPTY_STORE, actions) == JustClaimed(id, lease);
  }

  // n passes on time, every one of them failing.
  function MissingBeats(n: nat, period: nat): seq<Turn> {
    if n == 0 then [] else MissingBeats(n - 1, period) + [Acts(Tick(period))] + [Misses]
  }

  // After so many failing beats and so much time, still on time.
  ghost predicate Missed(s: Store, log: seq<Turn>, a: Attempt, period: nat, beats: nat, now: Time) {
    && After(s, log) == s.(now := now)
    && Beats(s, log, a) == Failures(beats, period)
    && OnTime(s, log, a, 0, period)
  }

  lemma TickTurn(s: Store, log: seq<Turn>, a: Attempt, period: nat, n: nat)
    requires Missed(s, log, a, period, n, n * period)
    ensures Missed(s, log + [Acts(Tick(period))], a, period, n, n * period + period)
  {
    var ticked := log + [Acts(Tick(period))];
    assert ticked[..|ticked| - 1] == log;
    AfterLast(s, ticked);
    BeatsLast(s, ticked, a);
    FailuresSchedule(n, period);
  }

  lemma MissTurn(s: Store, log: seq<Turn>, a: Attempt, period: nat, n: nat)
    requires Missed(s, log, a, period, n, (n + 1) * period)
    ensures Missed(s, log + [Misses], a, period, n + 1, (n + 1) * period)
  {
    var missed, now := log + [Misses], (n + 1) * period;
    assert missed[..|missed| - 1] == log;
    AfterLast(s, missed);
    BeatsLast(s, missed, a);
    MoreFailures(n, period);
    assert Beats(s, missed, a) == Failures(n, period) + [Beat(now, false)];
    assert LastBeat(0, Beats(s, missed, a)) == now;
  }

  lemma MoreFailures(n: nat, period: nat)
    ensures Failures(n + 1, period) == Failures(n, period) + [Beat((n + 1) * period, false)]
  {
  }

  lemma MissedOneMore(s: Store, log: seq<Turn>, a: Attempt, period: nat, n: nat)
    requires Missed(s, log, a, period, n, n * period)
    ensures Missed(s, log + [Acts(Tick(period))] + [Misses], a, period, n + 1, (n + 1) * period)
  {
    TickTurn(s, log, a, period, n);
    assert (n + 1) * period == n * period + period;
    MissTurn(s, log + [Acts(Tick(period))], a, period, n);
  }

  lemma {:induction false} MissingBeatsRun(s: Store, n: nat, period: nat, a: Attempt)
    requires s.now == 0
    ensures Missed(s, MissingBeats(n, period), a, period, n, n * period)
  {
    if n > 0 {
      MissingBeatsRun(s, n - 1, period, a);
      MissedOneMore(s, MissingBeats(n - 1, period), a, period, n - 1);
    }
  }

  lemma {:induction false} MissingBeatsWorking(n: nat, period: nat, a: Attempt, lease: int)
    ensures Working(MissingBeats(n, period), a, lease)
  {
    if n > 0 {
      MissingBeatsWorking(n - 1, period, a, lease);
    }
  }

  // The job is taken at the end of a log that is on time.
  lemma SweepTurn(s: Store, log: seq<Turn>, a: Attempt, period: nat, n: nat, now: Time, lease: int)
    requires Inv(s) && Known(s, a) && HoldsLease(s, a, 0, lease) && lease < now
    requires Missed(s, log, a, period, n, now)
    ensures var swept := log + [Acts(Recover(a.jobId))];
            && !Owns(After(s, swept), a)
            && OnTime(s, swept, a, 0, period) && Beats(s, swept, a) == Failures(n, period)
  {
    var swept := log + [Acts(Recover(a.jobId))];
    assert swept[..|swept| - 1] == log;
    AfterLast(s, swept);
    BeatsLast(s, swept, a);
    RunKeepsInv(s, Taken(log));
    OnlySettlementEndsOwnership(After(s, log), Recover(a.jobId), a);
    RecoverKeepsClock(After(s, log), a.jobId);
  }

  // Missing beats on time until `now`, then a sweep.
  function StolenLog(a: Attempt, k: nat, period: nat): seq<Turn> {
    MissingBeats(k, period) + [Acts(Tick(period))] + [Acts(Recover(a.jobId))]
  }

  // Recovery takes the job when k + 1 passes do not fit.
  lemma LateOwnerLosesJob(s: Store, a: Attempt, k: nat, period: nat, lease: int)
    requires Inv(s) && s.now == 0 && Known(s, a) && HoldsLease(s, a, 0, lease)
    requires lease < (k + 1) * period
    ensures var log := StolenLog(a, k, period);
            && !Owns(After(s, log), a)
            && OnTime(s, log, a, 0, period) && Beats(s, log, a) == Failures(k, period)
  {
    MissingBeatsRun(s, k, period, a);
    TickTurn(s, MissingBeats(k, period), a, period, k);
    var now := k * period + period;
    assert lease < now;
    SweepTurn(s, MissingBeats(k, period) + [Acts(Tick(period))], a, period, k, now, lease);
  }

  lemma LateOwnersAreNotSafe(s: Store, a: Attempt, k: nat, period: nat, lease: int)
    requires Reachable(s) && s.now == 0 && Known(s, a) && HoldsLease(s, a, 0, lease)
    requires lease < (k + 1) * period
    ensures !HealthyOwnersAreSafe(k, period, lease)
  {
    var log := StolenLog(a, k, period);
    ReachableInv(s);
    LateOwnerLosesJob(s, a, k, period, lease);
    FailuresSchedule(k, period);
    SweptWorking(k, period, a, lease);
    assert !KeepsItsJob(s, log, a, 0, lease, k, period);
  }

  lemma SweptWorking(k: nat, period: nat, a: Attempt, lease: int)
    ensures Working(StolenLog(a, k, period), a, lease)
  {
    MissingBeatsWorking(k, period, a, lease);
  }

  lemma RecoverKeepsClock(s: Store, id: JobId)
    ensures Next(s, Recover(id)).now == s.now
  {
  }

  /**
   Owners that beat on time and miss at most k beats in a row are never robbed of their
   job, in any run from any reachable table, exactly when k + 1 passes fit into the lease.
   */
  lemma HealthyOwnersAreSafeIff(k: nat, period: nat, lease: int)
    ensures HealthyOwnersAreSafe(k, period, lease) <==> (k + 1) * period <= lease
  {
    if (k + 1) * period <= lease {
      forall s, log, a, claimedAt ensures KeepsItsJob(s, log, a, claimedAt, lease, k, period) {
        if Reachable(s) && Known(s, a) && HoldsLease(s, a, claimedAt, lease) && Working(log, a, lease)
           && OnTime(s, log, a, claimedAt, period) && Steady(Beats(s, log, a), k) {
          ReachableInv(s);
          HealthyOwnerKeepsJob(s, log, a, claimedAt, lease, k, period);
        }
      }
    } else {
      var id: JobId := "00000000-0000-0000-0000-000000000000";
      JustClaimedHolds(id, lease);
      LateOwnersAreNotSafe(JustClaimed(id, lease), Attempt(id, "w", 1, 1, 3), k, period, lease);
    }
  }

  // ----- What others can do to an owned row -----

  predicate Foreign(actions: seq<Action>, a: Attempt) {
    forall action | action in actions :: !ActsFor(action, a)
  }

  /** While an attempt owns a row, nobody else's run changes it, except to detach an expired key. */
  lemma {:induction false} OthersSpareOwnedRow(s: Store, actions: seq<Action>, a: Attempt)
    requires Inv(s) && Known(s, a) && Foreign(actions, a) && Owns(Run(s, actions), a)
    ensures Owns(s, a)
    ensures WithoutKey(Run(s, actions).rows[a.jobId]) == WithoutKey(s.rows[a.jobId])
  {
    if !Owns(s, a) {
      LostOwnershipNeverReturns(s, actions, a);
    } else if actions != [] {
      var before, action := actions[..|actions| - 1], actions[|actions| - 1];
      var t := Run(s, before);
      RunKeepsInv(s, before);
      KnownForever(s, before, a);
      assert action in actions && forall b | b in before :: b in actions;
      if Owns(t, a) {
        OthersSpareOwnedRow(s, before, a);
        OwnedRowStep(t, action, a);
      } else {
        FenceStaysDown(t, action, a);
      }
    }
  }

  // ----- The two tasks of one attempt -----

  /**
   An attempt has a handler, which reports, and a heartbeat, which renews, at the same
   time; once both are over it settles. What is left to everybody else depends on which
   of them is looked at.
   */
  datatype Task = NoTask | Handler(attempt: Attempt) | Heartbeat(attempt: Attempt) | WholeAttempt(attempt: Attempt)

  predicate SparesTask(action: Action, task: Task) {
    match task
    case NoTask => true
    case Handler(a) => ActsFor(action, a) ==> action.Extend?
    case Heartbeat(a) => ActsFor(action, a) ==> action.Progress?
    case WholeAttempt(a) => !ActsFor(action, a)
  }

  ghost predicate AllSpare(actions: seq<Action>, task: Task) {
    forall action | action in actions :: SparesTask(action, task)
  }

  lemma ReportSurvivesStep(s: Store, action: Action, a: Attempt)
    requires Inv(s) && Known(s, a) && Owns(s, a) && Owns(Next(s, action), a) && SparesTask(action, Handler(a))
    ensures Next(s, action).rows[a.jobId].progress == s.rows[a.jobId].progress
  {
    if !ActsFor(action, a) {
      OwnedRowStep(s, action, a);
      assert WithoutKey(Next(s, action).rows[a.jobId]).progress == WithoutKey(s.rows[a.jobId]).progress;
    }
  }

  /** Whatever others and the attempt's own heartbeat do, an owner's progress column stays as its handler left it. */
  lemma {:induction false} OthersSpareProgress(s: Store, actions: seq<Action>, a: Attempt)
    requires Inv(s) && Known(s, a) && AllSpare(actions, Handler(a)) && Owns(Run(s, actions), a)
    ensures Owns(s, a)
    ensures Run(s, actions).rows[a.jobId].progress == s.rows[a.jobId].progress
  {
    if !Owns(s, a) {
      LostOwnershipNeverReturns(s, actions, a);
    } else if actions != [] {
      var before, action := actions[..|actions| - 1], actions[|actions| - 1];
      var t := Run(s, before);
      RunKeepsInv(s, before);
      KnownForever(s, before, a);
      assert action in actions && forall b | b in before :: b in actions;
      if Owns(t, a) {
        OthersSpareProgress(s, before, a);
        ReportSurvivesStep(t, action, a);
      } else {
        FenceStaysDown(t, action, a);
      }
    }
  }

  lemma {:induction false} NoRenewals(s: Store, actions: seq<Action>, a: Attempt, before: Time)
    requires AllSpare(actions, Heartbeat(a))
    ensures RenewedAt(s, actions, a, before) == before
  {
    if actions != [] {
      assert actions[|actions| - 1] in actions && forall b | b in actions[..|actions| - 1] :: b in actions;
      NoRenewals(s, actions[..|actions| - 1], a, before);
    }
  }

  /** Whatever others and the attempt's own handler do, an owner's lease stays as its heartbeat left it. */
  lemma OthersRenewNothing(s: Store, actions: seq<Action>, a: Attempt, renewedAt: Time, lease: int)
    requires Inv(s) && Known(s, a) && AllSpare(actions, Heartbeat(a))
    requires HoldsLease(s, a, renewedAt, lease) && Owns(Run(s, actions), a)
    ensures HoldsLease(Run(s, actions), a, renewedAt, lease)
  {
    assert forall action | action in actions :: SparesTask(action, Heartbeat(a)) ==> RenewsBy(action, a, lease);
    LeaseIsLastRenewal(s, actions, a, renewedAt, lease);
    NoRenewals(s, actions, a, renewedAt);
  }

  lemma SparedStep(s: Store, action: Action, a: Attempt, renewedAt: Time, lease: int)
    requires Inv(s) && Known(s, a) && HoldsLease(s, a, renewedAt, lease) && s.now <= renewedAt + lease
    requires SparesTask(action, Heartbeat(a))
    ensures HoldsLease(Next(s, action), a, renewedAt, lease)
  {
    HeldStep(s, action, a, renewedAt, lease);
  }

  /** A lease that has not run out by the end of such a run leaves the job with its owner. */
  lemma {:induction false} OthersSpareLease(s: Store, actions: seq<Action>, a: Attempt, renewedAt: Time, lease: int)
    requires Inv(s) && Known(s, a) && HoldsLease(s, a, renewedAt, lease)
    requires AllSpare(actions, Heartbeat(a)) && Run(s, actions).now <= renewedAt + lease
    ensures HoldsLease(Run(s, actions), a, renewedAt, lease)
  {
    if actions != [] {
      var before, action := actions[..|actions| - 1], actions[|actions| - 1];
      var t := Run(s, before);
      ClockStep(t, action);
      assert action in actions && forall b | b in before :: b in actions;
      OthersSpareLease(s, before, a, renewedAt, lease);
      RunKeepsInv(s, before);
      KnownForever(s, before, a);
      SparedStep(t, action, a, renewedAt, lease);
    }
  }
}
