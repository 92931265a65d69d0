/**
 The background loops of a worker process: the scheduler, lease recovery, and the
 heartbeat of one attempt.
 */
module Workers {
  import opened Jobs
  import opened Protocol
  import opened Guarantees
  import opened Members
  import opened Queue
  import opened Sweeps
  import opened Leases
  import opened World
  import opened Deployments
  import opened Traces

  // ----- Scheduler -----

  function PublishAll(q: QueueState, rows: map<JobId, Row>, ids: seq<JobId>): QueueState
    requires forall id | id in ids :: id in rows
  {
    if ids == [] then q
    else
      var last := ids[|ids| - 1];
      Enqueued(PublishAll(q, rows, ids[..|ids| - 1]), last, rows[last].priority)
  }

  // Publishing distinct jobs gives each of them one entry and leaves every other job's alone.
  lemma {:induction false} PublishAllEntries(q: QueueState, rows: map<JobId, Row>, ids: seq<JobId>)
    requires forall id | id in ids :: id in rows
    requires Consistent(q) && q.sequence + |ids| <= EXACT_DOUBLES
    ensures Consistent(PublishAll(q, rows, ids))
    ensures PublishAll(q, rows, ids).sequence == q.sequence + |ids|
    ensures forall id | id in ids :: id in PublishAll(q, rows, ids).entries
    ensures forall id | id !in ids ::
              && (id in PublishAll(q, rows, ids).entries <==> id in q.entries)
              && (id in q.entries ==> PublishAll(q, rows, ids).entries[id] == q.entries[id])
  {
    if ids != [] {
      var before, last := ids[..|ids| - 1], ids[|ids| - 1];
      assert ids == before + [last];
      PublishAllEntries(q, rows, before);
      EnqueueKeepsConsistent(PublishAll(q, rows, before), last, rows[last].priority);
    }
  }

  // The jobs whose enqueue script ran.
  function Ran(ids: seq<JobId>, reply: JobId -> PublishReply): (ran: seq<JobId>)
    ensures |ran| <= |ids|
    ensures forall id :: id in ran <==> id in ids && !reply(id).NeverRan?
  {
    if ids == [] then []
    else
      var last := ids[|ids| - 1];
      assert ids == ids[..|ids| - 1] + [last];
      Ran(ids[..|ids| - 1], reply) + if reply(last).NeverRan? then [] else [last]
  }

  // What each activated job is owed, as its row was returned.
  ghost predicate OwedFor(activated: seq<JobId>, rows: map<JobId, Row>, owed: seq<Publication>) {
    && |owed| == |activated|
    && forall i | 0 <= i < |owed| ::
         activated[i] in rows && owed[i].id == activated[i] && owed[i].priority == rows[activated[i]].priority
  }

  ghost predicate Answered(w: State, owed: Publication, reply: PublishReply) {
    && (owed in w.landed <==> !reply.NeverRan?)
    && (!reply.Acknowledged? ==> owed in w.lost)
  }

  // The first i owed enqueues have been answered, the others are still owed.
  ghost predicate PublishedTo(w: State, activated: seq<JobId>, owed: seq<Publication>,
                              reply: JobId -> PublishReply, i: nat)
  {
    && i <= |owed| == |activated|
    && (forall j | 0 <= j < i :: Answered(w, owed[j], reply(activated[j])))
    && (forall j | i <= j < |owed| :: owed[j] in w.publishing)
  }

  function AllOf(owed: seq<Publication>): set<Publication> {
    set p | p in owed
  }

  lemma OthersKeepPublished(w: State, w': State, activated: seq<JobId>, owed: seq<Publication>,
                            reply: JobId -> PublishReply, i: nat)
    requires PublishedTo(w, activated, owed, reply, i) && Untouched(w, w', Mine({}, AllOf(owed), {}, NoTask))
    ensures PublishedTo(w', activated, owed, reply, i)
  {
    forall j | 0 <= j < i ensures Answered(w', owed[j], reply(activated[j])) {
      assert owed[j] in AllOf(owed);
    }
    forall j | i <= j < |owed| ensures owed[j] in w'.publishing {
      assert owed[j] in AllOf(owed);
    }
  }

  // The next publish answers one more and no other.
  lemma PublishedOneMore(w: State, w': State, activated: seq<JobId>, rows: map<JobId, Row>, owed: seq<Publication>,
                         reply: JobId -> PublishReply, i: nat)
    requires PublishedTo(w, activated, owed, reply, i) && i < |owed|
    requires Distinct(activated) && OwedFor(activated, rows, owed) && owed[i] !in w.landed
    requires w'.publishing == w.publishing - {owed[i]}
    requires w'.landed == w.landed + if reply(activated[i]).NeverRan? then {} else {owed[i]}
    requires w'.lost == w.lost + if reply(activated[i]).Acknowledged? then {} else {owed[i]}
    ensures PublishedTo(w', activated, owed, reply, i + 1)
  {
    forall j | 0 <= j < |owed| && j != i ensures owed[j] != owed[i] {
      assert owed[j].id == activated[j] && owed[i].id == activated[i];
    }
  }

  ghost function PublicationsOf(s: Store, activated: seq<JobId>): seq<Publication>
    requires forall id | id in activated :: id in s.rows && id in s.past
  {
    seq(|activated|, i requires 0 <= i < |activated| =>
          assert activated[i] in activated; PublicationOf(s, activated[i]))
  }

  lemma BatchOwedFor(w: State, activated: seq<JobId>, w': State)
    requires BatchOwed(w, activated, w') && w'.store.rows == ActivatedRows(w.store.rows, activated, w.store.now)
    ensures OwedFor(activated, w'.store.rows, PublicationsOf(w'.store, activated))
    ensures OwedFor(activated, w.store.rows, PublicationsOf(w'.store, activated))
    ensures forall i | 0 <= i < |activated| :: PublicationsOf(w'.store, activated)[i] in w'.publishing
  {
    forall i | 0 <= i < |activated|
      ensures activated[i] in w.store.rows
      ensures PublicationsOf(w'.store, activated)[i].priority == w.store.rows[activated[i]].priority
    {
      assert activated[i] in activated && activated[i] in w'.store.rows;
    }
  }

  class JobScheduler {
    const deployment: Deployment
    const batchSize: nat

    constructor (deployment: Deployment, batchSize: nat)
      ensures this.deployment == deployment && this.batchSize == batchSize
    {
      this.deployment, this.batchSize := deployment, batchSize;
    }

    /**
     One cycle, with others running at every cut: activates the first due unlocked jobs and
     publishes each of them once, at its own priority. What was owed to a job has run exactly
     if its own publish did; a failed publish costs no other job anything.
     */
    method RunOnce(locked: set<JobId>, reply: JobId -> PublishReply)
      returns (activated: seq<JobId>, ghost owed: seq<Publication>)
      requires deployment.Tied() && deployment.queue.sequence + batchSize <= EXACT_DOUBLES
      modifies deployment, deployment.table, deployment.queue
      ensures deployment.Tied() && old(deployment.log) <= deployment.log
      ensures IsSelection(DueKeys(old(deployment.table.rows), old(deployment.table.now), locked), batchSize, activated)
      ensures TookFirstDue(old(deployment.table.rows), old(deployment.table.now), locked, batchSize, activated)
      ensures old(deployment.log) + Commits(activated) <= deployment.log
      ensures OwedFor(activated, old(deployment.table.rows), owed)
      ensures PublishedTo(deployment.world, activated, owed, reply, |owed|)
      ensures deployment.alone ==>
                && MadePending(old(deployment.table.rows), activated, deployment.table.rows)
                && PublishedAll(old(deployment.queue.State()), deployment.queue.State(), deployment.table.rows,
                                activated, reply)
    {
      ghost var q := deployment.queue.State();
      ghost var w := deployment.world;
      assert Consistent(q) by { deployment.TiedSound(); }
      activated := deployment.ActivateBatch(batchSize, locked);
      var rows := deployment.table.rows;
      owed := PublicationsOf(deployment.world.store, activated);
      BatchOwedFor(w, activated, deployment.world);
      PublishEach(activated, rows, owed, reply);
      PublishedAllHolds(q, rows, activated, reply);
    }

    // The loop over the returned rows, each enqueue failing on its own.
    method PublishEach(activated: seq<JobId>, rows: map<JobId, Row>, ghost owed: seq<Publication>,
                       reply: JobId -> PublishReply)
      requires deployment.Tied() && deployment.queue.sequence + |activated| <= EXACT_DOUBLES
      requires Distinct(activated) && OwedFor(activated, rows, owed)
      requires forall id | id in activated :: id in rows
      requires PublishedTo(deployment.world, activated, owed, reply, 0)
      modifies deployment, deployment.table, deployment.queue
      ensures deployment.Tied() && old(deployment.log) <= deployment.log
      ensures PublishedTo(deployment.world, activated, owed, reply, |owed|)
      ensures deployment.alone ==>
                && deployment.table.State() == old(deployment.table.State())
                && deployment.queue.State() == PublishAll(old(deployment.queue.State()), rows, Ran(activated, reply))
    {
      for i := 0 to |activated|
        invariant deployment.Tied() && old(deployment.log) <= deployment.log
        invariant deployment.queue.sequence + (|activated| - i) <= EXACT_DOUBLES
        invariant PublishedTo(deployment.world, activated, owed, reply, i)
        invariant deployment.alone ==>
                    && deployment.table.State() == old(deployment.table.State())
                    && deployment.queue.State()
                         == PublishAll(old(deployment.queue.State()), rows, Ran(activated[..i], reply))
      {
        PublishNext(activated, rows, owed, reply, i);
        RanOneMore(old(deployment.queue.State()), rows, activated, reply, i);
      }
      assert activated[..|activated|] == activated;
    }

    method PublishNext(activated: seq<JobId>, rows: map<JobId, Row>, ghost owed: seq<Publication>,
                       reply: JobId -> PublishReply, i: nat)
      requires i < |activated|
      requires deployment.Tied() && deployment.queue.sequence + (|activated| - i) <= EXACT_DOUBLES
      requires Distinct(activated) && OwedFor(activated, rows, owed) && activated[i] in rows
      requires PublishedTo(deployment.world, activated, owed, reply, i)
      modifies deployment, deployment.table, deployment.queue
      ensures deployment.Tied() && old(deployment.log) <= deployment.log
      ensures deployment.queue.sequence + (|activated| - i - 1) <= EXACT_DOUBLES
      ensures PublishedTo(deployment.world, activated, owed, reply, i + 1)
      ensures deployment.alone ==>
                && deployment.table.State() == old(deployment.table.State())
                && deployment.queue.State() ==
                     if reply(activated[i]).NeverRan? then old(deployment.queue.State())
                     else Enqueued(old(deployment.queue.State()), activated[i], rows[activated[i]].priority)
    {
      deployment.Others(Mine({}, AllOf(owed), {}, NoTask), |activated| - i);
      OthersKeepPublished(old(deployment.world), deployment.world, activated, owed, reply, i);
      ghost var w := deployment.world;
      deployment.PublishOwed(owed[i], activated[i], rows[activated[i]].priority, reply(activated[i]));
      PublishedOneMore(w, deployment.world, activated, rows, owed, reply, i);
    }
  }

  // Every publish that ran gave its job the newest entry, in order; nothing else happened to the queue.
  ghost predicate PublishedAll(q: QueueState, q': QueueState, rows: map<JobId, Row>, activated: seq<JobId>,
                               reply: JobId -> PublishReply)
  {
    && (forall id | id in activated :: id in rows)
    && q' == PublishAll(q, rows, Ran(activated, reply))
    && (forall id | id in activated && !reply(id).NeverRan? :: IsQueued(q', id))
  }

  lemma PublishedAllHolds(q: QueueState, rows: map<JobId, Row>, activated: seq<JobId>, reply: JobId -> PublishReply)
    requires forall id | id in activated :: id in rows
    requires Consistent(q) && q.sequence + |activated| <= EXACT_DOUBLES
    ensures PublishedAll(q, PublishAll(q, rows, Ran(activated, reply)), rows, activated, reply)
  {
    PublishAllEntries(q, rows, Ran(activated, reply));
  }

  lemma RanOneMore(q: QueueState, rows: map<JobId, Row>, activated: seq<JobId>, reply: JobId -> PublishReply, i: nat)
    requires i < |activated| && forall id | id in activated :: id in rows
    ensures var ran, id := Ran(activated[..i], reply), activated[i];
            && (forall other | other in Ran(activated[..i + 1], reply) :: other in rows)
            && id in rows
            && PublishAll(q, rows, Ran(activated[..i + 1], reply))
                 == if reply(id).NeverRan? then PublishAll(q, rows, ran)
                    else Enqueued(PublishAll(q, rows, ran), id, rows[id].priority)
  {
    var ran, id := Ran(activated[..i], reply), activated[i];
    assert activated[..i + 1][..i] == activated[..i];
    assert forall other | other in activated[..i + 1] :: other in activated;
    assert (ran + [id])[..|ran|] == ran;
    assert ran + [] == ran;
  }

  // ----- Recovery -----

  class LeaseRecovery {
    const deployment: Deployment
    const batchSize: nat

    constructor (deployment: Deployment, batchSize: nat)
      ensures this.deployment == deployment && this.batchSize == batchSize
    {
      this.deployment, this.batchSize := deployment, batchSize;
    }

    /**
     One sweep, under its row locks: it settles a batch of expired rows, each once, changes no
     other row, and publishes nothing.
     */
    method RunOnce(locked: set<JobId>) returns (count: nat, ghost recovered: seq<JobId>)
      requires deployment.Tied()
      modifies deployment, deployment.table
      ensures deployment.Tied() && old(deployment.log) <= deployment.log
      ensures deployment.world == old(deployment.world).(store := deployment.table.State())
      ensures deployment.queue.State() == old(deployment.queue.State())
      ensures IsBatch(ExpiredKeys(old(deployment.table.rows), old(deployment.table.now), locked), batchSize, recovered)
      ensures TookFirstOver(old(deployment.table.rows), old(deployment.table.now), locked, batchSize, recovered)
      ensures count == |recovered|
      ensures SweptTo(old(deployment.table.State()), recovered, deployment.table.State())
      ensures |ExpiredSet(deployment.table.State())| == |ExpiredSet(old(deployment.table.State()))| - count
      ensures deployment.table.now == old(deployment.table.now)
    {
      var batch := deployment.RecoverBatch(batchSize, locked);
      count, recovered := |batch|, batch;
    }

    /**
     Left alone, sweep after sweep takes a full batch until no lease is expired: every row
     that was expired has been settled once, and every other row is as it was.
     */
    method RunUntilIdle() returns (sweeps: nat, ghost settled: seq<JobId>)
      requires deployment.Tied() && deployment.alone && batchSize >= 1
      modifies deployment, deployment.table
      ensures deployment.Tied()
      ensures SweptAll(old(deployment.table.State()), settled, deployment.table.State())
      ensures (sweeps - 1) * batchSize <= ExpiredCount(old(deployment.table.State())) <= sweeps * batchSize
      ensures deployment.queue.State() == old(deployment.queue.State())
    {
      var count;
      sweeps, count, settled := SweepFullBatches();
      TallyOver(ExpiredCount(old(deployment.table.State())), ExpiredCount(deployment.table.State()), sweeps, count,
                batchSize);
      NoneLeft(old(deployment.table.State()), settled, deployment.table.State());
    }

    // The loop itself: a sweep that finds less than a full batch is the last.
    method SweepFullBatches() returns (sweeps: nat, count: nat, ghost settled: seq<JobId>)
      requires deployment.Tied() && batchSize >= 1
      modifies deployment, deployment.table
      ensures deployment.Tied() && deployment.queue.State() == old(deployment.queue.State())
      ensures SweptSoFar(old(deployment.table.State()), settled, deployment.table.State())
      ensures count < batchSize
      ensures Tally(ExpiredCount(old(deployment.table.State())), ExpiredCount(deployment.table.State()), sweeps, count,
                    batchSize)
    {
      ghost var start := deployment.table.State();
      sweeps, count, settled := 0, batchSize, [];
      NothingSwept(start);
      while count == batchSize
        invariant deployment.Tied() && deployment.queue.State() == old(deployment.queue.State())
        invariant SweptSoFar(start, settled, deployment.table.State())
        invariant Tally(ExpiredCount(start), ExpiredCount(deployment.table.State()), sweeps, count, batchSize)
        decreases count, ExpiredCount(deployment.table.State())
      {
        ghost var left := ExpiredCount(deployment.table.State());
        count, settled := SweepAgain(start, settled);
        TallyOneMore(ExpiredCount(start), left, sweeps, count, batchSize);
        sweeps := sweeps + 1;
      }
    }

    method SweepAgain(ghost start: Store, ghost settled: seq<JobId>) returns (count: nat, ghost settled': seq<JobId>)
      requires deployment.Tied() && SweptSoFar(start, settled, deployment.table.State())
      modifies deployment, deployment.table
      ensures deployment.Tied() && deployment.queue.State() == old(deployment.queue.State())
      ensures SweptSoFar(start, settled', deployment.table.State())
      ensures var left := ExpiredCount(old(deployment.table.State()));
              count == (if batchSize < left then batchSize else left)
              && ExpiredCount(deployment.table.State()) == left - count
    {
      ghost var before := deployment.table.State();
      AllExpired(before);
      ghost var recovered;
      count, recovered := RunOnce({});
      SweepOnce(start, settled, before, batchSize, recovered, deployment.table.State());
      settled' := settled + recovered;
    }
  }

  ghost function ExpiredCount(s: Store): nat {
    |ExpiredSet(s)|
  }

  // Every row that was expired has been settled once, no lease is expired now, and no other row has changed.
  ghost predicate SweptAll(start: Store, settled: seq<JobId>, s: Store) {
    && Distinct(settled) && (forall id :: id in settled <==> Expired(start, id))
    && SweptTo(start, settled, s) && ExpiredSet(s) == {}
  }

  lemma NoneLeft(start: Store, settled: seq<JobId>, s: Store)
    requires SweptSoFar(start, settled, s) && ExpiredCount(s) == 0
    ensures SweptAll(start, settled, s)
  {
    AllSwept(start, settled, s);
  }

  lemma NothingSwept(s: Store)
    ensures SweptSoFar(s, [], s)
  {
  }

  // What so many full batches take.
  function Batches(n: nat, size: nat): nat {
    if n == 0 then 0 else Batches(n - 1, size) + size
  }

  lemma {:induction false} BatchesProduct(n: nat, size: nat)
    ensures Batches(n, size) == n * size
  {
    if n > 0 {
      BatchesProduct(n - 1, size);
      assert n * size == (n - 1) * size + size;
    }
  }

  // So many leases were expired at first, and so many are left, after full sweeps but for the last.
  predicate Tally(expired: nat, left: nat, sweeps: nat, count: nat, size: nat) {
    && count <= size
    && (count == size ==> left + Batches(sweeps, size) == expired)
    && (count < size ==> left == 0 && sweeps >= 1 && Batches(sweeps - 1, size) + count == expired)
  }

  lemma TallyOneMore(expired: nat, left: nat, sweeps: nat, count: nat, size: nat)
    requires Tally(expired, left, sweeps, size, size)
    requires count == if size < left then size else left
    ensures Tally(expired, left - count, sweeps + 1, count, size)
  {
  }

  lemma TallyOver(expired: nat, left: nat, sweeps: nat, count: nat, size: nat)
    requires Tally(expired, left, sweeps, count, size) && count < size
    ensures left == 0 && (sweeps - 1) * size <= expired <= sweeps * size
  {
    BatchesProduct(sweeps - 1, size);
    assert sweeps * size == (sweeps - 1) * size + size;
  }

  // These rows, expired at the start, have been settled by now, and no others have changed.
  ghost predicate SweptSoFar(start: Store, settled: seq<JobId>, s: Store) {
    && Distinct(settled) && (forall id | id in settled :: Expired(start, id))
    && SweptTo(start, settled, s)
  }

  lemma SweepOnce(start: Store, settled: seq<JobId>, s: Store, limit: nat, batch: seq<JobId>, s': Store)
    requires SweptSoFar(start, settled, s) && SweptTo(s, batch, s')
    requires IsBatch(ExpiredKeys(s.rows, s.now, {}), limit, batch)
    ensures SweptSoFar(start, settled + batch, s')
  {
    forall id | id in batch ensures Expired(s, id) && Expired(start, id) {
      assert id in ExpiredKeys(s.rows, s.now, {});
      ExpiredBefore(start, settled, s, id);
    }
    SweepsCompose(start, settled, s, batch, s');
  }

  lemma AllExpired(s: Store)
    ensures |ExpiredKeys(s.rows, s.now, {})| == |ExpiredSet(s)|
  {
    assert ExpiredKeys(s.rows, s.now, {}).Keys == ExpiredSet(s);
  }

  // ----- Heartbeat -----

  // What one pass of the loop meets: the write reaches the database or not.
  datatype Pass = Pass(databaseUp: bool, stopRequested: bool)

  // The loop's record of its passes.
  ghost predicate Recorded(passes: seq<Pass>, beats: seq<Beat>, lost: bool) {
    && |beats| <= |passes|
    && (lost ==> beats != [] && passes[|beats| - 1].databaseUp)
    && forall i | 0 <= i < |beats| :: beats[i].ok <==> passes[i].databaseUp && !(lost && i == |beats| - 1)
  }

  class LeaseHeartbeat {
    const deployment: Deployment
    const attempt: Attempt
    const lease: int
    var stop: bool
    var ownershipLost: bool

    constructor (deployment: Deployment, attempt: Attempt, lease: int)
      ensures this.deployment == deployment && this.attempt == attempt && this.lease == lease
      ensures !stop && !ownershipLost
    {
      this.deployment, this.attempt, this.lease := deployment, attempt, lease;
      stop, ownershipLost := false, false;
    }

    ghost predicate Ready()
      reads this, deployment, deployment.table, deployment.queue
    {
      deployment.Tied() && Known(deployment.table.State(), attempt)
    }

    ghost predicate Owned()
      reads this, deployment, deployment.table
    {
      Owns(deployment.table.State(), attempt)
    }

    ghost predicate HeldSince(renewedAt: Time)
      reads this, deployment, deployment.table
    {
      HoldsLease(deployment.table.State(), attempt, renewedAt, lease)
    }

    /** False, and ownership_lost set, exactly when the database refused the beat; an error is not a refusal. */
    method SendBeat(databaseUp: bool) returns (carryOn: bool)
      requires Ready()
      modifies this`ownershipLost, deployment, deployment.table
      ensures Ready() && old(deployment.log) <= deployment.log
      ensures deployment.table.State() == if databaseUp then Next(old(deployment.table.State()), Extend(attempt, lease))
                                          else old(deployment.table.State())
      ensures carryOn <==> !databaseUp || old(Owned())
      ensures Wrote(old(deployment.log), deployment.log, Heartbeat(attempt), BeatWritten(databaseUp, carryOn))
      ensures ownershipLost == (old(ownershipLost) || !carryOn)
      ensures carryOn && databaseUp ==> HeldSince(deployment.table.now)
      ensures Owned() <==> old(Owned())
      ensures deployment.table.now == old(deployment.table.now)
    {
      carryOn := true;
      WroteNothing(deployment.log, Heartbeat(attempt));
      if databaseUp {
        WroteOne(deployment.log, Commit(Extend(attempt, lease)), Heartbeat(attempt));
        var extended := deployment.Extend(attempt, lease);
        if extended.None? {
          ownershipLost := true;
          carryOn := false;
        }
      }
    }

    // A beat is written if it reaches the database, whatever the database makes of it.
    function BeatWritten(databaseUp: bool, ok: bool): seq<TaskWrite> {
      if databaseUp then [TaskWrite(Extend(attempt, lease), ok)] else []
    }

    function BeatsWritten(passes: seq<Pass>, beats: seq<Beat>): seq<TaskWrite>
      requires |beats| <= |passes|
    {
      if beats == [] then []
      else
        var n := |beats| - 1;
        BeatsWritten(passes, beats[..n]) + BeatWritten(passes[n].databaseUp, beats[n].ok)
    }

    /**
     The loop after these passes, begun at `log` by an owner or not. `beats` is its own record:
     a pass is good exactly if it found the database, but for a last one that lost ownership.
     An owner holds the lease its last good beat set, was one from the beginning, and has not
     been told of a loss; one that began so and was on time, with few enough misses in a row,
     still is one. Every pass that found the database has written a beat, and no other.
     */
    ghost predicate Beating(log: seq<Move>, owned: bool, passes: seq<Pass>, beats: seq<Beat>, lost: bool,
                            claimedAt: Time, k: nat, period: nat)
      reads this, deployment, deployment.table, deployment.queue
    {
      && Ready() && log <= deployment.log
      && Recorded(passes, beats, lost)
      && (Owned() ==> owned && !lost && HeldSince(LastRenewal(claimedAt, beats)))
      && (owned && InTime(claimedAt, beats, deployment.table.now, k, period, lease) ==> Owned())
      && Wrote(log, deployment.log, Heartbeat(attempt), BeatsWritten(passes, beats))
    }

    /**
     The loop, with the attempt's handler and everybody else running while it sleeps. It goes
     on until its passes are over, stop is set, or its ownership is lost, and it reports a loss
     only if it is real.
     */
    method Run(passes: seq<Pass>, ghost claimedAt: Time, ghost k: nat, ghost period: nat) returns (beats: seq<Beat>)
      requires Ready() && !ownershipLost
      requires Owned() ==> HeldSince(claimedAt)
      modifies this, deployment, deployment.table, deployment.queue
      ensures Beating(old(deployment.log), old(Owned()), passes, beats, ownershipLost, claimedAt, k, period)
      ensures |beats| == |passes| || ownershipLost || old(stop) || passes[|beats|].stopRequested
      ensures ownershipLost ==> !Owned()
    {
      beats := [];
      WroteNothing(deployment.log, Heartbeat(attempt));
      while !stop && |beats| < |passes|
        invariant Beating(old(deployment.log), old(Owned()), passes, beats, false, claimedAt, k, period)
        invariant !ownershipLost && (stop ==> old(stop))
        decreases |passes| - |beats|
      {
        SleepOn(old(deployment.log), old(Owned()), passes, beats, claimedAt, k, period);
        stop := passes[|beats|].stopRequested;
        if stop {
          return;
        }
        beats := BeatOnce(old(deployment.log), old(Owned()), passes, beats, claimedAt, k, period);
        if ownershipLost {
          return;
        }
      }
    }

    method SleepOn(ghost log: seq<Move>, ghost owned: bool, passes: seq<Pass>, beats: seq<Beat>,
                   ghost claimedAt: Time, ghost k: nat, ghost period: nat)
      requires Beating(log, owned, passes, beats, false, claimedAt, k, period)
      modifies deployment, deployment.table, deployment.queue
      ensures Beating(log, owned, passes, beats, false, claimedAt, k, period)
    {
      ghost var before := deployment.log;
      Sleep(claimedAt, beats, k, period);
      WroteTrans(log, before, deployment.log, Heartbeat(attempt), BeatsWritten(passes, beats), []);
    }

    method BeatOnce(ghost log: seq<Move>, ghost owned: bool, passes: seq<Pass>, beats: seq<Beat>,
                    ghost claimedAt: Time, ghost k: nat, ghost period: nat) returns (beats': seq<Beat>)
      requires Beating(log, owned, passes, beats, false, claimedAt, k, period)
      requires |beats| < |passes| && !ownershipLost
      modifies this`ownershipLost, deployment, deployment.table
      ensures Beating(log, owned, passes, beats', ownershipLost, claimedAt, k, period)
      ensures |beats'| == |beats| + 1 && (ownershipLost ==> !Owned())
    {
      ghost var before := deployment.log;
      var pass := passes[|beats|];
      var carryOn := SendBeat(pass.databaseUp);
      var beat := Beat(deployment.table.now, carryOn && pass.databaseUp);
      beats' := beats + [beat];
      BeatRecorded(claimedAt, beats, beat, k, period, lease);
      WroteTrans(log, before, deployment.log, Heartbeat(attempt), BeatsWritten(passes, beats),
                 BeatWritten(pass.databaseUp, carryOn));
      assert beats'[..|beats|] == beats;
    }

    // The handler and everybody else, until the next beat is due.
    method Sleep(ghost claimedAt: Time, beats: seq<Beat>, ghost k: nat, ghost period: nat)
      requires Ready()
      requires Owned() ==> HeldSince(LastRenewal(claimedAt, beats))
      modifies deployment, deployment.table, deployment.queue
      ensures Ready() && old(deployment.log) <= deployment.log
      ensures Wrote(old(deployment.log), deployment.log, Heartbeat(attempt), [])
      ensures old(deployment.table.now) <= deployment.table.now
      ensures Owned() ==> old(Owned()) && HeldSince(LastRenewal(claimedAt, beats))
      ensures old(Owned()) && InTime(claimedAt, beats, deployment.table.now, k, period, lease) ==> Owned()
    {
      ghost var s := deployment.table.State();
      assert Reachable(s) by { deployment.TiedArises(); }
      ghost var mine := Mine({}, {}, {}, Heartbeat(attempt));
      deployment.Others(mine, 0);
      OnlyOthersWriteNothing(old(deployment.log), deployment.log, mine, Heartbeat(attempt));
      HeartbeatSpared(s, deployment.table.State(), attempt, LastRenewal(claimedAt, beats), lease);
      BesideInTime(s, deployment.table.State(), attempt, claimedAt, beats, k, period, lease);
    }
  }

  lemma HeartbeatSpared(s: Store, s': Store, a: Attempt, renewedAt: Time, lease: int)
    requires Reachable(s) && Known(s, a) && EvolvesBeside(s, s', Heartbeat(a))
    requires Owns(s, a) ==> HoldsLease(s, a, renewedAt, lease)
    ensures Known(s', a) && s.now <= s'.now
    ensures Owns(s', a) ==> Owns(s, a) && HoldsLease(s', a, renewedAt, lease)
  {
    var actions :| AllSpare(actions, Heartbeat(a)) && s' == Run(s, actions);
    ReachableInv(s);
    KnownForever(s, actions, a);
    ClockRuns(s, actions);
    if Owns(s', a) {
      if !Owns(s, a) {
        LostOwnershipNeverReturns(s, actions, a);
      }
      OthersRenewNothing(s, actions, a, renewedAt, lease);
    }
  }

  // What others do until `s'` cannot take the job from a loop that is on time.
  lemma BesideInTime(s: Store, s': Store, a: Attempt, claimedAt: Time, beats: seq<Beat>, k: nat, period: nat,
                     lease: int)
    requires Reachable(s) && Known(s, a) && EvolvesBeside(s, s', Heartbeat(a))
    requires Owns(s, a) ==> HoldsLease(s, a, LastRenewal(claimedAt, beats), lease)
    ensures Owns(s, a) && InTime(claimedAt, beats, s'.now, k, period, lease) ==> Owns(s', a)
  {
    if Owns(s, a) && InTime(claimedAt, beats, s'.now, k, period, lease) {
      var actions :| AllSpare(actions, Heartbeat(a)) && s' == Run(s, actions);
      LeaseReaches(claimedAt, beats, s'.now, k, period, lease);
      ReachableInv(s);
      OthersSpareLease(s, actions, a, LastRenewal(claimedAt, beats), lease);
    }
  }
}
