/**
 The runner's pickup loop: what a cycle does while others run at every cut, which queued
 job a lone runner executes, and in which order it drains the queue.
 */
module Runner {
  import opened Jobs
  import opened Statements
  import opened Protocol
  import opened Guarantees
  import opened Members
  import opened Queue
  import opened PriorityFifo
  import opened ServiceOrders
  import opened Leases
  import opened BatchProgress
  import opened World
  import opened JobTables
  import opened Deployments
  import opened Traces

  const MAX_CANDIDATES_PER_CYCLE: nat := 10

  // What the runner, or one of the two tasks of an attempt, wakes up to next.
  datatype Wake =
    | BeatDue(databaseUp: bool)
    | ItemDone(processed: nat, total: nat)
    | HandlerReturned(result: string)
    | HandlerRaised(error: string)

  // How an attempt ended: by its handler, by the loss of its ownership, or with its process.
  datatype AttemptEnd =
    | Returned(result: string)
    | RaisedError(error: string)
    | AbandonedAsLost
    | CutOff

  // What the handler makes of the attempt, if nobody takes the job from it.
  function Outcome(wakes: seq<Wake>): AttemptEnd {
    if wakes == [] then CutOff else if IsEnd(wakes[0]) then EndOf(wakes[0]) else Outcome(wakes[1..])
  }

  predicate IsEnd(wake: Wake) {
    wake.HandlerReturned? || wake.HandlerRaised?
  }

  function EndOf(wake: Wake): AttemptEnd
    requires IsEnd(wake)
  {
    match wake
    case HandlerReturned(result) => Returned(result)
    case HandlerRaised(error) => RaisedError(error)
  }

  function Verdict(wakes: JobId -> seq<Wake>): JobId -> AttemptEnd {
    (id: JobId) => Outcome(wakes(id))
  }

  // ----- What a cycle should do -----

  predicate Runnable(rows: map<JobId, Row>, e: Entry) {
    match FromMember(e.member)
    case Malformed(_) => false
    case Parsed(c) => c.jobId in rows && Claimable(rows[c.jobId])
  }

  function JobOf(e: Entry): JobId
    requires FromMember(e.member).Parsed?
  {
    FromMember(e.member).candidate.jobId
  }

  // Stale entries ahead of the first runnable one, counting at most `budget` of them.
  function Stale(rows: map<JobId, Row>, ready: seq<Entry>, budget: nat): nat {
    if budget == 0 || ready == [] || Runnable(rows, ready[0]) then 0
    else 1 + Stale(rows, ready[1..], budget - 1)
  }

  lemma {:induction false} StaleBounds(rows: map<JobId, Row>, ready: seq<Entry>, budget: nat)
    ensures Stale(rows, ready, budget) <= budget && Stale(rows, ready, budget) <= |ready|
    ensures forall i | 0 <= i < Stale(rows, ready, budget) :: !Runnable(rows, ready[i])
    ensures var k := Stale(rows, ready, budget);
            k < budget && k < |ready| ==> Runnable(rows, ready[k])
  {
    if budget != 0 && ready != [] && !Runnable(rows, ready[0]) {
      StaleBounds(rows, ready[1..], budget - 1);
      assert forall i | 1 <= i < |ready| :: ready[i] == ready[1..][i - 1];
    }
  }

  // The runnable jobs of the queue, in queue order.
  function RunnableJobs(rows: map<JobId, Row>, ready: seq<Entry>): seq<JobId> {
    if ready == [] then []
    else (if Runnable(rows, ready[0]) then [JobOf(ready[0])] else []) + RunnableJobs(rows, ready[1..])
  }

  lemma {:induction false} RunnableJobsSkipStale(rows: map<JobId, Row>, ready: seq<Entry>, k: nat)
    requires k <= |ready| && forall i | 0 <= i < k :: !Runnable(rows, ready[i])
    ensures RunnableJobs(rows, ready) == RunnableJobs(rows, ready[k..])
  {
    if k > 0 {
      assert forall i | 0 <= i < k - 1 :: ready[1..][i] == ready[i + 1];
      RunnableJobsSkipStale(rows, ready[1..], k - 1);
      assert ready[1..][k - 1..] == ready[k..];
    } else {
      assert ready[0..] == ready;
    }
  }

  // The PENDING jobs among some tickets, in the tickets' order.
  function PendingJobs(rows: map<JobId, Row>, ts: seq<Ticket>): seq<JobId> {
    if ts == [] then []
    else
      var t := ts[0];
      (if t.job in rows && rows[t.job].status == PENDING then [t.job] else []) + PendingJobs(rows, ts[1..])
  }

  lemma {:induction false} RunnableIsPending(s: Store, ts: seq<Ticket>)
    requires Reachable(s) && forall t | t in ts :: t.number <= EXACT_DOUBLES
    ensures RunnableJobs(s.rows, EntriesOf(ts)) == PendingJobs(s.rows, ts)
  {
    if ts != [] {
      var t := ts[0];
      assert t in ts && forall u | u in ts[1..] :: u in ts;
      RunnableIsPending(s, ts[1..]);
      TicketParses(t);
      if t.job in s.rows {
        RowsSound(s, t.job);
      }
      assert EntriesOf(ts)[1..] == EntriesOf(ts[1..]);
    }
  }

  /**
   The runnable jobs of the queue, whatever moves led there: those PENDING among the live
   enqueues, highest priority first and oldest enqueue first within a priority.
   */
  lemma RunnableInServiceOrder(log: seq<Move>)
    ensures var w := Play(EMPTY_STATE, log);
            RunnableJobs(w.store.rows, w.queue.ready) == PendingJobs(w.store.rows, Served(log))
  {
    QueueNeverCorruptsTable(log);
    QueueIsCoupled(log);
    ReadySetInServiceOrder(log);
    RunnableIsPending(Play(EMPTY_STATE, log).store, Served(log));
  }

  lemma {:induction false} RunnableJobsFrame(rows: map<JobId, Row>, rows': map<JobId, Row>, ready: seq<Entry>)
    requires forall e | e in ready :: Runnable(rows, e) <==> Runnable(rows', e)
    ensures RunnableJobs(rows, ready) == RunnableJobs(rows', ready)
  {
    if ready != [] {
      assert ready[0] in ready && forall e | e in ready[1..] :: e in ready;
      RunnableJobsFrame(rows, rows', ready[1..]);
    }
  }

  // A job stands in the set once.
  lemma JobsDiffer(q: QueueState, i: nat, j: nat)
    requires Consistent(q) && i < j < |q.ready|
    ensures q.ready[i].member != q.ready[j].member
    ensures FromMember(q.ready[i].member).Parsed? && FromMember(q.ready[j].member).Parsed?
    ensures JobOf(q.ready[i]) != JobOf(q.ready[j])
  {
    var e, f := q.ready[i], q.ready[j];
    assert IsCurrent(q, e) && IsCurrent(q, f);
    assert Before(e, f);
    LexTrichotomy(e.member, f.member);
    assert e in q.ready && f in q.ready && e != f;
  }

  lemma HeadObserved(q: QueueState)
    requires Consistent(q) && q.ready != []
    ensures FromMember(q.ready[0].member).Parsed?
    ensures Observed(q, FromMember(q.ready[0].member).candidate)
    ensures FromMember(q.ready[0].member).candidate.member == q.ready[0].member
  {
    assert IsCurrent(q, q.ready[0]);
    var c := FromMember(q.ready[0].member).candidate;
    TokenParses(q.ready[0].member, c.jobId, q.sequence);
  }

  // Dropping the head's token drops the head and nothing else.
  lemma RemoveHead(q: QueueState, c: QueueCandidate)
    requires Consistent(q) && q.ready != [] && FromMember(q.ready[0].member) == Parsed(c)
    ensures Removed(q, c).ready == q.ready[1..] && Consistent(Removed(q, c))
  {
    HeadObserved(q);
    RemoveKeepsConsistent(q, c);
    HeadIsAlone(q);
    ZRemAbsent(q.ready[1..], c.member);
  }

  lemma HeadIsAlone(q: QueueState)
    requires Consistent(q) && q.ready != []
    ensures forall i | 0 <= i < |q.ready[1..]| :: q.ready[1..][i].member != q.ready[0].member
  {
    forall i | 0 <= i < |q.ready[1..]| ensures q.ready[1..][i].member != q.ready[0].member {
      JobsDiffer(q, 0, i + 1);
    }
  }

  lemma {:induction false} ZRemAbsent(ready: seq<Entry>, member: string)
    requires forall i | 0 <= i < |ready| :: ready[i].member != member
    ensures ZRem(ready, member) == ready
  {
    if ready != [] {
      ZRemAbsent(ready[1..], member);
    }
  }

  // Settling one job of the queue's head leaves every other queued job as it was.
  ghost predicate OnlyRow(rows: map<JobId, Row>, rows': map<JobId, Row>, id: JobId) {
    && rows'.Keys == rows.Keys
    && forall other | other in rows && other != id :: rows'[other] == rows[other]
  }

  // What the handler's end leaves in the row.
  predicate SettledAs(verdict: AttemptEnd, r: Row) {
    match verdict
    case Returned(result) => r.status == COMPLETED && r.result == Some(result)
    case RaisedError(error) =>
      r.error == Some(error) && r.status == if r.attemptCount < r.maxAttempts then SCHEDULED else FAILED
    case AbandonedAsLost => false
    case CutOff => r.status == PROCESSING
  }

  // The job was claimed under the token and settled; no other row changed.
  ghost predicate Executed(s: Store, s': Store, id: JobId, token: Token, verdict: JobId -> AttemptEnd) {
    && OnlyRow(s.rows, s'.rows, id)
    && id in s'.rows && SettledAs(verdict(id), s'.rows[id])
    && s'.minted == s.minted + {token}
  }

  // One cycle's worth of the queue's runnable jobs.
  lemma CycleRunnable(rows: map<JobId, Row>, ready: seq<Entry>, budget: nat, k: nat)
    requires budget >= 1 && k == Stale(rows, ready, budget)
    ensures k <= |ready| && (ready != [] && k == 0 ==> Runnable(rows, ready[0]))
    ensures if k < budget && k < |ready| then
              && FromMember(ready[k].member).Parsed?
              && RunnableJobs(rows, ready) == [JobOf(ready[k])] + RunnableJobs(rows, ready[k + 1..])
            else
              RunnableJobs(rows, ready) == RunnableJobs(rows, ready[k..])
  {
    StaleBounds(rows, ready, budget);
    RunnableJobsSkipStale(rows, ready, k);
    if k < |ready| {
      assert ready[k..][0] == ready[k] && ready[k..][1..] == ready[k + 1..];
    }
  }

  lemma LaterJobsDiffer(q: QueueState, k: nat)
    requires Consistent(q) && k < |q.ready|
    ensures FromMember(q.ready[k].member).Parsed?
    ensures OtherJobs(q.ready[k + 1..], JobOf(q.ready[k]))
  {
    assert IsCurrent(q, q.ready[k]);
    forall e | e in q.ready[k + 1..] ensures FromMember(e.member).Parsed? && JobOf(e) != JobOf(q.ready[k]) {
      LaterJobDiffers(q, k, e);
    }
  }

  lemma LaterJobDiffers(q: QueueState, k: nat, e: Entry)
    requires Consistent(q) && k < |q.ready| && e in q.ready[k + 1..]
    ensures FromMember(q.ready[k].member).Parsed? && FromMember(e.member).Parsed?
    ensures JobOf(e) != JobOf(q.ready[k])
  {
    var i :| 0 <= i < |q.ready[k + 1..]| && q.ready[k + 1..][i] == e;
    JobsDiffer(q, k, k + 1 + i);
  }

  /** What one cycle with `budget` looks at the queue does, from table `s` and order `ready`. */
  ghost predicate CycleDone(s: Store, ready: seq<Entry>, budget: nat, token: Token, verdict: JobId -> AttemptEnd,
                            executed: Option<JobId>, s': Store, ready': seq<Entry>)
  {
    var k := Stale(s.rows, ready, budget);
    && k <= |ready|
    && if k < budget && k < |ready| then
         && FromMember(ready[k].member).Parsed?
         && Runnable(s.rows, ready[k])
         && executed == Some(JobOf(ready[k]))
         && ready' == ready[k + 1..]
         && Executed(s, s', executed.value, token, verdict)
       else
         executed.None? && ready' == ready[k..] && s' == s
  }

  lemma {:induction false} StaleIs(rows: map<JobId, Row>, ready: seq<Entry>, budget: nat, i: nat)
    requires i <= budget && i <= |ready| && forall j | 0 <= j < i :: !Runnable(rows, ready[j])
    requires i == budget || i == |ready| || Runnable(rows, ready[i])
    ensures Stale(rows, ready, budget) == i
  {
    if i > 0 {
      assert forall j | 0 <= j < |ready| - 1 :: ready[1..][j] == ready[j + 1];
      StaleIs(rows, ready[1..], budget - 1, i - 1);
    }
  }

  lemma CycleIdle(s: Store, ready: seq<Entry>, budget: nat, token: Token, verdict: JobId -> AttemptEnd, i: nat)
    requires i <= budget && i <= |ready| && (i == budget || i == |ready|)
    requires forall j | 0 <= j < i :: !Runnable(s.rows, ready[j])
    ensures CycleDone(s, ready, budget, token, verdict, None, s, ready[i..])
  {
    StaleIs(s.rows, ready, budget, i);
  }

  lemma CycleRan(s: Store, ready: seq<Entry>, budget: nat, token: Token, verdict: JobId -> AttemptEnd, i: nat,
                 id: JobId, s': Store)
    requires i < budget && i < |ready| && Runnable(s.rows, ready[i]) && id == JobOf(ready[i])
    requires Executed(s, s', id, token, verdict)
    requires forall j | 0 <= j < i :: !Runnable(s.rows, ready[j])
    ensures CycleDone(s, ready, budget, token, verdict, Some(id), s', ready[i + 1..])
  {
    StaleIs(s.rows, ready, budget, i);
  }

  // Executing a job cannot make another queued job runnable or stale.
  lemma RestUnaffected(rest: seq<Entry>, rows: map<JobId, Row>, rows': map<JobId, Row>, id: JobId)
    requires OnlyRow(rows, rows', id)
    requires OtherJobs(rest, id)
    ensures RunnableJobs(rows, rest) == RunnableJobs(rows', rest)
  {
    forall e | e in rest ensures Runnable(rows, e) <==> Runnable(rows', e) {
      assert JobOf(e) != id;
    }
    RunnableJobsFrame(rows, rows', rest);
  }

  // A cycle on a non-empty queue shrinks it and moves its runnable job, if any, to the executed ones.
  lemma DrainStep(q: QueueState, s: Store, s': Store, ready': seq<Entry>, budget: nat, token: Token,
                  verdict: JobId -> AttemptEnd, ran: Option<JobId>, executed: seq<JobId>)
    requires Consistent(q) && q.ready != [] && budget >= 1
    requires CycleDone(s, q.ready, budget, token, verdict, ran, s', ready')
    ensures |ready'| < |q.ready|
    ensures executed + RunnableJobs(s.rows, q.ready) == WithRan(executed, ran) + RunnableJobs(s'.rows, ready')
    ensures s'.minted <= s.minted + {token}
  {
    ConsistentJobs(q);
    DrainCycle(q.ready, s, s', ready', budget, token, verdict, ran, executed);
  }

  ghost predicate DistinctJobs(ready: seq<Entry>) {
    forall k | 0 <= k < |ready| :: FromMember(ready[k].member).Parsed? && OtherJobs(ready[k + 1..], JobOf(ready[k]))
  }

  lemma ConsistentJobs(q: QueueState)
    requires Consistent(q)
    ensures DistinctJobs(q.ready)
  {
    forall k | 0 <= k < |q.ready|
      ensures FromMember(q.ready[k].member).Parsed? && OtherJobs(q.ready[k + 1..], JobOf(q.ready[k]))
    {
      LaterJobsDiffer(q, k);
    }
  }

  lemma DrainCycle(ready: seq<Entry>, s: Store, s': Store, ready': seq<Entry>, budget: nat, token: Token,
                   verdict: JobId -> AttemptEnd, ran: Option<JobId>, executed: seq<JobId>)
    requires DistinctJobs(ready) && ready != [] && budget >= 1
    requires CycleDone(s, ready, budget, token, verdict, ran, s', ready')
    ensures |ready'| < |ready|
    ensures executed + RunnableJobs(s.rows, ready) == WithRan(executed, ran) + RunnableJobs(s'.rows, ready')
    ensures s'.minted <= s.minted + {token}
  {
    var k := Stale(s.rows, ready, budget);
    CycleRunnable(s.rows, ready, budget, k);
    if ran.Some? {
      DrainRan(s.rows, s'.rows, ready, k, ran.value, executed);
    } else {
      assert WithRan(executed, ran) == executed;
    }
  }

  predicate OtherJobs(rest: seq<Entry>, id: JobId) {
    forall e | e in rest :: FromMember(e.member).Parsed? && JobOf(e) != id
  }

  lemma DrainRan(rows: map<JobId, Row>, rows': map<JobId, Row>, ready: seq<Entry>, k: nat, id: JobId,
                 executed: seq<JobId>)
    requires k < |ready| && OnlyRow(rows, rows', id) && OtherJobs(ready[k + 1..], id)
    requires RunnableJobs(rows, ready) == [id] + RunnableJobs(rows, ready[k + 1..])
    ensures executed + RunnableJobs(rows, ready) == (executed + [id]) + RunnableJobs(rows', ready[k + 1..])
  {
    RestUnaffected(ready[k + 1..], rows, rows', id);
    Associative(executed, [id], RunnableJobs(rows', ready[k + 1..]));
  }

  // Every executed job is settled as its handler ended, and every other row is as it was.
  ghost predicate DrainedTo(rows: map<JobId, Row>, rows': map<JobId, Row>, executed: seq<JobId>,
                            verdict: JobId -> AttemptEnd)
  {
    && rows'.Keys == rows.Keys
    && (forall id | id in executed :: id in rows' && SettledAs(verdict(id), rows'[id]))
    && (forall id | id in rows && id !in executed :: rows'[id] == rows[id])
  }

  // None of the jobs still queued has been executed.
  ghost predicate NotYet(ready: seq<Entry>, executed: seq<JobId>) {
    forall e | e in ready :: FromMember(e.member).Parsed? && JobOf(e) !in executed
  }

  lemma DrainSettles(rows: map<JobId, Row>, q: QueueState, s: Store, s': Store, ready': seq<Entry>, budget: nat,
                     token: Token, verdict: JobId -> AttemptEnd, ran: Option<JobId>, executed: seq<JobId>)
    requires Consistent(q) && NotYet(q.ready, executed) && DrainedTo(rows, s.rows, executed, verdict)
    requires CycleDone(s, q.ready, budget, token, verdict, ran, s', ready')
    ensures NotYet(ready', WithRan(executed, ran))
    ensures DrainedTo(rows, s'.rows, WithRan(executed, ran), verdict)
  {
    var k := Stale(s.rows, q.ready, budget);
    if ran.Some? {
      LaterJobsDiffer(q, k);
      assert q.ready[k] in q.ready;
      OneMoreSettled(rows, s.rows, s'.rows, executed, ran.value, verdict);
    }
  }

  lemma OneMoreSettled(rows: map<JobId, Row>, before: map<JobId, Row>, after: map<JobId, Row>, executed: seq<JobId>,
                       id: JobId, verdict: JobId -> AttemptEnd)
    requires DrainedTo(rows, before, executed, verdict) && id !in executed
    requires OnlyRow(before, after, id) && id in after && SettledAs(verdict(id), after[id])
    ensures DrainedTo(rows, after, executed + [id], verdict)
  {
  }

  function OneOrNone(ran: Option<JobId>): seq<JobId> {
    if ran.Some? then [ran.value] else []
  }

  function WithRan(executed: seq<JobId>, ran: Option<JobId>): seq<JobId> {
    executed + OneOrNone(ran)
  }

  lemma TokensLeft(tokens: seq<Token>, n: nat, minted: set<Token>, minted': set<Token>)
    requires n < |tokens| && minted' <= minted + {tokens[n]}
    requires forall i, j | 0 <= i < j < |tokens| :: tokens[i] != tokens[j]
    requires forall i | n <= i < |tokens| :: tokens[i] !in minted
    ensures forall i | n + 1 <= i < |tokens| :: tokens[i] !in minted'
  {
  }

  // An attempt of this worker ran under the token, and unless its process died it owns nothing any more.
  ghost predicate Attempted(s: Store, id: JobId, worker: WorkerId, token: Token, verdict: AttemptEnd) {
    exists a ::
      && Known(s, a) && a.jobId == id && a.workerId == worker && a.executionToken == token
      && (!verdict.CutOff? ==> !Owns(s, a))
  }

  // One look at the queue: nothing there, stop seen, a stale entry dropped, or its job run.
  datatype Look = NothingQueued | Stopped | Dropped | Ran(id: JobId)

  ghost predicate LookDone(s: Store, ready: seq<Entry>, token: Token, verdict: JobId -> AttemptEnd, look: Look,
                           s': Store, ready': seq<Entry>)
  {
    match look
    case NothingQueued => ready == [] == ready' && s' == s
    case Stopped => ready != [] && ready' == ready && s' == s
    case Dropped => ready != [] && !Runnable(s.rows, ready[0]) && ready' == ready[1..] && s' == s
    case Ran(id) =>
      && ready != [] && Runnable(s.rows, ready[0]) && id == JobOf(ready[0])
      && ready' == ready[1..] && Executed(s, s', id, token, verdict)
  }

  // What the turns of an attempt do to the table while nobody else acts.
  ghost predicate LoneTurns(s: Store, s': Store, a: Attempt, lost: bool) {
    && OnlyRow(s.rows, s'.rows, a.jobId) && s'.minted == s.minted
    && (Owns(s, a) ==> Owns(s', a) && !lost)
  }

  // ----- What the turns of an attempt write -----

  predicate NoEndIn(taken: seq<Wake>) {
    forall wake | wake in taken :: wake.BeatDue? || wake.ItemDone?
  }

  // The attempt ends as this turn of its handler does.
  predicate EndsLike(wake: Wake, end: AttemptEnd) {
    match end
    case Returned(result) => wake == HandlerReturned(result)
    case RaisedError(error) => wake == HandlerRaised(error)
    case _ => false
  }

  /** The row of a job as the first turn that ends its handler demands, whatever it was called before. */
  ghost predicate SettledBy(wakes: seq<Wake>, r: Row) {
    && (forall k: nat | k < |wakes| && NoEndIn(wakes[..k]) ::
          && (wakes[k].HandlerReturned? ==> r.status == COMPLETED && r.result == Some(wakes[k].result))
          && (wakes[k].HandlerRaised? ==>
                && r.error == Some(wakes[k].error)
                && r.status == if r.attemptCount < r.maxAttempts then SCHEDULED else FAILED))
    && (NoEndIn(wakes) ==> r.status == PROCESSING)
  }

  lemma SettledAsDemanded(wakes: seq<Wake>, r: Row)
    requires SettledAs(Outcome(wakes), r)
    ensures SettledBy(wakes, r)
  {
    forall k: nat | k < |wakes| && NoEndIn(wakes[..k])
      ensures wakes[k].HandlerReturned? ==> r.status == COMPLETED && r.result == Some(wakes[k].result)
      ensures wakes[k].HandlerRaised? ==>
                && r.error == Some(wakes[k].error)
                && r.status == if r.attemptCount < r.maxAttempts then SCHEDULED else FAILED
    {
      OutcomeAfter(wakes, k);
    }
    if NoEndIn(wakes) {
      assert wakes[..|wakes|] == wakes;
      OutcomeAfter(wakes, |wakes|);
    }
  }

  // A beat renews, a finished item is reported; a beat that does not reach the database writes nothing.
  function TurnWritten(wake: Wake, a: Attempt, lease: int, refused: bool): seq<TaskWrite> {
    match wake
    case BeatDue(databaseUp) => if databaseUp then [TaskWrite(Extend(a, lease), !refused)] else []
    case ItemDone(processed, total) => [TaskWrite(Progress(a, Percentage(processed, total)), !refused)]
    case _ => []
  }

  // Turn by turn, all accepted, but for the last of them if it was refused.
  function TurnsWritten(taken: seq<Wake>, a: Attempt, lease: int, refused: bool): seq<TaskWrite> {
    if taken == [] then []
    else TurnsWritten(taken[..|taken| - 1], a, lease, false) + TurnWritten(taken[|taken| - 1], a, lease, refused)
  }

  function EndWritten(end: AttemptEnd, a: Attempt, owned: bool): seq<TaskWrite> {
    match end
    case Returned(result) => [TaskWrite(Complete(a, result), owned)]
    case RaisedError(error) => [TaskWrite(Fail(a, error), owned)]
    case _ => []
  }

  /**
   How the turns stop: at the handler's end, whatever became of a beat just before it; at a
   refused beat or report; or with the process.
   */
  predicate EndedAfter(wakes: seq<Wake>, turns: nat, refused: bool, end: AttemptEnd) {
    && turns <= |wakes| && NoEndIn(wakes[..turns])
    && (refused ==> turns >= 1 && CanBeRefused(wakes[turns - 1]))
    && match end
       case AbandonedAsLost => refused
       case CutOff => !refused && turns == |wakes|
       case _ =>
         && turns < |wakes| && EndsLike(wakes[turns], end)
         && (refused ==> wakes[turns - 1].BeatDue?)
  }

  predicate CanBeRefused(wake: Wake) {
    wake == BeatDue(true) || wake.ItemDone?
  }

  // Since `log`, these turns were taken, the last of them refused or not.
  ghost predicate Turned(log: seq<Move>, log': seq<Move>, a: Attempt, taken: seq<Wake>, lease: int, refused: bool) {
    && NoEndIn(taken)
    && (refused ==> taken != [] && CanBeRefused(taken[|taken| - 1]))
    && Wrote(log, log', WholeAttempt(a), TurnsWritten(taken, a, lease, refused))
  }

  lemma OneMoreTurn(log: seq<Move>, log': seq<Move>, log'': seq<Move>, a: Attempt, taken: seq<Wake>, wake: Wake,
                    lease: int, refused: bool)
    requires Turned(log, log', a, taken, lease, false) && !IsEnd(wake) && (refused ==> CanBeRefused(wake))
    requires Wrote(log', log'', WholeAttempt(a), TurnWritten(wake, a, lease, refused))
    ensures Turned(log, log'', a, taken + [wake], lease, refused)
  {
    WroteTrans(log, log', log'', WholeAttempt(a), TurnsWritten(taken, a, lease, false),
               TurnWritten(wake, a, lease, refused));
    assert (taken + [wake])[..|taken|] == taken;
  }

  lemma {:induction false} OutcomeAfter(wakes: seq<Wake>, turns: nat)
    requires turns <= |wakes| && NoEndIn(wakes[..turns])
    ensures Outcome(wakes) == if turns < |wakes| && IsEnd(wakes[turns]) then EndOf(wakes[turns])
                              else Outcome(wakes[turns..])
  {
    if turns > 0 {
      assert wakes[0] in wakes[..turns] && wakes[1..][..turns - 1] == wakes[..turns][1..];
      OutcomeAfter(wakes[1..], turns - 1);
      assert wakes[1..][turns - 1..] == wakes[turns..];
    } else {
      assert wakes[0..] == wakes;
    }
  }

  // How the attempt ends when its turns stop here. A handler that is over by now outruns a refused beat.
  function EndAt(wakes: seq<Wake>, turns: nat, refused: bool): AttemptEnd
    requires turns <= |wakes|
  {
    if turns < |wakes| && IsEnd(wakes[turns]) && (refused && turns > 0 ==> wakes[turns - 1].BeatDue?)
    then EndOf(wakes[turns])
    else if refused then AbandonedAsLost
    else CutOff
  }

  lemma TurnsStop(wakes: seq<Wake>, turns: nat, refused: bool)
    requires turns <= |wakes| && NoEndIn(wakes[..turns])
    requires refused ==> turns >= 1 && CanBeRefused(wakes[turns - 1])
    requires turns == |wakes| || refused || IsEnd(wakes[turns])
    ensures EndedAfter(wakes, turns, refused, EndAt(wakes, turns, refused))
    ensures EndAt(wakes, turns, refused).AbandonedAsLost? || EndAt(wakes, turns, refused) == Outcome(wakes)
  {
    OutcomeAfter(wakes, turns);
  }

  class JobRunner {
    const deployment: Deployment
    const actor: nat
    const workerId: WorkerId
    const lease: int
    const candidatesPerCycle: nat

    constructor (deployment: Deployment, actor: nat, workerId: WorkerId, lease: int)
      ensures this.deployment == deployment && this.actor == actor && this.workerId == workerId && this.lease == lease
      ensures candidatesPerCycle == 10
    {
      this.deployment, this.actor, this.workerId, this.lease := deployment, actor, workerId, lease;
      this.candidatesPerCycle := MAX_CANDIDATES_PER_CYCLE;
    }

    // Looks at the queue before a set stop is noticed: two looks at stop each.
    function Budget(stopCheck: Option<nat>): nat {
      if stopCheck.Some? && stopCheck.value / 2 < candidatesPerCycle then stopCheck.value / 2 else candidatesPerCycle
    }

    ghost predicate Ready()
      reads deployment, deployment.table, deployment.queue
    {
      deployment.Tied() && PcOf(deployment.world, actor).Idle?
    }

    // Others run; this runner stands where it stood and nobody else draws its token.
    method Pause(ghost tokens: set<Token>, ghost task: Task)
      requires deployment.Tied() && tokens !! deployment.table.minted
      modifies deployment, deployment.table, deployment.queue
      ensures deployment.Tied() && tokens !! deployment.table.minted
      ensures PcOf(deployment.world, actor) == old(PcOf(deployment.world, actor))
      ensures NoClaims(old(deployment.log), deployment.log, actor)
      ensures Wrote(old(deployment.log), deployment.log, task, [])
      ensures deployment.alone ==>
                && deployment.table.State() == old(deployment.table.State())
                && deployment.queue.State() == old(deployment.queue.State())
    {
      ghost var mine := Mine({actor}, {}, tokens, task);
      deployment.Others(mine, 0);
      OnlyOthersClaimNothing(old(deployment.log), deployment.log, mine, actor);
      OnlyOthersWriteNothing(old(deployment.log), deployment.log, mine, task);
    }

    /**
     The handler runs while others do; at the end `seen` is the table. An attempt that still
     owns its job then settles it as its handler ended, one that does not writes nothing;
     only one that has lost its job is abandoned. The attempt's own writes are those of its
     turns, as RunHandler says, and the one that settles it.
     */
    method Execute(a: Attempt, wakes: seq<Wake>)
      returns (end: AttemptEnd, ghost seen: Store, ghost turns: nat, ghost refused: bool)
      requires Busy(a)
      modifies deployment, deployment.table, deployment.queue
      ensures Ready() && NoClaims(old(deployment.log), deployment.log, actor)
      ensures EndedAfter(wakes, turns, refused, end)
      ensures Wrote(old(deployment.log), deployment.log, WholeAttempt(a),
                    TurnsWritten(wakes[..turns], a, lease, refused) + EndWritten(end, a, Owns(seen, a)))
      ensures end.AbandonedAsLost? || end == Outcome(wakes)
      ensures end.AbandonedAsLost? ==> !Owns(seen, a)
      ensures Known(seen, a) && OnlyRow(seen.rows, deployment.table.rows, a.jobId)
      ensures Owns(seen, a) ==>
                a.jobId in deployment.table.rows && SettledAs(end, deployment.table.rows[a.jobId])
      ensures !Owns(seen, a) ==> deployment.table.State() == seen
      ensures Known(deployment.table.State(), a)
      ensures end.CutOff? || !Owns(deployment.table.State(), a)
      ensures deployment.table.minted == seen.minted
      ensures deployment.alone ==>
                && seen.minted == old(deployment.table.minted)
                && OnlyRow(old(deployment.table.rows), seen.rows, a.jobId)
                && (Owns(old(deployment.table.State()), a) ==> Owns(seen, a) && end == Outcome(wakes))
                && deployment.queue.State() == old(deployment.queue.State())
    {
      end, turns, refused := RunHandler(a, wakes);
      seen := deployment.table.State();
      ghost var over := deployment.log;
      Settle(a, end);
      WroteTrans(old(deployment.log), over, deployment.log, WholeAttempt(a),
                 TurnsWritten(wakes[..turns], a, lease, refused), EndWritten(end, a, Owns(seen, a)));
    }

    ghost predicate Busy(a: Attempt)
      reads deployment, deployment.table, deployment.queue
    {
      deployment.Tied() && PcOf(deployment.world, actor) == Executing(a) && Known(deployment.table.State(), a)
    }

    /**
     Handler and heartbeat of one attempt, turn by turn, with others running before every
     turn. The attempt writes exactly what its first `turns` turns demand. A refused report
     ends the handler; a refused beat ends the attempt, unless its handler is over by the time
     the runner looks: in either case no write follows the refused one.
     */
    method RunHandler(a: Attempt, wakes: seq<Wake>) returns (end: AttemptEnd, ghost turns: nat, ghost refused: bool)
      requires Busy(a)
      modifies deployment, deployment.table, deployment.queue
      ensures EndedAfter(wakes, turns, refused, end)
      ensures Underway(a, old(deployment.log), old(deployment.table.State()), old(deployment.queue.State()),
                       wakes[..turns], refused)
      ensures end.AbandonedAsLost? || end == Outcome(wakes)
    {
      ghost var log, store, entries := deployment.log, deployment.table.State(), deployment.queue.State();
      var taken, lost := TakeTurns(a, wakes);
      AwaitEnd(a, log, store, entries, wakes[..taken], lost);
      TurnsStop(wakes, taken, lost);
      end, turns, refused := EndAt(wakes, taken, lost), taken, lost;
    }

    // Turn after turn, until the handler is over, a write was refused, or there are no more.
    method TakeTurns(a: Attempt, wakes: seq<Wake>) returns (i: nat, lost: bool)
      requires Busy(a)
      modifies deployment, deployment.table, deployment.queue
      ensures i <= |wakes| && (lost ==> i >= 1 && CanBeRefused(wakes[i - 1]))
      ensures i == |wakes| || lost || IsEnd(wakes[i])
      ensures Underway(a, old(deployment.log), old(deployment.table.State()), old(deployment.queue.State()),
                       wakes[..i], lost)
    {
      ghost var log, store, entries := deployment.log, deployment.table.State(), deployment.queue.State();
      i, lost := 0, false;
      UnderwayBegins(a);
      assert wakes[..0] == [];
      while i < |wakes| && !lost && !IsEnd(wakes[i])
        invariant 0 <= i <= |wakes| && (lost ==> i >= 1 && CanBeRefused(wakes[i - 1]))
        invariant Underway(a, log, store, entries, wakes[..i], lost)
        decreases |wakes| - i
      {
        assert wakes[..i + 1] == wakes[..i] + [wakes[i]];
        lost := TakeTurn(a, wakes[i], log, store, entries, wakes[..i]);
        i := i + 1;
      }
    }

    lemma UnderwayBegins(a: Attempt)
      requires Busy(a)
      ensures Underway(a, deployment.log, deployment.table.State(), deployment.queue.State(), [], false)
    {
      WroteNothing(deployment.log, WholeAttempt(a));
    }

    // The attempt since it began, at `log` with this table and queue: the turns taken so far.
    ghost predicate Underway(a: Attempt, log: seq<Move>, store: Store, entries: QueueState,
                             taken: seq<Wake>, lost: bool)
      reads this, deployment, deployment.table, deployment.queue
    {
      && Busy(a) && NoClaims(log, deployment.log, actor)
      && Turned(log, deployment.log, a, taken, lease, lost)
      && (lost ==> !Owns(deployment.table.State(), a))
      && (deployment.alone ==> LoneTurns(store, deployment.table.State(), a, lost))
      && (deployment.alone ==> deployment.queue.State() == entries)
    }

    // The handler is over; others may have run since the last turn.
    method AwaitEnd(a: Attempt, ghost log: seq<Move>, ghost store: Store, ghost entries: QueueState,
                    ghost taken: seq<Wake>, ghost lost: bool)
      requires Underway(a, log, store, entries, taken, lost)
      modifies deployment, deployment.table, deployment.queue
      ensures Underway(a, log, store, entries, taken, lost)
    {
      ghost var before := deployment.log;
      Await(a);
      WroteTrans(log, before, deployment.log, WholeAttempt(a), TurnsWritten(taken, a, lease, lost), []);
    }

    method TakeTurn(a: Attempt, wake: Wake, ghost log: seq<Move>, ghost store: Store, ghost entries: QueueState,
                    ghost taken: seq<Wake>) returns (refused: bool)
      requires Underway(a, log, store, entries, taken, false) && !IsEnd(wake)
      modifies deployment, deployment.table, deployment.queue
      ensures Underway(a, log, store, entries, taken + [wake], refused)
      ensures refused ==> CanBeRefused(wake)
    {
      ghost var before := deployment.log;
      refused := WriteAfterOthers(a, wake);
      OneMoreTurn(log, before, deployment.log, a, taken, wake, lease, refused);
    }

    method Await(a: Attempt)
      requires Busy(a)
      modifies deployment, deployment.table, deployment.queue
      ensures Busy(a) && NoClaims(old(deployment.log), deployment.log, actor)
      ensures Wrote(old(deployment.log), deployment.log, WholeAttempt(a), [])
      ensures Owns(deployment.table.State(), a) ==> Owns(old(deployment.table.State()), a)
      ensures deployment.alone ==>
                && deployment.table.State() == old(deployment.table.State())
                && deployment.queue.State() == old(deployment.queue.State())
    {
      Pause({}, WholeAttempt(a));
      KnownForGood(old(deployment.log), deployment.log, a);
      if !Owns(old(deployment.table.State()), a) {
        LostForGood(old(deployment.log), deployment.log, a);
      }
    }

    // Others run, then a beat or a report is written; true if the fence refused it.
    method WriteAfterOthers(a: Attempt, wake: Wake) returns (refused: bool)
      requires Busy(a)
      modifies deployment, deployment.table, deployment.queue
      ensures Busy(a) && NoClaims(old(deployment.log), deployment.log, actor)
      ensures Wrote(old(deployment.log), deployment.log, WholeAttempt(a), TurnWritten(wake, a, lease, refused))
      ensures refused ==> CanBeRefused(wake)
      ensures refused ==> !Owns(deployment.table.State(), a)
      ensures Owns(deployment.table.State(), a) ==> Owns(old(deployment.table.State()), a)
      ensures deployment.alone ==>
                LoneTurns(old(deployment.table.State()), deployment.table.State(), a, refused)
      ensures deployment.alone ==> deployment.queue.State() == old(deployment.queue.State())
    {
      Await(a);
      ghost var awaited := deployment.log;
      refused := WriteTurn(a, wake);
      WroteTrans(old(deployment.log), awaited, deployment.log, WholeAttempt(a), [],
                 TurnWritten(wake, a, lease, refused));
    }

    method WriteTurn(a: Attempt, wake: Wake) returns (refused: bool)
      requires Busy(a)
      modifies deployment, deployment.table
      ensures Busy(a) && NoClaims(old(deployment.log), deployment.log, actor)
      ensures Wrote(old(deployment.log), deployment.log, WholeAttempt(a), TurnWritten(wake, a, lease, refused))
      ensures refused ==> CanBeRefused(wake)
      ensures refused ==> !Owns(deployment.table.State(), a)
      ensures Owns(deployment.table.State(), a) ==> Owns(old(deployment.table.State()), a)
      ensures LoneTurns(old(deployment.table.State()), deployment.table.State(), a, refused)
    {
      refused := false;
      WroteNothing(deployment.log, WholeAttempt(a));
      match wake {
        case BeatDue(databaseUp) =>
          if databaseUp {
            refused := WriteBeat(a);
          }
        case ItemDone(processed, total) =>
          refused := WriteReport(a, processed, total);
        case _ =>
      }
    }

    method WriteBeat(a: Attempt) returns (refused: bool)
      requires Busy(a)
      modifies deployment, deployment.table
      ensures Busy(a) && NoClaims(old(deployment.log), deployment.log, actor)
      ensures Wrote(old(deployment.log), deployment.log, WholeAttempt(a), [TaskWrite(Extend(a, lease), !refused)])
      ensures refused <==> !Owns(deployment.table.State(), a)
      ensures Owns(deployment.table.State(), a) ==> Owns(old(deployment.table.State()), a)
      ensures LoneTurns(old(deployment.table.State()), deployment.table.State(), a, refused)
    {
      RenewalFrame(deployment.table.State(), a, Extend(a, lease));
      WroteOne(deployment.log, Commit(Extend(a, lease)), WholeAttempt(a));
      var extended := deployment.Extend(a, lease);
      refused := extended.None?;
    }

    method WriteReport(a: Attempt, processed: nat, total: nat) returns (refused: bool)
      requires Busy(a)
      modifies deployment, deployment.table
      ensures Busy(a) && NoClaims(old(deployment.log), deployment.log, actor)
      ensures Wrote(old(deployment.log), deployment.log, WholeAttempt(a),
                    [TaskWrite(Progress(a, Percentage(processed, total)), !refused)])
      ensures refused <==> !Owns(deployment.table.State(), a)
      ensures Owns(deployment.table.State(), a) ==> Owns(old(deployment.table.State()), a)
      ensures LoneTurns(old(deployment.table.State()), deployment.table.State(), a, refused)
    {
      var percentage := Percentage(processed, total);
      RenewalFrame(deployment.table.State(), a, Progress(a, percentage));
      WroteOne(deployment.log, Commit(Progress(a, percentage)), WholeAttempt(a));
      var owned := deployment.Report(a, percentage);
      refused := !owned;
    }

    // The settling write, and the end of the attempt.
    method Settle(a: Attempt, end: AttemptEnd)
      requires Busy(a) && (end.AbandonedAsLost? ==> !Owns(deployment.table.State(), a))
      modifies deployment, deployment.table
      ensures Ready() && NoClaims(old(deployment.log), deployment.log, actor)
      ensures OnlyRow(old(deployment.table.rows), deployment.table.rows, a.jobId)
      ensures Owns(old(deployment.table.State()), a) ==>
                a.jobId in deployment.table.rows && SettledAs(end, deployment.table.rows[a.jobId])
      ensures !Owns(old(deployment.table.State()), a) ==> deployment.table.State() == old(deployment.table.State())
      ensures Known(deployment.table.State(), a)
      ensures end.CutOff? || !Owns(deployment.table.State(), a)
      ensures deployment.table.minted == old(deployment.table.minted)
      ensures Wrote(old(deployment.log), deployment.log, WholeAttempt(a),
                    EndWritten(end, a, Owns(old(deployment.table.State()), a)))
    {
      ghost var owned := Owns(deployment.table.State(), a);
      WroteNothing(deployment.log, WholeAttempt(a));
      if end.Returned? || end.RaisedError? {
        WriteEnd(a, end);
        KnownForGood(old(deployment.log), deployment.log, a);
      }
      ghost var written := deployment.log;
      Leave(a, end.CutOff?);
      WroteTrans(old(deployment.log), written, deployment.log, WholeAttempt(a), EndWritten(end, a, owned), []);
    }

    method Leave(a: Attempt, cutOff: bool)
      requires Busy(a)
      modifies deployment
      ensures Ready() && NoClaims(old(deployment.log), deployment.log, actor)
      ensures Known(deployment.table.State(), a)
      ensures Wrote(old(deployment.log), deployment.log, WholeAttempt(a), [])
    {
      var move := if cutOff then Crash(actor) else Finish(actor);
      WroteOne(deployment.log, move, WholeAttempt(a));
      deployment.Take(move);
    }

    method WriteEnd(a: Attempt, end: AttemptEnd)
      requires deployment.Tied() && Known(deployment.table.State(), a) && (end.Returned? || end.RaisedError?)
      modifies deployment, deployment.table
      ensures deployment.Tied() && NoClaims(old(deployment.log), deployment.log, actor)
      ensures deployment.world.actors == old(deployment.world.actors)
      ensures OnlyRow(old(deployment.table.rows), deployment.table.rows, a.jobId)
      ensures Owns(old(deployment.table.State()), a) ==>
                a.jobId in deployment.table.rows && SettledAs(end, deployment.table.rows[a.jobId])
      ensures !Owns(old(deployment.table.State()), a) ==> deployment.table.State() == old(deployment.table.State())
      ensures !Owns(deployment.table.State(), a)
      ensures deployment.table.minted == old(deployment.table.minted)
      ensures Wrote(old(deployment.log), deployment.log, WholeAttempt(a),
                    EndWritten(end, a, Owns(old(deployment.table.State()), a)))
    {
      ghost var s := deployment.table.State();
      assert Reachable(s) by { deployment.TiedArises(); }
      match end {
        case Returned(result) =>
          WroteOne(deployment.log, Commit(Complete(a, result)), WholeAttempt(a));
          var _ := deployment.Complete(a, result);
          SettlementFrame(s, a, Complete(a, result));
        case RaisedError(error) =>
          WroteOne(deployment.log, Commit(Fail(a, error)), WholeAttempt(a));
          var _ := deployment.Fail(a, error);
          SettlementFrame(s, a, Fail(a, error));
      }
    }

    /**
     _discard_unclaimable: drop the observed entry unless the job, as re-read, is claimable
     after all. `seen` is the table at the re-read, `met` the queue at the call's last step: it
     is left as it is, or loses this very token and nothing else.
     */
    method DiscardUnclaimable(c: QueueCandidate, ghost token: Token)
      returns (removed: bool, ghost seen: Store, ghost met: QueueState)
      requires deployment.Tied() && PcOf(deployment.world, actor) == Refused(c)
      requires token !in deployment.table.minted
      modifies deployment, deployment.table, deployment.queue
      ensures Ready() && NoClaims(old(deployment.log), deployment.log, actor)
      ensures token !in deployment.table.minted
      ensures |old(deployment.log)| < |deployment.log|
      ensures met == Play(EMPTY_STATE, deployment.log[..|deployment.log| - 1]).queue
      ensures removed ==>
                && !HasStatus(seen.rows, c.jobId, {PENDING})
                && c.jobId in met.entries && met.entries[c.jobId] == c.member
      ensures deployment.queue.State() == if removed then Removed(met, c) else met
      ensures HasStatus(seen.rows, c.jobId, {PENDING})
              || (c.jobId in deployment.queue.entries ==> deployment.queue.entries[c.jobId] != c.member)
      ensures deployment.alone ==>
                && seen == deployment.table.State() == old(deployment.table.State())
                && deployment.queue.State() ==
                     if HasStatus(deployment.table.rows, c.jobId, {PENDING})
                     then old(deployment.queue.State()) else Removed(old(deployment.queue.State()), c)
    {
      Pause({token}, NoTask);
      seen, met := deployment.table.State(), deployment.queue.State();
      var stillClaimable := deployment.Reread(actor, c);
      removed := false;
      if !stillClaimable {
        Pause({token}, NoTask);
        met := deployment.queue.State();
        removed := deployment.RemoveObserved(actor, c);
      }
    }

    // One candidate: claim it and execute it, or drop it as stale.
    method TryCandidate(c: QueueCandidate, token: Token, wakes: JobId -> seq<Wake>) returns (executed: Option<JobId>)
      requires deployment.Tied() && PcOf(deployment.world, actor) == Peeked(c) && token !in deployment.table.minted
      requires deployment.alone ==>
                 deployment.queue.ready != [] && FromMember(deployment.queue.ready[0].member) == Parsed(c)
      modifies deployment, deployment.table, deployment.queue
      ensures Ready() && Claimed(old(deployment.log), deployment.log, actor, OneOrNone(executed))
      ensures executed.None? ==> token !in deployment.table.minted
      ensures executed.Some? ==>
                && executed.value == c.jobId
                && Attempted(deployment.table.State(), c.jobId, workerId, token, Outcome(wakes(c.jobId)))
      ensures deployment.alone ==>
                && deployment.queue.ready == old(deployment.queue.ready)[1..]
                && if Runnable(old(deployment.table.rows), old(deployment.queue.ready)[0]) then
                     && executed == Some(c.jobId)
                     && Executed(old(deployment.table.State()), deployment.table.State(), c.jobId, token,
                                 Verdict(wakes))
                   else
                     executed.None? && deployment.table.State() == old(deployment.table.State())
    {
      ghost var q := deployment.queue.State();
      ghost var rows := deployment.table.rows;
      assert c.jobId in rows ==> (Claimable(rows[c.jobId]) <==> rows[c.jobId].status == PENDING) by {
        deployment.TiedArises();
        PendingIsClaimable(deployment.table.State(), c.jobId);
      }
      assert Consistent(q) by { deployment.TiedSound(); }
      assert deployment.alone ==> Removed(q, c).ready == q.ready[1..] by {
        if deployment.alone {
          RemoveHead(q, c);
        }
      }
      var attempt := ClaimNext(c, token);
      ghost var tried := deployment.log;
      if attempt.None? {
        var _, _, _ := DiscardUnclaimable(c, token);
        executed := None;
      } else {
        RunClaimed(c, attempt.value, wakes(c.jobId));
        executed := Some(c.jobId);
      }
      NothingClaimed(tried, deployment.log, actor);
      ClaimedTrans(old(deployment.log), tried, deployment.log, actor, OneOrNone(executed), []);
    }

    // The claim of a peeked job; None leaves the token unused.
    method ClaimNext(c: QueueCandidate, token: Token) returns (attempt: Option<Attempt>)
      requires deployment.Tied() && PcOf(deployment.world, actor) == Peeked(c) && token !in deployment.table.minted
      modifies deployment, deployment.table, deployment.queue
      ensures deployment.Tied()
      ensures Claimed(old(deployment.log), deployment.log, actor, if attempt.Some? then [c.jobId] else [])
      ensures attempt.None? ==> PcOf(deployment.world, actor) == Refused(c) && token !in deployment.table.minted
      ensures attempt.Some? ==>
                && PcOf(deployment.world, actor) == Cleaning(c, attempt.value)
                && attempt.value.jobId == c.jobId
                && attempt.value.workerId == workerId && attempt.value.executionToken == token
                && Known(deployment.table.State(), attempt.value) && Owns(deployment.table.State(), attempt.value)
      ensures deployment.alone ==>
                && deployment.queue.State() == old(deployment.queue.State())
                && (attempt.Some? <==>
                      HasStatus(old(deployment.table.rows), c.jobId, {PENDING}))
                && (attempt.None? ==> deployment.table.State() == old(deployment.table.State()))
                && (attempt.Some? ==>
                      && OnlyRow(old(deployment.table.rows), deployment.table.rows, c.jobId)
                      && deployment.table.minted == old(deployment.table.minted) + {token})
    {
      Pause({token}, NoTask);
      ghost var s := deployment.table.State();
      assert s.rows.Keys == s.past.Keys by { deployment.TiedSound(); }
      ghost var paused, claim := deployment.log, World.ClaimPeeked(actor, workerId, token, lease);
      var job := deployment.ClaimPeeked(actor, c, workerId, token, lease);
      attempt := None;
      if job.Some? {
        ClaimFrame(s, c.jobId, workerId, token, lease);
        attempt := AttemptOf(c.jobId, job.value);
      }
      OneClaim(old(deployment.log), paused, deployment.log, claim, actor, if attempt.Some? then [c.jobId] else []);
    }

    // The claim is durable: drop the observed entry, then run the attempt.
    method RunClaimed(c: QueueCandidate, a: Attempt, wakes: seq<Wake>)
      requires deployment.Tied() && PcOf(deployment.world, actor) == Cleaning(c, a)
      requires Known(deployment.table.State(), a)
      modifies deployment, deployment.table, deployment.queue
      ensures Ready() && NoClaims(old(deployment.log), deployment.log, actor)
      ensures Known(deployment.table.State(), a)
      ensures Outcome(wakes).CutOff? || !Owns(deployment.table.State(), a)
      ensures deployment.alone ==>
                && OnlyRow(old(deployment.table.rows), deployment.table.rows, a.jobId)
                && deployment.table.minted == old(deployment.table.minted)
                && (Owns(old(deployment.table.State()), a) ==>
                      a.jobId in deployment.table.rows && SettledAs(Outcome(wakes), deployment.table.rows[a.jobId]))
                && deployment.queue.State() == Removed(old(deployment.queue.State()), c)
    {
      Pause({}, NoTask);
      var _ := deployment.RemoveObserved(actor, c);
      KnownForGood(old(deployment.log), deployment.log, a);
      var _, _, _, _ := Execute(a, wakes);
    }

    // One look at the queue: stop may be set by the time the head has been read.
    method LookAtHead(stopped: bool, token: Token, wakes: JobId -> seq<Wake>) returns (look: Look)
      requires Ready() && token !in deployment.table.minted
      modifies deployment, deployment.table, deployment.queue
      ensures Ready()
      ensures Claimed(old(deployment.log), deployment.log, actor, if look.Ran? then [look.id] else [])
      ensures look.Ran? || token !in deployment.table.minted
      ensures look.Stopped? ==> stopped
      ensures look.Dropped? || look.Ran? ==> !stopped
      ensures look.Ran? ==> Attempted(deployment.table.State(), look.id, workerId, token, Outcome(wakes(look.id)))
      ensures deployment.alone ==>
                LookDone(old(deployment.table.State()), old(deployment.queue.ready), token, Verdict(wakes), look,
                         deployment.table.State(), deployment.queue.ready)
    {
      var peeked := NextCandidate(token);
      ghost var peekedAt := deployment.log;
      NothingClaimed(old(deployment.log), peekedAt, actor);
      if peeked.None? {
        return NothingQueued;
      }
      if stopped {
        StepBack();
        NothingClaimed(old(deployment.log), deployment.log, actor);
        return Stopped;
      }
      var executed := TryCandidate(peeked.value, token, wakes);
      ClaimedTrans(old(deployment.log), peekedAt, deployment.log, actor, [], OneOrNone(executed));
      look := if executed.Some? then Ran(executed.value) else Dropped;
    }

    // Stop was seen after the peek: the entry stays for someone else.
    method StepBack()
      requires deployment.Tied()
      modifies deployment
      ensures Ready() && NoClaims(old(deployment.log), deployment.log, actor)
    {
      deployment.Take(Crash(actor));
    }

    /**
     One cycle, with others running at every cut: at most one attempt, of a job this runner
     claimed under its own token; without one the token is still unused. Of a lone runner:
     stale entries ahead of the first runnable job are dropped one by one, that job is
     executed, and its entry goes with it; at most ten entries are looked at, fewer when stop
     is set at the `stopCheck`-th look at it.
     */
    method RunOnce(stopCheck: Option<nat>, token: Token, wakes: JobId -> seq<Wake>) returns (executed: Option<JobId>)
      requires Ready() && token !in deployment.table.minted
      modifies deployment, deployment.table, deployment.queue
      ensures Ready() && Claimed(old(deployment.log), deployment.log, actor, OneOrNone(executed))
      ensures executed.None? ==> token !in deployment.table.minted
      ensures executed.Some? ==>
                Attempted(deployment.table.State(), executed.value, workerId, token, Outcome(wakes(executed.value)))
      ensures stopCheck == Some(0) ==> executed.None? && deployment.log == old(deployment.log)
      ensures deployment.alone ==>
                CycleDone(old(deployment.table.State()), old(deployment.queue.ready), Budget(stopCheck), token,
                          Verdict(wakes), executed, deployment.table.State(), deployment.queue.ready)
    {
      ghost var ready, s := deployment.queue.ready, deployment.table.State();
      ghost var budget := Budget(stopCheck);
      var checks := 0;
      var i := 0;
      assert ready[0..] == ready;
      NothingClaimed(deployment.log, deployment.log, actor);
      while i < candidatesPerCycle
        invariant 0 <= i <= budget && checks == 2 * i
        invariant Ready() && Claimed(old(deployment.log), deployment.log, actor, [])
        invariant token !in deployment.table.minted
        invariant deployment.alone ==> LoneCycle(s, ready, i, deployment.table.State(), deployment.queue.ready)
        invariant stopCheck == Some(0) ==> deployment.log == old(deployment.log)
        decreases candidatesPerCycle - i
      {
        if stopCheck.Some? && checks >= stopCheck.value {
          break;
        }
        ghost var log := deployment.log;
        var look := LookAtHead(stopCheck.Some? && checks + 1 >= stopCheck.value, token, wakes);
        checks := checks + 2;
        ClaimedTrans(old(deployment.log), log, deployment.log, actor, [], if look.Ran? then [look.id] else []);
        if look.NothingQueued? {
          LoneCycleEmpty(deployment.alone, s, ready, budget, token, Verdict(wakes), i,
                         deployment.table.State(), deployment.queue.ready);
          return None;
        }
        if look.Stopped? {
          break;
        }
        if look.Ran? {
          LoneCycleRan(deployment.alone, s, ready, budget, token, Verdict(wakes), i, look.id,
                       deployment.table.State(), deployment.queue.ready);
          return Some(look.id);
        }
        i := i + 1;
      }
      LoneCycleOver(deployment.alone, s, ready, budget, token, Verdict(wakes), i,
                    deployment.table.State(), deployment.queue.ready);
      executed := None;
    }

    method NextCandidate(ghost token: Token) returns (candidate: Option<QueueCandidate>)
      requires Ready() && token !in deployment.table.minted
      modifies deployment, deployment.table, deployment.queue
      ensures deployment.Tied() && token !in deployment.table.minted
      ensures NoClaims(old(deployment.log), deployment.log, actor)
      ensures candidate.None? ==> Ready()
      ensures candidate.Some? ==> PcOf(deployment.world, actor) == Peeked(candidate.value)
      ensures deployment.alone ==>
                && deployment.table.State() == old(deployment.table.State())
                && deployment.queue.State() == old(deployment.queue.State())
                && (candidate.None? <==> deployment.queue.ready == [])
                && (candidate.Some? ==> FromMember(deployment.queue.ready[0].member) == Parsed(candidate.value))
    {
      Pause({token}, NoTask);
      candidate := deployment.Peek(actor);
    }

    /**
     A lone runner empties the queue, in no more cycles than there were entries. It claims
     exactly the jobs that are PENDING among the live enqueues, highest priority first and
     oldest enqueue first within a priority, which is the order of the queue; each is settled
     as its handler ends, and no other row changes.
     */
    method Drain(tokens: seq<Token>, wakes: JobId -> seq<Wake>) returns (executed: seq<JobId>, cycles: nat)
      requires Ready() && deployment.alone
      requires candidatesPerCycle >= 1 && |tokens| >= |deployment.queue.ready|
      requires forall i | 0 <= i < |tokens| :: tokens[i] !in deployment.table.minted
      requires forall i, j | 0 <= i < j < |tokens| :: tokens[i] != tokens[j]
      modifies deployment, deployment.table, deployment.queue
      ensures Ready() && deployment.queue.ready == []
      ensures executed == RunnableJobs(old(deployment.table.rows), old(deployment.queue.ready))
      ensures executed == PendingJobs(old(deployment.table.rows), Served(old(deployment.log)))
      ensures ClaimsBy(deployment.log, actor) == ClaimsBy(old(deployment.log), actor) + executed
      ensures DrainedTo(old(deployment.table.rows), deployment.table.rows, executed, Verdict(wakes))
      ensures forall id | id in executed ::
                id in deployment.table.rows && SettledBy(wakes(id), deployment.table.rows[id])
      ensures |executed| <= cycles <= |old(deployment.queue.ready)|
    {
      executed, cycles := [], 0;
      RunnableInServiceOrder(deployment.log);
      ghost var log, rows, ready := deployment.log, deployment.table.rows, deployment.queue.ready;
      DrainBegins();
      while deployment.queue.ready != []
        invariant |executed| <= cycles && cycles + |deployment.queue.ready| <= |ready|
        invariant Draining(log, rows, ready, executed, Verdict(wakes))
        invariant forall i | cycles <= i < |tokens| :: tokens[i] !in deployment.table.minted
        decreases |deployment.queue.ready|
      {
        ghost var minted := deployment.table.minted;
        var ran := DrainOnce(tokens[cycles], wakes, log, rows, ready, executed);
        TokensLeft(tokens, cycles, minted, deployment.table.minted);
        cycles := cycles + 1;
        executed := WithRan(executed, ran);
      }
      ClaimedMeans(log, deployment.log, actor, executed);
      forall id | id in executed
        ensures id in deployment.table.rows && SettledBy(wakes(id), deployment.table.rows[id])
      {
        SettledAsDemanded(wakes(id), deployment.table.rows[id]);
      }
    }

    // A drain that began at `log`, with these rows and this queue, and has executed these jobs so far.
    ghost predicate Draining(log: seq<Move>, rows: map<JobId, Row>, ready: seq<Entry>, executed: seq<JobId>,
                             verdict: JobId -> AttemptEnd)
      reads deployment, deployment.table, deployment.queue
    {
      && Ready()
      && executed + RunnableJobs(deployment.table.rows, deployment.queue.ready) == RunnableJobs(rows, ready)
      && Claimed(log, deployment.log, actor, executed)
      && NotYet(deployment.queue.ready, executed)
      && DrainedTo(rows, deployment.table.rows, executed, verdict)
    }

    lemma DrainBegins()
      requires Ready()
      ensures forall verdict ::
                Draining(deployment.log, deployment.table.rows, deployment.queue.ready, [], verdict)
    {
      deployment.TiedSound();
      ConsistentJobs(deployment.queue.State());
      NothingClaimed(deployment.log, deployment.log, actor);
    }

    method DrainOnce(token: Token, wakes: JobId -> seq<Wake>, ghost log: seq<Move>, ghost rows: map<JobId, Row>,
                     ghost ready: seq<Entry>, ghost executed: seq<JobId>) returns (ran: Option<JobId>)
      requires deployment.alone && candidatesPerCycle >= 1
      requires Draining(log, rows, ready, executed, Verdict(wakes))
      requires deployment.queue.ready != [] && token !in deployment.table.minted
      modifies deployment, deployment.table, deployment.queue
      ensures Draining(log, rows, ready, WithRan(executed, ran), Verdict(wakes))
      ensures |deployment.queue.ready| < |old(deployment.queue.ready)|
      ensures deployment.table.minted <= old(deployment.table.minted) + {token}
    {
      ghost var q, s, before := deployment.queue.State(), deployment.table.State(), deployment.log;
      assert Consistent(q) by { deployment.TiedSound(); }
      ran := RunOnce(None, token, wakes);
      ClaimedTrans(log, before, deployment.log, actor, executed, OneOrNone(ran));
      ghost var s', ready' := deployment.table.State(), deployment.queue.ready;
      DrainStep(q, s, s', ready', Budget(None), token, Verdict(wakes), ran, executed);
      DrainSettles(rows, q, s, s', ready', Budget(None), token, Verdict(wakes), ran, executed);
    }
  }

  // ----- A lone cycle under way -----

  // The first i entries were stale and are gone.
  ghost predicate LoneCycle(s: Store, ready: seq<Entry>, i: nat, s': Store, ready': seq<Entry>) {
    && i <= |ready| && ready' == ready[i..] && s' == s
    && forall j | 0 <= j < i :: !Runnable(s.rows, ready[j])
  }

  lemma LoneCycleEmpty(alone: bool, s: Store, ready: seq<Entry>, budget: nat, token: Token,
                       verdict: JobId -> AttemptEnd, i: nat, s': Store, ready': seq<Entry>)
    requires alone ==> LoneCycle(s, ready, i, s', ready') && ready' == [] && i <= budget
    ensures alone ==> CycleDone(s, ready, budget, token, verdict, None, s', ready')
  {
    if alone {
      assert |ready'| == |ready| - i;
      CycleIdle(s, ready, budget, token, verdict, i);
    }
  }

  lemma LoneCycleOver(alone: bool, s: Store, ready: seq<Entry>, budget: nat, token: Token, verdict: JobId -> AttemptEnd,
                      i: nat, s': Store, ready': seq<Entry>)
    requires alone ==> LoneCycle(s, ready, i, s', ready') && i == budget
    ensures alone ==> CycleDone(s, ready, budget, token, verdict, None, s', ready')
  {
    if alone {
      CycleIdle(s, ready, budget, token, verdict, i);
    }
  }

  lemma LoneCycleRan(alone: bool, s: Store, ready: seq<Entry>, budget: nat, token: Token, verdict: JobId -> AttemptEnd,
                     i: nat, id: JobId, s': Store, ready': seq<Entry>)
    requires alone ==>
               && i < budget && i < |ready| && LoneCycle(s, ready, i, s, ready[i..])
               && Runnable(s.rows, ready[i]) && id == JobOf(ready[i])
               && Executed(s, s', id, token, verdict) && ready' == ready[i..][1..]
    ensures alone ==> CycleDone(s, ready, budget, token, verdict, Some(id), s', ready')
  {
    if alone {
      assert ready[i..][1..] == ready[i + 1..];
      CycleRan(s, ready, budget, token, verdict, i, id, s');
    }
  }

  lemma ClaimFrame(s: Store, id: JobId, worker: WorkerId, token: Token, lease: int)
    requires id in s.rows && id in s.past && Claimable(s.rows[id]) && token !in s.minted
    ensures OnlyRow(s.rows, Next(s, Claim(id, worker, token, lease)).rows, id)
    ensures Next(s, Claim(id, worker, token, lease)).minted == s.minted + {token}
  {
  }

  lemma RenewalFrame(s: Store, a: Attempt, action: Action)
    requires (action.Extend? || action.Progress?) && action.attempt == a
    ensures LoneTurns(s, Next(s, action), a, false)
    ensures Owns(Next(s, action), a) ==> Owns(s, a)
  {
  }

  // Settling an attempt touches its own row only, and nothing without ownership.
  lemma SettlementFrame(s: Store, a: Attempt, action: Action)
    requires Reachable(s) && Known(s, a) && (action.Complete? || action.Fail?) && action.attempt == a
    ensures OnlyRow(s.rows, Next(s, action).rows, a.jobId) && Next(s, action).minted == s.minted
    ensures !Owns(s, a) ==> Next(s, action) == s
  {
    ReachableInv(s);
    assert JobInv(a.jobId, s.rows[a.jobId], s.past[a.jobId], s.now, s.minted);
    if !Owns(s, a) {
      WriteRefused(s, action, a);
    } else if action.Fail? {
      FailedSparesOthers(s, a, action.error, false);
    }
  }
}
