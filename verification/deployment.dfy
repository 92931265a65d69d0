/**
 The service deployed: its table, its queue, and everybody who works on them. Each
 service call is cut at its commits and Redis calls, and others may run at every cut.
 A ghost copy of the composed system follows every cut, so a call is a sequence of the
 system's own moves with moves of others in between.
 */
module Deployments {
  import opened Jobs
  import opened Statements
  import opened Histories
  import opened Protocol
  import opened Guarantees
  import opened Idempotency
  import opened Members
  import opened Queue
  import opened World
  import opened ReadyQueues
  import opened Sweeps
  import opened Leases
  import PriorityFifo
  import opened ServiceOrders
  import opened JobTables

  // ----- Everybody else -----

  /**
   What belongs to one caller: its program counters, the enqueues it owes, the tokens it
   will draw, and the task of an attempt it is busy with.
   */
  datatype Mine = Mine(actors: set<nat>, owed: set<Publication>, tokens: set<Token>, task: Task)

  const NOTHING := Mine({}, {}, {}, NoTask)

  predicate SomebodyElses(move: Move, mine: Mine) {
    match move
    case Commit(action) => (action.Claim? ==> action.token !in mine.tokens) && SparesTask(action, mine.task)
    case Publish(p) => p !in mine.owed
    case PublishUnacknowledged(p) => p !in mine.owed
    case PublishFails(p) => p !in mine.owed
    case Peek(actor) => actor !in mine.actors
    case ClaimPeeked(actor, _, token, _) => actor !in mine.actors && token !in mine.tokens
    case Reread(actor) => actor !in mine.actors
    case RemoveObserved(actor) => actor !in mine.actors
    case CancelCommit(actor, _) => actor !in mine.actors
    case CancelLookup(actor) => actor !in mine.actors
    case Finish(actor) => actor !in mine.actors
    case Crash(actor) => actor !in mine.actors
  }

  // The caller stands where it stood, owes what it owed, its tokens are fresh, and no row is gone.
  ghost predicate Untouched(w: State, w': State, mine: Mine) {
    && (forall actor | actor in mine.actors :: PcOf(w', actor) == PcOf(w, actor))
    && (forall p | p in mine.owed && p in w.publishing :: p in w'.publishing)
    && (forall t | t in mine.tokens && t !in w.store.minted :: t !in w'.store.minted)
    && w.store.rows.Keys <= w'.store.rows.Keys
    && (forall p | p in mine.owed :: p in w'.landed <==> p in w.landed)
    && w.lost <= w'.lost
  }

  lemma TableGrows(s: Store, action: Action)
    ensures s.rows.Keys <= Next(s, action).rows.Keys
    ensures Next(s, action).minted <= s.minted + if action.Claim? then {action.token} else {}
  {
  }

  lemma ElseStep(w: State, move: Move, mine: Mine)
    requires SomebodyElses(move, mine)
    ensures Untouched(w, Step(w, move), mine)
  {
    match move
    case Commit(action) => TableGrows(w.store, action);
    case ClaimPeeked(actor, worker, token, lease) =>
      if PcOf(w, actor).Peeked? {
        TableGrows(w.store, Claim(PcOf(w, actor).candidate.jobId, worker, token, lease));
      }
    case CancelCommit(_, id) => TableGrows(w.store, Cancel(id));
    case _ =>
  }

  lemma {:induction false} ElseKeeps(w: State, moves: seq<Move>, mine: Mine)
    requires forall move | move in moves :: SomebodyElses(move, mine)
    ensures Untouched(w, Play(w, moves), mine)
  {
    if moves != [] {
      var before, last := moves[..|moves| - 1], moves[|moves| - 1];
      assert last in moves && forall move | move in before :: move in moves;
      ElseKeeps(w, before, mine);
      ElseStep(Play(w, before), last, mine);
    }
  }

  lemma PlayOneMore(w: State, moves: seq<Move>, move: Move)
    ensures Play(w, moves + [move]) == Step(Play(w, moves), move)
  {
    assert (moves + [move])[..|moves|] == moves;
  }

  lemma {:induction false} PlayAppend(w: State, first: seq<Move>, second: seq<Move>)
    ensures Play(w, first + second) == Play(Play(w, first), second)
  {
    if second == [] {
      assert first + second == first;
    } else {
      var before, last := second[..|second| - 1], second[|second| - 1];
      assert second == before + [last] && first + second == (first + before) + [last];
      PlayAppend(w, first, before);
      PlayOneMore(w, first + before, last);
      PlayOneMore(Play(w, first), before, last);
    }
  }

  // Between two moments of the log only others moved.
  ghost predicate OnlyOthers(log: seq<Move>, log': seq<Move>, mine: Mine) {
    log <= log' && forall move | move in log'[|log|..] :: SomebodyElses(move, mine)
  }

  lemma OthersLeaveUntouched(log: seq<Move>, log': seq<Move>, mine: Mine)
    requires OnlyOthers(log, log', mine)
    ensures Untouched(Play(EMPTY_STATE, log), Play(EMPTY_STATE, log'), mine)
  {
    assert log' == log + log'[|log|..];
    PlayAppend(EMPTY_STATE, log, log'[|log|..]);
    ElseKeeps(Play(EMPTY_STATE, log), log'[|log|..], mine);
  }

  lemma {:induction false} PlayEvolves(w: State, moves: seq<Move>)
    ensures Evolves(w.store, Play(w, moves).store)
  {
    EvolvesRefl(w.store);
    if moves != [] {
      var before, last := Play(w, moves[..|moves| - 1]), moves[|moves| - 1];
      PlayEvolves(w, moves[..|moves| - 1]);
      StepIsTableRun(before, last);
      EvolvesTrans(w.store, before.store, Play(w, moves).store);
    }
  }

  // The table ran, but no step in it was the task's own.
  ghost predicate EvolvesBeside(s: Store, s': Store, task: Task) {
    exists actions :: AllSpare(actions, task) && s' == Run(s, actions)
  }

  lemma ElsesAreSparing(w: State, move: Move, mine: Mine)
    requires SomebodyElses(move, mine)
    ensures AllSpare(TableActions(w, move), mine.task)
  {
  }

  lemma {:induction false} PlayEvolvesBeside(w: State, moves: seq<Move>, mine: Mine)
    requires forall move | move in moves :: SomebodyElses(move, mine)
    ensures EvolvesBeside(w.store, Play(w, moves).store, mine.task)
  {
    if moves == [] {
      assert AllSpare([], mine.task) && w.store == Run(w.store, []);
    } else {
      var earlier, last := moves[..|moves| - 1], moves[|moves| - 1];
      var before := Play(w, earlier);
      assert last in moves && forall move | move in earlier :: move in moves;
      PlayEvolvesBeside(w, earlier, mine);
      ElsesAreSparing(before, last, mine);
      StepIsTableRun(before, last);
      BesideTrans(w.store, before.store, TableActions(before, last), mine.task);
    }
  }

  lemma BesideTrans(s: Store, t: Store, actions: seq<Action>, task: Task)
    requires EvolvesBeside(s, t, task) && AllSpare(actions, task)
    ensures EvolvesBeside(s, Run(t, actions), task)
  {
    var first :| AllSpare(first, task) && t == Run(s, first);
    RunAppend(s, first, actions);
    assert AllSpare(first + actions, task);
  }

  lemma OthersEvolveBeside(log: seq<Move>, log': seq<Move>, mine: Mine)
    requires OnlyOthers(log, log', mine)
    ensures EvolvesBeside(Play(EMPTY_STATE, log).store, Play(EMPTY_STATE, log').store, mine.task)
  {
    assert log' == log + log'[|log|..];
    PlayAppend(EMPTY_STATE, log, log'[|log|..]);
    PlayEvolvesBeside(Play(EMPTY_STATE, log), log'[|log|..], mine);
  }

  lemma LogEvolves(log: seq<Move>, log': seq<Move>)
    requires log <= log'
    ensures Evolves(Play(EMPTY_STATE, log).store, Play(EMPTY_STATE, log').store)
  {
    assert log' == log + log'[|log|..];
    PlayAppend(EMPTY_STATE, log, log'[|log|..]);
    PlayEvolves(Play(EMPTY_STATE, log), log'[|log|..]);
  }

  predicate IsCancelled(s: Store, id: JobId) {
    id in s.rows && s.rows[id].status == CANCELLED
  }

  lemma CancelledForGood(log: seq<Move>, log': seq<Move>, id: JobId)
    requires log <= log' && IsCancelled(Play(EMPTY_STATE, log).store, id)
    ensures IsCancelled(Play(EMPTY_STATE, log').store, id)
  {
    var s, s' := Play(EMPTY_STATE, log).store, Play(EMPTY_STATE, log').store;
    LogEvolves(log, log');
    QueueNeverCorruptsTable(log);
    ReachableInv(s);
    var actions :| s' == Run(s, actions);
    FinishedStaysFinished(s, actions, id);
    assert WithoutKey(s'.rows[id]).status == WithoutKey(s.rows[id]).status;
  }

  lemma KeyHeldForGood(log: seq<Move>, log': seq<Move>, key: string)
    requires log <= log' && KeyHeld(Play(EMPTY_STATE, log).store.rows, key)
    ensures KeyHeld(Play(EMPTY_STATE, log').store.rows, key)
  {
    LogEvolves(log, log');
    QueueNeverCorruptsTable(log);
    HeldAfter(Play(EMPTY_STATE, log).store, Play(EMPTY_STATE, log').store, key);
  }

  lemma LostForGood(log: seq<Move>, log': seq<Move>, a: Attempt)
    requires log <= log' && Known(Play(EMPTY_STATE, log).store, a) && !Owns(Play(EMPTY_STATE, log).store, a)
    ensures !Owns(Play(EMPTY_STATE, log').store, a)
  {
    var s := Play(EMPTY_STATE, log).store;
    LogEvolves(log, log');
    QueueNeverCorruptsTable(log);
    ReachableInv(s);
    var actions :| Play(EMPTY_STATE, log').store == Run(s, actions);
    LostOwnershipNeverReturns(s, actions, a);
  }

  lemma KnownForGood(log: seq<Move>, log': seq<Move>, a: Attempt)
    requires log <= log' && Known(Play(EMPTY_STATE, log).store, a)
    ensures Known(Play(EMPTY_STATE, log').store, a)
  {
    var s := Play(EMPTY_STATE, log).store;
    LogEvolves(log, log');
    QueueNeverCorruptsTable(log);
    ReachableInv(s);
    var actions :| Play(EMPTY_STATE, log').store == Run(s, actions);
    KnownForever(s, actions, a);
  }

  // ----- The system's moves, as their callers meet them -----

  // The live enqueue of the highest priority, and the oldest of those.
  function FirstServed(log: seq<Move>): Option<QueueCandidate> {
    if Served(log) == [] then None else Some(PriorityFifo.CandidateOf(Served(log)[0]))
  }

  lemma HeadIsFirstServed(log: seq<Move>)
    ensures var ready := Play(EMPTY_STATE, log).queue.ready;
            if ready == [] then FirstServed(log) == None
            else FirstServed(log).Some? && FromMember(ready[0].member) == Parsed(FirstServed(log).value)
  {
    QueueIsCoupled(log);
    ReadySetInServiceOrder(log);
    PriorityFifo.EntriesOfIndex(Served(log));
    if Served(log) != [] {
      assert Served(log)[0] in LiveTickets(log);
      PriorityFifo.TicketParses(Served(log)[0]);
    }
  }

  lemma PeekStep(w: State, actor: nat)
    requires Arises(w) && PcOf(w, actor).Idle?
    ensures var w' := Step(w, World.Peek(actor));
            && w'.store == w.store && w'.queue == w.queue
            && (w.queue.ready != [] ==>
                  && FromMember(w.queue.ready[0].member).Parsed?
                  && PcOf(w', actor) == Peeked(FromMember(w.queue.ready[0].member).candidate))
            && (w.queue.ready == [] ==> w' == w)
  {
    ArisesInv(w);
    if w.queue.ready != [] {
      assert IsCurrent(w.queue, w.queue.ready[0]);
    }
  }

  predicate RemovesNext(pc: Pc, c: QueueCandidate) {
    match pc
    case Discarding(d) => d == c
    case Uncancelling(d) => d == c
    case Cleaning(d, _) => d == c
    case _ => false
  }

  function AfterRemoval(pc: Pc): Pc {
    match pc
    case Cleaning(_, a) => Executing(a)
    case _ => Idle
  }

  lemma RemovalStep(w: State, actor: nat, c: QueueCandidate)
    requires Arises(w) && RemovesNext(PcOf(w, actor), c)
    ensures Consistent(w.queue) && Observed(w.queue, c)
    ensures Step(w, World.RemoveObserved(actor))
         == Goto(w.(queue := Removed(w.queue, c)), actor, AfterRemoval(PcOf(w, actor)))
  {
    ArisesInv(w);
    CurrentPc(w, actor);
  }

  lemma CurrentToken(q: QueueState, id: JobId)
    requires Consistent(q) && id in q.entries
    ensures FromMember(q.entries[id]).Parsed?
    ensures var c := FromMember(q.entries[id]).candidate; c.jobId == id && c.member == q.entries[id]
  {
    assert IsQueued(q, id);
    TokenParses(q.entries[id], id, q.sequence);
  }

  lemma LookUpStep(w: State, actor: nat, id: JobId)
    requires Arises(w) && PcOf(w, actor) == Cancelling(id)
    ensures var w' := Step(w, CancelLookup(actor));
            if id in w.queue.entries then
              && FromMember(w.queue.entries[id]).Parsed?
              && var c := FromMember(w.queue.entries[id]).candidate;
                 && c.jobId == id && c.member == w.queue.entries[id]
                 && w' == Goto(w, actor, Uncancelling(c))
            else w' == Goto(w, actor, Idle)
  {
    assert Consistent(w.queue) by { ArisesInv(w); }
    if id in w.queue.entries {
      CurrentToken(w.queue, id);
    }
  }

  function PublishMove(p: Publication, reply: PublishReply): Move {
    match reply
    case Acknowledged => Publish(p)
    case Unacknowledged => PublishUnacknowledged(p)
    case NeverRan => PublishFails(p)
  }

  lemma PublishStep(w: State, p: Publication, reply: PublishReply)
    requires Arises(w) && p in w.publishing && w.queue.sequence < EXACT_DOUBLES
    ensures var w' := Step(w, PublishMove(p, reply));
            && w'.store == w.store && w'.actors == w.actors
            && w'.publishing == w.publishing - {p}
            && w'.landed == w.landed + (if reply.NeverRan? then {} else {p})
            && w'.lost == w.lost + (if reply.Acknowledged? then {} else {p})
            && w'.queue == (if reply.NeverRan? then w.queue else Enqueued(w.queue, p.id, p.priority))
            && p !in w.landed
            && (reply.NeverRan? || IsQueued(w'.queue, p.id))
  {
    assert Consistent(w.queue) && p !in w.landed by { ArisesInv(w); }
    EnqueuedQueued(w.queue, p.id, p.priority, p.id);
  }

  lemma RetryOwes(w: State, id: JobId)
    requires Arises(w) && id in w.store.rows && Retriable(w.store.rows[id])
    ensures var w' := Step(w, Commit(Retry(id)));
            && id in w'.store.rows && id in w'.store.past
            && PublicationOf(w'.store, id) in w'.publishing
  {
    ArisesInv(w);
    OwesAfterRetry(w.store, id);
  }

  lemma OwesAfterRetry(s: Store, id: JobId)
    requires s.rows.Keys == s.past.Keys && id in s.rows && Retriable(s.rows[id])
    ensures id in Next(s, Retry(id)).rows && id in Next(s, Retry(id)).past
    ensures PublicationOf(Next(s, Retry(id)), id) in Owed(s, Retry(id))
  {
    assert Next(s, Retry(id)).past[id] == More(s.past[id], Retried(s.now));
    LongerDiffers(s.past[id], Retried(s.now));
  }

  // ----- Activating a batch -----

  function Commits(batch: seq<JobId>): seq<Move> {
    seq(|batch|, i requires 0 <= i < |batch| => Commit(Activate(batch[i])))
  }

  lemma ActivationOwes(s: Store, id: JobId)
    requires s.rows.Keys == s.past.Keys && id in s.rows && IsDue(s.rows[id], s.now)
    ensures var s' := Next(s, Activate(id));
            && s'.rows == s.rows[id := ActivateValues(s.rows[id])]
            && s'.past == s.past[id := More(s.past[id], Activated(s.now))]
            && PublicationOf(s', id) in Owed(s, Activate(id))
  {
    LongerDiffers(s.past[id], Activated(s.now));
  }

  // After a batch was activated, each of its jobs is owed an enqueue, and nothing else of the system moved.
  ghost predicate BatchOwed(w: State, batch: seq<JobId>, w': State) {
    && w'.store == Run(w.store, Activations(batch))
    && w'.queue == w.queue && w'.actors == w.actors
    && forall id | id in batch ::
         id in w'.store.rows && id in w'.store.past && PublicationOf(w'.store, id) in w'.publishing
  }

  lemma BatchOwedOneMore(w: State, before: seq<JobId>, w': State, id: JobId)
    requires BatchOwed(w, before, w') && w'.store.rows.Keys == w'.store.past.Keys && id !in before
    requires id in w'.store.rows && IsDue(w'.store.rows[id], w'.store.now)
    ensures BatchOwed(w, before + [id], Step(w', Commit(Activate(id))))
  {
    ActivationsAppend(w.store, before, id);
    ActivationOwes(w'.store, id);
  }

  lemma CommitsAppend(w: State, before: seq<JobId>, id: JobId)
    ensures Play(w, Commits(before + [id])) == Step(Play(w, Commits(before)), Commit(Activate(id)))
  {
    assert Commits(before + [id]) == Commits(before) + [Commit(Activate(id))];
    PlayOneMore(w, Commits(before), Commit(Activate(id)));
  }

  lemma StillDue(s: Store, before: seq<JobId>, id: JobId)
    requires Inv(s) && Distinct(before) && AllDue(s, before)
    requires id in s.rows && IsDue(s.rows[id], s.now) && id !in before
    ensures var s' := Run(s, Activations(before));
            id in s'.rows && IsDue(s'.rows[id], s'.now) && s'.rows.Keys == s'.past.Keys
  {
    ActivatesEach(s, before);
  }

  lemma {:induction false} ActivatedBatchOwed(w: State, batch: seq<JobId>)
    requires Inv(w.store) && Distinct(batch) && AllDue(w.store, batch)
    ensures BatchOwed(w, batch, Play(w, Commits(batch)))
  {
    if batch != [] {
      var before, last := batch[..|batch| - 1], batch[|batch| - 1];
      SplitLast(batch);
      ActivatedBatchOwed(w, before);
      StillDue(w.store, before, last);
      var w' := Play(w, Commits(before));
      BatchOwedOneMore(w, before, w', last);
      CommitsAppend(w, before, last);
    }
  }

  lemma NextKeepsKnown(s: Store, action: Action, a: Attempt)
    requires Reachable(s) && Known(s, a)
    ensures Known(Next(s, action), a)
  {
    PastStep(s, action, a.jobId);
  }

  lemma ExtendKept(s: Store, a: Attempt, lease: int)
    requires Reachable(s) && Known(s, a)
    ensures Known(Next(s, Action.Extend(a, lease)), a) && Next(s, Action.Extend(a, lease)).now == s.now
    ensures if Owns(s, a) then HoldsLease(Next(s, Action.Extend(a, lease)), a, s.now, lease)
            else Next(s, Action.Extend(a, lease)) == s
  {
    NextKeepsKnown(s, Action.Extend(a, lease), a);
  }

  // ----- Sweeping a batch -----

  function RecoveryCommits(batch: seq<JobId>): seq<Move> {
    seq(|batch|, i requires 0 <= i < |batch| => Commit(Recover(batch[i])))
  }

  // A sweep changes the table only: it owes no enqueue and touches no entry.
  lemma {:induction false} RecoveriesOweNothing(w: State, batch: seq<JobId>)
    ensures Play(w, RecoveryCommits(batch)) == w.(store := Run(w.store, Recoveries(batch)))
  {
    if batch != [] {
      var before, last := batch[..|batch| - 1], batch[|batch| - 1];
      RecoveriesOweNothing(w, before);
      assert batch == before + [last];
      assert RecoveryCommits(batch) == RecoveryCommits(before) + [Commit(Recover(last))];
      PlayOneMore(w, RecoveryCommits(before), Commit(Recover(last)));
      RecoveriesAppend(w.store, before, last);
    }
  }

  // ----- Answers -----

  // What create_job returns or raises.
  datatype CreateResult =
    | NewJob(id: JobId, row: Row)
    | ExistingJob(id: JobId)
    | IntegrityError

  // The job holds the key, and was built less than 24 hours ago.
  predicate HoldsWithinWindow(s: Store, id: JobId, key: string) {
    Holds(s, id, key) && id in s.past && s.now < BuiltAt(s.past[id]) + 24 * 3600 * SECOND
  }

  /**
   What an answer of create_job says of the table `s` it leaves; `seen` is the table just
   before the transaction that decided. A key's live holder is returned instead of a new
   job; an error means an id collision, or a lost race whose winner's window has closed.
   */
  ghost predicate CreateAnswered(seen: Store, s: Store, answer: CreateResult, id: JobId, jobType: string,
                                 priority: int, scheduledAt: Option<Time>, key: Option<string>)
  {
    match answer
    case NewJob(j, row) =>
      && j == id && id !in seen.rows && KeyFree(seen, key, seen.now)
      && s == Next(seen, Create(id, jobType, priority, scheduledAt, key, seen.now, seen.now))
      && row == BuildJob(jobType, priority, scheduledAt, key, s.now, s.now)
      && id in s.rows && s.rows[id] == row
      && (key.Some? ==> forall j | Holds(s, j, key.value) :: j == id)
    case ExistingJob(j) =>
      && seen == s && key.Some? && HoldsWithinWindow(s, j, key.value)
    case IntegrityError =>
      && seen == s
      && (id in s.rows
          || (key.Some? && KeyHeld(s.rows, key.value) && KeyFree(s, key, s.now)))
  }

  datatype MutationResult =
    | Done(row: Row)
    | NotFound
    | Conflict(status: JobStatus)

  // A job at the beginning of a new cycle: as submitted, and due at once.
  function StartedOver(r: Row): Row {
    r.(status := PENDING, attemptCount := 0, progress := 0, error := None, result := None, completedAt := None,
       startedAt := None, scheduledAt := None)
  }

  // How a publish ended: the script ran or not, and the caller heard of it or not.
  datatype PublishReply = Acknowledged | Unacknowledged | NeverRan

  class Deployment {
    const table: JobTable
    const queue: ReadyQueue
    // Nobody but the caller acts.
    ghost const alone: bool
    ghost var log: seq<Move>
    ghost var world: State

    // The table and the queue are what the moves made so far have left.
    ghost predicate Tied()
      reads this, table, queue
    {
      && world == Play(EMPTY_STATE, log)
      && table.State() == world.store
      && queue.State() == world.queue
    }

    constructor (ghost alone: bool)
      ensures Tied() && fresh(table) && fresh(queue) && this.alone == alone
    {
      this.alone := alone;
      table := new JobTable();
      queue := new ReadyQueue();
      log, world := [], EMPTY_STATE;
    }

    /** Whatever has happened, every guarantee of the composed system holds of the real table and queue. */
    lemma TiedSound()
      requires Tied()
      ensures Arises(world) && StateInv(world) && PublishInv(world)
      ensures table.Valid() && Consistent(queue.State())
    {
      assert Arises(world);
      ArisesInv(world);
      QueueNeverCorruptsTable(log);
    }

    lemma TiedArises()
      requires Tied()
      ensures Arises(world) && table.Valid()
    {
      assert Arises(world);
      QueueNeverCorruptsTable(log);
    }

    ghost method Take(move: Move)
      requires world == Play(EMPTY_STATE, log)
      modifies this`log, this`world
      ensures log == old(log) + [move] && world == Step(old(world), move)
      ensures world == Play(EMPTY_STATE, log)
    {
      PlayOneMore(EMPTY_STATE, log, move);
      log := log + [move];
      world := Step(world, move);
    }

    /** A PENDING job in the real table is in the real queue, unless its own enqueue never ran. */
    lemma NoHiddenJob(id: JobId)
      requires Tied() && id in table.rows && table.rows[id].status == PENDING
      ensures id in world.store.rows && id in world.store.past
      ensures || IsQueued(queue.State(), id)
              || PublicationOf(world.store, id) in world.publishing + world.lost - world.landed
    {
      TiedSound();
      NoInvisibleWork(world, id);
    }

    ghost method TakeAll(moves: seq<Move>)
      requires world == Play(EMPTY_STATE, log)
      modifies this`log, this`world
      ensures log == old(log) + moves && world == Play(old(world), moves)
      ensures world == Play(EMPTY_STATE, log)
    {
      PlayAppend(EMPTY_STATE, log, moves);
      log := log + moves;
      world := Play(world, moves);
    }

    // So many more enqueues stay within the exact doubles.
    ghost predicate HasRoom(room: nat)
      reads queue
    {
      room > 0 ==> queue.sequence + room <= EXACT_DOUBLES
    }

    // Everybody else, between two steps of the caller; they leave room for the caller's own enqueues.
    method Interfere(ghost mine: Mine, ghost room: nat)
      requires Tied() && HasRoom(room)
      modifies this, table, queue
      ensures Tied() && HasRoom(room)
      ensures OnlyOthers(old(log), log, mine)
      ensures alone ==> log == old(log)
    {
    }

    method Others(ghost mine: Mine, ghost room: nat)
      requires Tied() && HasRoom(room)
      modifies this, table, queue
      ensures Tied() && HasRoom(room)
      ensures OnlyOthers(old(log), log, mine) && Untouched(old(world), world, mine)
      ensures EvolvesBeside(old(table.State()), table.State(), mine.task)
      ensures alone ==> log == old(log) && world == old(world)
    {
      Interfere(mine, room);
      OthersLeaveUntouched(old(log), log, mine);
      OthersEvolveBeside(old(log), log, mine);
    }

    // ----- Single steps of a runner -----

    method Peek(actor: nat) returns (candidate: Option<QueueCandidate>)
      requires Tied() && PcOf(world, actor).Idle?
      modifies this`log, this`world
      ensures Tied() && log == old(log) + [World.Peek(actor)]
      ensures candidate.None? <==> queue.ready == []
      ensures candidate.None? ==> PcOf(world, actor).Idle?
      ensures candidate.Some? ==>
                && PcOf(world, actor) == Peeked(candidate.value)
                && FromMember(queue.ready[0].member) == Parsed(candidate.value)
      ensures candidate == FirstServed(old(log))
      ensures candidate.Some? ==> AheadOfAll(world, candidate.value)
    {
      TiedArises();
      PeekStep(world, actor);
      HeadIsFirstServed(log);
      var peeked := queue.Peek();
      candidate := if peeked.Some? then Some(peeked.value.candidate) else None;
      if candidate.Some? {
        HeadIsAhead(log, candidate.value);
      }
      Take(World.Peek(actor));
    }

    method ClaimPeeked(actor: nat, c: QueueCandidate, worker: WorkerId, token: Token, lease: int)
      returns (job: Option<Row>)
      requires Tied() && PcOf(world, actor) == Peeked(c) && token !in world.store.minted
      modifies this, table
      ensures Tied() && log == old(log) + [World.ClaimPeeked(actor, worker, token, lease)]
      ensures world == Step(old(world), World.ClaimPeeked(actor, worker, token, lease))
      ensures table.State() == Next(old(table.State()), Claim(c.jobId, worker, token, lease))
      ensures job.Some? <==> HasStatus(old(table.rows), c.jobId, {PENDING})
      ensures job.None? ==> table.State() == old(table.State()) && PcOf(world, actor) == Refused(c)
      ensures job.Some? ==>
                && AttemptOf(c.jobId, job.value).Some?
                && var a := AttemptOf(c.jobId, job.value).value;
                   && a.executionToken == token && a.workerId == worker && a.jobId == c.jobId
                   && Known(table.State(), a) && Owns(table.State(), a) && PcOf(world, actor) == Cleaning(c, a)
    {
      TiedArises();
      PendingIsClaimable(table.State(), c.jobId);
      job := table.ClaimJob(c.jobId, worker, token, lease);
      Take(World.ClaimPeeked(actor, worker, token, lease));
    }

    method Reread(actor: nat, c: QueueCandidate) returns (claimable: bool)
      requires Tied() && PcOf(world, actor) == Refused(c)
      modifies this`log, this`world
      ensures Tied() && log == old(log) + [World.Reread(actor)] && world == Step(old(world), World.Reread(actor))
      ensures claimable <==> HasStatus(table.rows, c.jobId, {PENDING})
      ensures PcOf(world, actor) == if claimable then Idle else Discarding(c)
    {
      TiedArises();
      PendingIsClaimable(table.State(), c.jobId);
      claimable := c.jobId in table.rows && Claimable(table.rows[c.jobId]);
      Take(World.Reread(actor));
    }

    // The three places that remove the exact entry they observed.
    method RemoveObserved(actor: nat, c: QueueCandidate) returns (removed: bool)
      requires Tied()
      requires RemovesNext(PcOf(world, actor), c)
      modifies this`log, this`world, queue
      ensures Tied() && log == old(log) + [World.RemoveObserved(actor)]
      ensures queue.State() == Removed(old(queue.State()), c) && queue.sequence == old(queue.sequence)
      ensures removed <==> c.jobId in old(queue.entries) && old(queue.entries)[c.jobId] == c.member
      ensures queue.entries == if removed then old(queue.entries) - {c.jobId} else old(queue.entries)
      ensures !removed ==> queue.State() == old(queue.State())
      ensures PcOf(world, actor) == AfterRemoval(old(PcOf(world, actor)))
    {
      TiedArises();
      RemovalStep(world, actor, c);
      removed := queue.Remove(c);
      Take(World.RemoveObserved(actor));
    }

    // The owner's own writes that end its attempt.
    method Complete(a: Attempt, result: string) returns (job: Option<Row>)
      requires Tied() && Known(table.State(), a)
      modifies this`log, this`world, table
      ensures Tied() && log == old(log) + [Commit(Action.Complete(a, result))]
      ensures queue.State() == old(queue.State()) && world.actors == old(world.actors)
      ensures table.State() == Next(old(table.State()), Action.Complete(a, result))
      ensures job.Some? <==> Owns(old(table.State()), a)
      ensures job.Some? ==>
                && a.jobId in table.rows && table.rows[a.jobId] == job.value
                && job.value.status == COMPLETED && job.value.result == Some(result)
      ensures !Owns(table.State(), a)
    {
      TiedArises();
      job := table.CompleteJob(a, result);
      Take(Commit(Action.Complete(a, result)));
    }

    method Fail(a: Attempt, error: string) returns (r: FailureResult)
      requires Tied() && Known(table.State(), a)
      modifies this`log, this`world, table
      ensures Tied() && log == old(log) + [Commit(Action.Fail(a, error))]
      ensures queue.State() == old(queue.State()) && world.actors == old(world.actors)
      ensures table.State() == Next(old(table.State()), Action.Fail(a, error))
      ensures r.OwnershipLost? <==> !Owns(old(table.State()), a)
      ensures r.Recorded? ==>
                && a.jobId in table.rows && table.rows[a.jobId] == r.row
                && r.row.status == (if r.row.attemptCount < r.row.maxAttempts then SCHEDULED else FAILED)
                && r.row.error == Some(error)
      ensures !Owns(table.State(), a)
    {
      TiedArises();
      r := table.FailAttempt(a, error);
      Take(Commit(Action.Fail(a, error)));
    }

    // ----- What the tasks of an attempt write -----

    method Extend(a: Attempt, lease: int) returns (extended: Option<Time>)
      requires Tied() && Known(table.State(), a)
      modifies this`log, this`world, table
      ensures Tied() && log == old(log) + [Commit(Action.Extend(a, lease))] && queue.State() == old(queue.State())
      ensures world.actors == old(world.actors)
      ensures table.State() == Next(old(table.State()), Action.Extend(a, lease))
      ensures table.now == old(table.now) && Known(table.State(), a)
      ensures extended == if Owns(old(table.State()), a) then Some(table.now + lease) else None
      ensures extended.Some? ==> HoldsLease(table.State(), a, table.now, lease)
      ensures extended.None? ==> table.State() == old(table.State())
    {
      TiedArises();
      ExtendKept(world.store, a, lease);
      extended := table.ExtendLease(a, lease);
      Take(Commit(Action.Extend(a, lease)));
    }

    method Report(a: Attempt, progress: int) returns (owned: bool)
      requires Tied() && Known(table.State(), a)
      modifies this`log, this`world, table
      ensures Tied() && log == old(log) + [Commit(Progress(a, progress))] && queue.State() == old(queue.State())
      ensures world.actors == old(world.actors)
      ensures table.State() == Next(old(table.State()), Progress(a, progress))
      ensures Known(table.State(), a)
      ensures owned <==> Owns(old(table.State()), a)
      ensures owned ==> Owns(table.State(), a) && table.rows[a.jobId].progress == ClampedProgress(progress)
      ensures !owned ==> table.State() == old(table.State())
    {
      TiedArises();
      NextKeepsKnown(world.store, Progress(a, progress), a);
      owned := table.UpdateProgress(a, progress);
      Take(Commit(Progress(a, progress)));
    }

    // ----- Publishing -----

    // One enqueue that a commit has left owed, with the reply it gets.
    method PublishOwed(ghost p: Publication, id: JobId, priority: int, reply: PublishReply)
      requires Tied() && p in world.publishing && p.id == id && p.priority == priority
      requires HasRoom(1)
      modifies this`log, this`world, queue
      ensures Tied() && world.store == old(world.store) && world.actors == old(world.actors)
      ensures log == old(log) + [PublishMove(p, reply)]
      ensures world.publishing == old(world.publishing) - {p}
      ensures p !in old(world.landed)
      ensures world.landed == old(world.landed) + if reply.NeverRan? then {} else {p}
      ensures world.lost == old(world.lost) + if reply.Acknowledged? then {} else {p}
      ensures queue.State() == if reply.NeverRan? then old(queue.State())
                               else Enqueued(old(queue.State()), id, priority)
      ensures reply.NeverRan? || IsQueued(queue.State(), id)
    {
      TiedArises();
      PublishStep(world, p, reply);
      if !reply.NeverRan? {
        var _ := queue.Enqueue(id, priority);
      }
      Take(PublishMove(p, reply));
    }

    // ----- create_job and submit_job -----

    method Insert(id: JobId, jobType: string, priority: int, scheduledAt: Option<Time>, key: Option<string>)
      returns (answer: InsertResult)
      requires Tied()
      modifies this`log, this`world, table
      ensures Tied() && queue.State() == old(queue.State())
      ensures log == old(log) + [Commit(Create(id, jobType, priority, scheduledAt, key, table.now, table.now))]
      ensures table.State()
           == Next(old(table.State()), Create(id, jobType, priority, scheduledAt, key, table.now, table.now))
      ensures answer.Inserted? <==> id !in old(table.rows) && KeyFree(old(table.State()), key, table.now)
      ensures answer.IdTaken? <==> id in old(table.rows)
      ensures answer.Inserted? ==>
                && id in table.rows && id in table.past
                && table.rows[id] == BuildJob(jobType, priority, scheduledAt, key, table.now, table.now)
                && (key.Some? ==> forall j | Holds(table.State(), j, key.value) :: j == id)
                && (table.rows[id].status == PENDING ==> PublicationOf(table.State(), id) in world.publishing)
      ensures !answer.Inserted? ==> table.State() == old(table.State())
      ensures answer.KeyTaken? ==>
                key.Some? && KeyHeld(table.rows, key.value) && !KeyFree(table.State(), key, table.now)
    {
      TiedArises();
      answer := table.InsertJob(id, jobType, priority, scheduledAt, key);
      Take(Commit(Create(id, jobType, priority, scheduledAt, key, table.now, table.now)));
    }

    // Left alone: the key's own submissions decide, then the id.
    ghost predicate LoneAnswer(s: Store, answer: CreateResult, id: JobId, key: Option<string>) {
      if !KeyFree(s, key, s.now) then answer.ExistingJob?
      else if id in s.rows then answer.IntegrityError?
      else answer.NewJob?
    }

    // A new job's commit is the last move so far, and owes an enqueue if the job is PENDING.
    ghost predicate JustCreated(answer: CreateResult, seen: Store)
      reads this
    {
      answer.NewJob? ==>
        && log != [] && seen == Play(EMPTY_STATE, log[..|log| - 1]).store
        && (answer.row.status == PENDING ==>
              && answer.id in world.store.rows && answer.id in world.store.past
              && PublicationOf(world.store, answer.id) in world.publishing)
    }

    /** create_job with everybody else running between its statements. */
    method CreateJob(id: JobId, jobType: string, priority: int, scheduledAt: Option<Time>, key: Option<string>)
      returns (answer: CreateResult, ghost seen: Store)
      requires Tied() && HasRoom(1)
      modifies this, table, queue
      ensures Tied() && HasRoom(1) && old(log) <= log
      ensures CreateAnswered(seen, table.State(), answer, id, jobType, priority, scheduledAt, key)
      ensures JustCreated(answer, seen) && (answer.NewJob? ==> |old(log)| < |log|)
      ensures alone ==> queue.State() == old(queue.State())
      ensures alone && !answer.NewJob? ==> table.State() == old(table.State())
      ensures alone ==> LoneAnswer(old(table.State()), answer, id, key)
    {
      TiedArises();
      if key.Some? {
        var existing := table.FindActiveByKey(key.value);
        if existing.Some? {
          return ExistingJob(existing.value), table.State();
        }
        Others(NOTHING, 1);
      }
      answer, seen := InsertOrLoad(id, jobType, priority, scheduledAt, key);
    }

    // The insert, and what its rejection by an index leads to.
    method InsertOrLoad(id: JobId, jobType: string, priority: int, scheduledAt: Option<Time>, key: Option<string>)
      returns (answer: CreateResult, ghost seen: Store)
      requires Tied() && HasRoom(1)
      modifies this, table, queue
      ensures Tied() && HasRoom(1) && old(log) <= log && |old(log)| < |log|
      ensures CreateAnswered(seen, table.State(), answer, id, jobType, priority, scheduledAt, key)
      ensures JustCreated(answer, seen)
      ensures log[|old(log)|] == Commit(Create(id, jobType, priority, scheduledAt, key, old(table.now), old(table.now)))
      ensures !answer.NewJob? ==> Play(EMPTY_STATE, log[..|old(log)| + 1]).store == old(table.State())
      ensures alone ==> queue.State() == old(queue.State())
      ensures alone && !answer.NewJob? ==> table.State() == old(table.State())
      ensures alone && KeyFree(old(table.State()), key, old(table.now)) ==>
                LoneAnswer(old(table.State()), answer, id, key)
    {
      seen := table.State();
      var inserted := Insert(id, jobType, priority, scheduledAt, key);
      assert log[..|log| - 1] == old(log);
      ghost var tried := log;
      assert !inserted.Inserted? ==> Play(EMPTY_STATE, tried).store == old(table.State());
      match inserted {
        case Inserted =>
          answer := NewJob(id, table.rows[id]);
        case IdTaken =>
          answer := IntegrityError;
        case KeyTaken =>
          answer := LoadWinner(key.value);
          seen := table.State();
      }
      assert log[..|tried|] == tried;
    }

    // The insert lost the race for the key; the winner's window may have closed since.
    method LoadWinner(key: string) returns (answer: CreateResult)
      requires Tied() && HasRoom(1) && KeyHeld(table.rows, key)
      modifies this, table, queue
      ensures Tied() && HasRoom(1) && old(log) <= log
      ensures match answer
              case NewJob(_, _) => false
              case ExistingJob(j) => HoldsWithinWindow(table.State(), j, key)
              case IntegrityError => KeyHeld(table.rows, key) && KeyFree(table.State(), Some(key), table.now)
      ensures alone ==> table.State() == old(table.State()) && queue.State() == old(queue.State())
    {
      Others(NOTHING, 1);
      KeyHeldForGood(old(log), log, key);
      TiedArises();
      var winner := table.FindActiveByKey(key);
      answer := if winner.Some? then ExistingJob(winner.value) else IntegrityError;
    }

    /**
     create_job, then the publish of what it created. `made` is the table as create_job left
     it, of which its answer speaks. Only a new PENDING job is published, at its own
     priority, and a failed publish leaves it committed.
     */
    method SubmitJob(id: JobId, jobType: string, priority: int, scheduledAt: Option<Time>, key: Option<string>,
                     reply: PublishReply)
      returns (answer: CreateResult, ghost seen: Store, ghost made: Store, ghost owed: Option<Publication>)
      requires Tied() && HasRoom(1)
      modifies this, table, queue
      ensures Tied() && old(log) <= log
      ensures CreateAnswered(seen, made, answer, id, jobType, priority, scheduledAt, key)
      ensures if owed.None? then table.State() == made else made.rows.Keys <= table.rows.Keys
      ensures owed.Some? <==> answer.NewJob? && answer.row.status == PENDING
      ensures owed.Some? ==>
                && owed.value.id == id && owed.value.priority == priority
                && owed.value !in world.publishing
                && (owed.value in world.landed <==> !reply.NeverRan?)
                && (reply.NeverRan? || IsQueued(queue.State(), id))
      ensures alone ==>
                && table.State() == made && (answer.NewJob? || table.State() == old(table.State()))
                && LoneAnswer(old(table.State()), answer, id, key)
                && queue.State() == if owed.Some? && !reply.NeverRan?
                                    then Enqueued(old(queue.State()), id, priority) else old(queue.State())
    {
      owed := None;
      answer, seen := CreateJob(id, jobType, priority, scheduledAt, key);
      made := table.State();
      if answer.NewJob? && answer.row.status == PENDING {
        ghost var p := PublicationOf(world.store, id);
        Others(Mine({}, {p}, {}, NoTask), 1);
        PublishOwed(p, id, answer.row.priority, reply);
        owed := Some(p);
      }
    }

    // ----- cancel_job -----

    method CommitCancel(actor: nat, id: JobId) returns (job: Option<Row>)
      requires Tied() && PcOf(world, actor).Idle?
      modifies this`log, this`world, table
      ensures Tied() && log == old(log) + [CancelCommit(actor, id)] && queue.State() == old(queue.State())
      ensures table.State() == Next(old(table.State()), Cancel(id))
      ensures job == if HasStatus(old(table.rows), id, {PENDING, SCHEDULED})
                     then Some(old(table.rows)[id].(status := CANCELLED)) else None
      ensures job.Some? ==> IsCancelled(world.store, id) && PcOf(world, actor) == Cancelling(id)
      ensures job.None? ==> PcOf(world, actor).Idle? && table.State() == old(table.State())
    {
      TiedArises();
      job := table.MarkCancelled(id);
      Take(CancelCommit(actor, id));
    }

    method LookUp(actor: nat, id: JobId) returns (candidate: Option<QueueCandidate>)
      requires Tied() && PcOf(world, actor) == Cancelling(id)
      modifies this`log, this`world
      ensures Tied() && log == old(log) + [CancelLookup(actor)]
      ensures candidate.Some? <==> id in queue.entries
      ensures candidate.Some? ==>
                && candidate.value.jobId == id && candidate.value.member == queue.entries[id]
                && PcOf(world, actor) == Uncancelling(candidate.value)
      ensures candidate.None? ==> PcOf(world, actor).Idle?
    {
      TiedArises();
      LookUpStep(world, actor, id);
      var member := queue.CurrentMember(id);
      candidate := if member.Some? then Some(FromMember(member.value).candidate) else None;
      Take(CancelLookup(actor));
    }

    /**
     remove_current with others between its two steps: the entry found is gone, an entry
     that replaced it in between is not touched.
     */
    method RemoveCurrent(actor: nat, id: JobId) returns (removed: bool, ghost met: QueueState)
      requires Tied() && PcOf(world, actor) == Cancelling(id)
      modifies this, table, queue
      ensures Tied() && old(log) <= log && PcOf(world, actor).Idle?
      ensures alone ==> met == old(queue.State()) && table.State() == old(table.State())
      ensures if id !in old(queue.entries) then !removed && queue.State() == met else
                var token := old(queue.entries)[id];
                && (removed <==> id in met.entries && met.entries[id] == token)
                && queue.entries == (if removed then met.entries - {id} else met.entries)
                && (removed ==> queue.ready == ZRem(met.ready, token))
                && (!removed ==> queue.State() == met)
      ensures id in old(queue.entries) && id in queue.entries ==> queue.entries[id] != old(queue.entries)[id]
    {
      var candidate := LookUp(actor, id);
      if candidate.None? {
        return false, queue.State();
      }
      Others(Mine({actor}, {}, {}, NoTask), 0);
      met := queue.State();
      removed := RemoveObserved(actor, candidate.value);
    }

    // The cleanup after a committed cancellation. It may fail; the cancellation stands.
    method RemoveReadyEntry(actor: nat, id: JobId, redisUp: bool)
      requires Tied() && PcOf(world, actor) == Cancelling(id)
      requires IsCancelled(world.store, id)
      modifies this, table, queue
      ensures Tied() && old(log) <= log && PcOf(world, actor).Idle?
      ensures IsCancelled(table.State(), id)
      ensures alone ==>
                && table.State() == old(table.State())
                && queue.entries == if redisUp then old(queue.entries) - {id} else old(queue.entries)
    {
      Others(Mine({actor}, {}, {}, NoTask), 0);
      if redisUp {
        var _, _ := RemoveCurrent(actor, id);
      } else {
        Take(Crash(actor));
      }
      CancelledForGood(old(log), log, id);
    }

    /**
     cancel_job with others running at every cut. The row decides; a failed cleanup, in
     `redisUp`, changes nothing about the answer, and a job reported cancelled stays so.
     */
    method CancelJob(actor: nat, id: JobId, redisUp: bool) returns (answer: MutationResult)
      requires Tied() && PcOf(world, actor).Idle?
      modifies this, table, queue
      ensures Tied() && old(log) <= log && PcOf(world, actor).Idle?
      ensures if HasStatus(old(table.rows), id, {PENDING, SCHEDULED})
              then answer == Done(old(table.rows)[id].(status := CANCELLED))
              else answer == if id !in table.rows then NotFound
                             else if IsCancelled(table.State(), id) then Done(table.rows[id])
                             else Conflict(table.rows[id].status)
      ensures answer.Done? ==> IsCancelled(table.State(), id)
      ensures alone ==>
                && table.State() == Next(old(table.State()), Cancel(id))
                && queue.entries == (if HasStatus(old(table.rows), id, {PENDING, SCHEDULED}) && redisUp
                                     then old(queue.entries) - {id} else old(queue.entries))
    {
      var job := CommitCancel(actor, id);
      if job.Some? {
        RemoveReadyEntry(actor, id, redisUp);
        return Done(job.value);
      }
      Others(Mine({actor}, {}, {}, NoTask), 0);
      if id !in table.rows {
        return NotFound;
      }
      answer := if table.rows[id].status == CANCELLED then Done(table.rows[id]) else Conflict(table.rows[id].status);
    }

    // ----- retry_job -----

    method CommitRetry(id: JobId) returns (job: Option<Row>)
      requires Tied()
      modifies this`log, this`world, table
      ensures Tied() && log == old(log) + [Commit(Retry(id))] && queue.State() == old(queue.State())
      ensures world.actors == old(world.actors)
      ensures table.State() == Next(old(table.State()), Retry(id))
      ensures job == if HasStatus(old(table.rows), id, {FAILED}) then Some(StartedOver(old(table.rows)[id])) else None
      ensures job.Some? ==>
                && id in table.rows && table.rows[id] == job.value && id in table.past
                && PublicationOf(world.store, id) in world.publishing
      ensures job.None? ==> table.State() == old(table.State())
    {
      TiedArises();
      if id in table.rows && Retriable(table.rows[id]) {
        RetryOwes(world, id);
      }
      job := table.MarkRetried(id);
      Take(Commit(Retry(id)));
    }

    /**
     retry_job with others running at every cut: a FAILED job starts a new cycle at once
     and is published for it, whatever becomes of the publish; any other job is refused.
     */
    method RetryJob(id: JobId, reply: PublishReply) returns (answer: MutationResult, ghost owed: Option<Publication>)
      requires Tied() && HasRoom(1)
      modifies this, table, queue
      ensures Tied() && old(log) <= log
      ensures owed.Some? <==> id in old(table.rows) && old(table.rows)[id].status == FAILED
      ensures if owed.Some?
              then answer == Done(StartedOver(old(table.rows)[id]))
              else answer == if id !in table.rows then NotFound else Conflict(table.rows[id].status)
      ensures owed.Some? ==>
                && owed.value.id == id && owed.value.priority == old(table.rows)[id].priority
                && owed.value !in world.publishing
                && (owed.value in world.landed <==> !reply.NeverRan?)
                && (reply.NeverRan? || IsQueued(queue.State(), id))
      ensures alone ==>
                && table.State() == Next(old(table.State()), Retry(id))
                && queue.State() == if owed.Some? && !reply.NeverRan?
                                    then Enqueued(old(queue.State()), id, old(table.rows)[id].priority)
                                    else old(queue.State())
    {
      owed := None;
      var job := CommitRetry(id);
      if job.None? {
        Others(NOTHING, 0);
        answer := if id !in table.rows then NotFound else Conflict(table.rows[id].status);
        return;
      }
      ghost var p := PublicationOf(world.store, id);
      Others(Mine({}, {p}, {}, NoTask), 1);
      PublishOwed(p, id, job.value.priority, reply);
      owed := Some(p);
      answer := Done(job.value);
    }

    // ----- activate_due_scheduled_jobs -----

    method ActivateBatch(limit: nat, locked: set<JobId>) returns (activated: seq<JobId>)
      requires Tied()
      modifies this`log, this`world, table
      ensures Tied() && log == old(log) + Commits(activated)
      ensures queue.State() == old(queue.State())
      ensures IsSelection(DueKeys(old(table.rows), old(table.now), locked), limit, activated)
      ensures TookFirstDue(old(table.rows), old(table.now), locked, limit, activated)
      ensures MadePending(old(table.rows), activated, table.rows)
      ensures table.rows == ActivatedRows(old(table.rows), activated, table.now) && table.now == old(table.now)
      ensures BatchOwed(old(world), activated, world)
      ensures forall id | id in activated :: id in old(table.rows) && id in table.rows && id in table.past
    {
      TiedArises();
      ReachableInv(world.store);
      activated := table.ActivateDueScheduledJobs(limit, locked);
      ActivatedBatchOwed(world, activated);
      TakeAll(Commits(activated));
    }

    // ----- recover_expired_leases -----

    // One sweep: the table changes as RecoverExpiredLeases says, and nothing is published.
    method RecoverBatch(limit: nat, locked: set<JobId>) returns (recovered: seq<JobId>)
      requires Tied()
      modifies this`log, this`world, table
      ensures Tied() && log == old(log) + RecoveryCommits(recovered)
      ensures world == old(world).(store := table.State()) && queue.State() == old(queue.State())
      ensures IsBatch(ExpiredKeys(old(table.rows), old(table.now), locked), limit, recovered)
      ensures TookFirstOver(old(table.rows), old(table.now), locked, limit, recovered)
      ensures SweptTo(old(table.State()), recovered, table.State()) && table.now == old(table.now)
      ensures |ExpiredSet(table.State())| == |ExpiredSet(old(table.State()))| - |recovered|
    {
      TiedArises();
      recovered := table.RecoverExpiredLeases(limit, locked);
      RecoveriesOweNothing(world, recovered);
      TakeAll(RecoveryCommits(recovered));
    }
  }
}
