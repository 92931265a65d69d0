/**
 The job table and the ready queue together. Every service call is cut at its commits:
 publishers commit and then enqueue, runners peek, claim, re-read and remove, cancellers
 commit, look up a token and remove it. Any of them may stop between two steps.
 */
module World {
  import opened Jobs
  import opened Statements
  import opened Histories
  import opened Protocol
  import opened Guarantees
  import opened Members
  import opened Queue

  // The enqueue owed after the commit that was the `stamp`-th event of the job.
  datatype Publication = Publication(id: JobId, priority: int, stamp: nat)

  datatype Pc =
    | Idle
    | Peeked(candidate: QueueCandidate)                     // peek read it, claim is next
    | Refused(candidate: QueueCandidate)                    // claim matched no row, re-read is next
    | Discarding(candidate: QueueCandidate)                 // re-read found it unclaimable, removal is next
    | Cleaning(candidate: QueueCandidate, attempt: Attempt) // claimed, removal is next
    | Executing(attempt: Attempt)
    | Cancelling(id: JobId)                                 // cancel committed, token lookup is next
    | Uncancelling(candidate: QueueCandidate)               // token looked up, removal is next

  /**
   `publishing` are enqueues still owed, `lost` those whose publisher crashed or saw an
   error, `landed` those whose script ran; an enqueue that ran but whose reply got lost
   is in both of the last two.
   */
  datatype State = State(
    store: Store,
    queue: QueueState,
    publishing: set<Publication>,
    lost: set<Publication>,
    landed: set<Publication>,
    actors: map<nat, Pc>
  )

  const EMPTY_STATE := State(EMPTY_STORE, EMPTY_QUEUE, {}, {}, {}, map[])

  datatype Move =
    | Commit(action: Action)
    | Publish(p: Publication)
    | PublishUnacknowledged(p: Publication)
    | PublishFails(p: Publication)
    | Peek(actor: nat)
    | ClaimPeeked(actor: nat, worker: WorkerId, token: Token, lease: int)
    | Reread(actor: nat)
    | RemoveObserved(actor: nat)
    | CancelCommit(actor: nat, id: JobId)
    | CancelLookup(actor: nat)
    | Finish(actor: nat)
    | Crash(actor: nat)

  function PublicationOf(s: Store, id: JobId): Publication
    requires id in s.rows && id in s.past
  {
    Publication(id, s.rows[id].priority, Length(s.past[id]))
  }

  // The enqueue a submission, an activation or a manual retry owes once it has committed.
  function Owed(s: Store, action: Action): set<Publication> {
    if action.Create? || action.Activate? || action.Retry? then
      var id, s' := action.id, Next(s, action);
      if id in s'.rows && id in s'.past && (id !in s.past || s'.past[id] != s.past[id])
         && s'.rows[id].status == PENDING
      then {PublicationOf(s', id)} else {}
    else {}
  }

  function PcOf(w: State, actor: nat): Pc {
    if actor in w.actors then w.actors[actor] else Idle
  }

  function Goto(w: State, actor: nat, pc: Pc): State {
    w.(actors := w.actors[actor := pc])
  }

  function Committed(w: State, action: Action): State {
    w.(store := Next(w.store, action), publishing := w.publishing + Owed(w.store, action))
  }

  // The counter stays among the exact doubles; see Members.
  predicate MayPublish(w: State, p: Publication) {
    p in w.publishing && w.queue.sequence < EXACT_DOUBLES
  }

  function Enqueue(w: State, p: Publication): State {
    w.(queue := Enqueued(w.queue, p.id, p.priority),
       publishing := w.publishing - {p},
       landed := w.landed + {p})
  }

  function Step(w: State, move: Move): State {
    match move
    case Commit(action) => Committed(w, action)
    case Publish(p) =>
      if MayPublish(w, p) then Enqueue(w, p) else w
    case PublishUnacknowledged(p) =>
      if MayPublish(w, p) then Enqueue(w, p).(lost := w.lost + {p}) else w
    case PublishFails(p) =>
      if p in w.publishing then w.(publishing := w.publishing - {p}, lost := w.lost + {p}) else w
    case Peek(actor) =>
      if PcOf(w, actor).Idle? && w.queue.ready != [] && FromMember(w.queue.ready[0].member).Parsed? then
        Goto(w, actor, Peeked(FromMember(w.queue.ready[0].member).candidate))
      else w
    case ClaimPeeked(actor, worker, token, lease) =>
      if PcOf(w, actor).Peeked? && token !in w.store.minted then
        var c := PcOf(w, actor).candidate;
        var w' := Committed(w, Claim(c.jobId, worker, token, lease));
        if c.jobId in w.store.rows && Claimable(w.store.rows[c.jobId]) then
          match AttemptOf(c.jobId, w'.store.rows[c.jobId])
          case Some(a) => Goto(w', actor, Cleaning(c, a))
          case None => Goto(w', actor, Idle)
        else Goto(w', actor, Refused(c))
      else w
    case Reread(actor) =>
      if PcOf(w, actor).Refused? then
        var c := PcOf(w, actor).candidate;
        if c.jobId in w.store.rows && Claimable(w.store.rows[c.jobId]) then Goto(w, actor, Idle)
        else Goto(w, actor, Discarding(c))
      else w
    case RemoveObserved(actor) =>
      (match PcOf(w, actor)
       case Discarding(c) => Goto(w.(queue := Removed(w.queue, c)), actor, Idle)
       case Uncancelling(c) => Goto(w.(queue := Removed(w.queue, c)), actor, Idle)
       case Cleaning(c, a) => Goto(w.(queue := Removed(w.queue, c)), actor, Executing(a))
       case _ => w)
    case CancelCommit(actor, id) =>
      if PcOf(w, actor).Idle? && id in w.store.rows && Cancellable(w.store.rows[id]) then
        Goto(Committed(w, Cancel(id)), actor, Cancelling(id))
      else w
    case CancelLookup(actor) =>
      if PcOf(w, actor).Cancelling? then
        var id := PcOf(w, actor).id;
        if id in w.queue.entries && FromMember(w.queue.entries[id]).Parsed? then
          Goto(w, actor, Uncancelling(FromMember(w.queue.entries[id]).candidate))
        else Goto(w, actor, Idle)
      else w
    case Finish(actor) =>
      if PcOf(w, actor).Executing? then Goto(w, actor, Idle) else w
    case Crash(actor) => Goto(w, actor, Idle)
  }

  function Play(w: State, moves: seq<Move>): State {
    if moves == [] then w else Step(Play(w, moves[..|moves| - 1]), moves[|moves| - 1])
  }

  // Some interleaving of moves, with crashes anywhere, leads here.
  ghost predicate Arises(w: State) {
    exists moves :: w == Play(EMPTY_STATE, moves)
  }

  // ----- The table's own runs -----

  // What a move does to the table.
  function TableActions(w: State, move: Move): seq<Action> {
    match move
    case Commit(action) => [action]
    case ClaimPeeked(actor, worker, token, lease) =>
      if PcOf(w, actor).Peeked? && token !in w.store.minted
      then [Claim(PcOf(w, actor).candidate.jobId, worker, token, lease)] else []
    case CancelCommit(actor, id) =>
      if PcOf(w, actor).Idle? && id in w.store.rows && Cancellable(w.store.rows[id]) then [Cancel(id)] else []
    case _ => []
  }

  lemma StepIsTableRun(w: State, move: Move)
    ensures Step(w, move).store == Run(w.store, TableActions(w, move))
  {
    var actions := TableActions(w, move);
    if |actions| == 1 {
      assert actions[..0] == [];
      assert Run(w.store, actions) == Next(w.store, actions[0]);
    }
  }

  /**
   Whatever the queue holds, loses or repeats, the table only ever makes the steps of its
   own protocol: every guarantee about reachable tables holds in the composed system.
   */
  lemma {:induction false} QueueNeverCorruptsTable(moves: seq<Move>)
    ensures Reachable(Play(EMPTY_STATE, moves).store)
  {
    if moves == [] {
      assert EMPTY_STORE == Run(EMPTY_STORE, []);
    } else {
      var w := Play(EMPTY_STATE, moves[..|moves| - 1]);
      QueueNeverCorruptsTable(moves[..|moves| - 1]);
      StepIsTableRun(w, moves[|moves| - 1]);
      ReachableRun(w.store, TableActions(w, moves[|moves| - 1]));
    }
  }

  // ----- The invariant -----

  predicate IsPending(s: Store, id: JobId) {
    id in s.rows && id in s.past && s.rows[id].status == PENDING
  }

  // The enqueue for the job's present stay in PENDING never ran: it is owed, failed or crashed.
  predicate Awaiting(w: State, id: JobId)
    requires IsPending(w.store, id)
  {
    PublicationOf(w.store, id) in w.publishing + w.lost && PublicationOf(w.store, id) !in w.landed
  }

  predicate Visible(w: State, id: JobId) {
    id in w.queue.entries
  }

  // Dropping the candidate's entry now would hide no pending job.
  predicate SafeToRemove(w: State, c: QueueCandidate) {
    IsPending(w.store, c.jobId) ==>
      || Awaiting(w, c.jobId)
      || (c.jobId in w.queue.entries && w.queue.entries[c.jobId] != c.member)
  }

  predicate PcInv(w: State, pc: Pc) {
    match pc
    case Idle => true
    case Peeked(c) => Observed(w.queue, c)
    case Refused(c) => Observed(w.queue, c)
    case Discarding(c) => Observed(w.queue, c) && SafeToRemove(w, c)
    case Cleaning(c, _) => Observed(w.queue, c) && SafeToRemove(w, c)
    case Executing(_) => true
    case Cancelling(id) => id in w.store.rows && w.store.rows[id].status == CANCELLED
    case Uncancelling(c) => Observed(w.queue, c) && SafeToRemove(w, c)
  }

  ghost predicate StateInv(w: State) {
    && Inv(w.store)
    && Consistent(w.queue)
    && (forall id | IsPending(w.store, id) :: Visible(w, id) || Awaiting(w, id))
    && (forall actor | actor in w.actors :: PcInv(w, w.actors[actor]))
  }

  // ----- Table steps -----

  lemma PriorityFixed(s: Store, action: Action, id: JobId)
    requires id in s.rows && s.rows.Keys == s.past.Keys
    ensures id in Next(s, action).rows
    ensures Next(s, action).rows[id].priority == s.rows[id].priority
  {
  }

  lemma StatusFromHistory(s: Store, id: JobId)
    requires Inv(s) && id in s.rows
    ensures id in s.past && s.past[id].More? && s.rows[id].status == Status(s.past[id])
  {
    assert JobInv(id, s.rows[id], s.past[id], s.now, s.minted);
  }

  lemma NewJobStems(s: Store, action: Action, id: JobId)
    requires id !in s.past && id in Next(s, action).past && s.rows.Keys == s.past.Keys
    ensures action.Create? && action.id == id
  {
  }

  lemma BecomesPendingStems(s: Store, action: Action, id: JobId)
    requires Inv(s) && IsPending(Next(s, action), id)
    requires id !in s.past || Next(s, action).past[id] != s.past[id]
    ensures (action.Create? || action.Activate? || action.Retry?) && action.id == id
  {
    if id in s.past {
      PastStep(s, action, id);
      NextKeepsInv(s, action);
      StatusFromHistory(Next(s, action), id);
    } else {
      NewJobStems(s, action, id);
    }
  }

  // A job is PENDING after a step because it was before, or because the step owes its enqueue.
  lemma PendingStep(s: Store, action: Action, id: JobId)
    requires Inv(s) && IsPending(Next(s, action), id)
    ensures var s' := Next(s, action);
            || PublicationOf(s', id) in Owed(s, action)
            || (IsPending(s, id) && s'.past[id] == s.past[id] && PublicationOf(s', id) == PublicationOf(s, id))
  {
    if id in s.past && Next(s, action).past[id] == s.past[id] {
      NextKeepsInv(s, action);
      StatusFromHistory(s, id);
      StatusFromHistory(Next(s, action), id);
      PriorityFixed(s, action, id);
    } else {
      BecomesPendingStems(s, action, id);
    }
  }

  lemma CancelledStep(s: Store, action: Action, id: JobId)
    requires Inv(s) && id in s.rows && s.rows[id].status == CANCELLED
    ensures id in Next(s, action).rows && Next(s, action).rows[id].status == CANCELLED
  {
    FinishedStep(s, action, id);
  }

  // A job that becomes PENDING awaits an enqueue of its own; one that stays so awaits what it did.
  lemma CommitKeepsAwaiting(w: State, action: Action, id: JobId)
    requires Inv(w.store) && PublishInv(w) && IsPending(Next(w.store, action), id)
    requires IsPending(w.store, id) ==> Awaiting(w, id) || Visible(w, id)
    ensures var w' := Committed(w, action);
            || Awaiting(w', id)
            || (IsPending(w.store, id) && !Awaiting(w, id) && Visible(w', id))
  {
    PendingStep(w.store, action, id);
    var p := PublicationOf(Next(w.store, action), id);
    if p in Owed(w.store, action) {
      OwedIsNew(w.store, action, p);
    }
  }

  lemma CommitKeepsSafe(w: State, action: Action, c: QueueCandidate)
    requires StateInv(w) && PublishInv(w) && SafeToRemove(w, c)
    ensures SafeToRemove(Committed(w, action), c)
  {
    if IsPending(Next(w.store, action), c.jobId) {
      CommitKeepsAwaiting(w, action, c.jobId);
    }
  }

  lemma CommitKeepsPc(w: State, action: Action, pc: Pc)
    requires StateInv(w) && PublishInv(w) && PcInv(w, pc)
    ensures PcInv(Committed(w, action), pc)
  {
    match pc
    case Discarding(c) => CommitKeepsSafe(w, action, c);
    case Cleaning(c, _) => CommitKeepsSafe(w, action, c);
    case Uncancelling(c) => CommitKeepsSafe(w, action, c);
    case Cancelling(id) => CancelledStep(w.store, action, id);
    case _ =>
  }

  lemma CommitKeeps(w: State, action: Action)
    requires StateInv(w) && PublishInv(w)
    ensures StateInv(Committed(w, action))
  {
    var w' := Committed(w, action);
    NextKeepsInv(w.store, action);
    forall id | IsPending(w'.store, id) ensures Visible(w', id) || Awaiting(w', id) {
      CommitKeepsAwaiting(w, action, id);
    }
    forall actor | actor in w'.actors ensures PcInv(w', w'.actors[actor]) {
      CommitKeepsPc(w, action, w.actors[actor]);
    }
  }

  // ----- Queue steps -----

  // A candidate read off the queue earlier is never the token minted now.
  lemma ObservedIsOld(q: QueueState, c: QueueCandidate, id: JobId)
    requires Observed(q, c) && q.sequence < EXACT_DOUBLES
    ensures c.member != Member(q.sequence + 1, id)
  {
    FreshMember(q.sequence + 1, id);
  }

  lemma EnqueueKeepsCandidate(w: State, p: Publication, c: QueueCandidate)
    requires Consistent(w.queue) && MayPublish(w, p) && Observed(w.queue, c)
    ensures Observed(Enqueue(w, p).queue, c)
    ensures SafeToRemove(w, c) ==> SafeToRemove(Enqueue(w, p), c)
  {
    EnqueuedMaps(w.queue, p.id, p.priority);
    ObservedIsOld(w.queue, c, p.id);
  }

  lemma EnqueueKeepsPc(w: State, p: Publication, pc: Pc)
    requires Consistent(w.queue) && MayPublish(w, p) && PcInv(w, pc)
    ensures PcInv(Enqueue(w, p), pc)
  {
    match pc
    case Peeked(c) => EnqueueKeepsCandidate(w, p, c);
    case Refused(c) => EnqueueKeepsCandidate(w, p, c);
    case Discarding(c) => EnqueueKeepsCandidate(w, p, c);
    case Cleaning(c, _) => EnqueueKeepsCandidate(w, p, c);
    case Uncancelling(c) => EnqueueKeepsCandidate(w, p, c);
    case _ =>
  }

  lemma EnqueueKeeps(w: State, p: Publication)
    requires StateInv(w) && MayPublish(w, p)
    ensures StateInv(Enqueue(w, p))
  {
    var w' := Enqueue(w, p);
    EnqueueKeepsConsistent(w.queue, p.id, p.priority);
    forall id | IsPending(w'.store, id) ensures Visible(w', id) || Awaiting(w', id) {
      assert Visible(w, id) || Awaiting(w, id);
    }
    forall actor | actor in w'.actors ensures PcInv(w', w'.actors[actor]) {
      EnqueueKeepsPc(w, p, w.actors[actor]);
    }
  }

  // Losing the publisher turns an owed enqueue into a lost one and nothing else.
  lemma LoseKeeps(w: State, lost: set<Publication>, publishing: set<Publication>)
    requires StateInv(w) && w.publishing + w.lost <= publishing + lost
    ensures StateInv(w.(publishing := publishing, lost := lost))
  {
    var w' := w.(publishing := publishing, lost := lost);
    forall id | IsPending(w'.store, id) ensures Visible(w', id) || Awaiting(w', id) {
      assert Visible(w, id) || Awaiting(w, id);
    }
    forall actor | actor in w'.actors ensures PcInv(w', w'.actors[actor]) {
      assert PcInv(w, w.actors[actor]);
    }
  }

  lemma RemoveKeepsPc(w: State, c: QueueCandidate, pc: Pc)
    requires StateInv(w) && Observed(w.queue, c) && SafeToRemove(w, c) && PcInv(w, pc)
    ensures PcInv(w.(queue := Removed(w.queue, c)), pc)
  {
    RemoveKeepsConsistent(w.queue, c);
  }

  lemma RemoveKeeps(w: State, c: QueueCandidate)
    requires StateInv(w) && Observed(w.queue, c) && SafeToRemove(w, c)
    ensures StateInv(w.(queue := Removed(w.queue, c)))
  {
    var w' := w.(queue := Removed(w.queue, c));
    RemoveKeepsConsistent(w.queue, c);
    forall id | IsPending(w'.store, id) ensures Visible(w', id) || Awaiting(w', id) {
      assert Visible(w, id) || Awaiting(w, id);
    }
    forall actor | actor in w'.actors ensures PcInv(w', w'.actors[actor]) {
      RemoveKeepsPc(w, c, w.actors[actor]);
    }
  }

  lemma GotoKeeps(w: State, actor: nat, pc: Pc)
    requires StateInv(w) && PcInv(w, pc)
    ensures StateInv(Goto(w, actor, pc))
  {
    var w' := Goto(w, actor, pc);
    forall other | other in w'.actors ensures PcInv(w', w'.actors[other]) {
      assert other != actor ==> PcInv(w, w.actors[other]);
    }
    forall id | IsPending(w'.store, id) ensures Visible(w', id) || Awaiting(w', id) {
      assert Visible(w, id) || Awaiting(w, id);
    }
  }

  // ----- Runner and canceller steps -----

  lemma CurrentPc(w: State, actor: nat)
    requires StateInv(w)
    ensures PcInv(w, PcOf(w, actor))
  {
  }

  lemma PeekKeeps(w: State, actor: nat)
    requires StateInv(w)
    ensures StateInv(Step(w, Peek(actor)))
  {
    if w.queue.ready != [] {
      assert IsCurrent(w.queue, w.queue.ready[0]);
      var c := FromMember(w.queue.ready[0].member).candidate;
      TokenParses(c.member, c.jobId, w.queue.sequence);
      GotoKeeps(w, actor, Peeked(c));
    }
  }

  lemma ClaimKeepsState(w: State, actor: nat, worker: WorkerId, token: Token, lease: int)
    requires StateInv(w) && PublishInv(w)
    ensures StateInv(Step(w, ClaimPeeked(actor, worker, token, lease)))
  {
    CurrentPc(w, actor);
    if PcOf(w, actor).Peeked? && token !in w.store.minted {
      var c := PcOf(w, actor).candidate;
      var w' := Committed(w, Claim(c.jobId, worker, token, lease));
      CommitKeeps(w, Claim(c.jobId, worker, token, lease));
      if c.jobId in w.store.rows && Claimable(w.store.rows[c.jobId]) {
        var a := AttemptOf(c.jobId, w'.store.rows[c.jobId]).value;
        assert !IsPending(w'.store, c.jobId);
        GotoKeeps(w', actor, Cleaning(c, a));
      } else {
        GotoKeeps(w', actor, Refused(c));
      }
    }
  }

  lemma RereadKeeps(w: State, actor: nat)
    requires StateInv(w)
    ensures StateInv(Step(w, Reread(actor)))
  {
    CurrentPc(w, actor);
    if PcOf(w, actor).Refused? {
      var c := PcOf(w, actor).candidate;
      if c.jobId in w.store.rows {
        assert JobInv(c.jobId, w.store.rows[c.jobId], w.store.past[c.jobId], w.store.now, w.store.minted);
      }
      if c.jobId in w.store.rows && Claimable(w.store.rows[c.jobId]) {
        GotoKeeps(w, actor, Idle);
      } else {
        GotoKeeps(w, actor, Discarding(c));
      }
    }
  }

  lemma RemoveObservedKeeps(w: State, actor: nat)
    requires StateInv(w)
    ensures StateInv(Step(w, RemoveObserved(actor)))
  {
    CurrentPc(w, actor);
    match PcOf(w, actor)
    case Discarding(c) =>
      RemoveKeeps(w, c);
      GotoKeeps(w.(queue := Removed(w.queue, c)), actor, Idle);
    case Uncancelling(c) =>
      RemoveKeeps(w, c);
      GotoKeeps(w.(queue := Removed(w.queue, c)), actor, Idle);
    case Cleaning(c, a) =>
      RemoveKeeps(w, c);
      GotoKeeps(w.(queue := Removed(w.queue, c)), actor, Executing(a));
    case _ =>
  }

  lemma CancelWrites(s: Store, id: JobId)
    requires Inv(s) && id in s.rows && Cancellable(s.rows[id])
    ensures id in Next(s, Cancel(id)).rows && Next(s, Cancel(id)).rows[id].status == CANCELLED
  {
  }

  lemma CancelKeepsState(w: State, actor: nat, id: JobId)
    requires StateInv(w) && PublishInv(w)
    ensures StateInv(Step(w, CancelCommit(actor, id)))
  {
    if PcOf(w, actor).Idle? && id in w.store.rows && Cancellable(w.store.rows[id]) {
      var w' := Committed(w, Cancel(id));
      assert StateInv(w') by { CommitKeeps(w, Cancel(id)); }
      assert PcInv(w', Cancelling(id)) by { CancelWrites(w.store, id); }
      GotoKeeps(w', actor, Cancelling(id));
    }
  }

  lemma StepKeepsInv(w: State, move: Move)
    requires StateInv(w) && PublishInv(w)
    ensures StateInv(Step(w, move))
  {
    match move
    case Commit(action) => CommitKeeps(w, action);
    case Publish(p) =>
      if MayPublish(w, p) {
        EnqueueKeeps(w, p);
      }
    case PublishUnacknowledged(p) =>
      if MayPublish(w, p) {
        EnqueueKeeps(w, p);
        LoseKeeps(Enqueue(w, p), w.lost + {p}, w.publishing - {p});
      }
    case PublishFails(p) => LoseKeeps(w, w.lost + {p}, w.publishing - {p});
    case Peek(actor) => PeekKeeps(w, actor);
    case ClaimPeeked(actor, worker, token, lease) => ClaimKeepsState(w, actor, worker, token, lease);
    case Reread(actor) => RereadKeeps(w, actor);
    case RemoveObserved(actor) => RemoveObservedKeeps(w, actor);
    case CancelCommit(actor, id) => CancelKeepsState(w, actor, id);
    case CancelLookup(actor) => CancelLookupKeeps(w, actor);
    case Finish(actor) => GotoKeeps(w, actor, Idle);
    case Crash(actor) => GotoKeeps(w, actor, Idle);
  }

  lemma CancelLookupKeeps(w: State, actor: nat)
    requires StateInv(w)
    ensures StateInv(Step(w, CancelLookup(actor)))
  {
    CurrentPc(w, actor);
    if PcOf(w, actor).Cancelling? {
      var job := PcOf(w, actor).id;
      if job in w.queue.entries {
        assert IsQueued(w.queue, job);
        TokenParses(w.queue.entries[job], job, w.queue.sequence);
        GotoKeeps(w, actor, Uncancelling(FromMember(w.queue.entries[job]).candidate));
      } else {
        GotoKeeps(w, actor, Idle);
      }
    }
  }

  lemma {:induction false} PlayKeepsInv(moves: seq<Move>)
    ensures StateInv(Play(EMPTY_STATE, moves)) && PublishInv(Play(EMPTY_STATE, moves))
  {
    if moves == [] {
      EmptyInv();
      EmptyConsistent();
    } else {
      var before := Play(EMPTY_STATE, moves[..|moves| - 1]);
      PlayKeepsInv(moves[..|moves| - 1]);
      StepKeepsInv(before, moves[|moves| - 1]);
      StepKeepsPublish(before, moves[|moves| - 1]);
    }
  }

  lemma ArisesInv(w: State)
    requires Arises(w)
    ensures StateInv(w) && PublishInv(w)
  {
    var moves :| w == Play(EMPTY_STATE, moves);
    PlayKeepsInv(moves);
  }

  /**
   No invisible work: in every interleaving, with crashes anywhere, a PENDING job has a
   ready entry under its own current token, unless the enqueue owed for this very stay in
   PENDING never ran, being still in flight or lost before its script. Once it ran, even
   if its reply got lost, nothing takes the entry away while the job is PENDING.
   */
  lemma NoInvisibleWork(w: State, id: JobId)
    requires Arises(w) && IsPending(w.store, id)
    ensures || IsQueued(w.queue, id)
            || (PublicationOf(w.store, id) in w.publishing + w.lost && PublicationOf(w.store, id) !in w.landed)
    ensures PublicationOf(w.store, id) in w.landed ==> IsQueued(w.queue, id)
  {
    ArisesInv(w);
    assert Visible(w, id) || Awaiting(w, id);
  }

  // ----- One enqueue per transition into PENDING -----

  function EventAt(h: History, n: nat): Option<Event> {
    if h.Nothing? then None else if Length(h) == n then Some(h.last) else EventAt(h.past, n)
  }

  predicate EntersPending(e: Event) {
    e.Activated? || e.Retried? || (e.Created? && !(e.scheduledAt.Some? && e.scheduledAt.value > e.builtAt))
  }

  predicate Justified(s: Store, p: Publication) {
    && p.id in s.past && p.id in s.rows
    && p.priority == s.rows[p.id].priority
    && 1 <= p.stamp <= Length(s.past[p.id])
    && EventAt(s.past[p.id], p.stamp).Some?
    && EntersPending(EventAt(s.past[p.id], p.stamp).value)
  }

  ghost predicate PublishInv(w: State) {
    && w.landed !! w.publishing
    && |w.landed| == w.queue.sequence
    && forall p | p in w.landed + w.publishing :: Justified(w.store, p)
  }

  lemma JustifiedStep(s: Store, action: Action, p: Publication)
    requires Inv(s) && Justified(s, p)
    ensures Justified(Next(s, action), p)
  {
    PastStep(s, action, p.id);
    PriorityFixed(s, action, p.id);
  }

  // The last event of a pending job made it pending.
  lemma PendingEntered(h: History)
    requires h.More? && Status(h) == PENDING
    ensures EventAt(h, Length(h)) == Some(h.last) && EntersPending(h.last) && Length(h) >= 1
  {
  }

  lemma OwedIsPublication(s: Store, action: Action, p: Publication)
    requires p in Owed(s, action)
    ensures var s' := Next(s, action);
            && p.id in s'.rows && p.id in s'.past && p == PublicationOf(s', p.id)
            && s'.rows[p.id].status == PENDING
            && (p.id in s.past ==> s'.past[p.id] != s.past[p.id])
  {
  }

  lemma OwedIsNew(s: Store, action: Action, p: Publication)
    requires Inv(s) && p in Owed(s, action)
    ensures Justified(Next(s, action), p) && !Justified(s, p)
  {
    OwedIsPublication(s, action, p);
    NextKeepsInv(s, action);
    StatusFromHistory(Next(s, action), p.id);
    PendingEntered(Next(s, action).past[p.id]);
    if p.id in s.past {
      PastStep(s, action, p.id);
    }
  }

  lemma CommitKeepsPublish(w: State, action: Action)
    requires Inv(w.store) && PublishInv(w)
    ensures PublishInv(Committed(w, action))
  {
    var w' := Committed(w, action);
    forall p | p in w'.landed + w'.publishing ensures Justified(w'.store, p) {
      if p in Owed(w.store, action) {
        OwedIsNew(w.store, action, p);
      } else {
        JustifiedStep(w.store, action, p);
      }
    }
    forall p | p in w'.publishing ensures p !in w'.landed {
      if p in Owed(w.store, action) {
        OwedIsNew(w.store, action, p);
      }
    }
  }

  lemma EnqueueKeepsPublish(w: State, p: Publication)
    requires PublishInv(w) && MayPublish(w, p)
    ensures PublishInv(Enqueue(w, p))
  {
    var w' := Enqueue(w, p);
    assert forall p | p in w'.landed + w'.publishing :: p in w.landed + w.publishing;
  }

  lemma FewerOwedKeepsPublish(w: State, w': State)
    requires PublishInv(w)
    requires w'.store == w.store && w'.queue.sequence == w.queue.sequence
    requires w'.landed == w.landed && w'.publishing <= w.publishing
    ensures PublishInv(w')
  {
    assert forall p | p in w'.landed + w'.publishing :: p in w.landed + w.publishing;
  }

  lemma CommitAndGotoKeepsPublish(w: State, action: Action, actor: nat, pc: Pc, next: State)
    requires Inv(w.store) && PublishInv(w) && next == Goto(Committed(w, action), actor, pc)
    ensures PublishInv(next)
  {
    CommitKeepsPublish(w, action);
    FewerOwedKeepsPublish(Committed(w, action), next);
  }

  // Claims and cancellations are a commit and a new program counter.
  lemma ClaimIsCommit(w: State, actor: nat, worker: WorkerId, token: Token, lease: int)
    requires PcOf(w, actor).Peeked? && token !in w.store.minted
    ensures exists pc :: Step(w, ClaimPeeked(actor, worker, token, lease))
              == Goto(Committed(w, Claim(PcOf(w, actor).candidate.jobId, worker, token, lease)), actor, pc)
  {
    var w', next := Committed(w, Claim(PcOf(w, actor).candidate.jobId, worker, token, lease)),
                    Step(w, ClaimPeeked(actor, worker, token, lease));
    assert next == Goto(w', actor, next.actors[actor]);
  }

  lemma CancelIsCommit(w: State, actor: nat, id: JobId)
    ensures var next := Step(w, CancelCommit(actor, id));
            next == w || next == Goto(Committed(w, Cancel(id)), actor, Cancelling(id))
  {
  }

  lemma ClaimKeepsPublish(w: State, actor: nat, worker: WorkerId, token: Token, lease: int)
    requires StateInv(w) && PublishInv(w)
    ensures PublishInv(Step(w, ClaimPeeked(actor, worker, token, lease)))
  {
    if PcOf(w, actor).Peeked? && token !in w.store.minted {
      var claim := Claim(PcOf(w, actor).candidate.jobId, worker, token, lease);
      ClaimIsCommit(w, actor, worker, token, lease);
      var pc :| Step(w, ClaimPeeked(actor, worker, token, lease)) == Goto(Committed(w, claim), actor, pc);
      CommitAndGotoKeepsPublish(w, claim, actor, pc, Step(w, ClaimPeeked(actor, worker, token, lease)));
    }
  }

  lemma CancelKeepsPublish(w: State, actor: nat, id: JobId)
    requires Inv(w.store) && PublishInv(w)
    ensures PublishInv(Step(w, CancelCommit(actor, id)))
  {
    var next := Step(w, CancelCommit(actor, id));
    CancelIsCommit(w, actor, id);
    if next != w {
      CommitAndGotoKeepsPublish(w, Cancel(id), actor, Cancelling(id), next);
    }
  }

  lemma UnacknowledgedKeepsPublish(w: State, p: Publication)
    requires PublishInv(w)
    ensures PublishInv(Step(w, PublishUnacknowledged(p)))
  {
    if MayPublish(w, p) {
      EnqueueKeepsPublish(w, p);
      FewerOwedKeepsPublish(Enqueue(w, p), Step(w, PublishUnacknowledged(p)));
    }
  }

  // The other moves neither commit nor enqueue.
  lemma QuietStep(w: State, move: Move)
    requires !move.Commit? && !move.Publish? && !move.PublishUnacknowledged?
    requires !move.ClaimPeeked? && !move.CancelCommit?
    ensures var w' := Step(w, move);
            && w'.store == w.store && w'.queue.sequence == w.queue.sequence
            && w'.landed == w.landed && w'.publishing <= w.publishing
  {
  }

  lemma StepKeepsPublish(w: State, move: Move)
    requires StateInv(w) && PublishInv(w)
    ensures PublishInv(Step(w, move))
  {
    match move
    case Commit(action) => CommitKeepsPublish(w, action);
    case ClaimPeeked(actor, worker, token, lease) => ClaimKeepsPublish(w, actor, worker, token, lease);
    case CancelCommit(actor, id) => CancelKeepsPublish(w, actor, id);
    case Publish(p) =>
      if MayPublish(w, p) {
        EnqueueKeepsPublish(w, p);
      }
    case PublishUnacknowledged(p) => UnacknowledgedKeepsPublish(w, p);
    case _ =>
      QuietStep(w, move);
      FewerOwedKeepsPublish(w, Step(w, move));
  }

  /**
   Every enqueue that ever ran answers a transition into PENDING of its own: as many as
   the counter says, no two for the same event of the same job, each at the row's priority.
   */
  lemma OneEnqueuePerTransition(w: State)
    requires Arises(w)
    ensures |w.landed| == w.queue.sequence
    ensures forall p | p in w.landed :: Justified(w.store, p)
    ensures forall p, q | p in w.landed && q in w.landed && p.id == q.id && p.stamp == q.stamp :: p == q
  {
    ArisesInv(w);
    forall p, q | p in w.landed && q in w.landed && p.id == q.id && p.stamp == q.stamp ensures p == q {
      assert Justified(w.store, p) && Justified(w.store, q);
    }
  }
}
