/**
 The queue of the composed system has been through queue operations only, so what it
 holds is in service order, whatever interleaving of moves led there.
 */
module ServiceOrders {
  import opened Jobs
  import opened Members
  import opened Queue
  import opened Protocol
  import opened PriorityFifo
  import World

  // What a move does to the queue.
  function QueueOps(w: World.State, move: World.Move): seq<QueueOp> {
    match move
    case Publish(p) => if World.MayPublish(w, p) then [Enqueue(p.id, p.priority)] else []
    case PublishUnacknowledged(p) => if World.MayPublish(w, p) then [Enqueue(p.id, p.priority)] else []
    case RemoveObserved(actor) =>
      (match World.PcOf(w, actor)
       case Discarding(c) => [Remove(c)]
       case Uncancelling(c) => [Remove(c)]
       case Cleaning(c, _) => [Remove(c)]
       case _ => [])
    case _ => []
  }

  function Operations(moves: seq<World.Move>): seq<QueueOp> {
    if moves == [] then []
    else
      var before := moves[..|moves| - 1];
      Operations(before) + QueueOps(World.Play(World.EMPTY_STATE, before), moves[|moves| - 1])
  }

  // The enqueues not yet removed or replaced, oldest first.
  function LiveTickets(moves: seq<World.Move>): seq<Ticket> {
    ArrivalsOf(Operations(moves)).tickets
  }

  function Served(moves: seq<World.Move>): seq<Ticket> {
    ServiceOrder(LiveTickets(moves), MAX_PRIORITY)
  }

  ghost predicate AllGenuine(ops: seq<QueueOp>) {
    forall op | op in ops :: Genuine(op)
  }

  lemma PublishPerforms(w: World.State, p: World.Publication, ops: seq<QueueOp>)
    requires w.queue == PerformAll(ops) && World.MayPublish(w, p)
    ensures World.Enqueue(w, p).queue == PerformAll(ops + [Enqueue(p.id, p.priority)])
  {
    PerformOneMore(ops, Enqueue(p.id, p.priority));
  }

  lemma RemovalPerforms(w: World.State, actor: nat, ops: seq<QueueOp>)
    requires World.StateInv(w) && w.queue == PerformAll(ops) && QueueOps(w, World.RemoveObserved(actor)) != []
    ensures var removal := QueueOps(w, World.RemoveObserved(actor));
            && World.Step(w, World.RemoveObserved(actor)).queue == PerformAll(ops + removal)
            && AllGenuine(removal)
  {
    World.CurrentPc(w, actor);
    PerformOneMore(ops, QueueOps(w, World.RemoveObserved(actor))[0]);
  }

  // Any other move leaves the queue alone.
  lemma QuietPerforms(w: World.State, move: World.Move)
    requires QueueOps(w, move) == []
    ensures World.Step(w, move).queue == w.queue
  {
  }

  lemma StepPerforms(w: World.State, move: World.Move, ops: seq<QueueOp>)
    requires World.StateInv(w) && w.queue == PerformAll(ops)
    ensures World.Step(w, move).queue == PerformAll(ops + QueueOps(w, move))
    ensures AllGenuine(QueueOps(w, move))
  {
    if QueueOps(w, move) == [] {
      QuietPerforms(w, move);
      assert ops + [] == ops;
    } else {
      match move
      case Publish(p) => PublishPerforms(w, p, ops);
      case PublishUnacknowledged(p) => PublishPerforms(w, p, ops);
      case RemoveObserved(actor) => RemovalPerforms(w, actor, ops);
    }
  }

  lemma PerformOneMore(ops: seq<QueueOp>, op: QueueOp)
    ensures PerformAll(ops + [op]) == Perform(PerformAll(ops), op)
  {
    assert (ops + [op])[..|ops|] == ops;
  }

  /** The queue of every state is what a history of genuine queue operations leaves. */
  lemma {:induction false} QueueIsPerformed(moves: seq<World.Move>)
    ensures World.Play(World.EMPTY_STATE, moves).queue == PerformAll(Operations(moves))
    ensures AllGenuine(Operations(moves))
  {
    if moves != [] {
      var before := moves[..|moves| - 1];
      QueueIsPerformed(before);
      World.PlayKeepsInv(before);
      StepPerforms(World.Play(World.EMPTY_STATE, before), moves[|moves| - 1], Operations(before));
    }
  }

  lemma QueueIsCoupled(moves: seq<World.Move>)
    ensures Coupled(World.Play(World.EMPTY_STATE, moves).queue, ArrivalsOf(Operations(moves)))
  {
    QueueIsPerformed(moves);
    QueueRefinesPriorityFifo(Operations(moves));
  }

  /**
   In every interleaving, with crashes anywhere, the sorted set is the live enqueues by
   priority and then by enqueue: an entry further back has a lower priority, or the same
   and a younger enqueue.
   */
  lemma ReadySetInServiceOrder(moves: seq<World.Move>)
    ensures World.Play(World.EMPTY_STATE, moves).queue.ready == EntriesOf(Served(moves))
    ensures RanksAll(Served(moves), LiveTickets(moves))
  {
    QueueIsCoupled(moves);
    QueueIsPerformed(moves);
    ServedByRank(Operations(moves));
  }

  // ----- The order of the priorities as submitted -----

  // A live ticket stands for the priority in its job's row, and so for the one submitted.
  ghost predicate RowPriorities(moves: seq<World.Move>) {
    var w := World.Play(World.EMPTY_STATE, moves);
    forall t | t in LiveTickets(moves) :: CarriesPriority(w.store, t)
  }

  lemma PrioritiesStay(w: World.State, move: World.Move, id: JobId)
    requires World.StateInv(w) && id in w.store.rows
    ensures id in World.Step(w, move).store.rows
    ensures World.Step(w, move).store.rows[id].priority == w.store.rows[id].priority
  {
    var actions := World.TableActions(w, move);
    World.StepIsTableRun(w, move);
    if |actions| == 1 {
      assert actions[..0] == [];
      assert Run(w.store, actions) == Next(w.store, actions[0]);
      World.PriorityFixed(w.store, actions[0], id);
    }
  }

  // The operations of one more move.
  lemma OneMoreMove(moves: seq<World.Move>)
    requires moves != []
    ensures var before := moves[..|moves| - 1];
            && Operations(moves) == Operations(before) +
                 QueueOps(World.Play(World.EMPTY_STATE, before), moves[|moves| - 1])
            && World.Play(World.EMPTY_STATE, moves)
                 == World.Step(World.Play(World.EMPTY_STATE, before), moves[|moves| - 1])
  {
  }

  // A ticket that is live after an operation was so before, or is the one just enqueued.
  lemma ArrivedTicket(a: Arrivals, op: QueueOp, t: Ticket)
    requires t in Arrive(a, op).tickets
    ensures t in a.tickets || (op.Enqueue? && t.job == op.job && t.priority == Clamped(op.priority))
  {
    FilterElements(if op.Enqueue? then OtherJob(op.job) else OtherToken(op.candidate), a.tickets);
  }

  lemma ArrivalsOneMore(ops: seq<QueueOp>, op: QueueOp)
    ensures ArrivalsOf(ops + [op]) == Arrive(ArrivalsOf(ops), op)
  {
    assert (ops + [op])[..|ops|] == ops;
  }

  // A publish enqueues at the priority of the row.
  lemma OwnPriority(w: World.State, move: World.Move)
    requires World.PublishInv(w)
    ensures forall op | op in QueueOps(w, move) && op.Enqueue? ::
              op.job in w.store.rows && op.priority == w.store.rows[op.job].priority
  {
    if move.Publish? && World.MayPublish(w, move.p) {
      assert World.Justified(w.store, move.p);
    } else if move.PublishUnacknowledged? && World.MayPublish(w, move.p) {
      assert World.Justified(w.store, move.p);
    }
  }

  predicate CarriesPriority(s: Store, t: Ticket) {
    t.job in s.rows && t.priority == Clamped(s.rows[t.job].priority)
  }

  lemma TicketArrives(w: World.State, move: World.Move, ops: seq<QueueOp>, t: Ticket)
    requires World.PublishInv(w) && t in ArrivalsOf(ops + QueueOps(w, move)).tickets
    ensures t in ArrivalsOf(ops).tickets || CarriesPriority(w.store, t)
  {
    var more := QueueOps(w, move);
    OwnPriority(w, move);
    if more == [] {
      assert ops + more == ops;
    } else {
      assert more == [more[0]] && more[0] in more;
      ArrivalsOneMore(ops, more[0]);
      ArrivedTicket(ArrivalsOf(ops), more[0], t);
    }
  }

  lemma TicketStep(moves: seq<World.Move>, t: Ticket)
    requires moves != [] && RowPriorities(moves[..|moves| - 1]) && t in LiveTickets(moves)
    ensures CarriesPriority(World.Play(World.EMPTY_STATE, moves).store, t)
  {
    var before, last := moves[..|moves| - 1], moves[|moves| - 1];
    var w := World.Play(World.EMPTY_STATE, before);
    OneMoreMove(moves);
    World.PlayKeepsInv(before);
    TicketArrives(w, last, Operations(before), t);
    assert CarriesPriority(w.store, t);
    PrioritiesStay(w, last, t.job);
  }

  lemma {:induction false} TicketsCarryRowPriorities(moves: seq<World.Move>)
    ensures RowPriorities(moves)
  {
    if moves != [] {
      TicketsCarryRowPriorities(moves[..|moves| - 1]);
      forall t | t in LiveTickets(moves)
        ensures CarriesPriority(World.Play(World.EMPTY_STATE, moves).store, t)
      {
        TicketStep(moves, t);
      }
    }
  }

  // The candidate at one place of the queue, and the row of its job.
  ghost predicate StandsAt(w: World.State, i: nat, c: QueueCandidate) {
    && i < |w.queue.ready| && FromMember(w.queue.ready[i].member) == Parsed(c)
    && c.jobId in w.store.rows && c.jobId in w.store.past
  }

  predicate RowBefore(p: int, m: nat, q: int, n: nat) {
    p > q || (p == q && m < n)
  }

  lemma PlaceOfTicket(moves: seq<World.Move>, i: nat)
    requires i < |World.Play(World.EMPTY_STATE, moves).queue.ready|
    ensures |Served(moves)| == |World.Play(World.EMPTY_STATE, moves).queue.ready|
    ensures StandsAt(World.Play(World.EMPTY_STATE, moves), i, CandidateOf(Served(moves)[i]))
    ensures Served(moves)[i] in LiveTickets(moves)
  {
    var w := World.Play(World.EMPTY_STATE, moves);
    QueueIsCoupled(moves);
    ReadySetInServiceOrder(moves);
    EntriesOfIndex(Served(moves));
    assert Served(moves)[i] in LiveTickets(moves);
    TicketParses(Served(moves)[i]);
    TicketsCarryRowPriorities(moves);
    World.PlayKeepsInv(moves);
  }

  /**
   In every state, of two entries whose jobs have priorities in range the one nearer the head
   has the higher priority in its row, or the same priority and an older enqueue. Different
   priorities are never treated as equal.
   */
  lemma HigherPriorityFirst(moves: seq<World.Move>, i: nat, j: nat, c: QueueCandidate, d: QueueCandidate)
    requires var w := World.Play(World.EMPTY_STATE, moves);
             && StandsAt(w, i, c) && StandsAt(w, j, d) && i < j
             && 0 <= w.store.rows[c.jobId].priority <= 100 && 0 <= w.store.rows[d.jobId].priority <= 100
    ensures var rows := World.Play(World.EMPTY_STATE, moves).store.rows;
            RowBefore(rows[c.jobId].priority, c.sequence, rows[d.jobId].priority, d.sequence)
  {
    var rows := World.Play(World.EMPTY_STATE, moves).store.rows;
    PlaceOfTicket(moves, i);
    PlaceOfTicket(moves, j);
    ReadySetInServiceOrder(moves);
    TicketsCarryRowPriorities(moves);
    var t, u := Served(moves)[i], Served(moves)[j];
    assert ServedFirst(t, u);
    ClampedIsNearest(rows[c.jobId].priority);
    ClampedIsNearest(rows[d.jobId].priority);
  }

  predicate InRange(priority: int) {
    0 <= priority <= 100
  }

  // By the priorities in the rows, if both are in range, and then by enqueue.
  predicate AheadOf(w: World.State, c: QueueCandidate, id: JobId)
    requires id in w.queue.entries && c.jobId in w.store.rows
  {
    && id in w.store.rows
    && (InRange(w.store.rows[c.jobId].priority) && InRange(w.store.rows[id].priority) ==>
          RowBefore(w.store.rows[c.jobId].priority, c.sequence,
                    w.store.rows[id].priority, SequenceOf(w.queue.entries[id])))
  }

  ghost predicate AheadOfAll(w: World.State, c: QueueCandidate) {
    c.jobId in w.store.rows && forall id | id in w.queue.entries && id != c.jobId :: AheadOf(w, c, id)
  }

  lemma QueuedStands(moves: seq<World.Move>, id: JobId) returns (j: nat)
    requires id in World.Play(World.EMPTY_STATE, moves).queue.entries
    ensures var w := World.Play(World.EMPTY_STATE, moves);
            StandsAt(w, j, QueueCandidate(id, w.queue.entries[id], SequenceOf(w.queue.entries[id])))
  {
    var w := World.Play(World.EMPTY_STATE, moves);
    World.PlayKeepsInv(moves);
    assert IsQueued(w.queue, id);
    TokenParses(w.queue.entries[id], id, w.queue.sequence);
    j :| 0 <= j < |w.queue.ready| && w.queue.ready[j].member == w.queue.entries[id];
    PlaceOfTicket(moves, j);
  }

  lemma HeadIsAheadOf(moves: seq<World.Move>, c: QueueCandidate, id: JobId)
    requires StandsAt(World.Play(World.EMPTY_STATE, moves), 0, c)
    requires id in World.Play(World.EMPTY_STATE, moves).queue.entries && id != c.jobId
    ensures AheadOf(World.Play(World.EMPTY_STATE, moves), c, id)
  {
    var w := World.Play(World.EMPTY_STATE, moves);
    var j := QueuedStands(moves, id);
    if InRange(w.store.rows[c.jobId].priority) && InRange(w.store.rows[id].priority) {
      HigherPriorityFirst(moves, 0, j, c, QueueCandidate(id, w.queue.entries[id], SequenceOf(w.queue.entries[id])));
    }
  }

  /** The head of the queue goes before every other queued job. */
  lemma HeadIsAhead(moves: seq<World.Move>, c: QueueCandidate)
    requires var w := World.Play(World.EMPTY_STATE, moves);
             w.queue.ready != [] && FromMember(w.queue.ready[0].member) == Parsed(c)
    ensures AheadOfAll(World.Play(World.EMPTY_STATE, moves), c)
  {
    var w := World.Play(World.EMPTY_STATE, moves);
    PlaceOfTicket(moves, 0);
    forall id | id in w.queue.entries && id != c.jobId ensures AheadOf(w, c, id) {
      HeadIsAheadOf(moves, c, id);
    }
  }
}
