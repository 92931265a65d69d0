/**
 The order the queue promises, stated without scores or member texts, and the proof
 that the sorted set delivers it for every history of operations.
 */
module PriorityFifo {
  import opened Jobs
  import opened Members
  import opened Queue

  // One live enqueue: `number` says it was the number-th enqueue ever made.
  datatype Ticket = Ticket(job: JobId, priority: int, number: nat)

  datatype QueueOp =
    | Enqueue(job: JobId, priority: int)
    | Remove(candidate: QueueCandidate)

  // ----- The reference queue -----

  function Filter(keep: Ticket -> bool, ts: seq<Ticket>): seq<Ticket> {
    if ts == [] then []
    else if keep(ts[0]) then [ts[0]] + Filter(keep, ts[1..])
    else Filter(keep, ts[1..])
  }

  function OtherJob(job: JobId): Ticket -> bool {
    (t: Ticket) => t.job != job
  }

  function OtherToken(c: QueueCandidate): Ticket -> bool {
    (t: Ticket) => !(t.job == c.jobId && t.number == c.sequence)
  }

  function OfPriority(p: int): Ticket -> bool {
    (t: Ticket) => t.priority == p
  }

  // Live tickets in order of their latest enqueue, oldest first.
  datatype Arrivals = Arrivals(tickets: seq<Ticket>, count: nat)

  function Arrive(a: Arrivals, op: QueueOp): Arrivals {
    match op
    case Enqueue(job, priority) =>
      if a.count >= EXACT_DOUBLES then a
      else Arrivals(Filter(OtherJob(job), a.tickets) + [Ticket(job, Clamped(priority), a.count + 1)], a.count + 1)
    case Remove(c) =>
      Arrivals(Filter(OtherToken(c), a.tickets), a.count)
  }

  function ArrivalsOf(ops: seq<QueueOp>): Arrivals {
    if ops == [] then Arrivals([], 0)
    else Arrive(ArrivalsOf(ops[..|ops| - 1]), ops[|ops| - 1])
  }

  // Highest priority first; within one priority, oldest enqueue first.
  function ServiceOrder(ts: seq<Ticket>, top: nat): seq<Ticket> {
    Filter(OfPriority(top), ts) + if top == 0 then [] else ServiceOrder(ts, top - 1)
  }

  // ----- The implementation over the same operations -----

  // A removal names a token read off the queue earlier; any other is not a call the service makes.
  function Perform(q: QueueState, op: QueueOp): QueueState {
    match op
    case Enqueue(job, priority) =>
      if q.sequence >= EXACT_DOUBLES then q else Enqueued(q, job, priority)
    case Remove(c) =>
      if Observed(q, c) then Removed(q, c) else q
  }

  function PerformAll(ops: seq<QueueOp>): QueueState {
    if ops == [] then EMPTY_QUEUE
    else Perform(PerformAll(ops[..|ops| - 1]), ops[|ops| - 1])
  }

  function EntryOf(t: Ticket): Entry {
    Entry(Member(t.number, t.job), MAX_PRIORITY - t.priority)
  }

  function EntriesOf(ts: seq<Ticket>): seq<Entry> {
    if ts == [] then [] else [EntryOf(ts[0])] + EntriesOf(ts[1..])
  }

  // ----- Filters -----

  lemma {:induction false} FilterAppend(keep: Ticket -> bool, a: seq<Ticket>, b: seq<Ticket>)
    ensures Filter(keep, a + b) == Filter(keep, a) + Filter(keep, b)
  {
    if a == [] {
      assert a + b == b;
    } else {
      assert (a + b)[1..] == a[1..] + b;
      FilterAppend(keep, a[1..], b);
    }
  }

  lemma {:induction false} FilterCommutes(f: Ticket -> bool, g: Ticket -> bool, ts: seq<Ticket>)
    ensures Filter(f, Filter(g, ts)) == Filter(g, Filter(f, ts))
  {
    if ts != [] {
      FilterCommutes(f, g, ts[1..]);
      if f(ts[0]) && g(ts[0]) {
        assert Filter(g, ts)[1..] == Filter(g, ts[1..]);
        assert Filter(f, ts)[1..] == Filter(f, ts[1..]);
      } else if g(ts[0]) {
        assert Filter(g, ts)[1..] == Filter(g, ts[1..]);
      } else if f(ts[0]) {
        assert Filter(f, ts)[1..] == Filter(f, ts[1..]);
      }
    }
  }

  lemma {:induction false} FilterElements(keep: Ticket -> bool, ts: seq<Ticket>)
    ensures forall t :: t in Filter(keep, ts) <==> t in ts && keep(t)
  {
    if ts != [] {
      FilterElements(keep, ts[1..]);
      assert forall t :: t in ts <==> t == ts[0] || t in ts[1..];
    }
  }

  lemma {:induction false} ServiceOrderFilter(keep: Ticket -> bool, ts: seq<Ticket>, top: nat)
    ensures ServiceOrder(Filter(keep, ts), top) == Filter(keep, ServiceOrder(ts, top))
  {
    FilterCommutes(keep, OfPriority(top), ts);
    if top > 0 {
      ServiceOrderFilter(keep, ts, top - 1);
      FilterAppend(keep, Filter(OfPriority(top), ts), ServiceOrder(ts, top - 1));
    } else {
      assert ServiceOrder(ts, 0) == Filter(OfPriority(0), ts);
      assert ServiceOrder(Filter(keep, ts), 0) == Filter(OfPriority(0), Filter(keep, ts));
    }
  }

  lemma InLevel(ts: seq<Ticket>, p: int, t: Ticket)
    ensures t in Filter(OfPriority(p), ts) <==> t in ts && t.priority == p
  {
    FilterElements(OfPriority(p), ts);
  }

  lemma InAppend(a: seq<Ticket>, b: seq<Ticket>, t: Ticket)
    ensures t in a + b <==> t in a || t in b
  {
  }

  lemma {:induction false} InServiceOrder(ts: seq<Ticket>, top: nat, t: Ticket)
    ensures t in ServiceOrder(ts, top) <==> t in ts && 0 <= t.priority <= top
  {
    InLevel(ts, top, t);
    if top == 0 {
      InAppend(Filter(OfPriority(0), ts), [], t);
    } else {
      InServiceOrder(ts, top - 1, t);
      InAppend(Filter(OfPriority(top), ts), ServiceOrder(ts, top - 1), t);
    }
  }

  lemma ServiceOrderElements(ts: seq<Ticket>, top: nat)
    ensures forall t :: t in ServiceOrder(ts, top) <==> t in ts && 0 <= t.priority <= top
  {
    forall t ensures t in ServiceOrder(ts, top) <==> t in ts && 0 <= t.priority <= top {
      InServiceOrder(ts, top, t);
    }
  }

  // ----- A new ticket goes behind everything of its priority or above -----

  function InsertTicket(ts: seq<Ticket>, t: Ticket): seq<Ticket> {
    if ts == [] || ts[0].priority < t.priority then [t] + ts
    else [ts[0]] + InsertTicket(ts[1..], t)
  }

  lemma {:induction false} InsertBehind(a: seq<Ticket>, b: seq<Ticket>, t: Ticket)
    requires forall u | u in a :: u.priority >= t.priority
    ensures InsertTicket(a + b, t) == a + InsertTicket(b, t)
  {
    if a == [] {
      assert a + b == b;
      assert a + InsertTicket(b, t) == InsertTicket(b, t);
    } else {
      assert a[0] in a;
      assert (a + b)[1..] == a[1..] + b;
      InsertBehind(a[1..], b, t);
      assert [a[0]] + (a[1..] + InsertTicket(b, t)) == a + InsertTicket(b, t);
    }
  }

  lemma InsertInFront(b: seq<Ticket>, t: Ticket)
    requires forall u | u in b :: u.priority < t.priority
    ensures InsertTicket(b, t) == [t] + b
  {
    assert b != [] ==> b[0] in b;
  }

  lemma FilterArrival(ts: seq<Ticket>, t: Ticket, p: int)
    ensures Filter(OfPriority(p), ts + [t])
         == Filter(OfPriority(p), ts) + if t.priority == p then [t] else []
  {
    FilterAppend(OfPriority(p), ts, [t]);
    assert Filter(OfPriority(p), [t]) == if t.priority == p then [t] else [];
  }

  lemma {:induction false} ServiceOrderIgnores(ts: seq<Ticket>, t: Ticket, top: nat)
    requires t.priority > top
    ensures ServiceOrder(ts + [t], top) == ServiceOrder(ts, top)
  {
    FilterArrival(ts, t, top);
    assert Filter(OfPriority(top), ts) + [] == Filter(OfPriority(top), ts);
    if top > 0 {
      ServiceOrderIgnores(ts, t, top - 1);
    }
  }

  lemma FilterOfPriority(ts: seq<Ticket>, p: int)
    ensures forall u | u in Filter(OfPriority(p), ts) :: u.priority == p
  {
    FilterElements(OfPriority(p), ts);
  }

  ghost function BelowTop(ts: seq<Ticket>, top: nat): seq<Ticket> {
    if top == 0 then [] else ServiceOrder(ts, top - 1)
  }

  lemma BelowTopPriorities(ts: seq<Ticket>, top: nat)
    ensures forall u | u in BelowTop(ts, top) :: u.priority < top
  {
    if top > 0 {
      ServiceOrderElements(ts, top - 1);
    }
  }

  // One priority level at a time: this level, then everything below it.
  lemma ServiceOrderLevel(ts: seq<Ticket>, t: Ticket, top: nat)
    ensures ServiceOrder(ts, top) == Filter(OfPriority(top), ts) + BelowTop(ts, top)
    ensures ServiceOrder(ts + [t], top)
         == (Filter(OfPriority(top), ts) + if t.priority == top then [t] else []) + BelowTop(ts + [t], top)
  {
    FilterArrival(ts, t, top);
  }

  lemma LevelArrival(ts: seq<Ticket>, t: Ticket, top: nat)
    requires t.priority == top
    ensures ServiceOrder(ts + [t], top) == InsertTicket(ServiceOrder(ts, top), t)
  {
    ServiceOrderLevel(ts, t, top);
    FilterOfPriority(ts, top);
    BelowTopPriorities(ts, top);
    BelowTopIgnores(ts, t, top);
    ArrivalOnTop(Filter(OfPriority(top), ts), BelowTop(ts, top), t);
  }

  lemma BelowTopIgnores(ts: seq<Ticket>, t: Ticket, top: nat)
    requires t.priority == top
    ensures BelowTop(ts + [t], top) == BelowTop(ts, top)
  {
    if top > 0 {
      ServiceOrderIgnores(ts, t, top - 1);
    }
  }

  lemma ArrivalBelow(ts: seq<Ticket>, t: Ticket, top: nat)
    requires t.priority < top
    requires BelowTop(ts + [t], top) == InsertTicket(BelowTop(ts, top), t)
    ensures ServiceOrder(ts + [t], top) == InsertTicket(ServiceOrder(ts, top), t)
  {
    var same, rest := Filter(OfPriority(top), ts), BelowTop(ts, top);
    ServiceOrderLevel(ts, t, top);
    FilterOfPriority(ts, top);
    assert same + [] == same;
    InsertBehind(same, rest, t);
  }

  lemma {:induction false} ServiceOrderArrival(ts: seq<Ticket>, t: Ticket, top: nat)
    requires 0 <= t.priority <= top
    ensures ServiceOrder(ts + [t], top) == InsertTicket(ServiceOrder(ts, top), t)
  {
    if t.priority == top {
      LevelArrival(ts, t, top);
    } else {
      ServiceOrderArrival(ts, t, top - 1);
      ArrivalBelow(ts, t, top);
    }
  }

  lemma ArrivalOnTop(same: seq<Ticket>, rest: seq<Ticket>, t: Ticket)
    requires forall u | u in same :: u.priority >= t.priority
    requires forall u | u in rest :: u.priority < t.priority
    ensures InsertTicket(same + rest, t) == (same + [t]) + rest
  {
    InsertBehind(same, rest, t);
    InsertInFront(rest, t);
    assert same + [t] + rest == same + ([t] + rest);
  }

  lemma {:induction false} ServiceOrderEmpty(top: nat)
    ensures ServiceOrder([], top) == []
  {
    if top > 0 {
      ServiceOrderEmpty(top - 1);
    }
  }

  // ----- The same two moves on the sorted set -----

  ghost predicate Numbered(ts: seq<Ticket>, count: nat) {
    && count <= EXACT_DOUBLES
    && forall t | t in ts :: 1 <= t.number <= count && 0 <= t.priority <= MAX_PRIORITY
  }

  lemma {:induction false} InsertMatches(ts: seq<Ticket>, t: Ticket)
    requires forall u | u in ts :: u.number < t.number
    requires t.number <= EXACT_DOUBLES
    ensures Insert(EntriesOf(ts), EntryOf(t)) == EntriesOf(InsertTicket(ts, t))
  {
    if ts != [] {
      var u := ts[0];
      assert u in ts;
      MemberOrdered(u.number, u.job, t.number, t.job);
      LexTrichotomy(EntryOf(u).member, EntryOf(t).member);
      assert EntriesOf(ts)[0] == EntryOf(u) && EntriesOf(ts)[1..] == EntriesOf(ts[1..]);
      if u.priority < t.priority {
        assert EntriesOf([t] + ts) == [EntryOf(t)] + EntriesOf(ts) by {
          assert ([t] + ts)[1..] == ts;
        }
      } else {
        InsertMatches(ts[1..], t);
        var tail := InsertTicket(ts[1..], t);
        assert ([u] + tail)[1..] == tail;
      }
    } else {
      assert EntriesOf([t]) == [EntryOf(t)];
    }
  }

  lemma {:induction false} ZRemMatches(ts: seq<Ticket>, c: QueueCandidate, count: nat)
    requires Numbered(ts, count) && c.sequence <= EXACT_DOUBLES
    requires c.member == Member(c.sequence, c.jobId)
    ensures ZRem(EntriesOf(ts), c.member) == EntriesOf(Filter(OtherToken(c), ts))
  {
    if ts != [] {
      var t := ts[0];
      assert t in ts;
      ZRemMatches(ts[1..], c, count);
      assert EntriesOf(ts)[1..] == EntriesOf(ts[1..]);
      if EntryOf(t).member == c.member {
        MemberInjective(t.number, t.job, c.sequence, c.jobId);
      } else {
        var tail := Filter(OtherToken(c), ts[1..]);
        assert ([t] + tail)[1..] == tail;
      }
    }
  }

  // ----- Coupling -----

  ghost predicate Mapped(ts: seq<Ticket>, entries: map<JobId, string>) {
    forall t | t in ts :: t.job in entries && entries[t.job] == Member(t.number, t.job)
  }

  ghost predicate Coupled(q: QueueState, a: Arrivals) {
    && Consistent(q)
    && q.sequence == a.count
    && Numbered(a.tickets, a.count)
    && Mapped(a.tickets, q.entries)
    && q.ready == EntriesOf(ServiceOrder(a.tickets, MAX_PRIORITY))
  }

  lemma {:induction false} FilterSame(f: Ticket -> bool, g: Ticket -> bool, ts: seq<Ticket>)
    requires forall t | t in ts :: f(t) == g(t)
    ensures Filter(f, ts) == Filter(g, ts)
  {
    if ts != [] {
      assert ts[0] in ts;
      FilterSame(f, g, ts[1..]);
    }
  }

  lemma {:induction false} FilterAll(keep: Ticket -> bool, ts: seq<Ticket>)
    requires forall t | t in ts :: keep(t)
    ensures Filter(keep, ts) == ts
  {
    if ts != [] {
      assert ts[0] in ts;
      FilterAll(keep, ts[1..]);
    }
  }

  // Dropping the job's mapped member drops exactly the job's ticket.
  lemma DropPrevious(q: QueueState, a: Arrivals, job: JobId)
    requires Coupled(q, a) && job in q.entries
    ensures ZRem(q.ready, q.entries[job])
         == EntriesOf(ServiceOrder(Filter(OtherJob(job), a.tickets), MAX_PRIORITY))
  {
    assert IsQueued(q, job);
    var c := QueueCandidate(job, q.entries[job], SequenceOf(q.entries[job]));
    var served := ServiceOrder(a.tickets, MAX_PRIORITY);
    ServiceOrderElements(a.tickets, MAX_PRIORITY);
    ZRemMatches(served, c, a.count);
    forall t | t in served ensures OtherToken(c)(t) == OtherJob(job)(t) {
      if t.job == job {
        MemberInjective(t.number, job, c.sequence, job);
      }
    }
    FilterSame(OtherToken(c), OtherJob(job), served);
    ServiceOrderFilter(OtherJob(job), a.tickets, MAX_PRIORITY);
  }

  lemma DropAnyPrevious(q: QueueState, a: Arrivals, job: JobId)
    requires Coupled(q, a)
    ensures (if job in q.entries then ZRem(q.ready, q.entries[job]) else q.ready)
         == EntriesOf(ServiceOrder(Filter(OtherJob(job), a.tickets), MAX_PRIORITY))
  {
    if job in q.entries {
      DropPrevious(q, a, job);
    } else {
      FilterAll(OtherJob(job), a.tickets);
    }
  }

  lemma NumberedFilter(keep: Ticket -> bool, ts: seq<Ticket>, count: nat)
    requires Numbered(ts, count)
    ensures Numbered(Filter(keep, ts), count)
  {
    FilterElements(keep, ts);
  }

  lemma EnqueueReady(q: QueueState, a: Arrivals, job: JobId, priority: int, others: seq<Ticket>, t: Ticket)
    requires Coupled(q, a) && q.sequence < EXACT_DOUBLES
    requires others == Filter(OtherJob(job), a.tickets) && t == Ticket(job, Clamped(priority), q.sequence + 1)
    ensures Enqueued(q, job, priority).ready == EntriesOf(ServiceOrder(others + [t], MAX_PRIORITY))
  {
    DropAnyPrevious(q, a, job);
    NumberedFilter(OtherJob(job), a.tickets, a.count);
    EnqueueOver(q, job, priority, others, t);
  }

  lemma EnqueueOver(q: QueueState, job: JobId, priority: int, others: seq<Ticket>, t: Ticket)
    requires q.sequence < EXACT_DOUBLES && t == Ticket(job, Clamped(priority), q.sequence + 1)
    requires Numbered(others, q.sequence)
    requires (if job in q.entries then ZRem(q.ready, q.entries[job]) else q.ready)
          == EntriesOf(ServiceOrder(others, MAX_PRIORITY))
    ensures Enqueued(q, job, priority).ready == EntriesOf(ServiceOrder(others + [t], MAX_PRIORITY))
  {
    AddTicket(others, q.sequence, t);
    EnqueuedIsZAdd(q, job, priority, t);
  }

  lemma EnqueuedIsZAdd(q: QueueState, job: JobId, priority: int, t: Ticket)
    requires t == Ticket(job, Clamped(priority), q.sequence + 1)
    ensures Enqueued(q, job, priority).ready
         == ZAdd(if job in q.entries then ZRem(q.ready, q.entries[job]) else q.ready, EntryOf(t))
  {
  }

  // ZADD of the newest token puts its ticket where the service order wants it.
  lemma AddTicket(others: seq<Ticket>, count: nat, t: Ticket)
    requires Numbered(others, count) && count < EXACT_DOUBLES
    requires t.number == count + 1 && 0 <= t.priority <= MAX_PRIORITY
    ensures ZAdd(EntriesOf(ServiceOrder(others, MAX_PRIORITY)), EntryOf(t))
         == EntriesOf(ServiceOrder(others + [t], MAX_PRIORITY))
  {
    var served := ServiceOrder(others, MAX_PRIORITY);
    ServiceOrderElements(others, MAX_PRIORITY);
    var c := QueueCandidate(t.job, EntryOf(t).member, t.number);
    ZRemMatches(served, c, count);
    FilterAll(OtherToken(c), served);
    InsertMatches(served, t);
    ServiceOrderArrival(others, t, MAX_PRIORITY);
  }

  lemma EnqueueTickets(q: QueueState, a: Arrivals, job: JobId, priority: int)
    requires Numbered(a.tickets, a.count) && Mapped(a.tickets, q.entries) && a.count < EXACT_DOUBLES
    ensures var a' := Arrive(a, Enqueue(job, priority));
            && Numbered(a'.tickets, a'.count)
            && Mapped(a'.tickets, q.entries[job := Member(a.count + 1, job)])
  {
    FilterElements(OtherJob(job), a.tickets);
  }

  lemma EnqueueRefines(q: QueueState, a: Arrivals, job: JobId, priority: int)
    requires Coupled(q, a) && q.sequence < EXACT_DOUBLES
    ensures Coupled(Enqueued(q, job, priority), Arrive(a, Enqueue(job, priority)))
  {
    var q', a' := Enqueued(q, job, priority), Arrive(a, Enqueue(job, priority));
    assert Numbered(a'.tickets, a'.count) && Mapped(a'.tickets, q'.entries) by {
      EnqueueTickets(q, a, job, priority);
    }
    var others, t := Filter(OtherJob(job), a.tickets), Ticket(job, Clamped(priority), q.sequence + 1);
    assert a'.tickets == others + [t];
    assert q'.ready == EntriesOf(ServiceOrder(a'.tickets, MAX_PRIORITY)) by {
      EnqueueReady(q, a, job, priority, others, t);
    }
    assert Consistent(q') by { EnqueueKeepsConsistent(q, job, priority); }
  }

  lemma RemoveReady(q: QueueState, a: Arrivals, c: QueueCandidate)
    requires Coupled(q, a) && Observed(q, c)
    ensures Removed(q, c).ready == EntriesOf(ServiceOrder(Filter(OtherToken(c), a.tickets), MAX_PRIORITY))
  {
    ServiceOrderElements(a.tickets, MAX_PRIORITY);
    ZRemMatches(ServiceOrder(a.tickets, MAX_PRIORITY), c, a.count);
    ServiceOrderFilter(OtherToken(c), a.tickets, MAX_PRIORITY);
  }

  lemma RemoveMapped(q: QueueState, ts: seq<Ticket>, c: QueueCandidate)
    requires Mapped(ts, q.entries) && Numbered(ts, q.sequence) && Observed(q, c) && q.sequence <= EXACT_DOUBLES
    ensures Mapped(Filter(OtherToken(c), ts), Removed(q, c).entries)
  {
    FilterElements(OtherToken(c), ts);
    forall t | t in Filter(OtherToken(c), ts)
      ensures t.job in Removed(q, c).entries && Removed(q, c).entries[t.job] == Member(t.number, t.job)
    {
      assert t in ts;
      if t.job == c.jobId && q.entries[t.job] == c.member {
        MemberInjective(t.number, t.job, c.sequence, c.jobId);
      }
    }
  }

  lemma RemoveRefines(q: QueueState, a: Arrivals, c: QueueCandidate)
    requires Coupled(q, a) && Observed(q, c)
    ensures Coupled(Removed(q, c), Arrive(a, Remove(c)))
  {
    assert Consistent(Removed(q, c)) by { RemoveKeepsConsistent(q, c); }
    RemoveReady(q, a, c);
    RemoveMapped(q, a.tickets, c);
    NumberedFilter(OtherToken(c), a.tickets, a.count);
  }

  // A token that was never read off this queue names no ticket of it.
  lemma UnobservedNamesNoTicket(q: QueueState, a: Arrivals, c: QueueCandidate)
    requires Coupled(q, a) && !Observed(q, c) && c.member == Member(c.sequence, c.jobId)
    ensures Arrive(a, Remove(c)) == a
  {
    forall t | t in a.tickets ensures OtherToken(c)(t) {
      if t.job == c.jobId && t.number == c.sequence {
        FreshMember(t.number, t.job);
      }
    }
    FilterAll(OtherToken(c), a.tickets);
  }

  // Candidates are what from_member made of a member.
  predicate Genuine(op: QueueOp) {
    op.Remove? ==> op.candidate.member == Member(op.candidate.sequence, op.candidate.jobId)
  }

  /**
   Whatever enqueues, removals and late removals have happened, the sorted set is
   the live tickets by priority descending, then by latest enqueue.
   */
  lemma {:induction false} QueueRefinesPriorityFifo(ops: seq<QueueOp>)
    requires forall op | op in ops :: Genuine(op)
    ensures Coupled(PerformAll(ops), ArrivalsOf(ops))
  {
    if ops == [] {
      ServiceOrderEmpty(MAX_PRIORITY);
      EmptyConsistent();
    } else {
      var before, op := ops[..|ops| - 1], ops[|ops| - 1];
      QueueRefinesPriorityFifo(before);
      var q, a := PerformAll(before), ArrivalsOf(before);
      assert op in ops;
      match op {
        case Enqueue(job, priority) =>
          if q.sequence < EXACT_DOUBLES {
            EnqueueRefines(q, a, job, priority);
          }
        case Remove(c) =>
          if Observed(q, c) {
            RemoveRefines(q, a, c);
          } else {
            UnobservedNamesNoTicket(q, a, c);
          }
      }
    }
  }

  lemma {:induction false} EntriesOfIndex(ts: seq<Ticket>)
    ensures |EntriesOf(ts)| == |ts|
    ensures forall i | 0 <= i < |ts| :: EntriesOf(ts)[i] == EntryOf(ts[i])
  {
    if ts != [] {
      EntriesOfIndex(ts[1..]);
    }
  }

  function CandidateOf(t: Ticket): QueueCandidate {
    QueueCandidate(t.job, Member(t.number, t.job), t.number)
  }

  // The first `count` live tickets in service order, each under its own token.
  predicate NamesFirst(seen: seq<ParsedMember>, live: seq<Ticket>, count: int) {
    var served := ServiceOrder(live, MAX_PRIORITY);
    && |seen| == Within(count, |served|)
    && forall i | 0 <= i < |seen| :: seen[i] == Parsed(CandidateOf(served[i]))
  }

  /** peek_many(n) names the first n live tickets in that order, each under its own token. */
  lemma PeekManyServesInOrder(ops: seq<QueueOp>, count: nat)
    requires forall op | op in ops :: Genuine(op)
    requires count >= 1
    ensures NamesFirst(PeekMany(PerformAll(ops), count), ArrivalsOf(ops).tickets, count)
  {
    QueueRefinesPriorityFifo(ops);
    PeekManyOver(PerformAll(ops), ArrivalsOf(ops), count);
  }

  lemma PeekManyOver(q: QueueState, a: Arrivals, count: int)
    requires Coupled(q, a) && count >= 1
    ensures NamesFirst(PeekMany(q, count), a.tickets, count)
  {
    var served := ServiceOrder(a.tickets, MAX_PRIORITY);
    EntriesOfIndex(served);
    ServiceOrderElements(a.tickets, MAX_PRIORITY);
    PeekManyIsPrefixIff(q, count);
    var seen := PeekMany(q, count);
    forall i | 0 <= i < |seen| ensures seen[i] == Parsed(CandidateOf(served[i])) {
      assert served[i] in served;
      assert seen[i] == FromMember(q.ready[i].member);
      TicketParses(served[i]);
    }
  }

  lemma TicketParses(t: Ticket)
    requires t.number <= EXACT_DOUBLES
    ensures FromMember(EntryOf(t).member) == Parsed(QueueCandidate(t.job, Member(t.number, t.job), t.number))
  {
    LuaNumberExact(t.number);
    MemberRoundTrip(t.number, t.job);
  }

  // ----- The service order is an order by rank -----

  ghost predicate Ascending(ts: seq<Ticket>) {
    forall i, j | 0 <= i < j < |ts| :: ts[i].number < ts[j].number
  }

  lemma {:induction false} FilterAscending(keep: Ticket -> bool, ts: seq<Ticket>)
    requires Ascending(ts)
    ensures Ascending(Filter(keep, ts))
  {
    if ts != [] {
      FilterAscending(keep, ts[1..]);
      var rest := Filter(keep, ts[1..]);
      forall j | 0 <= j < |rest| ensures ts[0].number < rest[j].number {
        FilterElements(keep, ts[1..]);
        assert rest[j] in ts[1..];
      }
    }
  }

  // Live tickets carry the numbers of distinct enqueues, oldest first.
  lemma {:induction false} ArrivalsAscend(ops: seq<QueueOp>)
    ensures var a := ArrivalsOf(ops); Ascending(a.tickets) && forall t | t in a.tickets :: t.number <= a.count
  {
    if ops != [] {
      var before, op := ops[..|ops| - 1], ops[|ops| - 1];
      ArrivalsAscend(before);
      var keep := if op.Enqueue? then OtherJob(op.job) else OtherToken(op.candidate);
      FilterAscending(keep, ArrivalsOf(before).tickets);
      FilterElements(keep, ArrivalsOf(before).tickets);
    }
  }

  predicate ServedFirst(t: Ticket, u: Ticket) {
    t.priority > u.priority || (t.priority == u.priority && t.number < u.number)
  }

  // The live tickets and no other, each behind those of higher priority or of older enqueue.
  ghost predicate RanksAll(served: seq<Ticket>, live: seq<Ticket>) {
    && (forall t :: t in served <==> t in live)
    && (forall i, j | 0 <= i < j < |served| :: ServedFirst(served[i], served[j]))
  }

  /** Earlier in the service order means a higher priority, or the same and an older enqueue. */
  lemma ServedByRank(ops: seq<QueueOp>)
    requires forall op | op in ops :: Genuine(op)
    ensures RanksAll(ServiceOrder(ArrivalsOf(ops).tickets, MAX_PRIORITY), ArrivalsOf(ops).tickets)
  {
    QueueRefinesPriorityFifo(ops);
    ArrivalsAscend(ops);
    RankedServiceOrder(PerformAll(ops), ArrivalsOf(ops));
  }

  lemma RankedServiceOrder(q: QueueState, a: Arrivals)
    requires Coupled(q, a) && Ascending(a.tickets)
    ensures RanksAll(ServiceOrder(a.tickets, MAX_PRIORITY), a.tickets)
  {
    var served := ServiceOrder(a.tickets, MAX_PRIORITY);
    ServiceOrderElements(a.tickets, MAX_PRIORITY);
    EntriesOfIndex(served);
    forall i, j | 0 <= i < j < |served| ensures ServedFirst(served[i], served[j]) {
      assert served[i] in a.tickets && served[j] in a.tickets;
      assert Before(q.ready[i], q.ready[j]);
      RankOfBefore(served[i], served[j]);
    }
  }

  lemma RankOfBefore(t: Ticket, u: Ticket)
    requires t.number <= EXACT_DOUBLES && u.number <= EXACT_DOUBLES && Before(EntryOf(t), EntryOf(u))
    requires t.number == u.number ==> t.job == u.job
    ensures ServedFirst(t, u)
  {
    LexTrichotomy(EntryOf(t).member, EntryOf(u).member);
    if u.number < t.number {
      MemberOrdered(u.number, u.job, t.number, t.job);
    }
  }
}
