/**
 The Redis side of the ready queue as values: a sorted set, a hash and a counter,
 the two scripts that change them, and the abstract queue they refine.
 */
module Queue {
  import opened Jobs
  import opened Members

  // One element of the sorted set.
  datatype Entry = Entry(member: string, score: int)

  /** `ready` is the sorted set in its own order, `entries` the companion hash. */
  datatype QueueState = QueueState(ready: seq<Entry>, entries: map<JobId, string>, sequence: nat)

  const EMPTY_QUEUE := QueueState([], map[], 0)

  // ----- Redis commands -----

  // Ascending score, then ascending bytes of the member.
  predicate Before(e: Entry, f: Entry) {
    e.score < f.score || (e.score == f.score && LexLess(e.member, f.member))
  }

  function ZRem(ready: seq<Entry>, member: string): seq<Entry> {
    if ready == [] then []
    else if ready[0].member == member then ZRem(ready[1..], member)
    else [ready[0]] + ZRem(ready[1..], member)
  }

  function Insert(ready: seq<Entry>, e: Entry): seq<Entry> {
    if ready == [] || Before(e, ready[0]) then [e] + ready
    else [ready[0]] + Insert(ready[1..], e)
  }

  function ZAdd(ready: seq<Entry>, e: Entry): seq<Entry> {
    Insert(ZRem(ready, e.member), e)
  }

  predicate HasMember(ready: seq<Entry>, member: string) {
    exists i | 0 <= i < |ready| :: ready[i].member == member
  }

  // ZRANGE start stop, both inclusive; a negative index counts from the end.
  function ZRange(ready: seq<Entry>, start: int, stop: int): seq<Entry> {
    var first := if start < 0 then (if start + |ready| < 0 then 0 else start + |ready|) else start;
    var last := if stop < 0 then stop + |ready| else stop;
    var end := if last >= |ready| then |ready| else last + 1;
    if first >= end then [] else ready[first..end]
  }

  // ----- queue_service -----

  function EntryScore(priority: int): int {
    MAX_PRIORITY - Clamped(priority)
  }

  function Clamped(priority: int): int {
    if priority < 0 then 0 else if priority > MAX_PRIORITY then MAX_PRIORITY else priority
  }

  /** A priority in range counts as it is, and one outside as the nearest in range. */
  lemma ClampedIsNearest(priority: int)
    ensures 0 <= Clamped(priority) <= 100
    ensures 0 <= priority <= 100 ==> Clamped(priority) == priority
    ensures priority < 0 ==> Clamped(priority) == 0
    ensures priority > 100 ==> Clamped(priority) == 100
  {
  }

  /** Of two priorities in range the higher has the lower score; no two of them share one. */
  lemma HigherPriorityScoresLower(p: int, q: int)
    requires 0 <= p <= 100 && 0 <= q <= 100
    ensures p > q <==> EntryScore(p) < EntryScore(q)
    ensures p == q <==> EntryScore(p) == EntryScore(q)
    ensures 0 <= EntryScore(p) <= 100 && EntryScore(0) == 100 && EntryScore(100) == 0
  {
    ClampedIsNearest(p);
    ClampedIsNearest(q);
  }

  function EnqueueScript(q: QueueState, score: int, id: JobId): QueueState {
    var sequence := q.sequence + 1;
    var member := Member(sequence, id);
    var ready := if id in q.entries then ZRem(q.ready, q.entries[id]) else q.ready;
    QueueState(ZAdd(ready, Entry(member, score)), q.entries[id := member], sequence)
  }

  function RemoveScript(q: QueueState, member: string, id: JobId): QueueState {
    QueueState(
      ZRem(q.ready, member),
      if id in q.entries && q.entries[id] == member then q.entries - {id} else q.entries,
      q.sequence)
  }

  function Enqueued(q: QueueState, id: JobId, priority: int): QueueState {
    EnqueueScript(q, EntryScore(priority), id)
  }

  function Removed(q: QueueState, c: QueueCandidate): QueueState {
    RemoveScript(q, c.member, c.jobId)
  }

  // ----- What every operation keeps -----

  predicate Sorted(ready: seq<Entry>) {
    forall i, j | 0 <= i < j < |ready| :: Before(ready[i], ready[j])
  }

  // A member is in the set once, under one score.
  predicate OncePerMember(ready: seq<Entry>) {
    forall e, f | e in ready && f in ready && e.member == f.member :: e == f
  }

  // The sequence and the job a member text names.
  function SequenceOf(member: string): nat {
    match FromMember(member)
    case Parsed(c) => c.sequence
    case Malformed(_) => 0
  }

  predicate IsToken(member: string, id: JobId, counter: nat) {
    && 1 <= SequenceOf(member) <= counter
    && member == Member(SequenceOf(member), id)
  }

  // `e` is its own job's current token.
  predicate IsCurrent(q: QueueState, e: Entry) {
    match FromMember(e.member)
    case Malformed(_) => false
    case Parsed(c) =>
      && c.jobId in q.entries
      && q.entries[c.jobId] == e.member
      && IsToken(e.member, c.jobId, q.sequence)
      && 0 <= e.score <= MAX_PRIORITY
  }

  predicate IsQueued(q: QueueState, id: JobId) {
    && id in q.entries
    && IsToken(q.entries[id], id, q.sequence)
    && HasMember(q.ready, q.entries[id])
  }

  /** The ready set and the entry map are a bijection between jobs and current tokens. */
  ghost predicate Consistent(q: QueueState) {
    && q.sequence <= EXACT_DOUBLES
    && Sorted(q.ready)
    && OncePerMember(q.ready)
    && (forall i {:trigger IsCurrent(q, q.ready[i])} | 0 <= i < |q.ready| :: IsCurrent(q, q.ready[i]))
    && (forall id {:trigger IsQueued(q, id)} | id in q.entries :: IsQueued(q, id))
  }

  lemma TokenParses(member: string, id: JobId, counter: nat)
    requires IsToken(member, id, counter) && counter <= EXACT_DOUBLES
    ensures FromMember(member) == Parsed(QueueCandidate(id, member, SequenceOf(member)))
  {
    LuaNumberExact(SequenceOf(member));
    MemberRoundTrip(SequenceOf(member), id);
  }

  lemma FreshMember(sequence: nat, id: JobId)
    requires 1 <= sequence <= EXACT_DOUBLES
    ensures SequenceOf(Member(sequence, id)) == sequence
    ensures IsToken(Member(sequence, id), id, sequence)
  {
    LuaNumberExact(sequence);
    MemberRoundTrip(sequence, id);
  }

  // ----- Lemmas about the sorted set -----

  lemma {:induction false} ZRemElements(ready: seq<Entry>, member: string)
    ensures forall e :: e in ZRem(ready, member) <==> e in ready && e.member != member
    ensures HasMember(ready, member) || ZRem(ready, member) == ready
  {
    if ready != [] {
      ZRemElements(ready[1..], member);
      assert forall e :: e in ready <==> e == ready[0] || e in ready[1..];
      assert HasMember(ready[1..], member) ==> HasMember(ready, member) by {
        if HasMember(ready[1..], member) {
          var i :| 0 <= i < |ready[1..]| && ready[1..][i].member == member;
          assert ready[i + 1].member == member;
        }
      }
    }
  }

  lemma {:induction false} ZRemSorted(ready: seq<Entry>, member: string)
    requires Sorted(ready)
    ensures Sorted(ZRem(ready, member))
  {
    if ready != [] {
      ZRemSorted(ready[1..], member);
      var rest := ZRem(ready[1..], member);
      forall j | 0 <= j < |rest| ensures Before(ready[0], rest[j]) {
        ZRemElements(ready[1..], member);
        assert rest[j] in ready[1..];
      }
    }
  }

  lemma {:induction false} InsertElements(ready: seq<Entry>, e: Entry)
    ensures forall f :: f in Insert(ready, e) <==> f == e || f in ready
  {
    if ready != [] && !Before(e, ready[0]) {
      InsertElements(ready[1..], e);
      assert forall f :: f in ready <==> f == ready[0] || f in ready[1..];
    }
  }

  lemma BeforeTransitive(e: Entry, f: Entry, g: Entry)
    requires Before(e, f) && Before(f, g)
    ensures Before(e, g)
  {
    if e.score == f.score == g.score {
      LexTransitive(e.member, f.member, g.member);
    }
  }

  lemma {:induction false} InsertSorted(ready: seq<Entry>, e: Entry)
    requires Sorted(ready) && !HasMember(ready, e.member)
    ensures Sorted(Insert(ready, e))
  {
    if ready == [] {
    } else if Before(e, ready[0]) {
      forall j | 0 <= j < |ready| ensures Before(e, ready[j]) {
        if j > 0 {
          BeforeTransitive(e, ready[0], ready[j]);
        }
      }
    } else {
      assert ready[0].member != e.member;
      LexTrichotomy(e.member, ready[0].member);
      assert forall i | 0 <= i < |ready[1..]| :: ready[1..][i] == ready[i + 1];
      InsertSorted(ready[1..], e);
      var rest := Insert(ready[1..], e);
      forall j | 0 <= j < |rest| ensures Before(ready[0], rest[j]) {
        InsertElements(ready[1..], e);
        assert rest[j] == e || rest[j] in ready[1..];
      }
    }
  }

  lemma HasMemberIsIn(ready: seq<Entry>, member: string)
    ensures HasMember(ready, member) <==> exists e :: e in ready && e.member == member
  {
    if e :| e in ready && e.member == member {
      var i :| 0 <= i < |ready| && ready[i] == e;
      assert ready[i].member == member;
    }
  }

  // ----- The bijection is kept -----

  lemma EmptyConsistent()
    ensures Consistent(EMPTY_QUEUE)
  {
  }

  // The minted member is unlike every member already there.
  lemma NewMemberUnseen(q: QueueState, id: JobId)
    requires Consistent(q) && q.sequence < EXACT_DOUBLES
    ensures !HasMember(q.ready, Member(q.sequence + 1, id))
    ensures SequenceOf(Member(q.sequence + 1, id)) == q.sequence + 1
  {
    FreshMember(q.sequence + 1, id);
    forall i | 0 <= i < |q.ready| ensures q.ready[i].member != Member(q.sequence + 1, id) {
      assert IsCurrent(q, q.ready[i]);
    }
  }

  // The ready set of an enqueue: everything but the job's old entry, plus the new one.
  lemma EnqueuedElements(q: QueueState, id: JobId, priority: int)
    requires Consistent(q) && q.sequence < EXACT_DOUBLES
    ensures Sorted(Enqueued(q, id, priority).ready)
    ensures forall e :: e in Enqueued(q, id, priority).ready <==>
              || e == Entry(Member(q.sequence + 1, id), EntryScore(priority))
              || (e in q.ready && !(id in q.entries && e.member == q.entries[id]))
  {
    var minted := Entry(Member(q.sequence + 1, id), EntryScore(priority));
    var base := if id in q.entries then ZRem(q.ready, q.entries[id]) else q.ready;
    if id in q.entries {
      ZRemElements(q.ready, q.entries[id]);
      ZRemSorted(q.ready, q.entries[id]);
    }
    NewMemberUnseen(q, id);
    HasMemberIsIn(q.ready, minted.member);
    HasMemberIsIn(base, minted.member);
    ZRemElements(base, minted.member);
    assert ZRem(base, minted.member) == base;
    InsertElements(base, minted);
    InsertSorted(base, minted);
  }

  lemma EnqueuedCurrent(q: QueueState, id: JobId, priority: int, e: Entry)
    requires Consistent(q) && q.sequence < EXACT_DOUBLES
    requires e in Enqueued(q, id, priority).ready
    ensures IsCurrent(Enqueued(q, id, priority), e)
  {
    var minted := Entry(Member(q.sequence + 1, id), EntryScore(priority));
    EnqueuedElements(q, id, priority);
    if e == minted {
      MintedCurrent(Enqueued(q, id, priority), id, minted);
    } else {
      var c := CurrentCandidate(q, e);
      StaysCurrent(q, Enqueued(q, id, priority), e, c);
    }
  }

  lemma MintedCurrent(q: QueueState, id: JobId, minted: Entry)
    requires 1 <= q.sequence <= EXACT_DOUBLES && minted.member == Member(q.sequence, id)
    requires id in q.entries && q.entries[id] == minted.member && 0 <= minted.score <= MAX_PRIORITY
    ensures IsCurrent(q, minted)
  {
    FreshMember(q.sequence, id);
    TokenParses(minted.member, id, q.sequence);
  }

  lemma CurrentCandidate(q: QueueState, e: Entry) returns (c: QueueCandidate)
    requires Consistent(q) && e in q.ready
    ensures FromMember(e.member) == Parsed(c)
    ensures IsCurrent(q, e) && c.jobId in q.entries && q.entries[c.jobId] == e.member
  {
    var i :| 0 <= i < |q.ready| && q.ready[i] == e;
    assert IsCurrent(q, q.ready[i]);
    c := FromMember(e.member).candidate;
  }

  lemma StaysCurrent(q: QueueState, q': QueueState, e: Entry, c: QueueCandidate)
    requires IsCurrent(q, e) && FromMember(e.member) == Parsed(c)
    requires c.jobId in q'.entries && q'.entries[c.jobId] == e.member && q.sequence <= q'.sequence
    ensures IsCurrent(q', e)
  {
  }

  lemma EnqueuedQueued(q: QueueState, id: JobId, priority: int, other: JobId)
    requires Consistent(q) && q.sequence < EXACT_DOUBLES
    requires other in Enqueued(q, id, priority).entries
    ensures IsQueued(Enqueued(q, id, priority), other)
  {
    var q' := Enqueued(q, id, priority);
    EnqueuedElements(q, id, priority);
    HasMemberIsIn(q'.ready, q'.entries[other]);
    if other == id {
      FreshMember(q.sequence + 1, id);
      assert Entry(Member(q.sequence + 1, id), EntryScore(priority)) in q'.ready;
    } else {
      assert IsQueued(q, other);
      HasMemberIsIn(q.ready, q.entries[other]);
      var e :| e in q.ready && e.member == q.entries[other];
      if id in q.entries {
        TokensOfDistinctJobs(q, id, other);
      }
      assert e in q'.ready;
    }
  }

  lemma TokensOfDistinctJobs(q: QueueState, id: JobId, other: JobId)
    requires Consistent(q) && id in q.entries && other in q.entries && id != other
    ensures q.entries[id] != q.entries[other]
  {
    assert IsQueued(q, id) && IsQueued(q, other);
    TokenParses(q.entries[id], id, q.sequence);
    TokenParses(q.entries[other], other, q.sequence);
  }

  lemma EnqueuedOnce(q: QueueState, id: JobId, priority: int)
    requires Consistent(q) && q.sequence < EXACT_DOUBLES
    ensures OncePerMember(Enqueued(q, id, priority).ready)
  {
    EnqueuedElements(q, id, priority);
    NewMemberUnseen(q, id);
    HasMemberIsIn(q.ready, Member(q.sequence + 1, id));
  }

  /** An enqueue keeps the bijection and makes the minted token the job's entry. */
  lemma EnqueueKeepsConsistent(q: QueueState, id: JobId, priority: int)
    requires Consistent(q) && q.sequence < EXACT_DOUBLES
    ensures Consistent(Enqueued(q, id, priority))
    ensures Enqueued(q, id, priority).entries == q.entries[id := Member(q.sequence + 1, id)]
  {
    EnqueuedReadyConsistent(q, id, priority);
    EnqueuedEntriesConsistent(q, id, priority);
    EnqueuedMaps(q, id, priority);
  }

  lemma EnqueuedMaps(q: QueueState, id: JobId, priority: int)
    ensures Enqueued(q, id, priority).entries == q.entries[id := Member(q.sequence + 1, id)]
    ensures Enqueued(q, id, priority).sequence == q.sequence + 1
  {
  }

  lemma EnqueuedReadyConsistent(q: QueueState, id: JobId, priority: int)
    requires Consistent(q) && q.sequence < EXACT_DOUBLES
    ensures var q' := Enqueued(q, id, priority);
            && Sorted(q'.ready) && OncePerMember(q'.ready)
            && forall i {:trigger IsCurrent(q', q'.ready[i])} | 0 <= i < |q'.ready| :: IsCurrent(q', q'.ready[i])
  {
    var q' := Enqueued(q, id, priority);
    EnqueuedElements(q, id, priority);
    EnqueuedOnce(q, id, priority);
    forall i | 0 <= i < |q'.ready| ensures IsCurrent(q', q'.ready[i]) {
      EnqueuedCurrent(q, id, priority, q'.ready[i]);
    }
  }

  lemma EnqueuedEntriesConsistent(q: QueueState, id: JobId, priority: int)
    requires Consistent(q) && q.sequence < EXACT_DOUBLES
    ensures var q' := Enqueued(q, id, priority);
            forall other {:trigger IsQueued(q', other)} | other in q'.entries :: IsQueued(q', other)
  {
    var q' := Enqueued(q, id, priority);
    forall other | other in q'.entries ensures IsQueued(q', other) {
      EnqueuedQueued(q, id, priority, other);
    }
  }

  // A candidate as some worker may still hold it: read off the queue at some time.
  predicate Observed(q: QueueState, c: QueueCandidate) {
    IsToken(c.member, c.jobId, q.sequence) && c.sequence == SequenceOf(c.member)
  }

  lemma RemovedElements(q: QueueState, c: QueueCandidate)
    requires Consistent(q) && Observed(q, c)
    ensures Sorted(Removed(q, c).ready)
    ensures forall e :: e in Removed(q, c).ready <==> e in q.ready && e.member != c.member
    ensures HasMember(q.ready, c.member) <==> c.jobId in q.entries && q.entries[c.jobId] == c.member
  {
    ZRemElements(q.ready, c.member);
    ZRemSorted(q.ready, c.member);
    TokenParses(c.member, c.jobId, q.sequence);
    if HasMember(q.ready, c.member) {
      var i :| 0 <= i < |q.ready| && q.ready[i].member == c.member;
      assert IsCurrent(q, q.ready[i]);
    }
    if c.jobId in q.entries && q.entries[c.jobId] == c.member {
      assert IsQueued(q, c.jobId);
    }
  }

  /**
   Removing an observed token keeps the bijection, touches no other job, and
   leaves the job's entry alone unless it is that very token.
   */
  lemma RemoveKeepsConsistent(q: QueueState, c: QueueCandidate)
    requires Consistent(q) && Observed(q, c)
    ensures Consistent(Removed(q, c))
    ensures forall id | id != c.jobId :: id in Removed(q, c).entries <==> id in q.entries
    ensures forall id | id in Removed(q, c).entries :: Removed(q, c).entries[id] == q.entries[id]
    ensures c.jobId in Removed(q, c).entries <==> c.jobId in q.entries && q.entries[c.jobId] != c.member
    ensures !(c.jobId in q.entries && q.entries[c.jobId] == c.member) ==> Removed(q, c) == q
  {
    var q' := Removed(q, c);
    RemovedElements(q, c);
    forall i | 0 <= i < |q'.ready| ensures IsCurrent(q', q'.ready[i]) {
      assert q'.ready[i] in q'.ready;
      RemovedCurrent(q, c, q'.ready[i]);
    }
    forall id | id in q'.entries ensures IsQueued(q', id) {
      RemovedQueued(q, c, id);
    }
    ZRemElements(q.ready, c.member);
  }

  lemma RemovedCurrent(q: QueueState, c: QueueCandidate, e: Entry)
    requires Consistent(q) && Observed(q, c) && e in q.ready && e.member != c.member
    ensures IsCurrent(Removed(q, c), e)
  {
    var own := CurrentCandidate(q, e);
    StaysCurrent(q, Removed(q, c), e, own);
  }

  lemma RemovedQueued(q: QueueState, c: QueueCandidate, id: JobId)
    requires Consistent(q) && Observed(q, c) && id in Removed(q, c).entries
    ensures IsQueued(Removed(q, c), id)
  {
    assert IsQueued(q, id);
    TokenParses(q.entries[id], id, q.sequence);
    TokenParses(c.member, c.jobId, q.sequence);
    RemovedElements(q, c);
    HasMemberIsIn(q.ready, q.entries[id]);
    HasMemberIsIn(Removed(q, c).ready, q.entries[id]);
    var e :| e in q.ready && e.member == q.entries[id];
    assert e in Removed(q, c).ready;
  }

  /**
   Past the last exact double the protection is gone: a re-enqueue can mint the
   token that is already out, and the late removal of the old one takes the new one.
   */
  lemma LateRemovalPastExactDoubles(id: JobId, priority: int)
    ensures var q := QueueState([], map[], EXACT_DOUBLES - 1);
            var first := Enqueued(q, id, priority);
            var second := Enqueued(first, id, priority);
            var observed := QueueCandidate(id, first.entries[id], EXACT_DOUBLES);
            && Consistent(first)
            && id in second.entries
            && id !in Removed(second, observed).entries
  {
    var q := QueueState([], map[], EXACT_DOUBLES - 1);
    EnqueueKeepsConsistent(q, id, priority);
    LuaNumberExact(EXACT_DOUBLES);
    assert DoubleSpacing(EXACT_DOUBLES + 1) == 2 * DoubleSpacing(EXACT_DOUBLES / 2 + 1);
    assert LuaNumber(EXACT_DOUBLES + 1) == EXACT_DOUBLES;
  }

  // ----- peek_many -----

  // QueueCandidate.from_member over the members of a range.
  function Candidates(range: seq<Entry>): seq<ParsedMember> {
    seq(|range|, i requires 0 <= i < |range| => FromMember(range[i].member))
  }

  function PeekMany(q: QueueState, count: int): seq<ParsedMember> {
    Candidates(ZRange(q.ready, 0, count - 1))
  }

  // How many entries "the first `count`" are.
  function Within(count: int, size: nat): nat {
    if count <= 0 then 0 else if count < size then count else size
  }

  /**
   peek_many(count) is the first `count` entries exactly when count is positive or no
   entry is left once -count are taken off the end: ZRANGE reads 0 -1 as the whole set,
   0 -2 as all but the last, and so on.
   */
  lemma PeekManyIsPrefixIff(q: QueueState, count: int)
    ensures PeekMany(q, count) == Candidates(q.ready[..Within(count, |q.ready|)])
       <==> count >= 1 || |q.ready| + count <= 0
    ensures count <= 0 ==> PeekMany(q, count) == Candidates(q.ready[..Within(|q.ready| + count, |q.ready|)])
  {
    if count >= 1 {
      assert ZRange(q.ready, 0, count - 1) == q.ready[..Within(count, |q.ready|)];
    } else {
      assert ZRange(q.ready, 0, count - 1) == q.ready[..Within(|q.ready| + count, |q.ready|)];
      assert |PeekMany(q, count)| == Within(|q.ready| + count, |q.ready|);
    }
  }
}
