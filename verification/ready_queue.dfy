/**
 The ready queue as the object the service holds. Each method is one Redis call or
 script; its effect is the corresponding function of the queue's value.
 */
module ReadyQueues {
  import opened Jobs
  import opened Members
  import opened Queue
  import PriorityFifo

  class ReadyQueue {
    var ready: seq<Entry>
    var entries: map<JobId, string>
    var sequence: nat

    ghost function State(): QueueState
      reads this
    {
      QueueState(ready, entries, sequence)
    }

    constructor ()
      ensures State() == EMPTY_QUEUE
    {
      ready, entries, sequence := [], map[], 0;
    }

    // The enqueue script, command by command.
    method RunEnqueueScript(score: int, id: JobId) returns (member: string)
      modifies this
      ensures State() == EnqueueScript(old(State()), score, id)
      ensures member == entries[id] == Member(sequence, id)
    {
      sequence := sequence + 1;
      member := Padded(SEQUENCE_WIDTH, LuaNumber(sequence)) + ":" + id;
      if id in entries {
        ready := ZRem(ready, entries[id]);
      }
      ready := ZAdd(ready, Entry(member, score));
      entries := entries[id := member];
    }

    // The remove script: drop the exact member, clear the mapping only if it still points there.
    method RunRemoveScript(member: string, id: JobId) returns (removed: bool)
      modifies this
      ensures State() == RemoveScript(old(State()), member, id)
      ensures removed <==> HasMember(old(ready), member)
    {
      var left := ZRem(ready, member);
      removed := |left| != |ready|;
      ZRemCount(ready, member);
      ready := left;
      if id in entries && entries[id] == member {
        entries := entries - {id};
      }
    }

    /** While the counter is exact: one entry for the job, under a token never used before. */
    method Enqueue(id: JobId, priority: int) returns (parsed: ParsedMember)
      modifies this
      ensures State() == Enqueued(old(State()), id, priority)
      ensures parsed == FromMember(entries[id])
      ensures old(Consistent(State()) && sequence < EXACT_DOUBLES) ==>
                && Consistent(State())
                && entries == old(entries)[id := Member(sequence, id)]
                && parsed == Parsed(QueueCandidate(id, Member(sequence, id), sequence))
                && !HasMember(old(ready), entries[id])
    {
      var member := RunEnqueueScript(EntryScore(priority), id);
      parsed := FromMember(member);
      ghost var before := old(State());
      if Consistent(before) && before.sequence < EXACT_DOUBLES {
        EnqueueKeepsConsistent(before, id, priority);
        NewMemberUnseen(before, id);
        FreshMember(sequence, id);
        TokenParses(member, id, sequence);
      }
    }

    /**
     The first `count` entries, for any positive count; and whatever operations the queue
     has been through, that is the first `count` live tickets in service order.
     */
    method PeekMany(count: int) returns (candidates: seq<ParsedMember>)
      ensures candidates == Queue.PeekMany(State(), count)
      ensures count >= 1 ==> candidates == Candidates(ready[..Within(count, |ready|)])
      ensures count >= 1 ==>
                forall a | PriorityFifo.Coupled(State(), a) :: PriorityFifo.NamesFirst(candidates, a.tickets, count)
    {
      candidates := Candidates(ZRange(ready, 0, count - 1));
      PeekManyIsPrefixIff(State(), count);
      if count >= 1 {
        forall a | PriorityFifo.Coupled(State(), a)
          ensures PriorityFifo.NamesFirst(candidates, a.tickets, count)
        {
          PriorityFifo.PeekManyOver(State(), a, count);
        }
      }
    }

    /** The head of the queue: nothing queued beats it. */
    method Peek() returns (candidate: Option<ParsedMember>)
      ensures candidate.None? <==> ready == []
      ensures candidate.Some? ==> candidate.value == FromMember(ready[0].member)
    {
      var candidates := PeekMany(1);
      PeekManyIsPrefixIff(State(), 1);
      candidate := if candidates == [] then None else Some(candidates[0]);
    }

    /** Removal of an observed token: it goes if still there, and nothing else changes. */
    method Remove(c: QueueCandidate) returns (removed: bool)
      modifies this
      ensures State() == Removed(old(State()), c)
      ensures removed <==> HasMember(old(ready), c.member)
      ensures old(Consistent(State()) && Observed(State(), c)) ==>
                && Consistent(State())
                && (removed <==> c.jobId in old(entries) && old(entries)[c.jobId] == c.member)
                && entries == (if removed then old(entries) - {c.jobId} else old(entries))
                && (!removed ==> ready == old(ready))
    {
      removed := RunRemoveScript(c.member, c.jobId);
      ghost var before := old(State());
      if Consistent(before) && Observed(before, c) {
        RemoveKeepsConsistent(before, c);
        RemovedElements(before, c);
      }
    }

    method CurrentMember(id: JobId) returns (member: Option<string>)
      ensures member == if id in entries then Some(entries[id]) else None
    {
      member := if id in entries then Some(entries[id]) else None;
    }
  }

  lemma {:induction false} ZRemCount(ready: seq<Entry>, member: string)
    ensures |ZRem(ready, member)| <= |ready|
    ensures |ZRem(ready, member)| == |ready| <==> !HasMember(ready, member)
  {
    if ready != [] {
      ZRemCount(ready[1..], member);
      if HasMember(ready, member) && ready[0].member != member {
        var i :| 0 <= i < |ready| && ready[i].member == member;
        assert ready[1..][i - 1].member == member;
      }
      if HasMember(ready[1..], member) {
        var i :| 0 <= i < |ready[1..]| && ready[1..][i].member == member;
        assert ready[i + 1].member == member;
      }
    }
  }
}
