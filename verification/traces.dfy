/**
 What one runner and one attempt have done, read off the log of moves: the jobs a runner
 has claimed, and the writes of an attempt with what the fence made of each.
 */
module Traces {
  import opened Jobs
  import opened Statements
  import opened Protocol
  import opened Leases
  import opened World
  import opened Deployments

  lemma Associative<T>(a: seq<T>, b: seq<T>, c: seq<T>)
    ensures a + (b + c) == (a + b) + c
  {
  }

  // ----- Claims of a runner -----

  function ClaimOf(w: State, move: Move, actor: nat): seq<JobId> {
    if move.ClaimPeeked? && move.actor == actor && PcOf(w, actor).Peeked? && move.token !in w.store.minted then
      var id := PcOf(w, actor).candidate.jobId;
      if id in w.store.rows && Claimable(w.store.rows[id]) then [id] else []
    else []
  }

  // The jobs this runner's claims have gone through for, in order.
  function ClaimsBy(log: seq<Move>, actor: nat): seq<JobId> {
    if log == [] then []
    else
      var before, last := log[..|log| - 1], log[|log| - 1];
      ClaimsBy(before, actor) + ClaimOf(Play(EMPTY_STATE, before), last, actor)
  }

  predicate AreClaims(log: seq<Move>, actor: nat, ids: seq<JobId>) {
    ids == ClaimsBy(log, actor)
  }

  // From `log` to `log'` just these claims of the runner went through, in this order.
  ghost predicate Claimed(log: seq<Move>, log': seq<Move>, actor: nat, ids: seq<JobId>) {
    forall earlier {:trigger AreClaims(log, actor, earlier)} | AreClaims(log, actor, earlier) ::
      AreClaims(log', actor, earlier + ids)
  }

  lemma ClaimedMeans(log: seq<Move>, log': seq<Move>, actor: nat, ids: seq<JobId>)
    ensures Claimed(log, log', actor, ids) <==> ClaimsBy(log', actor) == ClaimsBy(log, actor) + ids
  {
    assert AreClaims(log, actor, ClaimsBy(log, actor));
  }

  lemma ClaimedTrans(log: seq<Move>, log': seq<Move>, log'': seq<Move>, actor: nat, ids: seq<JobId>, more: seq<JobId>)
    requires Claimed(log, log', actor, ids) && Claimed(log', log'', actor, more)
    ensures Claimed(log, log'', actor, ids + more)
  {
    forall earlier | AreClaims(log, actor, earlier) ensures AreClaims(log'', actor, earlier + (ids + more)) {
      assert AreClaims(log', actor, earlier + ids);
      Associative(earlier, ids, more);
    }
  }

  predicate ClaimsAgain(move: Move, actor: nat) {
    move.ClaimPeeked? && move.actor == actor
  }

  // The runner has not even tried to claim.
  ghost predicate NoClaims(log: seq<Move>, log': seq<Move>, actor: nat) {
    log <= log' && forall i | |log| <= i < |log'| :: !ClaimsAgain(log'[i], actor)
  }

  lemma ClaimsOneMore(log: seq<Move>, move: Move, actor: nat)
    ensures ClaimsBy(log + [move], actor) == ClaimsBy(log, actor) + ClaimOf(Play(EMPTY_STATE, log), move, actor)
  {
    assert (log + [move])[..|log|] == log;
  }

  lemma {:induction false} NoClaimsMeans(log: seq<Move>, log': seq<Move>, actor: nat)
    requires NoClaims(log, log', actor)
    ensures ClaimsBy(log', actor) == ClaimsBy(log, actor)
    decreases |log'|
  {
    if log == log' {
    } else {
      var before, last := log'[..|log'| - 1], log'[|log'| - 1];
      assert log' == before + [last];
      NoClaimsMeans(log, before, actor);
      ClaimsOneMore(before, last, actor);
    }
  }

  lemma NothingClaimed(log: seq<Move>, log': seq<Move>, actor: nat)
    requires NoClaims(log, log', actor)
    ensures Claimed(log, log', actor, [])
  {
    NoClaimsMeans(log, log', actor);
    ClaimedMeans(log, log', actor, []);
  }

  // One claim, and nothing of the kind before and after it.
  lemma OneClaim(log: seq<Move>, before: seq<Move>, log': seq<Move>, claim: Move, actor: nat, ids: seq<JobId>)
    requires NoClaims(log, before, actor) && NoClaims(before + [claim], log', actor)
    requires ClaimOf(Play(EMPTY_STATE, before), claim, actor) == ids
    ensures Claimed(log, log', actor, ids)
  {
    NoClaimsMeans(log, before, actor);
    ClaimsOneMore(before, claim, actor);
    NoClaimsMeans(before + [claim], log', actor);
    ClaimedMeans(log, log', actor, ids);
  }

  lemma OnlyOthersClaimNothing(log: seq<Move>, log': seq<Move>, mine: Mine, actor: nat)
    requires OnlyOthers(log, log', mine) && actor in mine.actors
    ensures NoClaims(log, log', actor)
  {
    forall i | |log| <= i < |log'| ensures !ClaimsAgain(log'[i], actor) {
      assert log'[i] in log'[|log|..];
    }
  }

  // ----- Writes of an attempt -----

  // A fenced write that is a task's own to make, and whether the fence let it through.
  datatype TaskWrite = TaskWrite(action: Action, accepted: bool)

  function WriteIn(s: Store, move: Move, task: Task): seq<TaskWrite> {
    if move.Commit? && !SparesTask(move.action, task)
    then [TaskWrite(move.action, Known(s, task.attempt) && Owns(s, task.attempt))] else []
  }

  function TaskWrites(log: seq<Move>, task: Task): seq<TaskWrite> {
    if log == [] then []
    else
      var before, last := log[..|log| - 1], log[|log| - 1];
      TaskWrites(before, task) + WriteIn(Play(EMPTY_STATE, before).store, last, task)
  }

  predicate AreWrites(log: seq<Move>, task: Task, writes: seq<TaskWrite>) {
    writes == TaskWrites(log, task)
  }

  // From `log` to `log'` the task made just these writes, in this order.
  ghost predicate Wrote(log: seq<Move>, log': seq<Move>, task: Task, writes: seq<TaskWrite>) {
    forall earlier {:trigger AreWrites(log, task, earlier)} | AreWrites(log, task, earlier) ::
      AreWrites(log', task, earlier + writes)
  }

  lemma WroteMeans(log: seq<Move>, log': seq<Move>, task: Task, writes: seq<TaskWrite>)
    ensures Wrote(log, log', task, writes) <==> TaskWrites(log', task) == TaskWrites(log, task) + writes
  {
    assert AreWrites(log, task, TaskWrites(log, task));
  }

  lemma WroteTrans(log: seq<Move>, log': seq<Move>, log'': seq<Move>, task: Task, writes: seq<TaskWrite>,
                   more: seq<TaskWrite>)
    requires Wrote(log, log', task, writes) && Wrote(log', log'', task, more)
    ensures Wrote(log, log'', task, writes + more)
  {
    forall earlier | AreWrites(log, task, earlier) ensures AreWrites(log'', task, earlier + (writes + more)) {
      assert AreWrites(log', task, earlier + writes);
      Associative(earlier, writes, more);
    }
  }

  lemma WroteOne(log: seq<Move>, move: Move, task: Task)
    ensures Wrote(log, log + [move], task, WriteIn(Play(EMPTY_STATE, log).store, move, task))
  {
    assert (log + [move])[..|log|] == log;
    WroteMeans(log, log + [move], task, WriteIn(Play(EMPTY_STATE, log).store, move, task));
  }

  lemma WroteNothing(log: seq<Move>, task: Task)
    ensures Wrote(log, log, task, [])
  {
    WroteMeans(log, log, task, []);
  }

  // Between two moments of the log somebody else's moves only.
  lemma {:induction false} OthersWriteNothing(log: seq<Move>, moves: seq<Move>, mine: Mine, task: Task)
    requires mine.task == task && forall move | move in moves :: SomebodyElses(move, mine)
    ensures Wrote(log, log + moves, task, [])
  {
    if moves == [] {
      assert log + moves == log;
      WroteNothing(log, task);
    } else {
      var before, last := moves[..|moves| - 1], moves[|moves| - 1];
      assert log + moves == (log + before) + [last];
      assert last in moves && forall move | move in before :: move in moves;
      OthersWriteNothing(log, before, mine, task);
      assert WriteIn(Play(EMPTY_STATE, log + before).store, last, task) == [];
      WroteOne(log + before, last, task);
      WroteTrans(log, log + before, log + moves, task, [], []);
    }
  }

  lemma OnlyOthersWriteNothing(log: seq<Move>, log': seq<Move>, mine: Mine, task: Task)
    requires OnlyOthers(log, log', mine) && mine.task == task
    ensures Wrote(log, log', task, [])
  {
    assert log' == log + log'[|log|..];
    OthersWriteNothing(log, log'[|log|..], mine, task);
  }
}
