/**
 Batch progress: what the handler's loop reports, and what the progress column shows
 while other actors run between two items.
 */
module BatchProgress {
  import opened Jobs
  import opened Statements
  import opened Histories
  import opened Protocol
  import opened Guarantees
  import opened Leases
  import opened World
  import opened Deployments

  // int(processed / total * 100), in exact arithmetic.
  function Percentage(processed: nat, total: nat): int {
    if total == 0 then 100 else processed * 100 / total
  }

  /** The percentage is the whole part of what it stands for, and an empty batch is done. */
  lemma PercentageIsWholePart(processed: nat, total: nat)
    ensures total == 0 ==> Percentage(processed, total) == 100
    ensures total >= 1 ==>
              total * Percentage(processed, total) <= 100 * processed < total * (Percentage(processed, total) + 1)
  {
    if total >= 1 {
      var q := processed * 100 / total;
      assert total * (q + 1) == total * q + total;
    }
  }

  function Reports(count: nat, total: nat): seq<int> {
    seq(count, i requires 0 <= i < count => Percentage(i + 1, total))
  }

  predicate NonDecreasing(column: seq<int>) {
    forall i, j | 0 <= i <= j < |column| :: column[i] <= column[j]
  }

  lemma DivMonotone(a: nat, b: nat, n: nat)
    requires a <= b && n > 0
    ensures a / n <= b / n
  {
    var qa, qb := a / n, b / n;
    assert n * qa <= a;
    assert n * (qb + 1) == n * qb + n;
    assert b < n * (qb + 1);
    LessFactor(n, qa, qb + 1);
  }

  lemma LessFactor(n: int, a: int, b: int)
    requires n > 0 && n * a < n * b
    ensures a < b
  {
  }

  lemma PercentageMonotone(i: nat, j: nat, total: nat)
    requires i <= j <= total && total > 0
    ensures 0 <= Percentage(i, total) <= Percentage(j, total) <= 100
    ensures Percentage(total, total) == 100
  {
    DivMonotone(i * 100, j * 100, total);
    DivMonotone(j * 100, total * 100, total);
    assert total * 100 / total == 100;
  }

  /** An attempt's reports are percentages, and the last one is 100. */
  lemma ReportsReachHundred(total: nat)
    requires total >= 1
    ensures Reports(total, total)[total - 1] == 100
    ensures forall p | p in Reports(total, total) :: 0 <= p <= 100
  {
    PercentageMonotone(total, total, total);
    forall p | p in Reports(total, total) ensures 0 <= p <= 100 {
      var i :| 0 <= i < total && p == Percentage(i + 1, total);
      PercentageMonotone(i + 1, total, total);
    }
  }

  /**
   The reports of one attempt never decrease, but the column starts at whatever an
   earlier attempt left, because a claim does not reset it: the column never goes back
   exactly when that leftover is no more than the first report.
   */
  lemma ColumnNeverDropsIff(leftover: int, count: nat, total: nat)
    requires count <= total
    ensures NonDecreasing([leftover] + Reports(count, total)) <==> count == 0 || leftover <= Percentage(1, total)
  {
    var column := [leftover] + Reports(count, total);
    assert column[0] == leftover && (count > 0 ==> column[1] == Percentage(1, total));
    assert NonDecreasing(column) && count > 0 ==> column[0] <= column[1];
    if leftover <= Percentage(1, total) {
      forall i, j | 0 <= i <= j < |column| ensures column[i] <= column[j] {
        if i > 0 {
          PercentageMonotone(i, j, total);
        } else if j > 0 {
          PercentageMonotone(1, j, total);
        }
      }
    }
  }

  // ----- The column, read off what happened -----

  // A report that reached its row: the column before and after it.
  datatype ProgressWrite = ProgressWrite(before: int, after: int)

  predicate ReportsFor(move: Move, a: Attempt) {
    move.Commit? && move.action.Progress? && move.action.attempt == a
  }

  // The reports of an attempt that were accepted, oldest first.
  function OwnWrites(log: seq<Move>, a: Attempt): seq<ProgressWrite> {
    if log == [] then []
    else
      var before, last := log[..|log| - 1], log[|log| - 1];
      OwnWrites(before, a) + Accepted(Play(EMPTY_STATE, before).store, last, a)
  }

  function Accepted(s: Store, move: Move, a: Attempt): seq<ProgressWrite> {
    if ReportsFor(move, a) && Known(s, a) && Owns(s, a)
    then [ProgressWrite(s.rows[a.jobId].progress, ClampedProgress(move.action.progress))] else []
  }

  lemma OwnWritesOneMore(log: seq<Move>, move: Move, a: Attempt)
    ensures OwnWrites(log + [move], a) == OwnWrites(log, a) + Accepted(Play(EMPTY_STATE, log).store, move, a)
  {
    assert (log + [move])[..|log|] == log;
  }

  lemma OtherMoveReportsNothing(log: seq<Move>, move: Move, mine: Mine, a: Attempt)
    requires mine.task == Handler(a) && SomebodyElses(move, mine)
    ensures OwnWrites(log + [move], a) == OwnWrites(log, a)
  {
    assert !ReportsFor(move, a);
    OwnWritesOneMore(log, move, a);
  }

  lemma {:induction false} OthersReportNothing(log: seq<Move>, moves: seq<Move>, mine: Mine, a: Attempt)
    requires mine.task == Handler(a) && forall move | move in moves :: SomebodyElses(move, mine)
    ensures OwnWrites(log + moves, a) == OwnWrites(log, a)
  {
    if moves == [] {
      assert log + moves == log;
    } else {
      var before, last := moves[..|moves| - 1], moves[|moves| - 1];
      assert log + moves == (log + before) + [last];
      assert last in moves && forall move | move in before :: move in moves;
      OthersReportNothing(log, before, mine, a);
      OtherMoveReportsNothing(log + before, last, mine, a);
    }
  }

  lemma OthersAcceptNothing(log: seq<Move>, log': seq<Move>, mine: Mine, a: Attempt)
    requires OnlyOthers(log, log', mine) && mine.task == Handler(a)
    ensures OwnWrites(log', a) == OwnWrites(log, a)
  {
    assert log' == log + log'[|log|..];
    OthersReportNothing(log, log'[|log|..], mine, a);
  }

  lemma HandlerSpared(s: Store, s': Store, a: Attempt)
    requires Reachable(s) && Known(s, a) && EvolvesBeside(s, s', Handler(a))
    ensures Known(s', a)
    ensures Owns(s', a) ==> Owns(s, a) && s'.rows[a.jobId].progress == s.rows[a.jobId].progress
  {
    var actions :| AllSpare(actions, Handler(a)) && s' == Run(s, actions);
    ReachableInv(s);
    KnownForever(s, actions, a);
    if Owns(s', a) {
      OthersSpareProgress(s, actions, a);
    }
  }

  // Reports accepted one after the other: each finds in the column what the one before it left.
  function Steps(column: seq<int>): seq<ProgressWrite>
    requires column != []
  {
    seq(|column| - 1, i requires 0 <= i < |column| - 1 => ProgressWrite(column[i], column[i + 1]))
  }

  // Two of three items are done when the first attempt fails; the second starts over.
  function RestartedBatch(id: JobId): seq<Action> {
    var first := Attempt(id, "w", 1, 1, 3);
    [Create(id, "batch", 0, None, None, 0, 0),
     Claim(id, "w", 1, 60 * SECOND),
     Progress(first, Percentage(2, 3)),
     Fail(first, "unexpected error"),
     Tick(30 * SECOND),
     Activate(id),
     Claim(id, "w", 2, 60 * SECOND)]
  }

  const FIRST_HISTORY := More(Nothing, Event.Created(None, 0, None, Submission("batch", 0, 0)))

  lemma AfterFirstClaim(id: JobId)
    ensures var s := Run(EMPTY_STORE, RestartedBatch(id)[..2]);
            var first := Attempt(id, "w", 1, 1, 3);
            && s.now == 0 && s.minted == {1}
            && id in s.rows && id in s.past
            && s.rows[id] == ClaimValues(BuildJob("batch", 0, None, None, 0, 0), "w", 1, 60 * SECOND, 0)
            && s.past[id] == More(FIRST_HISTORY, Claimed(first, 0))
  {
    var acts := RestartedBatch(id);
    RunTake(EMPTY_STORE, acts, 0);
    RunTake(EMPTY_STORE, acts, 1);
    assert Run(EMPTY_STORE, acts[..0]) == EMPTY_STORE;
  }

  lemma ReportFirst(s: Store, id: JobId, first: Attempt, progress: int)
    requires id in s.rows && id in s.past && OwnedBy(s.rows[id], first) && first.jobId == id
    requires s.past[id].More? && s.past[id].last.Claimed? && s.past[id].last.attempt == first
    ensures var s' := Next(s, Progress(first, progress));
            && s'.now == s.now && s'.minted == s.minted
            && Known(s', first) && Owns(s', first)
            && s'.rows[id] == ProgressValues(s.rows[id], progress)
  {
  }

  lemma AfterFirstReport(id: JobId)
    ensures var s := Run(EMPTY_STORE, RestartedBatch(id)[..3]);
            var first := Attempt(id, "w", 1, 1, 3);
            && s.now == 0 && s.minted == {1}
            && Known(s, first) && Owns(s, first)
            && s.rows[id].progress == 66 && s.rows[id].attemptCount == 1 && s.rows[id].maxAttempts == 3
  {
    var acts := RestartedBatch(id);
    AfterFirstClaim(id);
    RunTake(EMPTY_STORE, acts, 2);
    ReportFirst(Run(EMPTY_STORE, acts[..2]), id, Attempt(id, "w", 1, 1, 3), Percentage(2, 3));
  }

  lemma FailFirst(s: Store, id: JobId, first: Attempt, error: string)
    requires Known(s, first) && Owns(s, first) && first.jobId == id
    requires first.attemptCount == s.rows[id].attemptCount == 1 && first.maxAttempts == s.rows[id].maxAttempts == 3
    ensures var s' := Next(s, Fail(first, error));
            && s'.now == s.now && s'.minted == s.minted
            && id in s'.rows && id in s'.past
            && s'.rows[id].status == SCHEDULED && s'.rows[id].scheduledAt == Some(s.now + 30 * SECOND)
            && s'.rows[id].progress == s.rows[id].progress
            && s'.rows[id].attemptCount == 1 && s'.rows[id].maxAttempts == 3
  {
  }

  lemma AfterFirstFailure(id: JobId)
    ensures var s := Run(EMPTY_STORE, RestartedBatch(id)[..4]);
            && s.now == 0 && s.minted == {1}
            && id in s.rows && id in s.past
            && s.rows[id].status == SCHEDULED && s.rows[id].scheduledAt == Some(30 * SECOND)
            && s.rows[id].progress == 66 && s.rows[id].attemptCount == 1 && s.rows[id].maxAttempts == 3
  {
    var acts := RestartedBatch(id);
    AfterFirstReport(id);
    RunTake(EMPTY_STORE, acts, 3);
    FailFirst(Run(EMPTY_STORE, acts[..3]), id, Attempt(id, "w", 1, 1, 3), "unexpected error");
  }

  lemma AfterActivation(id: JobId)
    ensures var s := Run(EMPTY_STORE, RestartedBatch(id)[..6]);
            && s.now == 30 * SECOND && s.minted == {1}
            && id in s.rows && id in s.past
            && Claimable(s.rows[id]) && s.rows[id].progress == 66
            && s.rows[id].attemptCount == 1 && s.rows[id].maxAttempts == 3
  {
    var acts := RestartedBatch(id);
    AfterFirstFailure(id);
    RunTake(EMPTY_STORE, acts, 4);
    RunTake(EMPTY_STORE, acts, 5);
  }

  lemma ClaimSecond(s: Store, id: JobId, second: Attempt)
    requires id in s.rows && id in s.past && Claimable(s.rows[id])
    requires s.rows[id].attemptCount == 1 && s.rows[id].maxAttempts == 3 && 2 !in s.minted
    requires second == Attempt(id, "w", 2, 2, 3)
    ensures var s' := Next(s, Claim(id, "w", 2, 60 * SECOND));
            && Known(s', second) && Owns(s', second)
            && s'.rows[id].progress == s.rows[id].progress
  {
  }

  /** A run in which the column drops from 66 to 33 under its rightful owner. */
  lemma RestartLowersColumn(id: JobId)
    ensures var s := Run(EMPTY_STORE, RestartedBatch(id));
            var second := Attempt(id, "w", 2, 2, 3);
            && Known(s, second) && Owns(s, second)
            && s.rows[id].progress == 66
            && Next(s, Progress(second, Percentage(1, 3))).rows[id].progress == 33
  {
    var acts := RestartedBatch(id);
    AfterActivation(id);
    RunTake(EMPTY_STORE, acts, 6);
    assert acts[..7] == acts;
    ClaimSecond(Run(EMPTY_STORE, acts[..6]), id, Attempt(id, "w", 2, 2, 3));
  }

  lemma RunTake(s: Store, actions: seq<Action>, n: nat)
    requires n < |actions|
    ensures Run(s, actions[..n + 1]) == Next(Run(s, actions[..n]), actions[n])
  {
    assert actions[..n + 1][..n] == actions[..n];
  }

  /**
   The handler's loop, with its own heartbeat and everybody else running between items. An
   owner's column goes from what it finds through the first reports in order, nothing else
   being accepted from this attempt in between, and never goes back exactly when it starts
   no higher than the first report. The loop raises exactly when ownership was gone at a
   report, and then stops. At the end an owner's column is 100.
   */
  method HandleBatch(deployment: Deployment, a: Attempt, total: nat) returns (lost: bool, written: seq<int>)
    requires deployment.Tied() && Known(deployment.table.State(), a)
    modifies deployment, deployment.table, deployment.queue
    ensures deployment.Tied() && old(deployment.log) <= deployment.log && Known(deployment.table.State(), a)
    ensures |written| <= total && written == Reports(|written|, total)
    ensures Owns(old(deployment.table.State()), a) ==>
              ShowsColumn(old(deployment.log), deployment.log, a,
                          [old(deployment.table.rows)[a.jobId].progress] + written, total)
    ensures !Owns(old(deployment.table.State()), a) ==>
              written == [] && OwnWrites(deployment.log, a) == OwnWrites(old(deployment.log), a)
    ensures lost <==> |written| < total
    ensures lost ==> !Owns(deployment.table.State(), a)
    ensures Owns(deployment.table.State(), a) && total >= 1 ==> deployment.table.rows[a.jobId].progress == 100
    ensures !lost && total >= 1 ==> Owns(deployment.table.State(), a)
    ensures Owns(deployment.table.State(), a) ==> Owns(old(deployment.table.State()), a)
  {
    var processed := 0;
    written := [];
    lost := false;
    ghost var start := if Owns(deployment.table.State(), a) then deployment.table.rows[a.jobId].progress else 0;
    while processed < total
      invariant 0 <= processed <= total
      invariant deployment.Tied() && old(deployment.log) <= deployment.log && Known(deployment.table.State(), a)
      invariant Reported(old(deployment.log), deployment.log, a, start, processed, total, written)
      invariant Owns(deployment.table.State(), a) ==>
                  deployment.table.rows[a.jobId].progress == LastShown(start, processed, total)
      invariant processed >= 1 ==> Owns(deployment.table.State(), a)
      invariant Owns(deployment.table.State(), a) ==> Owns(old(deployment.table.State()), a)
    {
      processed := processed + 1;
      var owned := ReportNext(deployment, a, processed, total, old(deployment.log), start, written);
      if !owned {
        ReportedColumn(old(deployment.log), deployment.log, a, start, |written|, total, written);
        return true, written;
      }
      written := written + [Percentage(processed, total)];
    }
    ReportedColumn(old(deployment.log), deployment.log, a, start, total, total, written);
    if total >= 1 {
      PercentageMonotone(total, total, total);
    }
  }

  function LastShown(start: int, count: nat, total: nat): int {
    if count == 0 then start else Percentage(count, total)
  }

  // Since `log`, exactly the first `count` reports of the attempt were accepted, in order.
  ghost predicate Reported(log: seq<Move>, log': seq<Move>, a: Attempt, start: int, count: nat, total: nat,
                           written: seq<int>)
  {
    && written == Reports(count, total)
    && OwnWrites(log', a) == OwnWrites(log, a) + Steps([start] + written)
  }

  /**
   Since `log` the attempt's accepted reports took the column through exactly these values,
   and it never went back exactly if it had no higher value to start from than the first report.
   */
  ghost predicate ShowsColumn(log: seq<Move>, log': seq<Move>, a: Attempt, column: seq<int>, total: nat)
    requires column != []
  {
    && OwnWrites(log', a) == OwnWrites(log, a) + Steps(column)
    && (NonDecreasing(column) <==> |column| == 1 || column[0] <= Percentage(1, total))
  }

  lemma ReportedColumn(log: seq<Move>, log': seq<Move>, a: Attempt, start: int, count: nat, total: nat,
                       written: seq<int>)
    requires Reported(log, log', a, start, count, total, written) && count <= total
    ensures ShowsColumn(log, log', a, [start] + written, total)
    ensures count == 0 ==> OwnWrites(log', a) == OwnWrites(log, a)
  {
    ColumnNeverDropsIff(start, count, total);
  }

  lemma ReportedOneMore(log: seq<Move>, log': seq<Move>, log'': seq<Move>, a: Attempt,
                        start: int, count: nat, total: nat, written: seq<int>)
    requires Reported(log, log', a, start, count, total, written)
    requires OwnWrites(log'', a) == OwnWrites(log', a) +
               [ProgressWrite(LastShown(start, count, total), Percentage(count + 1, total))]
    ensures Reported(log, log'', a, start, count + 1, total, written + [Percentage(count + 1, total)])
  {
    ReportGrows(OwnWrites(log, a), OwnWrites(log', a), OwnWrites(log'', a), start, count, total, written);
  }

  lemma ReportGrows(ws: seq<ProgressWrite>, ws': seq<ProgressWrite>, ws'': seq<ProgressWrite>, start: int, count: nat,
                    total: nat, written: seq<int>)
    requires written == Reports(count, total) && ws' == ws + Steps([start] + written)
    requires ws'' == ws' + [ProgressWrite(LastShown(start, count, total), Percentage(count + 1, total))]
    ensures written + [Percentage(count + 1, total)] == Reports(count + 1, total)
    ensures ws'' == ws + Steps([start] + (written + [Percentage(count + 1, total)]))
  {
    var column, next := [start] + written, Percentage(count + 1, total);
    ReportsOneMore(count, total);
    ShownLast(start, count, total);
    ColumnGrows(ws, ws', ws'', column, next);
    assert [start] + (written + [next]) == column + [next];
  }

  lemma ColumnGrows(ws: seq<ProgressWrite>, ws': seq<ProgressWrite>, ws'': seq<ProgressWrite>,
                   column: seq<int>, next: int)
    requires column != [] && ws' == ws + Steps(column)
    requires ws'' == ws' + [ProgressWrite(column[|column| - 1], next)]
    ensures ws'' == ws + Steps(column + [next])
  {
    StepsAppend(column, next);
  }

  lemma ReportsOneMore(count: nat, total: nat)
    ensures Reports(count + 1, total) == Reports(count, total) + [Percentage(count + 1, total)]
  {
  }

  lemma ShownLast(start: int, count: nat, total: nat)
    ensures ([start] + Reports(count, total))[count] == LastShown(start, count, total)
  {
  }

  // The next report of a loop that has shown `written` so far.
  method ReportNext(deployment: Deployment, a: Attempt, processed: nat, total: nat,
                    ghost log: seq<Move>, ghost start: int, ghost written: seq<int>) returns (owned: bool)
    requires deployment.Tied() && Known(deployment.table.State(), a) && 1 <= processed <= total
    requires Reported(log, deployment.log, a, start, processed - 1, total, written)
    requires Owns(deployment.table.State(), a) ==>
               deployment.table.rows[a.jobId].progress == LastShown(start, processed - 1, total)
    modifies deployment, deployment.table, deployment.queue
    ensures deployment.Tied() && old(deployment.log) <= deployment.log && Known(deployment.table.State(), a)
    ensures owned <==> Owns(deployment.table.State(), a)
    ensures owned ==>
              && Owns(old(deployment.table.State()), a)
              && deployment.table.rows[a.jobId].progress == LastShown(start, processed, total)
              && Reported(log, deployment.log, a, start, processed, total, written + [Percentage(processed, total)])
    ensures !owned ==> Reported(log, deployment.log, a, start, processed - 1, total, written)
  {
    ghost var before, done: nat := deployment.log, processed - 1;
    owned := ReportItem(deployment, a, processed, total);
    if owned {
      ReportedOneMore(log, before, deployment.log, a, start, done, total, written);
    }
  }

  // One item and its report: heartbeat and everybody else run while the item is worked on.
  method ReportItem(deployment: Deployment, a: Attempt, processed: nat, total: nat) returns (owned: bool)
    requires deployment.Tied() && Known(deployment.table.State(), a) && 1 <= processed <= total
    modifies deployment, deployment.table, deployment.queue
    ensures deployment.Tied() && old(deployment.log) <= deployment.log && Known(deployment.table.State(), a)
    ensures owned <==> Owns(deployment.table.State(), a)
    ensures owned ==>
              && Owns(old(deployment.table.State()), a)
              && deployment.table.rows[a.jobId].progress == Percentage(processed, total)
    ensures OwnWrites(deployment.log, a) == OwnWrites(old(deployment.log), a) +
              if owned then [ProgressWrite(old(deployment.table.rows)[a.jobId].progress, Percentage(processed, total))]
              else []
  {
    ghost var s := deployment.table.State();
    assert Reachable(s) by { deployment.TiedArises(); }
    deployment.Others(Mine({}, {}, {}, Handler(a)), 0);
    HandlerSpared(s, deployment.table.State(), a);
    OthersAcceptNothing(old(deployment.log), deployment.log, Mine({}, {}, {}, Handler(a)), a);
    PercentageMonotone(processed, total, total);
    OwnWritesOneMore(deployment.log, Commit(Progress(a, Percentage(processed, total))), a);
    owned := deployment.Report(a, Percentage(processed, total));
  }

  lemma StepsAppend(column: seq<int>, report: int)
    requires column != []
    ensures Steps(column + [report]) == Steps(column) + [ProgressWrite(column[|column| - 1], report)]
  {
  }
}
