/**
 Reports for executions that have left the queue. The handler accepts them: what a
 finished execution says is what the last report wrote.
 */
module LateReports {
  import opened Tables
  import opened Statements
  import Scenarios

  // The last statement of a successful report on `e`; of a failed one.
  predicate MarksSucceeded(s: Sys, l: Label, e: Uuid) {
    l.Exec? && l.c in s.calls && s.calls[l.c].e == e && s.calls[l.c].pc.MarkDone?
  }

  predicate MarksFailed(s: Sys, l: Label, e: Uuid) {
    l.Exec? && l.c in s.calls && s.calls[l.c].e == e && s.calls[l.c].pc.MarkDead?
  }

  predicate Marks(s: Sys, l: Label, e: Uuid) {
    MarksSucceeded(s, l, e) || MarksFailed(s, l, e)
  }

  ghost predicate OffQueue(s: Sys, e: Uuid) {
    e in s.db.executions && e !in s.db.queue
  }

  ghost predicate RowIs(s: Sys, e: Uuid, x: Execution) {
    OffQueue(s, e) && s.db.executions[e] == x
  }

  // The history row `x` after the last statement of the report `call` at time `clock`.
  function Written(x: Execution, call: Call, clock: Time): Execution {
    if call.pc.MarkDone? then
      x.(status := Succeeded, exitCode := Some(0), result := call.req.result, finishedAt := Some(clock))
    else
      x.(status := Failed, exitCode := call.req.exitCode, errorMessage := Some(call.req.error),
         finishedAt := Some(clock))
  }

  lemma StaysOff(s: Sys, l: Label, e: Uuid)
    requires Inv(s) && Enabled(s, l) && OffQueue(s, e)
    ensures OffQueue(Next(s, l), e)
  {
    StepKeeps(s, l);
  }

  lemma StatementLeaves(db: Db, clock: Time, call: Call, e: Uuid)
    requires e in db.executions && !(call.e == e && (call.pc.MarkDone? || call.pc.MarkDead?))
    ensures var d := RunStatement(db, clock, call).0; e in d.executions && d.executions[e] == db.executions[e]
  {
  }

  lemma StatementWrites(db: Db, clock: Time, call: Call)
    requires call.e in db.executions && (call.pc.MarkDone? || call.pc.MarkDead?)
    ensures var d := RunStatement(db, clock, call).0;
            call.e in d.executions && d.executions[call.e] == Written(db.executions[call.e], call, clock)
  {
  }

  lemma OthersLeave(s: Sys, l: Label, e: Uuid)
    requires Consistent(s.db) && Enabled(s, l) && OffQueue(s, e) && !l.Exec?
    ensures e in Next(s, l).db.executions && Next(s, l).db.executions[e] == s.db.executions[e]
  {
  }

  function RowAfter(s: Sys, l: Label, e: Uuid, x: Execution): Execution {
    if Marks(s, l, e) then Written(x, s.calls[l.c], s.clock) else x
  }

  // Off the queue, nothing but the last statement of a report touches the history row.
  lemma RowStep(s: Sys, l: Label, e: Uuid, x: Execution, s': Sys)
    requires Inv(s) && Enabled(s, l) && s' == Next(s, l) && RowIs(s, e, x)
    ensures RowIs(s', e, RowAfter(s, l, e, x))
  {
    StaysOff(s, l, e);
    if l.Exec? {
      if Marks(s, l, e) {
        StatementWrites(s.db, s.clock, s.calls[l.c]);
      } else {
        StatementLeaves(s.db, s.clock, s.calls[l.c], e);
      }
    } else {
      OthersLeave(s, l, e);
    }
  }

  // Step `i` is the last report statement on `e` before step `n`.
  ghost predicate LastMark(states: seq<Sys>, labels: seq<Label>, i: int, n: int, e: Uuid)
    requires 0 <= i < n <= |labels| <= |states|
  {
    Marks(states[i], labels[i], e) && forall k | i < k < n :: !Marks(states[k], labels[k], e)
  }

  ghost predicate Unmarked(states: seq<Sys>, labels: seq<Label>, m: int, n: int, e: Uuid)
    requires 0 <= m <= n <= |labels| <= |states|
  {
    forall k | m <= k < n :: !Marks(states[k], labels[k], e)
  }

  // The row says what the report `call` wrote at time `clock`.
  predicate SaysWhat(x: Execution, call: Call, clock: Time) {
    && x.finishedAt == Some(clock)
    && if call.pc.MarkDone? then x.status.Succeeded? && x.exitCode == Some(0) && x.result == call.req.result
       else x.status.Failed? && x.exitCode == call.req.exitCode && x.errorMessage == Some(call.req.error)
  }

  // What the reports between steps `m` and `n` make of the row `x`.
  ghost function Reported(states: seq<Sys>, labels: seq<Label>, m: nat, n: nat, e: Uuid, x: Execution): Execution
    requires m <= n <= |labels| <= |states|
    decreases n - m
  {
    if m == n then x else RowAfter(states[n - 1], labels[n - 1], e, Reported(states, labels, m, n - 1, e, x))
  }

  // Once an execution is off the queue, its history row is what the last statements of
  // the reports on it have made of it since; nothing else has touched it.
  lemma {:induction false} OnlyReportsWrite(states: seq<Sys>, labels: seq<Label>, m: nat, n: nat, e: Uuid, x: Execution)
    requires IsRun(states, labels) && m <= n <= |labels| && RowIs(states[m], e, x)
    ensures RowIs(states[n], e, Reported(states, labels, m, n, e, x))
    decreases n - m
  {
    if m < n {
      OnlyReportsWrite(states, labels, m, n - 1, e, x);
      RunInv(states, labels, n - 1);
      RowStep(states[n - 1], labels[n - 1], e, Reported(states, labels, m, n - 1, e, x), states[n]);
    }
  }

  // The row `y` says what the last report before step `n` wrote.
  ghost predicate Told(states: seq<Sys>, labels: seq<Label>, m: nat, n: nat, e: Uuid, y: Execution)
    requires m <= n <= |labels| <= |states|
  {
    exists i :: m <= i < n && LastMark(states, labels, i, n, e) && labels[i].c in states[i].calls
             && SaysWhat(y, states[i].calls[labels[i].c], states[i].clock)
  }

  lemma ToldStill(states: seq<Sys>, labels: seq<Label>, m: nat, n: nat, e: Uuid, y: Execution)
    requires m <= n < |labels| <= |states| && Told(states, labels, m, n, e, y) && !Marks(states[n], labels[n], e)
    ensures Told(states, labels, m, n + 1, e, y)
  {
    var i :| m <= i < n && LastMark(states, labels, i, n, e) && labels[i].c in states[i].calls
             && SaysWhat(y, states[i].calls[labels[i].c], states[i].clock);
    assert LastMark(states, labels, i, n + 1, e);
  }

  // Status, exit code and finish time are those of the last report, whatever the row said
  // before; without one the row is unchanged.
  lemma {:induction false} LastReportWins(states: seq<Sys>, labels: seq<Label>, m: nat, n: nat, e: Uuid, x: Execution)
    requires m <= n <= |labels| <= |states|
    ensures var y := Reported(states, labels, m, n, e, x);
            if Unmarked(states, labels, m, n, e) then y == x else Told(states, labels, m, n, e, y)
    decreases n - m
  {
    if m < n {
      var y := Reported(states, labels, m, n - 1, e, x);
      LastReportWins(states, labels, m, n - 1, e, x);
      if Marks(states[n - 1], labels[n - 1], e) {
        assert LastMark(states, labels, n - 1, n, e);
      } else if !Unmarked(states, labels, m, n - 1, e) {
        ToldStill(states, labels, m, n - 1, e, y);
      }
    }
  }

  ghost predicate Has(s: Sys, e: Uuid, status: Status) {
    e in s.db.executions && s.db.executions[e].status == status
  }

  // SUCCEEDED and FAILED stay exactly as long as no report statement says otherwise.
  ghost predicate StaysSo(states: seq<Sys>, m: nat, n: nat, e: Uuid, status: Status) {
    forall k | m <= k <= n < |states| :: Has(states[k], e, status)
  }

  predicate Contradicts(s: Sys, l: Label, e: Uuid, status: Status) {
    if status.Succeeded? then MarksFailed(s, l, e) else MarksSucceeded(s, l, e)
  }

  lemma StatusStep(states: seq<Sys>, labels: seq<Label>, n: nat, e: Uuid, status: Status)
    requires IsRun(states, labels) && n < |labels| && Has(states[n], e, status) && Finished(status)
    ensures Has(states[n + 1], e, status) <==> !Contradicts(states[n], labels[n], e, status)
  {
    NoFinishedExecutionReturns(states, labels, n, n, e);
    RunInv(states, labels, n);
    RowStep(states[n], labels[n], e, states[n].db.executions[e], states[n + 1]);
  }

  ghost predicate Uncontradicted(states: seq<Sys>, labels: seq<Label>, m: nat, n: nat, e: Uuid, status: Status)
    requires m <= n <= |labels| <= |states|
  {
    forall i | m <= i < n :: !Contradicts(states[i], labels[i], e, status)
  }

  lemma {:induction false} FinalExactlyWhenUncontradicted(states: seq<Sys>, labels: seq<Label>, m: nat, n: nat, e: Uuid,
                                                          status: Status)
    requires IsRun(states, labels) && m <= n <= |labels| && Finished(status)
    requires Has(states[m], e, status)
    ensures StaysSo(states, m, n, e, status) <==> Uncontradicted(states, labels, m, n, e, status)
    decreases n - m
  {
    if m < n {
      FinalExactlyWhenUncontradicted(states, labels, m, n - 1, e, status);
      if StaysSo(states, m, n - 1, e, status) {
        StatusStep(states, labels, n - 1, e, status);
      }
    }
  }

  // ---------------------------------------------------------------------
  // Reports that come late
  // ---------------------------------------------------------------------

  // A success that arrives for a dead execution: it has succeeded, keeps the old error
  // message and its letter, and the letter can still be retried.
  lemma LateSuccess(s: Sys, c: nat, e: Uuid, req: ResultRequest, r: nat, s1: Sys, s2: Sys, s3: Sys)
    requires Inv(s) && e in s.db.dead && OffQueue(s, e) && s.db.executions[e].status.Failed?
    requires c !in s.calls && r !in s.retries && ReportsSuccess(req)
    requires s1 == Next(s, Arrive(c, e, req))
    requires Enabled(s1, Exec(c)) ==> s2 == Next(s1, Exec(c))
    requires Enabled(s2, Exec(c)) ==> s3 == Next(s2, Exec(c))
    ensures Enabled(s, Arrive(c, e, req)) && Enabled(s1, Exec(c)) && Enabled(s2, Exec(c)) && Enabled(s3, ReadDead(r, e))
    ensures e in s3.db.executions && s3.db.executions[e].status.Succeeded? && e in s3.db.dead
    ensures s3.db.executions[e].errorMessage == s.db.executions[e].errorMessage && s3.calls == s.calls
  {
    assert e in s.locks ==> LockOk(s, e);
    assert s2.db == DeleteQueueRow(s.db, e) && s2.calls[c] == Call(e, req, MarkDone);
  }

  // A failure that arrives for an execution that has succeeded: it has failed, keeps the
  // old result, and there is no letter to retry.
  lemma LateFailure(s: Sys, e: Uuid, req: ResultRequest, now: Time)
    requires Inv(s) && OffQueue(s, e) && s.db.executions[e].status.Succeeded? && !ReportsSuccess(req)
    ensures var d := Report(s.db, e, req, now);
            && e in d.executions && d.executions[e].status.Failed?
            && d.executions[e].result == s.db.executions[e].result
            && d.dead == s.db.dead && d.queue == s.db.queue
  {
  }

  // A run from empty tables, one thing at a time: an execution has succeeded, and its
  // letter has been retried all the same.
  lemma SucceededAndRetried(e: Uuid, x: Uuid)
    requires e != x
    ensures exists s :: Reachable(s, true) && Has(s, e, Succeeded)
                     && x in s.db.queue && x in s.db.executions && s.db.executions[x].retriedFrom == Some(e)
  {
    var s := Scenarios.FailedWithLetter(e);
    s := Scenarios.Succeeds(s, e, ResultRequest(Some(0), "", None));
    s := Scenarios.RetriesOnce(s, e, x);
  }

  // Another: it has failed after it had succeeded, and there is neither a letter to retry
  // nor a queue row.
  lemma FailedWithoutLetter(e: Uuid)
    ensures exists s :: Reachable(s, true) && Has(s, e, Failed) && e !in s.db.dead && e !in s.db.queue
                     && s.db.executions.Keys == {e}
  {
    var s := Scenarios.ClaimedOften(e, 1);
    s := Scenarios.Succeeds(s, e, ResultRequest(Some(0), "", None));
    s := Scenarios.FailsLate(s, e, ResultRequest(Some(1), "", None));
  }
}
