/**
 Building blocks for concrete runs from empty tables, with one thing going on at a time.
 */
module Scenarios {
  import opened Tables
  import opened Consistency
  import opened Selection
  import opened Statements

  // Nothing is under way.
  predicate Quiet(s: Sys) {
    s.txns == map[] && s.locks == map[] && s.calls == map[] && s.retries == map[]
  }

  // Single steps, and the states they lead to.
  lemma Arrives(s: Sys, c: nat, e: Uuid, req: ResultRequest, serially: bool) returns (s': Sys)
    requires Reachable(s, serially) && c !in s.calls && e in s.db.executions
    requires serially ==> s.calls == map[] && s.retries == map[]
    ensures Reachable(s', serially)
    ensures s' == s.(calls := s.calls[c := Call(e, req, if ReportsSuccess(req) then DeleteDone else ReadAttempt)])
  {
    ReachNext(s, Arrive(c, e, req), serially);
    s' := Next(s, Arrive(c, e, req));
  }

  lemma Executes(s: Sys, c: nat, call: Call, d: Db, rest: Option<Call>, serially: bool) returns (s': Sys)
    requires Reachable(s, serially) && c in s.calls && s.calls[c] == call
    requires WritesQueue(call.pc) ==> call.e !in s.locks
    requires serially ==> s.calls == map[c := call] && s.retries == map[]
    requires RunStatement(s.db, s.clock, call) == (d, rest)
    ensures Reachable(s', serially)
    ensures s' == s.(db := d, calls := if rest.Some? then s.calls[c := rest.value] else s.calls - {c})
  {
    ReachNext(s, Exec(c), serially);
    s' := Next(s, Exec(c));
  }

  lemma Begins(s: Sys, t: nat) returns (s': Sys)
    requires Reachable(s, true) && t !in s.txns && OneAtATime(s)
    ensures Reachable(s', true) && s' == s.(txns := s.txns[t := Txn(0, s.clock, [], 1, None)])
  {
    ReachNext(s, Begin(t, 0, [], 1), true);
    s' := Next(s, Begin(t, 0, [], 1));
  }

  lemma Reads(s: Sys, r: nat, e: Uuid, serially: bool) returns (s': Sys)
    requires Reachable(s, serially) && r !in s.retries && e in s.db.dead && e in s.db.executions
    requires serially ==> s.calls == map[] && s.retries == map[]
    ensures Reachable(s', serially)
    ensures var x := s.db.executions[e];
            s' == s.(retries := s.retries[r := Retry(e, s.db.dead[e].payload, x.jobId, x.tenantId, x.priority)])
  {
    ReachNext(s, ReadDead(r, e), serially);
    s' := Next(s, ReadDead(r, e));
  }

  lemma Commits(s: Sys, r: nat, x: Uuid, d: Db, serially: bool) returns (s': Sys)
    requires Reachable(s, serially) && r in s.retries && AfterRetry(s.db, s.retries[r], x, s.clock, s.clock) == Some(d)
    requires serially ==> s.calls == map[] && s.retries == map[r := s.retries[r]]
    ensures Reachable(s', serially) && s' == s.(db := d, retries := s.retries - {r})
  {
    var commit := CommitRetry(r, x, s.clock, s.clock);
    ReachNext(s, commit, serially);
    s' := Next(s, commit);
  }

  // There is but one execution, claimed `n` times and due again.
  predicate Alone(s: Sys, e: Uuid, n: nat) {
    && Quiet(s) && s.db.executions.Keys == {e} && s.db.queue.Keys == {e} && s.db.dead == map[]
    && s.db.queue[e].attempt == n && s.db.queue[e].visibleAfter <= s.clock
  }

  lemma SelectAlone(s: Sys, e: Uuid, n: nat) returns (s': Sys)
    requires Reachable(s, true) && Alone(s, e, n)
    ensures Reachable(s', true)
    ensures s' == s.(txns := map[0 := Txn(0, s.clock, [], 1, Some([e]))], locks := map[e := 0])
  {
    s' := Begins(s, 0);
    assert IsBatch(s.db.queue, Eligible(s.db.queue, {}, [], s.clock), 1, [e]);
    ReachNext(s', Select(0, [e]), true);
    s' := Next(s', Select(0, [e]));
  }

  // A worker claims it and dies.
  lemma ClaimAlone(s: Sys, e: Uuid, n: nat) returns (s': Sys)
    requires Reachable(s, true) && Alone(s, e, n)
    ensures Reachable(s', true) && Alone(s', e, n + 1)
  {
    var s2 := SelectAlone(s, e, n);
    ReachNext(s2, Commit(0), true);
    var s3 := Next(s2, Commit(0));
    assert LockedBy(s2, 0) == {e};
    ReachNext(s3, Tick(VISIBILITY_TIMEOUT), true);
    s' := Next(s3, Tick(VISIBILITY_TIMEOUT));
  }

  lemma {:induction false} ClaimedOften(e: Uuid, n: nat) returns (s: Sys)
    ensures Reachable(s, true) && Alone(s, e, n)
  {
    if n == 0 {
      var run := JobRun(e, 0, 0, 0, "", None, NO_CALLBACK, 0, 0);
      ReachInit(0, true);
      ReachNext(InitSys(0), Run(run), true);
      s := Next(InitSys(0), Run(run));
    } else {
      s := ClaimedOften(e, n - 1);
      s := ClaimAlone(s, e, n - 1);
    }
  }

  // Out of attempts, and no letter written yet.
  predicate Exhausted(db: Db, e: Uuid) {
    e in db.executions && e in db.queue && db.queue[e].attempt > MAX_RETRIES && e !in db.dead
  }

  // The first two statements of a failure report on an exhausted execution.
  lemma WritesLetter(s: Sys, e: Uuid, req: ResultRequest) returns (s': Sys)
    requires Reachable(s, true) && Quiet(s) && Exhausted(s.db, e) && !ReportsSuccess(req)
    ensures Reachable(s', true)
    ensures s' == s.(db := InsertDeadRow(s.db, e, req.error, s.clock).value,
                     calls := map[0 := Call(e, req, DeleteFailed)])
  {
    var d := InsertDeadRow(s.db, e, req.error, s.clock).value;
    s' := Arrives(s, 0, e, req, true);
    s' := Executes(s', 0, Call(e, req, ReadAttempt), s.db, Some(Call(e, req, InsertDead)), true);
    s' := Executes(s', 0, Call(e, req, InsertDead), d, Some(Call(e, req, DeleteFailed)), true);
  }

  // All of them.
  lemma FailsForGood(s: Sys, e: Uuid, req: ResultRequest) returns (s': Sys)
    requires Reachable(s, true) && Quiet(s) && Exhausted(s.db, e) && !ReportsSuccess(req)
    ensures Reachable(s', true) && s' == s.(db := Fail(s.db, e, req.exitCode, req.error, s.clock))
  {
    var d := DeleteQueueRow(InsertDeadRow(s.db, e, req.error, s.clock).value, e);
    s' := WritesLetter(s, e, req);
    s' := Executes(s', 0, Call(e, req, DeleteFailed), d, Some(Call(e, req, MarkDead)), true);
    s' := Executes(s', 0, Call(e, req, MarkDead), MarkFailed(d, e, req.exitCode, req.error, s.clock), None, true);
    assert s'.calls == map[];
  }

  // A success report, from its arrival to its last statement.
  lemma Succeeds(s: Sys, e: Uuid, req: ResultRequest) returns (s': Sys)
    requires Reachable(s, true) && Quiet(s) && e in s.db.executions && ReportsSuccess(req)
    ensures Reachable(s', true) && s' == s.(db := Complete(s.db, e, 0, req.result, s.clock))
  {
    var d := DeleteQueueRow(s.db, e);
    s' := Arrives(s, 0, e, req, true);
    s' := Executes(s', 0, Call(e, req, DeleteDone), d, Some(Call(e, req, MarkDone)), true);
    s' := Executes(s', 0, Call(e, req, MarkDone), MarkSucceeded(d, e, 0, req.result, s.clock), None, true);
    assert s'.calls == map[];
  }

  // A failure report for an execution off the queue finds nothing to copy or delete.
  lemma FindsNothing(s: Sys, e: Uuid, req: ResultRequest) returns (s': Sys)
    requires Reachable(s, true) && Quiet(s) && e in s.db.executions && e !in s.db.queue && !ReportsSuccess(req)
    ensures Reachable(s', true) && s' == s.(calls := map[0 := Call(e, req, DeleteFailed)])
  {
    s' := Arrives(s, 0, e, req, true);
    s' := Executes(s', 0, Call(e, req, ReadAttempt), s.db, Some(Call(e, req, InsertDead)), true);
    s' := Executes(s', 0, Call(e, req, InsertDead), s.db, Some(Call(e, req, DeleteFailed)), true);
  }

  lemma FailsLate(s: Sys, e: Uuid, req: ResultRequest) returns (s': Sys)
    requires Reachable(s, true) && Quiet(s) && e in s.db.executions && e !in s.db.queue && !ReportsSuccess(req)
    ensures Reachable(s', true) && s' == s.(db := MarkFailed(s.db, e, req.exitCode, req.error, s.clock))
  {
    s' := FindsNothing(s, e, req);
    assert DeleteQueueRow(s.db, e) == s.db;
    s' := Executes(s', 0, Call(e, req, DeleteFailed), s.db, Some(Call(e, req, MarkDead)), true);
    s' := Executes(s', 0, Call(e, req, MarkDead), MarkFailed(s.db, e, req.exitCode, req.error, s.clock), None, true);
    assert s'.calls == map[];
  }

  // A dead-letter retry from its SELECT to its commit.
  lemma RetriesOnce(s: Sys, e: Uuid, x: Uuid) returns (s': Sys)
    requires Reachable(s, true) && Quiet(s) && e in s.db.dead && x !in s.db.executions
    ensures RetryFromDead(s.db, e, x, s.clock, s.clock).Some?
    ensures Reachable(s', true) && s' == s.(db := RetryFromDead(s.db, e, x, s.clock, s.clock).value)
  {
    ReachInv(s, true);
    RowsKnown(s.db);
    RetryKeeps(s.db, e, x, s.clock, s.clock);
    s' := Reads(s, 0, e, true);
    s' := Commits(s', 0, x, RetryFromDead(s.db, e, x, s.clock, s.clock).value, true);
    assert s'.retries == map[];
  }

  // A failed execution with its letter, and nothing else.
  lemma FailedWithLetter(e: Uuid) returns (s: Sys)
    ensures Reachable(s, true) && Quiet(s) && s.db.executions.Keys == {e} && s.db.executions[e].status.Failed?
    ensures e in s.db.dead && e !in s.db.queue
  {
    s := ClaimedOften(e, MAX_RETRIES + 1);
    s := FailsForGood(s, e, ResultRequest(Some(1), "", None));
  }
}
