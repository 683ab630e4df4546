/**
 What each statement and each whole handler keeps of the agreement between the
 three tables.
 */
module Consistency {
  import opened Tables

  // Queue rows and dead letters refer to known executions.
  lemma RowsKnown(db: Db)
    requires Consistent(db)
    ensures db.queue.Keys <= db.executions.Keys && db.dead.Keys <= db.executions.Keys
  {
    forall e | e in db.queue ensures e in db.executions { assert RowAgrees(db, e); }
    forall e | e in db.dead ensures e in db.executions { assert DeadRowSound(db, e); }
  }

  lemma ClaimKeeps(db: Db, batch: set<Uuid>, now: Time)
    requires Consistent(db) && batch <= db.queue.Keys
    ensures Consistent(Claim(db, batch, now))
  {
    var d := Claim(db, batch, now);
    forall e | e in d.queue ensures RowAgrees(d, e) { assert RowAgrees(db, e); }
    forall e | e in d.dead ensures DeadRowSound(d, e) {
      assert DeadRowSound(db, e);
      if e in batch { assert RowAgrees(db, e); }
    }
  }

  lemma DeleteQueueRowKeeps(db: Db, e: Uuid)
    requires Consistent(db)
    ensures Consistent(DeleteQueueRow(db, e))
  {
    var d := DeleteQueueRow(db, e);
    forall f | f in d.queue ensures RowAgrees(d, f) { assert RowAgrees(db, f); }
    forall f | f in d.dead ensures DeadRowSound(d, f) { assert DeadRowSound(db, f); }
  }

  lemma SetVisibleAfterKeeps(db: Db, e: Uuid, t: Time)
    requires Consistent(db)
    ensures Consistent(SetVisibleAfter(db, e, t))
  {
    var d := SetVisibleAfter(db, e, t);
    forall f | f in d.queue ensures RowAgrees(d, f) { assert RowAgrees(db, f); }
    forall f | f in d.dead ensures DeadRowSound(d, f) { assert DeadRowSound(db, f); }
  }

  lemma MarkSucceededKeeps(db: Db, e: Uuid, exitCode: int, result: Option<Payload>, now: Time)
    requires Consistent(db) && e !in db.queue
    ensures Consistent(MarkSucceeded(db, e, exitCode, result, now))
  {
    var d := MarkSucceeded(db, e, exitCode, result, now);
    forall f | f in d.queue ensures RowAgrees(d, f) { assert RowAgrees(db, f); }
    forall f | f in d.dead ensures DeadRowSound(d, f) { assert DeadRowSound(db, f); }
  }

  lemma MarkFailedKeeps(db: Db, e: Uuid, exitCode: Option<int>, err: string, now: Time)
    requires Consistent(db) && e !in db.queue
    ensures Consistent(MarkFailed(db, e, exitCode, err, now))
  {
    var d := MarkFailed(db, e, exitCode, err, now);
    forall f | f in d.queue ensures RowAgrees(d, f) { assert RowAgrees(db, f); }
    forall f | f in d.dead ensures DeadRowSound(d, f) { assert DeadRowSound(db, f); }
  }

  lemma InsertDeadRowKeeps(db: Db, e: Uuid, err: string, now: Time)
    requires Consistent(db) && (e in db.queue ==> db.queue[e].attempt > MAX_RETRIES)
    ensures InsertDeadRow(db, e, err, now).Some? ==> Consistent(InsertDeadRow(db, e, err, now).value)
  {
    if InsertDeadRow(db, e, err, now).Some? {
      var d := InsertDeadRow(db, e, err, now).value;
      forall f | f in d.queue ensures RowAgrees(d, f) { assert RowAgrees(db, f); }
      forall f | f in d.dead ensures DeadRowSound(d, f) {
        if f in db.dead { assert DeadRowSound(db, f); }
        if f in db.queue { assert RowAgrees(db, f); }
      }
    }
  }

  lemma DeleteDeadRowKeeps(db: Db, e: Uuid)
    requires Consistent(db)
    ensures Consistent(DeleteDeadRow(db, e))
  {
    var d := DeleteDeadRow(db, e);
    forall f | f in d.queue ensures RowAgrees(d, f) { assert RowAgrees(db, f); }
    forall f | f in d.dead ensures DeadRowSound(d, f) { assert DeadRowSound(db, f); }
  }

  // Creating a history row and its queue row under a new id succeeds, and agrees.
  lemma CreateKeeps(db: Db, e: Uuid, x: Execution, payload: Payload, visibleAfter: Time, txNow: Time)
    requires Consistent(db) && Waiting(x.status) && x.attempt == 0
    ensures Create(db, e, x, payload, visibleAfter, txNow).Some? <==> e !in db.executions
    ensures e !in db.executions ==> Consistent(Create(db, e, x, payload, visibleAfter, txNow).value)
  {
    RowsKnown(db);
    if e !in db.executions {
      var d := Create(db, e, x, payload, visibleAfter, txNow).value;
      forall f | f in d.queue ensures RowAgrees(d, f) { if f != e { assert RowAgrees(db, f); } }
      forall f | f in d.dead ensures DeadRowSound(d, f) { assert DeadRowSound(db, f); }
    }
  }

  // ---------------------------------------------------------------------
  // Whole handlers, run without interruption
  // ---------------------------------------------------------------------

  lemma RunJobKeeps(db: Db, run: JobRun)
    requires Consistent(db)
    ensures RunJob(db, run).Some? <==> run.e !in db.executions
    ensures RunJob(db, run).Some? ==> Consistent(RunJob(db, run).value)
  {
    CreateKeeps(db, run.e, SubmittedExecution(run), run.payload, FirstVisible(run), run.txNow);
  }

  lemma CompleteKeeps(db: Db, e: Uuid, exitCode: int, result: Option<Payload>, now: Time)
    requires Consistent(db)
    ensures Consistent(Complete(db, e, exitCode, result, now))
  {
    DeleteQueueRowKeeps(db, e);
    MarkSucceededKeeps(DeleteQueueRow(db, e), e, exitCode, result, now);
  }

  lemma FailKeeps(db: Db, e: Uuid, exitCode: Option<int>, err: string, now: Time)
    requires Consistent(db)
    ensures Consistent(Fail(db, e, exitCode, err, now))
  {
    if e in db.queue && db.queue[e].attempt <= MAX_RETRIES {
      SetVisibleAfterKeeps(db, e, now + RetryDelay(db.queue[e].attempt));
    } else {
      InsertDeadRowKeeps(db, e, err, now);
      match InsertDeadRow(db, e, err, now) {
        case None =>
        case Some(d) =>
          DeleteQueueRowKeeps(d, e);
          MarkFailedKeeps(DeleteQueueRow(d, e), e, exitCode, err, now);
      }
    }
  }

  lemma RetryKeeps(db: Db, e: Uuid, newId: Uuid, now: Time, txNow: Time)
    requires Consistent(db)
    ensures RetryFromDead(db, e, newId, now, txNow).Some? <==> e in db.dead && newId !in db.executions
    ensures RetryFromDead(db, e, newId, now, txNow).Some? ==> Consistent(RetryFromDead(db, e, newId, now, txNow).value)
  {
    RowsKnown(db);
    if e in db.dead {
      var x := db.executions[e];
      var y := RetriedExecution(x.jobId, x.tenantId, x.priority, e, now);
      CreateKeeps(db, newId, y, db.dead[e].payload, now, txNow);
      if newId !in db.executions {
        DeleteDeadRowKeeps(Create(db, newId, y, db.dead[e].payload, now, txNow).value, e);
      }
    }
  }

  // What a report leaves on record: a success its exit code and result, a failure that
  // gives up its exit code and message, in the history and in the dead letter with the
  // payload; a failure with attempts left only moves the row's visibility. Other
  // executions are not touched.
  lemma ReportsOnRecord(db: Db, e: Uuid, req: ResultRequest, now: Time)
    requires Consistent(db) && e in db.executions
    ensures var d := Report(db, e, req, now);
            var gaveUp := !ReportsSuccess(req)
                          && (e in db.queue ==> db.queue[e].attempt > MAX_RETRIES && e !in db.dead);
            && (ReportsSuccess(req) ==>
                  && e !in d.queue && d.dead == db.dead && d.executions[e].status.Succeeded?
                  && d.executions[e].exitCode == Some(0) && d.executions[e].result == req.result
                  && d.executions[e].finishedAt == Some(now))
            && (gaveUp ==>
                  && e !in d.queue && d.executions[e].status.Failed? && d.executions[e].exitCode == req.exitCode
                  && d.executions[e].errorMessage == Some(req.error) && d.executions[e].finishedAt == Some(now))
            && (gaveUp && e in db.queue ==>
                  && e in d.dead && d.dead[e].errorMessage == req.error && d.dead[e].payload == db.queue[e].payload
                  && d.dead[e].attempts == db.executions[e].attempt && d.dead[e].tenantId == db.executions[e].tenantId
                  && d.dead[e].failedAt == now)
            && (!ReportsSuccess(req) && e in db.queue && db.queue[e].attempt <= MAX_RETRIES ==>
                  && e in d.queue && d.queue[e].visibleAfter == now + 10 * Pow2(db.executions[e].attempt) * SECOND
                  && d.queue[e].attempt == db.executions[e].attempt
                  && d.executions == db.executions && d.dead == db.dead)
            && (forall f | f != e ::
                  && (f in d.queue <==> f in db.queue) && (f in db.queue ==> d.queue[f] == db.queue[f])
                  && (f in d.executions <==> f in db.executions)
                  && (f in db.executions ==> d.executions[f] == db.executions[f]))
  {
    if e in db.queue { assert RowAgrees(db, e); }
  }
}
