/**
 The queue as many controllers see it: dequeues and dead-letter retries are
 transactions, while Complete and Fail are sequences of separately committed
 statements. Any interleaving is allowed, and a call may die at any point.
 */
module Statements {
  import opened Tables
  import opened Selection
  import opened Consistency

  // The next statement of a report call.
  datatype Pc =
    | DeleteDone
    | MarkDone
    | ReadAttempt
    | BackOff(read: nat)
    | InsertDead
    | DeleteFailed
    | MarkDead

  datatype Call = Call(e: Uuid, req: ResultRequest, pc: Pc)

  // A dequeue transaction; `batch` is what its locking SELECT returned.
  datatype Txn = Txn(worker: nat, now: Time, tenants: seq<Uuid>, limit: nat, batch: Option<seq<Uuid>>)

  // What the SELECT of a dead-letter retry returned.
  datatype Retry = Retry(e: Uuid, payload: Payload, jobId: Uuid, tenantId: Uuid, priority: int)

  datatype Sys = Sys(
    db: Db,                  // committed tables
    clock: Time,
    calls: map<nat, Call>,
    txns: map<nat, Txn>,
    locks: map<Uuid, nat>,   // queue row -> the transaction that has it locked
    retries: map<nat, Retry>
  )

  datatype Label =
    | Tick(d: nat)
    | Run(run: JobRun)
    | Begin(t: nat, worker: nat, tenants: seq<Uuid>, limit: nat)
    | Select(t: nat, batch: seq<Uuid>)
    | Commit(t: nat)
    | Rollback(t: nat)
    | ReadDead(r: nat, e: Uuid)
    | CommitRetry(r: nat, newId: Uuid, now: Time, txNow: Time)
    | AbortRetry(r: nat)
    | Arrive(c: nat, e: Uuid, req: ResultRequest)
    | Exec(c: nat)
    | Crash(c: nat)
    | Heartbeat(e: Uuid, at: Time, extension: Time)

  function InitSys(clock: Time): Sys {
    Sys(EMPTY_DB, clock, map[], map[], map[], map[])
  }

  function LockedBy(s: Sys, t: nat): set<Uuid> {
    set e | e in s.locks && s.locks[e] == t
  }

  predicate WritesQueue(pc: Pc) {
    pc.DeleteDone? || pc.BackOff? || pc.DeleteFailed?
  }

  // One auto-committed statement: the tables after it, and what is left of the call.
  function RunStatement(db: Db, clock: Time, call: Call): (Db, Option<Call>) {
    var e, req := call.e, call.req;
    match call.pc
    case DeleteDone => (DeleteQueueRow(db, e), Some(call.(pc := MarkDone)))
    case MarkDone => (MarkSucceeded(db, e, 0, req.result, clock), None)
    case ReadAttempt =>
      (db, Some(call.(pc := if e in db.queue && db.queue[e].attempt <= MAX_RETRIES then BackOff(db.queue[e].attempt)
                            else InsertDead)))
    case BackOff(read) => (SetVisibleAfter(db, e, clock + RetryDelay(read)), None)
    case InsertDead =>
      (match InsertDeadRow(db, e, req.error, clock)
       case None => (db, None)
       case Some(d) => (d, Some(call.(pc := DeleteFailed))))
    case DeleteFailed => (DeleteQueueRow(db, e), Some(call.(pc := MarkDead)))
    case MarkDead => (MarkFailed(db, e, req.exitCode, req.error, clock), None)
  }

  function AfterRetry(db: Db, r: Retry, newId: Uuid, now: Time, txNow: Time): Option<Db> {
    match Create(db, newId, RetriedExecution(r.jobId, r.tenantId, r.priority, r.e, now), r.payload, now, txNow)
    case None => None
    case Some(d) => Some(DeleteDeadRow(d, r.e))
  }

  ghost predicate Enabled(s: Sys, l: Label) {
    match l
    case Tick(_) => true
    case Run(run) =>
      && Tables.RunJob(s.db, run).Some? && run.now <= s.clock
      && (run.scheduledAt.Some? ==> run.now <= run.scheduledAt.value)
    case Begin(t, _, _, _) => t !in s.txns
    case Select(t, batch) =>
      && t in s.txns && s.txns[t].batch.None?
      && IsBatch(s.db.queue, Eligible(s.db.queue, s.locks.Keys, s.txns[t].tenants, s.txns[t].now),
                 s.txns[t].limit, batch)
    case Commit(t) => t in s.txns && s.txns[t].batch.Some?
    case Rollback(t) => t in s.txns
    case ReadDead(r, e) => r !in s.retries && e in s.db.dead && e in s.db.executions
    case CommitRetry(r, newId, now, txNow) =>
      r in s.retries && now <= s.clock && AfterRetry(s.db, s.retries[r], newId, now, txNow).Some?
    case AbortRetry(r) => r in s.retries
    case Arrive(c, e, _) => c !in s.calls && e in s.db.executions
    case Exec(c) => c in s.calls && (WritesQueue(s.calls[c].pc) ==> s.calls[c].e !in s.locks)
    case Crash(c) => c in s.calls
    case Heartbeat(e, at, _) => at <= s.clock && e !in s.locks
  }

  ghost function Next(s: Sys, l: Label): Sys
    requires Enabled(s, l)
  {
    match l
    case Tick(d) => s.(clock := s.clock + d)
    case Run(run) => s.(db := Tables.RunJob(s.db, run).value)
    case Begin(t, worker, tenants, limit) => s.(txns := s.txns[t := Txn(worker, s.clock, tenants, limit, None)])
    case Select(t, batch) =>
      s.(txns := s.txns[t := s.txns[t].(batch := Some(batch))],
         locks := s.locks + map e | e in batch :: t)
    case Commit(t) =>
      s.(db := Claim(s.db, LockedBy(s, t), s.txns[t].now), txns := s.txns - {t}, locks := s.locks - LockedBy(s, t))
    case Rollback(t) => s.(txns := s.txns - {t}, locks := s.locks - LockedBy(s, t))
    case ReadDead(r, e) =>
      var x := s.db.executions[e];
      s.(retries := s.retries[r := Retry(e, s.db.dead[e].payload, x.jobId, x.tenantId, x.priority)])
    case CommitRetry(r, newId, now, txNow) =>
      s.(db := AfterRetry(s.db, s.retries[r], newId, now, txNow).value, retries := s.retries - {r})
    case AbortRetry(r) => s.(retries := s.retries - {r})
    case Arrive(c, e, req) =>
      s.(calls := s.calls[c := Call(e, req, if ReportsSuccess(req) then DeleteDone else ReadAttempt)])
    case Exec(c) =>
      var (d, rest) := RunStatement(s.db, s.clock, s.calls[c]);
      s.(db := d, calls := if rest.Some? then s.calls[c := rest.value] else s.calls - {c})
    case Crash(c) => s.(calls := s.calls - {c})
    case Heartbeat(e, at, extension) => s.(db := SetVisibleAfter(s.db, e, at + extension))
  }

  // ---------------------------------------------------------------------
  // Runs
  // ---------------------------------------------------------------------

  ghost predicate IsRun(states: seq<Sys>, labels: seq<Label>) {
    && |states| == |labels| + 1
    && states[0] == InitSys(states[0].clock)
    && forall i | 0 <= i < |labels| :: Enabled(states[i], labels[i]) && states[i + 1] == Next(states[i], labels[i])
  }

  // ---------------------------------------------------------------------
  // The invariant
  // ---------------------------------------------------------------------

  ghost predicate CallOk(db: Db, call: Call) {
    && call.e in db.executions
    && (call.pc.MarkDone? || call.pc.MarkDead? ==> call.e !in db.queue)
    && ((call.pc.InsertDead? || call.pc.DeleteFailed?) && call.e in db.queue ==> db.queue[call.e].attempt > MAX_RETRIES)
    && (call.pc.BackOff? ==> call.pc.read <= MAX_RETRIES)
    && (call.pc.BackOff? && call.e in db.queue ==> call.pc.read <= db.queue[call.e].attempt)
  }

  ghost predicate LockOk(s: Sys, e: Uuid)
    requires e in s.locks
  {
    && e in s.db.queue
    && s.locks[e] in s.txns
    && s.txns[s.locks[e]].batch.Some?
    && e in s.txns[s.locks[e]].batch.value
    && s.db.queue[e].visibleAfter <= s.txns[s.locks[e]].now
  }

  ghost predicate TxnOk(s: Sys, t: nat)
    requires t in s.txns
  {
    && s.txns[t].now <= s.clock
    && (s.txns[t].batch.Some? ==> forall e | e in s.txns[t].batch.value :: e in s.locks && s.locks[e] == t)
  }

  ghost predicate RetryOk(db: Db, r: Retry) {
    && r.e in db.executions
    && r.jobId == db.executions[r.e].jobId
    && r.tenantId == db.executions[r.e].tenantId
    && r.priority == db.executions[r.e].priority
  }

  ghost predicate Inv(s: Sys) {
    && Consistent(s.db)
    && (forall c | c in s.calls :: CallOk(s.db, s.calls[c]))
    && (forall e | e in s.locks :: LockOk(s, e))
    && (forall t | t in s.txns :: TxnOk(s, t))
    && (forall r | r in s.retries :: RetryOk(s.db, s.retries[r]))
  }

  // ---------------------------------------------------------------------
  // What one step may do to the tables
  // ---------------------------------------------------------------------

  function Rank(s: Status): nat {
    if Waiting(s) then 0 else if s.Running? then 1 else 2
  }

  ghost predicate ExecutionEvolves(x: Execution, y: Execution) {
    && x.jobId == y.jobId && x.tenantId == y.tenantId && x.priority == y.priority
    && x.retriedFrom == y.retriedFrom && x.createdAt == y.createdAt && x.scheduledAt == y.scheduledAt
    && Rank(x.status) <= Rank(y.status)
    && x.attempt <= y.attempt
    && (x.startedAt.Some? ==> y.startedAt == x.startedAt)
  }

  ghost predicate RowEvolves(r: QueueRow, r': QueueRow) {
    && r.id == r'.id && r.tenantId == r'.tenantId && r.payload == r'.payload
    && r.priority == r'.priority && r.createdAt == r'.createdAt
    && r.attempt <= r'.attempt
  }

  ghost predicate Evolves(db: Db, d: Db) {
    && (forall e | e in db.executions :: e in d.executions && ExecutionEvolves(db.executions[e], d.executions[e]))
    && (forall e | e in db.executions && e in d.queue :: e in db.queue && RowEvolves(db.queue[e], d.queue[e]))
  }

  lemma EvolvesReflexive(db: Db)
    ensures Evolves(db, db)
  {
  }

  lemma EvolvesTransitive(a: Db, b: Db, c: Db)
    requires Evolves(a, b) && Evolves(b, c)
    ensures Evolves(a, c)
  {
    forall e | e in a.executions ensures e in c.executions && ExecutionEvolves(a.executions[e], c.executions[e]) {
      assert ExecutionEvolves(a.executions[e], b.executions[e]) && ExecutionEvolves(b.executions[e], c.executions[e]);
    }
    forall e | e in a.executions && e in c.queue ensures e in a.queue && RowEvolves(a.queue[e], c.queue[e]) {
      assert e in b.executions && RowEvolves(b.queue[e], c.queue[e]) && RowEvolves(a.queue[e], b.queue[e]);
    }
  }

  lemma CallsSurvive(s: Sys, d: Db)
    requires Inv(s) && Evolves(s.db, d)
    ensures forall c | c in s.calls :: CallOk(d, s.calls[c])
    ensures forall r | r in s.retries :: RetryOk(d, s.retries[r])
  {
    forall c | c in s.calls ensures CallOk(d, s.calls[c]) {
      assert CallOk(s.db, s.calls[c]);
    }
    forall r | r in s.retries ensures RetryOk(d, s.retries[r]) {
      assert RetryOk(s.db, s.retries[r]);
    }
  }

  // Locked rows are not touched by anybody but their transaction.
  ghost predicate LockedRowsKept(s: Sys, d: Db) {
    forall e | e in s.locks && e in s.db.queue :: e in d.queue && d.queue[e] == s.db.queue[e]
  }

  lemma DbStep(s: Sys, d: Db)
    requires Inv(s) && Consistent(d) && Evolves(s.db, d) && LockedRowsKept(s, d)
    ensures Inv(s.(db := d))
  {
    CallsSurvive(s, d);
    var s' := s.(db := d);
    forall e | e in s'.locks ensures LockOk(s', e) { assert LockOk(s, e); }
    forall t | t in s'.txns ensures TxnOk(s', t) { assert TxnOk(s, t); }
  }

  lemma CreateEvolves(db: Db, e: Uuid, x: Execution, d: Db)
    requires Consistent(db) && e !in db.executions
    requires d.executions == db.executions[e := x]
    requires d.queue.Keys <= db.queue.Keys + {e}
    requires forall f | f in db.queue :: f in d.queue && d.queue[f] == db.queue[f]
    ensures Evolves(db, d)
  {
  }

  lemma RunStep(s: Sys, l: Label)
    requires Inv(s) && Enabled(s, l) && l.Run?
    ensures Inv(Next(s, l)) && Evolves(s.db, Next(s, l).db)
  {
    var run, d := l.run, Next(s, l).db;
    RowsKnown(s.db);
    RunJobKeeps(s.db, run);
    CreateEvolves(s.db, run.e, d.executions[run.e], d);
    DbStep(s, d);
  }

  lemma CommitRetryStep(s: Sys, l: Label)
    requires Inv(s) && Enabled(s, l) && l.CommitRetry?
    ensures Inv(Next(s, l)) && Evolves(s.db, Next(s, l).db)
  {
    var CommitRetry(r, newId, now, txNow) := l;
    var x := s.retries[r];
    var d := AfterRetry(s.db, x, newId, now, txNow).value;
    RowsKnown(s.db);
    var y := RetriedExecution(x.jobId, x.tenantId, x.priority, x.e, now);
    CreateKeeps(s.db, newId, y, x.payload, now, txNow);
    DeleteDeadRowKeeps(Create(s.db, newId, y, x.payload, now, txNow).value, x.e);
    CreateEvolves(s.db, newId, d.executions[newId], d);
    DbStep(s, d);
    var s1, s2 := s.(db := d), Next(s, l);
    assert Inv(s1);
    forall e | e in s2.locks ensures LockOk(s2, e) { assert LockOk(s1, e); }
    forall t | t in s2.txns ensures TxnOk(s2, t) { assert TxnOk(s1, t); }
  }

  lemma BatchUnlocked(s: Sys, t: nat, batch: seq<Uuid>, e: Uuid)
    requires Enabled(s, Select(t, batch)) && e in s.locks
    ensures e !in batch
  {
    forall i | 0 <= i < |batch| ensures batch[i] != e {
      assert batch[i] in Eligible(s.db.queue, s.locks.Keys, s.txns[t].tenants, s.txns[t].now);
    }
  }

  lemma SelectStep(s: Sys, l: Label)
    requires Inv(s) && Enabled(s, l) && l.Select?
    ensures Inv(Next(s, l)) && Evolves(s.db, Next(s, l).db)
  {
    EvolvesReflexive(s.db);
    var Select(t, batch) := l;
    var s' := Next(s, l);
    forall e | e in s'.locks ensures LockOk(s', e) {
      if e in batch {
        var i :| 0 <= i < |batch| && batch[i] == e;
        assert batch[i] in Eligible(s.db.queue, s.locks.Keys, s.txns[t].tenants, s.txns[t].now);
      } else {
        assert LockOk(s, e);
      }
    }
    forall u | u in s'.txns ensures TxnOk(s', u) {
      assert TxnOk(s, u);
      if u != t && s.txns[u].batch.Some? {
        forall e | e in s.txns[u].batch.value ensures e in s'.locks && s'.locks[e] == u {
          assert e in s.locks.Keys;
          BatchUnlocked(s, t, batch, e);
        }
      }
    }
  }

  lemma ReleaseStep(s: Sys, t: nat)
    requires Inv(s) && t in s.txns
    ensures Inv(s.(txns := s.txns - {t}, locks := s.locks - LockedBy(s, t)))
  {
    var s' := s.(txns := s.txns - {t}, locks := s.locks - LockedBy(s, t));
    forall e | e in s'.locks ensures LockOk(s', e) { assert LockOk(s, e); }
    forall u | u in s'.txns ensures TxnOk(s', u) { assert TxnOk(s, u); }
  }

  lemma ClaimEvolves(db: Db, batch: set<Uuid>, now: Time)
    requires Consistent(db) && batch <= db.queue.Keys
    ensures Evolves(db, Claim(db, batch, now))
  {
    var d := Claim(db, batch, now);
    forall e | e in db.executions ensures e in d.executions && ExecutionEvolves(db.executions[e], d.executions[e]) {
      if e in batch { assert RowAgrees(db, e); }
    }
  }

  lemma CommitStep(s: Sys, l: Label)
    requires Inv(s) && Enabled(s, l) && l.Commit?
    ensures Inv(Next(s, l)) && Evolves(s.db, Next(s, l).db)
  {
    var t := l.t;
    forall e | e in LockedBy(s, t) ensures e in s.db.queue { assert LockOk(s, e); }
    ClaimKeeps(s.db, LockedBy(s, t), s.txns[t].now);
    ClaimEvolves(s.db, LockedBy(s, t), s.txns[t].now);
    ReleaseStep(s, t);
    DbStep(s.(txns := s.txns - {t}, locks := s.locks - LockedBy(s, t)), Claim(s.db, LockedBy(s, t), s.txns[t].now));
  }

  lemma DeleteEvolves(s: Sys, e: Uuid)
    requires Inv(s) && e !in s.locks
    ensures Consistent(DeleteQueueRow(s.db, e)) && Evolves(s.db, DeleteQueueRow(s.db, e))
    ensures LockedRowsKept(s, DeleteQueueRow(s.db, e))
  {
    DeleteQueueRowKeeps(s.db, e);
  }

  lemma SetVisibleEvolves(s: Sys, e: Uuid, t: Time)
    requires Inv(s) && e !in s.locks
    ensures Consistent(SetVisibleAfter(s.db, e, t)) && Evolves(s.db, SetVisibleAfter(s.db, e, t))
    ensures LockedRowsKept(s, SetVisibleAfter(s.db, e, t))
  {
    SetVisibleAfterKeeps(s.db, e, t);
  }

  // A statement that changes history rows only, and finishes one off the queue.
  lemma FinishEvolves(s: Sys, e: Uuid, d: Db, y: Execution)
    requires e in s.db.executions && Finished(y.status)
    requires d == s.db.(executions := s.db.executions[e := y])
    requires y == s.db.executions[e].(status := y.status, exitCode := y.exitCode, errorMessage := y.errorMessage,
                                      result := y.result, finishedAt := y.finishedAt)
    ensures Evolves(s.db, d) && LockedRowsKept(s, d)
  {
  }

  lemma InsertDeadEvolves(s: Sys, e: Uuid, err: string)
    requires Inv(s) && (e in s.db.queue ==> s.db.queue[e].attempt > MAX_RETRIES)
    ensures InsertDeadRow(s.db, e, err, s.clock).Some? ==>
              var d := InsertDeadRow(s.db, e, err, s.clock).value;
              && Consistent(d) && Evolves(s.db, d) && LockedRowsKept(s, d)
              && d.queue == s.db.queue && d.executions == s.db.executions
  {
    InsertDeadRowKeeps(s.db, e, err, s.clock);
  }

  // A statement touches the rows of its own execution only.
  lemma StatementOthers(db: Db, clock: Time, call: Call, e: Uuid)
    requires e != call.e
    ensures var d := RunStatement(db, clock, call).0;
            && (e in d.queue <==> e in db.queue) && (e in db.queue ==> d.queue[e] == db.queue[e])
            && (e in d.executions <==> e in db.executions)
            && (e in db.executions ==> d.executions[e] == db.executions[e])
            && (e in d.dead <==> e in db.dead) && (e in db.dead ==> d.dead[e] == db.dead[e])
  {
  }

  // No statement changes an attempt count.
  lemma StatementAttempts(db: Db, clock: Time, call: Call, e: Uuid)
    ensures var d := RunStatement(db, clock, call).0;
            && (e in d.executions <==> e in db.executions)
            && (e in db.executions ==> d.executions[e].attempt == db.executions[e].attempt)
            && (e in d.queue ==> e in db.queue && d.queue[e].attempt == db.queue[e].attempt)
  {
  }

  ghost predicate StatementOk(s: Sys, c: nat)
    requires c in s.calls
  {
    var (d, rest) := RunStatement(s.db, s.clock, s.calls[c]);
    && Consistent(d) && Evolves(s.db, d) && LockedRowsKept(s, d)
    && (rest.Some? ==> CallOk(d, rest.value))
  }

  lemma DeleteStatement(s: Sys, c: nat)
    requires Inv(s) && Enabled(s, Exec(c)) && (s.calls[c].pc.DeleteDone? || s.calls[c].pc.DeleteFailed?)
    ensures StatementOk(s, c)
  {
    var call := s.calls[c];
    var e := call.e;
    assert CallOk(s.db, call);
    DeleteEvolves(s, e);
  }

  lemma MarkDoneStatement(s: Sys, c: nat)
    requires Inv(s) && Enabled(s, Exec(c)) && (s.calls[c].pc.MarkDone?)
    ensures StatementOk(s, c)
  {
    var call := s.calls[c];
    var e := call.e;
    assert CallOk(s.db, call);
    MarkSucceededKeeps(s.db, e, 0, call.req.result, s.clock);
    var d := MarkSucceeded(s.db, e, 0, call.req.result, s.clock);
    FinishEvolves(s, e, d, d.executions[e]);
  }

  lemma MarkDeadStatement(s: Sys, c: nat)
    requires Inv(s) && Enabled(s, Exec(c)) && (s.calls[c].pc.MarkDead?)
    ensures StatementOk(s, c)
  {
    var call := s.calls[c];
    var e := call.e;
    assert CallOk(s.db, call);
    MarkFailedKeeps(s.db, e, call.req.exitCode, call.req.error, s.clock);
    var d := MarkFailed(s.db, e, call.req.exitCode, call.req.error, s.clock);
    FinishEvolves(s, e, d, d.executions[e]);
  }

  lemma ReadStatement(s: Sys, c: nat)
    requires Inv(s) && Enabled(s, Exec(c)) && (s.calls[c].pc.ReadAttempt?)
    ensures StatementOk(s, c)
  {
    var call := s.calls[c];
    var e := call.e;
    assert CallOk(s.db, call);
    EvolvesReflexive(s.db);
  }

  lemma BackOffStatement(s: Sys, c: nat)
    requires Inv(s) && Enabled(s, Exec(c)) && (s.calls[c].pc.BackOff?)
    ensures StatementOk(s, c)
  {
    var call := s.calls[c];
    var e := call.e;
    assert CallOk(s.db, call);
    var t := s.clock + RetryDelay(call.pc.read);
    var d := SetVisibleAfter(s.db, e, t);
    SetVisibleEvolves(s, e, t);
    assert RunStatement(s.db, s.clock, call) == (d, None);
  }

  lemma InsertDeadStatement(s: Sys, c: nat)
    requires Inv(s) && Enabled(s, Exec(c)) && (s.calls[c].pc.InsertDead?)
    ensures StatementOk(s, c)
  {
    var call := s.calls[c];
    var e := call.e;
    assert CallOk(s.db, call);
    EvolvesReflexive(s.db);
    InsertDeadEvolves(s, e, call.req.error);
  }

  lemma StatementDb(s: Sys, c: nat)
    requires Inv(s) && Enabled(s, Exec(c))
    ensures StatementOk(s, c)
  {
    match s.calls[c].pc {
      case DeleteDone => DeleteStatement(s, c);
      case MarkDone => MarkDoneStatement(s, c);
      case ReadAttempt => ReadStatement(s, c);
      case BackOff(read) => BackOffStatement(s, c);
      case InsertDead => InsertDeadStatement(s, c);
      case DeleteFailed => DeleteStatement(s, c);
      case MarkDead => MarkDeadStatement(s, c);
    }
  }

  lemma ExecStep(s: Sys, l: Label)
    requires Inv(s) && Enabled(s, l) && l.Exec?
    ensures Inv(Next(s, l)) && Evolves(s.db, Next(s, l).db)
  {
    var c := l.c;
    StatementDb(s, c);
    var (d, rest) := RunStatement(s.db, s.clock, s.calls[c]);
    DbStep(s, d);
    var s1, s2 := s.(db := d), Next(s, l);
    forall e | e in s2.locks ensures LockOk(s2, e) { assert LockOk(s1, e); }
    forall t | t in s2.txns ensures TxnOk(s2, t) { assert TxnOk(s1, t); }
  }

  lemma SetVisibleStep(s: Sys, e: Uuid, t: Time, s': Sys)
    requires Inv(s) && e !in s.locks && s' == s.(db := SetVisibleAfter(s.db, e, t))
    ensures Inv(s') && Evolves(s.db, s'.db)
  {
    SetVisibleEvolves(s, e, t);
    DbStep(s, s'.db);
  }

  lemma HeartbeatStep(s: Sys, l: Label)
    requires Inv(s) && Enabled(s, l) && l.Heartbeat?
    ensures Inv(Next(s, l)) && Evolves(s.db, Next(s, l).db)
  {
    SetVisibleStep(s, l.e, l.at + l.extension, Next(s, l));
  }

  lemma RollbackStep(s: Sys, l: Label)
    requires Inv(s) && Enabled(s, l) && l.Rollback?
    ensures Inv(Next(s, l)) && Evolves(s.db, Next(s, l).db)
  {
    EvolvesReflexive(s.db);
    ReleaseStep(s, l.t);
  }

  lemma ClockStep(s: Sys, l: Label)
    requires Inv(s) && Enabled(s, l) && (l.Tick? || l.Begin?)
    ensures Inv(Next(s, l)) && Evolves(s.db, Next(s, l).db)
  {
    EvolvesReflexive(s.db);
    var s' := Next(s, l);
    forall e | e in s'.locks ensures LockOk(s', e) { assert LockOk(s, e); }
    forall t | t in s'.txns ensures TxnOk(s', t) { if t in s.txns { assert TxnOk(s, t); } }
  }

  lemma QuietStep(s: Sys, l: Label)
    requires Inv(s) && Enabled(s, l) && (l.ReadDead? || l.AbortRetry? || l.Arrive? || l.Crash?)
    ensures Inv(Next(s, l)) && Evolves(s.db, Next(s, l).db)
  {
    EvolvesReflexive(s.db);
    var s' := Next(s, l);
    forall e | e in s'.locks ensures LockOk(s', e) { assert LockOk(s, e); }
    forall t | t in s'.txns ensures TxnOk(s', t) { assert TxnOk(s, t); }
  }

  // Every step keeps the invariant, and only moves the tables forward.
  lemma StepKeeps(s: Sys, l: Label)
    requires Inv(s) && Enabled(s, l)
    ensures Inv(Next(s, l)) && Evolves(s.db, Next(s, l).db)
  {
    match l {
      case Run(_) => RunStep(s, l);
      case Select(_, _) => SelectStep(s, l);
      case Commit(_) => CommitStep(s, l);
      case Rollback(_) => RollbackStep(s, l);
      case CommitRetry(_, _, _, _) => CommitRetryStep(s, l);
      case Exec(_) => ExecStep(s, l);
      case Heartbeat(_, _, _) => HeartbeatStep(s, l);
      case Tick(_) => ClockStep(s, l);
      case Begin(_, _, _, _) => ClockStep(s, l);
      case _ => QuietStep(s, l);
    }
  }

  lemma {:induction false} RunInv(states: seq<Sys>, labels: seq<Label>, n: nat)
    requires IsRun(states, labels) && n <= |labels|
    ensures Inv(states[n])
  {
    if n > 0 {
      RunInv(states, labels, n - 1);
      StepKeeps(states[n - 1], labels[n - 1]);
    }
  }

  lemma {:induction false} RunEvolves(states: seq<Sys>, labels: seq<Label>, m: nat, n: nat)
    requires IsRun(states, labels) && m <= n <= |labels|
    ensures Evolves(states[m].db, states[n].db)
    decreases n - m
  {
    if m < n {
      RunEvolves(states, labels, m, n - 1);
      RunInv(states, labels, n - 1);
      StepKeeps(states[n - 1], labels[n - 1]);
      EvolvesTransitive(states[m].db, states[n - 1].db, states[n].db);
    }
  }

  // At most one report or dead-letter retry is under way.
  predicate OneAtATime(s: Sys) {
    (s.calls == map[] && |s.retries| <= 1) || (s.retries == map[] && |s.calls| <= 1)
  }

  // A state that some run ends in; `serially`, without overlapping reports and retries.
  ghost predicate Reachable(s: Sys, serially: bool) {
    exists states, labels ::
      IsRun(states, labels) && states[|labels|] == s && (serially ==> forall x | x in states :: OneAtATime(x))
  }

  lemma ReachInit(clock: Time, serially: bool)
    ensures Reachable(InitSys(clock), serially)
  {
    assert IsRun([InitSys(clock)], []);
  }

  lemma ReachNext(s: Sys, l: Label, serially: bool)
    requires Reachable(s, serially) && Enabled(s, l) && (serially ==> OneAtATime(Next(s, l)))
    ensures Reachable(Next(s, l), serially)
  {
    var states, labels :|
      IsRun(states, labels) && states[|labels|] == s && (serially ==> forall x | x in states :: OneAtATime(x));
    var states', labels' := states + [Next(s, l)], labels + [l];
    forall i | 0 <= i < |labels'|
      ensures Enabled(states'[i], labels'[i]) && states'[i + 1] == Next(states'[i], labels'[i])
    {
      assert i < |labels| ==> states'[i] == states[i] && states'[i + 1] == states[i + 1] && labels'[i] == labels[i];
    }
    assert IsRun(states', labels');
  }

  lemma ReachInv(s: Sys, serially: bool)
    requires Reachable(s, serially)
    ensures Inv(s) && Reachable(s, false)
  {
    var states, labels :| IsRun(states, labels) && states[|labels|] == s;
    RunInv(states, labels, |labels|);
  }

  // A retry that reads a letter and gives up leaves nothing behind.
  lemma AbortedRetryUndone(s: Sys, r: nat, e: Uuid)
    requires Enabled(s, ReadDead(r, e))
    ensures var s1 := Next(s, ReadDead(r, e)); Enabled(s1, AbortRetry(r)) && Next(s1, AbortRetry(r)) == s
  {
    assert Next(Next(s, ReadDead(r, e)), AbortRetry(r)).retries == s.retries;
  }

  // The locking SELECT of a dequeue always has an answer.
  lemma SelectFindsAnswer(s: Sys, t: nat)
    requires Inv(s) && t in s.txns && s.txns[t].batch.None?
    ensures exists batch :: Enabled(s, Select(t, batch))
  {
    var eligible := Eligible(s.db.queue, s.locks.Keys, s.txns[t].tenants, s.txns[t].now);
    var batch := BatchFrom(s.db.queue, eligible, s.txns[t].limit);
    assert Enabled(s, Select(t, batch));
  }

  // Nothing gets stuck: reports can be made and go on, retries and dequeues likewise, and
  // only a row lock ever makes a statement or a heartbeat wait.
  lemma ReportsGoOn(s: Sys, c: nat, e: Uuid, req: ResultRequest, at: Time, extension: Time)
    requires Inv(s)
    ensures c !in s.calls && e in s.db.executions ==> Enabled(s, Arrive(c, e, req))
    ensures c in s.calls ==>
              && Enabled(s, Crash(c))
              && (Enabled(s, Exec(c)) <==>
                    s.calls[c].e !in s.locks
                    || s.calls[c].pc.MarkDone? || s.calls[c].pc.MarkDead? || s.calls[c].pc.ReadAttempt?
                    || s.calls[c].pc.InsertDead?)
    ensures at <= s.clock && e !in s.locks ==> Enabled(s, Heartbeat(e, at, extension))
  {
  }

  lemma TransactionsGoOn(s: Sys, t: nat, worker: nat, tenants: seq<Uuid>, limit: nat, r: nat, e: Uuid, x: Uuid)
    requires Inv(s)
    ensures t !in s.txns ==> Enabled(s, Begin(t, worker, tenants, limit))
    ensures t in s.txns && s.txns[t].batch.None? ==> exists batch :: Enabled(s, Select(t, batch))
    ensures t in s.txns ==> Enabled(s, Rollback(t)) && (s.txns[t].batch.Some? ==> Enabled(s, Commit(t)))
    ensures r !in s.retries && e in s.db.dead ==> Enabled(s, ReadDead(r, e))
    ensures r in s.retries && x !in s.db.executions ==> Enabled(s, CommitRetry(r, x, s.clock, s.clock))
  {
    RowsKnown(s.db);
    if t in s.txns && s.txns[t].batch.None? {
      SelectFindsAnswer(s, t);
    }
  }

  // ---------------------------------------------------------------------
  // What holds of every run
  // ---------------------------------------------------------------------

  // A finished execution has no queue row, stays finished, and is never queued
  // again; a deleted queue row never reappears; no status ever falls back.
  lemma NoFinishedExecutionReturns(states: seq<Sys>, labels: seq<Label>, m: nat, n: nat, e: Uuid)
    requires IsRun(states, labels) && m <= n <= |labels|
    requires e in states[m].db.executions
    ensures e in states[n].db.executions
    ensures Finished(states[m].db.executions[e].status) ==>
              Finished(states[n].db.executions[e].status) && e !in states[n].db.queue
    ensures e !in states[m].db.queue ==> e !in states[n].db.queue
    ensures Rank(states[m].db.executions[e].status) <= Rank(states[n].db.executions[e].status)
  {
    RunInv(states, labels, m);
    RunEvolves(states, labels, m, n);
    assert e in states[m].db.queue ==> RowAgrees(states[m].db, e);
    assert ExecutionEvolves(states[m].db.executions[e], states[n].db.executions[e]);
  }

  // Every committed queue row agrees with its execution on tenant, priority and
  // attempt; attempt zero means waiting, a positive attempt means running.
  lemma TablesAlwaysAgree(states: seq<Sys>, labels: seq<Label>, n: nat, e: Uuid)
    requires IsRun(states, labels) && n <= |labels| && e in states[n].db.queue
    ensures e in states[n].db.executions
    ensures var r, x := states[n].db.queue[e], states[n].db.executions[e];
            && r.tenantId == x.tenantId && r.priority == x.priority && r.attempt == x.attempt
            && (r.attempt == 0 <==> x.status.Pending? || x.status.Scheduled?)
            && (r.attempt >= 1 <==> x.status.Running?)
  {
    RunInv(states, labels, n);
    assert RowAgrees(states[n].db, e);
  }

  // A dead letter always records more than the allowed retries, and never more
  // attempts than its execution has had, even when it was written after a stale read.
  lemma DeadLettersSound(states: seq<Sys>, labels: seq<Label>, n: nat, e: Uuid)
    requires IsRun(states, labels) && n <= |labels| && e in states[n].db.dead
    ensures e in states[n].db.executions
    ensures MAX_RETRIES < states[n].db.dead[e].attempts <= states[n].db.executions[e].attempt
    ensures states[n].db.dead[e].tenantId == states[n].db.executions[e].tenantId
  {
    RunInv(states, labels, n);
    assert DeadRowSound(states[n].db, e);
  }

  // A job keeps its tenant, priority, lineage and first start time for ever,
  // and its queue row keeps payload and place in line across retries.
  lemma IdentityPreserved(states: seq<Sys>, labels: seq<Label>, m: nat, n: nat, e: Uuid)
    requires IsRun(states, labels) && m <= n <= |labels| && e in states[m].db.executions
    ensures e in states[n].db.executions
    ensures var x, y := states[m].db.executions[e], states[n].db.executions[e];
            && x.jobId == y.jobId && x.tenantId == y.tenantId && x.priority == y.priority
            && x.retriedFrom == y.retriedFrom
            && (x.startedAt.Some? ==> y.startedAt == x.startedAt)
    ensures e in states[n].db.queue ==>
              && e in states[m].db.queue
              && states[n].db.queue[e].payload == states[m].db.queue[e].payload
              && states[n].db.queue[e].priority == states[m].db.queue[e].priority
              && states[n].db.queue[e].createdAt == states[m].db.queue[e].createdAt
  {
    RunEvolves(states, labels, m, n);
    assert ExecutionEvolves(states[m].db.executions[e], states[n].db.executions[e]);
    assert e in states[n].db.queue ==> RowEvolves(states[m].db.queue[e], states[n].db.queue[e]);
  }
}
