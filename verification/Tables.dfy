/**
 The three tables of the execution queue as one value, and every SQL statement
 that the store issues against them as a function on that value.

 A row is keyed by its execution id in all three tables: both `execution_queue`
 and `execution_dlq` declare that column UNIQUE.
 */
module Tables {

  datatype Option<+T> = None | Some(value: T)

  type Uuid = nat
  type Payload = string

  // Nanoseconds on the one clock shared by the controller and the database.
  type Time = int

  const SECOND: Time := 1_000_000_000
  const MAX_RETRIES: nat := 5
  const VISIBILITY_TIMEOUT: Time := 300 * SECOND

  datatype Status = Pending | Scheduled | Running | Succeeded | Failed

  datatype CallbackStatus = AwaitingDelivery | Delivered | Undelivered

  // Where to report the end of an execution, and how far that report has come.
  datatype Callback = Callback(url: Option<string>, headers: Option<string>, status: Option<CallbackStatus>)

  const NO_CALLBACK := Callback(None, None, None)

  datatype Execution = Execution(
    jobId: Uuid,
    tenantId: Uuid,
    priority: int,
    status: Status,
    attempt: nat,
    exitCode: Option<int>,
    errorMessage: Option<string>,
    result: Option<Payload>,
    retriedFrom: Option<Uuid>,
    createdAt: Time,
    scheduledAt: Option<Time>,
    startedAt: Option<Time>,
    finishedAt: Option<Time>,
    callback: Callback
  )

  datatype QueueRow = QueueRow(
    id: nat,
    tenantId: Uuid,
    payload: Payload,
    priority: int,
    attempt: nat,
    visibleAfter: Time,
    createdAt: Time
  )

  datatype DeadRow = DeadRow(
    tenantId: Uuid,
    payload: Payload,
    errorMessage: string,
    attempts: nat,
    failedAt: Time
  )

  datatype Db = Db(
    executions: map<Uuid, Execution>,
    queue: map<Uuid, QueueRow>,
    dead: map<Uuid, DeadRow>,
    nextQueueId: nat
  )

  const EMPTY_DB := Db(map[], map[], map[], 1)

  function Pow2(n: nat): nat {
    if n == 0 then 1 else 2 * Pow2(n - 1)
  }

  // The wait imposed by a failed attempt: 10 s doubled once per attempt.
  function RetryDelay(attempt: nat): Time {
    10 * Pow2(attempt) * SECOND
  }

  // ---------------------------------------------------------------------
  // Statements
  // ---------------------------------------------------------------------

  // A fresh history row; every column an INSERT does not name takes its default.
  function NewExecution(jobId: Uuid, tenantId: Uuid, priority: int, status: Status, retriedFrom: Option<Uuid>,
                        createdAt: Time, scheduledAt: Option<Time>, callback: Callback): Execution {
    Execution(jobId, tenantId, priority, status, 0, None, None, None, retriedFrom, createdAt, scheduledAt,
              None, None, callback)
  }

  function InsertExecution(db: Db, e: Uuid, x: Execution): Db {
    db.(executions := db.executions[e := x])
  }

  // Copies tenant and priority from the history row. No row comes back when the
  // execution is unknown, and the UNIQUE column refuses a second row.
  function InsertQueueRow(db: Db, e: Uuid, payload: Payload, visibleAfter: Time, now: Time): Option<Db> {
    if e !in db.executions || e in db.queue then None
    else
      var x := db.executions[e];
      Some(db.(queue := db.queue[e := QueueRow(db.nextQueueId, x.tenantId, payload, x.priority, 0, visibleAfter, now)],
               nextQueueId := db.nextQueueId + 1))
  }

  function ClaimRow(r: QueueRow, now: Time): QueueRow {
    r.(attempt := r.attempt + 1, visibleAfter := now + VISIBILITY_TIMEOUT)
  }

  function ClaimExecution(x: Execution, attempt: nat, now: Time): Execution {
    x.(status := Running, attempt := attempt, startedAt := if x.startedAt.Some? then x.startedAt else Some(now))
  }

  // The two bulk updates of a committed dequeue.
  function Claim(db: Db, batch: set<Uuid>, now: Time): Db {
    db.(queue := map e | e in db.queue :: if e in batch then ClaimRow(db.queue[e], now) else db.queue[e],
        executions := map e | e in db.executions ::
          if e in batch && e in db.queue then ClaimExecution(db.executions[e], db.queue[e].attempt + 1, now)
          else db.executions[e])
  }

  function DeleteQueueRow(db: Db, e: Uuid): Db {
    db.(queue := db.queue - {e})
  }

  function SetVisibleAfter(db: Db, e: Uuid, visibleAfter: Time): Db {
    db.(queue := if e in db.queue then db.queue[e := db.queue[e].(visibleAfter := visibleAfter)] else db.queue)
  }

  function MarkSucceeded(db: Db, e: Uuid, exitCode: int, result: Option<Payload>, now: Time): Db {
    if e in db.executions then
      db.(executions := db.executions[e := db.executions[e].(status := Succeeded, exitCode := Some(exitCode),
                                                             result := result, finishedAt := Some(now))])
    else db
  }

  function MarkFailed(db: Db, e: Uuid, exitCode: Option<int>, err: string, now: Time): Db {
    if e in db.executions then
      db.(executions := db.executions[e := db.executions[e].(status := Failed, exitCode := exitCode,
                                                             errorMessage := Some(err), finishedAt := Some(now))])
    else db
  }

  // Copies the queue row into the dead letters. Copies nothing when there is no
  // queue row, and violates the UNIQUE column when the letter already exists.
  function InsertDeadRow(db: Db, e: Uuid, err: string, now: Time): Option<Db> {
    if e !in db.queue then Some(db)
    else if e in db.dead then None
    else
      var r := db.queue[e];
      Some(db.(dead := db.dead[e := DeadRow(r.tenantId, r.payload, err, r.attempt, now)]))
  }

  function DeleteDeadRow(db: Db, e: Uuid): Db {
    db.(dead := db.dead - {e})
  }

  // ---------------------------------------------------------------------
  // Handlers: the statements of one handler, run without interruption
  // ---------------------------------------------------------------------

  datatype JobRun = JobRun(e: Uuid, jobId: Uuid, tenantId: Uuid, priority: int, payload: Payload,
                           scheduledAt: Option<Time>, callback: Callback, now: Time, txNow: Time)

  function FirstVisible(run: JobRun): Time {
    if run.scheduledAt.Some? then run.scheduledAt.value else run.now
  }

  function SubmittedExecution(run: JobRun): Execution {
    NewExecution(run.jobId, run.tenantId, run.priority, if run.scheduledAt.Some? then Scheduled else Pending,
                 None, run.now, Some(FirstVisible(run)), run.callback)
  }

  // A history row and its queue row in one transaction; None when it rolls back.
  function Create(db: Db, e: Uuid, x: Execution, payload: Payload, visibleAfter: Time, txNow: Time): Option<Db> {
    if e in db.executions then None
    else InsertQueueRow(InsertExecution(db, e, x), e, payload, visibleAfter, txNow)
  }

  function RunJob(db: Db, run: JobRun): Option<Db> {
    Create(db, run.e, SubmittedExecution(run), run.payload, FirstVisible(run), run.txNow)
  }

  function Complete(db: Db, e: Uuid, exitCode: int, result: Option<Payload>, now: Time): Db {
    MarkSucceeded(DeleteQueueRow(db, e), e, exitCode, result, now)
  }

  // A missing queue row counts as fatal, like an exhausted one.
  function Fail(db: Db, e: Uuid, exitCode: Option<int>, err: string, now: Time): Db {
    if e in db.queue && db.queue[e].attempt <= MAX_RETRIES then
      SetVisibleAfter(db, e, now + RetryDelay(db.queue[e].attempt))
    else
      match InsertDeadRow(db, e, err, now)
      case None => db
      case Some(d) => MarkFailed(DeleteQueueRow(d, e), e, exitCode, err, now)
  }

  datatype ResultRequest = ResultRequest(exitCode: Option<int>, error: string, result: Option<Payload>)

  // A request is a success only with exit code zero and no error text.
  predicate ReportsSuccess(req: ResultRequest) {
    req.exitCode == Some(0) && req.error == ""
  }

  function Report(db: Db, e: Uuid, req: ResultRequest, now: Time): Db {
    if ReportsSuccess(req) then Complete(db, e, 0, req.result, now)
    else Fail(db, e, req.exitCode, req.error, now)
  }

  // The row a dead-letter retry inserts: it names its predecessor, but no schedule and no callback.
  function RetriedExecution(jobId: Uuid, tenantId: Uuid, priority: int, e: Uuid, now: Time): Execution {
    NewExecution(jobId, tenantId, priority, Pending, Some(e), now, None, NO_CALLBACK)
  }

  // Moves the dead letter of `e` back to the queue under the fresh id `newId`;
  // None when there is no dead letter, or the transaction rolls back.
  function RetryFromDead(db: Db, e: Uuid, newId: Uuid, now: Time, txNow: Time): Option<Db> {
    if e !in db.dead || e !in db.executions then None
    else
      var x := db.executions[e];
      match Create(db, newId, RetriedExecution(x.jobId, x.tenantId, x.priority, e, now), db.dead[e].payload, now, txNow)
      case None => None
      case Some(d) => Some(DeleteDeadRow(d, e))
  }

  // ---------------------------------------------------------------------
  // Consistency of the three tables
  // ---------------------------------------------------------------------

  predicate Waiting(s: Status) {
    s.Pending? || s.Scheduled?
  }

  predicate Finished(s: Status) {
    s.Succeeded? || s.Failed?
  }

  // A queue row agrees with its history row, and its attempt count tells the status.
  ghost predicate RowAgrees(db: Db, e: Uuid)
    requires e in db.queue
  {
    && e in db.executions
    && db.queue[e].tenantId == db.executions[e].tenantId
    && db.queue[e].priority == db.executions[e].priority
    && db.queue[e].attempt == db.executions[e].attempt
    && (db.queue[e].attempt == 0 <==> Waiting(db.executions[e].status))
    && (db.queue[e].attempt >= 1 <==> db.executions[e].status.Running?)
  }

  ghost predicate DeadRowSound(db: Db, e: Uuid)
    requires e in db.dead
  {
    && e in db.executions
    && MAX_RETRIES < db.dead[e].attempts <= db.executions[e].attempt
    && db.dead[e].tenantId == db.executions[e].tenantId
  }

  ghost predicate IdsUnique(queue: map<Uuid, QueueRow>) {
    forall e, f | e in queue && f in queue && queue[e].id == queue[f].id :: e == f
  }

  ghost predicate IdsBelow(queue: map<Uuid, QueueRow>, bound: nat) {
    forall e | e in queue :: queue[e].id < bound
  }

  ghost predicate Consistent(db: Db) {
    && (forall e | e in db.queue :: RowAgrees(db, e))
    && (forall e | e in db.dead :: DeadRowSound(db, e))
    && IdsUnique(db.queue)
    && IdsBelow(db.queue, db.nextQueueId)
  }
}
