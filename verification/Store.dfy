/**
 The Postgres store and the handlers in front of it, each call run as a whole:
 an object whose three tables are updated in place, statement by statement.
 */
module Stores {
  import opened Tables
  import opened Selection
  import Consistency

  datatype QueueItem = QueueItem(executionId: Uuid, payload: Payload)

  datatype EnqueueResult = Enqueued(id: nat) | NotEnqueued

  datatype Job = Job(tenantId: Uuid, priority: int, callbackUrl: Option<string>, callbackHeaders: Option<string>)

  datatype RunRequest = RunRequest(scheduledAt: Option<Time>, callbackUrl: Option<string>,
                                   callbackHeaders: Option<string>)

  datatype RunResult = Started(executionId: Uuid) | JobNotFound | ScheduledInPast | TooManyRunning | NotCreated

  datatype Reply = Updated(notifies: bool) | NotUpdated

  datatype RetryResult = Retried(executionId: Uuid) | NotRetried

  const MAX_BATCH := 100

  // The store reads a limit below one as one: the least positive limit that is large enough.
  function StoreLimit(limit: int): (n: nat)
    ensures n >= 1 && n >= limit && (n == 1 || n == limit)
  {
    if limit <= 0 then 1 else limit
  }

  // The handler also caps the limit; a worker never gets more than it asked for.
  function HandlerLimit(limit: int): (n: nat)
    ensures 1 <= n <= 100
    ensures limit >= 1 ==> n <= limit && (n == limit || n == 100)
  {
    var atLeastOne := if limit <= 0 then 1 else limit;
    if atLeastOne > MAX_BATCH then MAX_BATCH else atLeastOne
  }

  function Override<T>(own: Option<T>, fallback: Option<T>): Option<T> {
    if own.Some? then own else fallback
  }

  // The request's callback settings win over the job's; a delivery is pending exactly
  // when there is a URL to deliver to.
  function CallbackFor(job: Job, req: RunRequest): (c: Callback)
    ensures c.url == (if req.callbackUrl.Some? then req.callbackUrl else job.callbackUrl)
    ensures c.headers == (if req.callbackHeaders.Some? then req.callbackHeaders else job.callbackHeaders)
    ensures c.status == None <==> c.url.None? || c.url.value == ""
    ensures c.status.Some? ==> c.status.value.AwaitingDelivery?
  {
    var url := Override(req.callbackUrl, job.callbackUrl);
    Callback(url, Override(req.callbackHeaders, job.callbackHeaders),
             if url.None? || url.value == "" then None else Some(AwaitingDelivery))
  }

  // What a submission of `job` by `tenant` asks the tables to create.
  function Submission(e: Uuid, jobId: Uuid, job: Job, req: RunRequest, payload: Payload, now: Time, txNow: Time)
    : JobRun
  {
    JobRun(e, jobId, job.tenantId, job.priority, payload, req.scheduledAt, CallbackFor(job, req), now, txNow)
  }

  function RunningOf(db: Db, tenant: Uuid): set<Uuid> {
    set e | e in db.executions && db.executions[e].tenantId == tenant && db.executions[e].status.Running?
  }

  ghost predicate AllRunning(executions: map<Uuid, Execution>, tenant: Uuid, s: set<Uuid>) {
    forall x | x in s :: x in executions && executions[x].tenantId == tenant && executions[x].status == Running
  }

  // There are `n` different executions that are all of the tenant and RUNNING.
  ghost predicate RunsAtLeast(executions: map<Uuid, Execution>, tenant: Uuid, n: int) {
    exists s: set<Uuid> :: |s| >= n && AllRunning(executions, tenant, s)
  }

  lemma RunningCounted(db: Db, tenant: Uuid, n: int)
    ensures |RunningOf(db, tenant)| >= n <==> RunsAtLeast(db.executions, tenant, n)
  {
    var all := RunningOf(db, tenant);
    if |all| >= n {
      assert AllRunning(db.executions, tenant, all);
    }
    if RunsAtLeast(db.executions, tenant, n) {
      var s: set<Uuid> :| |s| >= n && AllRunning(db.executions, tenant, s);
      SubsetNoLarger(s, all);
    }
  }

  // Without a running execution of the tenant itself nothing is at the limit, and the
  // executions of other tenants do not matter.
  lemma OthersDoNotCount(a: map<Uuid, Execution>, b: map<Uuid, Execution>, tenant: Uuid, n: int)
    requires forall x | x in a && a[x].tenantId == tenant && a[x].status == Running ::
               x in b && b[x].tenantId == tenant && b[x].status == Running
    ensures RunsAtLeast(a, tenant, n) ==> RunsAtLeast(b, tenant, n)
    ensures n > 0 && (forall x | x in a && a[x].tenantId == tenant :: a[x].status != Running) ==>
              !RunsAtLeast(a, tenant, n)
  {
    if RunsAtLeast(a, tenant, n) {
      var s: set<Uuid> :| |s| >= n && AllRunning(a, tenant, s);
      assert AllRunning(b, tenant, s);
      if n > 0 {
        var x :| x in s;
      }
    }
  }

  function Place(db: Db, e: Uuid, tenant: Uuid): nat {
    if e in db.executions && db.executions[e].tenantId == tenant && db.executions[e].status == Running then 1 else 0
  }

  // A change of one history row moves the count of a tenant by that row's place.
  lemma OnePlaceMoves(db: Db, d: Db, e: Uuid, tenant: Uuid)
    requires d.executions.Keys == db.executions.Keys
    requires forall f | f in db.executions && f != e :: d.executions[f] == db.executions[f]
    ensures |RunningOf(d, tenant)| + Place(db, e, tenant) == |RunningOf(db, tenant)| + Place(d, e, tenant)
  {
    var a, b := RunningOf(db, tenant), RunningOf(d, tenant);
    assert a - {e} == b - {e};
    assert |a| == |a - {e}| + if e in a then 1 else 0;
    assert |b| == |b - {e}| + if e in b then 1 else 0;
  }

  lemma ReportPlace(db: Db, e: Uuid, req: ResultRequest, now: Time)
    requires e in db.queue && e in db.executions && db.executions[e].status == Running
    ensures var d := Report(db, e, req, now);
            && d.executions.Keys == db.executions.Keys
            && (forall f | f in db.executions && f != e :: d.executions[f] == db.executions[f])
            && d.executions[e].tenantId == db.executions[e].tenantId
            && (d.executions[e].status == Running <==> e in d.queue)
  {
  }

  // The first claim of a waiting execution uses up one place of its tenant, a later claim
  // none; other tenants keep theirs.
  lemma ClaimUsesPlace(db: Db, e: Uuid, now: Time, tenant: Uuid)
    requires Consistent(db) && e in db.queue
    ensures |RunningOf(Claim(db, {e}, now), tenant)| == |RunningOf(db, tenant)|
              + if tenant == db.queue[e].tenantId && db.queue[e].attempt == 0 then 1 else 0
  {
    assert RowAgrees(db, e);
    OnePlaceMoves(db, Claim(db, {e}, now), e, tenant);
  }

  // A report that ends a running execution frees one place of its tenant; one that puts
  // it back for later frees none.
  lemma ReportFreesPlace(db: Db, e: Uuid, req: ResultRequest, now: Time, tenant: Uuid)
    requires Consistent(db) && e in db.queue && db.queue[e].attempt >= 1
    ensures |RunningOf(Report(db, e, req, now), tenant)| == |RunningOf(db, tenant)|
              - if tenant == db.queue[e].tenantId && e !in Report(db, e, req, now).queue then 1 else 0
  {
    assert RowAgrees(db, e);
    ReportPlace(db, e, req, now);
    OnePlaceMoves(db, Report(db, e, req, now), e, tenant);
  }

  function Ids(items: seq<QueueItem>): (ids: seq<Uuid>)
    ensures |ids| == |items|
  {
    seq(|items|, i requires 0 <= i < |items| => items[i].executionId)
  }

  // UPDATE execution_queue ... WHERE id = ANY(queueIds)
  function UpdateLeases(queue: map<Uuid, QueueRow>, queueIds: seq<nat>, now: Time): map<Uuid, QueueRow> {
    map e | e in queue ::
      if queue[e].id in queueIds then
        queue[e].(attempt := queue[e].attempt + 1, visibleAfter := now + VISIBILITY_TIMEOUT)
      else queue[e]
  }

  // UPDATE executions ... FROM execution_queue, joined on the execution id
  function UpdateStatuses(executions: map<Uuid, Execution>, queue: map<Uuid, QueueRow>, queueIds: seq<nat>, now: Time)
    : map<Uuid, Execution>
  {
    map e | e in executions ::
      if e in queue && queue[e].id in queueIds then
        executions[e].(status := Running, attempt := queue[e].attempt,
                       startedAt := if executions[e].startedAt.Some? then executions[e].startedAt else Some(now))
      else executions[e]
  }

  // Matching on queue ids picks exactly the rows the query returned.
  lemma IdsPickRows(queue: map<Uuid, QueueRow>, rows: seq<Uuid>, queueIds: seq<nat>)
    requires IdsUnique(queue) && |rows| == |queueIds|
    requires forall k | 0 <= k < |rows| :: rows[k] in queue && queueIds[k] == queue[rows[k]].id
    ensures forall e | e in queue :: queue[e].id in queueIds <==> e in rows
  {
    forall e | e in queue
      ensures queue[e].id in queueIds <==> e in rows
    {
      if queue[e].id in queueIds {
        var k :| 0 <= k < |queueIds| && queueIds[k] == queue[e].id;
        assert rows[k] == e;
      }
      if e in rows {
        var k :| 0 <= k < |rows| && rows[k] == e;
        assert queueIds[k] == queue[e].id;
      }
    }
  }

  // The two updates by queue id are the claim of the rows the query returned.
  lemma ClaimByIds(db: Db, rows: seq<Uuid>, queueIds: seq<nat>, now: Time)
    requires IdsUnique(db.queue) && |rows| == |queueIds|
    requires forall k | 0 <= k < |rows| :: rows[k] in db.queue && queueIds[k] == db.queue[rows[k]].id
    ensures var queue := UpdateLeases(db.queue, queueIds, now);
            db.(queue := queue, executions := UpdateStatuses(db.executions, queue, queueIds, now))
            == Claim(db, Elements(rows), now)
  {
    IdsPickRows(db.queue, rows, queueIds);
    var claimed := Claim(db, Elements(rows), now);
    var queue := UpdateLeases(db.queue, queueIds, now);
    var executions := UpdateStatuses(db.executions, queue, queueIds, now);
    assert queue == claimed.queue;
    forall e | e in db.executions
      ensures executions[e] == claimed.executions[e]
    {
      if e in db.queue { assert queue[e].id == db.queue[e].id; }
    }
    assert executions == claimed.executions;
  }

  // What a claim writes: a further attempt and 300 s of lease in the queue; in the history
  // the same attempt, RUNNING, and the start time unless there is one.
  ghost predicate Claimed(queue: map<Uuid, QueueRow>, executions: map<Uuid, Execution>,
                          queue': map<Uuid, QueueRow>, executions': map<Uuid, Execution>, ids: seq<Uuid>, now: Time)
  {
    && queue'.Keys == queue.Keys && executions'.Keys == executions.Keys
    && (forall e | e in queue && e !in ids :: queue'[e] == queue[e])
    && (forall e | e in executions && (e !in ids || e !in queue) :: executions'[e] == executions[e])
    && (forall e | e in queue && e in ids ::
          queue'[e] == queue[e].(attempt := queue[e].attempt + 1, visibleAfter := now + 300 * SECOND))
    && (forall e | e in queue && e in ids && e in executions ::
          executions'[e] == executions[e].(status := Running, attempt := queue[e].attempt + 1,
                                           startedAt := if executions[e].startedAt.None? then Some(now)
                                                        else executions[e].startedAt))
  }

  lemma ClaimColumns(db: Db, ids: seq<Uuid>, now: Time)
    ensures var d := Claim(db, Elements(ids), now); Claimed(db.queue, db.executions, d.queue, d.executions, ids, now)
  {
  }

  lemma ClaimNothing(db: Db, now: Time)
    ensures Claim(db, {}, now) == db
  {
    assert Claim(db, {}, now).queue == db.queue;
    assert Claim(db, {}, now).executions == db.executions;
  }

  class Store {
    var executions: map<Uuid, Execution>
    var queue: map<Uuid, QueueRow>
    var dead: map<Uuid, DeadRow>
    var nextQueueId: nat

    ghost function Contents(): Db
      reads this
    {
      Db(executions, queue, dead, nextQueueId)
    }

    ghost predicate Valid()
      reads this
    {
      Consistent(Contents())
    }

    constructor ()
      ensures Valid() && Contents() == EMPTY_DB
    {
      executions, queue, dead, nextQueueId := map[], map[], map[], 1;
    }

    // `visibleAfter` None is the zero time, which means now.
    method Enqueue(e: Uuid, payload: Payload, visibleAfter: Option<Time>, appNow: Time, txNow: Time)
      returns (r: EnqueueResult)
      modifies this
      ensures var t := if visibleAfter.Some? then visibleAfter.value else appNow;
              var inserted := InsertQueueRow(old(Contents()), e, payload, t, txNow);
              match inserted
              case None => r.NotEnqueued? && Contents() == old(Contents())
              case Some(d) => r == Enqueued(old(nextQueueId)) && Contents() == d
      ensures if e !in old(executions) || e in old(queue) then r.NotEnqueued?
              else && r.Enqueued? && executions == old(executions) && dead == old(dead)
                   && var t := if visibleAfter.None? then appNow else visibleAfter.value;
                      queue == old(queue)[e := QueueRow(r.id, executions[e].tenantId, payload,
                                                        executions[e].priority, 0, t, txNow)]
    {
      var t := if visibleAfter.None? then appNow else visibleAfter.value;
      if e !in executions || e in queue {
        return NotEnqueued;
      }
      var id := nextQueueId;
      queue := queue[e := QueueRow(id, executions[e].tenantId, payload, executions[e].priority, 0, t, txNow)];
      nextQueueId := nextQueueId + 1;
      r := Enqueued(id);
    }

    // `job` is what the lookup of `jobId` returned; a job of another tenant counts as not found.
    method RunJob(tenant: Uuid, maxConcurrent: int, jobId: Uuid, job: Option<Job>, req: RunRequest, e: Uuid,
                  payload: Payload, now: Time, txNow: Time) returns (r: RunResult)
      requires Valid()
      modifies this
      ensures Valid()
      ensures var unknown := job.None? || job.value.tenantId != tenant;
              var past := req.scheduledAt.Some? && req.scheduledAt.value < now;
              var full := maxConcurrent > 0 && |RunningOf(old(Contents()), tenant)| >= maxConcurrent;
              && (r.JobNotFound? <==> unknown)
              && (r.ScheduledInPast? <==> !unknown && past)
              && (r.TooManyRunning? <==> !unknown && !past && full)
              && (r.NotCreated? <==> !unknown && !past && !full && e in old(executions))
      ensures r.TooManyRunning? <==>
                && job.Some? && job.value.tenantId == tenant && (req.scheduledAt.None? || req.scheduledAt.value >= now)
                && maxConcurrent > 0 && RunsAtLeast(old(executions), tenant, maxConcurrent)
      ensures r.Started? ==>
                && executions.Keys == old(executions.Keys) + {e} && queue.Keys == old(queue.Keys) + {e}
                && dead == old(dead)
                && (forall f | f in old(executions) :: executions[f] == old(executions)[f])
                && (forall f | f in old(queue) :: queue[f] == old(queue)[f])
                && var x, row := executions[e], queue[e];
                   && x.jobId == jobId && x.tenantId == tenant && x.priority == job.value.priority && x.attempt == 0
                   && x.status == (if req.scheduledAt.Some? then Scheduled else Pending)
                   && x.createdAt == now && x.startedAt == None && x.finishedAt == None && x.retriedFrom == None
                   && x.scheduledAt == Some(if req.scheduledAt.Some? then req.scheduledAt.value else now)
                   && x.callback == CallbackFor(job.value, req)
                   && row.tenantId == tenant && row.payload == payload && row.priority == job.value.priority
                   && row.attempt == 0 && row.createdAt == txNow && Some(row.visibleAfter) == x.scheduledAt
      ensures r.Started? ==>
                && r.executionId == e && e !in old(executions)
                && Tables.RunJob(old(Contents()), Submission(e, jobId, job.value, req, payload, now, txNow))
                   == Some(Contents())
      ensures !r.Started? ==> Contents() == old(Contents())
    {
      if job.None? || job.value.tenantId != tenant {
        return JobNotFound;
      }
      ghost var before := Contents();
      ghost var run := Submission(e, jobId, job.value, req, payload, now, txNow);
      Consistency.RowsKnown(before);
      RunningCounted(before, tenant, maxConcurrent);
      Consistency.RunJobKeeps(before, run);
      var callbackUrl, callbackHeaders, callbackStatus := job.value.callbackUrl, job.value.callbackHeaders, None;
      if req.callbackUrl.Some? {
        callbackUrl := req.callbackUrl;
      }
      if callbackUrl.Some? && callbackUrl.value != "" {
        callbackStatus := Some(AwaitingDelivery);
      }
      if req.callbackHeaders.Some? {
        callbackHeaders := req.callbackHeaders;
      }
      var status, scheduledAt := Pending, now;
      if req.scheduledAt.Some? {
        if req.scheduledAt.value < now {
          return ScheduledInPast;
        }
        status, scheduledAt := Scheduled, req.scheduledAt.value;
      }
      if maxConcurrent > 0 {
        var count := |RunningOf(Db(executions, queue, dead, nextQueueId), tenant)|;
        if count >= maxConcurrent {
          return TooManyRunning;
        }
      }
      if e in executions {
        return NotCreated;
      }
      executions := executions[e := Execution(jobId, tenant, job.value.priority, status, 0, None, None, None, None, now,
                                              Some(scheduledAt), None, None,
                                              Callback(callbackUrl, callbackHeaders, callbackStatus))];
      assert Contents() == InsertExecution(before, e, SubmittedExecution(run));
      var queued := Enqueue(e, payload, Some(scheduledAt), now, txNow);
      r := Started(e);
    }

    // The row loop of the dequeue query.
    method Scan(rows: seq<Uuid>) returns (items: seq<QueueItem>, queueIds: seq<nat>)
      requires forall k | 0 <= k < |rows| :: rows[k] in queue
      ensures |items| == |queueIds| == |rows| && Ids(items) == rows
      ensures forall k | 0 <= k < |rows| ::
                items[k].payload == queue[rows[k]].payload && queueIds[k] == queue[rows[k]].id
    {
      items, queueIds := [], [];
      for i := 0 to |rows|
        invariant |items| == |queueIds| == i
        invariant forall k | 0 <= k < i :: items[k] == QueueItem(rows[k], queue[rows[k]].payload)
        invariant forall k | 0 <= k < i :: queueIds[k] == queue[rows[k]].id
      {
        items := items + [QueueItem(rows[i], queue[rows[i]].payload)];
        queueIds := queueIds + [queue[rows[i]].id];
      }
      assert Ids(items) == rows;
    }

    // The two bulk updates, which name the rows by queue id.
    method ClaimIds(queueIds: seq<nat>, ghost rows: seq<Uuid>, now: Time)
      requires Valid() && |queueIds| == |rows|
      requires forall k | 0 <= k < |rows| :: rows[k] in queue && queueIds[k] == queue[rows[k]].id
      modifies this
      ensures Valid() && Contents() == Claim(old(Contents()), Elements(rows), now)
    {
      Consistency.ClaimKeeps(Contents(), Elements(rows), now);
      ClaimByIds(Contents(), rows, queueIds, now);
      queue := UpdateLeases(queue, queueIds, now);
      executions := UpdateStatuses(executions, queue, queueIds, now);
    }

    // One dequeue transaction whose NOW() is `now`; `locked` are the rows other
    // transactions have locked.
    method DequeueBatch(tenants: seq<Uuid>, limit: int, locked: set<Uuid>, now: Time) returns (items: seq<QueueItem>)
      requires Valid()
      modifies this
      ensures Valid()
      ensures IsBatch(old(queue), Eligible(old(queue), locked, tenants, now), StoreLimit(limit), Ids(items))
      ensures forall i | 0 <= i < |items| ::
                items[i].executionId in old(queue) && items[i].payload == old(queue)[items[i].executionId].payload
      ensures Contents() == Claim(old(Contents()), Elements(Ids(items)), now)
      ensures AnswersQuery(old(queue), locked, tenants, now, if limit < 1 then 1 else limit, Ids(items))
      ensures Claimed(old(queue), old(executions), queue, executions, Ids(items), now)
      ensures dead == old(dead) && nextQueueId == old(nextQueueId)
    {
      var rows := SelectBatch(queue, locked, tenants, now, if limit <= 0 then 1 else limit);
      var queueIds;
      items, queueIds := Scan(rows);
      if |items| == 0 {
        ClaimNothing(Contents(), now);
        ClaimColumns(Contents(), [], now);
        assert Ids(items) == [];
        assert Elements(Ids(items)) == {};
        return;
      }
      ClaimColumns(Contents(), rows, now);
      ClaimIds(queueIds, rows, now);
    }

    method Complete(e: Uuid, exitCode: int, result: Option<Payload>, now: Time)
      requires Valid()
      modifies this
      ensures Valid()
      ensures Contents() == Tables.Complete(old(Contents()), e, exitCode, result, now)
      ensures queue == old(queue) - {e} && dead == old(dead) && executions.Keys == old(executions.Keys)
      ensures forall f | f in executions :: executions[f] ==
                if f == e then old(executions)[f].(status := Succeeded, exitCode := Some(exitCode), result := result,
                                                   finishedAt := Some(now))
                else old(executions)[f]
    {
      Consistency.DeleteQueueRowKeeps(Contents(), e);
      queue := queue - {e};
      Consistency.MarkSucceededKeeps(Contents(), e, exitCode, result, now);
      if e in executions {
        executions := executions[e := executions[e].(status := Succeeded, exitCode := Some(exitCode),
                                                     result := result, finishedAt := Some(now))];
      }
    }

    // False when the dead letter already existed and nothing was changed.
    method Fail(e: Uuid, exitCode: Option<int>, err: string, now: Time) returns (ok: bool)
      requires Valid()
      modifies this
      ensures Valid()
      ensures Contents() == Tables.Fail(old(Contents()), e, exitCode, err, now)
      ensures !ok <==> e in old(queue) && old(queue)[e].attempt > MAX_RETRIES && e in old(dead)
      ensures !ok ==> Contents() == old(Contents())
      ensures ok && e in old(queue) && old(queue)[e].attempt <= 5 ==>
                && executions == old(executions) && dead == old(dead)
                && var r := old(queue)[e];
                   queue == old(queue)[e := r.(visibleAfter := now + 10 * Pow2(r.attempt) * SECOND)]
      ensures ok && !(e in old(queue) && old(queue)[e].attempt <= 5) ==>
                && queue == old(queue) - {e} && executions.Keys == old(executions.Keys)
                && dead == (if e in old(queue)
                            then old(dead)[e := DeadRow(old(queue)[e].tenantId, old(queue)[e].payload, err,
                                                        old(queue)[e].attempt, now)]
                            else old(dead))
                && forall f | f in executions :: executions[f] ==
                     if f == e then old(executions)[f].(status := Failed, exitCode := exitCode,
                                                        errorMessage := Some(err), finishedAt := Some(now))
                     else old(executions)[f]
    {
      ghost var before := Contents();
      Consistency.FailKeeps(before, e, exitCode, err, now);
      var fatal := false;
      var attempt := 0;
      if e !in queue {
        fatal := true;
      } else {
        attempt := queue[e].attempt;
        if attempt > MAX_RETRIES {
          fatal := true;
        }
      }
      if !fatal {
        var backoff := RetryDelay(attempt);
        queue := queue[e := queue[e].(visibleAfter := now + backoff)];
        assert Contents() == Tables.Fail(before, e, exitCode, err, now);
        return true;
      }
      if e in queue {
        if e in dead {
          return false;
        }
        dead := dead[e := DeadRow(queue[e].tenantId, queue[e].payload, err, queue[e].attempt, now)];
      }
      queue := queue - {e};
      if e in executions {
        executions := executions[e := executions[e].(status := Failed, exitCode := exitCode,
                                                     errorMessage := Some(err), finishedAt := Some(now))];
      }
      ok := true;
    }

    method SetVisibleAfter(e: Uuid, visibleAfter: Time)
      requires Valid()
      modifies this
      ensures Valid()
      ensures Contents() == Tables.SetVisibleAfter(old(Contents()), e, visibleAfter)
      ensures executions == old(executions) && dead == old(dead) && nextQueueId == old(nextQueueId)
      ensures queue == if e in old(queue) then old(queue)[e := old(queue)[e].(visibleAfter := visibleAfter)]
                       else old(queue)
    {
      Consistency.SetVisibleAfterKeeps(Contents(), e, visibleAfter);
      if e in queue {
        queue := queue[e := queue[e].(visibleAfter := visibleAfter)];
      }
    }

    method RetryFromDLQ(e: Uuid, newId: Uuid, now: Time, txNow: Time) returns (r: RetryResult)
      requires Valid()
      modifies this
      ensures Valid()
      ensures r == (if e in old(dead) && newId !in old(executions) then Retried(newId) else NotRetried)
      ensures match RetryFromDead(old(Contents()), e, newId, now, txNow)
              case None => Contents() == old(Contents())
              case Some(d) => Contents() == d
      ensures r.Retried? ==>
                && dead == old(dead) - {e} && executions.Keys == old(executions.Keys) + {newId}
                && queue.Keys == old(queue.Keys) + {newId}
                && (forall f | f in old(executions) :: executions[f] == old(executions)[f])
                && (forall f | f in old(queue) :: queue[f] == old(queue)[f])
                && e in old(executions)
                && var x, y, row := old(executions)[e], executions[newId], queue[newId];
                   && y.jobId == x.jobId && y.tenantId == x.tenantId && y.priority == x.priority && y.attempt == 0
                   && y.status == Pending && y.retriedFrom == Some(e) && y.createdAt == now && y.scheduledAt == None
                   && y.startedAt == None && y.finishedAt == None && y.callback == Callback(None, None, None)
                   && row.payload == old(dead)[e].payload && row.tenantId == x.tenantId && row.priority == x.priority
                   && row.attempt == 0 && row.visibleAfter == now && row.createdAt == txNow
    {
      ghost var before := Contents();
      Consistency.RowsKnown(before);
      Consistency.RetryKeeps(before, e, newId, now, txNow);
      if e !in dead || newId in executions {
        return NotRetried;
      }
      var payload, x := dead[e].payload, executions[e];
      executions := executions[newId := Execution(x.jobId, x.tenantId, x.priority, Pending, 0, None, None, None,
                                                  Some(e), now, None, None, None, NO_CALLBACK)];
      assert Contents() == InsertExecution(before, newId, RetriedExecution(x.jobId, x.tenantId, x.priority, e, now));
      var queued := Enqueue(newId, payload, Some(now), now, txNow);
      dead := dead - {e};
      r := Retried(newId);
    }

    // PUT /internal/executions/{id}/result. A refused failure is an internal error; an
    // accepted report also sets off the webhook, when there is one.
    method UpdateResult(e: Uuid, req: ResultRequest, webhook: bool, now: Time) returns (r: Reply)
      requires Valid()
      modifies this
      ensures Valid()
      ensures Contents() == Report(old(Contents()), e, req, now)
      ensures r.NotUpdated? <==>
                !ReportsSuccess(req) && e in old(queue) && old(queue)[e].attempt > MAX_RETRIES && e in old(dead)
      ensures r.NotUpdated? ==> Contents() == old(Contents())
      ensures r.Updated? ==> r.notifies == webhook
      ensures req.exitCode == Some(0) && req.error == "" ==>
                && r.Updated? && e !in queue && dead == old(dead)
                && (e in executions ==> executions[e].status == Succeeded && executions[e].exitCode == Some(0))
      ensures req.exitCode != Some(0) || req.error != "" ==>
                && (e in old(queue) && old(queue)[e].attempt <= 5 ==>
                      && e in queue && executions == old(executions) && dead == old(dead)
                      && queue[e] == old(queue)[e].(visibleAfter := now + 10 * Pow2(old(queue)[e].attempt) * SECOND))
                && (!(e in old(queue) && old(queue)[e].attempt <= 5) && r.Updated? ==>
                      && e !in queue
                      && (e in executions ==> executions[e].status == Failed && executions[e].exitCode == req.exitCode
                                              && executions[e].errorMessage == Some(req.error)
                                              && executions[e].finishedAt == Some(now)))
    {
      if req.exitCode.Some? && req.exitCode.value == 0 && req.error == "" {
        Complete(e, 0, req.result, now);
      } else {
        var ok := Fail(e, req.exitCode, req.error, now);
        if !ok {
          return NotUpdated;
        }
      }
      r := Updated(webhook);
    }

    // PUT /internal/executions/{id}/heartbeat
    method Heartbeat(e: Uuid, now: Time, extension: Time)
      requires Valid()
      modifies this
      ensures Valid()
      ensures Contents() == Tables.SetVisibleAfter(old(Contents()), e, now + extension)
      ensures queue == if e in old(queue) then old(queue)[e := old(queue)[e].(visibleAfter := now + extension)]
                       else old(queue)
    {
      SetVisibleAfter(e, now + extension);
    }

    // POST /internal/executions/dequeue
    method Dequeue(tenants: seq<Uuid>, limit: int, locked: set<Uuid>, now: Time) returns (items: seq<QueueItem>)
      requires Valid()
      modifies this
      ensures Valid()
      ensures IsBatch(old(queue), Eligible(old(queue), locked, tenants, now), HandlerLimit(limit), Ids(items))
      ensures |items| <= MAX_BATCH && (limit >= 1 ==> |items| <= limit)
      ensures forall i | 0 <= i < |items| ::
                items[i].executionId in old(queue) && items[i].payload == old(queue)[items[i].executionId].payload
      ensures Contents() == Claim(old(Contents()), Elements(Ids(items)), now)
      ensures AnswersQuery(old(queue), locked, tenants, now,
                           if limit < 1 then 1 else if limit > 100 then 100 else limit, Ids(items))
      ensures Claimed(old(queue), old(executions), queue, executions, Ids(items), now)
      ensures dead == old(dead) && nextQueueId == old(nextQueueId)
    {
      var clamped := limit;
      if clamped <= 0 {
        clamped := 1;
      }
      if clamped > MAX_BATCH {
        clamped := MAX_BATCH;
      }
      items := DequeueBatch(tenants, clamped, locked, now);
    }
  }
}
