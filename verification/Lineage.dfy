/**
 Whole handlers on the three tables: where every execution is, how many there
 are of each kind, and how dead-letter retries hang together.
 */
module Lineage {
  import opened Tables
  import opened Consistency

  // The tables with two things the database does not keep: the payload each
  // execution was enqueued with, and its place in the order of creation.
  datatype History = History(db: Db, payloads: map<Uuid, Payload>, birth: map<Uuid, nat>)

  datatype Step =
    | Run(run: JobRun)
    | Dequeue(batch: set<Uuid>, now: Time)
    | ReportResult(e: Uuid, req: ResultRequest, now: Time)
    | Beat(e: Uuid, visibleAfter: Time)
    | RetryDead(e: Uuid, newId: Uuid, now: Time, txNow: Time)

  // Dequeues claim queued rows, and reports are for queued executions.
  ghost predicate Enabled(h: History, s: Step) {
    match s
    case Run(run) => RunJob(h.db, run).Some?
    case Dequeue(batch, _) => batch <= h.db.queue.Keys
    case ReportResult(e, _, _) => e in h.db.queue
    case Beat(_, _) => true
    case RetryDead(e, newId, now, txNow) => RetryFromDead(h.db, e, newId, now, txNow).Some?
  }

  function Created(h: History, e: Uuid, payload: Payload, d: Db): History {
    History(d, h.payloads[e := payload], h.birth[e := |h.db.executions|])
  }

  ghost function Next(h: History, s: Step): History
    requires Enabled(h, s)
  {
    match s
    case Run(run) => Created(h, run.e, run.payload, RunJob(h.db, run).value)
    case Dequeue(batch, now) => h.(db := Claim(h.db, batch, now))
    case ReportResult(e, req, now) => h.(db := Report(h.db, e, req, now))
    case Beat(e, t) => h.(db := SetVisibleAfter(h.db, e, t))
    case RetryDead(e, newId, now, txNow) =>
      Created(h, newId, h.db.dead[e].payload, RetryFromDead(h.db, e, newId, now, txNow).value)
  }

  // ---------------------------------------------------------------------
  // Invariant
  // ---------------------------------------------------------------------

  ghost predicate HasSuccessor(db: Db, e: Uuid) {
    exists x :: x in db.executions && db.executions[x].retriedFrom == Some(e)
  }

  // Exactly one place for every execution.
  ghost predicate Placed(db: Db, e: Uuid)
    requires e in db.executions
  {
    && (e in db.queue <==> !Finished(db.executions[e].status))
    && (e in db.dead ==> db.executions[e].status.Failed? && db.dead[e].attempts == db.executions[e].attempt)
    && (HasSuccessor(db, e) <==> db.executions[e].status.Failed? && e !in db.dead)
  }

  ghost predicate SameJob(x: Execution, y: Execution) {
    x.jobId == y.jobId && x.tenantId == y.tenantId && x.priority == y.priority
  }

  ghost predicate Descends(h: History, e: Uuid)
    requires e in h.db.executions
  {
    h.db.executions[e].retriedFrom.Some? ==>
      var p := h.db.executions[e].retriedFrom.value;
      && p in h.db.executions && SameJob(h.db.executions[p], h.db.executions[e])
      && p in h.birth && e in h.birth && h.birth[p] < h.birth[e]
      && p in h.payloads && e in h.payloads && h.payloads[p] == h.payloads[e]
  }

  ghost predicate OneSuccessor(db: Db) {
    forall x, y | x in db.executions && y in db.executions && db.executions[x].retriedFrom.Some?
                  && db.executions[x].retriedFrom == db.executions[y].retriedFrom :: x == y
  }

  ghost predicate BirthsTracked(h: History) {
    forall e | e in h.db.executions :: e in h.payloads && e in h.birth && h.birth[e] < |h.db.executions|
  }

  ghost predicate PayloadsTracked(h: History) {
    && (forall e | e in h.db.queue :: e in h.payloads && h.db.queue[e].payload == h.payloads[e])
    && (forall e | e in h.db.dead :: e in h.payloads && h.db.dead[e].payload == h.payloads[e])
  }

  ghost predicate Tracked(h: History) {
    BirthsTracked(h) && PayloadsTracked(h)
  }

  ghost predicate Inv(h: History) {
    && Consistent(h.db)
    && (forall e | e in h.db.executions :: Placed(h.db, e))
    && (forall e | e in h.db.executions :: Descends(h, e))
    && OneSuccessor(h.db)
    && Tracked(h)
  }

  // ---------------------------------------------------------------------
  // Steps
  // ---------------------------------------------------------------------

  // A change of the tables that creates nothing, and moves no payload.
  ghost predicate KeepsLineage(h: History, d: Db) {
    && d.executions.Keys == h.db.executions.Keys
    && (forall e | e in d.executions ::
          SameJob(h.db.executions[e], d.executions[e]) && d.executions[e].retriedFrom == h.db.executions[e].retriedFrom)
    && (forall e | e in d.queue :: e in h.db.queue && d.queue[e].payload == h.db.queue[e].payload)
    && (forall e | e in d.dead :: (e in h.db.dead && d.dead[e].payload == h.db.dead[e].payload)
                              || (e in h.db.queue && d.dead[e].payload == h.db.queue[e].payload))
  }

  lemma DescendsKept(h: History, d: Db, e: Uuid)
    requires KeepsLineage(h, d) && e in h.db.executions && Descends(h, e)
    ensures Descends(h.(db := d), e)
  {
  }

  lemma OneSuccessorKept(h: History, d: Db)
    requires KeepsLineage(h, d) && OneSuccessor(h.db)
    ensures OneSuccessor(d)
  {
    forall x, y | x in d.executions && y in d.executions && d.executions[x].retriedFrom.Some?
                  && d.executions[x].retriedFrom == d.executions[y].retriedFrom
      ensures x == y
    {
      assert h.db.executions[x].retriedFrom == h.db.executions[y].retriedFrom;
    }
  }

  lemma TrackedKept(h: History, d: Db)
    requires KeepsLineage(h, d) && Tracked(h)
    ensures Tracked(h.(db := d))
  {
    assert |d.executions.Keys| == |h.db.executions.Keys|;
  }

  lemma LineageKept(h: History, d: Db)
    requires Inv(h) && KeepsLineage(h, d)
    requires Consistent(d) && forall e | e in d.executions :: Placed(d, e)
    ensures Inv(h.(db := d))
  {
    forall e | e in d.executions ensures Descends(h.(db := d), e) { DescendsKept(h, d, e); }
    OneSuccessorKept(h, d);
    TrackedKept(h, d);
  }

  lemma SuccessorsKept(h: History, d: Db, e: Uuid)
    requires KeepsLineage(h, d)
    ensures HasSuccessor(d, e) <==> HasSuccessor(h.db, e)
  {
  }

  // `e` stays where it is.
  ghost predicate SamePlace(db: Db, d: Db, e: Uuid) {
    && e in db.executions && e in d.executions
    && (e in d.queue <==> e in db.queue)
    && (e in d.dead <==> e in db.dead)
    && (Finished(d.executions[e].status) <==> Finished(db.executions[e].status))
    && (d.executions[e].status.Failed? <==> db.executions[e].status.Failed?)
    && (e in db.dead ==> d.dead[e] == db.dead[e] && d.executions[e].attempt == db.executions[e].attempt)
  }

  lemma PlaceKept(h: History, d: Db, e: Uuid)
    requires KeepsLineage(h, d) && SamePlace(h.db, d, e) && Placed(h.db, e)
    ensures Placed(d, e)
  {
    SuccessorsKept(h, d, e);
  }

  // A change that moves at most the execution `e`.
  lemma OneMoved(h: History, d: Db, e: Uuid)
    requires Inv(h) && KeepsLineage(h, d) && Consistent(d)
    requires e in d.executions ==> Placed(d, e)
    requires forall f | f in d.executions && f != e :: SamePlace(h.db, d, f)
    ensures Inv(h.(db := d))
  {
    forall f | f in d.executions ensures Placed(d, f) {
      if f != e { PlaceKept(h, d, f); }
    }
    LineageKept(h, d);
  }

  lemma ClaimSamePlace(h: History, batch: set<Uuid>, now: Time, e: Uuid)
    requires Inv(h) && batch <= h.db.queue.Keys && e in h.db.executions
    ensures SamePlace(h.db, Claim(h.db, batch, now), e)
  {
    assert Placed(h.db, e);
    assert e in batch ==> RowAgrees(h.db, e);
  }

  lemma ClaimLineage(h: History, batch: set<Uuid>, now: Time)
    ensures KeepsLineage(h, Claim(h.db, batch, now))
  {
  }

  lemma DequeueStep(h: History, batch: set<Uuid>, now: Time, d: Db)
    requires Inv(h) && batch <= h.db.queue.Keys && d == Claim(h.db, batch, now)
    ensures Inv(h.(db := d))
  {
    ClaimKeeps(h.db, batch, now);
    ClaimLineage(h, batch, now);
    forall e | e in d.executions ensures Placed(d, e) {
      ClaimSamePlace(h, batch, now, e);
      PlaceKept(h, d, e);
    }
    LineageKept(h, d);
  }

  lemma BeatStep(h: History, e: Uuid, t: Time, d: Db)
    requires Inv(h) && d == SetVisibleAfter(h.db, e, t)
    ensures Inv(h.(db := d))
  {
    SetVisibleAfterKeeps(h.db, e, t);
    assert KeepsLineage(h, d);
    forall f | f in d.executions ensures Placed(d, f) { PlaceKept(h, d, f); }
    LineageKept(h, d);
  }

  lemma CompletePlaced(h: History, e: Uuid, result: Option<Payload>, now: Time, d: Db)
    requires Inv(h) && e in h.db.queue && d == Complete(h.db, e, 0, result, now)
    ensures KeepsLineage(h, d) && Placed(d, e)
  {
    assert RowAgrees(h.db, e) && Placed(h.db, e);
    SuccessorsKept(h, d, e);
  }

  lemma CompleteStep(h: History, e: Uuid, result: Option<Payload>, now: Time, d: Db)
    requires Inv(h) && e in h.db.queue && d == Complete(h.db, e, 0, result, now)
    ensures Inv(h.(db := d))
  {
    DeleteQueueRowKeeps(h.db, e);
    MarkSucceededKeeps(DeleteQueueRow(h.db, e), e, 0, result, now);
    CompletePlaced(h, e, result, now, d);
    OneMoved(h, d, e);
  }

  lemma GiveUpTables(db: Db, e: Uuid, exitCode: Option<int>, err: string, now: Time)
    requires e in db.queue && e in db.executions && e !in db.dead && db.queue[e].attempt > MAX_RETRIES
    ensures var r := db.queue[e];
            Fail(db, e, exitCode, err, now)
            == db.(queue := db.queue - {e},
                   dead := db.dead[e := DeadRow(r.tenantId, r.payload, err, r.attempt, now)],
                   executions := db.executions[e := db.executions[e].(status := Failed, exitCode := exitCode,
                                                                      errorMessage := Some(err),
                                                                      finishedAt := Some(now))])
  {
  }

  lemma GiveUpPlaced(h: History, e: Uuid, d: Db)
    requires e in h.db.queue && RowAgrees(h.db, e) && Placed(h.db, e) && e in d.dead && e in d.executions
    requires d.queue == h.db.queue - {e} && d.dead == h.db.dead[e := d.dead[e]]
    requires d.dead[e].payload == h.db.queue[e].payload && d.dead[e].attempts == h.db.queue[e].attempt
    requires d.executions == h.db.executions[e := d.executions[e]] && d.executions[e].status.Failed?
    requires d.executions[e] == h.db.executions[e].(status := Failed, exitCode := d.executions[e].exitCode,
                                                    errorMessage := d.executions[e].errorMessage,
                                                    finishedAt := d.executions[e].finishedAt)
    ensures KeepsLineage(h, d) && Placed(d, e)
    ensures forall f | f in d.executions && f != e :: SamePlace(h.db, d, f)
  {
    assert KeepsLineage(h, d);
    SuccessorsKept(h, d, e);
  }

  lemma GiveUpStep(h: History, e: Uuid, exitCode: Option<int>, err: string, now: Time, d: Db)
    requires Inv(h) && e in h.db.queue && h.db.queue[e].attempt > MAX_RETRIES
    requires d == Fail(h.db, e, exitCode, err, now)
    ensures Inv(h.(db := d))
  {
    assert RowAgrees(h.db, e) && Placed(h.db, e);
    FailKeeps(h.db, e, exitCode, err, now);
    GiveUpTables(h.db, e, exitCode, err, now);
    GiveUpPlaced(h, e, d);
    OneMoved(h, d, e);
  }

  // A new execution, with the dead letter of its predecessor, if any, used up.
  ghost predicate Creates(h: History, e: Uuid, x: Execution, payload: Payload, d: Db) {
    && e !in h.db.executions && Waiting(x.status)
    && d.executions == h.db.executions[e := x]
    && d.queue.Keys == h.db.queue.Keys + {e} && d.queue[e].payload == payload
    && (forall f | f in h.db.queue :: d.queue[f] == h.db.queue[f])
    && d.dead == (if x.retriedFrom.Some? then h.db.dead - {x.retriedFrom.value} else h.db.dead)
    && (x.retriedFrom.Some? ==>
          var p := x.retriedFrom.value;
          p in h.db.dead && p in h.db.executions && SameJob(h.db.executions[p], x) && payload == h.db.dead[p].payload)
  }

  lemma CreatedPlaced(h: History, e: Uuid, x: Execution, payload: Payload, d: Db, f: Uuid)
    requires Inv(h) && Creates(h, e, x, payload, d) && f in d.executions
    ensures Placed(d, f)
  {
    RowsKnown(h.db);
    if f == e {
      forall y | y in d.executions ensures d.executions[y].retriedFrom != Some(e) {
        if y in h.db.executions { assert Descends(h, y); }
      }
    } else {
      assert Placed(h.db, f);
      if HasSuccessor(h.db, f) {
        var y :| y in h.db.executions && h.db.executions[y].retriedFrom == Some(f);
        assert d.executions[y].retriedFrom == Some(f);
      }
      if x.retriedFrom == Some(f) {
        assert d.executions[e].retriedFrom == Some(f);
      }
    }
  }

  lemma CreatedOneSuccessor(h: History, e: Uuid, x: Execution, payload: Payload, d: Db)
    requires Inv(h) && Creates(h, e, x, payload, d)
    ensures OneSuccessor(d)
  {
    if x.retriedFrom.Some? {
      var p := x.retriedFrom.value;
      assert Placed(h.db, p);
      assert !HasSuccessor(h.db, p);
    }
  }

  lemma CreatedDescends(h: History, e: Uuid, x: Execution, payload: Payload, d: Db, f: Uuid)
    requires Inv(h) && Creates(h, e, x, payload, d) && f in d.executions
    ensures Descends(Created(h, e, payload, d), f)
  {
    if f != e {
      assert Descends(h, f);
    } else if x.retriedFrom.Some? {
      assert x.retriedFrom.value in h.db.executions;
    }
  }

  lemma Grown(m: map<Uuid, Execution>, e: Uuid, x: Execution)
    requires e !in m
    ensures |m[e := x]| == |m| + 1
  {
  }

  lemma CreatedBirths(h: History, e: Uuid, x: Execution, payload: Payload, d: Db)
    requires BirthsTracked(h) && Creates(h, e, x, payload, d)
    ensures BirthsTracked(Created(h, e, payload, d))
  {
    Grown(h.db.executions, e, x);
  }

  lemma CreatedPayloads(h: History, e: Uuid, x: Execution, payload: Payload, d: Db)
    requires PayloadsTracked(h) && Creates(h, e, x, payload, d) && e !in h.db.queue && e !in h.db.dead
    ensures PayloadsTracked(Created(h, e, payload, d))
  {
    forall f | f in d.queue ensures d.queue[f].payload == h.payloads[e := payload][f] {
      assert f == e || f in h.db.queue;
    }
  }

  lemma CreateStep(h: History, e: Uuid, x: Execution, payload: Payload, d: Db)
    requires Inv(h) && Creates(h, e, x, payload, d) && Consistent(d)
    ensures Inv(Created(h, e, payload, d))
  {
    RowsKnown(h.db);
    forall f | f in d.executions ensures Placed(d, f) { CreatedPlaced(h, e, x, payload, d, f); }
    forall f | f in d.executions ensures Descends(Created(h, e, payload, d), f) {
      CreatedDescends(h, e, x, payload, d, f);
    }
    CreatedOneSuccessor(h, e, x, payload, d);
    CreatedBirths(h, e, x, payload, d);
    CreatedPayloads(h, e, x, payload, d);
  }

  lemma RetryCreates(h: History, e: Uuid, newId: Uuid, now: Time, txNow: Time, d: Db)
    requires Consistent(h.db) && e in h.db.dead && RetryFromDead(h.db, e, newId, now, txNow) == Some(d)
    ensures newId in d.executions && Creates(h, newId, d.executions[newId], h.db.dead[e].payload, d) && Consistent(d)
  {
    RowsKnown(h.db);
    RetryKeeps(h.db, e, newId, now, txNow);
  }

  lemma RetryStep(h: History, e: Uuid, newId: Uuid, now: Time, txNow: Time, d: Db)
    requires Inv(h) && e in h.db.dead && RetryFromDead(h.db, e, newId, now, txNow) == Some(d)
    ensures Inv(Created(h, newId, h.db.dead[e].payload, d))
  {
    RetryCreates(h, e, newId, now, txNow, d);
    CreateStep(h, newId, d.executions[newId], h.db.dead[e].payload, d);
  }

  lemma RunCreates(h: History, run: JobRun, d: Db)
    requires Consistent(h.db) && RunJob(h.db, run) == Some(d)
    ensures Creates(h, run.e, d.executions[run.e], run.payload, d) && Consistent(d)
  {
    RowsKnown(h.db);
    RunJobKeeps(h.db, run);
  }

  lemma RunStep(h: History, run: JobRun, d: Db)
    requires Inv(h) && RunJob(h.db, run) == Some(d)
    ensures Inv(Created(h, run.e, run.payload, d))
  {
    RunCreates(h, run, d);
    CreateStep(h, run.e, d.executions[run.e], run.payload, d);
  }

  lemma RetryStays(db: Db, e: Uuid, exitCode: Option<int>, err: string, now: Time)
    requires e in db.queue && db.queue[e].attempt <= MAX_RETRIES
    ensures Fail(db, e, exitCode, err, now) == SetVisibleAfter(db, e, now + RetryDelay(db.queue[e].attempt))
  {
  }

  lemma PutBackStep(h: History, e: Uuid, exitCode: Option<int>, err: string, now: Time, d: Db)
    requires Inv(h) && e in h.db.queue && h.db.queue[e].attempt <= MAX_RETRIES
    requires d == Fail(h.db, e, exitCode, err, now)
    ensures Inv(h.(db := d))
  {
    RetryStays(h.db, e, exitCode, err, now);
    BeatStep(h, e, now + RetryDelay(h.db.queue[e].attempt), d);
  }

  // A report completes the execution, gives it up, or puts it back for later.
  lemma ReportStep(h: History, e: Uuid, req: ResultRequest, now: Time, d: Db)
    requires Inv(h) && e in h.db.queue && d == Report(h.db, e, req, now)
    ensures Inv(h.(db := d))
  {
    if ReportsSuccess(req) {
      CompleteStep(h, e, req.result, now, d);
    } else if h.db.queue[e].attempt > MAX_RETRIES {
      GiveUpStep(h, e, req.exitCode, req.error, now, d);
    } else {
      PutBackStep(h, e, req.exitCode, req.error, now, d);
    }
  }

  lemma StepKeeps(h: History, s: Step)
    requires Inv(h) && Enabled(h, s)
    ensures Inv(Next(h, s))
  {
    match s {
      case Run(run) => RunStep(h, run, Next(h, s).db);
      case Dequeue(batch, now) => DequeueStep(h, batch, now, Next(h, s).db);
      case Beat(e, t) => BeatStep(h, e, t, Next(h, s).db);
      case RetryDead(e, newId, now, txNow) => RetryStep(h, e, newId, now, txNow, Next(h, s).db);
      case ReportResult(e, req, now) => ReportStep(h, e, req, now, Next(h, s).db);
    }
  }

  // ---------------------------------------------------------------------
  // Runs
  // ---------------------------------------------------------------------

  ghost predicate IsRun(hs: seq<History>, steps: seq<Step>) {
    && |hs| == |steps| + 1
    && hs[0] == History(EMPTY_DB, map[], map[])
    && forall i | 0 <= i < |steps| :: Enabled(hs[i], steps[i]) && hs[i + 1] == Next(hs[i], steps[i])
  }

  lemma {:induction false} RunInv(hs: seq<History>, steps: seq<Step>, n: nat)
    requires IsRun(hs, steps) && n <= |steps|
    ensures Inv(hs[n])
  {
    if n > 0 {
      RunInv(hs, steps, n - 1);
      StepKeeps(hs[n - 1], steps[n - 1]);
    }
  }

  // How many executions the first `n` steps created.
  function Creations(steps: seq<Step>, n: nat): nat
    requires n <= |steps|
  {
    if n == 0 then 0
    else Creations(steps, n - 1) + if steps[n - 1].Run? || steps[n - 1].RetryDead? then 1 else 0
  }

  lemma SizeStep(h: History, s: Step)
    requires Enabled(h, s)
    ensures |Next(h, s).db.executions| == |h.db.executions| + if s.Run? || s.RetryDead? then 1 else 0
  {
    if !s.Run? && !s.RetryDead? {
      assert Next(h, s).db.executions.Keys == h.db.executions.Keys;
      assert |Next(h, s).db.executions.Keys| == |h.db.executions.Keys|;
    }
  }

  lemma {:induction false} ExecutionsCounted(hs: seq<History>, steps: seq<Step>, n: nat)
    requires IsRun(hs, steps) && n <= |steps|
    ensures |hs[n].db.executions| == Creations(steps, n)
  {
    if n > 0 {
      ExecutionsCounted(hs, steps, n - 1);
      SizeStep(hs[n - 1], steps[n - 1]);
    }
  }

  // ---------------------------------------------------------------------
  // Main results
  // ---------------------------------------------------------------------

  function Succeeded(db: Db): set<Uuid> {
    set e | e in db.executions && db.executions[e].status.Succeeded?
  }

  // Failed for good, and run again under another id.
  function Retried(db: Db): set<Uuid> {
    set e | e in db.executions && db.executions[e].status.Failed? && e !in db.dead
  }

  function Successors(db: Db, e: Uuid): set<Uuid> {
    set x | x in db.executions && db.executions[x].retriedFrom == Some(e)
  }

  lemma DisjointSum(a: set<Uuid>, b: set<Uuid>)
    requires a !! b
    ensures |a + b| == |a| + |b|
  {
  }

  lemma Partition(db: Db)
    requires Consistent(db) && forall e | e in db.executions :: Placed(db, e)
    ensures db.executions.Keys == db.queue.Keys + Succeeded(db) + db.dead.Keys + Retried(db)
    ensures db.queue.Keys !! Succeeded(db) !! db.dead.Keys !! Retried(db)
  {
    RowsKnown(db);
    forall e
      ensures e in db.executions <==> e in db.queue || e in Succeeded(db) || e in db.dead || e in Retried(db)
    {
      assert e in db.executions ==> Placed(db, e);
    }
    forall e | e in db.queue ensures e !in db.dead && e !in Succeeded(db) && e !in Retried(db) { assert Placed(db, e); }
    forall e | e in db.dead ensures e !in Succeeded(db) { assert Placed(db, e); }
  }

  lemma FourSizes(a: set<Uuid>, b: set<Uuid>, c: set<Uuid>, d: set<Uuid>)
    requires a !! b !! c !! d
    ensures |a + b + c + d| == |a| + |b| + |c| + |d|
  {
    DisjointSum(a, b);
    DisjointSum(a + b, c);
    DisjointSum(a + b + c, d);
  }

  // Every execution ever created is in exactly one of four places, and the four
  // sizes add up to the number of creating steps.
  lemma Conservation(hs: seq<History>, steps: seq<Step>, n: nat)
    requires IsRun(hs, steps) && n <= |steps|
    ensures var db := hs[n].db;
            && db.executions.Keys == db.queue.Keys + Succeeded(db) + db.dead.Keys + Retried(db)
            && db.queue.Keys !! Succeeded(db) !! db.dead.Keys !! Retried(db)
            && |db.queue| + |Succeeded(db)| + |db.dead| + |Retried(db)| == Creations(steps, n)
  {
    RunInv(hs, steps, n);
    ExecutionsCounted(hs, steps, n);
    var db := hs[n].db;
    Partition(db);
    FourSizes(db.queue.Keys, Succeeded(db), db.dead.Keys, Retried(db));
  }

  // A retried execution has exactly one successor; all others have none.
  lemma SuccessorsUnique(hs: seq<History>, steps: seq<Step>, n: nat, e: Uuid)
    requires IsRun(hs, steps) && n <= |steps| && e in hs[n].db.executions
    ensures |Successors(hs[n].db, e)| == if e in Retried(hs[n].db) then 1 else 0
  {
    RunInv(hs, steps, n);
    var db := hs[n].db;
    assert Placed(db, e);
    if HasSuccessor(db, e) {
      var x :| x in db.executions && db.executions[x].retriedFrom == Some(e);
      assert Successors(db, e) == {x};
    } else {
      assert Successors(db, e) == {};
    }
  }

  // With whole handlers a dead letter records exactly the attempts of its
  // execution, which has failed and left the queue.
  lemma DeadLettersExact(hs: seq<History>, steps: seq<Step>, n: nat, e: Uuid)
    requires IsRun(hs, steps) && n <= |steps| && e in hs[n].db.dead
    ensures e in hs[n].db.executions && e !in hs[n].db.queue
    ensures hs[n].db.executions[e].status.Failed?
    ensures hs[n].db.dead[e].attempts == hs[n].db.executions[e].attempt > MAX_RETRIES
  {
    RunInv(hs, steps, n);
    RowsKnown(hs[n].db);
    assert Placed(hs[n].db, e) && DeadRowSound(hs[n].db, e);
  }

  // Following retried_from `k` times.
  function Ancestor(db: Db, e: Uuid, k: nat): Option<Uuid> {
    if k == 0 then Some(e)
    else
      match Ancestor(db, e, k - 1)
      case None => None
      case Some(p) => if p in db.executions then db.executions[p].retriedFrom else None
  }

  lemma {:induction false} AncestorsOlder(h: History, e: Uuid, k: nat)
    requires Inv(h) && e in h.db.executions && Ancestor(h.db, e, k).Some?
    ensures var a := Ancestor(h.db, e, k).value;
            && a in h.db.executions && a in h.birth && e in h.birth && h.birth[a] + k <= h.birth[e]
            && SameJob(h.db.executions[a], h.db.executions[e])
            && a in h.payloads && e in h.payloads && h.payloads[a] == h.payloads[e]
  {
    if k > 0 {
      AncestorsOlder(h, e, k - 1);
      assert Descends(h, Ancestor(h.db, e, k - 1).value);
    }
  }

  // Chains of retries never loop, end within the number of executions, and run
  // the job, tenant, priority and payload they started with.
  lemma RetryChains(hs: seq<History>, steps: seq<Step>, n: nat, e: Uuid, k: nat)
    requires IsRun(hs, steps) && n <= |steps| && e in hs[n].db.executions
    ensures k >= 1 ==> Ancestor(hs[n].db, e, k) != Some(e)
    ensures k >= |hs[n].db.executions| ==> Ancestor(hs[n].db, e, k).None?
    ensures Ancestor(hs[n].db, e, k).Some? ==>
              var db, payloads, a := hs[n].db, hs[n].payloads, Ancestor(hs[n].db, e, k).value;
              && a in db.executions && a in payloads && SameJob(db.executions[a], db.executions[e])
              && (e in db.queue ==> db.queue[e].payload == payloads[a])
              && (e in db.dead ==> db.dead[e].payload == payloads[a])
  {
    RunInv(hs, steps, n);
    if Ancestor(hs[n].db, e, k).Some? {
      AncestorsOlder(hs[n], e, k);
    }
  }
}
