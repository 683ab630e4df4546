/**
 Reports are PUT requests that workers send again when in doubt (section 9.2.2 of
 RFC 9110): what repeating one does, and what repeating one does after the first
 try was cut off between two statements.
 */
module Resend {
  import opened Tables
  import S = Statements
  import Scenarios

  // Equal in everything but time stamps.
  ghost predicate SameButTimes(a: Db, b: Db) {
    && a.dead.Keys == b.dead.Keys && a.nextQueueId == b.nextQueueId
    && a.queue.Keys == b.queue.Keys && a.executions.Keys == b.executions.Keys
    && (forall e | e in a.queue :: a.queue[e].(visibleAfter := 0) == b.queue[e].(visibleAfter := 0))
    && (forall e | e in a.dead :: a.dead[e].(failedAt := 0) == b.dead[e].(failedAt := 0))
    && (forall e | e in a.executions :: a.executions[e].(finishedAt := None) == b.executions[e].(finishedAt := None))
  }

  lemma SameTransitive(a: Db, b: Db, c: Db)
    requires SameButTimes(a, b) && SameButTimes(b, c)
    ensures SameButTimes(a, c)
  {
    forall e | e in a.queue ensures a.queue[e].(visibleAfter := 0) == c.queue[e].(visibleAfter := 0) {
      assert b.queue[e].(visibleAfter := 0) == c.queue[e].(visibleAfter := 0);
    }
    forall e | e in a.dead ensures a.dead[e].(failedAt := 0) == c.dead[e].(failedAt := 0) {
      assert b.dead[e].(failedAt := 0) == c.dead[e].(failedAt := 0);
    }
    forall e | e in a.executions ensures a.executions[e].(finishedAt := None) == c.executions[e].(finishedAt := None) {
      assert b.executions[e].(finishedAt := None) == c.executions[e].(finishedAt := None);
    }
  }

  lemma SameAttempt(a: Db, b: Db, e: Uuid)
    requires SameButTimes(a, b) && e in a.queue
    ensures e in b.queue && a.queue[e].attempt == b.queue[e].attempt && a.queue[e].payload == b.queue[e].payload
    ensures a.queue[e].tenantId == b.queue[e].tenantId
  {
    assert a.queue[e].(visibleAfter := 0).attempt == b.queue[e].(visibleAfter := 0).attempt;
    assert a.queue[e].(visibleAfter := 0).payload == b.queue[e].(visibleAfter := 0).payload;
    assert a.queue[e].(visibleAfter := 0).tenantId == b.queue[e].(visibleAfter := 0).tenantId;
  }

  // No statement looks at time stamps.
  lemma DeleteSame(a: Db, b: Db, e: Uuid)
    requires SameButTimes(a, b)
    ensures SameButTimes(DeleteQueueRow(a, e), DeleteQueueRow(b, e))
  {
  }

  lemma VisibleSame(a: Db, b: Db, e: Uuid, t: Time, u: Time)
    requires SameButTimes(a, b)
    ensures SameButTimes(SetVisibleAfter(a, e, t), SetVisibleAfter(b, e, u))
  {
    if e in a.queue {
      var r, s := a.queue[e], b.queue[e];
      assert r.(visibleAfter := 0) == s.(visibleAfter := 0);
      assert r.(visibleAfter := t).(visibleAfter := 0) == r.(visibleAfter := 0);
      assert s.(visibleAfter := u).(visibleAfter := 0) == s.(visibleAfter := 0);
    }
  }

  lemma SameColumns(x: Execution, y: Execution)
    requires x.(finishedAt := None) == y.(finishedAt := None)
    ensures x == y.(finishedAt := x.finishedAt)
  {
    assert x == x.(finishedAt := None).(finishedAt := x.finishedAt);
    assert y.(finishedAt := x.finishedAt) == y.(finishedAt := None).(finishedAt := x.finishedAt);
  }

  lemma SucceededSame(a: Db, b: Db, e: Uuid, code: int, result: Option<Payload>, t: Time, u: Time)
    requires SameButTimes(a, b)
    ensures SameButTimes(MarkSucceeded(a, e, code, result, t), MarkSucceeded(b, e, code, result, u))
  {
    if e in a.executions { SameColumns(a.executions[e], b.executions[e]); }
  }

  lemma FailedSame(a: Db, b: Db, e: Uuid, code: Option<int>, err: string, t: Time, u: Time)
    requires SameButTimes(a, b)
    ensures SameButTimes(MarkFailed(a, e, code, err, t), MarkFailed(b, e, code, err, u))
  {
    if e in a.executions { SameColumns(a.executions[e], b.executions[e]); }
  }

  lemma InsertSame(a: Db, b: Db, e: Uuid, err: string, t: Time, u: Time)
    requires SameButTimes(a, b)
    ensures InsertDeadRow(a, e, err, t).Some? <==> InsertDeadRow(b, e, err, u).Some?
    ensures InsertDeadRow(a, e, err, t).Some? ==>
              SameButTimes(InsertDeadRow(a, e, err, t).value, InsertDeadRow(b, e, err, u).value)
  {
    if e in a.queue { SameAttempt(a, b, e); }
  }

  lemma FailSame(a: Db, b: Db, e: Uuid, code: Option<int>, err: string, t: Time, u: Time)
    requires SameButTimes(a, b)
    ensures SameButTimes(Fail(a, e, code, err, t), Fail(b, e, code, err, u))
  {
    if e in a.queue { SameAttempt(a, b, e); }
    if e in a.queue && a.queue[e].attempt <= MAX_RETRIES {
      VisibleSame(a, b, e, t + RetryDelay(a.queue[e].attempt), u + RetryDelay(b.queue[e].attempt));
    } else {
      InsertSame(a, b, e, err, t, u);
      if InsertDeadRow(a, e, err, t).Some? {
        var c, d := InsertDeadRow(a, e, err, t).value, InsertDeadRow(b, e, err, u).value;
        DeleteSame(c, d, e);
        FailedSame(DeleteQueueRow(c, e), DeleteQueueRow(d, e), e, code, err, t, u);
      }
    }
  }

  lemma ReportSame(a: Db, b: Db, e: Uuid, req: ResultRequest, t: Time, u: Time)
    requires SameButTimes(a, b)
    ensures SameButTimes(Report(a, e, req, t), Report(b, e, req, u))
  {
    if ReportsSuccess(req) {
      DeleteSame(a, b, e);
      SucceededSame(DeleteQueueRow(a, e), DeleteQueueRow(b, e), e, 0, req.result, t, u);
    } else {
      FailSame(a, b, e, req.exitCode, req.error, t, u);
    }
  }

  lemma SameReflexive(db: Db)
    ensures SameButTimes(db, db)
  {
  }

  lemma SameSymmetric(a: Db, b: Db)
    requires SameButTimes(a, b)
    ensures SameButTimes(b, a)
  {
  }

  lemma RetryTwice(db: Db, e: Uuid, code: Option<int>, err: string, t: Time, u: Time)
    requires e in db.queue && db.queue[e].attempt <= MAX_RETRIES
    ensures SameButTimes(Fail(db, e, code, err, t), Fail(Fail(db, e, code, err, t), e, code, err, u))
  {
    var v, w := t + RetryDelay(db.queue[e].attempt), u + RetryDelay(db.queue[e].attempt);
    var d := SetVisibleAfter(db, e, v);
    assert SetVisibleAfter(d, e, w) == SetVisibleAfter(db, e, w);
    SameReflexive(db);
    VisibleSame(db, db, e, v, w);
  }

  // Without a queue row a failure only rewrites the history row.
  lemma FailGone(db: Db, e: Uuid, code: Option<int>, err: string, t: Time)
    requires e !in db.queue
    ensures Fail(db, e, code, err, t) == MarkFailed(db, e, code, err, t)
  {
    assert DeleteQueueRow(db, e) == db;
  }

  lemma MarkTwice(db: Db, e: Uuid, code: Option<int>, err: string, t: Time, u: Time)
    ensures SameButTimes(MarkFailed(db, e, code, err, t), MarkFailed(MarkFailed(db, e, code, err, t), e, code, err, u))
  {
    SameReflexive(db);
    FailedSame(db, db, e, code, err, t, u);
    assert MarkFailed(MarkFailed(db, e, code, err, t), e, code, err, u) == MarkFailed(db, e, code, err, u);
  }

  // A failed delivery leaves a state in which Fail goes the same way again.
  lemma FailTwice(db: Db, e: Uuid, code: Option<int>, err: string, t: Time, u: Time)
    ensures SameButTimes(Fail(db, e, code, err, t), Fail(Fail(db, e, code, err, t), e, code, err, u))
  {
    if e in db.queue && db.queue[e].attempt <= MAX_RETRIES {
      RetryTwice(db, e, code, err, t, u);
    } else {
      match InsertDeadRow(db, e, err, t) {
        case None => SameReflexive(db);
        case Some(d) =>
          var c := DeleteQueueRow(d, e);
          FailGone(MarkFailed(c, e, code, err, t), e, code, err, u);
          MarkTwice(c, e, code, err, t, u);
      }
    }
  }

  lemma CompleteTwice(db: Db, e: Uuid, result: Option<Payload>, t: Time, u: Time)
    ensures SameButTimes(Complete(db, e, 0, result, t), Complete(Complete(db, e, 0, result, t), e, 0, result, u))
  {
    var d := Complete(db, e, 0, result, t);
    assert DeleteQueueRow(d, e) == d;
    SucceededSame(d, d, e, 0, result, t, u);
    assert MarkSucceeded(d, e, 0, result, t) == d;
  }

  lemma ReportTwice(db: Db, e: Uuid, req: ResultRequest, t: Time, u: Time)
    ensures SameButTimes(Report(db, e, req, t), Report(Report(db, e, req, t), e, req, u))
  {
    if ReportsSuccess(req) {
      CompleteTwice(db, e, req.result, t, u);
    } else {
      FailTwice(db, e, req.exitCode, req.error, t, u);
    }
  }

  // What may happen between and after two deliveries of the same report: the
  // report again, or heartbeats for any execution.
  datatype Event = Again(now: Time) | Beat(f: Uuid, visibleAfter: Time)

  function After(db: Db, e: Uuid, req: ResultRequest, events: seq<Event>): Db {
    if events == [] then db
    else
      var d := After(db, e, req, events[..|events| - 1]);
      match events[|events| - 1]
      case Again(now) => Report(d, e, req, now)
      case Beat(f, t) => SetVisibleAfter(d, f, t)
  }

  // However often a report is repeated, with heartbeats in between, the tables
  // stay as the first delivery left them, time stamps aside.
  lemma {:induction false} RepeatingChangesNothing(db: Db, e: Uuid, req: ResultRequest, now: Time, events: seq<Event>)
    ensures SameButTimes(Report(db, e, req, now), After(Report(db, e, req, now), e, req, events))
  {
    var first := Report(db, e, req, now);
    if events != [] {
      var front, last := events[..|events| - 1], events[|events| - 1];
      RepeatingChangesNothing(db, e, req, now, front);
      var d := After(first, e, req, front);
      match last {
        case Again(t) =>
          ReportTwice(db, e, req, now, t);
          ReportSame(first, d, e, req, t, t);
          SameTransitive(first, Report(first, e, req, t), Report(d, e, req, t));
        case Beat(f, t) =>
          SameTransitive(first, d, SetVisibleAfter(d, f, t));
      }
    }
  }

  // ---------------------------------------------------------------------
  // Interrupted reports
  // ---------------------------------------------------------------------

  function Arriving(e: Uuid, req: ResultRequest): S.Call {
    S.Call(e, req, if ReportsSuccess(req) then S.DeleteDone else S.ReadAttempt)
  }

  // The tables, and what is left of the call, after at most `k` of its statements.
  function Partial(db: Db, clock: Time, call: S.Call, k: nat): (Db, Option<S.Call>)
    decreases k
  {
    if k == 0 then (db, Some(call))
    else
      var (d, rest) := S.RunStatement(db, clock, call);
      match rest
      case None => (d, None)
      case Some(c) => Partial(d, clock, c, k - 1)
  }

  lemma FatalTail(db: Db, now: Time, call: S.Call, k: nat)
    requires call.pc == S.InsertDead && k >= 3
    ensures Partial(db, now, call, k)
         == (match InsertDeadRow(db, call.e, call.req.error, now)
             case None => (db, None)
             case Some(d) =>
               (MarkFailed(DeleteQueueRow(d, call.e), call.e, call.req.exitCode, call.req.error, now), None))
  {
    match InsertDeadRow(db, call.e, call.req.error, now) {
      case None =>
      case Some(d) =>
        var c2, c3 := call.(pc := S.DeleteFailed), call.(pc := S.MarkDead);
        assert S.RunStatement(db, now, call) == (d, Some(c2));
        assert S.RunStatement(d, now, c2) == (DeleteQueueRow(d, call.e), Some(c3));
        assert Partial(DeleteQueueRow(d, call.e), now, c3, k - 2) == S.RunStatement(DeleteQueueRow(d, call.e), now, c3);
    }
  }

  // Run to the end, the statements of a report make up the whole handler.
  lemma UninterruptedIsReport(db: Db, e: Uuid, req: ResultRequest, now: Time, k: nat)
    requires k >= 4
    ensures Partial(db, now, Arriving(e, req), k) == (Report(db, e, req, now), None)
  {
    var call := Arriving(e, req);
    if ReportsSuccess(req) {
      var d := DeleteQueueRow(db, e);
      var c1 := call.(pc := S.MarkDone);
      assert S.RunStatement(db, now, call) == (d, Some(c1));
      assert Partial(d, now, c1, k - 1) == S.RunStatement(d, now, c1);
    } else if e in db.queue && db.queue[e].attempt <= MAX_RETRIES {
      var c1 := call.(pc := S.BackOff(db.queue[e].attempt));
      assert S.RunStatement(db, now, call) == (db, Some(c1));
      assert Partial(db, now, c1, k - 1) == S.RunStatement(db, now, c1);
    } else {
      var c1 := call.(pc := S.InsertDead);
      assert S.RunStatement(db, now, call) == (db, Some(c1));
      FatalTail(db, now, c1, k - 1);
    }
  }

  // The one place where dying hurts: a failure of an exhausted execution, cut off after
  // its second statement. The dead letter is written, its queue row not yet deleted.
  predicate DiesHalfDead(db: Db, e: Uuid, req: ResultRequest, k: nat) {
    k == 2 && !ReportsSuccess(req) && e in db.queue && db.queue[e].attempt > MAX_RETRIES && e !in db.dead
  }

  lemma CompleteResumes(db: Db, e: Uuid, req: ResultRequest, now: Time, later: Time, k: nat)
    requires ReportsSuccess(req) && 0 < k < 4
    ensures SameButTimes(Report(Partial(db, now, Arriving(e, req), k).0, e, req, later), Report(db, e, req, now))
  {
    var d := DeleteQueueRow(db, e);
    var c1 := Arriving(e, req).(pc := S.MarkDone);
    assert S.RunStatement(db, now, Arriving(e, req)) == (d, Some(c1));
    assert S.RunStatement(d, now, c1) == (MarkSucceeded(d, e, 0, req.result, now), None);
    if k == 1 {
      assert Partial(db, now, Arriving(e, req), 1) == (d, Some(c1));
      assert DeleteQueueRow(d, e) == d;
      SameReflexive(d);
      SucceededSame(d, d, e, 0, req.result, later, now);
    } else {
      assert Partial(db, now, Arriving(e, req), k).0 == Report(db, e, req, now);
      ReportTwice(db, e, req, now, later);
      SameSymmetric(Report(db, e, req, now), Report(Report(db, e, req, now), e, req, later));
    }
  }

  lemma RetryResumes(db: Db, e: Uuid, req: ResultRequest, now: Time, later: Time, k: nat)
    requires !ReportsSuccess(req) && e in db.queue && db.queue[e].attempt <= MAX_RETRIES && 0 < k < 4
    ensures SameButTimes(Report(Partial(db, now, Arriving(e, req), k).0, e, req, later), Report(db, e, req, now))
  {
    var c1 := Arriving(e, req).(pc := S.BackOff(db.queue[e].attempt));
    assert S.RunStatement(db, now, Arriving(e, req)) == (db, Some(c1));
    if k == 1 {
      assert Partial(db, now, Arriving(e, req), 1) == (db, Some(c1));
      SameReflexive(db);
      ReportSame(db, db, e, req, later, now);
    } else {
      assert Partial(db, now, Arriving(e, req), k).0 == Report(db, e, req, now);
      ReportTwice(db, e, req, now, later);
      SameSymmetric(Report(db, e, req, now), Report(Report(db, e, req, now), e, req, later));
    }
  }

  // The first three statements of a fatal report.
  lemma FatalPrefix(db: Db, e: Uuid, req: ResultRequest, now: Time)
    requires !ReportsSuccess(req) && !(e in db.queue && db.queue[e].attempt <= MAX_RETRIES)
    ensures var call := Arriving(e, req);
            && Partial(db, now, call, 1) == (db, Some(call.(pc := S.InsertDead)))
            && (match InsertDeadRow(db, e, req.error, now)
                case None => Partial(db, now, call, 2) == (db, None) && Partial(db, now, call, 3) == (db, None)
                case Some(d) =>
                  && Partial(db, now, call, 2) == (d, Some(call.(pc := S.DeleteFailed)))
                  && Partial(db, now, call, 3) == (DeleteQueueRow(d, e), Some(call.(pc := S.MarkDead))))
  {
    var call := Arriving(e, req);
    var c1, c2, c3 := call.(pc := S.InsertDead), call.(pc := S.DeleteFailed), call.(pc := S.MarkDead);
    assert S.RunStatement(db, now, call) == (db, Some(c1));
    assert Partial(db, now, call, 2) == Partial(db, now, c1, 1);
    assert Partial(db, now, call, 3) == Partial(db, now, c1, 2);
    match InsertDeadRow(db, e, req.error, now) {
      case None => assert S.RunStatement(db, now, c1) == (db, None);
      case Some(d) =>
        assert S.RunStatement(db, now, c1) == (d, Some(c2));
        assert S.RunStatement(d, now, c2) == (DeleteQueueRow(d, e), Some(c3));
        assert Partial(d, now, c2, 1) == Partial(DeleteQueueRow(d, e), now, c3, 0);
    }
  }

  lemma FatalResumes(db: Db, e: Uuid, req: ResultRequest, now: Time, later: Time, k: nat)
    requires !ReportsSuccess(req) && !(e in db.queue && db.queue[e].attempt <= MAX_RETRIES) && 0 < k < 4
    ensures !DiesHalfDead(db, e, req, k) <==>
              SameButTimes(Report(Partial(db, now, Arriving(e, req), k).0, e, req, later), Report(db, e, req, now))
  {
    FatalPrefix(db, e, req, now);
    SameReflexive(db);
    ReportSame(db, db, e, req, later, now);
    match InsertDeadRow(db, e, req.error, now) {
      case None =>
      case Some(d) =>
        if k == 2 && e in db.queue {
          assert Report(d, e, req, later) == d;
        } else if k == 3 {
          var c := DeleteQueueRow(d, e);
          FailGone(c, e, req.exitCode, req.error, later);
          SameReflexive(c);
          FailedSame(c, c, e, req.exitCode, req.error, later, now);
        }
    }
  }

  // A report cut off after any number of statements and then sent again does what
  // one uninterrupted report does, except in exactly one case: when it is the failure of
  // an exhausted execution without a dead letter and died after its second statement,
  // between writing the letter and deleting the queue row.
  lemma ResumingIsExact(db: Db, e: Uuid, req: ResultRequest, now: Time, later: Time, k: nat)
    ensures !DiesHalfDead(db, e, req, k) <==>
              SameButTimes(Report(Partial(db, now, Arriving(e, req), k).0, e, req, later), Report(db, e, req, now))
  {
    if k == 0 {
      SameReflexive(db);
      ReportSame(db, db, e, req, later, now);
    } else if k >= 4 {
      UninterruptedIsReport(db, e, req, now, k);
      ReportTwice(db, e, req, now, later);
      SameSymmetric(Report(db, e, req, now), Report(Report(db, e, req, now), e, req, later));
    } else if ReportsSuccess(req) {
      CompleteResumes(db, e, req, now, later, k);
    } else if e in db.queue && db.queue[e].attempt <= MAX_RETRIES {
      RetryResumes(db, e, req, now, later, k);
    } else {
      FatalResumes(db, e, req, now, later, k);
    }
  }

  // The exhausted queue row and its dead letter exist side by side.
  ghost predicate HalfDead(db: Db, e: Uuid) {
    e in db.queue && db.queue[e].attempt > MAX_RETRIES && e in db.dead
  }

  // A failure report on an exhausted row is refused, and changes nothing, exactly there.
  lemma RefusedExactlyWhenHalfDead(db: Db, e: Uuid, code: Option<int>, err: string, now: Time)
    requires e in db.queue && db.queue[e].attempt > MAX_RETRIES
    ensures Fail(db, e, code, err, now) == db <==> HalfDead(db, e)
    ensures !HalfDead(db, e) ==> e !in Fail(db, e, code, err, now).queue && e in Fail(db, e, code, err, now).dead
  {
    if !HalfDead(db, e) {
      assert e !in Fail(db, e, code, err, now).queue;
    }
  }

  datatype Later =
    | Claimed(batch: set<Uuid>, now: Time)
    | Extended(f: Uuid, visibleAfter: Time)
    | FailReported(f: Uuid, code: Option<int>, err: string, now: Time)

  function Afterwards(db: Db, events: seq<Later>): Db {
    if events == [] then db
    else
      var d := Afterwards(db, events[..|events| - 1]);
      match events[|events| - 1]
      case Claimed(batch, now) => Claim(d, batch, now)
      case Extended(f, t) => SetVisibleAfter(d, f, t)
      case FailReported(f, code, err, now) => Fail(d, f, code, err, now)
  }

  // No number of claims, heartbeats and failure reports, for it or for others, ever
  // gets an execution out of that state: it is handed out again and again.
  lemma {:induction false} HalfDeadIsForever(db: Db, e: Uuid, events: seq<Later>)
    requires HalfDead(db, e)
    ensures HalfDead(Afterwards(db, events), e)
  {
    if events != [] {
      HalfDeadIsForever(db, e, events[..|events| - 1]);
    }
  }

  // Six workers that claim an execution and die, and a report that dies between the two
  // statements, get any execution there from empty tables, without any overlap.
  lemma HalfDeadIsReachable(e: Uuid) returns (s: S.Sys)
    ensures S.Reachable(s, true) && Scenarios.Quiet(s) && HalfDead(s.db, e) && s.db.executions.Keys == {e}
  {
    var s1 := Scenarios.ClaimedOften(e, MAX_RETRIES + 1);
    var s2 := Scenarios.WritesLetter(s1, e, ResultRequest(Some(1), "", None));
    S.ReachNext(s2, S.Crash(0), true);
    s := S.Next(s2, S.Crash(0));
  }
}
