/**
 Why a queued execution is invisible, and for how long: crashes lose no work.
 */
module Visibility {
  import opened Tables
  import opened Selection
  import opened Consistency
  import opened Statements

  // The step `l` makes the row of `e` visible from `v` on.
  ghost predicate SetsVisibility(s: Sys, l: Label, e: Uuid, v: Time) {
    match l
    case Run(run) => run.e == e && v == FirstVisible(run)
    case CommitRetry(_, newId, now, _) => newId == e && v == now
    case Commit(t) => t in s.txns && e in LockedBy(s, t) && v == s.txns[t].now + VISIBILITY_TIMEOUT
    case Exec(c) =>
      && c in s.calls && s.calls[c].e == e && s.calls[c].pc.BackOff?
      && v == s.clock + RetryDelay(s.calls[c].pc.read)
    case Heartbeat(f, at, extension) => f == e && v == at + extension
    case _ => false
  }

  // The statement by which a report takes the row of `e` off the queue.
  ghost predicate TakesOff(s: Sys, l: Label, e: Uuid) {
    l.Exec? && l.c in s.calls && s.calls[l.c].e == e && (s.calls[l.c].pc.DeleteDone? || s.calls[l.c].pc.DeleteFailed?)
  }

  ghost predicate Claims(s: Sys, l: Label, e: Uuid) {
    l.Commit? && e in LockedBy(s, l.t)
  }

  // What one step may do to one queue row: rows appear unclaimed, leave through a
  // report, change visibility for a named reason, and count claims exactly.
  ghost predicate RowMoves(s: Sys, l: Label, s': Sys, e: Uuid) {
    && (e in s.db.queue && e !in s'.db.queue ==> TakesOff(s, l, e))
    && (e in s'.db.queue ==>
          || SetsVisibility(s, l, e, s'.db.queue[e].visibleAfter)
          || (e in s.db.queue && s'.db.queue[e].visibleAfter == s.db.queue[e].visibleAfter))
    && (e in s.db.queue && e in s'.db.queue ==>
          s'.db.queue[e].attempt == s.db.queue[e].attempt + if Claims(s, l, e) then 1 else 0)
    && (e !in s.db.queue && e in s'.db.queue ==> s'.db.queue[e].attempt == 0 && (l.Run? || l.CommitRetry?))
  }

  lemma CreateMoves(s: Sys, l: Label, s': Sys, e: Uuid)
    requires Consistent(s.db) && Enabled(s, l) && s' == Next(s, l) && (l.Run? || l.CommitRetry?)
    ensures RowMoves(s, l, s', e)
  {
    RowsKnown(s.db);
  }

  lemma ClaimMoves(s: Sys, l: Label, s': Sys, e: Uuid)
    requires Consistent(s.db) && Enabled(s, l) && s' == Next(s, l) && (l.Commit?)
    ensures RowMoves(s, l, s', e)
  {
  }

  lemma StatementMoves(s: Sys, l: Label, s': Sys, e: Uuid)
    requires Consistent(s.db) && Enabled(s, l) && s' == Next(s, l) && (l.Exec?)
    ensures RowMoves(s, l, s', e)
  {
  }

  lemma OtherMoves(s: Sys, l: Label, s': Sys, e: Uuid)
    requires Consistent(s.db) && Enabled(s, l) && s' == Next(s, l)
    requires !l.Run? && !l.CommitRetry? && !l.Commit? && !l.Exec?
    ensures RowMoves(s, l, s', e)
  {
  }

  lemma RowStep(s: Sys, l: Label, s': Sys, e: Uuid)
    requires Consistent(s.db) && Enabled(s, l) && s' == Next(s, l)
    ensures RowMoves(s, l, s', e)
  {
    match l {
      case Run(_) => CreateMoves(s, l, s', e);
      case CommitRetry(_, _, _, _) => CreateMoves(s, l, s', e);
      case Commit(_) => ClaimMoves(s, l, s', e);
      case Exec(_) => StatementMoves(s, l, s', e);
      case _ => OtherMoves(s, l, s', e);
    }
  }

  // Step `i` gave the row of `e` the visibility it still has after `n` steps.
  ghost predicate LastWrite(states: seq<Sys>, labels: seq<Label>, i: int, n: int, e: Uuid)
    requires 0 <= i < n <= |labels| < |states| && e in states[n].db.queue
  {
    && SetsVisibility(states[i], labels[i], e, states[n].db.queue[e].visibleAfter)
    && forall k | i < k <= n ::
         e in states[k].db.queue && states[k].db.queue[e].visibleAfter == states[n].db.queue[e].visibleAfter
  }

  // While an execution is queued, the moment it becomes claimable was fixed by
  // its schedule, its last claim, a heartbeat or a failed attempt, and nothing
  // that happened since has moved it.
  lemma {:induction false} QueuedWorkComesBack(states: seq<Sys>, labels: seq<Label>, n: nat, e: Uuid)
    requires IsRun(states, labels) && n <= |labels| && e in states[n].db.queue
    ensures exists i :: 0 <= i < n && LastWrite(states, labels, i, n, e)
  {
    if n > 0 {
      RunInv(states, labels, n - 1);
      RowStep(states[n - 1], labels[n - 1], states[n], e);
      if SetsVisibility(states[n - 1], labels[n - 1], e, states[n].db.queue[e].visibleAfter) {
        assert LastWrite(states, labels, n - 1, n, e);
      } else {
        QueuedWorkComesBack(states, labels, n - 1, e);
        var i :| 0 <= i < n - 1 && LastWrite(states, labels, i, n - 1, e);
        assert LastWrite(states, labels, i, n, e);
      }
    }
  }

  // ---------------------------------------------------------------------
  // How soon it comes back
  // ---------------------------------------------------------------------

  const LONGEST_DELAY: Time := 320 * SECOND

  lemma DelayBounded(n: nat)
    requires n <= MAX_RETRIES
    ensures RetryDelay(n) <= LONGEST_DELAY
  {
    assert Pow2(0) == 1 && Pow2(1) == 2 && Pow2(2) == 4 && Pow2(3) == 8 && Pow2(4) == 16 && Pow2(5) == 32;
  }

  // The latest moment at which the row of `e` becomes claimable if nothing else happens.
  function DueBy(s: Sys, e: Uuid, longest: Time): Time
    requires e in s.db.executions
  {
    var x := s.db.executions[e];
    if x.scheduledAt.Some? && x.scheduledAt.value > s.clock + longest then x.scheduledAt.value else s.clock + longest
  }

  // A write sets the visibility to the schedule, or at most `longest` ahead.
  lemma WriteDue(s: Sys, l: Label, s': Sys, e: Uuid, longest: Time)
    requires Inv(s) && Enabled(s, l) && s' == Next(s, l) && e in s'.db.queue && e in s'.db.executions
    requires longest >= LONGEST_DELAY && (l.Heartbeat? ==> l.extension <= longest)
    requires SetsVisibility(s, l, e, s'.db.queue[e].visibleAfter)
    ensures s'.db.queue[e].visibleAfter <= DueBy(s', e, longest)
  {
    match l {
      case Commit(t) => assert TxnOk(s, t);
      case Exec(c) =>
        assert CallOk(s.db, s.calls[c]);
        DelayBounded(s.calls[c].pc.read);
      case _ =>
    }
  }

  lemma KeptDue(s: Sys, l: Label, s': Sys, e: Uuid, longest: Time)
    requires Enabled(s, l) && s' == Next(s, l) && Evolves(s.db, s'.db)
    requires e in s.db.queue && e in s'.db.queue && e in s.db.executions && e in s'.db.executions
    requires s'.db.queue[e].visibleAfter == s.db.queue[e].visibleAfter <= DueBy(s, e, longest)
    ensures s'.db.queue[e].visibleAfter <= DueBy(s', e, longest)
  {
    assert ExecutionEvolves(s.db.executions[e], s'.db.executions[e]);
  }

  // Crashes lose no work: whatever dies, a queued execution can be claimed again as soon
  // as it is due and 320 s (or the longest heartbeat extension) have passed since the last
  // step of any kind.
  lemma {:induction false} ComesBackInTime(states: seq<Sys>, labels: seq<Label>, n: nat, e: Uuid, longest: Time)
    requires IsRun(states, labels) && n <= |labels| && e in states[n].db.queue
    requires longest >= LONGEST_DELAY && forall l | l in labels && l.Heartbeat? :: l.extension <= longest
    ensures e in states[n].db.executions && states[n].db.queue[e].visibleAfter <= DueBy(states[n], e, longest)
    ensures forall tenants, now |
              now >= DueBy(states[n], e, longest) && Admits(tenants, states[n].db.executions[e].tenantId) ::
              e in Eligible(states[n].db.queue, {}, tenants, now)
  {
    RunInv(states, labels, n);
    assert RowAgrees(states[n].db, e);
    if n > 0 {
      var s, l, s' := states[n - 1], labels[n - 1], states[n];
      RunInv(states, labels, n - 1);
      RowStep(s, l, s', e);
      StepKeeps(s, l);
      if SetsVisibility(s, l, e, s'.db.queue[e].visibleAfter) {
        WriteDue(s, l, s', e, longest);
      } else {
        ComesBackInTime(states, labels, n - 1, e, longest);
        KeptDue(s, l, s', e, longest);
      }
    }
  }

  // A queue row disappears through a report statement only.
  lemma {:induction false} OnlyReportsRemoveWork(states: seq<Sys>, labels: seq<Label>, m: nat, n: nat, e: Uuid)
    requires IsRun(states, labels) && m <= n <= |labels|
    requires e in states[m].db.queue && e !in states[n].db.queue
    ensures exists i :: m <= i < n && TakesOff(states[i], labels[i], e)
    decreases n - m
  {
    RunInv(states, labels, n - 1);
    RowStep(states[n - 1], labels[n - 1], states[n], e);
    if e !in states[n - 1].db.queue {
      OnlyReportsRemoveWork(states, labels, m, n - 1, e);
    }
  }

  // ---------------------------------------------------------------------
  // No execution starts before its scheduled time
  // ---------------------------------------------------------------------

  // Heartbeats and failure reports concern executions that have been claimed.
  ghost predicate ReportsClaimedOnly(s: Sys, l: Label) {
    && (l.Heartbeat? && l.e in s.db.queue ==> s.db.queue[l.e].attempt >= 1)
    && (l.Exec? && l.c in s.calls && s.calls[l.c].pc.BackOff? && s.calls[l.c].e in s.db.queue ==>
          s.db.queue[s.calls[l.c].e].attempt >= 1)
  }

  ghost predicate OnSchedule(db: Db, e: Uuid)
    requires e in db.executions
  {
    var x := db.executions[e];
    && (x.attempt == 0 <==> x.startedAt.None?)
    && (x.scheduledAt.Some? && x.startedAt.Some? ==> x.scheduledAt.value <= x.startedAt.value)
    && (x.scheduledAt.Some? && e in db.queue && db.queue[e].attempt == 0 ==>
          db.queue[e].visibleAfter == x.scheduledAt.value)
  }

  lemma ScheduleClaim(s: Sys, l: Label, s': Sys, e: Uuid)
    requires Inv(s) && Enabled(s, l) && s' == Next(s, l) && l.Commit?
    requires e in s.db.executions && OnSchedule(s.db, e)
    ensures OnSchedule(s'.db, e)
  {
    assert e in s.db.queue ==> RowAgrees(s.db, e);
    assert e in s.locks ==> LockOk(s, e);
  }

  lemma ScheduleStatement(s: Sys, l: Label, s': Sys, e: Uuid)
    requires Enabled(s, l) && s' == Next(s, l) && l.Exec? && ReportsClaimedOnly(s, l)
    requires e in s.db.executions && e in s'.db.executions && OnSchedule(s.db, e)
    ensures OnSchedule(s'.db, e)
  {
    var call := s.calls[l.c];
    assert s'.db == RunStatement(s.db, s.clock, call).0;
    if call.e != e {
      StatementOthers(s.db, s.clock, call, e);
    } else {
      StatementAttempts(s.db, s.clock, call, e);
    }
  }

  lemma ScheduleOther(s: Sys, l: Label, s': Sys, e: Uuid)
    requires Consistent(s.db) && Enabled(s, l) && s' == Next(s, l) && !l.Commit? && !l.Exec? && ReportsClaimedOnly(s, l)
    requires e in s'.db.executions && (e in s.db.executions ==> OnSchedule(s.db, e))
    ensures OnSchedule(s'.db, e)
  {
    RowsKnown(s.db);
  }

  lemma ScheduleStep(s: Sys, l: Label, s': Sys, e: Uuid)
    requires Inv(s) && Enabled(s, l) && s' == Next(s, l) && ReportsClaimedOnly(s, l)
    requires e in s'.db.executions && (e in s.db.executions ==> OnSchedule(s.db, e))
    ensures OnSchedule(s'.db, e)
  {
    if l.Commit? {
      ScheduleClaim(s, l, s', e);
    } else if l.Exec? {
      ScheduleStatement(s, l, s', e);
    } else {
      ScheduleOther(s, l, s', e);
    }
  }

  lemma ScheduleAt(states: seq<Sys>, labels: seq<Label>, n: nat, e: Uuid)
    requires IsRun(states, labels) && n < |labels| && ReportsClaimedOnly(states[n], labels[n])
    requires e in states[n + 1].db.executions && (e in states[n].db.executions ==> OnSchedule(states[n].db, e))
    ensures OnSchedule(states[n + 1].db, e)
  {
    RunInv(states, labels, n);
    ScheduleStep(states[n], labels[n], states[n + 1], e);
  }

  // Whatever happens in between, the first claim of a scheduled execution does
  // not come before its scheduled time.
  lemma {:induction false} NeverStartsEarly(states: seq<Sys>, labels: seq<Label>, n: nat, e: Uuid)
    requires IsRun(states, labels) && n <= |labels|
    requires forall i | 0 <= i < |labels| :: ReportsClaimedOnly(states[i], labels[i])
    requires e in states[n].db.executions
    ensures OnSchedule(states[n].db, e)
  {
    if n > 0 {
      if e in states[n - 1].db.executions {
        NeverStartsEarly(states, labels, n - 1, e);
      }
      ScheduleAt(states, labels, n - 1, e);
    }
  }

  // ---------------------------------------------------------------------
  // When an execution was started
  // ---------------------------------------------------------------------

  lemma StatementStarts(db: Db, clock: Time, call: Call, e: Uuid)
    requires e in db.executions
    ensures var d := RunStatement(db, clock, call).0;
            e in d.executions && d.executions[e].startedAt == db.executions[e].startedAt
  {
  }

  lemma ClaimStarts(db: Db, batch: set<Uuid>, now: Time, e: Uuid)
    requires e in db.executions && (e in batch ==> e in db.queue)
    ensures var d := Claim(db, batch, now);
            && e in d.executions
            && (e in batch ==>
                  && d.executions[e].attempt == db.queue[e].attempt + 1
                  && d.executions[e].startedAt == if db.executions[e].startedAt.None? then Some(now)
                                                  else db.executions[e].startedAt)
            && (e !in batch ==> d.executions[e] == db.executions[e])
  {
  }

  lemma OthersStart(s: Sys, l: Label, s': Sys, e: Uuid)
    requires Enabled(s, l) && s' == Next(s, l) && e in s.db.executions && !l.Exec? && !l.Commit?
    ensures e in s'.db.executions && s'.db.executions[e].attempt == s.db.executions[e].attempt
    ensures s'.db.executions[e].startedAt == s.db.executions[e].startedAt
  {
  }

  lemma StartStep(s: Sys, l: Label, s': Sys, e: Uuid)
    requires Inv(s) && Enabled(s, l) && s' == Next(s, l) && e in s.db.executions
    ensures e in s'.db.executions
    ensures var x, y := s.db.executions[e], s'.db.executions[e];
            if Claims(s, l, e) then
              && e in s.db.queue && s.db.queue[e].attempt == x.attempt && y.attempt == x.attempt + 1
              && y.startedAt == if x.startedAt.None? then Some(s.txns[l.t].now) else x.startedAt
            else y.attempt == x.attempt && y.startedAt == x.startedAt
  {
    if l.Exec? {
      StatementAttempts(s.db, s.clock, s.calls[l.c], e);
      StatementStarts(s.db, s.clock, s.calls[l.c], e);
    } else if l.Commit? {
      if Claims(s, l, e) {
        assert LockOk(s, e) && RowAgrees(s.db, e);
      }
      ClaimStarts(s.db, LockedBy(s, l.t), s.txns[l.t].now, e);
    } else {
      OthersStart(s, l, s', e);
    }
  }

  // Step `i` committed the first claim of `e`, at time `at`.
  ghost predicate FirstClaim(states: seq<Sys>, labels: seq<Label>, i: int, e: Uuid, at: Time)
    requires 0 <= i < |labels| < |states|
  {
    && Claims(states[i], labels[i], e) && labels[i].t in states[i].txns && states[i].txns[labels[i].t].now == at
    && e in states[i].db.queue && states[i].db.queue[e].attempt == 0
  }

  lemma FreshStart(s: Sys, l: Label, s': Sys, e: Uuid)
    requires Enabled(s, l) && s' == Next(s, l) && e !in s.db.executions && e in s'.db.executions
    ensures s'.db.executions[e].attempt == 0 && s'.db.executions[e].startedAt == None
  {
  }

  // started_at is the NOW() of the transaction that first claimed the execution, however
  // often it is claimed again; without a claim there is none.
  lemma {:induction false} StartedAtFirstClaim(states: seq<Sys>, labels: seq<Label>, n: nat, e: Uuid)
    requires IsRun(states, labels) && n <= |labels| && e in states[n].db.executions
    ensures states[n].db.executions[e].attempt == 0 <==> states[n].db.executions[e].startedAt == None
    ensures states[n].db.executions[e].startedAt.Some? ==>
              exists i :: 0 <= i < n && FirstClaim(states, labels, i, e, states[n].db.executions[e].startedAt.value)
  {
    if n > 0 {
      var s, l, s' := states[n - 1], labels[n - 1], states[n];
      if e in s.db.executions {
        StartedAtFirstClaim(states, labels, n - 1, e);
        RunInv(states, labels, n - 1);
        StartStep(s, l, s', e);
        if s'.db.executions[e].startedAt.Some? && s.db.executions[e].startedAt.None? {
          assert FirstClaim(states, labels, n - 1, e, s'.db.executions[e].startedAt.value);
        }
      } else {
        FreshStart(s, l, s', e);
      }
    }
  }
}
