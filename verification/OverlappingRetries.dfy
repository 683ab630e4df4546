/**
 Retrying one dead letter twice: how it can happen, and exactly when it does.
 */
module OverlappingRetries {
  import opened Tables
  import opened Consistency
  import opened Statements
  import Lineage
  import Resend
  import Scenarios

  // The SELECT of a retry takes no lock: while a letter is there, any number of
  // retries can read it.
  lemma BothRead(s: Sys, e: Uuid, r1: nat, r2: nat, s1: Sys, s2: Sys)
    requires Inv(s) && e in s.db.dead && r1 != r2 && r1 !in s.retries && r2 !in s.retries
    requires Enabled(s, ReadDead(r1, e)) ==> s1 == Next(s, ReadDead(r1, e))
    requires Enabled(s1, ReadDead(r2, e)) ==> s2 == Next(s1, ReadDead(r2, e))
    ensures Enabled(s, ReadDead(r1, e)) && Enabled(s1, ReadDead(r2, e)) && Inv(s2)
    ensures r1 in s2.retries && r2 in s2.retries && s2.retries[r1].e == s2.retries[r2].e == e
  {
    RowsKnown(s.db);
    StepKeeps(s, ReadDead(r1, e));
    StepKeeps(s1, ReadDead(r2, e));
  }

  lemma Creatable(s: Sys, r: nat, x: Uuid, now: Time)
    requires Inv(s) && r in s.retries && x !in s.db.executions && now <= s.clock
    ensures Enabled(s, CommitRetry(r, x, now, now))
    ensures var d := Next(s, CommitRetry(r, x, now, now)).db;
            && x in d.queue && d.executions == s.db.executions[x := d.executions[x]]
            && d.executions[x].retriedFrom == Some(s.retries[r].e)
            && (forall f | f in s.db.queue :: f in d.queue)
  {
    RowsKnown(s.db);
  }

  // The count of its DELETE is not checked: both commit, under different ids.
  lemma BothSucceed(s: Sys, r1: nat, r2: nat, x: Uuid, y: Uuid, now: Time, s1: Sys, s2: Sys)
    requires Inv(s) && r1 in s.retries && r2 in s.retries && r1 != r2 && s.retries[r1].e == s.retries[r2].e
    requires x !in s.db.executions && y !in s.db.executions && x != y && now <= s.clock
    requires Enabled(s, CommitRetry(r1, x, now, now)) ==> s1 == Next(s, CommitRetry(r1, x, now, now))
    requires Enabled(s1, CommitRetry(r2, y, now, now)) ==> s2 == Next(s1, CommitRetry(r2, y, now, now))
    ensures Enabled(s, CommitRetry(r1, x, now, now)) && Enabled(s1, CommitRetry(r2, y, now, now))
    ensures x in s2.db.queue && y in s2.db.queue && !Lineage.OneSuccessor(s2.db)
  {
    Creatable(s, r1, x, now);
    StepKeeps(s, CommitRetry(r1, x, now, now));
    Creatable(s1, r2, y, now);
    assert s2.db.executions[x].retriedFrom == s2.db.executions[y].retriedFrom == Some(s.retries[r1].e);
  }

  // ---------------------------------------------------------------------
  // Exactly when a letter is retried twice
  // ---------------------------------------------------------------------

  ghost predicate PredecessorsKnown(db: Db) {
    forall y | y in db.executions && db.executions[y].retriedFrom.Some? ::
      db.executions[y].retriedFrom.value in db.executions
  }

  ghost predicate Read(db: Db, e: Uuid) {
    e in db.executions && e !in db.queue && (e in db.dead || Lineage.HasSuccessor(db, e))
  }

  // An execution with a successor is off the queue for good and has no dead letter; a
  // retry that has read its letter finds it again, or finds that somebody used it up.
  ghost predicate LettersMatch(s: Sys) {
    && PredecessorsKnown(s.db)
    && (forall e | e in s.db.queue || e in s.db.dead :: !Lineage.HasSuccessor(s.db, e))
    && (forall r | r in s.retries :: Read(s.db, s.retries[r].e))
  }

  lemma StatementLetters(db: Db, clock: Time, call: Call, e: Uuid)
    ensures var d := RunStatement(db, clock, call).0;
            (e in d.dead && e !in db.dead ==> e in db.queue) && (e in db.dead ==> e in d.dead)
  {
  }

  // Letters appear for queued executions only, and only a committing retry uses one up.
  lemma LetterMoves(s: Sys, l: Label, e: Uuid)
    requires Inv(s) && Enabled(s, l)
    ensures var d := Next(s, l).db;
            && (e in d.dead && e !in s.db.dead ==> e in s.db.queue)
            && (e in s.db.dead && e !in d.dead ==> l.CommitRetry? && s.retries[l.r].e == e)
            && (l.CommitRetry? ==> s.retries[l.r].e !in d.dead)
  {
    if l.Exec? {
      StatementLetters(s.db, s.clock, s.calls[l.c], e);
    } else if l.Commit? {
      assert Next(s, l).db.dead == s.db.dead;
    }
  }

  datatype Successor = Nobody | Successor(x: Uuid, e: Uuid)

  // The history rows of `db` keep their predecessors, and of the new ones in `d` only the
  // added successor, if there is one, has a predecessor.
  ghost predicate Grows(db: Db, d: Db, added: Successor) {
    && (forall y | y in db.executions ::
          y in d.executions && d.executions[y].retriedFrom == db.executions[y].retriedFrom)
    && (forall y | y in d.executions && y !in db.executions ::
          d.executions[y].retriedFrom == if added.Successor? && added.x == y then Some(added.e) else None)
    && (added.Successor? ==> added.x in d.executions && added.x !in db.executions)
  }

  function Added(s: Sys, l: Label): Successor {
    if l.CommitRetry? && l.r in s.retries then Successor(l.newId, s.retries[l.r].e) else Nobody
  }

  lemma NewRows(s: Sys, l: Label, y: Uuid)
    requires Enabled(s, l) && y in Next(s, l).db.executions && y !in s.db.executions
    ensures var added := Added(s, l);
            Next(s, l).db.executions[y].retriedFrom == if added.Successor? && added.x == y then Some(added.e) else None
  {
  }

  lemma RetryAdds(s: Sys, l: Label)
    requires Enabled(s, l) && l.CommitRetry?
    ensures l.newId in Next(s, l).db.executions && l.newId !in s.db.executions
  {
  }

  // Only a committing retry gives an execution a successor.
  lemma StepGrows(s: Sys, l: Label, s': Sys)
    requires Inv(s) && Enabled(s, l) && s' == Next(s, l)
    ensures Grows(s.db, s'.db, Added(s, l))
  {
    var added := Added(s, l);
    StepKeeps(s, l);
    forall y | y in s.db.executions
      ensures y in s'.db.executions && s'.db.executions[y].retriedFrom == s.db.executions[y].retriedFrom
    {
      assert ExecutionEvolves(s.db.executions[y], s'.db.executions[y]);
    }
    forall y | y in s'.db.executions && y !in s.db.executions
      ensures s'.db.executions[y].retriedFrom == if added.Successor? && added.x == y then Some(added.e) else None
    {
      NewRows(s, l, y);
    }
    if l.CommitRetry? { RetryAdds(s, l); }
  }

  lemma HasSuccessorAfter(db: Db, d: Db, added: Successor, e: Uuid)
    requires Grows(db, d, added)
    ensures Lineage.HasSuccessor(d, e) <==> Lineage.HasSuccessor(db, e) || (added.Successor? && added.e == e)
  {
    if Lineage.HasSuccessor(db, e) {
      var y :| y in db.executions && db.executions[y].retriedFrom == Some(e);
      assert d.executions[y].retriedFrom == Some(e);
    }
    if added.Successor? && added.e == e {
      assert d.executions[added.x].retriedFrom == Some(e);
    }
  }

  // A second successor is one too many, and for good.
  lemma UniqueAfter(db: Db, d: Db, added: Successor)
    requires Grows(db, d, added)
    ensures Lineage.OneSuccessor(d) <==>
              Lineage.OneSuccessor(db) && (added.Successor? ==> !Lineage.HasSuccessor(db, added.e))
  {
    if !Lineage.OneSuccessor(db) {
      var x, y :| x in db.executions && y in db.executions && db.executions[x].retriedFrom.Some?
                  && db.executions[x].retriedFrom == db.executions[y].retriedFrom && x != y;
      assert d.executions[x].retriedFrom == d.executions[y].retriedFrom;
    } else if added.Successor? && Lineage.HasSuccessor(db, added.e) {
      var y :| y in db.executions && db.executions[y].retriedFrom == Some(added.e);
      assert d.executions[y].retriedFrom == d.executions[added.x].retriedFrom && y != added.x;
    }
  }

  // The retry reads a letter whose execution has left the queue.
  ghost predicate ReadsOffQueue(s: Sys, l: Label) {
    l.ReadDead? ==> l.e !in s.db.queue
  }

  lemma QueuedOrDead(s: Sys, l: Label, s': Sys, e: Uuid)
    requires Inv(s) && Enabled(s, l) && s' == Next(s, l) && LettersMatch(s)
    requires e in s'.db.queue || e in s'.db.dead
    ensures !Lineage.HasSuccessor(s'.db, e)
  {
    StepKeeps(s, l);
    RowsKnown(s'.db);
    LetterMoves(s, l, e);
    StepGrows(s, l, s');
    HasSuccessorAfter(s.db, s'.db, Added(s, l), e);
    assert l.CommitRetry? ==> Read(s.db, s.retries[l.r].e);
  }

  lemma ReadKept(s: Sys, l: Label, s': Sys, e: Uuid)
    requires Inv(s) && Enabled(s, l) && s' == Next(s, l) && Read(s.db, e)
    ensures Read(s'.db, e)
  {
    StepKeeps(s, l);
    StepGrows(s, l, s');
    LetterMoves(s, l, e);
    HasSuccessorAfter(s.db, s'.db, Added(s, l), e);
  }

  lemma PredecessorsKept(db: Db, d: Db, added: Successor)
    requires Grows(db, d, added) && PredecessorsKnown(db) && (added.Successor? ==> added.e in db.executions)
    ensures PredecessorsKnown(d)
  {
  }

  lemma ReadsKept(s: Sys, l: Label, s': Sys, r: nat)
    requires Inv(s) && Enabled(s, l) && s' == Next(s, l) && LettersMatch(s) && ReadsOffQueue(s, l) && r in s'.retries
    ensures Read(s'.db, s'.retries[r].e)
  {
    if r in s.retries {
      ReadKept(s, l, s', s.retries[r].e);
    }
  }

  lemma LettersMatchKept(s: Sys, l: Label, s': Sys)
    requires Inv(s) && Enabled(s, l) && s' == Next(s, l) && LettersMatch(s) && ReadsOffQueue(s, l)
    ensures LettersMatch(s')
  {
    StepGrows(s, l, s');
    assert Added(s, l).Successor? ==> Read(s.db, s.retries[l.r].e);
    PredecessorsKept(s.db, s'.db, Added(s, l));
    forall e | e in s'.db.queue || e in s'.db.dead ensures !Lineage.HasSuccessor(s'.db, e) {
      QueuedOrDead(s, l, s', e);
    }
    forall r | r in s'.retries ensures Read(s'.db, s'.retries[r].e) { ReadsKept(s, l, s', r); }
  }

  lemma {:induction false} LettersMatchAlways(states: seq<Sys>, labels: seq<Label>, n: nat)
    requires IsRun(states, labels) && n <= |labels|
    requires forall i | 0 <= i < |labels| :: ReadsOffQueue(states[i], labels[i])
    ensures LettersMatch(states[n])
  {
    if n > 0 {
      LettersMatchAlways(states, labels, n - 1);
      RunInv(states, labels, n - 1);
      LettersMatchKept(states[n - 1], labels[n - 1], states[n]);
    }
  }

  // The letter that a committing retry has read is still there when it deletes it. The
  // code does not check.
  ghost predicate FindsItsLetter(s: Sys, l: Label) {
    l.CommitRetry? && l.r in s.retries ==> s.retries[l.r].e in s.db.dead
  }

  // One step keeps successors unique exactly when it is not a retry whose letter is gone.
  lemma UniqueStep(s: Sys, l: Label, s': Sys)
    requires Inv(s) && Enabled(s, l) && s' == Next(s, l) && LettersMatch(s)
    ensures Lineage.OneSuccessor(s'.db) <==> Lineage.OneSuccessor(s.db) && FindsItsLetter(s, l)
  {
    StepGrows(s, l, s');
    UniqueAfter(s.db, s'.db, Added(s, l));
    assert l.CommitRetry? ==> Read(s.db, s.retries[l.r].e);
  }

  // On runs in which every retry reads a letter off the queue, no execution has two
  // successors exactly when every committed retry still found its letter.
  lemma {:induction false} UniqueExactlyWhenLettersFound(states: seq<Sys>, labels: seq<Label>, n: nat)
    requires IsRun(states, labels) && n <= |labels|
    requires forall i | 0 <= i < |labels| :: ReadsOffQueue(states[i], labels[i])
    ensures Lineage.OneSuccessor(states[n].db) <==> forall i | 0 <= i < n :: FindsItsLetter(states[i], labels[i])
  {
    if n > 0 {
      var s, l, s' := states[n - 1], labels[n - 1], states[n];
      UniqueExactlyWhenLettersFound(states, labels, n - 1);
      assert Lineage.OneSuccessor(s'.db) <==> Lineage.OneSuccessor(s.db) && FindsItsLetter(s, l) by {
        RunInv(states, labels, n - 1);
        LettersMatchAlways(states, labels, n - 1);
        UniqueStep(s, l, s');
      }
    }
  }

  // A letter whose execution is still queued is a half-dead one.
  lemma QueuedLetterIsHalfDead(s: Sys, e: Uuid)
    requires Inv(s) && e in s.db.dead && e in s.db.queue
    ensures Resend.HalfDead(s.db, e)
  {
    assert RowAgrees(s.db, e) && DeadRowSound(s.db, e);
  }

  // From there no overlap is needed: retried, failed and retried again, one call after
  // the other, the execution has two successors.
  lemma HalfDeadIsRetriedTwice(db: Db, e: Uuid, x: Uuid, y: Uuid, code: Option<int>, err: string, now: Time)
    requires Consistent(db) && Resend.HalfDead(db, e)
    requires x !in db.executions && y !in db.executions && x != y
    ensures RetryFromDead(db, e, x, now, now).Some?
    ensures var d := Fail(RetryFromDead(db, e, x, now, now).value, e, code, err, now);
            && RetryFromDead(d, e, y, now, now).Some?
            && var d' := RetryFromDead(d, e, y, now, now).value;
               && x in d'.executions && y in d'.executions
               && d'.executions[x].retriedFrom == d'.executions[y].retriedFrom == Some(e)
               && !Lineage.OneSuccessor(d')
  {
    RetryKeeps(db, e, x, now, now);
    var d1 := RetryFromDead(db, e, x, now, now).value;
    var d2 := Fail(d1, e, code, err, now);
    FailKeeps(d1, e, code, err, now);
    RowsKnown(db);
    assert e != x && e in d1.queue && d1.queue[e] == db.queue[e] && e !in d1.dead;
    assert e in d2.dead && d2.executions.Keys == d1.executions.Keys;
    RetryKeeps(d2, e, y, now, now);
    assert d2.executions[x] == d1.executions[x];
  }

  // ---------------------------------------------------------------------
  // Both happen, from empty tables
  // ---------------------------------------------------------------------

  lemma CommitsBoth(s: Sys, r1: nat, r2: nat, x: Uuid, y: Uuid) returns (s': Sys)
    requires Reachable(s, false) && r1 in s.retries && r2 in s.retries && r1 != r2
    requires s.retries[r1].e == s.retries[r2].e && x !in s.db.executions && y !in s.db.executions && x != y
    ensures Reachable(s', false) && !Lineage.OneSuccessor(s'.db)
  {
    ReachInv(s, false);
    var first, second := CommitRetry(r1, x, s.clock, s.clock), CommitRetry(r2, y, s.clock, s.clock);
    Creatable(s, r1, x, s.clock);
    ReachNext(s, first, false);
    var s1 := Next(s, first);
    ReachInv(s1, false);
    Creatable(s1, r2, y, s.clock);
    ReachNext(s1, second, false);
    s' := Next(s1, second);
    BothSucceed(s, r1, r2, x, y, s.clock, s1, s');
  }

  lemma OverlapIsReachable(e: Uuid)
    ensures exists s :: Reachable(s, false) && !Lineage.OneSuccessor(s.db)
  {
    var s := Scenarios.FailedWithLetter(e);
    ReachInv(s, true);
    var s2 := Scenarios.Reads(s, 0, e, false);
    s2 := Scenarios.Reads(s2, 1, e, false);
    var s4 := CommitsBoth(s2, 0, 1, e + 1, e + 2);
  }

  lemma AfterFirst(db: Db, e: Uuid, x: Uuid, code: Option<int>, err: string, now: Time)
    requires Consistent(db) && Resend.HalfDead(db, e) && x !in db.executions
    ensures RetryFromDead(db, e, x, now, now).Some?
    ensures var d := RetryFromDead(db, e, x, now, now).value;
            && Scenarios.Exhausted(d, e)
            && e in Fail(d, e, code, err, now).dead
            && Fail(d, e, code, err, now).executions.Keys == db.executions.Keys + {x}
  {
    RetryKeeps(db, e, x, now, now);
    RowsKnown(db);
  }

  lemma RetriedTwice(s: Sys, e: Uuid, x: Uuid, y: Uuid) returns (s': Sys)
    requires Reachable(s, true) && Scenarios.Quiet(s) && Resend.HalfDead(s.db, e) && e in s.db.executions
    requires x !in s.db.executions && y !in s.db.executions && x != y
    ensures Reachable(s', true) && !Lineage.OneSuccessor(s'.db)
  {
    var req := ResultRequest(Some(1), "", None);
    assert Consistent(s.db) by { ReachInv(s, true); }
    HalfDeadIsRetriedTwice(s.db, e, x, y, req.exitCode, req.error, s.clock);
    AfterFirst(s.db, e, x, req.exitCode, req.error, s.clock);
    s' := Scenarios.RetriesOnce(s, e, x);
    s' := Scenarios.FailsForGood(s', e, req);
    s' := Scenarios.RetriesOnce(s', e, y);
  }

  // One report or retry at a time.
  lemma SerialRetriesReachIt(e: Uuid)
    ensures exists s :: Reachable(s, true) && !Lineage.OneSuccessor(s.db)
  {
    var s := Resend.HalfDeadIsReachable(e);
    var s' := RetriedTwice(s, e, e + 1, e + 2);
  }
}
