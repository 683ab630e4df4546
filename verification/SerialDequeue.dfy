/**
 Concurrent dequeue transactions behave as if those that commit had run one after the
 other, in the order in which they locked their rows. A transaction that rolls back
 leaves nothing behind, but hides the rows it has locked from the others meanwhile.
 */
module SerialDequeue {
  import opened Tables
  import opened Selection
  import opened Statements

  // A dequeue as its caller sees it: what it asked, when, and what it got; and the rows
  // that were hidden from it.
  datatype Served = Served(now: Time, tenants: seq<Uuid>, limit: nat, batch: seq<Uuid>, hidden: set<Uuid>)

  // The tables after running the dequeues one by one.
  ghost function SerialDb(db: Db, served: seq<Served>): Db {
    if served == [] then db
    else
      var last := served[|served| - 1];
      Claim(SerialDb(db, served[..|served| - 1]), Elements(last.batch), last.now)
  }

  // `x` is what a dequeue on the tables `db` returns when nobody else is active, the hidden
  // rows aside.
  ghost predicate Answers(db: Db, x: Served) {
    IsBatch(db.queue, Eligible(db.queue, x.hidden, x.tenants, x.now), x.limit, x.batch)
  }

  ghost predicate SerialRun(db: Db, served: seq<Served>) {
    forall i | 0 <= i < |served| :: Answers(SerialDb(db, served[..i]), served[i])
  }

  // ---------------------------------------------------------------------
  // Concurrent runs
  // ---------------------------------------------------------------------

  predicate DequeueLabel(l: Label) {
    l.Tick? || l.Begin? || l.Select? || l.Commit? || l.Rollback?
  }

  // Any interleaving of dequeue transactions, from any consistent state with none open.
  ghost predicate DequeueRun(states: seq<Sys>, labels: seq<Label>) {
    && |states| == |labels| + 1
    && Inv(states[0]) && states[0].txns == map[] && states[0].locks == map[]
    && forall i | 0 <= i < |labels| ::
         DequeueLabel(labels[i]) && Enabled(states[i], labels[i]) && states[i + 1] == Next(states[i], labels[i])
  }

  // No transaction selects so late that a lease still uncommitted would have lapsed for it.
  ghost predicate SelectsInTime(s: Sys, l: Label) {
    l.Select? && l.t in s.txns ==>
      forall e | e in s.locks && s.locks[e] in s.txns :: s.txns[l.t].now < s.txns[s.locks[e]].now + VISIBILITY_TIMEOUT
  }

  // From step `n` on, the transaction `t` ends in a rollback.
  function Doomed(labels: seq<Label>, n: nat, t: nat): bool
    requires n <= |labels|
    decreases |labels| - n
  {
    n < |labels| && (labels[n] == Rollback(t) || (labels[n] != Commit(t) && Doomed(labels, n + 1, t)))
  }

  // The rows locked by transactions that will roll back.
  function Hidden(s: Sys, labels: seq<Label>, n: nat): set<Uuid>
    requires n <= |labels|
  {
    set e | e in s.locks && Doomed(labels, n, s.locks[e])
  }

  function Lookup(s: Sys, labels: seq<Label>, n: nat, l: Label): Served
    requires n <= |labels| && l.Select? && l.t in s.txns
  {
    Served(s.txns[l.t].now, s.txns[l.t].tenants, s.txns[l.t].limit, l.batch, Hidden(s, labels, n))
  }

  // The dequeues that are not rolled back, in lock order.
  ghost function ServedBy(states: seq<Sys>, labels: seq<Label>, n: nat): seq<Served>
    requires DequeueRun(states, labels) && n <= |labels|
  {
    if n == 0 then []
    else
      var before, s, l := ServedBy(states, labels, n - 1), states[n - 1], labels[n - 1];
      if l.Select? && !Doomed(labels, n, l.t) then before + [Lookup(s, labels, n - 1, l)] else before
  }

  ghost predicate LocksHeld(s: Sys) {
    forall e | e in s.locks :: s.locks[e] in s.txns && e in s.db.queue
  }

  // The tables as they will be once every open transaction has committed.
  ghost function Settled(s: Sys): Db
    requires LocksHeld(s)
  {
    s.db.(queue := map e | e in s.db.queue ::
                     if e in s.locks then ClaimRow(s.db.queue[e], s.txns[s.locks[e]].now) else s.db.queue[e],
          executions := map e | e in s.db.executions ::
                          if e in s.locks && e in s.db.queue then
                            ClaimExecution(s.db.executions[e], s.db.queue[e].attempt + 1, s.txns[s.locks[e]].now)
                          else s.db.executions[e])
  }

  lemma LocksKnown(s: Sys)
    requires Inv(s)
    ensures LocksHeld(s)
  {
    forall e | e in s.locks ensures s.locks[e] in s.txns && e in s.db.queue { assert LockOk(s, e); }
  }

  // The row and the history row of one execution under a claim.
  lemma ClaimAt(db: Db, batch: set<Uuid>, now: Time, e: Uuid)
    ensures var d := Claim(db, batch, now);
            && (e in d.queue <==> e in db.queue) && (e in d.executions <==> e in db.executions)
            && (e in db.queue ==> d.queue[e] == if e in batch then ClaimRow(db.queue[e], now) else db.queue[e])
            && (e in db.executions ==>
                  d.executions[e] == if e in batch && e in db.queue
                                     then ClaimExecution(db.executions[e], db.queue[e].attempt + 1, now)
                                     else db.executions[e])
  {
  }

  lemma SettledAt(s: Sys, e: Uuid)
    requires LocksHeld(s)
    ensures var d := Settled(s);
            && (e in d.queue <==> e in s.db.queue) && (e in d.executions <==> e in s.db.executions)
            && (e in s.db.queue ==>
                  d.queue[e] == if e in s.locks then ClaimRow(s.db.queue[e], s.txns[s.locks[e]].now) else s.db.queue[e])
            && (e in s.db.executions ==>
                  d.executions[e] == if e in s.locks
                                     then ClaimExecution(s.db.executions[e], s.db.queue[e].attempt + 1,
                                                         s.txns[s.locks[e]].now)
                                     else s.db.executions[e])
  {
  }

  lemma SameTables(a: Db, b: Db)
    requires a.dead == b.dead && a.nextQueueId == b.nextQueueId
    requires forall e :: e in a.queue <==> e in b.queue
    requires forall e :: e in a.executions <==> e in b.executions
    requires forall e | e in a.queue :: a.queue[e] == b.queue[e]
    requires forall e | e in a.executions :: a.executions[e] == b.executions[e]
    ensures a == b
  {
    assert a.queue == b.queue && a.executions == b.executions;
  }

  // A commit makes its claims real; the settled tables do not notice.
  lemma CommitSettles(s: Sys, t: nat, s': Sys)
    requires LocksHeld(s) && LocksHeld(s') && t in s.txns
    requires s' == s.(db := Claim(s.db, LockedBy(s, t), s.txns[t].now), txns := s.txns - {t},
                      locks := s.locks - LockedBy(s, t))
    ensures Settled(s') == Settled(s)
  {
    var a, b := Settled(s), Settled(s');
    forall e
      ensures e in a.queue <==> e in b.queue
      ensures e in a.executions <==> e in b.executions
      ensures e in a.queue ==> a.queue[e] == b.queue[e]
      ensures e in a.executions ==> a.executions[e] == b.executions[e]
    {
      SettledAt(s, e);
      SettledAt(s', e);
      ClaimAt(s.db, LockedBy(s, t), s.txns[t].now, e);
    }
    SameTables(a, b);
  }

  // The state without the locks of transactions that will roll back.
  function Lasting(s: Sys, labels: seq<Label>, n: nat): Sys
    requires n <= |labels|
  {
    s.(locks := map e | e in s.locks && !Doomed(labels, n, s.locks[e]) :: s.locks[e])
  }

  // What a transaction may pick next to the locked rows is what it could pick next to
  // the hidden ones once all others had been claimed.
  lemma SameChoice(s: Sys, l: Label, labels: seq<Label>, n: nat)
    requires Inv(s) && Enabled(s, l) && l.Select? && SelectsInTime(s, l) && n <= |labels|
    requires LocksHeld(s) && LocksHeld(Lasting(s, labels, n))
    ensures var tenants, now := s.txns[l.t].tenants, s.txns[l.t].now;
            Eligible(s.db.queue, s.locks.Keys, tenants, now)
            == Eligible(Settled(Lasting(s, labels, n)).queue, Hidden(s, labels, n), tenants, now)
  {
    var tenants, now, p := s.txns[l.t].tenants, s.txns[l.t].now, Lasting(s, labels, n);
    var a := Eligible(s.db.queue, s.locks.Keys, tenants, now);
    var b := Eligible(Settled(p).queue, Hidden(s, labels, n), tenants, now);
    forall e ensures e in a <==> e in b {
      SettledAt(p, e);
      if e in p.locks && e in s.db.queue {
        assert Settled(p).queue[e].visibleAfter > now;
      }
    }
  }

  lemma SelectAnswers(s: Sys, l: Label, labels: seq<Label>, n: nat)
    requires Inv(s) && Enabled(s, l) && l.Select? && SelectsInTime(s, l) && n <= |labels|
    requires LocksHeld(s) && LocksHeld(Lasting(s, labels, n))
    ensures Answers(Settled(Lasting(s, labels, n)), Lookup(s, labels, n, l))
    ensures forall e | e in l.batch :: e in s.db.queue && e !in s.locks
  {
    var x := Lookup(s, labels, n, l);
    var q, q' := s.db.queue, Settled(Lasting(s, labels, n)).queue;
    var eligible := Eligible(q, s.locks.Keys, x.tenants, x.now);
    SameChoice(s, l, labels, n);
    assert forall e | e in eligible :: e in q' && q'[e] == q[e];
    forall e | e in l.batch ensures e in eligible {
      var i :| 0 <= i < |l.batch| && l.batch[i] == e;
    }
    assert Ordered(q', l.batch);
  }

  // A selection is, for the settled tables, the claim itself.
  lemma SelectSettles(s: Sys, t: nat, batch: seq<Uuid>, now: Time, s': Sys)
    requires LocksHeld(s) && LocksHeld(s') && t in s.txns && now == s.txns[t].now
    requires s'.db == s.db && s'.locks == s.locks + map e | e in batch :: t
    requires s'.txns == s.txns[t := s.txns[t].(batch := Some(batch))]
    requires forall e | e in batch :: e in s.db.queue && e !in s.locks
    ensures Settled(s') == Claim(Settled(s), Elements(batch), now)
  {
    var a, b := Settled(s'), Claim(Settled(s), Elements(batch), now);
    forall e
      ensures e in a.queue <==> e in b.queue
      ensures e in a.executions <==> e in b.executions
      ensures e in a.queue ==> a.queue[e] == b.queue[e]
      ensures e in a.executions ==> a.executions[e] == b.executions[e]
    {
      SettledAt(s, e);
      SettledAt(s', e);
      ClaimAt(Settled(s), Elements(batch), now, e);
    }
    SameTables(a, b);
  }

  lemma Appended(db: Db, served: seq<Served>, x: Served)
    requires SerialRun(db, served) && Answers(SerialDb(db, served), x)
    ensures SerialRun(db, served + [x])
    ensures SerialDb(db, served + [x]) == Claim(SerialDb(db, served), Elements(x.batch), x.now)
  {
    var all := served + [x];
    assert all[..|served|] == served;
    forall i | 0 <= i < |all| ensures Answers(SerialDb(db, all[..i]), all[i]) {
      if i < |served| { assert all[..i] == served[..i]; }
    }
  }

  // As far as the settled tables go, nothing happens.
  lemma QuietSettles(s: Sys, s': Sys)
    requires LocksHeld(s) && LocksHeld(s') && s'.db == s.db && s'.locks == s.locks
    requires forall e | e in s.locks :: s'.txns[s'.locks[e]].now == s.txns[s.locks[e]].now
    ensures Settled(s') == Settled(s)
  {
    forall e
      ensures e in Settled(s).queue ==> Settled(s').queue[e] == Settled(s).queue[e]
      ensures e in Settled(s).executions ==> Settled(s').executions[e] == Settled(s).executions[e]
    {
      SettledAt(s, e);
      SettledAt(s', e);
    }
    SameTables(Settled(s'), Settled(s));
  }

  lemma SettledIdle(s: Sys)
    requires s.locks == map[]
    ensures Settled(s) == s.db
  {
    assert Settled(s).queue == s.db.queue;
    assert Settled(s).executions == s.db.executions;
  }

  lemma DoomedAfter(labels: seq<Label>, n: nat, t: nat)
    requires n < |labels| && labels[n] != Commit(t) && labels[n] != Rollback(t)
    ensures Doomed(labels, n, t) == Doomed(labels, n + 1, t)
  {
  }

  // What each kind of step does to the lasting locks.
  lemma LastingSelect(s: Sys, labels: seq<Label>, n: nat, s': Sys)
    requires n < |labels| && labels[n].Select?
    requires s'.locks == s.locks + map e | e in labels[n].batch :: labels[n].t
    requires forall e | e in labels[n].batch :: e !in s.locks
    ensures Lasting(s', labels, n + 1).locks
         == if Doomed(labels, n + 1, labels[n].t) then Lasting(s, labels, n).locks
            else Lasting(s, labels, n).locks + map e | e in labels[n].batch :: labels[n].t
  {
    forall e | e in s.locks ensures Doomed(labels, n, s.locks[e]) == Doomed(labels, n + 1, s.locks[e]) {
      DoomedAfter(labels, n, s.locks[e]);
    }
  }

  lemma LastingCommit(s: Sys, labels: seq<Label>, n: nat, s': Sys)
    requires n < |labels| && labels[n].Commit? && s'.locks == s.locks - LockedBy(s, labels[n].t)
    ensures LockedBy(Lasting(s, labels, n), labels[n].t) == LockedBy(s, labels[n].t)
    ensures Lasting(s', labels, n + 1).locks == Lasting(s, labels, n).locks - LockedBy(s, labels[n].t)
  {
    assert !Doomed(labels, n, labels[n].t);
    forall e | e in s'.locks ensures Doomed(labels, n, s.locks[e]) == Doomed(labels, n + 1, s.locks[e]) {
      DoomedAfter(labels, n, s.locks[e]);
    }
  }

  lemma LastingOther(s: Sys, labels: seq<Label>, n: nat, s': Sys)
    requires n < |labels| && (labels[n].Rollback? || labels[n].Tick? || labels[n].Begin?)
    requires s'.locks == if labels[n].Rollback? then s.locks - LockedBy(s, labels[n].t) else s.locks
    ensures Lasting(s', labels, n + 1).locks == Lasting(s, labels, n).locks
  {
    forall e | e in s'.locks ensures Doomed(labels, n, s.locks[e]) == Doomed(labels, n + 1, s.locks[e]) {
      DoomedAfter(labels, n, s.locks[e]);
    }
  }

  lemma LastingHeld(s: Sys, labels: seq<Label>, n: nat)
    requires LocksHeld(s) && n <= |labels|
    ensures LocksHeld(Lasting(s, labels, n))
  {
  }

  // The tables, with the open claims that will be committed added, are those of the serial run.
  ghost predicate InStep(s: Sys, labels: seq<Label>, n: nat, db: Db, served: seq<Served>) {
    && n <= |labels| && LocksHeld(s) && LocksHeld(Lasting(s, labels, n))
    && Settled(Lasting(s, labels, n)) == SerialDb(db, served)
    && SerialRun(db, served)
  }

  lemma SelectSimulates(s: Sys, labels: seq<Label>, n: nat, s': Sys, db: Db, served: seq<Served>)
    requires InStep(s, labels, n, db, served) && n < |labels| && Inv(s) && LocksHeld(s')
    requires Enabled(s, labels[n]) && labels[n].Select? && SelectsInTime(s, labels[n]) && s' == Next(s, labels[n])
    requires !Doomed(labels, n + 1, labels[n].t)
    ensures InStep(s', labels, n + 1, db, served + [Lookup(s, labels, n, labels[n])])
  {
    var l := labels[n];
    var x := Lookup(s, labels, n, l);
    SelectAnswers(s, l, labels, n);
    LastingSelect(s, labels, n, s');
    LastingHeld(s', labels, n + 1);
    SelectSettles(Lasting(s, labels, n), l.t, l.batch, x.now, Lasting(s', labels, n + 1));
    Appended(db, served, x);
  }

  lemma CommitSimulates(s: Sys, labels: seq<Label>, n: nat, s': Sys, db: Db, served: seq<Served>)
    requires InStep(s, labels, n, db, served) && n < |labels| && LocksHeld(s')
    requires Enabled(s, labels[n]) && labels[n].Commit? && s' == Next(s, labels[n])
    ensures InStep(s', labels, n + 1, db, served)
  {
    LastingCommit(s, labels, n, s');
    LastingHeld(s', labels, n + 1);
    CommitSettles(Lasting(s, labels, n), labels[n].t, Lasting(s', labels, n + 1));
  }

  lemma StaysInStep(s: Sys, labels: seq<Label>, n: nat, s': Sys, db: Db, served: seq<Served>)
    requires InStep(s, labels, n, db, served) && n < |labels| && LocksHeld(s') && s'.db == s.db
    requires Lasting(s', labels, n + 1).locks == Lasting(s, labels, n).locks
    requires forall e | e in s.locks && s.locks[e] in s'.txns :: s'.txns[s.locks[e]].now == s.txns[s.locks[e]].now
    ensures InStep(s', labels, n + 1, db, served)
  {
    var p, p' := Lasting(s, labels, n), Lasting(s', labels, n + 1);
    LastingHeld(s', labels, n + 1);
    assert forall e | e in p.locks :: p.locks[e] == s.locks[e];
    QuietSettles(p, p');
  }

  // A selection that will be rolled back.
  lemma DoomedSelects(s: Sys, labels: seq<Label>, n: nat, s': Sys, db: Db, served: seq<Served>)
    requires InStep(s, labels, n, db, served) && n < |labels| && Inv(s) && LocksHeld(s')
    requires labels[n].Select? && Enabled(s, labels[n]) && s' == Next(s, labels[n])
    requires Doomed(labels, n + 1, labels[n].t)
    ensures InStep(s', labels, n + 1, db, served)
  {
    forall e | e in s.locks ensures e !in labels[n].batch { BatchUnlocked(s, labels[n].t, labels[n].batch, e); }
    LastingSelect(s, labels, n, s');
    StaysInStep(s, labels, n, s', db, served);
  }

  lemma OthersSimulate(s: Sys, labels: seq<Label>, n: nat, s': Sys, db: Db, served: seq<Served>)
    requires InStep(s, labels, n, db, served) && n < |labels| && LocksHeld(s')
    requires Enabled(s, labels[n]) && s' == Next(s, labels[n])
    requires labels[n].Rollback? || labels[n].Tick? || labels[n].Begin?
    ensures InStep(s', labels, n + 1, db, served)
  {
    LastingOther(s, labels, n, s');
    StaysInStep(s, labels, n, s', db, served);
  }

  function ServedAfter(s: Sys, labels: seq<Label>, n: nat, served: seq<Served>): seq<Served>
    requires n < |labels| && (labels[n].Select? ==> labels[n].t in s.txns)
  {
    if labels[n].Select? && !Doomed(labels, n + 1, labels[n].t) then served + [Lookup(s, labels, n, labels[n])]
    else served
  }

  lemma StepSimulates(s: Sys, labels: seq<Label>, n: nat, s': Sys, db: Db, served: seq<Served>)
    requires Inv(s) && InStep(s, labels, n, db, served) && n < |labels|
    requires DequeueLabel(labels[n]) && Enabled(s, labels[n]) && s' == Next(s, labels[n]) && SelectsInTime(s, labels[n])
    ensures Inv(s') && InStep(s', labels, n + 1, db, ServedAfter(s, labels, n, served))
  {
    StepKeeps(s, labels[n]);
    LocksKnown(s');
    match labels[n] {
      case Commit(_) => CommitSimulates(s, labels, n, s', db, served);
      case Select(t, _) =>
        if Doomed(labels, n + 1, t) {
          DoomedSelects(s, labels, n, s', db, served);
        } else {
          SelectSimulates(s, labels, n, s', db, served);
        }
      case _ => OthersSimulate(s, labels, n, s', db, served);
    }
  }

  lemma {:induction false} Simulates(states: seq<Sys>, labels: seq<Label>, n: nat)
    requires DequeueRun(states, labels) && n <= |labels|
    requires forall i | 0 <= i < |labels| :: SelectsInTime(states[i], labels[i])
    ensures Inv(states[n]) && InStep(states[n], labels, n, states[0].db, ServedBy(states, labels, n))
  {
    if n == 0 {
      LastingHeld(states[0], labels, 0);
      SettledIdle(Lasting(states[0], labels, 0));
    } else {
      Simulates(states, labels, n - 1);
      StepSimulates(states[n - 1], labels, n - 1, states[n], states[0].db, ServedBy(states, labels, n - 1));
    }
  }

  lemma {:induction false} NobodyDoomed(labels: seq<Label>, n: nat, t: nat)
    requires n <= |labels| && forall l | l in labels :: !l.Rollback?
    ensures !Doomed(labels, n, t)
    decreases |labels| - n
  {
    if n < |labels| {
      assert labels[n] in labels;
      NobodyDoomed(labels, n + 1, t);
    }
  }

  lemma {:induction false} NothingHidden(states: seq<Sys>, labels: seq<Label>, n: nat)
    requires DequeueRun(states, labels) && n <= |labels| && forall l | l in labels :: !l.Rollback?
    ensures forall x | x in ServedBy(states, labels, n) :: x.hidden == {}
  {
    if n > 0 {
      NothingHidden(states, labels, n - 1);
      var locks := states[n - 1].locks;
      forall e | e in locks ensures !Doomed(labels, n - 1, locks[e]) { NobodyDoomed(labels, n - 1, locks[e]); }
    }
  }

  // ---------------------------------------------------------------------
  // Main results
  // ---------------------------------------------------------------------

  // Once all have ended, the final tables and the results of the dequeues that committed
  // are those of the same dequeues run one after the other in lock order, except that each
  // skipped the rows that a transaction since rolled back had locked: none, if there were
  // no rollbacks.
  lemma ConcurrentDequeuesAreSerial(states: seq<Sys>, labels: seq<Label>)
    requires DequeueRun(states, labels)
    requires forall i | 0 <= i < |labels| :: SelectsInTime(states[i], labels[i])
    requires states[|labels|].locks == map[]
    ensures var served := ServedBy(states, labels, |labels|);
            && states[|labels|].db == SerialDb(states[0].db, served)
            && SerialRun(states[0].db, served)
            && ((forall l | l in labels :: !l.Rollback?) ==> forall x | x in served :: x.hidden == {})
  {
    Simulates(states, labels, |labels|);
    SettledIdle(Lasting(states[|labels|], labels, |labels|));
    if forall l | l in labels :: !l.Rollback? {
      NothingHidden(states, labels, |labels|);
    }
  }

  // All start times lie within one visibility timeout of each other.
  ghost predicate WithinTimeout(served: seq<Served>) {
    forall i, j | 0 <= i < j < |served| :: served[j].now < served[i].now + VISIBILITY_TIMEOUT
  }

  // Every execution handed out so far is still under the lease it was given.
  ghost predicate AllLeased(d: Db, served: seq<Served>) {
    forall i, e | 0 <= i < |served| && e in served[i].batch ::
      e in d.queue && d.queue[e].visibleAfter == served[i].now + VISIBILITY_TIMEOUT
  }

  ghost predicate PairwiseDisjoint(served: seq<Served>) {
    forall i, j, e | 0 <= i < j < |served| && e in served[i].batch :: e !in served[j].batch
  }

  lemma NotAgain(d: Db, x: Served, e: Uuid, claimed: Time)
    requires Answers(d, x) && e in d.queue && d.queue[e].visibleAfter == claimed + VISIBILITY_TIMEOUT
    requires x.now < claimed + VISIBILITY_TIMEOUT
    ensures e !in x.batch
  {
    forall i | 0 <= i < |x.batch| ensures x.batch[i] != e {
      assert x.batch[i] in Eligible(d.queue, x.hidden, x.tenants, x.now);
    }
  }

  lemma OneMore(d: Db, front: seq<Served>, last: Served)
    requires AllLeased(d, front) && PairwiseDisjoint(front) && Answers(d, last) && WithinTimeout(front + [last])
    ensures AllLeased(Claim(d, Elements(last.batch), last.now), front + [last]) && PairwiseDisjoint(front + [last])
  {
    var served := front + [last];
    forall i, e | 0 <= i < |front| && e in front[i].batch ensures e !in last.batch {
      assert served[i] == front[i] && served[|front|] == last;
      NotAgain(d, last, e, front[i].now);
    }
    forall i, e | 0 <= i < |served| && e in served[i].batch
      ensures var c := Claim(d, Elements(last.batch), last.now);
              e in c.queue && c.queue[e].visibleAfter == served[i].now + VISIBILITY_TIMEOUT
    {
      if i < |front| {
        assert e in front[i].batch;
      } else {
        var m :| 0 <= m < |last.batch| && last.batch[m] == e;
      }
    }
  }

  // Dequeues within one visibility timeout never hand out an execution twice.
  lemma {:induction false} BatchesDisjoint(db: Db, served: seq<Served>)
    requires SerialRun(db, served) && WithinTimeout(served)
    ensures AllLeased(SerialDb(db, served), served) && PairwiseDisjoint(served)
  {
    if served != [] {
      var k := |served| - 1;
      var front, last := served[..k], served[k];
      assert served == front + [last];
      forall i | 0 <= i < |front| ensures Answers(SerialDb(db, front[..i]), front[i]) {
        assert front[..i] == served[..i];
        assert Answers(SerialDb(db, served[..i]), served[i]);
      }
      BatchesDisjoint(db, front);
      assert Answers(SerialDb(db, served[..k]), served[k]);
      OneMore(SerialDb(db, front), front, last);
    }
  }

  // In a run shorter than the visibility timeout every transaction starts and
  // selects in time.
  lemma {:induction false} StartsWithin(states: seq<Sys>, labels: seq<Label>, n: nat)
    requires DequeueRun(states, labels) && n <= |labels|
    ensures states[0].clock <= states[n].clock
    ensures forall t | t in states[n].txns :: states[0].clock <= states[n].txns[t].now <= states[n].clock
    ensures forall x | x in ServedBy(states, labels, n) :: states[0].clock <= x.now <= states[n].clock
  {
    if n > 0 {
      StartsWithin(states, labels, n - 1);
    }
  }

  lemma {:induction false} ClockMonotone(states: seq<Sys>, labels: seq<Label>, m: nat, n: nat)
    requires DequeueRun(states, labels) && m <= n <= |labels|
    ensures states[m].clock <= states[n].clock
    decreases n - m
  {
    if m < n {
      ClockMonotone(states, labels, m, n - 1);
    }
  }

  // However dequeue transactions interleave, if the whole run takes less than the
  // visibility timeout and all have ended, no execution was handed out twice, and results
  // and tables are those of a serial run of the committed ones in lock order.
  lemma PromptDequeuesAreSerial(states: seq<Sys>, labels: seq<Label>)
    requires DequeueRun(states, labels)
    requires states[|labels|].clock < states[0].clock + VISIBILITY_TIMEOUT
    requires states[|labels|].locks == map[]
    ensures var served := ServedBy(states, labels, |labels|);
            && states[|labels|].db == SerialDb(states[0].db, served)
            && SerialRun(states[0].db, served)
            && PairwiseDisjoint(served)
  {
    var served := ServedBy(states, labels, |labels|);
    assert states[|labels|].db == SerialDb(states[0].db, served) && SerialRun(states[0].db, served) by {
      forall i | 0 <= i < |labels| ensures SelectsInTime(states[i], labels[i]) {
        StartsWithin(states, labels, i);
        ClockMonotone(states, labels, i, |labels|);
      }
      ConcurrentDequeuesAreSerial(states, labels);
    }
    assert WithinTimeout(served) by {
      StartsWithin(states, labels, |labels|);
    }
    BatchesDisjoint(states[0].db, served);
  }
}
