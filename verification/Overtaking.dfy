/**
 How long an eligible row can be passed over by better-ranked ones.
 */
module Overtaking {
  import opened Tables
  import opened Selection
  import opened Statements
  import opened SerialDequeue

  // The visible rows that rank before `e`.
  ghost function Ahead(db: Db, e: Uuid, now: Time): set<Uuid>
    requires e in db.queue
  {
    set x | x in db.queue && db.queue[x].visibleAfter <= now && Before(db.queue[x], db.queue[e])
  }

  // `e` is visible at a dequeue that admits its tenant, and not hidden from it.
  ghost predicate InLine(db: Db, x: Served, e: Uuid) {
    e in db.queue && e !in x.hidden && Claimable(db.queue[e], x.tenants, x.now)
  }

  // `e` is visible at `from`, and no better-ranked row becomes visible in the visibility
  // timeout that follows.
  ghost predicate Steady(db: Db, e: Uuid, from: Time) {
    && e in db.queue && db.queue[e].visibleAfter <= from
    && forall f | f in db.queue && Before(db.queue[f], db.queue[e]) ::
         db.queue[f].visibleAfter <= from || from + VISIBILITY_TIMEOUT <= db.queue[f].visibleAfter
  }

  predicate InWindow(x: Served, from: Time) {
    from <= x.now < from + VISIBILITY_TIMEOUT
  }

  // The dequeue admits the tenant of `e`, is not kept from it by a transaction that rolls
  // back, and asks for at least `limit` rows.
  predicate CouldTake(x: Served, e: Uuid, tenant: Uuid, limit: nat) {
    Admits(x.tenants, tenant) && e !in x.hidden && x.limit >= limit
  }

  function Rounds(served: seq<Served>, e: Uuid, tenant: Uuid, limit: nat): nat {
    if served == [] then 0
    else
      var k := |served| - 1;
      Rounds(served[..k], e, tenant, limit) + if CouldTake(served[k], e, tenant, limit) then 1 else 0
  }

  lemma OneMore(a: nat, b: nat)
    ensures (a + 1) * b == a * b + b
  {
  }

  lemma RoundsMore(served: seq<Served>, e: Uuid, tenant: Uuid, limit: nat)
    requires served != []
    ensures var k := |served| - 1;
            Rounds(served, e, tenant, limit) * limit == Rounds(served[..k], e, tenant, limit) * limit
              + if CouldTake(served[k], e, tenant, limit) then limit else 0
  {
    OneMore(Rounds(served[..|served| - 1], e, tenant, limit), limit);
  }

  // A dequeue that passes `e` over takes a full batch from the rows ahead of it.
  lemma PassedOver(db: Db, x: Served, e: Uuid)
    requires Answers(db, x) && InLine(db, x, e) && e !in x.batch
    ensures |Elements(x.batch)| == x.limit && Elements(x.batch) <= Ahead(db, e, x.now)
  {
    var eligible := Eligible(db.queue, x.hidden, x.tenants, x.now);
    assert e in eligible;
    OrderedDistinct(db.queue, x.batch);
    forall y | y in Elements(x.batch) ensures y in Ahead(db, e, x.now) {
      var i :| 0 <= i < |x.batch| && x.batch[i] == y;
      assert x.batch[i] in eligible && Before(db.queue[x.batch[i]], db.queue[e]);
    }
  }

  lemma {:induction false} RemoveBatch(ahead: set<Uuid>, batch: set<Uuid>)
    requires batch <= ahead
    ensures |ahead - batch| == |ahead| - |batch|
  {
    assert ahead == (ahead - batch) + batch;
  }

  // The rows a dequeue claims leave the line for a visibility timeout, and nobody joins it.
  lemma ClaimKeepsLine(db: Db, x: Served, e: Uuid, from: Time)
    requires Answers(db, x) && Steady(db, e, from) && InWindow(x, from) && e !in x.batch
    ensures var d := Claim(db, Elements(x.batch), x.now);
            && Steady(d, e, from) && d.queue[e] == db.queue[e]
            && Ahead(d, e, from) == Ahead(db, e, from) - Elements(x.batch)
  {
    var d := Claim(db, Elements(x.batch), x.now);
    assert forall f | f in db.queue && f in x.batch :: d.queue[f].visibleAfter == x.now + VISIBILITY_TIMEOUT;
  }

  // One more dequeue that passes `e` over.
  lemma LineShrinks(db: Db, x: Served, e: Uuid, from: Time, limit: nat)
    requires Answers(db, x) && Steady(db, e, from) && InWindow(x, from) && e !in x.batch
    ensures var d := Claim(db, Elements(x.batch), x.now);
            && Steady(d, e, from) && d.queue[e] == db.queue[e]
            && |Ahead(d, e, from)| + (if CouldTake(x, e, db.queue[e].tenantId, limit) then limit else 0)
               <= |Ahead(db, e, from)|
  {
    var before, batch := Ahead(db, e, from), Elements(x.batch);
    ClaimKeepsLine(db, x, e, from);
    if CouldTake(x, e, db.queue[e].tenantId, limit) {
      PassedOver(db, x, e);
      assert Ahead(db, e, x.now) == before;
      RemoveBatch(before, batch);
    } else {
      SubsetNoLarger(before - batch, before);
    }
  }

  lemma Prefix(db: Db, served: seq<Served>, n: nat)
    requires SerialRun(db, served) && n <= |served|
    ensures SerialRun(db, served[..n])
  {
    forall i | 0 <= i < n ensures Answers(SerialDb(db, served[..n][..i]), served[..n][i]) {
      assert served[..n][..i] == served[..i];
    }
  }

  // While it is passed over, every dequeue that could have claimed `e` uses up a full
  // batch of the rows ahead.
  lemma {:induction false} AheadShrinks(db: Db, served: seq<Served>, e: Uuid, from: Time, limit: nat)
    requires SerialRun(db, served) && Steady(db, e, from) && forall x | x in served :: InWindow(x, from)
    requires forall x | x in served :: e !in x.batch
    ensures var d := SerialDb(db, served);
            && Steady(d, e, from) && d.queue[e] == db.queue[e]
            && |Ahead(d, e, from)| + Rounds(served, e, db.queue[e].tenantId, limit) * limit <= |Ahead(db, e, from)|
  {
    if served != [] {
      var k := |served| - 1;
      Prefix(db, served, k);
      AheadShrinks(db, served[..k], e, from, limit);
      assert Answers(SerialDb(db, served[..k]), served[k]) && served[k] in served;
      LineShrinks(SerialDb(db, served[..k]), served[k], e, from, limit);
      RoundsMore(served, e, db.queue[e].tenantId, limit);
    }
  }

  // The first dequeue that claims `e`, if any does.
  lemma FirstClaim(served: seq<Served>, e: Uuid) returns (i: nat)
    ensures i <= |served| && (forall x | x in served[..i] :: e !in x.batch)
    ensures i < |served| ==> e in served[i].batch
  {
    i := 0;
    while i < |served| && e !in served[i].batch
      invariant i <= |served| && forall x | x in served[..i] :: e !in x.batch
    {
      assert served[..i + 1] == served[..i] + [served[i]];
      i := i + 1;
    }
  }

  lemma AtMost(rounds: nat, k: nat, limit: nat)
    requires limit >= 1 && rounds * limit <= k
    ensures rounds <= k / limit
  {
    var q := k / limit;
    assert k == q * limit + k % limit;
    assert rounds >= q + 1 ==> rounds * limit >= (q + 1) * limit;
  }

  // With k rows ahead of it, an execution is claimed before more than k/limit dequeues
  // that could take it, of at least `limit` rows each, have passed it over.
  lemma BoundedOvertaking(db: Db, served: seq<Served>, e: Uuid, from: Time, limit: nat)
    requires SerialRun(db, served) && Steady(db, e, from) && forall x | x in served :: InWindow(x, from)
    requires limit >= 1 && Rounds(served, e, db.queue[e].tenantId, limit) > |Ahead(db, e, from)| / limit
    ensures exists i :: 0 <= i < |served| && e in served[i].batch
                     && Rounds(served[..i], e, db.queue[e].tenantId, limit) <= |Ahead(db, e, from)| / limit
  {
    var k, tenant := |Ahead(db, e, from)|, db.queue[e].tenantId;
    var i := FirstClaim(served, e);
    Prefix(db, served, i);
    AheadShrinks(db, served[..i], e, from, limit);
    AtMost(Rounds(served[..i], e, tenant, limit), k, limit);
    assert served[..|served|] == served;
  }

  // Whoever has been claimed in the window is under a lease until it closes.
  lemma LeasedInWindow(db: Db, served: seq<Served>, e: Uuid, from: Time, i: nat)
    requires SerialRun(db, served) && (forall x | x in served :: InWindow(x, from))
    requires i < |served| && e in served[i].batch
    ensures e in SerialDb(db, served).queue && SerialDb(db, served).queue[e].visibleAfter >= from + VISIBILITY_TIMEOUT
  {
    forall i, j | 0 <= i < j < |served| ensures served[j].now < served[i].now + VISIBILITY_TIMEOUT {
      assert InWindow(served[i], from) && InWindow(served[j], from);
    }
    BatchesDisjoint(db, served);
    assert InWindow(served[i], from);
  }

  // However dequeue transactions interleave within a visibility timeout, k rows ahead
  // delay an execution by at most k/limit of the dequeues that could take it, in lock order;
  // at the end it is under a lease.
  lemma BoundedOvertakingUnderConcurrency(states: seq<Sys>, labels: seq<Label>, e: Uuid, limit: nat)
    requires DequeueRun(states, labels)
    requires states[|labels|].clock < states[0].clock + VISIBILITY_TIMEOUT && states[|labels|].locks == map[]
    requires Steady(states[0].db, e, states[0].clock) && limit >= 1
    requires Rounds(ServedBy(states, labels, |labels|), e, states[0].db.queue[e].tenantId, limit)
             > |Ahead(states[0].db, e, states[0].clock)| / limit
    ensures var served, d := ServedBy(states, labels, |labels|), states[|labels|].db;
            && (exists i :: 0 <= i < |served| && e in served[i].batch
                         && Rounds(served[..i], e, states[0].db.queue[e].tenantId, limit)
                            <= |Ahead(states[0].db, e, states[0].clock)| / limit)
            && e in d.queue && d.queue[e].visibleAfter > states[|labels|].clock
  {
    var served, db := ServedBy(states, labels, |labels|), states[0].db;
    var from := states[0].clock;
    assert states[|labels|].db == SerialDb(db, served) && SerialRun(db, served) by {
      PromptDequeuesAreSerial(states, labels);
    }
    assert forall x | x in served :: InWindow(x, from) by {
      StartsWithin(states, labels, |labels|);
    }
    BoundedOvertaking(db, served, e, from, limit);
    var i :| 0 <= i < |served| && e in served[i].batch
             && Rounds(served[..i], e, db.queue[e].tenantId, limit) <= |Ahead(db, e, from)| / limit;
    LeasedInWindow(db, served, e, from, i);
  }
}
