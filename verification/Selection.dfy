/**
 The dequeue query: visible rows of admitted tenants that nobody has locked,
 best rank first, at most `limit` of them.
 */
module Selection {
  import opened Tables

  predicate Admits(tenants: seq<Uuid>, tenant: Uuid) {
    tenants == [] || tenant in tenants
  }

  predicate Claimable(r: QueueRow, tenants: seq<Uuid>, now: Time) {
    r.visibleAfter <= now && Admits(tenants, r.tenantId)
  }

  function Eligible(queue: map<Uuid, QueueRow>, locked: set<Uuid>, tenants: seq<Uuid>, now: Time): set<Uuid> {
    set e | e in queue && e !in locked && Claimable(queue[e], tenants, now)
  }

  // ORDER BY priority DESC, created_at ASC, with ties broken by the queue id.
  predicate Before(r: QueueRow, s: QueueRow) {
    || r.priority > s.priority
    || (r.priority == s.priority && r.createdAt < s.createdAt)
    || (r.priority == s.priority && r.createdAt == s.createdAt && r.id < s.id)
  }

  ghost predicate Ordered(queue: map<Uuid, QueueRow>, items: seq<Uuid>) {
    && (forall i | 0 <= i < |items| :: items[i] in queue)
    && (forall i, j | 0 <= i < j < |items| :: Before(queue[items[i]], queue[items[j]]))
  }

  // `items` answers the query over the eligible rows: in rank order, none past
  // the limit, none left out while there was room, and nothing better left behind.
  ghost predicate IsBatch(queue: map<Uuid, QueueRow>, eligible: set<Uuid>, limit: nat, items: seq<Uuid>) {
    && Ordered(queue, items)
    && (forall i | 0 <= i < |items| :: items[i] in eligible)
    && |items| <= limit
    && (|items| < limit ==> forall e | e in eligible :: e in items)
    && (forall i, e | 0 <= i < |items| && e in eligible && e in queue && e !in items ::
          Before(queue[items[i]], queue[e]))
  }

  // The same query read off its columns: `items` are distinct visible rows, unlocked and of
  // the tenants asked for; priority never rises along them, and among equals created_at
  // never falls; no such row left behind has a higher priority than one of them, or the
  // same and an earlier created_at; and some are left behind only when the limit is reached.
  ghost predicate AnswersQuery(queue: map<Uuid, QueueRow>, locked: set<Uuid>, tenants: seq<Uuid>, now: Time,
                               limit: nat, items: seq<Uuid>)
  {
    && |items| <= limit
    && (forall i | 0 <= i < |items| ::
          && items[i] in queue && items[i] !in locked && queue[items[i]].visibleAfter <= now
          && (tenants == [] || queue[items[i]].tenantId in tenants))
    && (forall i, j | 0 <= i < j < |items| ::
          && items[i] != items[j] && queue[items[i]].priority >= queue[items[j]].priority
          && (queue[items[i]].priority == queue[items[j]].priority ==>
                queue[items[i]].createdAt <= queue[items[j]].createdAt))
    && (forall e | e in queue && e !in items && e !in locked && queue[e].visibleAfter <= now
                   && (tenants == [] || queue[e].tenantId in tenants) ::
          && |items| == limit
          && forall i | 0 <= i < |items| ::
               && queue[items[i]].priority >= queue[e].priority
               && (queue[items[i]].priority == queue[e].priority ==> queue[items[i]].createdAt <= queue[e].createdAt))
  }

  lemma BatchAnswers(queue: map<Uuid, QueueRow>, locked: set<Uuid>, tenants: seq<Uuid>, now: Time,
                     limit: nat, items: seq<Uuid>)
    requires IsBatch(queue, Eligible(queue, locked, tenants, now), limit, items)
    ensures AnswersQuery(queue, locked, tenants, now, limit, items)
  {
    var eligible := Eligible(queue, locked, tenants, now);
    forall i, j | 0 <= i < j < |items| ensures items[i] != items[j] && Before(queue[items[i]], queue[items[j]]) {
      assert Before(queue[items[i]], queue[items[j]]);
    }
    forall e | e in queue && e !in items && e !in locked && queue[e].visibleAfter <= now
               && (tenants == [] || queue[e].tenantId in tenants)
      ensures |items| == limit && forall i | 0 <= i < |items| :: Before(queue[items[i]], queue[e])
    {
      assert e in eligible;
    }
  }

  function Elements(items: seq<Uuid>): (s: set<Uuid>)
    ensures forall e :: e in s <==> e in items
  {
    set e | e in items
  }

  lemma BeforeTotal(queue: map<Uuid, QueueRow>, e: Uuid, f: Uuid)
    requires IdsUnique(queue) && e in queue && f in queue && e != f
    ensures Before(queue[e], queue[f]) || Before(queue[f], queue[e])
  {
    assert queue[e].id != queue[f].id;
  }

  lemma {:induction false} DistinctCount(items: seq<Uuid>)
    requires forall i, j | 0 <= i < j < |items| :: items[i] != items[j]
    ensures |Elements(items)| == |items|
  {
    if items != [] {
      var k := |items| - 1;
      var front, last := items[..k], items[k];
      DistinctCount(front);
      assert last !in Elements(front);
      assert Elements(items) == Elements(front) + {last};
    }
  }

  lemma OrderedDistinct(queue: map<Uuid, QueueRow>, items: seq<Uuid>)
    requires Ordered(queue, items)
    ensures forall i, j | 0 <= i < j < |items| :: items[i] != items[j]
    ensures |Elements(items)| == |items|
  {
    forall i, j | 0 <= i < j < |items| ensures items[i] != items[j] {
      assert Before(queue[items[i]], queue[items[j]]);
    }
    DistinctCount(items);
  }

  lemma SubsetNoLarger(s: set<Uuid>, t: set<Uuid>)
    requires s <= t
    ensures |s| <= |t|
  {
    if s != {} {
      var x :| x in s;
      SubsetNoLarger(s - {x}, t - {x});
    }
  }

  lemma SubsetSmaller(s: set<Uuid>, t: set<Uuid>, x: Uuid)
    requires s <= t && x in t && x !in s
    ensures |s| < |t|
  {
    SubsetNoLarger(s, t - {x});
  }

  // Two answers over the same rows contain the same rows.
  lemma BatchesSameElements(queue: map<Uuid, QueueRow>, eligible: set<Uuid>, limit: nat, a: seq<Uuid>, b: seq<Uuid>)
    requires IsBatch(queue, eligible, limit, a) && IsBatch(queue, eligible, limit, b)
    ensures Elements(a) <= Elements(b)
  {
    OrderedDistinct(queue, a);
    OrderedDistinct(queue, b);
    if x :| x in Elements(a) && x !in Elements(b) {
      assert |b| == limit;
      assert exists y :: y in Elements(b) && y !in Elements(a) by {
        if Elements(b) <= Elements(a) {
          SubsetSmaller(Elements(b), Elements(a), x);
        }
      }
      var y :| y in Elements(b) && y !in Elements(a);
      var i :| 0 <= i < |a| && a[i] == x;
      var j :| 0 <= j < |b| && b[j] == y;
      assert Before(queue[a[i]], queue[y]) && Before(queue[b[j]], queue[x]);
    }
  }

  lemma OrderedSameElements(queue: map<Uuid, QueueRow>, a: seq<Uuid>, b: seq<Uuid>)
    requires Ordered(queue, a) && Ordered(queue, b) && Elements(a) == Elements(b)
    ensures a == b
  {
    OrderedDistinct(queue, a);
    OrderedDistinct(queue, b);
    if a != [] {
      var k := |a| - 1;
      assert a[k] in Elements(b) && b[k] in Elements(a);
      var i :| 0 <= i < |b| && b[i] == a[k];
      var j :| 0 <= j < |a| && a[j] == b[k];
      assert i == k;
      assert a == a[..k] + [a[k]] && b == b[..k] + [b[k]];
      assert Elements(a[..k]) == Elements(a) - {a[k]};
      assert Elements(b[..k]) == Elements(b) - {b[k]};
      OrderedSameElements(queue, a[..k], b[..k]);
    }
  }

  // The query has one answer.
  lemma BatchUnique(queue: map<Uuid, QueueRow>, eligible: set<Uuid>, limit: nat, a: seq<Uuid>, b: seq<Uuid>)
    requires IsBatch(queue, eligible, limit, a) && IsBatch(queue, eligible, limit, b)
    ensures a == b
  {
    BatchesSameElements(queue, eligible, limit, a, b);
    BatchesSameElements(queue, eligible, limit, b, a);
    OrderedSameElements(queue, a, b);
  }

  lemma Best(queue: map<Uuid, QueueRow>, pool: set<Uuid>) returns (best: Uuid)
    requires IdsUnique(queue) && pool != {} && forall e | e in pool :: e in queue
    ensures best in pool && forall e | e in pool && e != best :: Before(queue[best], queue[e])
  {
    var first :| first in pool;
    var rest := pool - {first};
    best := first;
    if rest != {} {
      var other := Best(queue, rest);
      BeforeTotal(queue, first, other);
      best := if Before(queue[other], queue[first]) then other else first;
      forall e | e in pool && e != best ensures Before(queue[best], queue[e]) {
        assert e == first || e in rest;
        assert e != first && e != other ==> Before(queue[other], queue[e]);
      }
    } else {
      assert forall e | e in pool && e != first :: e in rest;
    }
  }

  lemma {:induction false} BatchFrom(queue: map<Uuid, QueueRow>, pool: set<Uuid>, limit: nat) returns (items: seq<Uuid>)
    requires IdsUnique(queue) && forall e | e in pool :: e in queue
    ensures IsBatch(queue, pool, limit, items)
    decreases limit
  {
    if pool == {} || limit == 0 {
      items := [];
    } else {
      var best := Best(queue, pool);
      var rest := BatchFrom(queue, pool - {best}, limit - 1);
      items := [best] + rest;
      forall i, j | 0 <= i < j < |items| ensures Before(queue[items[i]], queue[items[j]]) {
        assert items[j] == rest[j - 1] && rest[j - 1] in pool - {best};
        assert i > 0 ==> items[i] == rest[i - 1];
      }
      forall i, e | 0 <= i < |items| && e in pool && e in queue && e !in items
        ensures Before(queue[items[i]], queue[e])
      {
        assert items[0] == best && (i > 0 ==> items[i] == rest[i - 1] && e !in rest);
      }
      forall e | e in pool && |items| < limit ensures e in items {
        assert items[0] == best && (e != best ==> e in rest);
      }
    }
  }

  // The query has an answer.
  lemma BatchExists(queue: map<Uuid, QueueRow>, eligible: set<Uuid>, limit: nat)
    requires IdsUnique(queue) && forall e | e in eligible :: e in queue
    ensures exists items :: IsBatch(queue, eligible, limit, items)
  {
    var items := BatchFrom(queue, eligible, limit);
  }

  // The best-ranked row of a non-empty pool.
  method FindBest(queue: map<Uuid, QueueRow>, pool: set<Uuid>) returns (best: Uuid)
    requires IdsUnique(queue) && pool != {} && forall e | e in pool :: e in queue
    ensures best in pool
    ensures forall e | e in pool && e != best :: Before(queue[best], queue[e])
    ensures forall e | e in pool ::
              && queue[best].priority >= queue[e].priority
              && (queue[best].priority == queue[e].priority ==> queue[best].createdAt <= queue[e].createdAt)
  {
    best :| best in pool;
    var rest := pool - {best};
    while rest != {}
      invariant best in pool && best !in rest && rest <= pool
      invariant forall e | e in pool && e !in rest && e != best :: Before(queue[best], queue[e])
      decreases rest
    {
      var e :| e in rest;
      BeforeTotal(queue, e, best);
      if Before(queue[e], queue[best]) {
        best := e;
      }
      rest := rest - {e};
    }
  }

  // Picks the best row again and again until the limit is met or the pool is empty.
  method SelectBatch(queue: map<Uuid, QueueRow>, locked: set<Uuid>, tenants: seq<Uuid>, now: Time, limit: nat)
    returns (items: seq<Uuid>)
    requires IdsUnique(queue)
    ensures IsBatch(queue, Eligible(queue, locked, tenants, now), limit, items)
    ensures AnswersQuery(queue, locked, tenants, now, limit, items)
  {
    var eligible := Eligible(queue, locked, tenants, now);
    var pool := eligible;
    items := [];
    while pool != {} && |items| < limit
      invariant pool <= eligible
      invariant forall e :: e in items <==> e in eligible && e !in pool
      invariant Ordered(queue, items) && |items| <= limit
      invariant forall i, e | 0 <= i < |items| && e in pool :: Before(queue[items[i]], queue[e])
      decreases pool
    {
      var best := FindBest(queue, pool);
      items := items + [best];
      pool := pool - {best};
    }
    BatchAnswers(queue, locked, tenants, now, limit, items);
  }
}
