/**
 The webhook dispatcher: a delivery posts with retries and writes the outcome to the
 execution's row; a semaphore bounds how many are under way at once. Every report sets
 off a delivery of its own, so several can race for one execution.
 */
module Webhook {
  import opened Tables
  import Stores

  const MAX_CONCURRENT: nat := 10
  const POST_RETRIES: nat := 3
  const BACKOFFS: seq<Time> := [1 * SECOND, 5 * SECOND, 25 * SECOND]

  datatype Post = Unbuildable | NetworkError | Answer(status: int)

  predicate Success(p: Post) {
    p.Answer? && 200 <= p.status < 300
  }

  // Only an answer outside 2xx that is neither a server error nor 429 ends the delivery.
  predicate GivesUp(p: Post) {
    p.Answer? && !Success(p) && p.status < 500 && p.status != 429
  }

  // Some attempt succeeds before any attempt that ends the delivery.
  ghost predicate Succeeds(posts: nat -> Post) {
    exists a :: 0 <= a <= POST_RETRIES && Success(posts(a)) && forall b | 0 <= b < a :: !GivesUp(posts(b))
  }

  lemma FirstSuccess(posts: nat -> Post, a: nat)
    requires a <= POST_RETRIES && Success(posts(a))
    requires forall b | 0 <= b < a :: !GivesUp(posts(b))
    ensures Succeeds(posts)
  {
  }

  // Read off the answers alone: attempt `b` may be followed by another, because it could not
  // be made, or met a lost connection, 429 or a server error.
  predicate Another(p: Post) {
    p.Unbuildable? || p.NetworkError? || (p.Answer? && (p.status == 429 || p.status >= 500))
  }

  // At most four POSTs, and 31 s of waiting, per delivery; true exactly when it succeeded.
  method DeliverWithRetry(posts: nat -> Post) returns (delivered: bool, sent: nat, slept: Time)
    ensures delivered <==> Succeeds(posts)
    ensures 1 <= sent <= 4
    ensures forall b | 0 <= b < sent - 1 :: Another(posts(b))
    ensures delivered <==> posts(sent - 1).Answer? && 200 <= posts(sent - 1).status < 300
    ensures sent < 4 ==> !Another(posts(sent - 1))
    ensures slept == [0, 1 * SECOND, 6 * SECOND, 31 * SECOND][sent - 1]
  {
    slept := 0;
    for attempt := 0 to POST_RETRIES + 1
      invariant slept == [0, 0, 1 * SECOND, 6 * SECOND, 31 * SECOND][attempt]
      invariant forall b | 0 <= b < attempt :: !Success(posts(b)) && !GivesUp(posts(b))
    {
      if attempt > 0 {
        slept := slept + BACKOFFS[attempt - 1];
      }
      if Success(posts(attempt)) {
        FirstSuccess(posts, attempt);
        return true, attempt + 1, slept;
      }
      if GivesUp(posts(attempt)) {
        return false, attempt + 1, slept;
      }
    }
    return false, POST_RETRIES + 1, slept;
  }

  // ---------------------------------------------------------------------
  // Many deliveries at once
  // ---------------------------------------------------------------------

  // A delivery goroutine: waiting for a slot, posting, then writing the outcome down.
  datatype Phase = Queued | Posting | Recording(delivered: bool)

  datatype Delivery = Delivery(e: Uuid, phase: Phase)

  // How far a call of Shutdown has come. The goroutine that waits for the counter and
  // the select that waits for that goroutine are two.
  datatype Closing = NotCalled | Called | SeenZero | Returned(clean: bool)

  datatype State = State(
    active: map<nat, Delivery>,
    sem: nat,                                    // occupied slots
    wg: nat,                                     // goroutines the WaitGroup counts
    column: map<Uuid, Option<CallbackStatus>>,   // callback_status of each execution
    closing: Closing
  )

  datatype Label =
    | Deliver(d: nat, e: Uuid, url: Option<string>)
    | Acquire(d: nat)
    | Post(d: nat, posts: nat -> Post)
    | Record(d: nat, committed: bool)            // the UPDATE may fail, and its error is dropped
    | CallShutdown
    | SeeZero                                    // the WaitGroup lets the waiting goroutine go
    | Return(clean: bool)                        // its signal has arrived, or the deadline has passed

  function Init(column: map<Uuid, Option<CallbackStatus>>): State {
    State(map[], 0, 0, column, NotCalled)
  }

  ghost predicate Enabled(s: State, l: Label) {
    match l
    case Deliver(d, e, _) => d !in s.active && e in s.column
    case Acquire(d) => d in s.active && s.active[d].phase.Queued? && s.sem < MAX_CONCURRENT
    case Post(d, _) => d in s.active && s.active[d].phase.Posting?
    case Record(d, _) => d in s.active && s.active[d].phase.Recording? && s.sem > 0 && s.wg > 0
    case CallShutdown => s.closing.NotCalled?
    case SeeZero => s.closing.Called? && s.wg == 0
    case Return(clean) => s.closing.SeenZero? || (s.closing.Called? && !clean)
  }

  function Verdict(delivered: bool): Option<CallbackStatus> {
    Some(if delivered then Delivered else Undelivered)
  }

  // A delivery without a callback URL is dropped at once.
  ghost function Next(s: State, l: Label): State
    requires Enabled(s, l)
  {
    match l
    case Deliver(d, e, url) =>
      if url.None? || url.value == "" then s
      else s.(active := s.active[d := Delivery(e, Queued)], wg := s.wg + 1)
    case Acquire(d) => s.(active := s.active[d := s.active[d].(phase := Posting)], sem := s.sem + 1)
    case Post(d, posts) => s.(active := s.active[d := s.active[d].(phase := Recording(Succeeds(posts)))])
    case Record(d, committed) =>
      var Delivery(e, phase) := s.active[d];
      s.(active := s.active - {d}, sem := s.sem - 1, wg := s.wg - 1,
         column := if committed && e in s.column then s.column[e := Verdict(phase.delivered)] else s.column)
    case CallShutdown => s.(closing := Called)
    case SeeZero => s.(closing := SeenZero)
    case Return(clean) => s.(closing := Returned(clean))
  }

  ghost predicate IsRun(states: seq<State>, labels: seq<Label>) {
    && |states| == |labels| + 1
    && states[0] == Init(states[0].column)
    && forall i | 0 <= i < |labels| :: Enabled(states[i], labels[i]) && states[i + 1] == Next(states[i], labels[i])
  }

  // The deliveries that hold a slot.
  function Holding(s: State): set<nat> {
    set d | d in s.active && !s.active[d].phase.Queued?
  }

  ghost predicate Inv(s: State) {
    && |Holding(s)| == s.sem <= MAX_CONCURRENT
    && |s.active| == s.wg
  }

  lemma SameSize(a: map<nat, Delivery>, b: map<nat, Delivery>)
    requires a.Keys == b.Keys
    ensures |a| == |b|
  {
    assert |a.Keys| == |a| && |b.Keys| == |b|;
  }

  lemma Starts(s: State, s': State, d: nat)
    requires d in s.active && s.active[d].phase.Queued? && s'.active == s.active[d := s.active[d].(phase := Posting)]
    ensures |Holding(s')| == |Holding(s)| + 1 && |s'.active| == |s.active|
  {
    assert Holding(s') == Holding(s) + {d};
    SameSize(s.active, s'.active);
  }

  lemma Posts(s: State, s': State, d: nat, delivered: bool)
    requires d in s.active && s.active[d].phase.Posting?
    requires s'.active == s.active[d := s.active[d].(phase := Recording(delivered))]
    ensures Holding(s') == Holding(s) && |s'.active| == |s.active|
  {
    SameSize(s.active, s'.active);
  }

  lemma Ends(s: State, s': State, d: nat)
    requires d in s.active && !s.active[d].phase.Queued? && s'.active == s.active - {d}
    ensures |Holding(s')| == |Holding(s)| - 1 && |s'.active| == |s.active| - 1
  {
    assert Holding(s') == Holding(s) - {d};
    assert s'.active.Keys == s.active.Keys - {d};
    assert |s'.active.Keys| == |s'.active| && |s.active.Keys| == |s.active|;
  }

  lemma Joins(s: State, s': State, d: nat, e: Uuid)
    requires d !in s.active && s'.active == s.active[d := Delivery(e, Queued)]
    ensures Holding(s') == Holding(s) && |s'.active| == |s.active| + 1
  {
    assert s'.active.Keys == s.active.Keys + {d};
    assert |s'.active.Keys| == |s'.active| && |s.active.Keys| == |s.active|;
  }

  lemma StepKeeps(s: State, l: Label, s': State)
    requires Inv(s) && Enabled(s, l) && s' == Next(s, l)
    ensures Inv(s')
  {
    match l {
      case Deliver(d, e, url) => if url.Some? && url.value != "" { Joins(s, s', d, e); }
      case Acquire(d) => Starts(s, s', d);
      case Post(d, posts) => Posts(s, s', d, Succeeds(posts));
      case Record(d, _) => Ends(s, s', d);
      case _ =>
    }
  }

  lemma {:induction false} RunInv(states: seq<State>, labels: seq<Label>, n: nat)
    requires IsRun(states, labels) && n <= |labels|
    ensures Inv(states[n])
  {
    if n > 0 {
      RunInv(states, labels, n - 1);
      StepKeeps(states[n - 1], labels[n - 1], states[n]);
    }
  }

  // Never more than ten deliveries have a slot; another can start exactly while there are
  // fewer, and one that has posted can always give its slot back.
  lemma BoundedDeliveries(states: seq<State>, labels: seq<Label>, n: nat)
    requires IsRun(states, labels) && n <= |labels|
    ensures |Holding(states[n])| == states[n].sem <= 10
    ensures forall d | d in states[n].active && states[n].active[d].phase.Queued? ::
              Enabled(states[n], Acquire(d)) <==> |Holding(states[n])| < 10
    ensures forall d | d in states[n].active && states[n].active[d].phase.Recording? ::
              Enabled(states[n], Record(d, true))
  {
    RunInv(states, labels, n);
    var s := states[n];
    forall d | d in s.active && s.active[d].phase.Recording? ensures Enabled(s, Record(d, true)) {
      assert d in Holding(s);
      assert |s.active.Keys| == |s.active|;
      assert d in s.active.Keys;
    }
  }

  // ---------------------------------------------------------------------
  // What Shutdown leaves behind
  // ---------------------------------------------------------------------

  predicate Sets(l: Label, d: nat) {
    l.Deliver? && l.d == d && l.url.Some? && l.url.value != ""
  }

  predicate Ended(l: Label, d: nat) {
    l.Record? && l.d == d
  }

  // Delivery `d` was set off at step `i`, and has not ended before step `n`.
  ghost predicate UnderWaySince(labels: seq<Label>, i: int, n: int, d: nat)
    requires 0 <= i < n <= |labels|
  {
    Sets(labels[i], d) && forall k | i < k < n :: !Ended(labels[k], d)
  }

  lemma ActiveStep(s: State, l: Label, d: nat)
    requires Enabled(s, l)
    ensures d in Next(s, l).active <==> Sets(l, d) || (d in s.active && !Ended(l, d))
  {
  }

  ghost predicate SetOff(labels: seq<Label>, m: nat, n: nat, d: nat)
    requires m <= n <= |labels|
  {
    exists i :: m <= i < n && UnderWaySince(labels, i, n, d)
  }

  lemma SetOffStep(labels: seq<Label>, m: nat, n: nat, d: nat)
    requires m <= n < |labels|
    ensures SetOff(labels, m, n + 1, d) <==> Sets(labels[n], d) || (SetOff(labels, m, n, d) && !Ended(labels[n], d))
  {
    if Sets(labels[n], d) {
      assert UnderWaySince(labels, n, n + 1, d);
    } else if SetOff(labels, m, n, d) && !Ended(labels[n], d) {
      var i :| m <= i < n && UnderWaySince(labels, i, n, d);
      assert UnderWaySince(labels, i, n + 1, d);
    }
    if SetOff(labels, m, n + 1, d) && !Sets(labels[n], d) {
      var i :| m <= i < n + 1 && UnderWaySince(labels, i, n + 1, d);
      assert UnderWaySince(labels, i, n, d);
    }
  }

  // From a moment without deliveries on, those under way are those set off since and not ended.
  lemma {:induction false} ActiveSince(states: seq<State>, labels: seq<Label>, m: nat, n: nat, d: nat)
    requires IsRun(states, labels) && m <= n <= |labels| && states[m].active == map[]
    ensures d in states[n].active <==> SetOff(labels, m, n, d)
    decreases n - m
  {
    if m < n {
      ActiveSince(states, labels, m, n - 1, d);
      ActiveStep(states[n - 1], labels[n - 1], d);
      SetOffStep(labels, m, n - 1, d);
    }
  }

  lemma {:induction false} EndedBetween(states: seq<State>, labels: seq<Label>, m: nat, n: nat, d: nat)
    requires IsRun(states, labels) && m <= n <= |labels| && d in states[m].active && d !in states[n].active
    ensures exists k :: m <= k < n && Ended(labels[k], d)
    decreases n - m
  {
    ActiveStep(states[n - 1], labels[n - 1], d);
    if d !in states[n - 1].active {
      EndedBetween(states, labels, m, n - 1, d);
    }
  }

  lemma {:induction false} CalledBy(states: seq<State>, labels: seq<Label>, n: nat) returns (c: nat)
    requires IsRun(states, labels) && n <= |labels| && states[n].closing.Called?
    ensures c < n && labels[c].CallShutdown?
  {
    if labels[n - 1].CallShutdown? {
      c := n - 1;
    } else {
      c := CalledBy(states, labels, n - 1);
    }
  }

  // The call and the sight of the counter at zero that a clean return goes back to.
  lemma {:induction false} ClosedBy(states: seq<State>, labels: seq<Label>, r: nat) returns (c: nat, z: nat)
    requires IsRun(states, labels) && r <= |labels| && states[r].closing.SeenZero?
    ensures c < z < r && labels[c].CallShutdown? && labels[z].SeeZero?
  {
    if labels[r - 1].SeeZero? {
      z := r - 1;
      c := CalledBy(states, labels, z);
    } else {
      c, z := ClosedBy(states, labels, r - 1);
    }
  }

  // When Shutdown returns without an error, every delivery under way at its call has
  // ended; those still under way are exactly the ones set off since the counter was seen
  // at zero that have not ended.
  lemma CleanReturn(states: seq<State>, labels: seq<Label>, r: nat) returns (c: nat, z: nat)
    requires IsRun(states, labels) && r < |labels| && labels[r] == Return(true)
    ensures c < z < r && labels[c].CallShutdown? && labels[z].SeeZero?
    ensures forall d | d in states[c].active :: exists k :: c <= k < z && Ended(labels[k], d)
    ensures forall d :: d in states[r].active <==> SetOff(labels, z, r, d)
  {
    c, z := ClosedBy(states, labels, r);
    RunInv(states, labels, z);
    assert states[z].active == map[];
    forall d | d in states[c].active ensures exists k :: c <= k < z && Ended(labels[k], d) {
      EndedBetween(states, labels, c, z, d);
    }
    forall d ensures d in states[r].active <==> SetOff(labels, z, r, d) {
      ActiveSince(states, labels, z, r, d);
    }
  }

  // A report just answered can set off a delivery in that gap: it is left behind.
  lemma LateDeliveryIsLeft(e: Uuid, url: string)
    requires url != ""
    ensures exists states: seq<State>, labels: seq<Label> ::
      IsRun(states, labels) && labels == [CallShutdown, SeeZero, Deliver(1, e, Some(url)), Return(true)]
      && 1 in states[4].active && states[4].closing == Returned(true)
  {
    var column := map[e := Some(AwaitingDelivery)];
    var labels := [CallShutdown, SeeZero, Deliver(1, e, Some(url)), Return(true)];
    var late := map[1 := Delivery(e, Queued)];
    var states := [Init(column), State(map[], 0, 0, column, Called), State(map[], 0, 0, column, SeenZero),
                   State(late, 0, 1, column, SeenZero), State(late, 0, 1, column, Returned(true))];
    forall i | 0 <= i < 4 ensures Enabled(states[i], labels[i]) && states[i + 1] == Next(states[i], labels[i]) {
      assert i == 0 || i == 1 || i == 2 || i == 3;
    }
    assert IsRun(states, labels);
  }

  // ---------------------------------------------------------------------
  // What the column says in the end
  // ---------------------------------------------------------------------

  // Step `i` writes the outcome of a delivery of `e`.
  ghost predicate Writes(states: seq<State>, labels: seq<Label>, i: nat, e: Uuid)
    requires IsRun(states, labels) && i < |labels|
  {
    labels[i].Record? && labels[i].committed && states[i].active[labels[i].d].e == e
  }

  // Delivery `d` posted at step `j`, and has been waiting to write the outcome since then.
  ghost predicate PostedAt(states: seq<State>, labels: seq<Label>, j: nat, i: nat, d: nat)
    requires IsRun(states, labels) && j < i <= |labels|
  {
    && labels[j].Post? && labels[j].d == d
    && forall k | j < k <= i ::
         d in states[k].active && states[k].active[d].phase == Recording(Succeeds(labels[j].posts))
  }

  lemma {:induction false} OutcomeOfPosts(states: seq<State>, labels: seq<Label>, i: nat, d: nat)
    requires IsRun(states, labels) && i <= |labels|
    requires d in states[i].active && states[i].active[d].phase.Recording?
    ensures exists j :: 0 <= j < i && PostedAt(states, labels, j, i, d)
  {
    if labels[i - 1].Post? && labels[i - 1].d == d {
      assert PostedAt(states, labels, i - 1, i, d);
    } else {
      OutcomeOfPosts(states, labels, i - 1, d);
      var j :| 0 <= j < i - 1 && PostedAt(states, labels, j, i - 1, d);
      assert PostedAt(states, labels, j, i, d);
    }
  }

  // The last write of `e` before step `n` is step `i`, for a delivery that posted at step `j`.
  ghost predicate LastWrite(states: seq<State>, labels: seq<Label>, j: nat, i: nat, n: nat, e: Uuid)
    requires IsRun(states, labels) && j < i < n <= |labels|
  {
    && Writes(states, labels, i, e)
    && PostedAt(states, labels, j, i, labels[i].d)
    && forall k | i < k < n :: !Writes(states, labels, k, e)
  }

  lemma ColumnStep(s: State, l: Label, s': State, e: Uuid)
    requires Enabled(s, l) && s' == Next(s, l) && e in s.column
    ensures e in s'.column
    ensures s'.column[e] == if l.Record? && l.committed && s.active[l.d].e == e
                            then Verdict(s.active[l.d].phase.delivered)
                            else s.column[e]
  {
  }

  ghost predicate NoWrites(states: seq<State>, labels: seq<Label>, n: nat, e: Uuid)
    requires IsRun(states, labels) && n <= |labels|
  {
    forall i | 0 <= i < n :: !Writes(states, labels, i, e)
  }

  // After `n` steps the column tells the outcome of the delivery that wrote last.
  ghost predicate Tells(states: seq<State>, labels: seq<Label>, n: nat, e: Uuid)
    requires IsRun(states, labels) && n <= |labels|
  {
    exists j, i :: 0 <= j < i < n && LastWrite(states, labels, j, i, n, e)
                && e in states[n].column && states[n].column[e] == Verdict(Succeeds(labels[j].posts))
  }

  lemma TellsNow(states: seq<State>, labels: seq<Label>, n: nat, e: Uuid)
    requires IsRun(states, labels) && 0 < n <= |labels| && Writes(states, labels, n - 1, e) && e in states[n - 1].column
    ensures Tells(states, labels, n, e)
  {
    ColumnStep(states[n - 1], labels[n - 1], states[n], e);
    OutcomeOfPosts(states, labels, n - 1, labels[n - 1].d);
    var j :| 0 <= j < n - 1 && PostedAt(states, labels, j, n - 1, labels[n - 1].d);
    assert LastWrite(states, labels, j, n - 1, n, e);
  }

  lemma NotSince(states: seq<State>, labels: seq<Label>, j: nat, i: nat, n: nat, e: Uuid)
    requires IsRun(states, labels) && j < i < n < |labels|
    requires LastWrite(states, labels, j, i, n, e) && !Writes(states, labels, n, e)
    ensures LastWrite(states, labels, j, i, n + 1, e)
  {
  }

  lemma TellsStill(states: seq<State>, labels: seq<Label>, n: nat, e: Uuid)
    requires IsRun(states, labels) && n < |labels| && !Writes(states, labels, n, e)
    requires Tells(states, labels, n, e)
    ensures Tells(states, labels, n + 1, e)
  {
    var j, i :| 0 <= j < i < n && LastWrite(states, labels, j, i, n, e)
                && e in states[n].column && states[n].column[e] == Verdict(Succeeds(labels[j].posts));
    NotSince(states, labels, j, i, n, e);
    ColumnStep(states[n], labels[n], states[n + 1], e);
  }

  // The column is what submission wrote until the first write, and after that the outcome
  // of the posts of that delivery whose write came last, whichever report it was for.
  lemma {:induction false} ColumnIsLastWrite(states: seq<State>, labels: seq<Label>, n: nat, e: Uuid)
    requires IsRun(states, labels) && n <= |labels| && e in states[0].column
    ensures e in states[n].column
    ensures if NoWrites(states, labels, n, e) then states[n].column[e] == states[0].column[e]
            else Tells(states, labels, n, e)
  {
    if n > 0 {
      ColumnIsLastWrite(states, labels, n - 1, e);
      ColumnStep(states[n - 1], labels[n - 1], states[n], e);
      if Writes(states, labels, n - 1, e) {
        TellsNow(states, labels, n, e);
      } else if NoWrites(states, labels, n - 1, e) {
        assert NoWrites(states, labels, n, e);
      } else {
        TellsStill(states, labels, n - 1, e);
      }
    }
  }

  // Two reports of one execution set off a delivery each; the first gets through.
  function Race(e: Uuid, url: string, good: nat -> Post, bad: nat -> Post): seq<Label> {
    [Deliver(1, e, Some(url)), Deliver(2, e, Some(url)), Acquire(1), Acquire(2),
     Post(1, good), Post(2, bad), Record(1, true), Record(2, true)]
  }

  ghost function RaceStates(e: Uuid, good: nat -> Post, bad: nat -> Post): seq<State> {
    var before, after := map[e := Some(AwaitingDelivery)], map[e := Some(Delivered)];
    [Init(before),
     State(map[1 := Delivery(e, Queued)], 0, 1, before, NotCalled),
     State(map[1 := Delivery(e, Queued), 2 := Delivery(e, Queued)], 0, 2, before, NotCalled),
     State(map[1 := Delivery(e, Posting), 2 := Delivery(e, Queued)], 1, 2, before, NotCalled),
     State(map[1 := Delivery(e, Posting), 2 := Delivery(e, Posting)], 2, 2, before, NotCalled),
     State(map[1 := Delivery(e, Recording(true)), 2 := Delivery(e, Posting)], 2, 2, before, NotCalled),
     State(map[1 := Delivery(e, Recording(true)), 2 := Delivery(e, Recording(false))], 2, 2, before, NotCalled),
     State(map[2 := Delivery(e, Recording(false))], 1, 1, after, NotCalled),
     State(map[], 0, 0, map[e := Some(Undelivered)], NotCalled)]
  }

  lemma RaceStarts(e: Uuid, url: string, good: nat -> Post, bad: nat -> Post, i: nat)
    requires i < 4 && url != ""
    ensures var states, labels := RaceStates(e, good, bad), Race(e, url, good, bad);
            Enabled(states[i], labels[i]) && states[i + 1] == Next(states[i], labels[i])
  {
    assert i == 0 || i == 1 || i == 2 || i == 3;
    var states, labels := RaceStates(e, good, bad), Race(e, url, good, bad);
    assert states[i + 1].active == Next(states[i], labels[i]).active;
  }

  lemma RaceEnds(e: Uuid, url: string, good: nat -> Post, bad: nat -> Post, i: nat)
    requires 4 <= i < 8 && url != "" && Succeeds(good) && !Succeeds(bad)
    ensures var states, labels := RaceStates(e, good, bad), Race(e, url, good, bad);
            Enabled(states[i], labels[i]) && states[i + 1] == Next(states[i], labels[i])
  {
    assert i == 4 || i == 5 || i == 6 || i == 7;
    var states, labels := RaceStates(e, good, bad), Race(e, url, good, bad);
    assert states[i + 1].active == Next(states[i], labels[i]).active;
  }

  // Its callback has been delivered and that has been written down, and in the end the
  // execution says FAILED.
  lemma FailureOverwritesDelivery(e: Uuid, url: string, good: nat -> Post, bad: nat -> Post)
    requires url != "" && Success(good(0)) && GivesUp(bad(0))
    ensures var states, labels := RaceStates(e, good, bad), Race(e, url, good, bad);
            && IsRun(states, labels) && Succeeds(good)
            && states[7].column[e] == Some(Delivered) && states[8].column[e] == Some(Undelivered)
  {
    FirstSuccess(good, 0);
    assert !Succeeds(bad);
    var states, labels := RaceStates(e, good, bad), Race(e, url, good, bad);
    forall i | 0 <= i < 8 ensures Enabled(states[i], labels[i]) && states[i + 1] == Next(states[i], labels[i]) {
      if i < 4 { RaceStarts(e, url, good, bad, i); } else { RaceEnds(e, url, good, bad, i); }
    }
  }

  // ---------------------------------------------------------------------
  // Submission and delivery agree
  // ---------------------------------------------------------------------

  // The status a submission writes is PENDING exactly when the reports on the execution
  // will set off deliveries.
  lemma PendingExactlyWhenDelivered(job: Stores.Job, req: Stores.RunRequest, s: State, d: nat, e: Uuid)
    requires Enabled(s, Deliver(d, e, Stores.CallbackFor(job, req).url))
    ensures var c := Stores.CallbackFor(job, req);
            c.status == Some(AwaitingDelivery) <==> d in Next(s, Deliver(d, e, c.url)).active
  {
  }
}
