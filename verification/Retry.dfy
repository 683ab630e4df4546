/**
 The worker's retrying HTTP helper, and the heartbeat built on it. Times are in
 nanoseconds, as Go durations are.
 */
module Retry {
  import opened Tables

  const HTTP_RETRIES: nat := 5
  const BASE_BACKOFF: Time := 1 * SECOND
  const BACKOFF_CAP: Time := 30 * SECOND
  const CLIENT_TIMEOUT: Time := 5 * SECOND
  const HEARTBEAT_INTERVAL: Time := 120 * SECOND

  // 31 s of waiting with a fifth of jitter: 37.2 s. With six requests: 67.2 s.
  const LONGEST_WAIT: Time := 31 * SECOND + 31 * SECOND / 5
  const LONGEST_CALL: Time := LONGEST_WAIT + 6 * CLIENT_TIMEOUT

  datatype Response = Unbuildable | NetworkError | Answer(status: int)

  datatype Outcome = Accepted(status: int) | Refused(status: int) | BadRequest | Cancelled | Exhausted

  // Server errors and 429 (section 4 of RFC 6585) are worth another try, and so is a
  // lost connection; any other answer settles the call (section 15 of RFC 9110).
  predicate Retriable(r: Response) {
    r.NetworkError? || (r.Answer? && (r.status >= 500 || r.status == 429))
  }

  function Verdict(r: Response): Outcome
    requires !Retriable(r)
  {
    if r.Unbuildable? then BadRequest
    else if r.status >= 400 then Refused(r.status)
    else Accepted(r.status)
  }

  // The wait before attempt `a`, jitter aside.
  function Wait(a: nat): Time
    requires a >= 1
  {
    if BASE_BACKOFF * Pow2(a - 1) > BACKOFF_CAP then BACKOFF_CAP else BASE_BACKOFF * Pow2(a - 1)
  }

  // What the outside world does to one call: the answer to each attempt, how long it
  // takes, when in that time the controller reads its clock, the jitter drawn before
  // the attempt, and whether the context ends in that wait.
  datatype World = World(answer: nat -> Response, took: nat -> Time, served: nat -> Time,
                         jitter: nat -> Time, cancelled: nat -> bool)

  // Jitter is at most a fifth of the wait; a request ends with the client timeout.
  ghost predicate Plausible(w: World) {
    && (forall a: nat :: a >= 1 ==> 0 <= w.jitter(a) && 5 * w.jitter(a) <= Wait(a))
    && (forall a: nat :: 0 <= w.served(a) <= w.took(a) <= CLIENT_TIMEOUT)
  }

  // Attempt `a` is never made, or settles the call.
  predicate Stops(w: World, a: nat) {
    (a >= 1 && w.cancelled(a)) || !Retriable(w.answer(a))
  }

  function Waits(n: nat): Time {
    if n == 0 then 0 else Waits(n - 1) + Wait(n)
  }

  lemma WaitsTotal(n: nat)
    requires n <= HTTP_RETRIES
    ensures 0 <= Waits(n) <= 31 * SECOND && Waits(HTTP_RETRIES) == 31 * SECOND
  {
    assert Wait(1) == 1 * SECOND && Wait(2) == 2 * SECOND && Wait(3) == 4 * SECOND;
    assert Wait(4) == 8 * SECOND && Wait(5) == 16 * SECOND;
    assert Waits(1) == 1 * SECOND && Waits(2) == 3 * SECOND && Waits(3) == 7 * SECOND;
    assert Waits(4) == 15 * SECOND && Waits(5) == 31 * SECOND;
  }

  // `a` is the first attempt that is not made or settles the call.
  ghost predicate FirstStop(w: World, a: int) {
    0 <= a <= HTTP_RETRIES && Stops(w, a) && forall b | 0 <= b < a :: !Stops(w, b)
  }

  ghost predicate EndsAt(w: World, a: nat, out: Outcome, sent: nat)
    requires Stops(w, a)
  {
    if a >= 1 && w.cancelled(a) then out == Cancelled && sent == a
    else out == Verdict(w.answer(a)) && sent == if out.BadRequest? then a else a + 1
  }

  // The call ends at the first attempt that is not made or settles it.
  ghost predicate Settled(w: World, out: Outcome, sent: nat) {
    exists a :: FirstStop(w, a) && EndsAt(w, a, out, sent)
  }

  // The call goes through: some attempt is the first to settle it, with success.
  ghost predicate GoesThrough(w: World) {
    exists a :: FirstStop(w, a) && !(a >= 1 && w.cancelled(a)) && Verdict(w.answer(a)).Accepted?
  }

  lemma StopTells(w: World, a: nat, out: Outcome, sent: nat)
    requires FirstStop(w, a) && EndsAt(w, a, out, sent)
    ensures !out.Exhausted? && (out.Accepted? <==> GoesThrough(w))
    ensures Settled(w, out, sent)
  {
    forall b | FirstStop(w, b) ensures b == a {
      assert !(b < a);
      assert !(a < b);
    }
  }

  // Read off the answers alone: attempts 0..k-1 were made and met a lost connection, 429 or
  // a server error.
  ghost predicate AllTransient(w: World, k: int) {
    forall b | 0 <= b < k ::
      && (w.answer(b).NetworkError?
          || (w.answer(b).Answer? && (w.answer(b).status == 429 || w.answer(b).status >= 500)))
      && (b >= 1 ==> !w.cancelled(b))
  }

  // What the call comes to, by what attempt k, the first that differs, has met.
  ghost predicate SaysSo(w: World, k: int, out: Outcome, sent: nat)
    requires 0 <= k
  {
    if k >= 1 && w.cancelled(k) then out == Cancelled && sent == k
    else
      match w.answer(k)
      case Unbuildable => out == BadRequest && sent == k
      case NetworkError => true
      case Answer(s) =>
        && (s < 400 ==> out == Accepted(s) && sent == k + 1)
        && (400 <= s < 500 && s != 429 ==> out == Refused(s) && sent == k + 1)
  }

  ghost predicate OutcomeOfAnswers(w: World, out: Outcome, sent: nat) {
    && (forall k | 0 <= k <= 5 && AllTransient(w, k) :: SaysSo(w, k, out, sent))
    && (out.Exhausted? <==> AllTransient(w, 6))
    && (out.Exhausted? ==> sent == 6)
    && (out.Refused? ==> 400 <= out.status < 500 && out.status != 429)
    && (out.Accepted? ==> out.status < 400)
  }

  lemma TransientIsNoStop(w: World, k: int)
    requires 0 <= k <= HTTP_RETRIES + 1
    ensures AllTransient(w, k) <==> forall b | 0 <= b < k :: !Stops(w, b)
  {
    forall b | 0 <= b < k
      ensures !Stops(w, b) <==>
                && (w.answer(b).NetworkError?
                    || (w.answer(b).Answer? && (w.answer(b).status == 429 || w.answer(b).status >= 500)))
                && (b >= 1 ==> !w.cancelled(b))
    {
    }
  }

  lemma SettledSaysSo(w: World, a: nat, out: Outcome, sent: nat)
    requires FirstStop(w, a) && EndsAt(w, a, out, sent)
    ensures OutcomeOfAnswers(w, out, sent)
  {
    forall k | 0 <= k <= 6 ensures AllTransient(w, k) <==> forall b | 0 <= b < k :: !Stops(w, b) {
      TransientIsNoStop(w, k);
    }
    forall k | 0 <= k <= 5 && AllTransient(w, k) ensures SaysSo(w, k, out, sent) {
      assert a < k ==> !Stops(w, a);
      assert k < a ==> !Stops(w, k);
    }
    assert !AllTransient(w, 6);
  }

  lemma NeverSettled(w: World)
    requires forall a | 0 <= a <= HTTP_RETRIES :: !Stops(w, a)
    ensures OutcomeOfAnswers(w, Exhausted, 6)
  {
    forall k | 0 <= k <= 6 ensures AllTransient(w, k) { TransientIsNoStop(w, k); }
    forall k | 0 <= k <= 5 ensures SaysSo(w, k, Exhausted, 6) { assert !Stops(w, k); }
  }

  // The heartbeat has reached the controller: it says so with a status below 400 after
  // nothing but transient answers.
  ghost predicate GetsThrough(w: World) {
    exists k :: 0 <= k <= 5 && AllTransient(w, k) && !(k >= 1 && w.cancelled(k))
             && w.answer(k).Answer? && w.answer(k).status < 400
  }

  lemma GoesThroughIs(w: World)
    ensures GoesThrough(w) <==> GetsThrough(w)
  {
    forall k | 0 <= k <= 5 ensures AllTransient(w, k) <==> forall b | 0 <= b < k :: !Stops(w, b) {
      TransientIsNoStop(w, k);
    }
    if GoesThrough(w) {
      var a :| FirstStop(w, a) && !(a >= 1 && w.cancelled(a)) && Verdict(w.answer(a)).Accepted?;
      assert AllTransient(w, a);
    }
    if GetsThrough(w) {
      var k :| 0 <= k <= 5 && AllTransient(w, k) && !(k >= 1 && w.cancelled(k))
               && w.answer(k).Answer? && w.answer(k).status < 400;
      assert FirstStop(w, k);
    }
  }

  // The call ends at the first attempt that is not made or settles it, or after six that do not.
  ghost predicate Ends(w: World, out: Outcome, sent: nat) {
    && (out.Exhausted? ==> sent == HTTP_RETRIES + 1 && forall a | 0 <= a <= HTTP_RETRIES :: !Stops(w, a))
    && (!out.Exhausted? ==> Settled(w, out, sent))
    && (out.Accepted? <==> GoesThrough(w))
  }

  lemma EndTold(w: World, a: nat, out: Outcome, sent: nat)
    requires FirstStop(w, a) && EndsAt(w, a, out, sent)
    ensures Ends(w, out, sent) && OutcomeOfAnswers(w, out, sent) && (out.Accepted? <==> GetsThrough(w))
  {
    StopTells(w, a, out, sent);
    SettledSaysSo(w, a, out, sent);
    GoesThroughIs(w);
  }

  lemma NoEndTold(w: World)
    requires forall a | 0 <= a <= HTTP_RETRIES :: !Stops(w, a)
    ensures Ends(w, Exhausted, 6) && OutcomeOfAnswers(w, Exhausted, 6) && !GetsThrough(w)
  {
    NeverSettled(w);
    GoesThroughIs(w);
  }

  // What the call has slept in its first `n` waits: 1, 2, 4, 8 and 16 s, each with its jitter.
  function Slept(w: World, n: nat): Time
    requires n <= 5
  {
    if n == 0 then 0 else Slept(w, n - 1) + [1, 2, 4, 8, 16][n - 1] * SECOND + w.jitter(n)
  }

  // What its first `n` requests have taken.
  function Spent(w: World, n: nat): Time {
    if n == 0 then 0 else Spent(w, n - 1) + w.took(n - 1)
  }

  lemma WaitsDouble(a: nat)
    requires 1 <= a <= 5
    ensures Wait(a) == [1, 2, 4, 8, 16][a - 1] * SECOND
  {
    assert Pow2(0) == 1 && Pow2(1) == 2 && Pow2(2) == 4 && Pow2(3) == 8 && Pow2(4) == 16;
    assert a == 1 || a == 2 || a == 3 || a == 4 || a == 5;
  }

  lemma {:induction false} SleptBounded(w: World, n: nat)
    requires Plausible(w) && n <= 5
    ensures Waits(n) <= Slept(w, n) && 5 * Slept(w, n) <= 6 * Waits(n)
    ensures 0 <= Slept(w, n) <= LONGEST_WAIT && (n == 5 ==> Slept(w, n) >= 31 * SECOND)
  {
    if n > 0 {
      SleptBounded(w, n - 1);
      WaitsDouble(n);
    }
    WaitsTotal(n);
  }

  lemma {:induction false} SpentBounded(w: World, n: nat)
    requires Plausible(w)
    ensures 0 <= Spent(w, n) <= n * CLIENT_TIMEOUT
  {
    if n > 0 {
      SpentBounded(w, n - 1);
    }
  }

  // The waits made before attempt `a` is reached.
  function WaitsBefore(a: nat): nat {
    if a == 0 then 0 else a - 1
  }

  method NextWait(w: World, attempt: nat) returns (backoff: Time)
    requires Plausible(w) && attempt >= 1
    ensures backoff == Wait(attempt) + w.jitter(attempt)
  {
    backoff := BASE_BACKOFF * Pow2(attempt - 1);
    if backoff > BACKOFF_CAP {
      backoff := BACKOFF_CAP;
    }
    backoff := backoff + w.jitter(attempt);
  }

  // The wait before attempt `a`: none before the first; `cut` when the context ends in it.
  method Pause(w: World, a: nat, before: Time) returns (cut: bool, slept: Time)
    requires Plausible(w) && a <= 5 && before == Slept(w, WaitsBefore(a))
    ensures cut <==> a >= 1 && w.cancelled(a)
    ensures slept == if cut then before else Slept(w, a)
    ensures 0 <= slept <= LONGEST_WAIT
  {
    SleptBounded(w, WaitsBefore(a));
    cut, slept := false, before;
    if a > 0 {
      var backoff := NextWait(w, a);
      if w.cancelled(a) {
        return true, slept;
      }
      WaitsDouble(a);
      slept := slept + backoff;
    }
    SleptBounded(w, a);
  }

  // One request: None when it is worth another try.
  method Send(w: World, attempt: nat) returns (verdict: Option<Outcome>, took: Time, served: Time)
    requires Plausible(w)
    ensures verdict.None? <==> Retriable(w.answer(attempt))
    ensures verdict.Some? ==> verdict.value == Verdict(w.answer(attempt))
    ensures if w.answer(attempt).Unbuildable? then took == served == 0
            else took == w.took(attempt) && served == w.served(attempt)
    ensures 0 <= served <= took <= CLIENT_TIMEOUT
  {
    if w.answer(attempt).Unbuildable? {
      return Some(BadRequest), 0, 0;
    }
    took, served := w.took(attempt), w.served(attempt);
    if w.answer(attempt).NetworkError? {
      return None, took, served;
    }
    var status := w.answer(attempt).status;
    if status >= 500 || status == 429 {
      return None, took, served;
    }
    if status >= 400 {
      return Some(Refused(status)), took, served;
    }
    verdict := Some(Accepted(status));
  }

  // One attempt with the wait before it: None when the call is not settled yet.
  method Try(w: World, a: nat, before: Time)
    returns (settled: Option<Outcome>, sent: nat, slept: Time, took: Time, served: Time)
    requires Plausible(w) && a <= 5 && before == Slept(w, WaitsBefore(a))
    ensures settled.Some? <==> Stops(w, a)
    ensures settled.Some? ==> EndsAt(w, a, settled.value, sent) && sent <= a + 1
    ensures settled.None? ==> sent == a + 1
    ensures slept == if settled == Some(Cancelled) then before else Slept(w, a)
    ensures took == if sent == a + 1 then w.took(a) else 0
    ensures 0 <= slept <= LONGEST_WAIT && 0 <= served <= took <= CLIENT_TIMEOUT
  {
    var cut;
    cut, slept := Pause(w, a, before);
    if cut {
      return Some(Cancelled), a, slept, 0, 0;
    }
    settled, took, served := Send(w, a);
    sent := if settled == Some(BadRequest) then a else a + 1;
  }

  // How many waits a call with this outcome has made.
  function WaitsMade(out: Outcome, sent: nat): nat {
    if out.BadRequest? then sent else WaitsBefore(sent)
  }

  // None of the first `n` attempts has settled the call.
  ghost predicate Unsettled(w: World, n: nat) {
    forall a | 0 <= a < n :: !Stops(w, a)
  }

  lemma StillUnsettled(w: World, n: nat)
    requires Unsettled(w, n) && !Stops(w, n)
    ensures Unsettled(w, n + 1)
  {
  }

  lemma TimesBounded(w: World, waits: nat, sent: nat)
    requires Plausible(w) && waits <= 5 && sent <= 6
    ensures 0 <= Slept(w, waits) <= LONGEST_WAIT && 0 <= Spent(w, sent) <= 6 * CLIENT_TIMEOUT
    ensures waits == 5 ==> Slept(w, waits) >= 31 * SECOND
  {
    SleptBounded(w, waits);
    SpentBounded(w, sent);
  }

  lemma Concluded(w: World, a: nat, out: Outcome, sent: nat)
    requires Plausible(w) && a <= 5 && Unsettled(w, a) && Stops(w, a) && EndsAt(w, a, out, sent)
    ensures sent <= 6 && (out.BadRequest? ==> sent <= 5) && !out.Exhausted?
    ensures Ends(w, out, sent) && OutcomeOfAnswers(w, out, sent) && (out.Accepted? <==> GetsThrough(w))
    ensures WaitsMade(out, sent) == if out.Cancelled? then WaitsBefore(a) else a
    ensures 0 <= Slept(w, WaitsMade(out, sent)) <= LONGEST_WAIT && 0 <= Spent(w, sent) <= 6 * CLIENT_TIMEOUT
  {
    EndTold(w, a, out, sent);
    TimesBounded(w, WaitsMade(out, sent), sent);
  }

  // Sends at most six requests and stops at the first attempt that settles the call;
  // gives up after six retriable answers. `slept` is the time waited in full between
  // attempts, `spent` the time the requests took; at `counted` into the call the
  // controller read its clock for the last request.
  method DoWithRetry(w: World) returns (out: Outcome, sent: nat, slept: Time, spent: Time, counted: Time)
    requires Plausible(w)
    ensures sent <= 6 && (out.BadRequest? ==> sent <= 5)
    ensures Ends(w, out, sent)
    ensures OutcomeOfAnswers(w, out, sent) && (out.Accepted? <==> GetsThrough(w))
    ensures slept == Slept(w, WaitsMade(out, sent)) && spent == Spent(w, sent)
    ensures 0 <= slept <= LONGEST_WAIT
    ensures out.Exhausted? ==> slept >= 31 * SECOND
    ensures 0 <= spent <= 6 * CLIENT_TIMEOUT
    ensures 0 <= counted <= slept + spent
  {
    sent, slept, spent, counted := 0, 0, 0, 0;
    for attempt := 0 to HTTP_RETRIES + 1
      invariant sent == attempt && Unsettled(w, attempt)
      invariant slept == Slept(w, WaitsBefore(attempt)) && spent == Spent(w, attempt)
      invariant 0 <= counted <= slept + spent
    {
      TimesBounded(w, attempt, attempt);
      var settled, took, served;
      settled, sent, slept, took, served := Try(w, attempt, slept);
      counted := slept + spent + served;
      spent := spent + took;
      if settled.Some? {
        Concluded(w, attempt, settled.value, sent);
        return settled.value, sent, slept, spent, counted;
      }
      StillUnsettled(w, attempt);
    }
    TimesBounded(w, 5, 6);
    out := Exhausted;
    NoEndTold(w);
  }

  // The worst case: five server errors and a success, every request as slow as the client
  // lets it be and every jitter the largest.
  const WORST := World(a => if a < 5 then Answer(500) else Answer(200), a => 5 * SECOND, a => 5 * SECOND,
                       a => if a >= 1 then Wait(a) / 5 else 0, a => false)

  // The bound of 67.2 s on a call that goes through is reached.
  lemma LongestCallIsReached()
    ensures Plausible(WORST) && GetsThrough(WORST) && OutcomeOfAnswers(WORST, Accepted(200), 6)
    ensures 10 * (Slept(WORST, 5) + Spent(WORST, 6)) == 672 * SECOND && 10 * LONGEST_CALL == 672 * SECOND
  {
    forall a | 1 <= a <= 5 ensures WORST.jitter(a) == [1, 2, 4, 8, 16][a - 1] * SECOND / 5 { WaitsDouble(a); }
    assert Spent(WORST, 6) == 30 * SECOND by {
      assert Spent(WORST, 1) == 5 * SECOND && Spent(WORST, 2) == 10 * SECOND && Spent(WORST, 3) == 15 * SECOND;
      assert Spent(WORST, 4) == 20 * SECOND && Spent(WORST, 5) == 25 * SECOND;
    }
    assert 5 * Slept(WORST, 1) == 6 * SECOND && 5 * Slept(WORST, 2) == 18 * SECOND;
    assert 5 * Slept(WORST, 3) == 42 * SECOND && 5 * Slept(WORST, 4) == 90 * SECOND;
    assert 5 * Slept(WORST, 5) == 186 * SECOND;
    assert FirstStop(WORST, 5) && EndsAt(WORST, 5, Accepted(200), 6);
    EndTold(WORST, 5, Accepted(200), 6);
  }

  // ---------------------------------------------------------------------
  // Heartbeats
  // ---------------------------------------------------------------------

  // An extension: the moment on the controller's clock it is counted from, and the
  // moment its call has returned.
  datatype Beat = Beat(counted: Time, done: Time)

  // The i-th tick of the heartbeat, counted from zero.
  function TickTime(start: Time, i: nat): Time {
    start + (i + 1) * HEARTBEAT_INTERVAL
  }

  // What the loop guarantees of its extensions.
  ghost predicate InTime(start: Time, beats: seq<Option<Beat>>) {
    forall i | 0 <= i < |beats| && beats[i].Some? ::
      TickTime(start, i) <= beats[i].value.counted <= beats[i].value.done <= TickTime(start, i) + LONGEST_CALL
  }

  // The heartbeat loop over `rounds` ticks from `start`: one extension for every call that
  // went through. A call always ends before the next tick.
  method RunHeartbeat(start: Time, rounds: nat, calls: nat -> World) returns (beats: seq<Option<Beat>>)
    requires forall i: nat :: Plausible(calls(i))
    ensures |beats| == rounds && InTime(start, beats)
    ensures forall i | 0 <= i < rounds && beats[i].Some? :: beats[i].value.done < TickTime(start, i + 1)
    ensures forall i | 0 <= i < rounds && beats[i].Some? ::
              && start + 120 * (i + 1) * SECOND <= beats[i].value.counted
              && beats[i].value.counted <= beats[i].value.done < start + 120 * (i + 2) * SECOND
    ensures forall i | 0 <= i < rounds :: beats[i].Some? <==> GetsThrough(calls(i))
  {
    beats := [];
    for i := 0 to rounds
      invariant |beats| == i && InTime(start, beats)
      invariant forall k | 0 <= k < i :: beats[k].Some? <==> GetsThrough(calls(k))
    {
      var out, sent, slept, spent, counted := DoWithRetry(calls(i));
      var tick := TickTime(start, i);
      beats := beats + [if out.Accepted? then Some(Beat(tick + counted, tick + slept + spent)) else None];
    }
  }

  // With no heartbeat between them but failed ones, the second of two extensions has
  // arrived at most 187.2 s after the first counts from, plus 120 s for each that failed.
  lemma GapBetweenExtensions(start: Time, beats: seq<Option<Beat>>, i: nat, j: nat)
    requires InTime(start, beats) && i < j < |beats| && beats[i].Some? && beats[j].Some?
    ensures 10 * (beats[j].value.done - beats[i].value.counted) <= (1872 + (j - i - 1) * 1200) * SECOND
  {
    assert (j + 1) * HEARTBEAT_INTERVAL == (i + 1) * HEARTBEAT_INTERVAL + (j - i) * HEARTBEAT_INTERVAL;
  }

  // Every heartbeat goes through, and the job's heartbeat started soon enough after its claim.
  ghost predicate Unbroken(claimed: Time, start: Time, beats: seq<Option<Beat>>) {
    && InTime(start, beats)
    && (forall i | 0 <= i < |beats| :: beats[i].Some?)
    && 10 * (start - claimed) < (3000 - 1872) * SECOND && claimed <= start
  }

  // What the lease counts from at time `t`: the claim, or the last extension that has arrived.
  function LeaseBase(claimed: Time, beats: seq<Option<Beat>>, t: Time): Time {
    if beats == [] then claimed
    else
      var last := beats[|beats| - 1];
      if last.Some? && last.value.done <= t then last.value.counted else LeaseBase(claimed, beats[..|beats| - 1], t)
  }

  // With the default interval and heartbeats that go through, the claim's lease of
  // 300 s and each later one are extended before they lapse, up to the next tick's deadline.
  lemma {:induction false} LeaseNeverLapses(claimed: Time, start: Time, beats: seq<Option<Beat>>, t: Time)
    requires Unbroken(claimed, start, beats)
    requires claimed <= t <= TickTime(start, |beats|) + LONGEST_CALL
    ensures LeaseBase(claimed, beats, t) <= t < LeaseBase(claimed, beats, t) + VISIBILITY_TIMEOUT
  {
    if beats != [] {
      var k := |beats| - 1;
      if beats[k].value.done > t {
        LeaseNeverLapses(claimed, start, beats[..k], t);
      } else {
        assert TickTime(start, k + 1) == TickTime(start, k) + HEARTBEAT_INTERVAL;
      }
    }
  }
}
