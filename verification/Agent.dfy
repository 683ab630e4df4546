/**
 The worker's pull loop and its job goroutines, interleaved step by step: a
 counting semaphore, a one-slot wake-up channel, a WaitGroup and a backoff.
 */
module Agent {
  import opened Tables
  import Retry
  import Stores

  datatype Config = Config(concurrency: int, pollInterval: Time, maxBackoff: Time, heartbeatInterval: Time)

  // A new agent keeps every positive setting and fills in the others one by one.
  function WithDefaults(c: Config): (d: Config)
    ensures d.concurrency >= 1 && d.pollInterval > 0 && d.maxBackoff > 0 && d.heartbeatInterval > 0
    ensures if c.concurrency >= 1 then d.concurrency == c.concurrency else d.concurrency == 1
    ensures if c.pollInterval > 0 then d.pollInterval == c.pollInterval else d.pollInterval == 1 * SECOND
    ensures if c.maxBackoff > 0 then d.maxBackoff == c.maxBackoff else d.maxBackoff == 30 * SECOND
    ensures if c.heartbeatInterval > 0 then d.heartbeatInterval == c.heartbeatInterval
            else d.heartbeatInterval == Retry.HEARTBEAT_INTERVAL
  {
    Config(if c.concurrency <= 0 then 1 else c.concurrency,
           if c.pollInterval <= 0 then 1 * SECOND else c.pollInterval,
           if c.maxBackoff <= 0 then 30 * SECOND else c.maxBackoff,
           if c.heartbeatInterval <= 0 then 120 * SECOND else c.heartbeatInterval)
  }

  // A job goroutine: its work, then its deferred calls in order.
  datatype Phase = Running | Triggering | Finishing

  // Where the poll loop is.
  datatype Loop =
    | Selecting
    | Counting                                    // wake-up received, len(sem) not read yet
    | Fetching(slots: nat, live: bool)            // `live`: requested before the context ended
    | Dispatching(slots: nat, total: nat, left: nat)
    | Draining
    | Stopped                                     // done is closed

  datatype State = State(
    loop: Loop,
    sem: nat,               // occupied slots
    wakeUp: bool,           // the token in the one-slot channel
    jobs: map<nat, Phase>,
    wg: nat,
    backoff: Time,
    cancelled: bool,        // the context has ended; the loop may not have seen it yet
    // What the loop does not store:
    fetches: nat,           // dequeue calls so far
    empties: nat,           // empty polls since the last non-empty one
    freed: nat,             // slots released since len(sem) was last read
    announced: nat          // of those, the ones whose trigger has finished
  )

  datatype Label =
    | Timer
    | TakeWakeUp
    | CountSlots
    | FetchFails
    | FetchReturns(items: nat)
    | Dispatch(j: nat)
    | EndDispatch
    | Release(j: nat)
    | Trigger(j: nat)
    | Finish(j: nat)
    | ContextEnds
    | Leave                 // the loop sees it
    | Drained

  function Min(a: Time, b: Time): Time {
    if a <= b then a else b
  }

  // One wake-up is put in the channel before the loop starts.
  function Init(c: Config): State {
    State(Selecting, 0, true, map[], 0, c.pollInterval, false, 0, 0, 0, 0)
  }

  // A fetch returns at most what the dequeue handler allows for the slots asked; one
  // requested after the context has ended fails. The select may take any case that is
  // ready, the end of the context or another.
  predicate Enabled(c: Config, s: State, l: Label) {
    match l
    case Timer => s.loop.Selecting?
    case TakeWakeUp => s.loop.Selecting? && s.wakeUp
    case CountSlots => s.loop.Counting?
    case FetchFails => s.loop.Fetching?
    case FetchReturns(items) => s.loop.Fetching? && s.loop.live && items <= Stores.HandlerLimit(s.loop.slots)
    case Dispatch(j) => s.loop.Dispatching? && s.loop.left > 0 && j !in s.jobs && s.sem < c.concurrency
    case EndDispatch => s.loop.Dispatching? && s.loop.left == 0
    case Release(j) => j in s.jobs && s.jobs[j].Running? && s.sem > 0
    case Trigger(j) => j in s.jobs && s.jobs[j].Triggering?
    case Finish(j) => j in s.jobs && s.jobs[j].Finishing? && s.wg > 0
    case ContextEnds => !s.cancelled
    case Leave => s.loop.Selecting? && s.cancelled
    case Drained => s.loop.Draining? && s.wg == 0
  }

  function Next(c: Config, s: State, l: Label): State
    requires Enabled(c, s, l)
  {
    match l
    case Timer => s.(wakeUp := true)
    case TakeWakeUp => s.(wakeUp := false, loop := Counting)
    case CountSlots =>
      var slots := c.concurrency - s.sem;
      s.(freed := 0, announced := 0,
         fetches := if slots <= 0 then s.fetches else s.fetches + 1,
         loop := if slots <= 0 then Selecting else Fetching(slots, !s.cancelled))
    case FetchFails => s.(loop := Selecting)
    case FetchReturns(items) =>
      if items == 0 then
        s.(loop := Selecting, backoff := Min(s.backoff * 2, c.maxBackoff), empties := s.empties + 1)
      else
        s.(loop := Dispatching(s.loop.slots, items, items), backoff := c.pollInterval, empties := 0)
    case Dispatch(j) =>
      s.(sem := s.sem + 1, wg := s.wg + 1, jobs := s.jobs[j := Phase.Running], loop := s.loop.(left := s.loop.left - 1))
    case EndDispatch => s.(loop := Selecting, wakeUp := s.wakeUp || s.loop.total < s.loop.slots)
    case Release(j) => s.(sem := s.sem - 1, jobs := s.jobs[j := Triggering], freed := s.freed + 1)
    case Trigger(j) => s.(wakeUp := true, jobs := s.jobs[j := Finishing], announced := s.announced + 1)
    case Finish(j) => s.(wg := s.wg - 1, jobs := s.jobs - {j})
    case ContextEnds => s.(cancelled := true)
    case Leave => s.(loop := Draining)
    case Drained => s.(loop := Stopped)
  }

  ghost predicate IsRun(c: Config, states: seq<State>, labels: seq<Label>) {
    && |states| == |labels| + 1
    && states[0] == Init(c)
    && forall i | 0 <= i < |labels| ::
         Enabled(c, states[i], labels[i]) && states[i + 1] == Next(c, states[i], labels[i])
  }

  function RunningJobs(s: State): set<nat> {
    set j | j in s.jobs && s.jobs[j].Running?
  }

  // The idle backoff after `k` empty polls.
  function Backoff(c: Config, k: nat): Time {
    if k == 0 then c.pollInterval else Min(c.pollInterval * Pow2(k), c.maxBackoff)
  }

  predicate Leaving(s: State) {
    s.loop.Draining? || s.loop.Stopped?
  }

  ghost predicate Inv(c: Config, s: State) {
    && s.sem == |RunningJobs(s)|
    && s.wg == |s.jobs|
    && s.sem <= c.concurrency
    && (s.loop.Fetching? ==> 1 <= s.loop.slots && s.sem + s.loop.slots <= c.concurrency)
    && (s.loop.Dispatching? ==> s.loop.left <= s.loop.total <= s.loop.slots && s.sem + s.loop.left <= c.concurrency)
    && (s.loop.Stopped? ==> s.jobs == map[])
    && (Leaving(s) ==> s.cancelled)
    && (s.announced > 0 ==> s.wakeUp || s.loop.Counting?)
    && (s.freed > 0 ==> s.wakeUp || s.loop.Counting? || exists j :: j in s.jobs && s.jobs[j].Triggering?)
    && s.backoff == Backoff(c, s.empties)
  }

  lemma BackoffStep(c: Config, k: nat)
    requires c.pollInterval > 0 && c.maxBackoff > 0
    ensures Min(Backoff(c, k) * 2, c.maxBackoff) == Backoff(c, k + 1)
  {
    assert c.pollInterval * Pow2(k + 1) == c.pollInterval * Pow2(k) * 2;
  }

  lemma JobsStep(s: State, s': State, j: nat)
    requires s'.jobs == s.jobs[j := Phase.Running] && j !in s.jobs
    ensures |RunningJobs(s')| == |RunningJobs(s)| + 1 && |s'.jobs| == |s.jobs| + 1
  {
    assert RunningJobs(s') == RunningJobs(s) + {j};
  }

  lemma ReleaseJobs(s: State, s': State, j: nat)
    requires j in s.jobs && s.jobs[j].Running? && s'.jobs == s.jobs[j := Triggering]
    ensures |RunningJobs(s')| == |RunningJobs(s)| - 1 && |s'.jobs| == |s.jobs|
  {
    assert RunningJobs(s') == RunningJobs(s) - {j};
    assert s'.jobs.Keys == s.jobs.Keys;
    assert |s'.jobs.Keys| == |s.jobs.Keys|;
  }

  lemma OtherJobs(s: State, s': State, j: nat)
    requires j in s.jobs && !s.jobs[j].Running?
    requires s'.jobs == s.jobs[j := Finishing] || s'.jobs == s.jobs - {j}
    ensures |RunningJobs(s')| == |RunningJobs(s)|
    ensures |s'.jobs| == if j in s'.jobs then |s.jobs| else |s.jobs| - 1
  {
    assert RunningJobs(s') == RunningJobs(s);
    if j in s'.jobs {
      assert s'.jobs.Keys == s.jobs.Keys;
    } else {
      assert s'.jobs.Keys == s.jobs.Keys - {j};
    }
    assert |s'.jobs.Keys| == |s'.jobs| && |s.jobs.Keys| == |s.jobs|;
  }

  // A trigger still to come is not lost when another job moves on.
  lemma StillTriggering(s: State, s': State, j: nat)
    requires forall i | i in s.jobs && i != j :: i in s'.jobs && s'.jobs[i] == s.jobs[i]
    requires j in s.jobs ==> !s.jobs[j].Triggering?
    requires exists i :: i in s.jobs && s.jobs[i].Triggering?
    ensures exists i :: i in s'.jobs && s'.jobs[i].Triggering?
  {
    var i :| i in s.jobs && s.jobs[i].Triggering?;
    assert i in s'.jobs && s'.jobs[i].Triggering?;
  }

  lemma DispatchKeeps(c: Config, s: State, j: nat, s': State)
    requires Inv(c, s) && Enabled(c, s, Dispatch(j)) && s' == Next(c, s, Dispatch(j))
    ensures Inv(c, s')
  {
    JobsStep(s, s', j);
    if exists i :: i in s.jobs && s.jobs[i].Triggering? { StillTriggering(s, s', j); }
  }

  lemma ReleaseKeeps(c: Config, s: State, j: nat, s': State)
    requires Inv(c, s) && Enabled(c, s, Release(j)) && s' == Next(c, s, Release(j))
    ensures Inv(c, s')
  {
    ReleaseJobs(s, s', j);
    assert s'.jobs[j].Triggering?;
  }

  lemma EndKeeps(c: Config, s: State, l: Label, s': State)
    requires Inv(c, s) && Enabled(c, s, l) && s' == Next(c, s, l) && (l.Trigger? || l.Finish?)
    ensures Inv(c, s')
  {
    OtherJobs(s, s', l.j);
    if l.Finish? && exists i :: i in s.jobs && s.jobs[i].Triggering? { StillTriggering(s, s', l.j); }
  }

  // Steps that leave the jobs alone.
  lemma LoopKeeps(c: Config, s: State, l: Label, s': State)
    requires c.concurrency >= 1 && c.pollInterval > 0 && c.maxBackoff > 0
    requires Inv(c, s) && Enabled(c, s, l) && s' == Next(c, s, l)
    requires !l.Dispatch? && !l.Release? && !l.Trigger? && !l.Finish?
    ensures Inv(c, s')
  {
    assert s'.jobs == s.jobs && RunningJobs(s') == RunningJobs(s);
    BackoffStep(c, s.empties);
  }

  lemma StepKeeps(c: Config, s: State, l: Label, s': State)
    requires c.concurrency >= 1 && c.pollInterval > 0 && c.maxBackoff > 0
    requires Inv(c, s) && Enabled(c, s, l) && s' == Next(c, s, l)
    ensures Inv(c, s')
  {
    match l {
      case Dispatch(j) => DispatchKeeps(c, s, j, s');
      case Release(j) => ReleaseKeeps(c, s, j, s');
      case Trigger(_) => EndKeeps(c, s, l, s');
      case Finish(_) => EndKeeps(c, s, l, s');
      case _ => LoopKeeps(c, s, l, s');
    }
  }

  lemma {:induction false} RunInv(c: Config, states: seq<State>, labels: seq<Label>, n: nat)
    requires c.concurrency >= 1 && c.pollInterval > 0 && c.maxBackoff > 0
    requires IsRun(c, states, labels) && n <= |labels|
    ensures Inv(c, states[n])
  {
    if n > 0 {
      RunInv(c, states, labels, n - 1);
      StepKeeps(c, states[n - 1], labels[n - 1], states[n]);
    }
  }

  // ---------------------------------------------------------------------
  // The same counts, read off the steps of the run
  // ---------------------------------------------------------------------

  // Empty polls since the last one that returned work.
  function EmptyPolls(labels: seq<Label>, n: nat): nat
    requires n <= |labels|
  {
    if n == 0 then 0
    else
      match labels[n - 1]
      case FetchReturns(items) => if items == 0 then EmptyPolls(labels, n - 1) + 1 else 0
      case _ => EmptyPolls(labels, n - 1)
  }

  // Slots released, and triggers finished, since the loop last counted its slots.
  function Releases(labels: seq<Label>, n: nat): nat
    requires n <= |labels|
  {
    if n == 0 || labels[n - 1].CountSlots? then 0
    else Releases(labels, n - 1) + if labels[n - 1].Release? then 1 else 0
  }

  function Triggers(labels: seq<Label>, n: nat): nat
    requires n <= |labels|
  {
    if n == 0 || labels[n - 1].CountSlots? then 0
    else Triggers(labels, n - 1) + if labels[n - 1].Trigger? then 1 else 0
  }

  lemma CountsStep(c: Config, s: State, l: Label, s': State)
    requires Enabled(c, s, l) && s' == Next(c, s, l)
    ensures s'.empties == if l.FetchReturns? then (if l.items == 0 then s.empties + 1 else 0) else s.empties
    ensures s'.freed == if l.CountSlots? then 0 else s.freed + if l.Release? then 1 else 0
    ensures s'.announced == if l.CountSlots? then 0 else s.announced + if l.Trigger? then 1 else 0
  {
  }

  lemma {:induction false} CountsAreRight(c: Config, states: seq<State>, labels: seq<Label>, n: nat)
    requires IsRun(c, states, labels) && n <= |labels|
    ensures states[n].empties == EmptyPolls(labels, n)
    ensures states[n].freed == Releases(labels, n) && states[n].announced == Triggers(labels, n)
  {
    if n > 0 {
      CountsAreRight(c, states, labels, n - 1);
      CountsStep(c, states[n - 1], labels[n - 1], states[n]);
    }
  }

  // ---------------------------------------------------------------------
  // What holds of every run of a new agent
  // ---------------------------------------------------------------------

  // The occupied slots are exactly the running jobs, at most the configured number;
  // a job still to be dispatched always finds a free slot, and a release never blocks.
  lemma ConcurrencyBounded(raw: Config, states: seq<State>, labels: seq<Label>, n: nat)
    requires IsRun(WithDefaults(raw), states, labels) && n <= |labels|
    ensures var c, s := WithDefaults(raw), states[n];
            && |RunningJobs(s)| == s.sem <= c.concurrency
            && (s.loop.Dispatching? && s.loop.left > 0 ==> s.sem < c.concurrency)
            && (forall j | j in s.jobs && s.jobs[j].Running? :: s.sem > 0)
  {
    RunInv(WithDefaults(raw), states, labels, n);
    var s := states[n];
    forall j | j in s.jobs && s.jobs[j].Running? ensures s.sem > 0 {
      assert j in RunningJobs(s);
    }
  }

  // A slot freed since the loop last counted is never forgotten: a wake-up is
  // waiting, the loop is about to count, or the job has yet to send its wake-up.
  // Once its trigger has finished, dropped or not, the wake-up is there.
  lemma NoLostWakeUp(raw: Config, states: seq<State>, labels: seq<Label>, n: nat)
    requires IsRun(WithDefaults(raw), states, labels) && n <= |labels|
    ensures var s := states[n];
            && (Triggers(labels, n) > 0 ==> s.wakeUp || s.loop.Counting?)
            && (Releases(labels, n) > 0 ==>
                  s.wakeUp || s.loop.Counting? || exists j :: j in s.jobs && s.jobs[j].Triggering?)
  {
    RunInv(WithDefaults(raw), states, labels, n);
    CountsAreRight(WithDefaults(raw), states, labels, n);
  }

  // After k empty polls the loop waits min(PollInterval * 2^k, MaxBackoff), and
  // PollInterval after work was found.
  lemma ExactBackoff(raw: Config, states: seq<State>, labels: seq<Label>, n: nat)
    requires IsRun(WithDefaults(raw), states, labels) && n <= |labels|
    ensures var c, k := WithDefaults(raw), EmptyPolls(labels, n);
            && (k == 0 ==> states[n].backoff == c.pollInterval)
            && (k >= 1 ==>
                  states[n].backoff == if c.pollInterval * Pow2(k) <= c.maxBackoff then c.pollInterval * Pow2(k)
                                       else c.maxBackoff)
  {
    RunInv(WithDefaults(raw), states, labels, n);
    CountsAreRight(WithDefaults(raw), states, labels, n);
  }

  // ---------------------------------------------------------------------
  // Polling goes on
  // ---------------------------------------------------------------------

  lemma WakeUpStep(c: Config, s: State, l: Label)
    requires Enabled(c, s, l)
    ensures s.wakeUp && !l.TakeWakeUp? ==> Next(c, s, l).wakeUp
    ensures l.Timer? || l.Trigger? ==> Next(c, s, l).wakeUp
    ensures l.EndDispatch? && s.loop.total < s.loop.slots ==> Next(c, s, l).wakeUp
  {
  }

  lemma {:induction false} WakeUpWaits(c: Config, states: seq<State>, labels: seq<Label>, m: nat, n: nat)
    requires IsRun(c, states, labels) && m <= n <= |labels| && states[m].wakeUp
    requires forall k | m <= k < n :: !labels[k].TakeWakeUp?
    ensures states[n].wakeUp
    decreases n - m
  {
    if m < n {
      WakeUpWaits(c, states, labels, m, n - 1);
      WakeUpStep(c, states[n - 1], labels[n - 1]);
    }
  }

  // The timer and every finished trigger leave a wake-up that waits until it is taken,
  // as does the start of the agent.
  lemma WakeUpsWait(raw: Config, states: seq<State>, labels: seq<Label>, i: nat, n: nat)
    requires IsRun(WithDefaults(raw), states, labels) && i < n <= |labels|
    requires forall k | i < k < n :: !labels[k].TakeWakeUp?
    ensures labels[i].Timer? || labels[i].Trigger? || (i == 0 && !labels[0].TakeWakeUp?) ==> states[n].wakeUp
  {
    var c := WithDefaults(raw);
    WakeUpStep(c, states[i], labels[i]);
    if labels[i].Timer? || labels[i].Trigger? || (i == 0 && !labels[0].TakeWakeUp?) {
      WakeUpWaits(c, states, labels, i + 1, n);
    }
  }

  // Step `i` leaves a wake-up behind.
  predicate Wakes(s: State, l: Label) {
    l.Timer? || l.Trigger? || (l.EndDispatch? && s.loop.Dispatching? && s.loop.total < s.loop.slots)
  }

  ghost predicate WokenBy(states: seq<State>, labels: seq<Label>, i: int, n: int)
    requires -1 <= i < n <= |labels| <= |states|
  {
    (i >= 0 ==> Wakes(states[i], labels[i])) && forall k | i < k < n :: !labels[k].TakeWakeUp?
  }

  lemma WokenStep(c: Config, s: State, l: Label)
    requires Enabled(c, s, l) && Next(c, s, l).wakeUp
    ensures Wakes(s, l) || (s.wakeUp && !l.TakeWakeUp?)
  {
  }

  // A wake-up is used up when it is taken: one that waits was left by a timer, a trigger or
  // a small batch since then, or at the start. The loop does not poll without cause.
  lemma {:induction false} WakeUpHasCause(raw: Config, states: seq<State>, labels: seq<Label>, n: nat)
    requires IsRun(WithDefaults(raw), states, labels) && n <= |labels| && states[n].wakeUp
    ensures n == 0 || exists i :: -1 <= i < n && WokenBy(states, labels, i, n)
  {
    if n > 0 {
      WokenStep(WithDefaults(raw), states[n - 1], labels[n - 1]);
      if Wakes(states[n - 1], labels[n - 1]) {
        assert WokenBy(states, labels, n - 1, n);
      } else {
        WakeUpHasCause(raw, states, labels, n - 1);
        if n == 1 {
          assert WokenBy(states, labels, -1, n);
        } else {
          var i :| -1 <= i < n - 1 && WokenBy(states, labels, i, n - 1);
          assert WokenBy(states, labels, i, n);
        }
      }
    }
  }

  // From every state in which the loop selects, the timer leads to the next poll, which
  // asks for all slots that are free then, and can bring as many jobs, up to a hundred.
  lemma TimerLeadsToPoll(raw: Config, states: seq<State>, labels: seq<Label>, n: nat)
    requires IsRun(WithDefaults(raw), states, labels) && n <= |labels| && states[n].loop.Selecting?
    ensures var c, s := WithDefaults(raw), states[n];
            && Enabled(c, s, Timer)
            && var s1 := Next(c, s, Timer);
               && Enabled(c, s1, TakeWakeUp)
               && var s2 := Next(c, s1, TakeWakeUp);
                  && Enabled(c, s2, CountSlots)
                  && var s3 := Next(c, s2, CountSlots);
                     && s3.sem == s.sem && s3.jobs == s.jobs
                     && (s.sem < c.concurrency ==>
                           s3.loop == Fetching(c.concurrency - s.sem, !s.cancelled) && s3.fetches == s.fetches + 1)
                     && (s.sem < c.concurrency && !s.cancelled ==>
                           forall items: nat ::
                             Enabled(c, s3, FetchReturns(items)) <==> items <= c.concurrency - s.sem && items <= 100)
                     && (s.sem == c.concurrency ==> s3.loop.Selecting?)
  {
    RunInv(WithDefaults(raw), states, labels, n);
  }

  function Dispatches(labels: seq<Label>, m: nat, n: nat): nat
    requires m <= n <= |labels|
    decreases n - m
  {
    if m == n then 0 else Dispatches(labels, m, n - 1) + if labels[n - 1].Dispatch? then 1 else 0
  }

  // At step `g` the loop counted its free slots, asked for as many, at step `f` got a
  // batch, and has since started some of it.
  ghost predicate Polled(c: Config, states: seq<State>, labels: seq<Label>, g: nat, f: nat, n: nat)
    requires g < f < n <= |labels| < |states|
  {
    && labels[g].CountSlots? && labels[f].FetchReturns? && labels[f].items > 0
    && (forall k | g < k < n && k != f :: !labels[k].CountSlots? && !labels[k].FetchReturns?)
    && states[n].loop.Dispatching?
    && states[n].loop.slots == c.concurrency - states[g].sem && states[n].loop.total == labels[f].items
    && Dispatches(labels, f, n) + states[n].loop.left == labels[f].items
  }

  lemma FetchingStep(c: Config, s: State, l: Label, s': State)
    requires Enabled(c, s, l) && s' == Next(c, s, l) && s'.loop.Fetching?
    ensures if l.CountSlots? then s'.loop.slots == c.concurrency - s.sem else s.loop == s'.loop && !l.FetchReturns?
  {
  }

  lemma DispatchingStep(c: Config, s: State, l: Label, s': State)
    requires Enabled(c, s, l) && s' == Next(c, s, l) && s'.loop.Dispatching?
    ensures !l.CountSlots?
    ensures if l.FetchReturns? then
              s.loop.Fetching? && l.items > 0 && s'.loop == Dispatching(s.loop.slots, l.items, l.items)
            else s.loop.Dispatching? && s'.loop.slots == s.loop.slots && s'.loop.total == s.loop.total
                 && s'.loop.left + (if l.Dispatch? then 1 else 0) == s.loop.left
  {
  }

  // The count of slots behind a fetch.
  lemma {:induction false} FetchAsked(c: Config, states: seq<State>, labels: seq<Label>, n: nat) returns (g: nat)
    requires IsRun(c, states, labels) && n <= |labels| && states[n].loop.Fetching?
    ensures g < n && labels[g].CountSlots? && states[n].loop.slots == c.concurrency - states[g].sem
    ensures forall k | g < k < n :: !labels[k].CountSlots? && !labels[k].FetchReturns?
  {
    FetchingStep(c, states[n - 1], labels[n - 1], states[n]);
    if labels[n - 1].CountSlots? {
      g := n - 1;
    } else {
      g := FetchAsked(c, states, labels, n - 1);
    }
  }

  lemma PolledStill(c: Config, states: seq<State>, labels: seq<Label>, g: nat, f: nat, n: nat)
    requires n < |labels| < |states| && g < f < n && Polled(c, states, labels, g, f, n)
    requires states[n + 1].loop.Dispatching? && !labels[n].CountSlots? && !labels[n].FetchReturns?
    requires states[n + 1].loop.slots == states[n].loop.slots && states[n + 1].loop.total == states[n].loop.total
    requires states[n + 1].loop.left + (if labels[n].Dispatch? then 1 else 0) == states[n].loop.left
    ensures Polled(c, states, labels, g, f, n + 1)
  {
  }

  lemma {:induction false} BatchPolled(c: Config, states: seq<State>, labels: seq<Label>, n: nat)
    returns (g: nat, f: nat)
    requires IsRun(c, states, labels) && n <= |labels| && states[n].loop.Dispatching?
    ensures g < f < n && Polled(c, states, labels, g, f, n)
  {
    DispatchingStep(c, states[n - 1], labels[n - 1], states[n]);
    if labels[n - 1].FetchReturns? {
      f := n - 1;
      g := FetchAsked(c, states, labels, f);
      assert Dispatches(labels, f, n) == Dispatches(labels, f, f) == 0;
    } else {
      g, f := BatchPolled(c, states, labels, n - 1);
      PolledStill(c, states, labels, g, f, n - 1);
    }
  }

  // When the loop is done with a batch, exactly as many jobs have been started as the
  // fetch returned; and if that was less than the slots free at the count before the
  // fetch, the next poll is already called for.
  lemma WholeBatchStarted(raw: Config, states: seq<State>, labels: seq<Label>, n: nat) returns (g: nat, f: nat)
    requires IsRun(WithDefaults(raw), states, labels) && n < |labels| && labels[n].EndDispatch?
    ensures g < f < n && labels[g].CountSlots? && labels[f].FetchReturns?
    ensures Dispatches(labels, f, n) == labels[f].items > 0
    ensures forall k | g < k < n && k != f :: !labels[k].CountSlots? && !labels[k].FetchReturns?
    ensures labels[f].items < WithDefaults(raw).concurrency - states[g].sem ==> states[n + 1].wakeUp
  {
    g, f := BatchPolled(WithDefaults(raw), states, labels, n);
  }

  lemma LeavingStep(c: Config, s: State, l: Label, s': State)
    requires Leaving(s) && s.cancelled && Enabled(c, s, l) && s' == Next(c, s, l)
    ensures Leaving(s') && s'.fetches == s.fetches && s'.jobs.Keys <= s.jobs.Keys
    ensures s.loop.Stopped? ==> s'.loop.Stopped? && (s.jobs == map[] ==> s' == s)
  {
  }

  lemma LeavingAt(c: Config, states: seq<State>, labels: seq<Label>, n: nat)
    requires c.concurrency >= 1 && c.pollInterval > 0 && c.maxBackoff > 0
    requires IsRun(c, states, labels) && n < |labels| && Leaving(states[n])
    ensures !labels[n].CountSlots? && !labels[n].FetchReturns? && !labels[n].Dispatch?
    ensures Leaving(states[n + 1]) && states[n + 1].fetches == states[n].fetches
    ensures states[n + 1].jobs.Keys <= states[n].jobs.Keys
    ensures states[n].loop.Stopped? ==> states[n + 1] == states[n]
  {
    RunInv(c, states, labels, n);
    LeavingStep(c, states[n], labels[n], states[n + 1]);
  }

  ghost predicate NothingStarts(labels: seq<Label>, m: nat, n: nat)
    requires m <= n <= |labels|
  {
    forall k | m <= k < n :: !labels[k].CountSlots? && !labels[k].FetchReturns? && !labels[k].Dispatch?
  }

  lemma {:induction false} LeavingRun(c: Config, states: seq<State>, labels: seq<Label>, m: nat, n: nat)
    requires c.concurrency >= 1 && c.pollInterval > 0 && c.maxBackoff > 0
    requires IsRun(c, states, labels) && m <= n <= |labels| && Leaving(states[m])
    ensures Leaving(states[n]) && states[n].fetches == states[m].fetches && states[n].jobs.Keys <= states[m].jobs.Keys
    ensures NothingStarts(labels, m, n)
    ensures states[m].loop.Stopped? ==> states[n] == states[m]
    decreases n - m
  {
    if m < n {
      LeavingRun(c, states, labels, m, n - 1);
      LeavingAt(c, states, labels, n - 1);
    }
  }

  // Once the loop has seen the end of the context, the agent fetches and starts nothing
  // more; once done is closed no job goroutine is left, and nothing happens any more.
  lemma DoneMeansDrained(raw: Config, states: seq<State>, labels: seq<Label>, m: nat, n: nat)
    requires IsRun(WithDefaults(raw), states, labels) && m <= n <= |labels| && Leaving(states[m])
    ensures Leaving(states[n]) && states[n].fetches == states[m].fetches && states[n].jobs.Keys <= states[m].jobs.Keys
    ensures NothingStarts(labels, m, n)
    ensures states[n].loop.Stopped? ==> states[n].jobs == map[]
    ensures states[m].loop.Stopped? ==> states[n] == states[m]
  {
    LeavingRun(WithDefaults(raw), states, labels, m, n);
    RunInv(WithDefaults(raw), states, labels, n);
  }

  // ---------------------------------------------------------------------
  // Between the end of the context and the moment the loop sees it
  // ---------------------------------------------------------------------

  // The jobs of a batch already requested that may still be started.
  function Due(s: State): nat {
    match s.loop
    case Fetching(slots, live) => if live then slots else 0
    case Dispatching(_, _, left) => left
    case _ => 0
  }

  predicate AsksSome(s: State) {
    s.loop.Fetching? ==> s.loop.slots >= 1
  }

  lemma DueStep(c: Config, s: State, l: Label, s': State)
    requires AsksSome(s) && Enabled(c, s, l) && s' == Next(c, s, l) && s.cancelled
    ensures AsksSome(s') && s'.cancelled && Due(s') + (if l.Dispatch? then 1 else 0) <= Due(s)
  {
  }

  lemma {:induction false} DueFalls(c: Config, states: seq<State>, labels: seq<Label>, m: nat, n: nat)
    requires IsRun(c, states, labels) && m <= n <= |labels| && states[m].cancelled && AsksSome(states[m])
    ensures AsksSome(states[n]) && states[n].cancelled && Dispatches(labels, m, n) + Due(states[n]) <= Due(states[m])
    decreases n - m
  {
    if m < n {
      DueFalls(c, states, labels, m, n - 1);
      DueStep(c, states[n - 1], labels[n - 1], states[n]);
    }
  }

  // From the end of the context on, only what is left of a batch requested before can be
  // started, however long the loop goes on selecting other cases: never more jobs than
  // there were free slots, and none if no batch was under way.
  lemma OnlyRequestedWorkStarts(raw: Config, states: seq<State>, labels: seq<Label>, m: nat, n: nat)
    requires IsRun(WithDefaults(raw), states, labels) && m <= n <= |labels| && states[m].cancelled
    ensures Dispatches(labels, m, n) + Due(states[n]) <= Due(states[m])
    ensures Due(states[m]) + states[m].sem <= WithDefaults(raw).concurrency
  {
    RunInv(WithDefaults(raw), states, labels, m);
    DueFalls(WithDefaults(raw), states, labels, m, n);
  }
}
