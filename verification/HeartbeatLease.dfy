/**
 The worker's heartbeat loop meets the discipline under which nobody else can get
 its execution.
 */
module HeartbeatLeases {
  import opened Tables
  import opened Selection
  import opened Leases
  import Retry

  // One holder's time: its claim, the start of its heartbeat loop, and the loop's extensions.
  datatype Timeline = Timeline(claimed: Time, start: Time, beats: seq<Option<Retry.Beat>>)

  const DEFAULT := Config(VISIBILITY_TIMEOUT, VISIBILITY_TIMEOUT)

  // The lease of `k` counts from the claim or from the last extension of its heartbeat
  // loop that has arrived, or from later; every heartbeat has gone through so far.
  ghost predicate KeptAlive(w: World, k: Ticket, h: Timeline)
    requires k in w.holds
  {
    && Retry.Unbroken(h.claimed, h.start, h.beats)
    && h.claimed <= w.sys.clock <= Retry.TickTime(h.start, |h.beats|) + Retry.LONGEST_CALL
    && Retry.LeaseBase(h.claimed, h.beats, w.sys.clock) <= w.holds[k].base
  }

  // In every state each holder of `x` runs its heartbeat loop.
  ghost predicate AllKeptAlive(worlds: seq<World>, x: Uuid, timeline: Ticket -> Timeline) {
    forall i, k | 0 <= i < |worlds| && k in worlds[i].holds && k.e == x :: KeptAlive(worlds[i], k, timeline(k))
  }

  lemma HeartbeatsAreDisciplined(w: World, x: Uuid, timeline: Ticket -> Timeline)
    requires forall k | k in w.holds && k.e == x :: KeptAlive(w, k, timeline(k))
    ensures Disciplined(w, x, DEFAULT)
  {
    forall k | k in w.holds && k.e == x ensures w.sys.clock - w.holds[k].base < DEFAULT.gap {
      var h := timeline(k);
      Retry.LeaseNeverLapses(h.claimed, h.start, h.beats, w.sys.clock);
    }
  }

  // An execution whose holders run the heartbeat loop until they report or die is never
  // held twice, and cannot be dequeued while it is held.
  lemma HeartbeatsKeepOthersOut(worlds: seq<World>, actions: seq<Action>, timeline: Ticket -> Timeline,
                                n: nat, k1: Ticket, k2: Ticket)
    requires IsWorldRun(worlds, actions) && n <= |actions|
    requires AllKeptAlive(worlds, k1.e, timeline)
    requires forall i | 0 <= i < |actions| :: HoldersOnly(worlds[i], actions[i], k1.e, DEFAULT)
    requires k1 in worlds[n].holds && k2 in worlds[n].holds && k1.e == k2.e
    ensures k1 == k2
    ensures forall locked, tenants, now | now <= worlds[n].sys.clock ::
              k1.e !in Eligible(worlds[n].sys.db.queue, locked, tenants, now)
  {
    forall i | 0 <= i < |worlds| ensures Disciplined(worlds[i], k1.e, DEFAULT) {
      HeartbeatsAreDisciplined(worlds[i], k1.e, timeline);
    }
    AtMostOneHolder(worlds, actions, DEFAULT, n, k1, k2);
  }
}
