/**
 Workers on top of the interleaved queue: each claim is a ticket that its worker
 holds until a statement of its own report takes the row away or hands it back, or
 until the worker dies. For any one execution, if its holders extend or report in
 time, nobody else can get it, and the work spent on it is bounded; what happens to
 other executions and their workers does not matter.
 */
module Leases {
  import opened Tables
  import opened Selection
  import opened Consistency
  import opened Statements

  // The n-th claim of execution `e`.
  datatype Ticket = Ticket(e: Uuid, n: nat)

  // Who holds a ticket, and the moment its lease was last counted from.
  datatype Hold = Hold(worker: nat, base: Time)

  datatype World = World(
    sys: Sys,
    holds: map<Ticket, Hold>,
    owner: map<nat, Ticket>,     // the ticket on whose behalf a call was made
    claims: map<Uuid, nat>,      // how often each execution has been claimed
    lost: map<Uuid, nat>,        // how many of its holders died or gave up
    delays: map<Uuid, Time>      // the sum of the retry delays it was given
  )

  // A step of the queue, on behalf of a ticket where that matters; or the end of a
  // worker that held one.
  datatype Action = Do(l: Label, via: Ticket) | Abandon(k: Ticket)

  // `gap` bounds the time between two extensions; `extension` is what a heartbeat grants.
  datatype Config = Config(gap: Time, extension: Time)

  predicate Sound(cfg: Config) {
    cfg.gap <= VISIBILITY_TIMEOUT && cfg.gap <= cfg.extension
  }

  function InitWorld(clock: Time): World {
    World(InitSys(clock), map[], map[], map[], map[], map[])
  }

  function Count(m: map<Uuid, nat>, e: Uuid): nat {
    if e in m then m[e] else 0
  }

  function Delay(m: map<Uuid, Time>, e: Uuid): Time {
    if e in m then m[e] else 0
  }

  predicate NeedsTicket(pc: Pc) {
    !pc.MarkDone? && !pc.MarkDead?
  }

  predicate Releases(pc: Pc) {
    pc.DeleteDone? || pc.BackOff? || pc.DeleteFailed?
  }

  ghost function Tickets(s: Sys, t: nat): map<Ticket, Hold>
    requires t in s.txns
  {
    map e | e in LockedBy(s, t) && e in s.db.queue ::
      Ticket(e, s.db.queue[e].attempt + 1) := Hold(s.txns[t].worker, s.txns[t].now)
  }

  // A statement that takes the row away or hands it back ends its caller's hold.
  function HoldsAfter(w: World, c: nat): map<Ticket, Hold>
    requires c in w.sys.calls
  {
    var call := w.sys.calls[c];
    if Releases(call.pc) && c in w.owner && w.owner[c].e == call.e then w.holds - {w.owner[c]} else w.holds
  }

  ghost predicate Possible(w: World, a: Action) {
    match a
    case Do(l, _) => Enabled(w.sys, l)
    case Abandon(k) => k in w.holds
  }

  ghost function Act(w: World, a: Action): World
    requires Possible(w, a)
  {
    match a
    case Abandon(k) => w.(holds := w.holds - {k}, lost := w.lost[k.e := Count(w.lost, k.e) + 1])
    case Do(l, via) =>
      var w1 := w.(sys := Next(w.sys, l));
      match l
      case Commit(t) =>
        w1.(holds := w.holds + Tickets(w.sys, t),
            claims := w.claims + map e | e in LockedBy(w.sys, t) :: Count(w.claims, e) + 1)
      case Arrive(c, _, _) => w1.(owner := w.owner[c := via])
      case Heartbeat(e, at, _) =>
        if via in w.holds && via.e == e then w1.(holds := w.holds[via := w.holds[via].(base := at)]) else w1
      case Exec(c) =>
        var call := w.sys.calls[c];
        w1.(holds := HoldsAfter(w, c),
            delays := if call.pc.BackOff? then w.delays[call.e := Delay(w.delays, call.e) + RetryDelay(call.pc.read)]
                      else w.delays)
      case _ => w1
  }

  ghost predicate IsWorldRun(worlds: seq<World>, actions: seq<Action>) {
    && |worlds| == |actions| + 1
    && worlds[0] == InitWorld(worlds[0].sys.clock)
    && forall i | 0 <= i < |actions| :: Possible(worlds[i], actions[i]) && worlds[i + 1] == Act(worlds[i], actions[i])
  }

  // Only holders report `x`, and only holders send heartbeats for it.
  ghost predicate HoldersOnly(w: World, a: Action, x: Uuid, cfg: Config)
    requires Possible(w, a)
  {
    a.Do? ==>
      match a.l
      case Arrive(_, e, _) => e == x ==> a.via in w.holds && a.via.e == x
      case Heartbeat(e, _, extension) => e == x ==> a.via in w.holds && a.via.e == x && extension == cfg.extension
      case Exec(c) => w.sys.calls[c].e == x && NeedsTicket(w.sys.calls[c].pc) ==> c in w.owner && w.owner[c] in w.holds
      case _ => true
  }

  // Every holder of `x` has extended its lease less than `gap` ago.
  ghost predicate Disciplined(w: World, x: Uuid, cfg: Config) {
    forall k | k in w.holds && k.e == x :: w.sys.clock - w.holds[k].base < cfg.gap
  }

  // Of all workers in the run, those that hold `x` extend in time and speak for it alone.
  ghost predicate WellHeld(worlds: seq<World>, actions: seq<Action>, x: Uuid, cfg: Config)
    requires IsWorldRun(worlds, actions)
  {
    forall i | 0 <= i < |actions| :: Disciplined(worlds[i], x, cfg) && HoldersOnly(worlds[i], actions[i], x, cfg)
  }

  // The retry delays of attempts 1..n.
  function DelaySum(n: nat): Time {
    if n == 0 then 0 else DelaySum(n - 1) + RetryDelay(n)
  }

  lemma {:induction false} DelaySumClosed(n: nat)
    ensures DelaySum(n) == 20 * (Pow2(n) - 1) * SECOND
  {
    if n > 0 {
      DelaySumClosed(n - 1);
    }
  }

  lemma {:induction false} DelayPositive(n: nat)
    ensures RetryDelay(n) > 0
  {
    if n > 0 {
      DelayPositive(n - 1);
    }
  }

  lemma {:induction false} DelaySumMonotone(m: nat, n: nat)
    requires m <= n
    ensures DelaySum(m) <= DelaySum(n)
  {
    if m < n {
      DelaySumMonotone(m, n - 1);
      DelayPositive(n);
    }
  }

  // ---------------------------------------------------------------------
  // Invariant
  // ---------------------------------------------------------------------

  ghost predicate HoldOk(w: World, k: Ticket, cfg: Config)
    requires k in w.holds
  {
    && k.n >= 1
    && k.e in w.sys.db.queue
    && w.sys.db.queue[k.e].attempt == k.n
    && k.e !in w.sys.locks
    && w.holds[k].base + cfg.gap <= w.sys.db.queue[k.e].visibleAfter
  }

  ghost predicate OwnerOk(w: World, c: nat)
    requires c in w.sys.calls
  {
    && c in w.owner
    && w.owner[c].e == w.sys.calls[c].e
    && w.owner[c].e in w.sys.db.executions
    && w.owner[c].n <= w.sys.db.executions[w.owner[c].e].attempt
    && (w.owner[c] in w.holds && w.sys.calls[c].pc.BackOff? ==> w.sys.calls[c].pc.read == w.owner[c].n)
  }

  ghost predicate Held(w: World, e: Uuid)
    requires e in w.sys.db.queue
  {
    Ticket(e, w.sys.db.queue[e].attempt) in w.holds
  }

  // The attempts that are over, and may have ended with a retry delay.
  ghost function Over(w: World, e: Uuid): nat {
    if e !in w.sys.db.queue then MAX_RETRIES
    else
      var n := w.sys.db.queue[e].attempt;
      var over := if n >= 1 && Held(w, e) then n - 1 else n;
      if over <= MAX_RETRIES then over else MAX_RETRIES
  }

  // How many claims `e` may cost: one more for each holder lost.
  function Allowance(w: World, e: Uuid): nat {
    MAX_RETRIES + 1 + Count(w.lost, e)
  }

  ghost predicate WorkOk(w: World, e: Uuid) {
    var db := w.sys.db;
    if e in db.executions then
      && Count(w.claims, e) == db.executions[e].attempt <= Allowance(w, e)
      && (e in db.dead ==> db.dead[e].attempts <= Allowance(w, e))
      && (e in db.queue && !Held(w, e) ==> db.queue[e].attempt < Allowance(w, e))
      && Delay(w.delays, e) <= DelaySum(Over(w, e))
    else
      Count(w.claims, e) == 0 && Delay(w.delays, e) == 0
  }

  ghost predicate TicketsOk(w: World, x: Uuid, cfg: Config) {
    && (forall k | k in w.holds && k.e == x :: HoldOk(w, k, cfg))
    && (forall c | c in w.sys.calls && w.sys.calls[c].e == x :: OwnerOk(w, c))
    && WorkOk(w, x)
  }

  ghost predicate WorldInv(w: World, x: Uuid, cfg: Config) {
    Inv(w.sys) && TicketsOk(w, x, cfg)
  }

  lemma WorldInitial(clock: Time, x: Uuid, cfg: Config)
    ensures WorldInv(InitWorld(clock), x, cfg)
  {
  }

  // ---------------------------------------------------------------------
  // Steps
  // ---------------------------------------------------------------------

  // No ticket of `e` is handed out or taken back, and its row and counts stay.
  ghost predicate SameWork(w: World, w': World, e: Uuid) {
    && Count(w'.claims, e) == Count(w.claims, e) && Delay(w'.delays, e) == Delay(w.delays, e)
    && Count(w'.lost, e) == Count(w.lost, e)
    && (e in w'.sys.db.executions <==> e in w.sys.db.executions)
    && (e in w.sys.db.executions ==> w'.sys.db.executions[e].attempt == w.sys.db.executions[e].attempt)
    && (e in w'.sys.db.queue <==> e in w.sys.db.queue)
    && (e in w.sys.db.queue ==>
          w'.sys.db.queue[e].attempt == w.sys.db.queue[e].attempt && (Held(w', e) <==> Held(w, e)))
    && (e in w'.sys.db.dead ==> e in w.sys.db.dead && w'.sys.db.dead[e].attempts == w.sys.db.dead[e].attempts)
  }

  lemma SameWorkKeeps(w: World, w': World, e: Uuid)
    requires WorkOk(w, e) && SameWork(w, w', e)
    ensures WorkOk(w', e)
  {
  }

  // A holder that dies takes its ticket along; its attempt is over.
  lemma AbandonAct(w: World, a: Action, x: Uuid, cfg: Config, w': World)
    requires WorldInv(w, x, cfg) && Possible(w, a) && a.Abandon? && w' == Act(w, a)
    ensures WorldInv(w', x, cfg)
  {
    forall k | k in w'.holds && k.e == x ensures HoldOk(w', k, cfg) { assert HoldOk(w, k, cfg); }
    forall c | c in w'.sys.calls && w'.sys.calls[c].e == x ensures OwnerOk(w', c) { assert OwnerOk(w, c); }
    if a.k.e == x {
      assert HoldOk(w, a.k, cfg);
      assert Held(w, x) && RowAgrees(w.sys.db, x);
      DelaySumMonotone(Over(w, x), Over(w', x));
    } else {
      SameWorkKeeps(w, w', x);
    }
  }

  // What a committing dequeue does to the world.
  ghost predicate Committed(w: World, t: nat, w': World) {
    && t in w.sys.txns
    && w'.sys.db == Claim(w.sys.db, LockedBy(w.sys, t), w.sys.txns[t].now)
    && w'.sys.calls == w.sys.calls && w'.sys.locks == w.sys.locks - LockedBy(w.sys, t)
    && w'.holds == w.holds + Tickets(w.sys, t)
    && w'.owner == w.owner && w'.delays == w.delays && w'.lost == w.lost
    && w'.claims == w.claims + map e | e in LockedBy(w.sys, t) :: Count(w.claims, e) + 1
  }

  lemma CommitShape(w: World, a: Action, w': World)
    requires Possible(w, a) && a.Do? && a.l.Commit? && w' == Act(w, a)
    ensures Committed(w, a.l.t, w')
  {
  }

  lemma TicketIs(s: Sys, t: nat, k: Ticket)
    requires t in s.txns
    ensures k in Tickets(s, t) <==> k.e in LockedBy(s, t) && k.e in s.db.queue && k.n == s.db.queue[k.e].attempt + 1
    ensures k in Tickets(s, t) ==> Tickets(s, t)[k] == Hold(s.txns[t].worker, s.txns[t].now)
  {
    if k.e in LockedBy(s, t) && k.e in s.db.queue && k.n == s.db.queue[k.e].attempt + 1 {
      assert k == Ticket(k.e, s.db.queue[k.e].attempt + 1);
    }
  }

  lemma ClaimedRow(db: Db, batch: set<Uuid>, now: Time, e: Uuid)
    ensures var d := Claim(db, batch, now);
            && (e in d.queue <==> e in db.queue) && (e in d.executions <==> e in db.executions)
            && (e in db.queue ==> d.queue[e] == if e in batch then ClaimRow(db.queue[e], now) else db.queue[e])
            && (e in db.queue && e in db.executions && e in batch ==>
                  d.executions[e].attempt == db.queue[e].attempt + 1)
            && (e in db.executions && e !in batch ==> d.executions[e] == db.executions[e])
  {
  }

  lemma ClaimedOnce(w: World, w': World, e: Uuid)
    requires WorkOk(w, e) && e in w.sys.db.queue && RowAgrees(w.sys.db, e) && !Held(w, e)
    requires e in w'.sys.db.queue && e in w'.sys.db.executions && w'.sys.db.dead == w.sys.db.dead
    requires w'.sys.db.queue[e].attempt == w'.sys.db.executions[e].attempt == w.sys.db.queue[e].attempt + 1
    requires Held(w', e) && w'.delays == w.delays && w'.lost == w.lost
    requires Count(w'.claims, e) == Count(w.claims, e) + 1
    ensures WorkOk(w', e)
  {
    assert Over(w', e) == Over(w, e);
  }

  // Claims: the claimed rows were held by nobody.
  lemma CommitClaims(w: World, t: nat, w': World, e: Uuid)
    requires Committed(w, t, w') && e in LockedBy(w.sys, t)
    requires WorkOk(w, e) && e in w.sys.db.queue && RowAgrees(w.sys.db, e) && !Held(w, e)
    ensures WorkOk(w', e)
  {
    TicketIs(w.sys, t, Ticket(e, w.sys.db.queue[e].attempt + 1));
    ClaimedRow(w.sys.db, LockedBy(w.sys, t), w.sys.txns[t].now, e);
    ClaimedOnce(w, w', e);
  }

  lemma CommitSkips(w: World, t: nat, w': World, e: Uuid)
    requires Committed(w, t, w') && e !in LockedBy(w.sys, t) && WorkOk(w, e)
    ensures WorkOk(w', e)
  {
    ClaimedRow(w.sys.db, LockedBy(w.sys, t), w.sys.txns[t].now, e);
    if e in w.sys.db.queue {
      TicketIs(w.sys, t, Ticket(e, w.sys.db.queue[e].attempt));
    }
    SameWorkKeeps(w, w', e);
  }

  lemma CommitKeepsHold(w: World, t: nat, w': World, k: Ticket, cfg: Config)
    requires Committed(w, t, w') && k in w.holds && HoldOk(w, k, cfg)
    ensures k in w'.holds && HoldOk(w', k, cfg)
  {
    TicketIs(w.sys, t, k);
    ClaimedRow(w.sys.db, LockedBy(w.sys, t), w.sys.txns[t].now, k.e);
  }

  lemma CommitNewHold(w: World, t: nat, w': World, k: Ticket, cfg: Config)
    requires Sound(cfg) && Committed(w, t, w') && k !in w.holds && k in w'.holds
    ensures HoldOk(w', k, cfg)
  {
    TicketIs(w.sys, t, k);
    ClaimedRow(w.sys.db, LockedBy(w.sys, t), w.sys.txns[t].now, k.e);
  }

  lemma CommitOwner(w: World, t: nat, w': World, c: nat)
    requires Committed(w, t, w') && c in w.sys.calls && OwnerOk(w, c)
    requires w.owner[c].e in w.sys.db.queue ==> RowAgrees(w.sys.db, w.owner[c].e)
    ensures OwnerOk(w', c)
  {
    TicketIs(w.sys, t, w.owner[c]);
    ClaimedRow(w.sys.db, LockedBy(w.sys, t), w.sys.txns[t].now, w.owner[c].e);
    assert w.owner[c] in w'.holds <==> w.owner[c] in w.holds;
  }

  lemma LockedNotHeld(w: World, e: Uuid, cfg: Config)
    requires WorldInv(w, e, cfg) && e in w.sys.locks
    ensures e in w.sys.db.queue && RowAgrees(w.sys.db, e) && !Held(w, e)
  {
    assert LockOk(w.sys, e) && RowAgrees(w.sys.db, e);
    var k := Ticket(e, w.sys.db.queue[e].attempt);
    assert k in w.holds ==> HoldOk(w, k, cfg);
  }

  lemma CommitAct(w: World, a: Action, x: Uuid, cfg: Config, w': World)
    requires Sound(cfg) && WorldInv(w, x, cfg) && Possible(w, a) && a.Do? && a.l.Commit? && w' == Act(w, a)
    ensures WorldInv(w', x, cfg)
  {
    var t := a.l.t;
    StepKeeps(w.sys, a.l);
    CommitShape(w, a, w');
    if x in LockedBy(w.sys, t) {
      LockedNotHeld(w, x, cfg);
      CommitClaims(w, t, w', x);
    } else {
      CommitSkips(w, t, w', x);
    }
    forall k | k in w'.holds && k.e == x ensures HoldOk(w', k, cfg) {
      if k in w.holds { CommitKeepsHold(w, t, w', k, cfg); } else { CommitNewHold(w, t, w', k, cfg); }
    }
    forall c | c in w'.sys.calls && w'.sys.calls[c].e == x ensures OwnerOk(w', c) {
      assert x in w.sys.db.queue ==> RowAgrees(w.sys.db, x);
      CommitOwner(w, t, w', c);
    }
  }

  lemma HeldNotEligible(w: World, k: Ticket, cfg: Config, locked: set<Uuid>, tenants: seq<Uuid>, now: Time)
    requires k in w.holds && HoldOk(w, k, cfg) && Disciplined(w, k.e, cfg) && now <= w.sys.clock
    ensures k.e !in Eligible(w.sys.db.queue, locked, tenants, now)
  {
  }

  // Nothing held in time can be selected: its lease runs beyond every transaction's NOW().
  lemma SelectAct(w: World, a: Action, x: Uuid, cfg: Config, w': World)
    requires WorldInv(w, x, cfg) && Disciplined(w, x, cfg)
    requires Possible(w, a) && a.Do? && a.l.Select? && w' == Act(w, a)
    ensures WorldInv(w', x, cfg)
  {
    var s, t, batch := w.sys, a.l.t, a.l.batch;
    StepKeeps(s, a.l);
    assert TxnOk(s, t);
    forall k | k in w'.holds && k.e == x ensures HoldOk(w', k, cfg) {
      assert HoldOk(w, k, cfg);
      HeldNotEligible(w, k, cfg, s.locks.Keys, s.txns[t].tenants, s.txns[t].now);
    }
    forall c | c in w'.sys.calls && w'.sys.calls[c].e == x ensures OwnerOk(w', c) { assert OwnerOk(w, c); }
    SameWorkKeeps(w, w', x);
  }

  // What a heartbeat for `e` does to the world.
  ghost predicate Extended(w: World, e: Uuid, at: Time, extension: Time, via: Ticket, w': World) {
    && w'.sys == w.sys.(db := SetVisibleAfter(w.sys.db, e, at + extension))
    && w'.holds == (if via in w.holds && via.e == e then w.holds[via := w.holds[via].(base := at)] else w.holds)
    && w' == w.(sys := w'.sys, holds := w'.holds)
  }

  lemma ExtendedHold(w: World, e: Uuid, at: Time, extension: Time, via: Ticket, w': World, k: Ticket, cfg: Config)
    requires Extended(w, e, at, extension, via, w') && k in w'.holds && HoldOk(w, k, cfg)
    requires k.e == e ==> via in w.holds && via.e == e && HoldOk(w, via, cfg) && cfg.gap <= extension
    ensures HoldOk(w', k, cfg)
  {
    assert k.e == e ==> k == via;
  }

  lemma HeartbeatShape(w: World, a: Action, w': World)
    requires Possible(w, a) && a.Do? && a.l.Heartbeat? && w' == Act(w, a)
    ensures Extended(w, a.l.e, a.l.at, a.l.extension, a.via, w')
  {
  }

  lemma ExtendedKeeps(w: World, e: Uuid, at: Time, extension: Time, via: Ticket, w': World, x: Uuid, cfg: Config)
    requires Extended(w, e, at, extension, via, w') && TicketsOk(w, x, cfg)
    requires e == x ==> via in w.holds && via.e == x && cfg.gap <= extension
    ensures TicketsOk(w', x, cfg)
  {
    forall k | k in w'.holds && k.e == x ensures HoldOk(w', k, cfg) {
      assert HoldOk(w, k, cfg);
      ExtendedHold(w, e, at, extension, via, w', k, cfg);
    }
    forall c | c in w'.sys.calls && w'.sys.calls[c].e == x ensures OwnerOk(w', c) { assert OwnerOk(w, c); }
    SameWorkKeeps(w, w', x);
  }

  lemma HeartbeatAct(w: World, a: Action, x: Uuid, cfg: Config, w': World)
    requires Sound(cfg) && WorldInv(w, x, cfg) && Possible(w, a) && HoldersOnly(w, a, x, cfg)
    requires a.Do? && a.l.Heartbeat? && w' == Act(w, a)
    ensures WorldInv(w', x, cfg)
  {
    StepKeeps(w.sys, a.l);
    HeartbeatShape(w, a, w');
    ExtendedKeeps(w, a.l.e, a.l.at, a.l.extension, a.via, w', x, cfg);
  }

  // What creating an execution does to the world.
  ghost predicate Creates(w: World, id: Uuid, w': World) {
    && id !in w.sys.db.executions && id !in w.sys.db.queue && id !in w.sys.db.dead
    && w' == w.(sys := w'.sys) && w'.sys.calls == w.sys.calls && w'.sys.locks == w.sys.locks
    && id in w'.sys.db.executions && w'.sys.db.executions == w.sys.db.executions[id := w'.sys.db.executions[id]]
    && w'.sys.db.executions[id].attempt == 0
    && id in w'.sys.db.queue && w'.sys.db.queue == w.sys.db.queue[id := w'.sys.db.queue[id]]
    && w'.sys.db.queue[id].attempt == 0
    && (forall e | e in w'.sys.db.dead :: e in w.sys.db.dead && w'.sys.db.dead[e] == w.sys.db.dead[e])
  }

  lemma CreateShape(w: World, a: Action, w': World)
    requires Consistent(w.sys.db) && Possible(w, a) && a.Do? && (a.l.Run? || a.l.CommitRetry?) && w' == Act(w, a)
    ensures Creates(w, if a.l.Run? then a.l.run.e else a.l.newId, w')
  {
    RowsKnown(w.sys.db);
  }

  lemma CreateWork(w: World, id: Uuid, w': World, x: Uuid)
    requires Creates(w, id, w') && WorkOk(w, x)
    requires forall k | k in w.holds && k.e == x :: k.e != id
    ensures WorkOk(w', x)
  {
    if x != id {
      SameWorkKeeps(w, w', x);
    }
  }

  lemma CreateAct(w: World, a: Action, x: Uuid, cfg: Config, w': World)
    requires WorldInv(w, x, cfg) && Possible(w, a) && a.Do? && (a.l.Run? || a.l.CommitRetry?) && w' == Act(w, a)
    ensures WorldInv(w', x, cfg)
  {
    var id := if a.l.Run? then a.l.run.e else a.l.newId;
    StepKeeps(w.sys, a.l);
    CreateShape(w, a, w');
    forall k | k in w'.holds && k.e == x ensures HoldOk(w', k, cfg) && k.e != id { assert HoldOk(w, k, cfg); }
    forall c | c in w'.sys.calls && w'.sys.calls[c].e == x ensures OwnerOk(w', c) { assert OwnerOk(w, c); }
    CreateWork(w, id, w', x);
  }

  // Steps that touch neither the tables nor the tickets.
  lemma QuietAct(w: World, a: Action, x: Uuid, cfg: Config, w': World)
    requires WorldInv(w, x, cfg) && Possible(w, a) && HoldersOnly(w, a, x, cfg) && a.Do? && w' == Act(w, a)
    requires a.l.Tick? || a.l.Begin? || a.l.Rollback? || a.l.ReadDead? || a.l.AbortRetry? || a.l.Arrive? || a.l.Crash?
    ensures WorldInv(w', x, cfg)
  {
    StepKeeps(w.sys, a.l);
    forall k | k in w'.holds && k.e == x ensures HoldOk(w', k, cfg) { assert HoldOk(w, k, cfg); }
    forall c | c in w'.sys.calls && w'.sys.calls[c].e == x ensures OwnerOk(w', c) {
      if c in w.sys.calls { assert OwnerOk(w, c); }
      if a.l.Arrive? && a.l.e == x { assert HoldOk(w, a.via, cfg) && RowAgrees(w.sys.db, a.via.e); }
    }
    SameWorkKeeps(w, w', x);
  }

  // ---------------------------------------------------------------------
  // Report statements
  // ---------------------------------------------------------------------

  // What one report statement does to the world.
  ghost predicate Executed(w: World, c: nat, w': World) {
    && c in w.sys.calls
    && var call := w.sys.calls[c];
       var (d, rest) := RunStatement(w.sys.db, w.sys.clock, call);
       && w'.sys.db == d && w'.sys.locks == w.sys.locks
       && w'.sys.calls == (if rest.Some? then w.sys.calls[c := rest.value] else w.sys.calls - {c})
       && w'.holds == HoldsAfter(w, c)
       && w'.owner == w.owner && w'.claims == w.claims && w'.lost == w.lost
       && w'.delays == (if call.pc.BackOff? then w.delays[call.e := Delay(w.delays, call.e) + RetryDelay(call.pc.read)]
                        else w.delays)
  }

  lemma ExecShape(w: World, a: Action, w': World)
    requires Possible(w, a) && a.Do? && a.l.Exec? && w' == Act(w, a)
    ensures Executed(w, a.l.c, w')
  {
  }

  // The ticket behind a statement that needs one: it is the only one for its execution.
  ghost predicate Backed(w: World, c: nat)
    requires c in w.sys.calls
  {
    && c in w.owner && w.owner[c] in w.holds
    && var k, pc := w.owner[c], w.sys.calls[c].pc;
       && k.e == w.sys.calls[c].e && k.e in w.sys.db.queue && k.e !in w.sys.locks
       && w.sys.db.queue[k.e].attempt == k.n && k.n >= 1
       && RowAgrees(w.sys.db, k.e) && WorkOk(w, k.e)
       && (pc.BackOff? ==> pc.read == k.n <= MAX_RETRIES)
       && (pc.InsertDead? ==> k.n > MAX_RETRIES)
       && (forall k' | k' in w.holds && k'.e == k.e :: k' == k)
  }

  lemma CallerHolds(w: World, a: Action, x: Uuid, cfg: Config)
    requires WorldInv(w, x, cfg) && Possible(w, a) && HoldersOnly(w, a, x, cfg) && a.Do? && a.l.Exec?
    requires w.sys.calls[a.l.c].e == x && NeedsTicket(w.sys.calls[a.l.c].pc)
    ensures Backed(w, a.l.c)
  {
    var k := w.owner[a.l.c];
    assert OwnerOk(w, a.l.c) && HoldOk(w, k, cfg) && CallOk(w.sys.db, w.sys.calls[a.l.c]);
    assert RowAgrees(w.sys.db, x);
    forall k' | k' in w.holds && k'.e == x ensures k' == k { assert HoldOk(w, k', cfg); }
  }

  // A statement on behalf of one execution leaves all others alone.
  lemma ExecOthers(w: World, c: nat, w': World, e: Uuid)
    requires Executed(w, c, w') && e != w.sys.calls[c].e && WorkOk(w, e)
    ensures WorkOk(w', e)
  {
    StatementOthers(w.sys.db, w.sys.clock, w.sys.calls[c], e);
    SameWorkKeeps(w, w', e);
  }

  lemma ExecHolds(w: World, c: nat, w': World, k: Ticket, cfg: Config)
    requires Executed(w, c, w') && k in w'.holds && HoldOk(w, k, cfg)
    requires k.e == w.sys.calls[c].e && NeedsTicket(w.sys.calls[c].pc) ==> Backed(w, c)
    ensures HoldOk(w', k, cfg)
  {
    if k.e != w.sys.calls[c].e {
      StatementOthers(w.sys.db, w.sys.clock, w.sys.calls[c], k.e);
    }
  }

  lemma ExecOwners(w: World, c: nat, w': World, c': nat)
    requires Executed(w, c, w') && c' in w'.sys.calls && OwnerOk(w, c')
    requires c' == c && NeedsTicket(w.sys.calls[c].pc) ==> Backed(w, c)
    ensures OwnerOk(w', c')
  {
    StatementAttempts(w.sys.db, w.sys.clock, w.sys.calls[c], w.owner[c'].e);
  }

  // The row is deleted, and its last ticket with it.
  lemma DeleteWork(w: World, c: nat, w': World)
    requires Executed(w, c, w') && Backed(w, c) && (w.sys.calls[c].pc.DeleteDone? || w.sys.calls[c].pc.DeleteFailed?)
    ensures WorkOk(w', w.sys.calls[c].e)
  {
    var k := w.owner[c];
    assert Held(w, k.e);
    DelaySumMonotone(Over(w, k.e), MAX_RETRIES);
  }

  // The row goes back to the queue: its attempt is over.
  lemma BackOffWork(w: World, c: nat, w': World)
    requires Executed(w, c, w') && Backed(w, c) && w.sys.calls[c].pc.BackOff?
    ensures WorkOk(w', w.sys.calls[c].e)
  {
    var k := w.owner[c];
    assert Held(w, k.e) && !Held(w', k.e);
    assert Over(w, k.e) == k.n - 1 && Over(w', k.e) == k.n;
    assert DelaySum(k.n) == DelaySum(k.n - 1) + RetryDelay(k.n);
  }

  // Reading the attempt, or writing the dead letter: the row stays where it is.
  lemma StayWork(w: World, c: nat, w': World)
    requires Executed(w, c, w') && Backed(w, c) && (w.sys.calls[c].pc.ReadAttempt? || w.sys.calls[c].pc.InsertDead?)
    ensures WorkOk(w', w.sys.calls[c].e)
  {
    assert Over(w', w.sys.calls[c].e) == Over(w, w.sys.calls[c].e);
  }

  // The final update of the history row.
  lemma FinishWork(w: World, c: nat, w': World)
    requires Executed(w, c, w') && !NeedsTicket(w.sys.calls[c].pc) && WorkOk(w, w.sys.calls[c].e)
    ensures WorkOk(w', w.sys.calls[c].e)
  {
    SameWorkKeeps(w, w', w.sys.calls[c].e);
  }

  lemma ExecWork(w: World, c: nat, w': World)
    requires Executed(w, c, w') && WorkOk(w, w.sys.calls[c].e) && (NeedsTicket(w.sys.calls[c].pc) ==> Backed(w, c))
    ensures WorkOk(w', w.sys.calls[c].e)
  {
    match w.sys.calls[c].pc {
      case DeleteDone => DeleteWork(w, c, w');
      case DeleteFailed => DeleteWork(w, c, w');
      case BackOff(_) => BackOffWork(w, c, w');
      case ReadAttempt => StayWork(w, c, w');
      case InsertDead => StayWork(w, c, w');
      case _ => FinishWork(w, c, w');
    }
  }

  lemma ExecKeeps(w: World, c: nat, w': World, x: Uuid, cfg: Config)
    requires Executed(w, c, w') && TicketsOk(w, x, cfg)
    requires w.sys.calls[c].e == x && NeedsTicket(w.sys.calls[c].pc) ==> Backed(w, c)
    ensures TicketsOk(w', x, cfg)
  {
    if w.sys.calls[c].e == x {
      ExecWork(w, c, w');
    } else {
      ExecOthers(w, c, w', x);
    }
    forall k | k in w'.holds && k.e == x ensures HoldOk(w', k, cfg) { ExecHolds(w, c, w', k, cfg); }
    forall c' | c' in w'.sys.calls && w'.sys.calls[c'].e == x ensures OwnerOk(w', c') { ExecOwners(w, c, w', c'); }
  }

  lemma ExecAct(w: World, a: Action, x: Uuid, cfg: Config, w': World)
    requires WorldInv(w, x, cfg) && Possible(w, a) && HoldersOnly(w, a, x, cfg) && a.Do? && a.l.Exec? && w' == Act(w, a)
    ensures WorldInv(w', x, cfg)
  {
    StepKeeps(w.sys, a.l);
    ExecShape(w, a, w');
    if w.sys.calls[a.l.c].e == x && NeedsTicket(w.sys.calls[a.l.c].pc) {
      CallerHolds(w, a, x, cfg);
    }
    ExecKeeps(w, a.l.c, w', x, cfg);
  }

  lemma ActKeeps(w: World, a: Action, x: Uuid, cfg: Config, w': World)
    requires Sound(cfg) && WorldInv(w, x, cfg) && Possible(w, a) && w' == Act(w, a)
    requires Disciplined(w, x, cfg) && HoldersOnly(w, a, x, cfg)
    ensures WorldInv(w', x, cfg)
  {
    match a {
      case Abandon(_) => AbandonAct(w, a, x, cfg, w');
      case Do(l, _) =>
        match l {
          case Commit(_) => CommitAct(w, a, x, cfg, w');
          case Select(_, _) => SelectAct(w, a, x, cfg, w');
          case Heartbeat(_, _, _) => HeartbeatAct(w, a, x, cfg, w');
          case Run(_) => CreateAct(w, a, x, cfg, w');
          case CommitRetry(_, _, _, _) => CreateAct(w, a, x, cfg, w');
          case Exec(_) => ExecAct(w, a, x, cfg, w');
          case _ => QuietAct(w, a, x, cfg, w');
        }
    }
  }

  lemma {:induction false} WorldRunInv(worlds: seq<World>, actions: seq<Action>, x: Uuid, cfg: Config, n: nat)
    requires Sound(cfg) && IsWorldRun(worlds, actions) && WellHeld(worlds, actions, x, cfg) && n <= |actions|
    ensures WorldInv(worlds[n], x, cfg)
  {
    if n == 0 {
      WorldInitial(worlds[0].sys.clock, x, cfg);
    } else {
      WorldRunInv(worlds, actions, x, cfg, n - 1);
      ActKeeps(worlds[n - 1], actions[n - 1], x, cfg, worlds[n]);
    }
  }

  // ---------------------------------------------------------------------
  // What holds of an execution whose own holders keep the rules
  // ---------------------------------------------------------------------

  // It is never held twice, by however many workers; and while it is held and extended
  // in time, no dequeue can select it.
  lemma AtMostOneHolder(worlds: seq<World>, actions: seq<Action>, cfg: Config, n: nat, k1: Ticket, k2: Ticket)
    requires Sound(cfg) && IsWorldRun(worlds, actions) && WellHeld(worlds, actions, k1.e, cfg) && n <= |actions|
    requires k1 in worlds[n].holds && k2 in worlds[n].holds && k1.e == k2.e
    ensures k1 == k2
    ensures Disciplined(worlds[n], k1.e, cfg) ==>
              forall locked, tenants, now | now <= worlds[n].sys.clock ::
                k1.e !in Eligible(worlds[n].sys.db.queue, locked, tenants, now)
  {
    WorldRunInv(worlds, actions, k1.e, cfg, n);
    assert HoldOk(worlds[n], k1, cfg) && HoldOk(worlds[n], k2, cfg);
    if Disciplined(worlds[n], k1.e, cfg) {
      forall locked, tenants, now | now <= worlds[n].sys.clock
        ensures k1.e !in Eligible(worlds[n].sys.db.queue, locked, tenants, now)
      {
        HeldNotEligible(worlds[n], k1, cfg, locked, tenants, now);
      }
    }
  }

  // It is claimed at most six times, plus once for every holder that died with it; its
  // retry delays add up to at most 620 s, deaths or not; and a dead letter records six
  // attempts, or more only if holders died.
  lemma BoundedWork(worlds: seq<World>, actions: seq<Action>, cfg: Config, n: nat, x: Uuid)
    requires Sound(cfg) && IsWorldRun(worlds, actions) && WellHeld(worlds, actions, x, cfg) && n <= |actions|
    ensures Count(worlds[n].claims, x) <= MAX_RETRIES + 1 + Count(worlds[n].lost, x)
    ensures x in worlds[n].sys.db.executions ==> worlds[n].sys.db.executions[x].attempt == Count(worlds[n].claims, x)
    ensures x in worlds[n].sys.db.dead ==>
              MAX_RETRIES + 1 <= worlds[n].sys.db.dead[x].attempts <= MAX_RETRIES + 1 + Count(worlds[n].lost, x)
    ensures Delay(worlds[n].delays, x) <= 620 * SECOND
  {
    WorldRunInv(worlds, actions, x, cfg, n);
    var w := worlds[n];
    DelaySumClosed(MAX_RETRIES);
    DelaySumMonotone(Over(w, x), MAX_RETRIES);
    assert x in w.sys.db.dead ==> DeadRowSound(w.sys.db, x);
    assert Pow2(5) == 32;
  }

  // ---------------------------------------------------------------------
  // What the counts and the leases mean, read off the steps of the run
  // ---------------------------------------------------------------------

  ghost predicate ClaimsIt(w: World, a: Action, x: Uuid) {
    a.Do? && a.l.Commit? && x in LockedBy(w.sys, a.l.t)
  }

  ghost predicate PutsBack(w: World, a: Action, x: Uuid) {
    a.Do? && a.l.Exec? && a.l.c in w.sys.calls && w.sys.calls[a.l.c].e == x && w.sys.calls[a.l.c].pc.BackOff?
  }

  ghost function ClaimsOf(worlds: seq<World>, actions: seq<Action>, n: nat, x: Uuid): nat
    requires n <= |actions| <= |worlds|
  {
    if n == 0 then 0
    else ClaimsOf(worlds, actions, n - 1, x) + if ClaimsIt(worlds[n - 1], actions[n - 1], x) then 1 else 0
  }

  ghost function LossesOf(worlds: seq<World>, actions: seq<Action>, n: nat, x: Uuid): nat
    requires n <= |actions| <= |worlds|
  {
    if n == 0 then 0
    else LossesOf(worlds, actions, n - 1, x) + if actions[n - 1].Abandon? && actions[n - 1].k.e == x then 1 else 0
  }

  ghost function DelaysOf(worlds: seq<World>, actions: seq<Action>, n: nat, x: Uuid): Time
    requires n <= |actions| <= |worlds|
  {
    if n == 0 then 0
    else
      var w, a := worlds[n - 1], actions[n - 1];
      DelaysOf(worlds, actions, n - 1, x)
        + if PutsBack(w, a, x) then 10 * Pow2(w.sys.calls[a.l.c].pc.read) * SECOND else 0
  }

  // Steps other than commits, report statements and the end of a worker.
  lemma OthersCount(w: World, a: Action, w': World)
    requires Possible(w, a) && w' == Act(w, a) && a.Do? && !a.l.Commit? && !a.l.Exec?
    ensures w'.claims == w.claims && w'.lost == w.lost && w'.delays == w.delays
    ensures !a.l.Heartbeat? ==> w'.holds == w.holds
  {
  }

  lemma CommitCounts(w: World, t: nat, w': World, x: Uuid)
    requires Committed(w, t, w')
    ensures Count(w'.claims, x) == Count(w.claims, x) + if x in LockedBy(w.sys, t) then 1 else 0
  {
  }

  lemma CountsStep(w: World, a: Action, x: Uuid, w': World)
    requires Possible(w, a) && w' == Act(w, a)
    ensures Count(w'.claims, x) == Count(w.claims, x) + if ClaimsIt(w, a, x) then 1 else 0
    ensures Count(w'.lost, x) == Count(w.lost, x) + if a.Abandon? && a.k.e == x then 1 else 0
    ensures Delay(w'.delays, x) == Delay(w.delays, x)
                                   + if PutsBack(w, a, x) then 10 * Pow2(w.sys.calls[a.l.c].pc.read) * SECOND else 0
  {
    if a.Do? {
      if a.l.Commit? {
        CommitShape(w, a, w');
        CommitCounts(w, a.l.t, w', x);
      } else if a.l.Exec? {
        ExecShape(w, a, w');
      } else {
        OthersCount(w, a, w');
      }
    }
  }

  // The counts of a run are those of its steps: claims committed, holders lost, and the
  // seconds of delay that the reports have imposed.
  lemma {:induction false} CountsOfRun(worlds: seq<World>, actions: seq<Action>, n: nat, x: Uuid)
    requires IsWorldRun(worlds, actions) && n <= |actions|
    ensures Count(worlds[n].claims, x) == ClaimsOf(worlds, actions, n, x)
    ensures Count(worlds[n].lost, x) == LossesOf(worlds, actions, n, x)
    ensures Delay(worlds[n].delays, x) == DelaysOf(worlds, actions, n, x)
  {
    if n > 0 {
      CountsOfRun(worlds, actions, n - 1, x);
      CountsStep(worlds[n - 1], actions[n - 1], x, worlds[n]);
    }
  }

  // The step counts the lease of `k` from `base`: its claim, or a heartbeat of its holder.
  ghost predicate Renews(w: World, a: Action, k: Ticket, base: Time) {
    && a.Do?
    && match a.l
       case Commit(t) =>
         && t in w.sys.txns && k.e in LockedBy(w.sys, t) && k.e in w.sys.db.queue
         && k.n == w.sys.db.queue[k.e].attempt + 1 && base == w.sys.txns[t].now
       case Heartbeat(e, at, _) => a.via == k && k.e == e && base == at
       case _ => false
  }

  lemma BaseCommit(w: World, t: nat, w': World, k: Ticket)
    requires Committed(w, t, w') && k in w'.holds
    ensures if k.e in LockedBy(w.sys, t) && k.e in w.sys.db.queue && k.n == w.sys.db.queue[k.e].attempt + 1
            then w'.holds[k].base == w.sys.txns[t].now else k in w.holds && w'.holds[k] == w.holds[k]
  {
    TicketIs(w.sys, t, k);
  }

  lemma BaseHeartbeat(w: World, e: Uuid, at: Time, extension: Time, via: Ticket, w': World, k: Ticket)
    requires Extended(w, e, at, extension, via, w') && k in w'.holds
    ensures k in w.holds && w'.holds[k].base == if via == k && k.e == e then at else w.holds[k].base
  {
  }

  lemma BaseExec(w: World, c: nat, w': World, k: Ticket)
    requires Executed(w, c, w') && k in w'.holds
    ensures k in w.holds && w'.holds[k] == w.holds[k]
  {
  }

  ghost predicate BaseMoves(w: World, a: Action, k: Ticket, w': World)
    requires k in w'.holds
  {
    && (Renews(w, a, k, w'.holds[k].base) || (k in w.holds && w.holds[k].base == w'.holds[k].base))
    && forall base | Renews(w, a, k, base) :: base == w'.holds[k].base
  }

  lemma BaseRenewed(w: World, a: Action, k: Ticket, w': World)
    requires Possible(w, a) && w' == Act(w, a) && k in w'.holds && a.Do? && (a.l.Commit? || a.l.Heartbeat?)
    ensures BaseMoves(w, a, k, w')
  {
    if a.l.Commit? {
      assert Committed(w, a.l.t, w') by { CommitShape(w, a, w'); }
      BaseCommit(w, a.l.t, w', k);
    } else {
      assert Extended(w, a.l.e, a.l.at, a.l.extension, a.via, w') by { HeartbeatShape(w, a, w'); }
      BaseHeartbeat(w, a.l.e, a.l.at, a.l.extension, a.via, w', k);
    }
  }

  lemma BaseStep(w: World, a: Action, k: Ticket, w': World)
    requires Possible(w, a) && w' == Act(w, a) && k in w'.holds
    ensures BaseMoves(w, a, k, w')
  {
    if a.Do? {
      if a.l.Commit? || a.l.Heartbeat? {
        BaseRenewed(w, a, k, w');
      } else if a.l.Exec? {
        assert Executed(w, a.l.c, w') by { ExecShape(w, a, w'); }
        BaseExec(w, a.l.c, w', k);
      } else {
        assert w'.holds == w.holds by { OthersCount(w, a, w'); }
      }
    }
  }

  // Step `i` was the last to count the lease of `k` anew.
  ghost predicate LastRenewal(worlds: seq<World>, actions: seq<Action>, i: int, n: int, k: Ticket)
    requires 0 <= i < n <= |actions| < |worlds| && k in worlds[n].holds
  {
    && Renews(worlds[i], actions[i], k, worlds[n].holds[k].base)
    && forall j, base | i < j < n && Renews(worlds[j], actions[j], k, base) :: base == worlds[n].holds[k].base
  }

  lemma RenewalStill(worlds: seq<World>, actions: seq<Action>, i: int, n: nat, k: Ticket)
    requires 0 <= i < n < |actions| < |worlds| && k in worlds[n].holds && LastRenewal(worlds, actions, i, n, k)
    requires k in worlds[n + 1].holds && worlds[n + 1].holds[k].base == worlds[n].holds[k].base
    requires forall base | Renews(worlds[n], actions[n], k, base) :: base == worlds[n + 1].holds[k].base
    ensures LastRenewal(worlds, actions, i, n + 1, k)
  {
  }

  lemma BaseAt(worlds: seq<World>, actions: seq<Action>, n: nat, k: Ticket)
    requires IsWorldRun(worlds, actions) && n < |actions| && k in worlds[n + 1].holds
    ensures BaseMoves(worlds[n], actions[n], k, worlds[n + 1])
  {
    BaseStep(worlds[n], actions[n], k, worlds[n + 1]);
  }

  // A held lease counts from the NOW() of its claim or from its holder's last heartbeat.
  lemma {:induction false} LeaseCountsFromLastRenewal(worlds: seq<World>, actions: seq<Action>, n: nat, k: Ticket)
    requires IsWorldRun(worlds, actions) && n <= |actions| && k in worlds[n].holds
    ensures exists i :: 0 <= i < n && LastRenewal(worlds, actions, i, n, k)
  {
    BaseAt(worlds, actions, n - 1, k);
    if Renews(worlds[n - 1], actions[n - 1], k, worlds[n].holds[k].base) {
      assert LastRenewal(worlds, actions, n - 1, n, k);
    } else {
      LeaseCountsFromLastRenewal(worlds, actions, n - 1, k);
      var i :| 0 <= i < n - 1 && LastRenewal(worlds, actions, i, n - 1, k);
      RenewalStill(worlds, actions, i, n - 1, k);
    }
  }

  // ---------------------------------------------------------------------
  // Why they must extend in time
  // ---------------------------------------------------------------------

  // A row that is selected although it is held has outlived its lease.
  lemma SelectedHasLapsed(w: World, k: Ticket, t: nat, batch: seq<Uuid>, cfg: Config)
    requires WorldInv(w, k.e, cfg) && k in w.holds && k.e in batch && Possible(w, Do(Select(t, batch), k))
    ensures w.sys.db.queue[k.e].visibleAfter <= w.sys.txns[t].now && !Disciplined(w, k.e, cfg)
  {
    assert HoldOk(w, k, cfg) && TxnOk(w.sys, t);
    var i :| 0 <= i < |batch| && batch[i] == k.e;
    assert batch[i] in Eligible(w.sys.db.queue, w.sys.locks.Keys, w.sys.txns[t].tenants, w.sys.txns[t].now);
  }

  // The lease on `k` has run out, and no visible row ranks before its row.
  ghost predicate UpForGrabs(s: Sys, k: Ticket) {
    && k.e in s.db.queue && s.db.queue[k.e].attempt == k.n && k.e !in s.locks
    && s.db.queue[k.e].visibleAfter <= s.clock
    && forall f | f in Eligible(s.db.queue, s.locks.Keys, [], s.clock) && f in s.db.queue && f != k.e ::
         Before(s.db.queue[k.e], s.db.queue[f])
  }

  // The next dequeue can take that row.
  lemma Grabbed(s: Sys, k: Ticket, t: nat, worker: nat)
    requires Inv(s) && UpForGrabs(s, k) && t !in s.txns
    ensures var begin, select := Begin(t, worker, [], 1), Select(t, [k.e]);
            && Enabled(s, begin)
            && Enabled(Next(s, begin), select)
            && var s2 := Next(Next(s, begin), select);
               && s2.db == s.db && s2.txns[t] == Txn(worker, s.clock, [], 1, Some([k.e])) && k.e in LockedBy(s2, t)
  {
    var s1 := Next(s, Begin(t, worker, [], 1));
    assert k.e in Eligible(s1.db.queue, s1.locks.Keys, [], s1.clock);
    assert Enabled(s1, Select(t, [k.e]));
  }

  lemma SecondTicket(w: World, k: Ticket, t: nat, worker: nat, now: Time)
    requires k in w.holds && t in w.sys.txns && w.sys.txns[t] == Txn(worker, now, [], 1, Some([k.e]))
    requires k.e in LockedBy(w.sys, t) && k.e in w.sys.db.queue && w.sys.db.queue[k.e].attempt == k.n
    ensures Possible(w, Do(Commit(t), k))
    ensures var w' := Act(w, Do(Commit(t), k));
            && k in w'.holds && Ticket(k.e, k.n + 1) in w'.holds
            && w'.holds[Ticket(k.e, k.n + 1)] == Hold(worker, now)
  {
    TicketIs(w.sys, t, Ticket(k.e, k.n + 1));
  }

  // Then it hands out a second ticket while the first is still held, and every step
  // of it is within the rules for who may report.
  lemma LapsedLeaseIsShared(w: World, k: Ticket, t: nat, worker: nat, x: Uuid, cfg: Config)
    requires Inv(w.sys) && k in w.holds && UpForGrabs(w.sys, k) && t !in w.sys.txns
    ensures var begin, select, commit := Do(Begin(t, worker, [], 1), k), Do(Select(t, [k.e]), k), Do(Commit(t), k);
            && Possible(w, begin) && HoldersOnly(w, begin, x, cfg)
            && var w1 := Act(w, begin);
               && Possible(w1, select) && HoldersOnly(w1, select, x, cfg)
               && var w2 := Act(w1, select);
                  && Possible(w2, commit) && HoldersOnly(w2, commit, x, cfg)
                  && var w3 := Act(w2, commit);
                     && k in w3.holds && Ticket(k.e, k.n + 1) in w3.holds
                     && w3.holds[Ticket(k.e, k.n + 1)] == Hold(worker, w.sys.clock)
  {
    Grabbed(w.sys, k, t, worker);
    var w1 := Act(w, Do(Begin(t, worker, [], 1), k));
    var w2 := Act(w1, Do(Select(t, [k.e]), k));
    SecondTicket(w2, k, t, worker, w.sys.clock);
  }
}
