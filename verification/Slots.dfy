/**
  The schedule's ledger. Each advance of a dashboard's next_run_at uses up one slot, and the
  ledger follows what became of it: an INSERT still owed, a job, or an INSERT lost to a failed
  tick. Any number of schedulers may interleave.
 */
module Slots {
  import opened Tables
  import opened Protocol
  import opened Coherence
  import opened Lifecycle

  datatype Ticket = Ticket(tick: TickId, dashboard: DashboardId)

  /** slots[d][i] is the tick that used up slot i of dashboard d. */
  datatype Ledger = Ledger(
    slots: map<DashboardId, seq<TickId>>,
    lost: set<Ticket>,
    spent: map<Ticket, JobId>,
    origin: map<JobId, Ticket>)
  {
    function Slots(d: DashboardId): seq<TickId> {
      if d in slots then slots[d] else []
    }
  }

  const EMPTY := Ledger(map[], {}, map[], map[])

  predicate IsDue(dash: Dashboard, now: Time) {
    dash.nextRunAt <= now
  }

  function Abandon(s: State, g: Ledger, k: TickId): Ledger {
    if k in s.work.owed then g.(lost := g.lost + set d | d in s.work.owed[k] :: Ticket(k, d)) else g
  }

  /** The ledger's entry for a step; it never influences the system. */
  function Record(s: State, g: Ledger, step: Step): Ledger {
    match step
    case TickUpdate(now) =>
      if now > s.clock then g
      else
        g.(slots := map d | d in s.db.dashboards ::
             if IsDue(s.db.dashboards[d], now) then g.Slots(d) + [s.work.ticks] else g.Slots(d))
    case TickInsert(k, d, j) =>
      if !Owes(s, k, d) then g
      else if j in s.db.jobs then Abandon(s, g, k)
      else g.(spent := g.spent[Ticket(k, d) := j], origin := g.origin[j := Ticket(k, d)])
    case TickFail(k) => Abandon(s, g, k)
    case _ => g
  }

  function LedgerAfter(s: State, g: Ledger, steps: seq<Step>): Ledger
    decreases steps
  {
    if steps == [] then g else LedgerAfter(Next(s, steps[0]), Record(s, g, steps[0]), steps[1..])
  }

  /** The time of a dashboard's n-th slot. */
  function SlotTime(dash: Dashboard, n: int): Time {
    dash.createdAt + n * dash.Period()
  }

  predicate Issued(g: Ledger, k: TickId, d: DashboardId) {
    k in g.Slots(d)
  }

  /** next_run_at is the first slot not used up, and no slot is used up before its time. */
  ghost predicate ClockworkAt(dash: Dashboard, used: int, clock: Time) {
    dash.nextRunAt == SlotTime(dash, used) && (used > 0 ==> dash.nextRunAt - dash.Period() <= clock)
  }

  ghost predicate ClockworkOK(s: State, g: Ledger) {
    forall d <- s.db.dashboards :: ClockworkAt(s.db.dashboards[d], |g.Slots(d)|, s.clock)
  }

  /** Slots in the order of the ticks that used them up, each tick at most once. */
  ghost predicate Ascending(slots: seq<TickId>, below: TickId) {
    && (forall k <- slots :: k < below)
    && forall i, j | 0 <= i < j < |slots| :: slots[i] < slots[j]
  }

  lemma AscendingPush(slots: seq<TickId>, k: TickId)
    requires Ascending(slots, k)
    ensures Ascending(slots, k + 1) && Ascending(slots + [k], k + 1)
  {
    forall i, j | 0 <= i < j < |slots + [k]| ensures (slots + [k])[i] < (slots + [k])[j] {
      assert (slots + [k])[i] == slots[i] && slots[i] in slots;
    }
  }

  /** A tick uses up at most one slot of a dashboard. */
  ghost predicate TicksOK(s: State, g: Ledger) {
    && (forall d <- g.slots :: d in s.db.dashboards)
    && forall d: DashboardId :: Ascending(g.Slots(d), s.work.ticks)
  }

  /** Each slot used up has exactly one fate. */
  ghost predicate FatesOK(s: State, g: Ledger) {
    forall k, d ::
      && (Issued(g, k, d) <==> Owes(s, k, d) || Ticket(k, d) in g.lost || Ticket(k, d) in g.spent)
      && !(Owes(s, k, d) && Ticket(k, d) in g.lost)
      && !(Owes(s, k, d) && Ticket(k, d) in g.spent)
      && !(Ticket(k, d) in g.lost && Ticket(k, d) in g.spent)
  }

  /** Jobs and spent tickets correspond one to one. */
  ghost predicate OriginsOK(s: State, g: Ledger) {
    && g.origin.Keys == s.db.jobs.Keys
    && (forall j <- g.origin ::
          && g.origin[j] in g.spent && g.spent[g.origin[j]] == j
          && g.origin[j].dashboard == s.db.jobs[j].dashboard)
    && forall t <- g.spent :: g.spent[t] in g.origin && g.origin[g.spent[t]] == t
  }

  ghost predicate SlotsOK(s: State, g: Ledger) {
    ClockworkOK(s, g) && TicksOK(s, g) && FatesOK(s, g) && OriginsOK(s, g)
  }

  lemma TickUpdateClockwork(s: State, g: Ledger, now: Time)
    requires ClockworkOK(s, g)
    ensures ClockworkOK(Next(s, TickUpdate(now)), Record(s, g, TickUpdate(now)))
  {
    if now <= s.clock {
      forall d <- s.db.dashboards
        ensures ClockworkAt(Advanced(s.db.dashboards[d], now), |Record(s, g, TickUpdate(now)).Slots(d)|, s.clock)
      {
        NextSlot(s.db.dashboards[d], |g.Slots(d)|);
      }
    }
  }

  lemma NextSlot(dash: Dashboard, n: int)
    ensures SlotTime(dash, n + 1) == SlotTime(dash, n) + dash.Period()
  {}

  /** A tick at `now` that the clock has reached uses up a slot of each dashboard that is due. */
  lemma TickUpdateLedger(s: State, g: Ledger, now: Time, d: DashboardId)
    requires now <= s.clock && TicksOK(s, g)
    ensures Record(s, g, TickUpdate(now)).Slots(d) ==
            if d in s.db.dashboards && IsDue(s.db.dashboards[d], now) then g.Slots(d) + [s.work.ticks] else g.Slots(d)
  {}

  lemma TickUpdateTicks(s: State, g: Ledger, now: Time)
    requires TicksOK(s, g)
    ensures TicksOK(Next(s, TickUpdate(now)), Record(s, g, TickUpdate(now)))
  {
    if now <= s.clock {
      forall d: DashboardId ensures Ascending(Record(s, g, TickUpdate(now)).Slots(d), s.work.ticks + 1) {
        TickUpdateLedger(s, g, now, d);
        AscendingPush(g.Slots(d), s.work.ticks);
      }
    }
  }

  lemma TickUpdateIssues(s: State, g: Ledger, now: Time)
    requires now <= s.clock && TicksOK(s, g)
    ensures
      var s', g' := DoTickUpdate(s, now).state, Record(s, g, TickUpdate(now));
      && (forall k, d ::
            Issued(g', k, d) <==>
              Issued(g, k, d) || (k == s.work.ticks && d in s.db.dashboards && IsDue(s.db.dashboards[d], now)))
      && (forall k, d ::
            Owes(s', k, d) <==>
              if k == s.work.ticks then d in s.db.dashboards && IsDue(s.db.dashboards[d], now) else Owes(s, k, d))
  {
    forall d: DashboardId, k: TickId
      ensures Issued(Record(s, g, TickUpdate(now)), k, d) <==>
                Issued(g, k, d) || (k == s.work.ticks && d in s.db.dashboards && IsDue(s.db.dashboards[d], now))
    {
      TickUpdateLedger(s, g, now, d);
    }
  }

  lemma TickUpdateFates(s: State, g: Ledger, now: Time)
    requires OwedOK(s.work.owed, s.db.dashboards, s.work.ticks, s.clock) && TicksOK(s, g) && FatesOK(s, g)
    ensures FatesOK(Next(s, TickUpdate(now)), Record(s, g, TickUpdate(now)))
  {
    if now <= s.clock {
      TickUpdateIssues(s, g, now);
      forall d ensures !Issued(g, s.work.ticks, d) { assert Ascending(g.Slots(d), s.work.ticks); }
    }
  }

  lemma TickUpdateSlots(s: State, g: Ledger, now: Time)
    requires Inv(s) && SlotsOK(s, g)
    ensures SlotsOK(Next(s, TickUpdate(now)), Record(s, g, TickUpdate(now)))
  {
    TickUpdateClockwork(s, g, now);
    TickUpdateTicks(s, g, now);
    TickUpdateFates(s, g, now);
  }

  lemma TickFailFates(s: State, g: Ledger, k: TickId)
    requires FatesOK(s, g)
    ensures FatesOK(DoTickFail(s, k).state, Abandon(s, g, k))
  {
    var s', g' := DoTickFail(s, k).state, Abandon(s, g, k);
    forall k', d
      ensures Owes(s', k', d) <==> Owes(s, k', d) && k' != k
      ensures Ticket(k', d) in g'.lost <==> Ticket(k', d) in g.lost || (k' == k && Owes(s, k, d))
      ensures Issued(g', k', d) == Issued(g, k', d)
    {}
  }

  lemma TickFailSlots(s: State, g: Ledger, k: TickId)
    requires SlotsOK(s, g)
    ensures SlotsOK(DoTickFail(s, k).state, Abandon(s, g, k))
  {
    TickFailFates(s, g, k);
    var s', g' := DoTickFail(s, k).state, Abandon(s, g, k);
    assert s'.db == s.db && s'.clock == s.clock && s'.work.ticks == s.work.ticks;
    SameSlots(s, s', g, g');
  }

  /** A step that writes neither dashboards nor slots keeps the times of the slots. */
  lemma SameSlots(s: State, s': State, g: Ledger, g': Ledger)
    requires ClockworkOK(s, g) && TicksOK(s, g) && OriginsOK(s, g)
    requires s'.db == s.db && s'.clock == s.clock && s'.work.ticks == s.work.ticks
    requires g'.slots == g.slots && g'.spent == g.spent && g'.origin == g.origin
    ensures ClockworkOK(s', g') && TicksOK(s', g') && OriginsOK(s', g')
  {
    forall d: DashboardId ensures g'.Slots(d) == g.Slots(d) {}
  }

  lemma TickInsertFates(s: State, g: Ledger, k: TickId, d: DashboardId, j: JobId)
    requires FatesOK(s, g) && Owes(s, k, d) && j !in s.db.jobs
    ensures FatesOK(Next(s, TickInsert(k, d, j)), Record(s, g, TickInsert(k, d, j)))
  {
    var s', g' := DoTickInsert(s, k, d, j).state, Record(s, g, TickInsert(k, d, j));
    forall k', d'
      ensures Owes(s', k', d') <==> Owes(s, k', d') && Ticket(k', d') != Ticket(k, d)
      ensures Ticket(k', d') in g'.spent <==> Ticket(k', d') in g.spent || Ticket(k', d') == Ticket(k, d)
      ensures Issued(g', k', d') == Issued(g, k', d')
    {}
  }

  lemma TickInsertOrigins(s: State, g: Ledger, k: TickId, d: DashboardId, j: JobId)
    requires OriginsOK(s, g) && Owes(s, k, d) && j !in s.db.jobs && Ticket(k, d) !in g.spent
    ensures OriginsOK(Next(s, TickInsert(k, d, j)), Record(s, g, TickInsert(k, d, j)))
  {}

  lemma TickInsertSlots(s: State, g: Ledger, k: TickId, d: DashboardId, j: JobId)
    requires SlotsOK(s, g)
    ensures SlotsOK(Next(s, TickInsert(k, d, j)), Record(s, g, TickInsert(k, d, j)))
  {
    if Owes(s, k, d) {
      if j in s.db.jobs {
        TickFailSlots(s, g, k);
      } else {
        TickInsertFates(s, g, k, d, j);
        TickInsertOrigins(s, g, k, d, j);
        var g' := Record(s, g, TickInsert(k, d, j));
        assert forall d :: g'.Slots(d) == g.Slots(d);
        assert forall k', d' :: Issued(g', k', d') == Issued(g, k', d');
      }
    }
  }

  /** What every other step leaves alone, except that a new dashboard starts with its first slot unused. */
  ghost predicate SameSchedule(s: State, s': State) {
    && s'.work.owed == s.work.owed && s'.work.ticks == s.work.ticks && s.clock <= s'.clock
    && (forall d <- s.db.dashboards :: d in s'.db.dashboards && s'.db.dashboards[d] == s.db.dashboards[d])
    && (forall d <- s'.db.dashboards :: d !in s.db.dashboards ==>
          s'.db.dashboards[d].nextRunAt == s'.db.dashboards[d].createdAt)
    && s'.db.jobs.Keys == s.db.jobs.Keys
    && forall j <- s.db.jobs :: s'.db.jobs[j].dashboard == s.db.jobs[j].dashboard
  }

  lemma SameScheduleSlots(s: State, s': State, g: Ledger)
    requires SlotsOK(s, g) && SameSchedule(s, s')
    ensures SlotsOK(s', g)
  {
    forall d <- s'.db.dashboards ensures ClockworkAt(s'.db.dashboards[d], |g.Slots(d)|, s'.clock) {
      assert d in s.db.dashboards ==> ClockworkAt(s.db.dashboards[d], |g.Slots(d)|, s.clock);
    }
    assert OriginsOK(s', g);
  }

  lemma OtherSlots(s: State, g: Ledger, step: Step)
    requires SlotsOK(s, g)
    requires !step.TickUpdate? && !step.TickInsert? && !step.TickFail?
    ensures SlotsOK(Next(s, step), g)
  {
    var s' := Next(s, step);
    ScheduleFrame(s, step);
    ClockStep(s, step);
    forall j <- s.db.jobs ensures j in s'.db.jobs && s'.db.jobs[j].dashboard == s.db.jobs[j].dashboard {
      JobEdge(s, step, j);
    }
    forall j <- s'.db.jobs ensures j in s.db.jobs {
      if j !in s.db.jobs { JobBirth(s, step, j); }
    }
    assert s'.db.jobs.Keys == s.db.jobs.Keys;
    SameScheduleSlots(s, s', g);
  }

  lemma ScheduleFrame(s: State, step: Step)
    requires !step.TickUpdate? && !step.TickInsert? && !step.TickFail?
    ensures Next(s, step).work.owed == s.work.owed && Next(s, step).work.ticks == s.work.ticks
    ensures forall d <- s.db.dashboards ::
              d in Next(s, step).db.dashboards && Next(s, step).db.dashboards[d] == s.db.dashboards[d]
    ensures forall d <- Next(s, step).db.dashboards :: d !in s.db.dashboards ==>
              Next(s, step).db.dashboards[d].nextRunAt == Next(s, step).db.dashboards[d].createdAt
  {
    TicksFrame(s, step);
    if !step.CreateDashboard? { DashboardsFrame(s, step); }
  }

  lemma TicksFrame(s: State, step: Step)
    requires !step.TickUpdate? && !step.TickInsert? && !step.TickFail?
    ensures Next(s, step).work.owed == s.work.owed && Next(s, step).work.ticks == s.work.ticks
  {}

  lemma DashboardsFrame(s: State, step: Step)
    requires !step.TickUpdate? && !step.CreateDashboard?
    ensures Next(s, step).db.dashboards == s.db.dashboards
  {}

  lemma SlotsStep(s: State, g: Ledger, step: Step)
    requires Inv(s) && SlotsOK(s, g)
    ensures SlotsOK(Next(s, step), Record(s, g, step))
  {
    match step
    case TickUpdate(now) => TickUpdateSlots(s, g, now);
    case TickInsert(k, d, j) => TickInsertSlots(s, g, k, d, j);
    case TickFail(k) => TickFailSlots(s, g, k);
    case _ => OtherSlots(s, g, step);
  }

  lemma {:induction false} SlotsAlways(s: State, g: Ledger, steps: seq<Step>)
    requires Inv(s) && SlotsOK(s, g)
    ensures Inv(Run(s, steps)) && SlotsOK(Run(s, steps), LedgerAfter(s, g, steps))
    decreases steps
  {
    if steps != [] {
      InvStep(s, steps[0]);
      SlotsStep(s, g, steps[0]);
      SlotsAlways(Next(s, steps[0]), Record(s, g, steps[0]), steps[1..]);
    }
  }
}
