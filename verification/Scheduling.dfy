/** What the ledger gives: slot conservation, the bound on jobs, catching up, and no drift. */
module Scheduling {
  import opened Tables
  import opened Protocol
  import opened Coherence
  import opened Lifecycle
  import opened Slots
  import opened Counting

  function JobsOf(s: State, d: DashboardId): set<JobId> {
    set j | j in s.db.jobs && s.db.jobs[j].dashboard == d
  }

  /** The ticks that still owe dashboard d an INSERT. */
  function OwedTo(s: State, d: DashboardId): set<TickId> {
    set k | k in s.work.owed && d in s.work.owed[k]
  }

  /** The failed ticks that never made dashboard d's INSERT. */
  function LostTo(g: Ledger, d: DashboardId): set<TickId> {
    set t | t in g.lost && t.dashboard == d :: t.tick
  }

  function SpentOn(g: Ledger, d: DashboardId): set<TickId> {
    set t | t in g.spent && t.dashboard == d :: t.tick
  }

  lemma TicketSets(g: Ledger, d: DashboardId, k: TickId)
    ensures k in SpentOn(g, d) <==> Ticket(k, d) in g.spent
    ensures k in LostTo(g, d) <==> Ticket(k, d) in g.lost
  {
    if k in SpentOn(g, d) {
      var t :| t in g.spent && t.dashboard == d && t.tick == k;
      assert t == Ticket(k, d);
    }
    if k in LostTo(g, d) {
      var t :| t in g.lost && t.dashboard == d && t.tick == k;
      assert t == Ticket(k, d);
    }
  }

  lemma JobsAreSpentTickets(s: State, g: Ledger, d: DashboardId)
    requires SlotsOK(s, g)
    ensures |JobsOf(s, d)| == |SpentOn(g, d)|
  {
    var f := map j | j in JobsOf(s, d) :: g.origin[j].tick;
    forall x, y | x in JobsOf(s, d) && y in JobsOf(s, d) && f[x] == f[y] ensures x == y {
      assert g.origin[x] == g.origin[y];
    }
    forall j <- JobsOf(s, d) ensures f[j] in SpentOn(g, d) {
      assert g.origin[j] == Ticket(f[j], d);
      TicketSets(g, d, f[j]);
    }
    forall k <- SpentOn(g, d) ensures exists j :: j in JobsOf(s, d) && f[j] == k {
      TicketSets(g, d, k);
      var j := g.spent[Ticket(k, d)];
      assert g.origin[j] == Ticket(k, d);
      assert j in JobsOf(s, d) && f[j] == k;
    }
    ImageSize(JobsOf(s, d), SpentOn(g, d), f);
  }

  lemma FatesPartition(s: State, g: Ledger, d: DashboardId)
    requires FatesOK(s, g)
    ensures Elements(g.Slots(d)) == SpentOn(g, d) + OwedTo(s, d) + LostTo(g, d)
    ensures SpentOn(g, d) !! OwedTo(s, d) !! LostTo(g, d)
  {
    forall k
      ensures k in Elements(g.Slots(d)) <==> k in SpentOn(g, d) || k in OwedTo(s, d) || k in LostTo(g, d)
      ensures !(k in SpentOn(g, d) && k in OwedTo(s, d))
      ensures !(k in LostTo(g, d) && (k in SpentOn(g, d) || k in OwedTo(s, d)))
    {
      TicketSets(g, d, k);
      assert Issued(g, k, d) <==> Owes(s, k, d) || Ticket(k, d) in g.lost || Ticket(k, d) in g.spent;
    }
  }

  lemma Conservation(s: State, g: Ledger, d: DashboardId)
    requires SlotsOK(s, g)
    ensures |JobsOf(s, d)| + |OwedTo(s, d)| + |LostTo(g, d)| == |g.Slots(d)|
  {
    JobsAreSpentTickets(s, g, d);
    DistinctSize(g.Slots(d));
    FatesPartition(s, g, d);
  }

  lemma Reachable(clock: Time, steps: seq<Step>)
    ensures Inv(Run(Init(clock), steps)) && SlotsOK(Run(Init(clock), steps), LedgerAfter(Init(clock), EMPTY, steps))
  {
    InitCoherent(clock);
    SlotsAlways(Init(clock), EMPTY, steps);
  }

  /**
    Slot conservation: in every run, next_run_at lies exactly (jobs inserted + inserts owed +
    inserts lost to a failed tick) periods after the dashboard's creation.
   */
  lemma SlotConservation(clock: Time, steps: seq<Step>, d: DashboardId)
    requires d in Run(Init(clock), steps).db.dashboards
    ensures
      var s, g := Run(Init(clock), steps), LedgerAfter(Init(clock), EMPTY, steps);
      var dash := s.db.dashboards[d];
      dash.nextRunAt ==
        dash.createdAt + (|JobsOf(s, d)| + |OwedTo(s, d)| + |LostTo(g, d)|) * (dash.refreshInterval * 1_000_000)
  {
    Reachable(clock, steps);
    Conservation(Run(Init(clock), steps), LedgerAfter(Init(clock), EMPTY, steps), d);
  }

  /** A job was inserted for slot i of dashboard d. */
  ghost predicate FillsSlot(g: Ledger, j: JobId, d: DashboardId, i: int) {
    0 <= i < |g.Slots(d)| && j in g.origin && g.origin[j] == Ticket(g.Slots(d)[i], d)
  }

  /** No slot yields two jobs, no job fills two slots, and a slot neither owed nor lost yields one. */
  lemma OneJobPerSlot(clock: Time, steps: seq<Step>, d: DashboardId, i: int)
    requires
      d in Run(Init(clock), steps).db.dashboards && 0 <= i < |LedgerAfter(Init(clock), EMPTY, steps).Slots(d)|
    ensures
      var s, g := Run(Init(clock), steps), LedgerAfter(Init(clock), EMPTY, steps);
      var k := g.Slots(d)[i];
      && (forall j, j' | FillsSlot(g, j, d, i) && FillsSlot(g, j', d, i) :: j == j')
      && (forall j, i' | FillsSlot(g, j, d, i) && FillsSlot(g, j, d, i') :: i == i')
      && (k !in OwedTo(s, d) && k !in LostTo(g, d) ==> exists j :: FillsSlot(g, j, d, i) && j in JobsOf(s, d))
  {
    Reachable(clock, steps);
    var s, g := Run(Init(clock), steps), LedgerAfter(Init(clock), EMPTY, steps);
    var k := g.Slots(d)[i];
    assert Issued(g, k, d);
    if k !in OwedTo(s, d) && k !in LostTo(g, d) {
      assert Ticket(k, d) in g.spent;
      assert FillsSlot(g, g.spent[Ticket(k, d)], d, i);
    }
  }

  /** A run in which no tick fails: no exception and no primary-key clash. */
  ghost predicate NoTickFails(s: State, steps: seq<Step>)
    decreases steps
  {
    steps != [] ==>
      && !steps[0].TickFail?
      && (steps[0].TickInsert? ==> steps[0].newJob !in s.db.jobs)
      && NoTickFails(Next(s, steps[0]), steps[1..])
  }

  lemma {:induction false} NothingLost(s: State, g: Ledger, steps: seq<Step>)
    requires NoTickFails(s, steps)
    ensures LedgerAfter(s, g, steps).lost == g.lost
    decreases steps
  {
    if steps != [] {
      NothingLost(Next(s, steps[0]), Record(s, g, steps[0]), steps[1..]);
    }
  }

  // ---- How many jobs there can be ----

  /** The slots whose time has come by `now`, counted from the dashboard's creation. */
  function SlotsBy(dash: Dashboard, now: Time): int
    requires dash.refreshInterval > 0
  {
    (now - dash.createdAt) / dash.Period() + 1
  }

  /** A dashboard never has more jobs than slots whose time has come. */
  lemma EnqueueBound(clock: Time, steps: seq<Step>, d: DashboardId)
    requires d in Run(Init(clock), steps).db.dashboards
    ensures
      var s := Run(Init(clock), steps);
      && s.db.dashboards[d].refreshInterval > 0
      && var dash := s.db.dashboards[d];
         |JobsOf(s, d)| <= (s.clock - dash.createdAt) / (dash.refreshInterval * 1_000_000) + 1
  {
    Reachable(clock, steps);
    var s, g := Run(Init(clock), steps), LedgerAfter(Init(clock), EMPTY, steps);
    Conservation(s, g, d);
    var dash, n := s.db.dashboards[d], |g.Slots(d)|;
    UsedSlotsHaveCome(dash, n, s.clock);
  }

  lemma UsedSlotsHaveCome(dash: Dashboard, n: int, now: Time)
    requires dash.refreshInterval > 0 && dash.createdAt <= now && 0 <= n
    requires n > 0 ==> SlotTime(dash, n) - dash.Period() <= now
    ensures n <= SlotsBy(dash, now)
  {
    MulMonotone(n - 1, n - 1, dash.Period());
    if n > 0 {
      MulDiv(n - 1, now - dash.createdAt, dash.Period());
    } else {
      MulDiv(0, now - dash.createdAt, dash.Period());
    }
  }

  // ---- Catching up ----

  /** The advances a dashboard needs before its next slot lies after `now`. */
  function Backlog(dash: Dashboard, now: Time): int
    requires dash.refreshInterval > 0
  {
    if dash.nextRunAt > now then 0 else (now - dash.nextRunAt) / dash.Period() + 1
  }

  /** Every tick of the run has captured the time `now`. */
  ghost predicate TicksAt(steps: seq<Step>, now: Time) {
    forall step <- steps :: step.TickUpdate? ==> step.now == now
  }

  function TickCount(steps: seq<Step>): nat
    decreases steps
  {
    if steps == [] then 0 else (if steps[0].TickUpdate? then 1 else 0) + TickCount(steps[1..])
  }

  function Min(a: int, b: int): int {
    if a <= b then a else b
  }

  predicate SameDefinition(a: Dashboard, b: Dashboard) {
    && a.tenant == b.tenant && a.name == b.name && a.sql == b.sql
    && a.refreshInterval == b.refreshInterval && a.createdAt == b.createdAt
  }

  lemma DashboardEdge(s: State, step: Step, d: DashboardId)
    requires d in s.db.dashboards
    ensures d in Next(s, step).db.dashboards
    ensures Next(s, step).db.dashboards[d] ==
            if step.TickUpdate? && step.now <= s.clock then Advanced(s.db.dashboards[d], step.now)
            else s.db.dashboards[d]
  {
    if !step.TickUpdate? && !step.TickInsert? && !step.TickFail? {
      ScheduleFrame(s, step);
    }
  }

  lemma AdvanceBacklog(dash: Dashboard, now: Time)
    requires dash.refreshInterval > 0
    ensures Backlog(dash, now) >= 0 && (Backlog(dash, now) == 0 <==> dash.nextRunAt > now)
    ensures Backlog(dash, now) > 0 ==> Backlog(Advanced(dash, now), now) == Backlog(dash, now) - 1
  {
    if dash.nextRunAt <= now {
      MulDiv(0, now - dash.nextRunAt, dash.Period());
      var dash' := Advanced(dash, now);
      if dash'.nextRunAt <= now {
        DivShift(now - dash'.nextRunAt, dash.Period());
      } else {
        DivUnique(0, now - dash.nextRunAt, dash.Period());
      }
    }
  }

  /**
    Catching up: whatever else happens, m ticks at a fixed time advance a dashboard by exactly
    min(m, backlog) slots, so exactly as many ticks are needed as there are slots due.
   */
  lemma {:induction false} CatchUp(s: State, steps: seq<Step>, d: DashboardId, now: Time)
    requires d in s.db.dashboards && s.db.dashboards[d].refreshInterval > 0
    requires TicksAt(steps, now) && now <= s.clock
    ensures d in Run(s, steps).db.dashboards && SameDefinition(Run(s, steps).db.dashboards[d], s.db.dashboards[d])
    ensures Run(s, steps).db.dashboards[d].nextRunAt ==
            s.db.dashboards[d].nextRunAt
            + Min(TickCount(steps), Backlog(s.db.dashboards[d], now)) * s.db.dashboards[d].Period()
    decreases steps
  {
    var dash := s.db.dashboards[d];
    AdvanceBacklog(dash, now);
    if steps != [] {
      var s' := Next(s, steps[0]);
      assert steps[0] in steps;
      DashboardEdge(s, steps[0], d);
      ClockStep(s, steps[0]);
      CatchUp(s', steps[1..], d, now);
      var m := Min(TickCount(steps[1..]), Backlog(s'.db.dashboards[d], now));
      MulMonotone(m, m, dash.Period());
      AdvanceBacklog(s'.db.dashboards[d], now);
    }
  }

  /**
    Enough ticks at the present time, with no failure and no INSERT outstanding, leave a
    dashboard with exactly one job for every slot whose time has come.
   */
  lemma CatchUpComplete(clock: Time, past: seq<Step>, steps: seq<Step>, d: DashboardId)
    requires d in Run(Init(clock), past).db.dashboards && TicksAt(steps, Run(Init(clock), past).clock)
    requires
      var s := Run(Init(clock), past);
      s.db.dashboards[d].refreshInterval > 0 && Backlog(s.db.dashboards[d], s.clock) <= TickCount(steps)
    requires OwedTo(Run(Init(clock), past + steps), d) == {}
    requires LostTo(LedgerAfter(Init(clock), EMPTY, past + steps), d) == {}
    ensures
      var s := Run(Init(clock), past);
      |JobsOf(Run(Init(clock), past + steps), d)| == SlotsBy(s.db.dashboards[d], s.clock)
  {
    var s, s' := Run(Init(clock), past), Run(Init(clock), past + steps);
    var g, g' := LedgerAfter(Init(clock), EMPTY, past), LedgerAfter(Init(clock), EMPTY, past + steps);
    RunConcat(Init(clock), past, steps);
    Reachable(clock, past);
    Reachable(clock, past + steps);
    CatchUp(s, steps, d, s.clock);
    Conservation(s', g', d);
    var dash, n, n' := s.db.dashboards[d], |g.Slots(d)|, |g'.Slots(d)|;
    var p := dash.Period();
    CaughtUp(dash, n, n', s.clock);
  }

  /** The arithmetic of a cleared backlog. */
  lemma CaughtUp(dash: Dashboard, n: int, n': int, now: Time)
    requires dash.refreshInterval > 0 && dash.createdAt <= now
    requires dash.nextRunAt == SlotTime(dash, n) && 0 <= n && (n > 0 ==> dash.nextRunAt - dash.Period() <= now)
    requires SlotTime(dash, n') == dash.nextRunAt + Backlog(dash, now) * dash.Period()
    ensures n' == SlotsBy(dash, now)
  {
    var p, b := dash.Period(), Backlog(dash, now);
    SameMultiple(n', n + b, p);
    assert (n + b) * p == n * p + b * p;
    var x := now - dash.createdAt;
    if dash.nextRunAt > now {
      MulMonotone(n - 1, n - 1, p);
      assert SlotTime(dash, 0) == dash.createdAt;
      assert n > 0;
      DivUnique(n - 1, x, p);
    } else {
      var y := now - dash.nextRunAt;
      assert x == n * p + y;
      assert y == y / p * p + y % p;
      assert (n + y / p) * p == n * p + y / p * p;
      DivUnique(n + y / p, x, p);
    }
  }

  lemma SameMultiple(a: int, b: int, p: int)
    requires p > 0
    ensures a * p == b * p ==> a == b
  {
    MulMonotone(a, a, p);
    MulMonotone(b, b, p);
    MulMonotone(a + 1, b, p);
    MulMonotone(b + 1, a, p);
  }

  // ---- Drift ----

  /** After a tick at `now` the next slot lies ahead exactly when the old one was less than a period behind. */
  lemma AheadAfterTick(s: State, now: Time, d: DashboardId)
    requires Inv(s) && d in s.db.dashboards && now <= s.clock
    ensures
      var dash := s.db.dashboards[d];
      now < Next(s, TickUpdate(now)).db.dashboards[d].nextRunAt <==> now - dash.Period() < dash.nextRunAt
  {}

  /** Ticks run no earlier than the one before and at most one period later, the first within a period of `last`. */
  ghost predicate Punctual(s: State, steps: seq<Step>, last: Time, period: Time)
    decreases steps
  {
    steps != [] ==>
      if steps[0].TickUpdate? then
        && last <= steps[0].now <= last + period && steps[0].now <= s.clock
        && Punctual(Next(s, steps[0]), steps[1..], steps[0].now, period)
      else Punctual(Next(s, steps[0]), steps[1..], last, period)
  }

  /** Successive ticks are at least `gap` apart. */
  ghost predicate Sluggish(s: State, steps: seq<Step>, last: Time, gap: Time)
    decreases steps
  {
    steps != [] ==>
      if steps[0].TickUpdate? then
        last + gap <= steps[0].now <= s.clock && Sluggish(Next(s, steps[0]), steps[1..], steps[0].now, gap)
      else Sluggish(Next(s, steps[0]), steps[1..], last, gap)
  }

  /** The time of the last tick of a run. */
  function LastTick(steps: seq<Step>, last: Time): Time
    decreases steps
  {
    if steps == [] then last
    else LastTick(steps[1..], if steps[0].TickUpdate? then steps[0].now else last)
  }

  lemma {:induction false} NoDriftFrom(s: State, steps: seq<Step>, d: DashboardId, last: Time)
    requires d in s.db.dashboards
    requires last < s.db.dashboards[d].nextRunAt <= last + s.db.dashboards[d].Period()
    requires Punctual(s, steps, last, s.db.dashboards[d].Period())
    ensures d in Run(s, steps).db.dashboards
    ensures LastTick(steps, last) < Run(s, steps).db.dashboards[d].nextRunAt
                                 <= LastTick(steps, last) + s.db.dashboards[d].Period()
    decreases steps
  {
    if steps != [] {
      DashboardEdge(s, steps[0], d);
      NoDriftFrom(Next(s, steps[0]), steps[1..], d, if steps[0].TickUpdate? then steps[0].now else last);
    }
  }

  /**
    No drift: from the creation of a dashboard, if the first tick comes less than a period later
    and ticks are at most a period apart, then after every tick at `now`,
    now < next_run_at <= now + period.
   */
  lemma NoDrift(
    s: State, d: DashboardId, t: TenantId, name: string, sql: string, interval: int, steps: seq<Step>)
    requires DoCreateDashboard(s, d, t, name, sql, interval).reply == Created
    requires
      Punctual(DoCreateDashboard(s, d, t, name, sql, interval).state, steps, s.clock - 1, interval * 1_000_000)
    ensures
      var s' := Run(DoCreateDashboard(s, d, t, name, sql, interval).state, steps);
      var now := LastTick(steps, s.clock - 1);
      d in s'.db.dashboards && now < s'.db.dashboards[d].nextRunAt <= now + interval * 1_000_000
  {
    NoDriftFrom(DoCreateDashboard(s, d, t, name, sql, interval).state, steps, d, s.clock - 1);
  }

  /**
    Falling behind: a tick makes up for one slot only, so a dashboard whose period is shorter than
    the gap between ticks gets further behind with every tick. A refresh interval of five seconds
    is allowed, and the scheduler sleeps five seconds after each tick.
   */
  lemma {:induction false} FallsBehind(s: State, steps: seq<Step>, d: DashboardId, last: Time, gap: Time)
    requires d in s.db.dashboards && Sluggish(s, steps, last, gap)
    requires s.db.dashboards[d].refreshInterval > 0
    ensures d in Run(s, steps).db.dashboards
    ensures LastTick(steps, last) - Run(s, steps).db.dashboards[d].nextRunAt
            >= last - s.db.dashboards[d].nextRunAt + TickCount(steps) * (gap - s.db.dashboards[d].Period())
    decreases steps
  {
    if steps != [] {
      DashboardEdge(s, steps[0], d);
      FallsBehind(Next(s, steps[0]), steps[1..], d, if steps[0].TickUpdate? then steps[0].now else last, gap);
      var n, g := TickCount(steps[1..]), gap - s.db.dashboards[d].Period();
      assert (n + 1) * g == n * g + g;
    }
  }

  /** With no failed tick, every slot used up is owed an INSERT or has exactly one job. */
  lemma EverySlotOnce(clock: Time, steps: seq<Step>, d: DashboardId, i: int)
    requires NoTickFails(Init(clock), steps) && d in Run(Init(clock), steps).db.dashboards
    requires 0 <= i < |LedgerAfter(Init(clock), EMPTY, steps).Slots(d)|
    ensures
      var s, g := Run(Init(clock), steps), LedgerAfter(Init(clock), EMPTY, steps);
      || g.Slots(d)[i] in OwedTo(s, d)
      || exists j :: FillsSlot(g, j, d, i) && forall j' | FillsSlot(g, j', d, i) :: j' == j
  {
    NothingLost(Init(clock), EMPTY, steps);
    OneJobPerSlot(clock, steps, d, i);
    var s, g := Run(Init(clock), steps), LedgerAfter(Init(clock), EMPTY, steps);
    assert g.Slots(d)[i] !in LostTo(g, d);
    if g.Slots(d)[i] !in OwedTo(s, d) {
      var j :| FillsSlot(g, j, d, i) && j in JobsOf(s, d);
      assert forall j' | FillsSlot(g, j', d, i) :: j' == j;
    }
  }
}
