/**
  The life of a job over every run: jobs are never deleted, a status changes only along the
  documented edges (plus pending straight to terminal, which the submit handler allows), terminal
  is absorbing, and a lease lasts strictly longer than its timeout plus the grace period.
 */
module Lifecycle {
  import opened Tables
  import opened Protocol
  import opened Coherence

  /** The columns no statement ever updates. */
  predicate SameOrder(a: Job, b: Job) {
    && a.tenant == b.tenant && a.dashboard == b.dashboard && a.sql == b.sql
    && a.timeoutMs == b.timeoutMs && a.createdAt == b.createdAt
  }

  /** Step claims job j for the tenant of its poll. */
  ghost predicate Claims(s: State, step: Step, j: JobId) {
    && step.ProbeTransaction? && step.poll in s.work.polls && step.pick == j
    && DoProbeTransaction(s, step.poll, j).reply.Granted?
  }

  /** Step is the transaction of an accepted post for job j. */
  predicate Accepts(s: State, step: Step, j: JobId) {
    && step.SubmitCommit? && step.request in s.work.submissions
    && s.work.submissions[step.request].job == j && j in s.db.jobs
  }

  /** Step resets job j because its lease has expired. */
  predicate Expires(s: State, step: Step, j: JobId) {
    step.Reap? && step.now <= s.clock && j in s.db.jobs && Stale(s.db.jobs[j], step.now)
  }

  /** Only four kinds of step write the jobs table. */
  lemma JobsFrame(s: State, step: Step)
    requires !step.ProbeTransaction? && !step.SubmitCommit? && !step.TickInsert? && !step.Reap?
    ensures Next(s, step).db.jobs == s.db.jobs
  {}

  /** A job survives every step and changes only by being claimed, accepted or reaped. */
  lemma JobEdge(s: State, step: Step, j: JobId)
    requires j in s.db.jobs
    ensures j in Next(s, step).db.jobs
    ensures
      var job, job' := s.db.jobs[j], Next(s, step).db.jobs[j];
      if Claims(s, step, j) then
        job.status == Pending && job' == Claimed(job, s.work.polls[step.poll].agent, s.clock)
      else if Accepts(s, step, j) then
        job' == job.(status := if s.work.submissions[step.request].body.success then Done else Failed)
      else if Expires(s, step, j) then
        job.status == Running && job' == job.(status := Pending, claimedBy := None, claimedAt := None)
      else job' == job
  {
    if !step.ProbeTransaction? && !step.SubmitCommit? && !step.TickInsert? && !step.Reap? {
      JobsFrame(s, step);
    }
  }

  /** A job appears only by an INSERT that a tick owes, and appears pending. */
  lemma JobBirth(s: State, step: Step, j: JobId)
    requires j in Next(s, step).db.jobs && j !in s.db.jobs
    ensures step.TickInsert? && step.newJob == j && Owes(s, step.tick, step.dashboard)
    ensures
      var job, due := Next(s, step).db.jobs[j], s.work.owed[step.tick][step.dashboard];
      && job.tenant == due.tenant && job.dashboard == step.dashboard && job.sql == due.sql
      && job.status == Pending && job.claimedBy == None && job.claimedAt == None
      && job.timeoutMs == 30000 && job.createdAt == due.at
  {
    if !step.ProbeTransaction? && !step.SubmitCommit? && !step.TickInsert? && !step.Reap? {
      JobsFrame(s, step);
    }
  }

  lemma ClockStep(s: State, step: Step)
    ensures Next(s, step).clock == s.clock + (if step.Advance? then step.elapsed else 0)
  {}

  /** The check changes nothing, or adds one post to those being handled. */
  lemma CheckEffect(s: State, r: RequestId, a: AgentId, j: JobId, body: Body)
    ensures
      var outcome := DoSubmitCheck(s, r, a, j, body);
      if outcome.reply != Suspended then outcome.state == s
      else
        && r !in s.work.submissions && a in s.db.agents && j in s.db.jobs
        && outcome.state == s.(work := s.work.(submissions := outcome.state.work.submissions))
        && outcome.state.work.submissions
           == s.work.submissions[r := Submission(a, s.db.agents[a].tenant, j, s.db.jobs[j].dashboard, body, s.clock)]
  {}

  /** Over any run: no job is deleted, its order is unchanged, and {done, failed} is absorbing. */
  lemma {:induction false} JobForever(s: State, steps: seq<Step>, j: JobId)
    requires j in s.db.jobs
    ensures j in Run(s, steps).db.jobs
    ensures SameOrder(s.db.jobs[j], Run(s, steps).db.jobs[j])
    ensures s.db.jobs[j].Terminal() ==> Run(s, steps).db.jobs[j].Terminal()
    decreases steps
  {
    if steps != [] {
      JobEdge(s, steps[0], j);
      JobForever(Next(s, steps[0]), steps[1..], j);
    }
  }

  lemma {:induction false} ClockForever(s: State, steps: seq<Step>)
    ensures s.clock <= Run(s, steps).clock
    decreases steps
  {
    if steps != [] {
      ClockStep(s, steps[0]);
      ClockForever(Next(s, steps[0]), steps[1..]);
    }
  }

  /** A lease ends, other than by acceptance, only strictly later than its timeout plus ten seconds. */
  lemma ReapedOnlyAfterTimeout(s: State, step: Step, j: JobId)
    requires Inv(s) && j in s.db.jobs && s.db.jobs[j].status == Running
    requires Next(s, step).db.jobs[j].status == Pending
    ensures s.db.jobs[j].claimedAt.value + s.db.jobs[j].timeoutMs * 1000 + 10_000_000 < s.clock
  {
    JobEdge(s, step, j);
    assert CopiesDashboard(s.db.jobs[j], s.db.dashboards);
  }

  /** After a reap at `now`, no job is running on a claim older than forty seconds; a reap touches nothing else. */
  lemma ReapComplete(s: State, now: Time)
    requires Inv(s) && now <= s.clock
    ensures
      var s' := Next(s, Reap(now));
      && s'.db == s.db.(jobs := s'.db.jobs) && s'.work == s.work && s'.db.jobs.Keys == s.db.jobs.Keys
      && forall j <- s.db.jobs ::
           && (s'.db.jobs[j].status == Running ==> now - 40_000_000 <= s'.db.jobs[j].claimedAt.value)
           && (s.db.jobs[j].status != Running ==> s'.db.jobs[j] == s.db.jobs[j])
           && (s.db.jobs[j].status == Running && now - 40_000_000 <= s.db.jobs[j].claimedAt.value ==>
                 s'.db.jobs[j] == s.db.jobs[j])
  {
    var s' := Next(s, Reap(now));
    assert s'.db.jobs.Keys == s.db.jobs.Keys;
    forall j <- s.db.jobs ensures LeaseOK(s.db.jobs[j], s.db.agents, s.clock) {}
  }

  /**
    The lease guarantee: through any run that ends within forty seconds of the claim, a running
    job for which no post has been accepted is still running, on the same claim.
   */
  lemma {:induction false} LeaseHolds(s: State, steps: seq<Step>, j: JobId)
    requires Inv(s) && j in s.db.jobs && s.db.jobs[j].status == Running
    requires Run(s, steps).clock <= s.db.jobs[j].claimedAt.value + 40_000_000
    requires j in Run(s, steps).db.jobs && !Run(s, steps).db.jobs[j].Terminal()
    ensures Run(s, steps).db.jobs[j] == s.db.jobs[j]
    decreases steps
  {
    if steps != [] {
      var s' := Next(s, steps[0]);
      InvStep(s, steps[0]);
      JobEdge(s, steps[0], j);
      ClockStep(s, steps[0]);
      ClockForever(s', steps[1..]);
      if Accepts(s, steps[0], j) {
        JobForever(s', steps[1..], j);
      }
      LeaseHolds(s', steps[1..], j);
    }
  }

  // ---- Agents stay, with their tenant ----

  lemma AgentEdge(s: State, step: Step, a: AgentId)
    requires a in s.db.agents
    ensures a in Next(s, step).db.agents && Next(s, step).db.agents[a].tenant == s.db.agents[a].tenant
  {}

  lemma {:induction false} AgentForever(s: State, steps: seq<Step>, a: AgentId)
    requires a in s.db.agents
    ensures a in Run(s, steps).db.agents && Run(s, steps).db.agents[a].tenant == s.db.agents[a].tenant
    decreases steps
  {
    if steps != [] {
      AgentEdge(s, steps[0], a);
      AgentForever(Next(s, steps[0]), steps[1..], a);
    }
  }

  // ---- Crash recovery ----

  /** The time of the latest reap so far. */
  function LastReap(s: State, step: Step, last: Time): Time {
    if step.Reap? && last <= step.now <= s.clock then step.now else last
  }

  /** At every point of the run the latest reap, counting from `last`, was at most `gap` ago. */
  ghost predicate ReapsEvery(s: State, steps: seq<Step>, last: Time, gap: Time)
    decreases steps
  {
    && s.clock <= last + gap
    && (steps != [] ==> ReapsEvery(Next(s, steps[0]), steps[1..], LastReap(s, steps[0], last), gap))
  }

  /** No job is running on a claim more than forty seconds older than `last`. */
  ghost predicate ClaimsSince(s: State, last: Time) {
    && last <= s.clock
    && forall j <- s.db.jobs :: s.db.jobs[j].status == Running ==>
         s.db.jobs[j].claimedAt.Some? && last - 40_000_000 <= s.db.jobs[j].claimedAt.value
  }

  lemma ClaimsSinceStep(s: State, step: Step, last: Time)
    requires ClaimsSince(s, last)
    ensures ClaimsSince(Next(s, step), LastReap(s, step, last))
  {
    ClockStep(s, step);
    var s' := Next(s, step);
    forall j <- s'.db.jobs
      ensures s'.db.jobs[j].status == Running ==>
                s'.db.jobs[j].claimedAt.Some? && LastReap(s, step, last) - 40_000_000 <= s'.db.jobs[j].claimedAt.value
    {
      if j in s.db.jobs { JobEdge(s, step, j); } else { JobBirth(s, step, j); }
    }
  }

  lemma {:induction false} RecoveredWithin(s: State, steps: seq<Step>, last: Time, gap: Time)
    requires ClaimsSince(s, last) && ReapsEvery(s, steps, last, gap)
    ensures forall j <- Run(s, steps).db.jobs :: Run(s, steps).db.jobs[j].status == Running ==>
              && Run(s, steps).db.jobs[j].claimedAt.Some?
              && Run(s, steps).clock <= Run(s, steps).db.jobs[j].claimedAt.value + 40_000_000 + gap
    decreases steps
  {
    if steps != [] {
      ClaimsSinceStep(s, steps[0], last);
      RecoveredWithin(Next(s, steps[0]), steps[1..], LastReap(s, steps[0], last), gap);
    }
  }

  /**
    Crash recovery: if reaps are never more than `gap` apart, then at no point of any run is a job
    running on a claim more than forty seconds and `gap` old, whatever became of its agent.
   */
  lemma CrashRecovery(clock: Time, steps: seq<Step>, gap: Time, j: JobId)
    requires ReapsEvery(Init(clock), steps, clock, gap)
    requires j in Run(Init(clock), steps).db.jobs && Run(Init(clock), steps).db.jobs[j].status == Running
    ensures
      var s := Run(Init(clock), steps);
      s.db.jobs[j].claimedAt.Some? && s.clock <= s.db.jobs[j].claimedAt.value + 40_000_000 + gap
  {
    RecoveredWithin(Init(clock), steps, clock, gap);
  }

  /** Once a dashboard has a result it always has one, so its reads never return to "pending". */
  lemma {:induction false} NeverPendingAgain(s: State, steps: seq<Step>, d: DashboardId)
    requires Inv(s) && GetDashboardData(s, d).Latest?
    ensures GetDashboardData(Run(s, steps), d).Latest?
    decreases steps
  {
    if steps != [] {
      InvStep(s, steps[0]);
      ResultsKept(s, steps[0], d);
      NeverPendingAgain(Next(s, steps[0]), steps[1..], d);
    }
  }

  lemma ResultsKept(s: State, step: Step, d: DashboardId)
    requires d in s.db.dashboards && d in s.db.results
    ensures d in Next(s, step).db.dashboards && d in Next(s, step).db.results
  {}
}
