/**
  What every step keeps, for arbitrary clients: foreign keys, tenant agreement along every
  reference, the shape of each job status, and agreement between the results and jobs tables.
 */
module Coherence {
  import opened Tables
  import opened Protocol

  type Tenants = map<TenantId, Tenant>
  type Agents = map<AgentId, Agent>
  type Dashboards = map<DashboardId, Dashboard>
  type Jobs = map<JobId, Job>
  type Results = map<DashboardId, Result>

  /** A reference to an agent of the given tenant. */
  predicate AgentOf(agents: Agents, a: AgentId, t: TenantId) {
    a in agents && agents[a].tenant == t
  }

  ghost predicate AgentsOK(agents: Agents, tenants: Tenants) {
    forall a <- agents :: agents[a].tenant in tenants
  }

  ghost predicate DashboardsOK(dashboards: Dashboards, tenants: Tenants, clock: Time) {
    forall d <- dashboards ::
      && dashboards[d].tenant in tenants
      && 5 <= dashboards[d].refreshInterval <= 86400
      && dashboards[d].createdAt <= clock
  }

  ghost predicate EnrolmentsOK(enrolments: map<RequestId, Enrolment>, tenants: Tenants) {
    forall r <- enrolments :: enrolments[r].tenant in tenants
  }

  /** A job copies its dashboard's tenant and SQL. */
  ghost predicate CopiesDashboard(job: Job, dashboards: Dashboards) {
    && job.dashboard in dashboards
    && job.tenant == dashboards[job.dashboard].tenant
    && job.sql == dashboards[job.dashboard].sql
    && job.timeoutMs == DEFAULT_TIMEOUT_MS
  }

  /** A job's lease columns agree with its status; its claimer is an agent of its own tenant. */
  ghost predicate LeaseOK(job: Job, agents: Agents, clock: Time) {
    && (job.claimedBy.Some? <==> job.claimedAt.Some?)
    && (job.claimedBy.Some? ==> AgentOf(agents, job.claimedBy.value, job.tenant) && job.claimedAt.value <= clock)
    && (job.status == Pending ==> job.claimedBy.None?)
    && (job.status == Running ==> job.claimedBy.Some?)
  }

  ghost predicate ProvenanceOK(jobs: Jobs, dashboards: Dashboards) {
    forall j <- jobs :: CopiesDashboard(jobs[j], dashboards)
  }

  ghost predicate LeasesOK(jobs: Jobs, agents: Agents, clock: Time) {
    forall j <- jobs :: LeaseOK(jobs[j], agents, clock)
  }

  ghost predicate OwedOK(owed: map<TickId, map<DashboardId, Due>>, dashboards: Dashboards, ticks: TickId, clock: Time) {
    forall k <- owed ::
      && k < ticks
      && forall d <- owed[k] ::
           && d in dashboards
           && owed[k][d].tenant == dashboards[d].tenant
           && owed[k][d].sql == dashboards[d].sql
           && owed[k][d].at <= clock
  }

  ghost predicate PollsOK(polls: map<PollId, Poll>, agents: Agents) {
    forall p <- polls :: AgentOf(agents, polls[p].agent, polls[p].tenant)
  }

  ghost predicate SubmissionOK(sub: Submission, jobs: Jobs, agents: Agents) {
    && AgentOf(agents, sub.agent, sub.tenant)
    && sub.job in jobs
    && jobs[sub.job].tenant == sub.tenant
    && jobs[sub.job].dashboard == sub.dashboard
  }

  ghost predicate SubmissionsOK(submissions: map<RequestId, Submission>, jobs: Jobs, agents: Agents) {
    forall r <- submissions :: SubmissionOK(submissions[r], jobs, agents)
  }

  /** A results row shows a terminal job of its own dashboard, with the matching status. */
  ghost predicate ResultOK(row: Result, d: DashboardId, jobs: Jobs) {
    && row.job in jobs
    && jobs[row.job].dashboard == d
    && jobs[row.job].tenant == row.tenant
    && jobs[row.job].status == (if row.body.success then Done else Failed)
  }

  ghost predicate ResultsOK(results: Results, jobs: Jobs) {
    forall d <- results :: ResultOK(results[d], d, jobs)
  }

  /** A dashboard with a terminal job has a results row. */
  ghost predicate TerminalShown(jobs: Jobs, results: Results) {
    forall j <- jobs :: jobs[j].Terminal() ==> jobs[j].dashboard in results
  }

  ghost predicate Inv(s: State) {
    && AgentsOK(s.db.agents, s.db.tenants)
    && DashboardsOK(s.db.dashboards, s.db.tenants, s.clock)
    && EnrolmentsOK(s.work.enrolments, s.db.tenants)
    && ProvenanceOK(s.db.jobs, s.db.dashboards)
    && LeasesOK(s.db.jobs, s.db.agents, s.clock)
    && OwedOK(s.work.owed, s.db.dashboards, s.work.ticks, s.clock)
    && PollsOK(s.work.polls, s.db.agents)
    && SubmissionsOK(s.work.submissions, s.db.jobs, s.db.agents)
    && ResultsOK(s.db.results, s.db.jobs)
    && TerminalShown(s.db.jobs, s.db.results)
  }

  lemma CreateTenantKeeps(s: State, t: TenantId, name: string)
    requires Inv(s)
    ensures Inv(DoCreateTenant(s, t, name).state)
  {}

  lemma CreateDashboardKeeps(s: State, d: DashboardId, t: TenantId, name: string, sql: string, interval: int)
    requires Inv(s)
    ensures Inv(DoCreateDashboard(s, d, t, name, sql, interval).state)
  {}

  lemma EnrolLookupKeeps(s: State, r: RequestId, t: TenantId)
    requires Inv(s)
    ensures Inv(DoEnrolLookup(s, r, t).state)
  {}

  lemma EnrolCommitKeeps(s: State, r: RequestId, a: AgentId)
    requires Inv(s)
    ensures Inv(DoEnrolCommit(s, r, a).state)
  {}

  lemma RevokeKeeps(s: State, a: AgentId)
    requires Inv(s)
    ensures Inv(DoRevoke(s, a).state)
  {}

  lemma OpenPollKeeps(s: State, p: PollId, a: AgentId, timeout: int)
    requires Inv(s)
    ensures Inv(DoOpenPoll(s, p, a, timeout).state)
  {}

  lemma BeginProbeKeeps(s: State, p: PollId)
    requires Inv(s)
    ensures Inv(DoBeginProbe(s, p).state)
  {}

  lemma ProbeTransactionKeeps(s: State, p: PollId, pick: JobId)
    requires Inv(s)
    ensures Inv(DoProbeTransaction(s, p, pick).state)
  {}

  lemma AbortPollKeeps(s: State, p: PollId)
    requires Inv(s)
    ensures Inv(DoAbortPoll(s, p).state)
  {}

  lemma SubmitCheckKeeps(s: State, r: RequestId, a: AgentId, j: JobId, body: Body)
    requires Inv(s)
    ensures Inv(DoSubmitCheck(s, r, a, j, body).state)
  {}

  lemma SubmitCommitKeeps(s: State, r: RequestId)
    requires Inv(s)
    ensures Inv(DoSubmitCommit(s, r).state)
  {}

  lemma SubmitAbortKeeps(s: State, r: RequestId)
    requires Inv(s)
    ensures Inv(DoSubmitAbort(s, r).state)
  {}

  lemma TickUpdateKeeps(s: State, now: Time)
    requires Inv(s)
    ensures Inv(DoTickUpdate(s, now).state)
  {}

  lemma TickInsertKeeps(s: State, k: TickId, d: DashboardId, j: JobId)
    requires Inv(s)
    ensures Inv(DoTickInsert(s, k, d, j).state)
  {}

  lemma TickFailKeeps(s: State, k: TickId)
    requires Inv(s)
    ensures Inv(DoTickFail(s, k).state)
  {}

  lemma ReapKeeps(s: State, now: Time)
    requires Inv(s)
    ensures Inv(DoReap(s, now).state)
  {}

  lemma TenancyStep(s: State, step: Step)
    requires Inv(s)
    requires step.CreateTenant? || step.CreateDashboard? || step.EnrolLookup? || step.EnrolCommit? || step.Revoke?
    ensures Inv(Next(s, step))
  {
    match step
    case CreateTenant(t, name) => CreateTenantKeeps(s, t, name);
    case CreateDashboard(d, t, name, sql, interval) => CreateDashboardKeeps(s, d, t, name, sql, interval);
    case EnrolLookup(r, t) => EnrolLookupKeeps(s, r, t);
    case EnrolCommit(r, a) => EnrolCommitKeeps(s, r, a);
    case Revoke(a) => RevokeKeeps(s, a);
  }

  lemma PollingStep(s: State, step: Step)
    requires Inv(s)
    requires step.OpenPoll? || step.BeginProbe? || step.ProbeTransaction? || step.AbortPoll?
    ensures Inv(Next(s, step))
  {
    match step
    case OpenPoll(p, a, timeout) => OpenPollKeeps(s, p, a, timeout);
    case BeginProbe(p) => BeginProbeKeeps(s, p);
    case ProbeTransaction(p, pick) => ProbeTransactionKeeps(s, p, pick);
    case AbortPoll(p) => AbortPollKeeps(s, p);
  }

  lemma SubmittingStep(s: State, step: Step)
    requires Inv(s)
    requires step.SubmitCheck? || step.SubmitCommit? || step.SubmitAbort?
    ensures Inv(Next(s, step))
  {
    match step
    case SubmitCheck(r, a, j, body) => SubmitCheckKeeps(s, r, a, j, body);
    case SubmitCommit(r) => SubmitCommitKeeps(s, r);
    case SubmitAbort(r) => SubmitAbortKeeps(s, r);
  }

  lemma SchedulingStep(s: State, step: Step)
    requires Inv(s)
    requires step.TickUpdate? || step.TickInsert? || step.TickFail? || step.Reap?
    ensures Inv(Next(s, step))
  {
    match step
    case TickUpdate(now) => TickUpdateKeeps(s, now);
    case TickInsert(k, d, j) => TickInsertKeeps(s, k, d, j);
    case TickFail(k) => TickFailKeeps(s, k);
    case Reap(now) => ReapKeeps(s, now);
  }

  /** Every step keeps the invariant. */
  lemma InvStep(s: State, step: Step)
    requires Inv(s)
    ensures Inv(Next(s, step))
  {
    if step.Advance? {
    } else if step.OpenPoll? || step.BeginProbe? || step.ProbeTransaction? || step.AbortPoll? {
      PollingStep(s, step);
    } else if step.SubmitCheck? || step.SubmitCommit? || step.SubmitAbort? {
      SubmittingStep(s, step);
    } else if step.TickUpdate? || step.TickInsert? || step.TickFail? || step.Reap? {
      SchedulingStep(s, step);
    } else {
      TenancyStep(s, step);
    }
  }

  /** The invariant holds after every run from every state that has it; the empty database has it. */
  lemma {:induction false} CoherentAlways(s: State, steps: seq<Step>)
    requires Inv(s)
    ensures Inv(Run(s, steps))
    decreases steps
  {
    if steps != [] {
      InvStep(s, steps[0]);
      CoherentAlways(Next(s, steps[0]), steps[1..]);
    }
  }

  lemma InitCoherent(clock: Time)
    ensures Inv(Init(clock))
  {}
}
