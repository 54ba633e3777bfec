/**
  Tenant isolation as non-interference. Projecting any run's state to a tenant gives the state
  of the purged run, in which every step of another tenant is deleted and the scheduler's and
  reaper's statements see only that tenant's rows.
 */
module Isolation {
  import opened Tables
  import opened Protocol
  import opened Coherence
  import opened Lifecycle

  function AgentsView(m: map<AgentId, Agent>, t: TenantId): map<AgentId, Agent> {
    map k | k in m && m[k].tenant == t :: m[k]
  }

  function DashboardsView(m: map<DashboardId, Dashboard>, t: TenantId): map<DashboardId, Dashboard> {
    map k | k in m && m[k].tenant == t :: m[k]
  }

  function JobsView(m: map<JobId, Job>, t: TenantId): map<JobId, Job> {
    map k | k in m && m[k].tenant == t :: m[k]
  }

  function ResultsView(m: map<DashboardId, Result>, t: TenantId): map<DashboardId, Result> {
    map k | k in m && m[k].tenant == t :: m[k]
  }

  function DuesView(m: map<DashboardId, Due>, t: TenantId): map<DashboardId, Due> {
    map k | k in m && m[k].tenant == t :: m[k]
  }

  function OwedView(m: map<TickId, map<DashboardId, Due>>, t: TenantId): map<TickId, map<DashboardId, Due>> {
    map k | k in m :: DuesView(m[k], t)
  }

  function PollsView(m: map<PollId, Poll>, t: TenantId): map<PollId, Poll> {
    map k | k in m && m[k].tenant == t :: m[k]
  }

  function SubmissionsView(m: map<RequestId, Submission>, t: TenantId): map<RequestId, Submission> {
    map k | k in m && m[k].tenant == t :: m[k]
  }

  function EnrolmentsView(m: map<RequestId, Enrolment>, t: TenantId): map<RequestId, Enrolment> {
    map k | k in m && m[k].tenant == t :: m[k]
  }

  function TenantView(m: map<TenantId, Tenant>, t: TenantId): map<TenantId, Tenant> {
    map k | k in m && k == t :: m[k]
  }

  function ViewDb(db: Database, t: TenantId): Database {
    Database(TenantView(db.tenants, t), AgentsView(db.agents, t), DashboardsView(db.dashboards, t),
             JobsView(db.jobs, t), ResultsView(db.results, t))
  }

  function ViewWork(work: Work, t: TenantId): Work {
    Work(work.ticks, OwedView(work.owed, t), PollsView(work.polls, t),
         SubmissionsView(work.submissions, t), EnrolmentsView(work.enrolments, t))
  }

  /** Tenant t's projection of all tables and of all suspended handlers. */
  function View(s: State, t: TenantId): State {
    State(s.clock, ViewDb(s.db, t), ViewWork(s.work, t))
  }

  datatype Scope = Everyone | Only(tenant: TenantId) | NoOne

  function AgentScope(s: State, a: AgentId): Scope {
    if a in s.db.agents then Only(s.db.agents[a].tenant) else NoOne
  }

  function PollScope(s: State, p: PollId): Scope {
    if p in s.work.polls then Only(s.work.polls[p].tenant) else NoOne
  }

  function SubmissionScope(s: State, r: RequestId): Scope {
    if r in s.work.submissions then Only(s.work.submissions[r].tenant) else NoOne
  }

  /** Whose step it is: the scheduler, the reaper and time are everyone's. */
  function ScopeOf(s: State, step: Step): Scope {
    match step
    case Advance(_) => Everyone
    case CreateTenant(t, _) => Only(t)
    case CreateDashboard(_, t, _, _, _) => Only(t)
    case EnrolLookup(_, t) => Only(t)
    case EnrolCommit(r, _) => if r in s.work.enrolments then Only(s.work.enrolments[r].tenant) else NoOne
    case Revoke(a) => AgentScope(s, a)
    case OpenPoll(_, a, _) => AgentScope(s, a)
    case BeginProbe(p) => PollScope(s, p)
    case ProbeTransaction(p, _) => PollScope(s, p)
    case AbortPoll(p) => PollScope(s, p)
    case SubmitCheck(_, a, _, _) => AgentScope(s, a)
    case SubmitCommit(r) => SubmissionScope(s, r)
    case SubmitAbort(r) => SubmissionScope(s, r)
    case TickUpdate(_) => Everyone
    case TickInsert(k, d, _) => if Owes(s, k, d) then Only(s.work.owed[k][d].tenant) else NoOne
    case TickFail(_) => Everyone
    case Reap(_) => Everyone
  }

  /** Generated ids are fresh: a step never draws one already in use. */
  predicate FreshIds(s: State, step: Step) {
    match step
    case CreateTenant(t, _) => t !in s.db.tenants
    case CreateDashboard(d, _, _, _, _) => d !in s.db.dashboards
    case EnrolLookup(r, _) => r !in s.work.enrolments
    case EnrolCommit(_, a) => a !in s.db.agents
    case OpenPoll(p, _, _) => p !in s.work.polls
    case SubmitCheck(r, _, _, _) => r !in s.work.submissions
    case TickInsert(_, _, j) => j !in s.db.jobs
    case _ => true
  }

  ghost predicate FreshIdsAlong(s: State, steps: seq<Step>)
    decreases steps
  {
    steps != [] ==> FreshIds(s, steps[0]) && FreshIdsAlong(Next(s, steps[0]), steps[1..])
  }

  /** The run with every other tenant's steps deleted. */
  function Purge(s: State, steps: seq<Step>, t: TenantId): seq<Step>
    decreases steps
  {
    if steps == [] then []
    else
      var rest := Purge(Next(s, steps[0]), steps[1..], t);
      if ScopeOf(s, steps[0]) == Everyone || ScopeOf(s, steps[0]) == Only(t) then [steps[0]] + rest else rest
  }

  // ---- Projection of one row written or removed ----

  lemma AgentsPut(m: map<AgentId, Agent>, k: AgentId, v: Agent, t: TenantId)
    requires k in m ==> m[k].tenant == v.tenant
    ensures AgentsView(m[k := v], t) == if v.tenant == t then AgentsView(m, t)[k := v] else AgentsView(m, t)
  {}

  lemma DashboardsPut(m: map<DashboardId, Dashboard>, k: DashboardId, v: Dashboard, t: TenantId)
    requires k in m ==> m[k].tenant == v.tenant
    ensures DashboardsView(m[k := v], t) == if v.tenant == t then DashboardsView(m, t)[k := v] else DashboardsView(m, t)
  {}

  lemma JobsPut(m: map<JobId, Job>, k: JobId, v: Job, t: TenantId)
    requires k in m ==> m[k].tenant == v.tenant
    ensures JobsView(m[k := v], t) == if v.tenant == t then JobsView(m, t)[k := v] else JobsView(m, t)
  {}

  lemma ResultsPut(m: map<DashboardId, Result>, k: DashboardId, v: Result, t: TenantId)
    requires k in m ==> m[k].tenant == v.tenant
    ensures ResultsView(m[k := v], t) == if v.tenant == t then ResultsView(m, t)[k := v] else ResultsView(m, t)
  {}

  lemma DuesDrop(m: map<DashboardId, Due>, k: DashboardId, t: TenantId)
    ensures DuesView(m - {k}, t) == DuesView(m, t) - {k}
    ensures !(k in m && m[k].tenant == t) ==> DuesView(m - {k}, t) == DuesView(m, t)
  {
    assert DuesView(m - {k}, t) == DuesView(m, t) - {k};
    if !(k in m && m[k].tenant == t) {
      assert DuesView(m, t) - {k} == DuesView(m, t);
    }
  }

  lemma PollsPut(m: map<PollId, Poll>, k: PollId, v: Poll, t: TenantId)
    requires k in m ==> m[k].tenant == v.tenant
    ensures PollsView(m[k := v], t) == if v.tenant == t then PollsView(m, t)[k := v] else PollsView(m, t)
  {}

  lemma PollsDrop(m: map<PollId, Poll>, k: PollId, t: TenantId)
    ensures PollsView(m - {k}, t) == PollsView(m, t) - {k}
    ensures !(k in m && m[k].tenant == t) ==> PollsView(m - {k}, t) == PollsView(m, t)
  {
    assert PollsView(m - {k}, t) == PollsView(m, t) - {k};
    if !(k in m && m[k].tenant == t) {
      assert PollsView(m, t) - {k} == PollsView(m, t);
    }
  }

  lemma SubmissionsPut(m: map<RequestId, Submission>, k: RequestId, v: Submission, t: TenantId)
    requires k in m ==> m[k].tenant == v.tenant
    ensures SubmissionsView(m[k := v], t) ==
            if v.tenant == t then SubmissionsView(m, t)[k := v] else SubmissionsView(m, t)
  {}

  lemma SubmissionsDrop(m: map<RequestId, Submission>, k: RequestId, t: TenantId)
    ensures SubmissionsView(m - {k}, t) == SubmissionsView(m, t) - {k}
    ensures !(k in m && m[k].tenant == t) ==> SubmissionsView(m - {k}, t) == SubmissionsView(m, t)
  {
    assert SubmissionsView(m - {k}, t) == SubmissionsView(m, t) - {k};
    if !(k in m && m[k].tenant == t) {
      assert SubmissionsView(m, t) - {k} == SubmissionsView(m, t);
    }
  }

  lemma EnrolmentsPut(m: map<RequestId, Enrolment>, k: RequestId, v: Enrolment, t: TenantId)
    requires k in m ==> m[k].tenant == v.tenant
    ensures EnrolmentsView(m[k := v], t) == if v.tenant == t then EnrolmentsView(m, t)[k := v] else EnrolmentsView(m, t)
  {}

  lemma EnrolmentsDrop(m: map<RequestId, Enrolment>, k: RequestId, t: TenantId)
    ensures EnrolmentsView(m - {k}, t) == EnrolmentsView(m, t) - {k}
    ensures !(k in m && m[k].tenant == t) ==> EnrolmentsView(m - {k}, t) == EnrolmentsView(m, t)
  {
    assert EnrolmentsView(m - {k}, t) == EnrolmentsView(m, t) - {k};
    if !(k in m && m[k].tenant == t) {
      assert EnrolmentsView(m, t) - {k} == EnrolmentsView(m, t);
    }
  }

  lemma TenantPut(m: map<TenantId, Tenant>, k: TenantId, v: Tenant, t: TenantId)
    ensures TenantView(m[k := v], t) == if k == t then TenantView(m, t)[k := v] else TenantView(m, t)
  {}

  lemma OwedPut(m: map<TickId, map<DashboardId, Due>>, k: TickId, due: map<DashboardId, Due>, t: TenantId)
    ensures OwedView(m[k := due], t) == OwedView(m, t)[k := DuesView(due, t)]
  {}

  lemma OwedDrop(m: map<TickId, map<DashboardId, Due>>, k: TickId, d: DashboardId, t: TenantId)
    requires k in m
    ensures OwedView(m[k := m[k] - {d}], t) == OwedView(m, t)[k := DuesView(m[k], t) - {d}]
    ensures !(d in m[k] && m[k][d].tenant == t) ==> OwedView(m[k := m[k] - {d}], t) == OwedView(m, t)
  {
    DuesDrop(m[k], d, t);
    assert OwedView(m[k := m[k] - {d}], t) == OwedView(m, t)[k := DuesView(m[k], t) - {d}];
    if !(d in m[k] && m[k][d].tenant == t) {
      assert OwedView(m, t)[k := DuesView(m[k], t)] == OwedView(m, t);
    }
  }

  /** A results row carries the tenant of every job of its dashboard. */
  lemma ResultTenant(s: State, d: DashboardId, j: JobId)
    requires Inv(s) && d in s.db.results && j in s.db.jobs && s.db.jobs[j].dashboard == d
    ensures s.db.results[d].tenant == s.db.jobs[j].tenant
  {
    assert ResultOK(s.db.results[d], d, s.db.jobs);
    assert CopiesDashboard(s.db.jobs[s.db.results[d].job], s.db.dashboards);
    assert CopiesDashboard(s.db.jobs[j], s.db.dashboards);
  }

  // ---- Each statement commutes with the projection if it is t's own, and is invisible otherwise ----

  ghost predicate Unwinds(s: State, step: Step, t: TenantId) {
    && (ScopeOf(s, step) == Everyone || ScopeOf(s, step) == Only(t) ==>
          View(Next(s, step), t) == Next(View(s, t), step))
    && (ScopeOf(s, step) != Everyone && ScopeOf(s, step) != Only(t) ==> View(Next(s, step), t) == View(s, t))
  }

  lemma CreateUnwinds(s: State, step: Step, t: TenantId)
    requires FreshIds(s, step) && (step.CreateTenant? || step.CreateDashboard?)
    ensures Unwinds(s, step, t)
  {
    match step
    case CreateTenant(u, name) => TenantPut(s.db.tenants, u, Tenant(name, None, s.clock), t);
    case CreateDashboard(d, u, name, sql, interval) =>
      DashboardsPut(s.db.dashboards, d, Dashboard(u, name, sql, interval, s.clock, s.clock), t);
  }

  lemma EnrolUnwinds(s: State, step: Step, t: TenantId)
    requires Inv(s) && FreshIds(s, step) && (step.EnrolLookup? || step.EnrolCommit? || step.Revoke?)
    ensures Unwinds(s, step, t)
  {
    match step
    case EnrolLookup(r, u) => EnrolmentsPut(s.work.enrolments, r, Enrolment(u, s.clock), t);
    case EnrolCommit(r, a) =>
      if r in s.work.enrolments {
        var e := s.work.enrolments[r];
        TenantPut(s.db.tenants, e.tenant, s.db.tenants[e.tenant].(enrolledAt := Some(e.at)), t);
        AgentsPut(s.db.agents, a, Agent(e.tenant, e.at, None), t);
        EnrolmentsDrop(s.work.enrolments, r, t);
      }
    case Revoke(a) =>
      if a in s.db.agents {
        AgentsPut(s.db.agents, a, s.db.agents[a].(revokedAt := Some(s.clock)), t);
      }
  }

  lemma OpenUnwinds(s: State, p: PollId, a: AgentId, timeout: int, t: TenantId)
    requires p !in s.work.polls
    ensures Unwinds(s, OpenPoll(p, a, timeout), t)
  {
    if a in s.db.agents {
      PollsPut(s.work.polls, p, Poll(a, s.db.agents[a].tenant, s.clock, timeout, Asleep(s.clock), 0), t);
    }
  }

  /** A change of the open polls, seen by t. */
  lemma ViewOfPolls(s: State, polls: map<PollId, Poll>, t: TenantId)
    ensures View(s.(work := s.work.(polls := polls)), t)
         == View(s, t).(work := View(s, t).work.(polls := PollsView(polls, t)))
  {}

  /** The poll after its loop test, if it goes on. */
  function Begun(poll: Poll, now: Time): Poll {
    poll.(phase := Probing(now), probes := poll.probes + 1)
  }

  lemma OwnBegin(s: State, p: PollId, t: TenantId)
    requires p in s.work.polls && s.work.polls[p].tenant == t
    ensures View(DoBeginProbe(s, p).state, t) == DoBeginProbe(View(s, t), p).state
  {
    var poll := s.work.polls[p];
    if poll.phase.Asleep? && poll.phase.until <= s.clock {
      if s.clock < poll.Deadline() {
        PollsPut(s.work.polls, p, Begun(poll, s.clock), t);
        ViewOfPolls(s, s.work.polls[p := Begun(poll, s.clock)], t);
      } else {
        PollsDrop(s.work.polls, p, t);
        ViewOfPolls(s, s.work.polls - {p}, t);
      }
    }
  }

  lemma ForeignBegin(s: State, p: PollId, t: TenantId)
    requires p in s.work.polls && s.work.polls[p].tenant != t
    ensures View(DoBeginProbe(s, p).state, t) == View(s, t)
  {
    var poll := s.work.polls[p];
    if poll.phase.Asleep? && poll.phase.until <= s.clock {
      if s.clock < poll.Deadline() {
        PollsPut(s.work.polls, p, Begun(poll, s.clock), t);
        ViewOfPolls(s, s.work.polls[p := Begun(poll, s.clock)], t);
      } else {
        PollsDrop(s.work.polls, p, t);
        ViewOfPolls(s, s.work.polls - {p}, t);
      }
    }
  }

  lemma BeginUnwinds(s: State, p: PollId, t: TenantId)
    ensures Unwinds(s, BeginProbe(p), t)
  {
    if p in s.work.polls {
      if s.work.polls[p].tenant == t {
        OwnBegin(s, p, t);
      } else {
        ForeignBegin(s, p, t);
      }
    }
  }

  lemma AbortUnwinds(s: State, p: PollId, t: TenantId)
    ensures Unwinds(s, AbortPoll(p), t)
  {
    PollsDrop(s.work.polls, p, t);
  }

  lemma PendingInView(s: State, t: TenantId, pick: JobId)
    ensures NonePending(JobsView(s.db.jobs, t), t) == NonePending(s.db.jobs, t)
    ensures OldestPending(JobsView(s.db.jobs, t), t, pick) == OldestPending(s.db.jobs, t, pick)
  {
    forall j ensures j in JobsView(s.db.jobs, t) <==> j in s.db.jobs && s.db.jobs[j].tenant == t {}
    if NonePending(JobsView(s.db.jobs, t), t) {
      forall j <- s.db.jobs ensures !PendingFor(s.db.jobs[j], t) {
        if j in JobsView(s.db.jobs, t) {}
      }
    }
    if OldestPending(JobsView(s.db.jobs, t), t, pick) {
      forall j | j in s.db.jobs && PendingFor(s.db.jobs[j], t)
        ensures s.db.jobs[pick].createdAt <= s.db.jobs[j].createdAt
      {
        assert j in JobsView(s.db.jobs, t);
      }
    }
  }

  lemma OwnProbe(s: State, p: PollId, pick: JobId, t: TenantId)
    requires p in s.work.polls && s.work.polls[p].tenant == t
    ensures View(DoProbeTransaction(s, p, pick).state, t) == DoProbeTransaction(View(s, t), p, pick).state
  {
    var poll := s.work.polls[p];
    PendingInView(s, t, pick);
    PollsPut(s.work.polls, p, poll.(phase := Asleep(s.clock + Seconds(POLL_INTERVAL))), t);
    PollsDrop(s.work.polls, p, t);
    if pick in s.db.jobs {
      JobsPut(s.db.jobs, pick, Claimed(s.db.jobs[pick], poll.agent, s.clock), t);
    }
  }

  lemma ForeignProbe(s: State, p: PollId, pick: JobId, t: TenantId)
    requires p in s.work.polls && s.work.polls[p].tenant != t
    ensures View(DoProbeTransaction(s, p, pick).state, t) == View(s, t)
  {
    var poll := s.work.polls[p];
    PollsPut(s.work.polls, p, poll.(phase := Asleep(s.clock + Seconds(POLL_INTERVAL))), t);
    PollsDrop(s.work.polls, p, t);
    if pick in s.db.jobs {
      JobsPut(s.db.jobs, pick, Claimed(s.db.jobs[pick], poll.agent, s.clock), t);
    }
  }

  lemma ProbeUnwinds(s: State, p: PollId, pick: JobId, t: TenantId)
    ensures Unwinds(s, ProbeTransaction(p, pick), t)
  {
    if p in s.work.polls {
      if s.work.polls[p].tenant == t {
        OwnProbe(s, p, pick, t);
      } else {
        ForeignProbe(s, p, pick, t);
      }
    }
  }

  lemma RecordedInView(s: State, t: TenantId, j: JobId)
    requires Inv(s) && j in s.db.jobs && s.db.jobs[j].tenant == t
    ensures Recorded(View(s, t), j) == Recorded(s, j)
  {
    if Recorded(s, j) {
      var d :| d in s.db.results && s.db.results[d].job == j;
      assert ResultOK(s.db.results[d], d, s.db.jobs);
      assert d in View(s, t).db.results && View(s, t).db.results[d].job == j;
    }
    if Recorded(View(s, t), j) {
      var d :| d in View(s, t).db.results && View(s, t).db.results[d].job == j;
      assert d in s.db.results && s.db.results[d].job == j;
    }
  }

  lemma OwnCheck(s: State, r: RequestId, a: AgentId, j: JobId, body: Body, t: TenantId)
    requires Inv(s) && r !in s.work.submissions && a in s.db.agents && s.db.agents[a].tenant == t
    ensures View(DoSubmitCheck(s, r, a, j, body).state, t) == DoSubmitCheck(View(s, t), r, a, j, body).state
  {
    if j in s.db.jobs {
      SubmissionsPut(s.work.submissions, r, Submission(a, t, j, s.db.jobs[j].dashboard, body, s.clock), t);
      if s.db.jobs[j].tenant == t {
        RecordedInView(s, t, j);
      }
    }
  }

  lemma ForeignCheck(s: State, r: RequestId, a: AgentId, j: JobId, body: Body, t: TenantId)
    requires r !in s.work.submissions && !(a in s.db.agents && s.db.agents[a].tenant == t)
    ensures View(DoSubmitCheck(s, r, a, j, body).state, t) == View(s, t)
  {
    if a in s.db.agents && j in s.db.jobs {
      var sub := Submission(a, s.db.agents[a].tenant, j, s.db.jobs[j].dashboard, body, s.clock);
      SubmissionsPut(s.work.submissions, r, sub, t);
    }
  }

  lemma CheckUnwinds(s: State, r: RequestId, a: AgentId, j: JobId, body: Body, t: TenantId)
    requires Inv(s) && r !in s.work.submissions
    ensures Unwinds(s, SubmitCheck(r, a, j, body), t)
  {
    if a in s.db.agents && s.db.agents[a].tenant == t {
      OwnCheck(s, r, a, j, body, t);
    } else {
      ForeignCheck(s, r, a, j, body, t);
    }
  }

  lemma UpsertInView(s: State, sub: Submission, t: TenantId)
    requires Inv(s) && SubmissionOK(sub, s.db.jobs, s.db.agents)
    ensures ResultsView(Upsert(s.db.results, sub), t) ==
            if sub.tenant == t then Upsert(ResultsView(s.db.results, t), sub) else ResultsView(s.db.results, t)
  {
    var d := sub.dashboard;
    if d in s.db.results {
      ResultTenant(s, d, sub.job);
      ResultsPut(s.db.results, d, s.db.results[d].(job := sub.job, body := sub.body, recordedAt := sub.at), t);
    } else {
      ResultsPut(s.db.results, d, Result(sub.tenant, sub.job, sub.body, sub.at), t);
    }
  }

  lemma SubmitUnwinds(s: State, step: Step, t: TenantId)
    requires Inv(s) && (step.SubmitCommit? || step.SubmitAbort?)
    ensures Unwinds(s, step, t)
  {
    var r := step.request;
    SubmissionsDrop(s.work.submissions, r, t);
    if step.SubmitCommit? && r in s.work.submissions {
      var sub := s.work.submissions[r];
      assert SubmissionOK(sub, s.db.jobs, s.db.agents);
      UpsertInView(s, sub, t);
      JobsPut(s.db.jobs, sub.job, s.db.jobs[sub.job].(status := FinalStatus(sub.body)), t);
    }
  }

  lemma AdvanceInView(m: map<DashboardId, Dashboard>, now: Time, t: TenantId)
    ensures DashboardsView(AdvanceAll(m, now), t) == AdvanceAll(DashboardsView(m, t), now)
  {
    var a, b := DashboardsView(AdvanceAll(m, now), t), AdvanceAll(DashboardsView(m, t), now);
    forall d ensures d in a <==> d in b {
      if d in m { assert AdvanceAll(m, now)[d].tenant == m[d].tenant; }
    }
    assert a == b;
  }

  lemma DueInView(m: map<DashboardId, Dashboard>, now: Time, t: TenantId)
    ensures DuesView(DueList(m, now), t) == DueList(DashboardsView(m, t), now)
  {
    var a, b := DuesView(DueList(m, now), t), DueList(DashboardsView(m, t), now);
    forall d ensures d in a <==> d in b {
      if d in DueList(m, now) { assert DueList(m, now)[d].tenant == m[d].tenant; }
    }
    assert a == b;
  }

  lemma ReapInView(m: map<JobId, Job>, now: Time, t: TenantId)
    ensures JobsView(ReapAll(m, now), t) == ReapAll(JobsView(m, t), now)
  {
    var a, b := JobsView(ReapAll(m, now), t), ReapAll(JobsView(m, t), now);
    forall j ensures j in a <==> j in b {
      if j in m { assert ReapAll(m, now)[j].tenant == m[j].tenant; }
    }
    assert a == b;
  }

  lemma TickUnwinds(s: State, now: Time, t: TenantId)
    ensures Unwinds(s, TickUpdate(now), t)
  {
    if now <= s.clock {
      AdvanceInView(s.db.dashboards, now, t);
      OwedPut(s.work.owed, s.work.ticks, DueList(s.db.dashboards, now), t);
      DueInView(s.db.dashboards, now, t);
    }
  }

  lemma InsertUnwinds(s: State, k: TickId, d: DashboardId, j: JobId, t: TenantId)
    requires j !in s.db.jobs
    ensures Unwinds(s, TickInsert(k, d, j), t)
  {
    if Owes(s, k, d) {
      JobsPut(s.db.jobs, j, NewJob(d, s.work.owed[k][d]), t);
      OwedDrop(s.work.owed, k, d, t);
    }
  }

  lemma FailUnwinds(s: State, k: TickId, t: TenantId)
    ensures Unwinds(s, TickFail(k), t)
  {
    assert OwedView(s.work.owed - {k}, t) == OwedView(s.work.owed, t) - {k};
  }

  lemma ReapUnwinds(s: State, now: Time, t: TenantId)
    ensures Unwinds(s, Reap(now), t)
  {
    ReapInView(s.db.jobs, now, t);
  }

  lemma StepUnwinds(s: State, step: Step, t: TenantId)
    requires Inv(s) && FreshIds(s, step)
    ensures Unwinds(s, step, t)
  {
    match step
    case Advance(_) =>
    case CreateTenant(_, _) => CreateUnwinds(s, step, t);
    case CreateDashboard(_, _, _, _, _) => CreateUnwinds(s, step, t);
    case EnrolLookup(_, _) => EnrolUnwinds(s, step, t);
    case EnrolCommit(_, _) => EnrolUnwinds(s, step, t);
    case Revoke(_) => EnrolUnwinds(s, step, t);
    case OpenPoll(p, a, timeout) => OpenUnwinds(s, p, a, timeout, t);
    case BeginProbe(p) => BeginUnwinds(s, p, t);
    case ProbeTransaction(p, pick) => ProbeUnwinds(s, p, pick, t);
    case AbortPoll(p) => AbortUnwinds(s, p, t);
    case SubmitCheck(r, a, j, body) => CheckUnwinds(s, r, a, j, body, t);
    case SubmitCommit(_) => SubmitUnwinds(s, step, t);
    case SubmitAbort(_) => SubmitUnwinds(s, step, t);
    case TickUpdate(now) => TickUnwinds(s, now, t);
    case TickInsert(k, d, j) => InsertUnwinds(s, k, d, j, t);
    case TickFail(k) => FailUnwinds(s, k, t);
    case Reap(now) => ReapUnwinds(s, now, t);
  }

  /** Non-interference: tenant t's view of a run is the purged run of t's view. */
  lemma {:induction false} NonInterference(s: State, steps: seq<Step>, t: TenantId)
    requires Inv(s) && FreshIdsAlong(s, steps)
    ensures View(Run(s, steps), t) == Run(View(s, t), Purge(s, steps, t))
    decreases steps
  {
    if steps != [] {
      var s' := Next(s, steps[0]);
      InvStep(s, steps[0]);
      StepUnwinds(s, steps[0], t);
      NonInterference(s', steps[1..], t);
      var rest := Purge(s', steps[1..], t);
      assert ([steps[0]] + rest)[1..] == rest;
    }
  }

  /** The second system holds exactly tenant t's rows of the first. */
  ghost predicate RowsOf(s: State, alone: State, t: TenantId) {
    && (forall a :: a in alone.db.agents <==> a in s.db.agents && s.db.agents[a].tenant == t)
    && (forall a <- alone.db.agents :: alone.db.agents[a] == s.db.agents[a])
    && (forall d :: d in alone.db.dashboards <==> d in s.db.dashboards && s.db.dashboards[d].tenant == t)
    && (forall d <- alone.db.dashboards :: alone.db.dashboards[d] == s.db.dashboards[d])
    && (forall j :: j in alone.db.jobs <==> j in s.db.jobs && s.db.jobs[j].tenant == t)
    && (forall j <- alone.db.jobs :: alone.db.jobs[j] == s.db.jobs[j])
    && (forall d :: d in alone.db.results <==> d in s.db.results && s.db.results[d].tenant == t)
    && (forall d <- alone.db.results :: alone.db.results[d] == s.db.results[d])
    && (forall u :: u in alone.db.tenants <==> u in s.db.tenants && u == t)
    && (forall u <- alone.db.tenants :: alone.db.tenants[u] == s.db.tenants[u])
  }

  lemma ViewRows(s: State, t: TenantId)
    ensures RowsOf(s, View(s, t), t)
  {}

  /** A request that only tenant t, or an agent of tenant t, can have made; `db` knows the agents. */
  predicate MadeBy(step: Step, t: TenantId, db: Database) {
    && (step.CreateTenant? ==> step.newTenant == t)
    && (step.CreateDashboard? || step.EnrolLookup? ==> step.tenant == t)
    && (step.Revoke? || step.OpenPoll? || step.SubmitCheck? ==>
          step.agent in db.agents && db.agents[step.agent].tenant == t)
  }

  /** No other tenant's request is left in the purged run. */
  lemma {:induction false} PurgeLeavesOwn(s: State, steps: seq<Step>, t: TenantId)
    ensures forall step <- Purge(s, steps, t) :: MadeBy(step, t, Run(s, steps).db)
    decreases steps
  {
    if steps != [] {
      PurgeLeavesOwn(Next(s, steps[0]), steps[1..], t);
      if steps[0].Revoke? || steps[0].OpenPoll? || steps[0].SubmitCheck? {
        if steps[0].agent in s.db.agents { AgentForever(s, steps, steps[0].agent); }
      }
    }
  }

  /** From the empty system: the run without the other tenants gives t the same tables and the same reads. */
  lemma OtherTenantsInvisible(clock: Time, steps: seq<Step>, t: TenantId, d: DashboardId)
    requires FreshIdsAlong(Init(clock), steps)
    ensures
      var s, alone := Run(Init(clock), steps), Run(Init(clock), Purge(Init(clock), steps, t));
      && View(s, t) == alone && RowsOf(s, alone, t) && alone.clock == s.clock
      && (d in s.db.dashboards && s.db.dashboards[d].tenant == t ==>
            GetDashboardData(s, d) == GetDashboardData(alone, d))
  {
    InitCoherent(clock);
    CoherentAlways(Init(clock), steps);
    NonInterference(Init(clock), steps, t);
    assert View(Init(clock), t) == Init(clock);
    var s := Run(Init(clock), steps);
    ViewRows(s, t);
    if d in s.db.results && d in s.db.dashboards {
      var row := s.db.results[d];
      assert ResultOK(row, d, s.db.jobs);
      assert CopiesDashboard(s.db.jobs[row.job], s.db.dashboards);
    }
  }

  lemma SameTenancyReplies(s: State, step: Step, t: TenantId)
    requires Inv(s) && FreshIds(s, step) && ScopeOf(s, step) == Only(t)
    requires step.CreateTenant? || step.CreateDashboard? || step.EnrolLookup? || step.EnrolCommit? || step.Revoke?
    ensures Handle(s, step).reply == Handle(View(s, t), step).reply
  {
    if step.EnrolCommit? {
      assert s.work.enrolments[step.request].tenant in s.db.tenants;
    }
  }

  lemma SamePollReplies(s: State, step: Step, t: TenantId)
    requires FreshIds(s, step) && ScopeOf(s, step) == Only(t)
    requires step.OpenPoll? || step.BeginProbe? || step.ProbeTransaction? || step.AbortPoll?
    ensures Handle(s, step).reply == Handle(View(s, t), step).reply
  {
    if step.ProbeTransaction? {
      PendingInView(s, t, step.pick);
    }
  }

  lemma SameCheckReply(s: State, r: RequestId, a: AgentId, j: JobId, body: Body, t: TenantId)
    requires Inv(s) && r !in s.work.submissions && a in s.db.agents && s.db.agents[a].tenant == t
    ensures
      var reply, alone := DoSubmitCheck(s, r, a, j, body).reply, DoSubmitCheck(View(s, t), r, a, j, body).reply;
      if Authorised(s, a) && j in s.db.jobs && s.db.jobs[j].tenant != t then reply == Forbidden && alone == NotFound
      else reply == alone
  {
    if j in s.db.jobs && s.db.jobs[j].tenant == t {
      RecordedInView(s, t, j);
    }
  }

  /**
    What t's own requests are answered: the same as if t were alone, except that a post for
    another tenant's job is refused with 403 where t alone would see 404.
   */
  lemma SameReplies(s: State, step: Step, t: TenantId)
    requires Inv(s) && FreshIds(s, step) && ScopeOf(s, step) == Only(t)
    ensures
      var reply, alone := Handle(s, step).reply, Handle(View(s, t), step).reply;
      if step.SubmitCheck? && Authorised(s, step.agent) && step.job in s.db.jobs && s.db.jobs[step.job].tenant != t then
        reply == Forbidden && alone == NotFound
      else reply == alone
  {
    match step
    case SubmitCheck(r, a, j, body) => SameCheckReply(s, r, a, j, body, t);
    case SubmitCommit(r) => assert SubmissionOK(s.work.submissions[r], s.db.jobs, s.db.agents);
    case SubmitAbort(_) =>
    case TickInsert(_, _, _) =>
    case _ =>
      if step.OpenPoll? || step.BeginProbe? || step.ProbeTransaction? || step.AbortPoll? {
        SamePollReplies(s, step, t);
      } else {
        SameTenancyReplies(s, step, t);
      }
  }

  /**
    Over runs: whatever the other tenants did before, t's own requests are answered as in the run
    without them, but for 403 instead of 404 to a post for another tenant's job.
   */
  lemma SameRepliesAlone(clock: Time, steps: seq<Step>, step: Step, t: TenantId)
    requires FreshIdsAlong(Init(clock), steps) && FreshIds(Run(Init(clock), steps), step)
    requires ScopeOf(Run(Init(clock), steps), step) == Only(t)
    ensures
      var s, alone := Run(Init(clock), steps), Run(Init(clock), Purge(Init(clock), steps, t));
      if step.SubmitCheck? && Authorised(s, step.agent) && step.job in s.db.jobs && s.db.jobs[step.job].tenant != t then
        Handle(s, step).reply == Forbidden && Handle(alone, step).reply == NotFound
      else Handle(s, step).reply == Handle(alone, step).reply
  {
    InitCoherent(clock);
    CoherentAlways(Init(clock), steps);
    NonInterference(Init(clock), steps, t);
    assert View(Init(clock), t) == Init(clock);
    SameReplies(Run(Init(clock), steps), step, t);
  }
}
