/**
  The control plane as a transition system. A step is one database transaction or one
  statement of a handler; all nondeterminism (fresh ids, which of several equally old jobs
  is taken, the time a handler read before its statement) is in the step's label.
  Clients are arbitrary: any request may arrive at any time.
 */
module Protocol {
  import opened Tables

  type PollId = int
  type RequestId = int
  type TickId = int

  /** An INSERT a scheduler tick still owes to a dashboard it has advanced. */
  datatype Due = Due(tenant: TenantId, sql: string, at: Time)

  datatype PollPhase = Asleep(until: Time) | Probing(begunAt: Time)

  /** An open long-poll; `probes` counts its loop iterations. */
  datatype Poll = Poll(
    agent: AgentId, tenant: TenantId, openedAt: Time, timeout: int, phase: PollPhase, probes: int)
  {
    function Deadline(): Time {
      openedAt + Seconds(timeout)
    }
  }

  /** A result post that has passed every guard and not yet run its transaction. */
  datatype Submission = Submission(
    agent: AgentId, tenant: TenantId, job: JobId, dashboard: DashboardId, body: Body, at: Time)

  /** An enrolment that has found its tenant and not yet run its transaction. */
  datatype Enrolment = Enrolment(tenant: TenantId, at: Time)

  datatype Database = Database(
    tenants: map<TenantId, Tenant>,
    agents: map<AgentId, Agent>,
    dashboards: map<DashboardId, Dashboard>,
    jobs: map<JobId, Job>,
    results: map<DashboardId, Result>)

  /**
    The local variables of suspended handlers. `ticks` counts the scheduler's UPDATE
    statements; `owed[k]` is what is left of the list that tick k walks.
   */
  datatype Work = Work(
    ticks: TickId,
    owed: map<TickId, map<DashboardId, Due>>,
    polls: map<PollId, Poll>,
    submissions: map<RequestId, Submission>,
    enrolments: map<RequestId, Enrolment>)

  datatype State = State(clock: Time, db: Database, work: Work)

  datatype Step =
    | Advance(elapsed: nat)
    | CreateTenant(newTenant: TenantId, name: string)
    | CreateDashboard(newDashboard: DashboardId, tenant: TenantId, name: string, sql: string, refreshInterval: int)
    | EnrolLookup(request: RequestId, tenant: TenantId)
    | EnrolCommit(request: RequestId, newAgent: AgentId)
    | Revoke(agent: AgentId)
    | OpenPoll(poll: PollId, agent: AgentId, timeout: int)
    | BeginProbe(poll: PollId)
    | ProbeTransaction(poll: PollId, pick: JobId)
    | AbortPoll(poll: PollId)
    | SubmitCheck(request: RequestId, agent: AgentId, job: JobId, body: Body)
    | SubmitCommit(request: RequestId)
    | SubmitAbort(request: RequestId)
    | TickUpdate(now: Time)
    | TickInsert(tick: TickId, dashboard: DashboardId, newJob: JobId)
    | TickFail(tick: TickId)
    | Reap(now: Time)

  /** What the client of a step is told; `Suspended` and `Quiet` answer no request. */
  datatype Reply =
    | Created | NoContent | Granted(job: JobId, dashboard: DashboardId, sql: string, timeoutMs: int)
    | Accepted | Revoked
    | Unauthorized | Forbidden | NotFound | Conflict | Unprocessable | ServerError
    | Suspended | Quiet

  datatype Outcome = Outcome(state: State, reply: Reply)

  function Init(clock: Time): State {
    State(clock, Database(map[], map[], map[], map[], map[]), Work(0, map[], map[], map[], map[]))
  }

  // ---- Tenants, dashboards, enrolment and revocation ----

  function DoCreateTenant(s: State, t: TenantId, name: string): Outcome {
    if !(1 <= |name| <= 200) then Outcome(s, Unprocessable)
    else if t in s.db.tenants then Outcome(s, ServerError)
    else Outcome(s.(db := s.db.(tenants := s.db.tenants[t := Tenant(name, None, s.clock)])), Created)
  }

  function DoCreateDashboard(
    s: State, d: DashboardId, t: TenantId, name: string, sql: string, refreshInterval: int): Outcome
  {
    if !(1 <= |name| <= 200 && 1 <= |sql| && 5 <= refreshInterval <= 86400) then Outcome(s, Unprocessable)
    else if t !in s.db.tenants then Outcome(s, NotFound)
    else if d in s.db.dashboards then Outcome(s, ServerError)
    else
      var row := Dashboard(t, name, sql, refreshInterval, s.clock, s.clock);
      Outcome(s.(db := s.db.(dashboards := s.db.dashboards[d := row])), Created)
  }

  function DoEnrolLookup(s: State, r: RequestId, t: TenantId): Outcome {
    if r in s.work.enrolments then Outcome(s, Quiet)
    else if t !in s.db.tenants || s.db.tenants[t].enrolledAt.Some? then Outcome(s, Unauthorized)
    else Outcome(s.(work := s.work.(enrolments := s.work.enrolments[r := Enrolment(t, s.clock)])), Suspended)
  }

  function DoEnrolCommit(s: State, r: RequestId, a: AgentId): Outcome {
    if r !in s.work.enrolments || s.work.enrolments[r].tenant !in s.db.tenants then Outcome(s, Quiet)
    else
      var e := s.work.enrolments[r];
      var work := s.work.(enrolments := s.work.enrolments - {r});
      if a in s.db.agents then Outcome(s.(work := work), ServerError)
      else
        var tenant := s.db.tenants[e.tenant].(enrolledAt := Some(e.at));
        var agent := Agent(e.tenant, e.at, None);
        var db := s.db.(tenants := s.db.tenants[e.tenant := tenant], agents := s.db.agents[a := agent]);
        Outcome(State(s.clock, db, work), Created)
  }

  function DoRevoke(s: State, a: AgentId): Outcome {
    if a !in s.db.agents || s.db.agents[a].revokedAt.Some? then Outcome(s, NotFound)
    else Outcome(s.(db := s.db.(agents := s.db.agents[a := s.db.agents[a].(revokedAt := Some(s.clock))])), Revoked)
  }

  /** The bearer token resolves to an agent that has not been revoked. */
  predicate Authorised(s: State, a: AgentId) {
    a in s.db.agents && s.db.agents[a].revokedAt.None?
  }

  // ---- Long-poll ----

  function DoOpenPoll(s: State, p: PollId, a: AgentId, timeout: int): Outcome {
    if p in s.work.polls then Outcome(s, Quiet)
    else if !(1 <= timeout <= MAX_POLL_TIMEOUT) then Outcome(s, Unprocessable)
    else if !Authorised(s, a) then Outcome(s, Unauthorized)
    else
      var poll := Poll(a, s.db.agents[a].tenant, s.clock, timeout, Asleep(s.clock), 0);
      Outcome(s.(work := s.work.(polls := s.work.polls[p := poll])), Suspended)
  }

  /** The loop test: a new probe while the deadline has not passed, otherwise 204. */
  function DoBeginProbe(s: State, p: PollId): Outcome {
    if p !in s.work.polls || !s.work.polls[p].phase.Asleep? || s.clock < s.work.polls[p].phase.until then
      Outcome(s, Quiet)
    else
      var poll := s.work.polls[p];
      if s.clock < poll.Deadline() then
        var begun := poll.(phase := Probing(s.clock), probes := poll.probes + 1);
        Outcome(s.(work := s.work.(polls := s.work.polls[p := begun])), Suspended)
      else
        Outcome(s.(work := s.work.(polls := s.work.polls - {p})), NoContent)
  }

  predicate PendingFor(job: Job, t: TenantId) {
    job.tenant == t && job.status == Pending
  }

  predicate NonePending(jobs: map<JobId, Job>, t: TenantId) {
    forall j | j in jobs :: !PendingFor(jobs[j], t)
  }

  /** `pick` may come first in ORDER BY created_at ASC over tenant t's pending jobs. */
  predicate OldestPending(jobs: map<JobId, Job>, t: TenantId, pick: JobId) {
    && pick in jobs
    && PendingFor(jobs[pick], t)
    && forall j | j in jobs :: PendingFor(jobs[j], t) ==> jobs[pick].createdAt <= jobs[j].createdAt
  }

  function Claimed(job: Job, a: AgentId, now: Time): Job {
    job.(status := Running, claimedBy := Some(a), claimedAt := Some(now))
  }

  /** SELECT ... FOR UPDATE and UPDATE in one transaction. */
  function DoProbeTransaction(s: State, p: PollId, pick: JobId): Outcome {
    if p !in s.work.polls || !s.work.polls[p].phase.Probing? then Outcome(s, Quiet)
    else
      var poll := s.work.polls[p];
      if NonePending(s.db.jobs, poll.tenant) then
        var asleep := poll.(phase := Asleep(s.clock + Seconds(POLL_INTERVAL)));
        Outcome(s.(work := s.work.(polls := s.work.polls[p := asleep])), Suspended)
      else if OldestPending(s.db.jobs, poll.tenant, pick) then
        var job := s.db.jobs[pick];
        Outcome(State(s.clock,
                      s.db.(jobs := s.db.jobs[pick := Claimed(job, poll.agent, s.clock)]),
                      s.work.(polls := s.work.polls - {p})),
                Granted(pick, job.dashboard, job.sql, job.timeoutMs))
      else Outcome(s, Quiet)
  }

  function DoAbortPoll(s: State, p: PollId): Outcome {
    if p !in s.work.polls then Outcome(s, Quiet)
    else Outcome(s.(work := s.work.(polls := s.work.polls - {p})), ServerError)
  }

  // ---- Result submission ----

  /** The duplicate check: some results row carries this job id. */
  predicate Recorded(s: State, j: JobId) {
    exists d :: d in s.db.results && s.db.results[d].job == j
  }

  function DoSubmitCheck(s: State, r: RequestId, a: AgentId, j: JobId, body: Body): Outcome {
    if r in s.work.submissions then Outcome(s, Quiet)
    else if !Authorised(s, a) then Outcome(s, Unauthorized)
    else if j !in s.db.jobs then Outcome(s, NotFound)
    else if s.db.jobs[j].tenant != s.db.agents[a].tenant then Outcome(s, Forbidden)
    else if Recorded(s, j) then Outcome(s, Conflict)
    else
      var sub := Submission(a, s.db.agents[a].tenant, j, s.db.jobs[j].dashboard, body, s.clock);
      Outcome(s.(work := s.work.(submissions := s.work.submissions[r := sub])), Suspended)
  }

  /** INSERT ... ON CONFLICT (dashboard_id) DO UPDATE: an existing row keeps its tenant. */
  function Upsert(results: map<DashboardId, Result>, sub: Submission): map<DashboardId, Result> {
    if sub.dashboard in results then
      results[sub.dashboard := results[sub.dashboard].(job := sub.job, body := sub.body, recordedAt := sub.at)]
    else
      results[sub.dashboard := Result(sub.tenant, sub.job, sub.body, sub.at)]
  }

  function DoSubmitCommit(s: State, r: RequestId): Outcome {
    if r !in s.work.submissions || s.work.submissions[r].job !in s.db.jobs then Outcome(s, Quiet)
    else
      var sub := s.work.submissions[r];
      var job := s.db.jobs[sub.job].(status := FinalStatus(sub.body));
      Outcome(State(s.clock,
                    s.db.(results := Upsert(s.db.results, sub), jobs := s.db.jobs[sub.job := job]),
                    s.work.(submissions := s.work.submissions - {r})),
              Accepted)
  }

  function DoSubmitAbort(s: State, r: RequestId): Outcome {
    if r !in s.work.submissions then Outcome(s, Quiet)
    else Outcome(s.(work := s.work.(submissions := s.work.submissions - {r})), ServerError)
  }

  // ---- Scheduler ----

  function Advanced(dash: Dashboard, now: Time): Dashboard {
    if dash.nextRunAt <= now then dash.(nextRunAt := dash.nextRunAt + dash.Period()) else dash
  }

  function AdvanceAll(dashboards: map<DashboardId, Dashboard>, now: Time): map<DashboardId, Dashboard> {
    map d | d in dashboards :: Advanced(dashboards[d], now)
  }

  /** The RETURNING list of the UPDATE. */
  function DueList(dashboards: map<DashboardId, Dashboard>, now: Time): map<DashboardId, Due> {
    map d | d in dashboards && dashboards[d].nextRunAt <= now :: Due(dashboards[d].tenant, dashboards[d].sql, now)
  }

  /** UPDATE dashboards ... WHERE next_run_at <= now RETURNING ...; now was read before, at the tick's start. */
  function DoTickUpdate(s: State, now: Time): Outcome {
    if now > s.clock then Outcome(s, Quiet)
    else
      Outcome(State(s.clock,
                    s.db.(dashboards := AdvanceAll(s.db.dashboards, now)),
                    s.work.(owed := s.work.owed[s.work.ticks := DueList(s.db.dashboards, now)],
                            ticks := s.work.ticks + 1)),
              Quiet)
  }

  predicate Owes(s: State, k: TickId, d: DashboardId) {
    k in s.work.owed && d in s.work.owed[k]
  }

  function NewJob(d: DashboardId, due: Due): Job {
    Job(due.tenant, d, due.sql, Pending, None, None, DEFAULT_TIMEOUT_MS, due.at)
  }

  /** One INSERT of the tick's loop; a primary-key clash raises and abandons the rest of the tick. */
  function DoTickInsert(s: State, k: TickId, d: DashboardId, j: JobId): Outcome {
    if !Owes(s, k, d) then Outcome(s, Quiet)
    else if j in s.db.jobs then DoTickFail(s, k)
    else
      Outcome(State(s.clock,
                    s.db.(jobs := s.db.jobs[j := NewJob(d, s.work.owed[k][d])]),
                    s.work.(owed := s.work.owed[k := s.work.owed[k] - {d}])),
              Quiet)
  }

  /** An exception ends tick k: its remaining INSERTs are never made. */
  function DoTickFail(s: State, k: TickId): Outcome {
    Outcome(s.(work := s.work.(owed := s.work.owed - {k})), Quiet)
  }

  predicate Stale(job: Job, now: Time) {
    job.status == Running && job.claimedAt.Some? && job.claimedAt.value < now - Seconds(30 + STALE_JOB_GRACE_SECONDS)
  }

  function Reaped(job: Job, now: Time): Job {
    if Stale(job, now) then job.(status := Pending, claimedBy := None, claimedAt := None) else job
  }

  function ReapAll(jobs: map<JobId, Job>, now: Time): map<JobId, Job> {
    map j | j in jobs :: Reaped(jobs[j], now)
  }

  function DoReap(s: State, now: Time): Outcome {
    if now > s.clock then Outcome(s, Quiet)
    else Outcome(s.(db := s.db.(jobs := ReapAll(s.db.jobs, now))), Quiet)
  }

  // ---- Steps and runs ----

  function Handle(s: State, step: Step): Outcome {
    match step
    case Advance(elapsed) => Outcome(s.(clock := s.clock + elapsed), Quiet)
    case CreateTenant(t, name) => DoCreateTenant(s, t, name)
    case CreateDashboard(d, t, name, sql, interval) => DoCreateDashboard(s, d, t, name, sql, interval)
    case EnrolLookup(r, t) => DoEnrolLookup(s, r, t)
    case EnrolCommit(r, a) => DoEnrolCommit(s, r, a)
    case Revoke(a) => DoRevoke(s, a)
    case OpenPoll(p, a, timeout) => DoOpenPoll(s, p, a, timeout)
    case BeginProbe(p) => DoBeginProbe(s, p)
    case ProbeTransaction(p, pick) => DoProbeTransaction(s, p, pick)
    case AbortPoll(p) => DoAbortPoll(s, p)
    case SubmitCheck(r, a, j, body) => DoSubmitCheck(s, r, a, j, body)
    case SubmitCommit(r) => DoSubmitCommit(s, r)
    case SubmitAbort(r) => DoSubmitAbort(s, r)
    case TickUpdate(now) => DoTickUpdate(s, now)
    case TickInsert(k, d, j) => DoTickInsert(s, k, d, j)
    case TickFail(k) => DoTickFail(s, k)
    case Reap(now) => DoReap(s, now)
  }

  function Next(s: State, step: Step): State {
    Handle(s, step).state
  }

  function Run(s: State, steps: seq<Step>): State
    decreases steps
  {
    if steps == [] then s else Run(Next(s, steps[0]), steps[1..])
  }

  lemma {:induction false} RunConcat(s: State, a: seq<Step>, b: seq<Step>)
    ensures Run(s, a + b) == Run(Run(s, a), b)
    decreases a
  {
    if a == [] {
      assert a + b == b;
    } else {
      assert (a + b)[1..] == a[1..] + b;
      RunConcat(Next(s, a[0]), a[1..], b);
    }
  }

  lemma RunOne(s: State, step: Step)
    ensures Run(s, [step]) == Next(s, step)
  {
    assert [step][1..] == [];
  }

  lemma RunTwo(s: State, first: Step, second: Step)
    ensures Run(s, [first, second]) == Next(Next(s, first), second)
  {
    assert [first, second][1..] == [second];
    RunOne(Next(s, first), second);
  }

  lemma RunSnoc(s: State, steps: seq<Step>, step: Step)
    ensures Run(s, steps + [step]) == Next(Run(s, steps), step)
  {
    RunConcat(s, steps, [step]);
    RunOne(Run(s, steps), step);
  }

  // ---- The embedding endpoint ----

  datatype DashboardData =
    | NoSuchDashboard
    | StillPending(name: string)
    | Latest(name: string, body: Body, recordedAt: Time)

  function GetDashboardData(s: State, d: DashboardId): DashboardData {
    if d !in s.db.dashboards then NoSuchDashboard
    else if d !in s.db.results then StillPending(s.db.dashboards[d].name)
    else Latest(s.db.dashboards[d].name, s.db.results[d].body, s.db.results[d].recordedAt)
  }
}
