/**
  The handlers as they are written: a mutable object whose methods update the tables in place.
  Each statement-sized method refines one step of the transition system; the handlers that
  suspend (long-poll, submit, scheduler tick) refine a run, with what others do while they are
  suspended given as a script.
 */
module Server {
  import opened Tables
  import opened Protocol
  import opened LongPoll
  import opened Lifecycle
  import opened Effects
  import opened Posting
  import opened Counting

  /** What others do between a probe's loop test and its transaction, and while it sleeps. */
  datatype Pause = Pause(acquiring: seq<Step>, sleeping: seq<Step>)

  predicate AgentStep(step: Step) {
    || step.OpenPoll? || step.BeginProbe? || step.ProbeTransaction? || step.AbortPoll?
    || step.SubmitCheck? || step.SubmitCommit? || step.SubmitAbort?
  }

  /** Only the handler of poll p runs its probes. */
  predicate LeavesPoll(steps: seq<Step>, p: PollId) {
    forall step <- steps :: !((step.BeginProbe? || step.ProbeTransaction? || step.AbortPoll?) && step.poll == p)
  }

  /** Only tick k itself works on its list. */
  predicate LeavesTick(steps: seq<Step>, k: TickId) {
    forall step <- steps :: !((step.TickInsert? || step.TickFail?) && step.tick == k)
  }

  /** How long the given steps let time pass. */
  function Elapsed(steps: seq<Step>): nat
    decreases steps
  {
    if steps == [] then 0 else (if steps[0].Advance? then steps[0].elapsed else 0) + Elapsed(steps[1..])
  }

  lemma {:induction false} RunClock(s: State, steps: seq<Step>)
    ensures Run(s, steps).clock == s.clock + Elapsed(steps)
    decreases steps
  {
    if steps != [] {
      ClockStep(s, steps[0]);
      RunClock(Next(s, steps[0]), steps[1..]);
    }
  }

  function PausesElapsed(pauses: seq<Pause>): nat
    decreases pauses
  {
    if pauses == [] then 0
    else Elapsed(pauses[0].acquiring) + Elapsed(pauses[0].sleeping) + PausesElapsed(pauses[1..])
  }

  // ---- The trace of a long-poll ----

  predicate IsProbe(step: Step, p: PollId) {
    step.ProbeTransaction? && step.poll == p
  }

  /** How many probe transactions of poll p the trace holds. */
  function ProbeCount(trace: seq<Step>, p: PollId): nat
    decreases trace
  {
    if trace == [] then 0
    else ProbeCount(trace[..|trace| - 1], p) + if IsProbe(trace[|trace| - 1], p) then 1 else 0
  }

  /** The trace of poll p's handler: its own statements, time passing, and steps of the given script. */
  ghost predicate PollTrace(trace: seq<Step>, p: PollId, script: set<Step>) {
    forall step <- trace ::
      || step.Advance? || step in script
      || ((step.OpenPoll? || step.BeginProbe? || step.ProbeTransaction?) && step.poll == p)
  }

  /** A probe of poll p for tenant t takes place in this state, and there is no pending job to be found. */
  ghost predicate ProbesInVain(s: State, p: PollId, t: TenantId) {
    p in s.work.polls && s.work.polls[p].phase.Probing? && NonePending(s.db.jobs, t)
  }

  /** Every probe of poll p along the trace took place, and found no pending job of tenant t. */
  ghost predicate FoundNothing(start: State, trace: seq<Step>, p: PollId, t: TenantId) {
    forall i | 0 <= i < |trace| && IsProbe(trace[i], p) :: ProbesInVain(Run(start, trace[..i]), p, t)
  }

  /** The last step of the trace is the probe that brought this answer. */
  ghost predicate Found(start: State, trace: seq<Step>, p: PollId, reply: Reply) {
    && reply.Granted? && trace != [] && trace[|trace| - 1] == Step.ProbeTransaction(p, reply.job)
    && Handle(Run(start, trace[..|trace| - 1]), trace[|trace| - 1]).reply == reply
  }

  /** The trace led from `start` to `s` by `n` probes of p, which all found nothing. */
  ghost predicate Searched(
    s: State, start: State, trace: seq<Step>, p: PollId, t: TenantId, script: set<Step>, n: int)
  {
    && s == Run(start, trace) && PollTrace(trace, p, script)
    && FoundNothing(start, trace, p, t) && ProbeCount(trace, p) == n
  }

  lemma SearchedSnoc(
    s: State, start: State, trace: seq<Step>, p: PollId, t: TenantId, script: set<Step>, n: int, step: Step)
    requires Searched(s, start, trace, p, t, script, n) && PollTrace([step], p, script)
    requires IsProbe(step, p) ==> ProbesInVain(s, p, t)
    ensures Searched(Next(s, step), start, trace + [step], p, t, script, n + if IsProbe(step, p) then 1 else 0)
  {
    var longer := trace + [step];
    RunSnoc(start, trace, step);
    assert longer[..|trace|] == trace;
    assert step in [step];
    forall i | 0 <= i < |longer| && IsProbe(longer[i], p) ensures ProbesInVain(Run(start, longer[..i]), p, t) {
      if i < |trace| { assert longer[..i] == trace[..i]; }
    }
  }

  lemma {:induction false} SearchedOthers(
    s: State, start: State, trace: seq<Step>, p: PollId, t: TenantId, script: set<Step>, n: int, others: seq<Step>)
    requires Searched(s, start, trace, p, t, script, n)
    requires LeavesPoll(others, p) && forall step <- others :: step in script
    ensures Searched(Run(s, others), start, trace + others, p, t, script, n)
    decreases others
  {
    if others == [] {
      assert trace + [] == trace;
    } else {
      assert others[0] in others;
      SearchedSnoc(s, start, trace, p, t, script, n, others[0]);
      SearchedOthers(Next(s, others[0]), start, trace + [others[0]], p, t, script, n, others[1..]);
      assert trace + [others[0]] + others[1..] == trace + others;
    }
  }

  function Script(others: seq<Pause>): set<Step> {
    set pause, step | pause in others && step in pause.acquiring + pause.sleeping :: step
  }

  lemma PollKept(s: State, step: Step, p: PollId)
    requires p in s.work.polls && LeavesPoll([step], p)
    ensures p in Next(s, step).work.polls && Next(s, step).work.polls[p] == s.work.polls[p]
  {
    assert step in [step];
  }

  lemma {:induction false} PollKeptRun(s: State, steps: seq<Step>, p: PollId)
    requires p in s.work.polls && LeavesPoll(steps, p)
    ensures p in Run(s, steps).work.polls && Run(s, steps).work.polls[p] == s.work.polls[p]
    decreases steps
  {
    if steps != [] {
      assert steps[0] in steps;
      PollKept(s, steps[0], p);
      PollKeptRun(Next(s, steps[0]), steps[1..], p);
    }
  }

  lemma EnrolmentKept(s: State, step: Step, r: RequestId)
    requires r in s.work.enrolments && s.work.enrolments[r].tenant in s.db.tenants && LeavesRequest([step], r)
    ensures r in Next(s, step).work.enrolments && Next(s, step).work.enrolments[r] == s.work.enrolments[r]
    ensures s.work.enrolments[r].tenant in Next(s, step).db.tenants
  {
    assert step in [step];
  }

  lemma {:induction false} EnrolmentKeptRun(s: State, steps: seq<Step>, r: RequestId)
    requires r in s.work.enrolments && s.work.enrolments[r].tenant in s.db.tenants && LeavesRequest(steps, r)
    ensures r in Run(s, steps).work.enrolments && Run(s, steps).work.enrolments[r] == s.work.enrolments[r]
    ensures s.work.enrolments[r].tenant in Run(s, steps).db.tenants
    decreases steps
  {
    if steps != [] {
      assert steps[0] in steps;
      EnrolmentKept(s, steps[0], r);
      EnrolmentKeptRun(Next(s, steps[0]), steps[1..], r);
    }
  }

  /** The job has just been leased to agent a, with the answer describing it. */
  predicate Leased(job: Job, a: AgentId, t: TenantId, now: Time, answer: Reply)
    requires answer.Granted?
  {
    && job.status == Running && job.claimedBy == Some(a) && job.claimedAt == Some(now) && job.tenant == t
    && job.dashboard == answer.dashboard && job.sql == answer.sql && job.timeoutMs == answer.timeoutMs
  }

  /** A job has been inserted under this id for the given due dashboard; it may have been claimed or finished since. */
  ghost predicate Enqueued(jobs: map<JobId, Job>, j: JobId, d: DashboardId, due: Due) {
    && j in jobs && jobs[j].tenant == due.tenant && jobs[j].dashboard == d && jobs[j].sql == due.sql
    && jobs[j].timeoutMs == 30000 && jobs[j].createdAt == due.at
  }

  /** All the dashboards of `done` have been enqueued. */
  ghost predicate AllEnqueued(
    jobs: map<JobId, Job>, done: set<DashboardId>, due: map<DashboardId, Due>, names: DashboardId -> JobId)
  {
    forall d <- done :: d in due && Enqueued(jobs, names(d), d, due[d])
  }

  lemma AllEnqueuedKept(
    s: State, steps: seq<Step>, done: set<DashboardId>, due: map<DashboardId, Due>, names: DashboardId -> JobId)
    requires AllEnqueued(s.db.jobs, done, due, names)
    ensures AllEnqueued(Run(s, steps).db.jobs, done, due, names)
  {
    forall d <- done ensures Enqueued(Run(s, steps).db.jobs, names(d), d, due[d]) {
      JobForever(s, steps, names(d));
    }
  }

  /** The trace of tick k's loop over its list: its own INSERTs, its failure, and steps of the script. */
  ghost predicate TickTrace(
    trace: seq<Step>, k: TickId, due: map<DashboardId, Due>, names: DashboardId -> JobId, script: set<Step>)
  {
    forall step <- trace ::
      || step in script || step == TickFail(k)
      || (step.TickInsert? && step.tick == k && step.dashboard in due && step.newJob == names(step.dashboard))
  }

  function Interruptions(pauses: seq<seq<Step>>): set<Step> {
    set pause, step | pause in pauses && step in pause :: step
  }

  lemma TickKept(s: State, step: Step, k: TickId)
    requires k in s.work.owed && k < s.work.ticks && LeavesTick([step], k)
    ensures k in Next(s, step).work.owed && Next(s, step).work.owed[k] == s.work.owed[k] && k < Next(s, step).work.ticks
  {
    assert step in [step];
  }

  lemma {:induction false} TickKeptRun(s: State, steps: seq<Step>, k: TickId)
    requires k in s.work.owed && k < s.work.ticks && LeavesTick(steps, k)
    ensures k in Run(s, steps).work.owed && Run(s, steps).work.owed[k] == s.work.owed[k] && k < Run(s, steps).work.ticks
    decreases steps
  {
    if steps != [] {
      assert steps[0] in steps;
      TickKept(s, steps[0], k);
      TickKeptRun(Next(s, steps[0]), steps[1..], k);
    }
  }

  /** Tick k makes INSERTs along the trace for these dashboards only. */
  ghost predicate InsertsFor(trace: seq<Step>, k: TickId, done: set<DashboardId>) {
    forall step <- trace :: step.TickInsert? && step.tick == k ==> step.dashboard in done
  }

  /** The trace led from `start` to `s`; it has enqueued the due list but for `rest`, which tick k still owes. */
  ghost predicate Walked(
    s: State, start: State, trace: seq<Step>, k: TickId, due: map<DashboardId, Due>, names: DashboardId -> JobId,
    script: set<Step>, rest: set<DashboardId>)
  {
    && s == Run(start, trace) && TickTrace(trace, k, due, names, script)
    && rest <= due.Keys && AllEnqueued(s.db.jobs, due.Keys - rest, due, names) && InsertsFor(trace, k, due.Keys - rest)
    && k in s.work.owed && k < s.work.ticks && s.work.owed[k].Keys == rest
    && forall d <- rest :: s.work.owed[k][d] == due[d]
  }

  lemma WalkedMore(
    s: State, start: State, trace: seq<Step>, k: TickId, due: map<DashboardId, Due>, names: DashboardId -> JobId,
    script: set<Step>, rest: set<DashboardId>, d: DashboardId, step: seq<Step>, ok: bool)
    requires Walked(s, start, trace, k, due, names, script, rest) && d in rest && TickTrace(step, k, due, names, script)
    requires InsertsFor(step, k, if ok then {d} else {})
    requires
      var s' := Run(s, step);
      && k in s'.work.owed && k < s'.work.ticks
      && s'.work.owed[k] == (if ok then s.work.owed[k] - {d} else s.work.owed[k])
      && (ok ==> names(d) in s'.db.jobs && s'.db.jobs[names(d)] == NewJob(d, due[d]))
    ensures Walked(Run(s, step), start, trace + step, k, due, names, script, if ok then rest - {d} else rest)
  {
    RunConcat(start, trace, step);
    AllEnqueuedKept(s, step, due.Keys - rest, due, names);
    assert due.Keys - (rest - {d}) == (due.Keys - rest) + {d};
  }

  /**
    The trace, which led from `start` to `s`, is all that tick k makes of its due list: either
    everything is enqueued and nothing is owed, or only `done` is, by the tick's own INSERTs, and the
    rest is given up because `budget` INSERTs had been made or an id was already taken.
   */
  ghost predicate TickDone(
    s: State, start: State, trace: seq<Step>, k: TickId, due: map<DashboardId, Due>, names: DashboardId -> JobId,
    script: set<Step>, budget: nat, ok: bool, done: set<DashboardId>)
  {
    && s == Run(start, trace) && TickTrace(trace, k, due, names, script)
    && AllEnqueued(s.db.jobs, done, due, names) && InsertsFor(trace, k, done) && |done| <= budget
    && if ok then done == due.Keys && k in s.work.owed && s.work.owed[k].Keys == {}
       else
         && done < due.Keys && k !in s.work.owed
         && (|done| == budget || exists d <- due.Keys - done :: names(d) in s.db.jobs)
  }

  lemma Sizes(due: set<DashboardId>, rest: set<DashboardId>)
    requires rest <= due
    ensures |due - rest| == |due| - |rest| && due - (due - rest) == rest && (rest != {} <==> due - rest < due)
  {
    assert due == (due - rest) + rest;
  }

  lemma AllInserted(
    s: State, start: State, trace: seq<Step>, k: TickId, due: map<DashboardId, Due>, names: DashboardId -> JobId,
    script: set<Step>, budget: nat)
    requires Walked(s, start, trace, k, due, names, script, {}) && |due.Keys| <= budget
    ensures TickDone(s, start, trace, k, due, names, script, budget, true, due.Keys)
  {
    assert due.Keys - {} == due.Keys;
  }

  lemma GivenUp(
    s: State, start: State, trace: seq<Step>, k: TickId, due: map<DashboardId, Due>, names: DashboardId -> JobId,
    script: set<Step>, budget: nat, rest: set<DashboardId>)
    requires Walked(s, start, trace, k, due, names, script, rest) && rest != {} && |due.Keys| - |rest| <= budget
    requires |due.Keys| - |rest| == budget || exists d <- rest :: names(d) in s.db.jobs
    ensures
      TickDone(Next(s, TickFail(k)), start, trace + [TickFail(k)], k, due, names, script, budget, false,
               due.Keys - rest)
  {
    Sizes(due.Keys, rest);
    RunSnoc(start, trace, TickFail(k));
  }

  class ControlPlane {
    var clock: Time
    var tenants: map<TenantId, Tenant>
    var agents: map<AgentId, Agent>
    var dashboards: map<DashboardId, Dashboard>
    var jobs: map<JobId, Job>
    var results: map<DashboardId, Result>
    // locals of suspended handlers
    var ticks: TickId
    var owed: map<TickId, map<DashboardId, Due>>
    var polls: map<PollId, Poll>
    var submissions: map<RequestId, Submission>
    var enrolments: map<RequestId, Enrolment>

    function Abs(): State
      reads this
    {
      State(clock, Database(tenants, agents, dashboards, jobs, results),
            Work(ticks, owed, polls, submissions, enrolments))
    }

    constructor (clock: Time)
      ensures Abs() == Init(clock)
    {
      this.clock := clock;
      tenants, agents, dashboards, jobs, results := map[], map[], map[], map[], map[];
      ticks, owed, polls, submissions, enrolments := 0, map[], map[], map[], map[];
    }

    method Advance(elapsed: nat)
      modifies this`clock
      ensures clock == old(clock) + elapsed
    {
      clock := clock + elapsed;
    }

    method CreateTenant(t: TenantId, name: string) returns (reply: Reply)
      modifies this`tenants
      ensures Outcome(Abs(), reply) == DoCreateTenant(old(Abs()), t, name)
    {
      if !(1 <= |name| <= 200) { return Unprocessable; }
      if t in tenants { return ServerError; }
      tenants := tenants[t := Tenant(name, None, clock)];
      return Created;
    }

    method CreateDashboard(d: DashboardId, t: TenantId, name: string, sql: string, refreshInterval: int)
      returns (reply: Reply)
      modifies this`dashboards
      ensures Outcome(Abs(), reply) == DoCreateDashboard(old(Abs()), d, t, name, sql, refreshInterval)
    {
      if !(1 <= |name| <= 200 && 1 <= |sql| && 5 <= refreshInterval <= 86400) { return Unprocessable; }
      if t !in tenants { return NotFound; }
      if d in dashboards { return ServerError; }
      dashboards := dashboards[d := Dashboard(t, name, sql, refreshInterval, clock, clock)];
      return Created;
    }

    method EnrolLookup(r: RequestId, t: TenantId) returns (reply: Reply)
      modifies this`enrolments
      ensures Outcome(Abs(), reply) == DoEnrolLookup(old(Abs()), r, t)
    {
      if r in enrolments { return Quiet; }
      if t !in tenants || tenants[t].enrolledAt.Some? { return Unauthorized; }
      enrolments := enrolments[r := Enrolment(t, clock)];
      return Suspended;
    }

    method EnrolCommit(r: RequestId, a: AgentId) returns (reply: Reply)
      modifies this`enrolments, this`tenants, this`agents
      ensures Outcome(Abs(), reply) == DoEnrolCommit(old(Abs()), r, a)
    {
      if r !in enrolments || enrolments[r].tenant !in tenants { return Quiet; }
      var e := enrolments[r];
      enrolments := enrolments - {r};
      if a in agents { return ServerError; }
      tenants := tenants[e.tenant := tenants[e.tenant].(enrolledAt := Some(e.at))];
      agents := agents[a := Agent(e.tenant, e.at, None)];
      return Created;
    }

    method RevokeAgent(a: AgentId) returns (reply: Reply)
      modifies this`agents
      ensures Outcome(Abs(), reply) == DoRevoke(old(Abs()), a)
    {
      if a !in agents || agents[a].revokedAt.Some? { return NotFound; }
      agents := agents[a := agents[a].(revokedAt := Some(clock))];
      return Revoked;
    }

    // ---- Long-poll ----

    method OpenPoll(p: PollId, a: AgentId, timeout: int) returns (reply: Reply)
      modifies this`polls
      ensures Outcome(Abs(), reply) == DoOpenPoll(old(Abs()), p, a, timeout)
    {
      if p in polls { return Quiet; }
      if !(1 <= timeout <= MAX_POLL_TIMEOUT) { return Unprocessable; }
      if a !in agents || agents[a].revokedAt.Some? { return Unauthorized; }
      polls := polls[p := Poll(a, agents[a].tenant, clock, timeout, Asleep(clock), 0)];
      return Suspended;
    }

    method BeginProbe(p: PollId) returns (reply: Reply)
      modifies this`polls
      ensures Outcome(Abs(), reply) == DoBeginProbe(old(Abs()), p)
    {
      if p !in polls || !polls[p].phase.Asleep? || clock < polls[p].phase.until { return Quiet; }
      if clock < polls[p].Deadline() {
        polls := polls[p := polls[p].(phase := Probing(clock), probes := polls[p].probes + 1)];
        return Suspended;
      }
      polls := polls - {p};
      return NoContent;
    }

    /** SELECT ... WHERE tenant_id AND pending ORDER BY created_at LIMIT 1: scan for the oldest. */
    method SelectOldest(t: TenantId) returns (pick: Option<JobId>)
      ensures pick.None? <==> NonePending(jobs, t)
      ensures pick.Some? ==> OldestPending(jobs, t, pick.value)
    {
      pick := None;
      var rest := jobs.Keys;
      while rest != {}
        invariant rest <= jobs.Keys
        invariant pick.Some? ==> pick.value in jobs && PendingFor(jobs[pick.value], t)
        invariant forall j <- jobs :: j !in rest && PendingFor(jobs[j], t) ==>
                    pick.Some? && jobs[pick.value].createdAt <= jobs[j].createdAt
        decreases |rest|
      {
        var j := Any(rest);
        if PendingFor(jobs[j], t) && (pick.None? || jobs[j].createdAt < jobs[pick.value].createdAt) {
          pick := Some(j);
        }
        rest := rest - {j};
      }
      if pick.Some? {
        var k := pick.value;
        assert k in jobs && PendingFor(jobs[k], t);
      }
    }

    method ProbeTransaction(p: PollId, pick: JobId) returns (reply: Reply)
      modifies this`polls, this`jobs
      ensures Outcome(Abs(), reply) == DoProbeTransaction(old(Abs()), p, pick)
    {
      if p !in polls || !polls[p].phase.Probing? { return Quiet; }
      var poll := polls[p];
      var oldest := SelectOldest(poll.tenant);
      if oldest.None? {
        polls := polls[p := poll.(phase := Asleep(clock + Seconds(POLL_INTERVAL)))];
        return Suspended;
      }
      if !OldestPending(jobs, poll.tenant, pick) { return Quiet; }
      var job := jobs[pick];
      jobs := jobs[pick := job.(status := Running, claimedBy := Some(poll.agent), claimedAt := Some(clock))];
      polls := polls - {p};
      return Granted(pick, job.dashboard, job.sql, job.timeoutMs);
    }

    method AbortPoll(p: PollId) returns (reply: Reply)
      modifies this`polls
      ensures Outcome(Abs(), reply) == DoAbortPoll(old(Abs()), p)
    {
      if p !in polls { return Quiet; }
      polls := polls - {p};
      return ServerError;
    }

    // ---- Result submission ----

    method SubmitCheck(r: RequestId, a: AgentId, j: JobId, body: Body) returns (reply: Reply)
      modifies this`submissions
      ensures Outcome(Abs(), reply) == DoSubmitCheck(old(Abs()), r, a, j, body)
    {
      if r in submissions { return Quiet; }
      if a !in agents || agents[a].revokedAt.Some? { return Unauthorized; }
      if j !in jobs { return NotFound; }
      if jobs[j].tenant != agents[a].tenant { return Forbidden; }
      if exists d :: d in results && results[d].job == j { return Conflict; }
      submissions := submissions[r := Submission(a, agents[a].tenant, j, jobs[j].dashboard, body, clock)];
      return Suspended;
    }

    method SubmitCommit(r: RequestId) returns (reply: Reply)
      modifies this`submissions, this`results, this`jobs
      ensures Outcome(Abs(), reply) == DoSubmitCommit(old(Abs()), r)
    {
      if r !in submissions || submissions[r].job !in jobs { return Quiet; }
      var sub := submissions[r];
      if sub.dashboard in results {
        var row := results[sub.dashboard].(job := sub.job, body := sub.body, recordedAt := sub.at);
        results := results[sub.dashboard := row];
      } else {
        results := results[sub.dashboard := Result(sub.tenant, sub.job, sub.body, sub.at)];
      }
      jobs := jobs[sub.job := jobs[sub.job].(status := if sub.body.success then Done else Failed)];
      submissions := submissions - {r};
      return Accepted;
    }

    method SubmitAbort(r: RequestId) returns (reply: Reply)
      modifies this`submissions
      ensures Outcome(Abs(), reply) == DoSubmitAbort(old(Abs()), r)
    {
      if r !in submissions { return Quiet; }
      submissions := submissions - {r};
      return ServerError;
    }

    // ---- Scheduler ----

    method TickUpdate(now: Time)
      modifies this`dashboards, this`owed, this`ticks
      ensures Abs() == DoTickUpdate(old(Abs()), now).state
    {
      if now > clock { return; }
      owed := owed[ticks := DueList(dashboards, now)];
      dashboards := AdvanceAll(dashboards, now);
      ticks := ticks + 1;
    }

    method TickInsert(k: TickId, d: DashboardId, j: JobId)
      modifies this`jobs, this`owed
      ensures Abs() == DoTickInsert(old(Abs()), k, d, j).state
    {
      if k !in owed || d !in owed[k] { return; }
      if j in jobs {
        TickFail(k);
        return;
      }
      var due := owed[k][d];
      jobs := jobs[j := Job(due.tenant, d, due.sql, Pending, None, None, DEFAULT_TIMEOUT_MS, due.at)];
      owed := owed[k := owed[k] - {d}];
    }

    method TickFail(k: TickId)
      modifies this`owed
      ensures Abs() == DoTickFail(old(Abs()), k).state
    {
      owed := owed - {k};
    }

    method ReapStaleJobs(now: Time)
      modifies this`jobs
      ensures Abs() == DoReap(old(Abs()), now).state
    {
      if now > clock { return; }
      jobs := ReapAll(jobs, now);
    }

    method GetDashboardData(d: DashboardId) returns (data: DashboardData)
      ensures data == Protocol.GetDashboardData(Abs(), d)
    {
      if d !in dashboards { return NoSuchDashboard; }
      if d !in results { return StillPending(dashboards[d].name); }
      return Latest(dashboards[d].name, results[d].body, results[d].recordedAt);
    }

    // ---- Refinement ----

    /** The steps of the embedding and admin endpoints, enrolment, the scheduler and the clock. */
    method PerformPlatform(step: Step) returns (reply: Reply)
      requires !AgentStep(step)
      modifies this
      ensures Outcome(Abs(), reply) == Handle(old(Abs()), step)
    {
      reply := Quiet;
      match step
      case Advance(elapsed) => Advance(elapsed);
      case CreateTenant(t, name) => reply := CreateTenant(t, name);
      case CreateDashboard(d, t, name, sql, interval) => reply := CreateDashboard(d, t, name, sql, interval);
      case EnrolLookup(r, t) => reply := EnrolLookup(r, t);
      case EnrolCommit(r, a) => reply := EnrolCommit(r, a);
      case Revoke(a) => reply := RevokeAgent(a);
      case TickUpdate(now) => TickUpdate(now);
      case TickInsert(k, d, j) => TickInsert(k, d, j);
      case TickFail(k) => TickFail(k);
      case Reap(now) => ReapStaleJobs(now);
    }

    /** The steps of the long-poll and of result submission. */
    method PerformAgent(step: Step) returns (reply: Reply)
      requires AgentStep(step)
      modifies this
      ensures Outcome(Abs(), reply) == Handle(old(Abs()), step)
    {
      match step
      case OpenPoll(p, a, timeout) => reply := OpenPoll(p, a, timeout);
      case BeginProbe(p) => reply := BeginProbe(p);
      case ProbeTransaction(p, pick) => reply := ProbeTransaction(p, pick);
      case AbortPoll(p) => reply := AbortPoll(p);
      case SubmitCheck(r, a, j, body) => reply := SubmitCheck(r, a, j, body);
      case SubmitCommit(r) => reply := SubmitCommit(r);
      case SubmitAbort(r) => reply := SubmitAbort(r);
    }

    /** Whatever the label, the object takes the step of the transition system. */
    method Perform(step: Step) returns (reply: Reply)
      modifies this
      ensures Outcome(Abs(), reply) == Handle(old(Abs()), step)
    {
      if AgentStep(step) {
        reply := PerformAgent(step);
      } else {
        reply := PerformPlatform(step);
      }
    }

    method PerformAll(steps: seq<Step>)
      modifies this
      ensures Abs() == Run(old(Abs()), steps)
    {
      ghost var start := Abs();
      for i := 0 to |steps|
        invariant Run(Abs(), steps[i..]) == Run(start, steps)
      {
        assert steps[i..][1..] == steps[i + 1..];
        var _ := Perform(steps[i]);
      }
      assert steps[|steps|..] == [];
    }

    // ---- Whole handlers ----

    /** Takes one step and extends the trace by it. */
    method Take(step: Step, ghost start: State, ghost trace: seq<Step>) returns (reply: Reply, ghost longer: seq<Step>)
      requires Abs() == Run(start, trace)
      modifies this
      ensures longer == trace + [step] && Abs() == Run(start, longer)
      ensures Outcome(Abs(), reply) == Handle(old(Abs()), step)
    {
      reply := Perform(step);
      longer := trace + [step];
      RunSnoc(start, trace, step);
    }

    /** Suspended while others run: nothing of poll p changes. */
    method Yield(
      p: PollId, others: seq<Step>, ghost start: State, ghost trace: seq<Step>, ghost t: TenantId,
      ghost script: set<Step>, ghost n: nat)
      returns (ghost longer: seq<Step>)
      requires p in polls && LeavesPoll(others, p) && forall step <- others :: step in script
      requires Searched(Abs(), start, trace, p, t, script, n)
      modifies this
      ensures Searched(Abs(), start, longer, p, t, script, n)
      ensures p in polls && polls[p] == old(polls[p]) && clock == old(clock) + Elapsed(others)
    {
      longer := trace + others;
      SearchedOthers(Abs(), start, trace, p, t, script, n, others);
      PollKeptRun(Abs(), others, p);
      RunClock(Abs(), others);
      PerformAll(others);
    }

    /** asyncio.sleep: others run until the poll's wake-up time. */
    method Sleep(
      p: PollId, others: seq<Step>, ghost start: State, ghost trace: seq<Step>, ghost t: TenantId,
      ghost script: set<Step>, ghost n: nat)
      returns (ghost longer: seq<Step>)
      requires p in polls && polls[p].phase.Asleep? && LeavesPoll(others, p) && forall step <- others :: step in script
      requires Searched(Abs(), start, trace, p, t, script, n)
      modifies this
      ensures Searched(Abs(), start, longer, p, t, script, n)
      ensures p in polls && polls[p] == old(polls[p]) && polls[p].phase.until <= clock
      ensures clock == old(clock) + Elapsed(others) || clock == polls[p].phase.until
    {
      longer := Yield(p, others, start, trace, t, script, n);
      var until := polls[p].phase.until;
      if clock < until {
        SearchedSnoc(Abs(), start, longer, p, t, script, n, Step.Advance(until - clock));
        longer := longer + [Step.Advance(until - clock)];
        Advance(until - clock);
      }
    }

    /** The loop test that opens a turn, and what others do before its transaction. */
    method StartProbe(
      p: PollId, others: seq<Step>, ghost start: State, ghost trace: seq<Step>, ghost script: set<Step>)
      returns (ghost longer: seq<Step>)
      requires p in polls && polls[p].phase.Asleep? && polls[p].phase.until <= clock < polls[p].Deadline()
      requires LeavesPoll(others, p) && forall step <- others :: step in script
      requires polls[p].probes >= 0 && Searched(Abs(), start, trace, p, polls[p].tenant, script, polls[p].probes)
      modifies this
      ensures Searched(Abs(), start, longer, p, old(polls[p]).tenant, script, old(polls[p]).probes)
      ensures p in polls && clock == old(clock) + Elapsed(others)
      ensures polls[p] == old(polls[p]).(phase := Probing(old(clock)), probes := old(polls[p]).probes + 1)
    {
      ghost var poll, script' := polls[p], script;
      SearchedSnoc(Abs(), start, trace, p, poll.tenant, script, poll.probes, Step.BeginProbe(p));
      var _ := BeginProbe(p);
      longer := Yield(p, others, start, trace + [Step.BeginProbe(p)], poll.tenant, script, poll.probes);
    }

    /**
      One turn of the long-poll's loop: probe, and if nothing is pending sleep for a POLL_INTERVAL.
      When a job is granted the trace ends with the probe that found it.
     */
    method ProbeOnce(p: PollId, pause: Pause, ghost start: State, ghost trace: seq<Step>, ghost script: set<Step>)
      returns (reply: Reply, ghost earlier: seq<Step>, ghost longer: seq<Step>)
      requires p in polls && polls[p].phase.Asleep? && polls[p].phase.until <= clock < polls[p].Deadline()
      requires LeavesPoll(pause.acquiring, p) && LeavesPoll(pause.sleeping, p)
      requires forall step <- pause.acquiring + pause.sleeping :: step in script
      requires polls[p].probes >= 0 && Searched(Abs(), start, trace, p, polls[p].tenant, script, polls[p].probes)
      modifies this
      ensures
        var poll := old(polls[p]);
        if reply.Granted? then
          && longer == earlier + [Step.ProbeTransaction(p, reply.job)] && Abs() == Run(start, longer)
          && Searched(Run(start, earlier), start, earlier, p, poll.tenant, script, poll.probes)
          && Handle(Run(start, earlier), Step.ProbeTransaction(p, reply.job)).reply == reply
          && clock == old(clock) + Elapsed(pause.acquiring)
          && OldestPending(Run(start, earlier).db.jobs, poll.tenant, reply.job)
          && p !in polls && reply.job in jobs && Leased(jobs[reply.job], poll.agent, poll.tenant, clock, reply)
        else
          && Searched(Abs(), start, longer, p, poll.tenant, script, poll.probes + 1)
          && p in polls && polls[p].phase.Asleep?
          && polls[p] == poll.(phase := polls[p].phase, probes := poll.probes + 1)
          && old(clock) + 1_000_000 <= polls[p].phase.until <= clock
          && clock <= old(clock) + 1_000_000 + Elapsed(pause.acquiring) + Elapsed(pause.sleeping)
    {
      assert forall step <- pause.acquiring :: step in pause.acquiring + pause.sleeping;
      assert forall step <- pause.sleeping :: step in pause.acquiring + pause.sleeping;
      ghost var poll := polls[p];
      earlier := StartProbe(p, pause.acquiring, start, trace, script);
      var pick := SelectOldest(polls[p].tenant);
      var job := if pick.Some? then pick.value else 0;
      longer := earlier + [Step.ProbeTransaction(p, job)];
      RunSnoc(start, earlier, Step.ProbeTransaction(p, job));
      if pick.None? {
        SearchedSnoc(Abs(), start, earlier, p, poll.tenant, script, poll.probes, Step.ProbeTransaction(p, job));
      }
      reply := ProbeTransaction(p, job);
      if pick.None? {
        longer := Sleep(p, pause.sleeping, start, longer, poll.tenant, script, poll.probes + 1);
      }
    }

    /** Opens the poll; the search that follows starts with no probe made. */
    method OpenSearch(p: PollId, a: AgentId, timeout: int, ghost script: set<Step>)
      returns (reply: Reply, ghost trace: seq<Step>)
      requires p !in polls
      modifies this`polls
      ensures Outcome(Abs(), reply) == DoOpenPoll(old(Abs()), p, a, timeout)
      ensures
        if reply == Suspended then
          && a in agents && p in polls && polls[p] == Poll(a, agents[a].tenant, clock, timeout, Asleep(clock), 0)
          && 1 <= timeout <= MAX_POLL_TIMEOUT
          && Searched(Abs(), old(Abs()), trace, p, agents[a].tenant, script, 0)
        else trace == [] && Abs() == old(Abs())
    {
      trace := [];
      ghost var start := Abs();
      reply := OpenPoll(p, a, timeout);
      if reply == Suspended {
        SearchedSnoc(start, start, [], p, agents[a].tenant, script, 0, Step.OpenPoll(p, a, timeout));
        trace := [] + [Step.OpenPoll(p, a, timeout)];
      }
    }

    /** The loop test at the deadline: 204. */
    method CloseSearch(
      p: PollId, ghost start: State, ghost trace: seq<Step>, ghost t: TenantId, ghost script: set<Step>, ghost n: nat)
      returns (ghost longer: seq<Step>)
      requires p in polls && polls[p].phase.Asleep? && polls[p].phase.until <= clock && polls[p].Deadline() <= clock
      requires Searched(Abs(), start, trace, p, t, script, n)
      modifies this`polls
      ensures Searched(Abs(), start, longer, p, t, script, n) && p !in polls
    {
      SearchedSnoc(Abs(), start, trace, p, t, script, n, Step.BeginProbe(p));
      longer := trace + [Step.BeginProbe(p)];
      var _ := BeginProbe(p);
    }

    /**
      The deadline loop: turns until a job is granted or the deadline has passed. The time not taken
      by others is spent a POLL_INTERVAL per probe.
     */
    method Search(p: PollId, others: seq<Pause>, ghost start: State, ghost trace: seq<Step>, ghost script: set<Step>)
      returns (granted: Reply, ghost earlier: seq<Step>, ghost longer: seq<Step>)
      requires p in polls && polls[p].probes == 0 && polls[p].phase == Asleep(clock) && polls[p].openedAt == clock
      requires 1 <= polls[p].timeout <= MAX_POLL_TIMEOUT
      requires forall pause <- others :: LeavesPoll(pause.acquiring, p) && LeavesPoll(pause.sleeping, p)
      requires forall pause <- others, step <- pause.acquiring + pause.sleeping :: step in script
      requires Searched(Abs(), start, trace, p, polls[p].tenant, script, 0)
      modifies this
      ensures
        var poll := old(polls[p]);
        if granted.Granted? then
          && longer == earlier + [Step.ProbeTransaction(p, granted.job)] && Abs() == Run(start, longer)
          && Searched(Run(start, earlier), start, earlier, p, poll.tenant, script, ProbeCount(earlier, p))
          && ProbeCount(earlier, p) < poll.timeout
          && Handle(Run(start, earlier), Step.ProbeTransaction(p, granted.job)).reply == granted
          && clock <= poll.openedAt + ProbeCount(earlier, p) * 1_000_000 + PausesElapsed(others)
          && OldestPending(Run(start, earlier).db.jobs, poll.tenant, granted.job)
          && p !in polls && granted.job in jobs && Leased(jobs[granted.job], poll.agent, poll.tenant, clock, granted)
        else
          && p in polls && polls[p] == poll.(phase := polls[p].phase, probes := polls[p].probes)
          && polls[p].phase.Asleep? && polls[p].phase.until <= clock && poll.Deadline() <= clock
          && Searched(Abs(), start, longer, p, poll.tenant, script, polls[p].probes)
          && polls[p].probes <= poll.timeout
          && clock <= poll.openedAt + polls[p].probes * 1_000_000 + PausesElapsed(others)
    {
      ghost var poll := polls[p];
      granted, earlier, longer := Quiet, [], trace;
      var left, deadline := others, polls[p].Deadline();
      while clock < deadline
        invariant p in polls && polls[p] == poll.(phase := polls[p].phase, probes := polls[p].probes)
        invariant polls[p].phase.Asleep? && polls[p].phase.until <= clock && Paced(polls[p], clock)
        invariant Searched(Abs(), start, longer, p, poll.tenant, script, polls[p].probes)
        invariant forall pause <- left :: pause in others
        invariant clock + PausesElapsed(left) <= poll.openedAt + polls[p].probes * 1_000_000 + PausesElapsed(others)
        invariant !granted.Granted?
        decreases deadline - clock
      {
        var pause := if left == [] then Pause([], []) else left[0];
        granted, earlier, longer := ProbeOnce(p, pause, start, longer, script);
        if granted.Granted? { return; }
        left := if left == [] then [] else left[1..];
      }
    }

    /**
      get_next_job. `others` scripts what happens while the handler is suspended. Either the last
      statement is a probe that finds the answer, the oldest pending job at that moment, all earlier
      probes having found none; or 204 is answered at the deadline, all probes having found none, and
      there were as many of them as the time that others did not take allows.
     */
    method GetNextJob(p: PollId, a: AgentId, timeout: int, others: seq<Pause>)
      returns (reply: Reply, ghost trace: seq<Step>)
      requires p !in polls
      requires forall pause <- others :: LeavesPoll(pause.acquiring, p) && LeavesPoll(pause.sleeping, p)
      modifies this
      ensures Abs() == Run(old(Abs()), trace) && PollTrace(trace, p, Script(others)) && p !in polls
      ensures reply == Unprocessable || reply == Unauthorized || reply == NoContent || reply.Granted?
      ensures reply == Unprocessable <==> !(1 <= timeout <= 25)
      ensures reply == Unauthorized <==> 1 <= timeout <= 25 && !MayCall(old(Abs()), a)
      ensures reply == Unprocessable || reply == Unauthorized ==> Abs() == old(Abs())
      ensures ProbeCount(trace, p) <= if timeout < 0 then 0 else timeout
      ensures reply == NoContent ==>
                && a in old(agents) && FoundNothing(old(Abs()), trace, p, old(agents)[a].tenant)
                && old(clock) + timeout * 1_000_000 <= clock
      ensures clock <= old(clock) + ProbeCount(trace, p) * 1_000_000 + PausesElapsed(others)
      ensures reply.Granted? ==>
                && a in old(agents) && Found(old(Abs()), trace, p, reply)
                && FoundNothing(old(Abs()), trace[..|trace| - 1], p, old(agents)[a].tenant)
                && OldestPending(Run(old(Abs()), trace[..|trace| - 1]).db.jobs, old(agents)[a].tenant, reply.job)
                && reply.job in jobs && Leased(jobs[reply.job], a, old(agents)[a].tenant, clock, reply)
    {
      ghost var start, script, earlier := Abs(), Script(others), [];
      reply, trace := OpenSearch(p, a, timeout, script);
      if reply != Suspended { return; }
      ghost var tenant := agents[a].tenant;
      assert forall pause <- others, step <- pause.acquiring + pause.sleeping :: step in script;
      reply, earlier, trace := Search(p, others, start, trace, script);
      if reply.Granted? {
        assert trace[..|trace| - 1] == earlier;
        return;
      }
      trace := CloseSearch(p, start, trace, tenant, script, polls[p].probes);
      reply := NoContent;
    }

    /** The transaction of submit_job_result, which may raise. */
    method FinishPost(r: RequestId, raises: bool) returns (reply: Reply)
      requires r in submissions && submissions[r].job in jobs
      modifies this`submissions, this`results, this`jobs
      ensures Abs() == Next(old(Abs()), if raises then Step.SubmitAbort(r) else Step.SubmitCommit(r))
      ensures reply == if raises then ServerError else Accepted
    {
      if raises {
        reply := SubmitAbort(r);
      } else {
        reply := SubmitCommit(r);
      }
    }

    /**
      submit_job_result: the guards, then the transaction, which may raise, with `others` in
      between.
     */
    method SubmitJobResult(r: RequestId, a: AgentId, j: JobId, body: Body, others: seq<Step>, raises: bool)
      returns (reply: Reply)
      requires r !in submissions && LeavesRequest(others, r)
      modifies this
      ensures Abs() == Run(old(Abs()), SubmitSteps(old(Abs()), r, a, j, body, others, raises))
      ensures reply == SubmitReply(old(Abs()), r, a, j, body, raises)
      ensures reply != Accepted && reply != ServerError ==> Abs() == old(Abs())
      ensures reply == Accepted ==> Shows(Abs(), j, body)
      ensures reply == Accepted ==> j in jobs && jobs[j].status == if body.success then Done else Failed
      ensures
        var steps := SubmitSteps(old(Abs()), r, a, j, body, others, raises);
        IsPost(OwnLog(old(Abs()), steps, r), reply == Accepted, j, body)
      ensures r !in submissions
    {
      ghost var start := Abs();
      SubmitTally(start, r, a, j, body, others, raises);
      reply := SubmitCheck(r, a, j, body);
      if reply != Suspended {
        SubmitRefused(start, r, a, j, body, others, raises);
      } else {
        SubmitThrough(start, r, a, j, body, others, raises);
        AwaitTurn(Abs(), r, others);
        PerformAll(others);
        reply := FinishPost(r, raises);
      }
    }

    /** enroll_agent: lookup, then the transaction, with `others` in between. */
    method EnrollAgent(r: RequestId, t: TenantId, a: AgentId, others: seq<Step>)
      returns (reply: Reply, ghost trace: seq<Step>)
      requires r !in enrolments && LeavesRequest(others, r)
      modifies this
      ensures Abs() == Run(old(Abs()), trace)
      ensures reply == Unauthorized || reply == Created || reply == ServerError
      ensures reply == Unauthorized <==> !(t in old(tenants) && old(tenants)[t].enrolledAt.None?)
      ensures trace ==
              [Step.EnrolLookup(r, t)] + if reply == Unauthorized then [] else others + [Step.EnrolCommit(r, a)]
      ensures reply == Created <==>
                reply != Unauthorized && a !in Run(old(Abs()), [Step.EnrolLookup(r, t)] + others).db.agents
      ensures reply == Created ==> t in tenants && tenants[t].enrolledAt == Some(old(clock))
      ensures reply == Created ==> a in agents && agents[a] == Agent(t, old(clock), None)
    {
      ghost var start := Abs();
      RunOne(start, Step.EnrolLookup(r, t));
      trace := [Step.EnrolLookup(r, t)];
      reply := EnrolLookup(r, t);
      if reply != Suspended { return; }
      EnrolmentKeptRun(Abs(), others, r);
      RunConcat(start, trace, others);
      trace := trace + others;
      PerformAll(others);
      reply, trace := Take(Step.EnrolCommit(r, a), start, trace);
    }

    // ---- The scheduler's tick ----

    /** One turn of the tick's loop: what others do first, then the INSERT, unless its id has been taken. */
    method InsertDue(k: TickId, d: DashboardId, names: DashboardId -> JobId, pause: seq<Step>)
      returns (ok: bool, ghost trace: seq<Step>)
      requires k in owed && d in owed[k] && k < ticks && LeavesTick(pause, k)
      modifies this
      ensures Abs() == Run(old(Abs()), trace) && k in owed && k < ticks
      ensures trace == if ok then pause + [Step.TickInsert(k, d, names(d))] else pause
      ensures owed[k] == if ok then old(owed[k]) - {d} else old(owed[k])
      ensures names(d) in jobs && (ok ==> jobs[names(d)] == NewJob(d, old(owed[k])[d]))
    {
      ghost var start := Abs();
      TickKeptRun(start, pause, k);
      PerformAll(pause);
      trace := pause;
      ok := names(d) !in jobs;
      if ok {
        RunSnoc(start, pause, Step.TickInsert(k, d, names(d)));
        trace := pause + [Step.TickInsert(k, d, names(d))];
        TickInsert(k, d, names(d));
      }
    }

    /**
      The tick's loop over its list, with others running before each INSERT. It stops early after
      `budget` INSERTs, or at an id that is already taken; `rest` is what it did not reach.
     */
    method WalkDue(k: TickId, names: DashboardId -> JobId, budget: nat, pauses: seq<seq<Step>>)
      returns (rest: set<DashboardId>, ghost trace: seq<Step>)
      requires k in owed && k < ticks && forall pause <- pauses :: LeavesTick(pause, k)
      modifies this
      ensures Walked(Abs(), old(Abs()), trace, k, old(owed[k]), names, Interruptions(pauses), rest)
      ensures |old(owed[k])| - |rest| <= budget
      ensures rest != {} ==> |old(owed[k])| - |rest| == budget || exists d <- rest :: names(d) in jobs
    {
      ghost var start, due, script := Abs(), owed[k], Interruptions(pauses);
      trace, rest := [], owed[k].Keys;
      var left, clash, unused := budget, false, pauses;
      assert due.Keys - rest == {};
      while rest != {} && left > 0 && !clash
        invariant left >= 0 && |due.Keys| - |rest| == budget - left
        invariant Walked(Abs(), start, trace, k, due, names, script, rest)
        invariant forall pause <- unused :: pause in pauses
        invariant clash ==> exists d <- rest :: names(d) in jobs
        decreases |rest|, !clash
      {
        var d := Any(rest);
        var pause := if unused == [] then [] else unused[0];
        assert forall step <- pause :: step in script;
        ghost var before, step := Abs(), [];
        var ok;
        ok, step := InsertDue(k, d, names, pause);
        WalkedMore(before, start, trace, k, due, names, script, rest, d, step, ok);
        trace, clash := trace + step, !ok;
        if ok {
          rest, left := rest - {d}, left - 1;
        }
        unused := if unused == [] then [] else unused[1..];
      }
    }

    /** Reads the time, lets others run, and makes the tick's UPDATE; `due` is its RETURNING list. */
    method BeginTick(acquiring: seq<Step>) returns (k: TickId, ghost due: map<DashboardId, Due>)
      modifies this
      ensures
        var ready, now := Run(old(Abs()), acquiring), old(clock);
        && k == ready.work.ticks && due == DueList(ready.db.dashboards, now)
        && Abs() == Run(old(Abs()), acquiring + [Step.TickUpdate(now)])
        && k in owed && owed[k] == due && k < ticks
    {
      var now := clock;
      ClockForever(Abs(), acquiring);
      RunSnoc(Abs(), acquiring, Step.TickUpdate(now));
      PerformAll(acquiring);
      k, due := ticks, DueList(dashboards, now);
      TickUpdate(now);
    }

    /** An exception out of the tick's loop abandons the rest of the list. */
    method GiveUp(
      k: TickId, ghost start: State, ghost trace: seq<Step>, ghost due: map<DashboardId, Due>,
      names: DashboardId -> JobId, ghost script: set<Step>, ghost budget: nat, ghost rest: set<DashboardId>)
      requires Walked(Abs(), start, trace, k, due, names, script, rest) && rest != {} && |due.Keys| - |rest| <= budget
      requires |due.Keys| - |rest| == budget || exists d <- rest :: names(d) in jobs
      modifies this`owed
      ensures
        TickDone(Abs(), start, trace + [Step.TickFail(k)], k, due, names, script, budget, false, due.Keys - rest)
    {
      GivenUp(Abs(), start, trace, k, due, names, script, budget, rest);
      TickFail(k);
    }

    /** The loop over the due list; an exception out of it abandons the rest. */
    method InsertAll(k: TickId, names: DashboardId -> JobId, budget: nat, pauses: seq<seq<Step>>)
      returns (ok: bool, ghost trace: seq<Step>, ghost done: set<DashboardId>)
      requires k in owed && k < ticks && forall pause <- pauses :: LeavesTick(pause, k)
      modifies this
      ensures TickDone(Abs(), old(Abs()), trace, k, old(owed[k]), names, Interruptions(pauses), budget, ok, done)
    {
      ghost var start, due, script := Abs(), owed[k], Interruptions(pauses);
      var rest;
      rest, trace := WalkDue(k, names, budget, pauses);
      ok, done := rest == {}, due.Keys - rest;
      if ok {
        assert done == due.Keys;
        AllInserted(Abs(), start, trace, k, due, names, script, budget);
      } else {
        GiveUp(k, start, trace, due, names, script, budget, rest);
        trace := trace + [Step.TickFail(k)];
      }
    }

    /**
      _enqueue_due_dashboards: the time is read, others run, the UPDATE returns the due list, and
      the loop walks it. `budget` is how many INSERTs go through before one raises; an id that is
      already taken raises too. An exception abandons the rest of the list.
     */
    method EnqueueDueDashboards(
      names: DashboardId -> JobId, budget: nat, acquiring: seq<Step>, pauses: seq<seq<Step>>)
      returns (ok: bool, ghost inserting: seq<Step>, ghost done: set<DashboardId>)
      requires forall pause <- pauses :: LeavesTick(pause, Run(Abs(), acquiring).work.ticks)
      modifies this
      ensures
        var ready, now := Run(old(Abs()), acquiring), old(clock);
        var k, due := ready.work.ticks, DueList(ready.db.dashboards, now);
        && TickDone(Abs(), Run(old(Abs()), acquiring + [Step.TickUpdate(now)]), inserting, k, due, names,
                    Interruptions(pauses), budget, ok, done)
    {
      var k, _ := BeginTick(acquiring);
      ok, inserting, done := InsertAll(k, names, budget, pauses);
    }

    /** The reaper: its time is read, others run, and the UPDATE is made. */
    method ReapAfter(others: seq<Step>) returns (reapAt: Time)
      modifies this
      ensures reapAt == old(clock) && Abs() == Run(old(Abs()), others + [Step.Reap(reapAt)])
      ensures forall j <- jobs :: !Stale(jobs[j], reapAt)
    {
      reapAt := clock;
      ClockForever(Abs(), others);
      RunSnoc(Abs(), others, Step.Reap(reapAt));
      PerformAll(others);
      ReapStaleJobs(reapAt);
    }

    /**
      One turn of scheduler_loop: enqueue, then reap at a time read after that, with others running
      in between; an exception while enqueuing skips the reap.
     */
    method SchedulerTick(
      names: DashboardId -> JobId, budget: nat, acquiring: seq<Step>, pauses: seq<seq<Step>>, between: seq<Step>)
      returns (ok: bool, reapAt: Time, ghost inserting: seq<Step>, ghost done: set<DashboardId>)
      requires forall pause <- pauses :: LeavesTick(pause, Run(Abs(), acquiring).work.ticks)
      modifies this
      ensures
        var ready, now := Run(old(Abs()), acquiring), old(clock);
        var k, due := ready.work.ticks, DueList(ready.db.dashboards, now);
        var updated := Run(old(Abs()), acquiring + [Step.TickUpdate(now)]);
        var enqueued := Run(updated, inserting);
        && TickDone(enqueued, updated, inserting, k, due, names, Interruptions(pauses), budget, ok, done)
        && reapAt == enqueued.clock >= now
        && Abs() == (if ok then Run(enqueued, between + [Step.Reap(reapAt)]) else enqueued)
        && (ok ==> AllEnqueued(jobs, done, due, names) && forall j <- jobs :: !Stale(jobs[j], reapAt))
    {
      ghost var start := Abs();
      ok, inserting, done := EnqueueDueDashboards(names, budget, acquiring, pauses);
      ghost var enqueued, due := Abs(), DueList(Run(start, acquiring).db.dashboards, start.clock);
      ClockForever(start, acquiring + [Step.TickUpdate(start.clock)]);
      ClockForever(Run(start, acquiring + [Step.TickUpdate(start.clock)]), inserting);
      reapAt := clock;
      if ok {
        reapAt := ReapAfter(between);
        AllEnqueuedKept(enqueued, between + [Step.Reap(reapAt)], done, due, names);
      }
    }
  }
}
