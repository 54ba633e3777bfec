/**
  At-most-once acceptance, end to end: one agent per tenant, the sequential agent loop, absorbing
  terminal states and the duplicate check together accept each job's result at most once in any
  run, whatever is lost, reaped or crashed.
 */
module AtMostOnce {
  import opened Tables
  import opened Protocol
  import opened Coherence
  import opened Lifecycle
  import opened Cache
  import opened Truncation
  import opened Fleet

  ghost predicate OneAgentEach(s: State) {
    && (forall a <- s.db.agents ::
          s.db.agents[a].tenant in s.db.tenants && s.db.tenants[s.db.agents[a].tenant].enrolledAt.Some?)
    && (forall a, b | a in s.db.agents && b in s.db.agents && s.db.agents[a].tenant == s.db.agents[b].tenant :: a == b)
    && s.work.enrolments == map[]
  }

  /** The job an agent holds is its tenant's; it is unfinished, or its own post has just been accepted. */
  ghost predicate HoldingOK(proc: Process, t: TenantId, jobs: Jobs, results: Results) {
    match proc
    case Answered(j, sql, timeoutMs) => HandedOut(j, sql, timeoutMs, t, jobs)
    case Executing(j, sql, timeoutMs, _) => HandedOut(j, sql, timeoutMs, t, jobs)
    case Posting(j, _, body, attempt) => PostOK(j, body, attempt, t, jobs, results)
    case Sent(j, _, body, attempt, _) => PostOK(j, body, attempt, t, jobs, results)
    case _ => true
  }

  ghost predicate HandedOut(j: JobId, sql: string, timeoutMs: nat, t: TenantId, jobs: Jobs) {
    && j in jobs && jobs[j].tenant == t && !jobs[j].Terminal()
    && jobs[j].sql == sql && jobs[j].timeoutMs == timeoutMs
  }

  ghost predicate PostOK(j: JobId, body: Body, attempt: int, t: TenantId, jobs: Jobs, results: Results) {
    && j in jobs && jobs[j].tenant == t && Presentable(body) && 1 <= attempt <= 3
    && (jobs[j].Terminal() ==> jobs[j].dashboard in results && results[jobs[j].dashboard].job == j)
  }

  ghost predicate HoldingsOK(procs: map<AgentId, Process>, agents: Agents, jobs: Jobs, results: Results) {
    && procs.Keys == agents.Keys
    && forall a <- procs :: HoldingOK(procs[a], agents[a].tenant, jobs, results)
  }

  /** The sender of request r is dead, or waiting for its answer. */
  predicate OnItsWay(proc: Process, r: RequestId, j: JobId) {
    proc.Stopped? || (proc.Sent? && proc.request == r && proc.job == j)
  }

  /** A post being handled is that of its sender's pending request, for a job not yet accepted. */
  ghost predicate HandledOK(r: RequestId, sub: Submission, procs: map<AgentId, Process>, jobs: Jobs) {
    && sub.agent in procs && OnItsWay(procs[sub.agent], r, sub.job)
    && sub.job in jobs && !jobs[sub.job].Terminal()
    && Presentable(sub.body)
  }

  ghost predicate AllHandledOK(submissions: map<RequestId, Submission>, procs: map<AgentId, Process>, jobs: Jobs) {
    && (forall r <- submissions :: HandledOK(r, submissions[r], procs, jobs))
    && forall r, q | r in submissions && q in submissions && submissions[r].agent == submissions[q].agent :: r == q
  }

  ghost predicate ResultsPresentable(results: Results) {
    forall d <- results :: Presentable(results[d].body)
  }

  ghost predicate AgentsGood(f: System) {
    && OneAgentEach(f.s)
    && HoldingsOK(f.procs, f.s.db.agents, f.s.db.jobs, f.s.db.results)
    && AllHandledOK(f.s.work.submissions, f.procs, f.s.db.jobs)
    && NoRepeats(f.log)
    && ResultsPresentable(f.s.db.results)
  }

  ghost predicate ServerGood(f: System) {
    Inv(f.s) && CacheOK(f.s, f.log)
  }

  ghost predicate Good(f: System) {
    ServerGood(f) && AgentsGood(f)
  }

  /** The server's part is kept by every act, as it is by every run of the server. */
  lemma ServerGoodStep(f: System, act: Act)
    requires ServerGood(f)
    ensures ServerGood(Do(f, act))
  {
    ActLog(f, act);
    CoherentAlways(f.s, ActSteps(f, act));
    CacheRefinesLog(f.s, ActSteps(f, act), f.log);
  }

  // ---- The server's part of each act ----

  /** Enrolment as one atomic act: the tenant's token is burned and its only agent appears. */
  lemma EnrolBoth(s: State, r: RequestId, t: TenantId, a: AgentId)
    requires CanEnrol(s, t) && r !in s.work.enrolments && a !in s.db.agents
    ensures
      var s' := Run(s, [EnrolLookup(r, t), EnrolCommit(r, a)]);
      && s' == s.(db := s.db.(tenants := s'.db.tenants, agents := s'.db.agents))
      && s'.db.tenants == s.db.tenants[t := s.db.tenants[t].(enrolledAt := Some(s.clock))]
      && s'.db.agents == s.db.agents[a := Agent(t, s.clock, None)]
  {
    RunTwo(s, EnrolLookup(r, t), EnrolCommit(r, a));
    var mid := Next(s, EnrolLookup(r, t));
    assert mid.work.enrolments - {r} == s.work.enrolments;
    assert mid.work.(enrolments := s.work.enrolments) == s.work;
  }

  /** What a step that accepts nothing leaves alone. */
  ghost predicate Undisturbed(s: State, s': State) {
    && s'.db.results == s.db.results
    && forall j <- s.db.jobs ::
         && j in s'.db.jobs && SameOrder(s.db.jobs[j], s'.db.jobs[j])
         && (s'.db.jobs[j].Terminal() <==> s.db.jobs[j].Terminal())
  }

  lemma NonCommit(s: State, step: Step)
    requires !step.SubmitCommit?
    ensures Undisturbed(s, Next(s, step))
  {
    ResultsFrame(s, step);
    forall j <- s.db.jobs
      ensures j in Next(s, step).db.jobs && SameOrder(s.db.jobs[j], Next(s, step).db.jobs[j])
      ensures Next(s, step).db.jobs[j].Terminal() <==> s.db.jobs[j].Terminal()
    {
      JobEdge(s, step, j);
    }
  }

  lemma PlatformFrame(s: State, step: Step)
    requires PlatformStep(step)
    ensures Next(s, step).work.submissions == s.work.submissions && Next(s, step).work.enrolments == s.work.enrolments
    ensures Next(s, step).db.agents.Keys == s.db.agents.Keys
    ensures forall a <- s.db.agents :: Next(s, step).db.agents[a].tenant == s.db.agents[a].tenant
    ensures forall t <- s.db.tenants :: t in Next(s, step).db.tenants && Next(s, step).db.tenants[t] == s.db.tenants[t]
  {
    PlatformWork(s, step);
    PlatformTenancy(s, step);
  }

  lemma PlatformWork(s: State, step: Step)
    requires PlatformStep(step)
    ensures Next(s, step).work.submissions == s.work.submissions && Next(s, step).work.enrolments == s.work.enrolments
  {}

  lemma PlatformTenancy(s: State, step: Step)
    requires PlatformStep(step)
    ensures Next(s, step).db.agents.Keys == s.db.agents.Keys
    ensures forall a <- s.db.agents :: Next(s, step).db.agents[a].tenant == s.db.agents[a].tenant
    ensures forall t <- s.db.tenants :: t in Next(s, step).db.tenants && Next(s, step).db.tenants[t] == s.db.tenants[t]
  {}

  lemma HoldingsKept(
    procs: map<AgentId, Process>, agents: Agents, jobs: Jobs, results: Results, agents': Agents, jobs': Jobs)
    requires HoldingsOK(procs, agents, jobs, results)
    requires agents'.Keys == agents.Keys && forall a <- agents :: agents'[a].tenant == agents[a].tenant
    requires forall j <- jobs ::
               j in jobs' && SameOrder(jobs[j], jobs'[j]) && (jobs'[j].Terminal() <==> jobs[j].Terminal())
    ensures HoldingsOK(procs, agents', jobs', results)
  {
    forall a <- procs ensures HoldingOK(procs[a], agents'[a].tenant, jobs', results) {
      assert HoldingOK(procs[a], agents[a].tenant, jobs, results);
    }
  }

  lemma HandledKept(submissions: map<RequestId, Submission>, procs: map<AgentId, Process>, jobs: Jobs, jobs': Jobs)
    requires AllHandledOK(submissions, procs, jobs)
    requires forall j <- jobs :: j in jobs' && (jobs'[j].Terminal() <==> jobs[j].Terminal())
    ensures AllHandledOK(submissions, procs, jobs')
  {
    forall r <- submissions ensures HandledOK(r, submissions[r], procs, jobs') {
      assert HandledOK(r, submissions[r], procs, jobs);
    }
  }

  // ---- Each act keeps the invariant ----

  lemma PlatformGood(f: System, step: Step)
    requires AgentsGood(f) && PlatformStep(step)
    ensures AgentsGood(Do(f, Platform(step)))
  {
    RunOne(f.s, step);
    assert f.log + [] == f.log;
    NonCommit(f.s, step);
    PlatformFrame(f.s, step);
    var s' := Next(f.s, step);
    HoldingsKept(f.procs, f.s.db.agents, f.s.db.jobs, f.s.db.results, s'.db.agents, s'.db.jobs);
    HandledKept(f.s.work.submissions, f.procs, f.s.db.jobs, s'.db.jobs);
  }

  lemma EnrolGood(f: System, r: RequestId, t: TenantId, a: AgentId, delivered: bool)
    requires AgentsGood(f) && Enabled(f, Enrol(r, t, a, delivered))
    ensures AgentsGood(Do(f, Enrol(r, t, a, delivered)))
  {
    EnrolBoth(f.s, r, t, a);
    assert f.log + [] == f.log;
    var f' := Do(f, Enrol(r, t, a, delivered));
    assert OneAgentEach(f'.s);
    forall b <- f'.procs ensures HoldingOK(f'.procs[b], f'.s.db.agents[b].tenant, f.s.db.jobs, f.s.db.results) {
      if b != a { assert HoldingOK(f.procs[b], f.s.db.agents[b].tenant, f.s.db.jobs, f.s.db.results); }
    }
    forall q <- f.s.work.submissions ensures HandledOK(q, f.s.work.submissions[q], f'.procs, f.s.db.jobs) {
      assert HandledOK(q, f.s.work.submissions[q], f.procs, f.s.db.jobs);
    }
  }

  lemma HoldingsUpdate(
    procs: map<AgentId, Process>, agents: Agents, jobs: Jobs, results: Results, a: AgentId, proc: Process)
    requires HoldingsOK(procs, agents, jobs, results) && a in procs
    requires HoldingOK(proc, agents[a].tenant, jobs, results)
    ensures HoldingsOK(procs[a := proc], agents, jobs, results)
  {
    assert procs[a := proc].Keys == agents.Keys;
  }

  /** No post of agent a is being handled. */
  ghost predicate NothingInHand(submissions: map<RequestId, Submission>, a: AgentId) {
    forall r <- submissions :: submissions[r].agent != a
  }

  lemma HandledUpdate(
    submissions: map<RequestId, Submission>, procs: map<AgentId, Process>, jobs: Jobs, a: AgentId, proc: Process)
    requires AllHandledOK(submissions, procs, jobs)
    requires proc.Stopped? || NothingInHand(submissions, a)
    ensures AllHandledOK(submissions, procs[a := proc], jobs)
  {
    forall r <- submissions ensures HandledOK(r, submissions[r], procs[a := proc], jobs) {
      assert HandledOK(r, submissions[r], procs, jobs);
    }
  }

  /** An agent with a post being handled is waiting for it or dead. */
  lemma InHand(submissions: map<RequestId, Submission>, procs: map<AgentId, Process>, jobs: Jobs, a: AgentId)
    requires AllHandledOK(submissions, procs, jobs) && a in procs && !procs[a].Sent? && !procs[a].Stopped?
    ensures NothingInHand(submissions, a)
  {
    forall r <- submissions ensures submissions[r].agent != a {
      assert HandledOK(r, submissions[r], procs, jobs);
    }
  }

  /** An act that moves agent a's process and neither accepts a post nor touches the posts being handled. */
  lemma SoloGood(f: System, f': System, a: AgentId, proc: Process)
    requires AgentsGood(f) && Undisturbed(f.s, f'.s)
    requires f'.s.db.agents == f.s.db.agents && f'.s.db.tenants == f.s.db.tenants && f'.log == f.log
    requires f'.s.work.submissions == f.s.work.submissions && f'.s.work.enrolments == f.s.work.enrolments
    requires a in f.procs && f'.procs == f.procs[a := proc]
    requires HoldingOK(proc, f.s.db.agents[a].tenant, f'.s.db.jobs, f'.s.db.results)
    requires proc.Stopped? || proc == f.procs[a] || (!f.procs[a].Sent? && !f.procs[a].Stopped?)
    ensures AgentsGood(f')
  {
    HoldingsKept(f.procs, f.s.db.agents, f.s.db.jobs, f.s.db.results, f'.s.db.agents, f'.s.db.jobs);
    HandledKept(f.s.work.submissions, f.procs, f.s.db.jobs, f'.s.db.jobs);
    if proc == f.procs[a] {
      assert f'.procs == f.procs;
    } else {
      HoldingsUpdate(f.procs, f.s.db.agents, f'.s.db.jobs, f.s.db.results, a, proc);
      if !proc.Stopped? {
        InHand(f.s.work.submissions, f.procs, f.s.db.jobs, a);
      }
      HandledUpdate(f.s.work.submissions, f.procs, f'.s.db.jobs, a, proc);
    }
  }

  /** The steps through which an agent talks to the control plane, acceptance aside. */
  predicate Talk(step: Step) {
    || step.OpenPoll? || step.BeginProbe? || step.ProbeTransaction? || step.AbortPoll?
    || step.SubmitCheck? || step.SubmitAbort?
  }

  /** What such a step leaves alone. */
  ghost predicate Quietly(s: State, s': State) {
    && s'.db.agents == s.db.agents && s'.db.tenants == s.db.tenants && s'.db.dashboards == s.db.dashboards
    && s'.work.enrolments == s.work.enrolments && s'.clock == s.clock
  }

  lemma TalkFrame(s: State, step: Step)
    requires Talk(step)
    ensures Quietly(s, Next(s, step))
    ensures !step.SubmitCheck? && !step.SubmitAbort? ==> Next(s, step).work.submissions == s.work.submissions
  {
    if step.SubmitCheck? || step.SubmitAbort? {
      SubmitFrame(s, step);
    } else if step.ProbeTransaction? {
      ProbeFrame(s, step);
    } else {
      PollFrame(s, step);
    }
  }

  lemma PollFrame(s: State, step: Step)
    requires step.OpenPoll? || step.BeginProbe? || step.AbortPoll?
    ensures Quietly(s, Next(s, step)) && Next(s, step).work.submissions == s.work.submissions
  {}

  lemma ProbeFrame(s: State, step: Step)
    requires step.ProbeTransaction?
    ensures Quietly(s, Next(s, step)) && Next(s, step).work.submissions == s.work.submissions
  {}

  lemma SubmitFrame(s: State, step: Step)
    requires step.SubmitCheck? || step.SubmitAbort?
    ensures Quietly(s, Next(s, step))
  {}

  /** What the single step of an act of this kind leaves in place. */
  lemma OneFrame(f: System, act: Act, step: Step)
    requires Enabled(f, act) && Steps(f, act) == [step] && Talk(step) && !act.CommitPost?
    ensures
      var f' := Do(f, act);
      && f'.s == Next(f.s, step) && f'.procs == Procs(f, act) && f'.starts == Starts(f, act)
      && f'.log == f.log && f'.posts == f.posts
      && f'.s.db.agents == f.s.db.agents && f'.s.db.tenants == f.s.db.tenants && f'.s.db.dashboards == f.s.db.dashboards
      && f'.s.work.enrolments == f.s.work.enrolments && f'.s.clock == f.s.clock
      && (!step.SubmitCheck? && !step.SubmitAbort? ==> f'.s.work.submissions == f.s.work.submissions)
  {
    RunOne(f.s, step);
    TalkFrame(f.s, step);
    assert f.log + [] == f.log && f.posts + [] == f.posts;
  }

  lemma HeldNow(f: System, a: AgentId)
    requires AgentsGood(f) && a in f.procs
    ensures a in f.s.db.agents && HoldingOK(f.procs[a], f.s.db.agents[a].tenant, f.s.db.jobs, f.s.db.results)
  {}

  lemma SendPollGood(f: System, act: Act)
    requires AgentsGood(f) && act.SendPoll? && Enabled(f, act)
    ensures AgentsGood(Do(f, act))
  {
    var step := OpenPoll(act.poll, act.agent, act.timeout);
    OneFrame(f, act, step);
    NonCommit(f.s, step);
    SoloGood(f, Do(f, act), act.agent, Procs(f, act)[act.agent]);
  }

  /** A poll's owner is a known process. */
  lemma PollOwner(f: System, p: PollId)
    requires Good(f) && p in f.s.work.polls
    ensures OwnsPoll(f, f.s.work.polls[p].agent, p)
  {
    var a := f.s.work.polls[p].agent;
    assert AgentOf(f.s.db.agents, a, f.s.work.polls[p].tenant);
    assert f.procs[a := f.procs[a]] == f.procs;
  }

  predicate OwnsPoll(f: System, a: AgentId, p: PollId) {
    && p in f.s.work.polls && f.s.work.polls[p].agent == a
    && a in f.procs && a in f.s.db.agents && f.s.db.agents[a].tenant == f.s.work.polls[p].tenant
    && f.procs[a := f.procs[a]] == f.procs
  }

  lemma EndPollGood(f: System, act: Act, a: AgentId)
    requires AgentsGood(f) && (act.Probe? || act.FailPoll?) && Enabled(f, act) && OwnsPoll(f, a, act.poll)
    ensures AgentsGood(Do(f, act))
  {
    var step := if act.Probe? then BeginProbe(act.poll) else AbortPoll(act.poll);
    OneFrame(f, act, step);
    NonCommit(f.s, step);
    HeldNow(f, a);
    HoldingsKept(f.procs, f.s.db.agents, f.s.db.jobs, f.s.db.results, f.s.db.agents, Do(f, act).s.db.jobs);
    SoloGood(f, Do(f, act), a, Procs(f, act)[a]);
  }

  lemma TransactGood(f: System, act: Act, a: AgentId)
    requires AgentsGood(f) && act.Transact? && Enabled(f, act) && OwnsPoll(f, a, act.poll)
    ensures AgentsGood(Do(f, act))
  {
    var step := ProbeTransaction(act.poll, act.pick);
    OneFrame(f, act, step);
    NonCommit(f.s, step);
    HeldNow(f, a);
    HoldingsKept(f.procs, f.s.db.agents, f.s.db.jobs, f.s.db.results, f.s.db.agents, Do(f, act).s.db.jobs);
    SoloGood(f, Do(f, act), a, Procs(f, act)[a]);
  }

  predicate Local(act: Act) {
    act.Receive? || act.LoseAnswer? || act.Finish? || act.LosePost? || act.Crash?
  }

  /** The acts that run no server step. */
  lemma LocalFrame(f: System, act: Act)
    requires Enabled(f, act) && Local(act)
    ensures Do(f, act) == f.(procs := Procs(f, act))
  {
    assert f.log + [] == f.log && f.posts + [] == f.posts;
  }

  lemma LocalGood(f: System, act: Act)
    requires AgentsGood(f) && Enabled(f, act) && Local(act)
    ensures AgentsGood(Do(f, act))
  {
    LocalFrame(f, act);
    HeldNow(f, act.agent);
    if act.Finish? {
      ProgramBodyPresentable(act.query, f.procs[act.agent].timeoutMs);
    }
    SoloGood(f, Do(f, act), act.agent, Procs(f, act)[act.agent]);
  }

  /** The check lets a post through only for a job with no accepted post. */
  lemma CheckedUnfinished(f: System, a: AgentId, r: RequestId)
    requires AgentsGood(f) && ResultsOK(f.s.db.results, f.s.db.jobs)
    requires a in f.procs && f.procs[a].Posting? && r !in f.s.work.submissions
    ensures
      var proc := f.procs[a];
      var reply := DoSubmitCheck(f.s, r, a, proc.job, proc.body).reply;
      && proc.job in f.s.db.jobs
      && reply != NotFound && reply != Forbidden
      && (reply == Suspended ==> !f.s.db.jobs[proc.job].Terminal())
      && (reply == Conflict ==> f.s.db.jobs[proc.job].Terminal())
  {
    HeldNow(f, a);
    var j := f.procs[a].job;
    if f.s.db.jobs[j].Terminal() {
      assert Recorded(f.s, j) by {
        assert f.s.db.results[f.s.db.jobs[j].dashboard].job == j;
      }
    }
  }

  lemma SendPostEffect(f: System, act: Act)
    requires act.SendPost? && Enabled(f, act)
    ensures
      var proc, f' := f.procs[act.agent], Do(f, act);
      var outcome := DoSubmitCheck(f.s, act.request, act.agent, proc.job, proc.body);
      && f'.s == outcome.state && f'.log == f.log && f'.posts == f.posts
      && f'.starts == f.starts[act.request := proc.start]
      && f'.procs == f.procs[act.agent := AfterCheck(proc, act.request, outcome.reply, act.delivered)]
  {
    var proc := f.procs[act.agent];
    OneFrame(f, act, SubmitCheck(act.request, act.agent, proc.job, proc.body));
  }

  lemma SendPostGood(f: System, act: Act)
    requires AgentsGood(f) && ResultsOK(f.s.db.results, f.s.db.jobs) && act.SendPost? && Enabled(f, act)
    ensures AgentsGood(Do(f, act))
  {
    SendPostEffect(f, act);
    HeldNow(f, act.agent);
    var proc := f.procs[act.agent];
    var reply := DoSubmitCheck(f.s, act.request, act.agent, proc.job, proc.body).reply;
    CheckEffect(f.s, act.request, act.agent, proc.job, proc.body);
    if reply == Suspended {
      CheckedUnfinished(f, act.agent, act.request);
      SentGood(f, Do(f, act), act.agent, act.request, Do(f, act).s.work.submissions[act.request]);
    } else {
      SoloGood(f, Do(f, act), act.agent, AfterCheck(proc, act.request, reply, act.delivered));
    }
  }

  lemma SentGood(f: System, f': System, a: AgentId, r: RequestId, sub: Submission)
    requires AgentsGood(f) && a in f.procs && f.procs[a].Posting? && r !in f.s.work.submissions
    requires f'.s == f.s.(work := f.s.work.(submissions := f.s.work.submissions[r := sub])) && f'.log == f.log
    requires
      var proc := f.procs[a];
      && f'.procs == f.procs[a := Sent(proc.job, proc.start, proc.body, proc.attempt, r)]
      && sub.agent == a && sub.job == proc.job && sub.body == proc.body
      && proc.job in f.s.db.jobs && !f.s.db.jobs[proc.job].Terminal()
    ensures AgentsGood(f')
  {
    HeldNow(f, a);
    InHand(f.s.work.submissions, f.procs, f.s.db.jobs, a);
    HoldingsUpdate(f.procs, f.s.db.agents, f.s.db.jobs, f.s.db.results, a, f'.procs[a]);
    HandledUpdate(f.s.work.submissions, f.procs, f.s.db.jobs, a, f'.procs[a]);
    assert AllHandledOK(f'.s.work.submissions, f'.procs, f'.s.db.jobs);
  }

  lemma FailPostGood(f: System, act: Act)
    requires AgentsGood(f) && act.FailPost? && Enabled(f, act)
    ensures AgentsGood(Do(f, act))
  {
    var r, f' := act.request, Do(f, act);
    OneFrame(f, act, SubmitAbort(r));
    assert f'.s == f.s.(work := f.s.work.(submissions := f.s.work.submissions - {r}));
    DropGood(f, f', f.s.work.submissions[r].agent, r);
  }

  /** A post in flight is dropped; its sender, if alive, goes on to the next attempt. */
  lemma DropGood(f: System, f': System, a: AgentId, r: RequestId)
    requires AgentsGood(f) && r in f.s.work.submissions && f.s.work.submissions[r].agent == a
    requires f'.s == f.s.(work := f.s.work.(submissions := f.s.work.submissions - {r})) && f'.log == f.log
    requires f'.procs == AfterPost(f.procs, a, r, false)
    ensures AgentsGood(f')
  {
    assert HandledOK(r, f.s.work.submissions[r], f.procs, f.s.db.jobs);
    HeldNow(f, a);
    WithdrawHandled(f.s.work.submissions, f.procs, f.s.db.jobs, r);
    if f.procs[a].Sent? {
      HoldingsUpdate(f.procs, f.s.db.agents, f.s.db.jobs, f.s.db.results, a, NextAttempt(f.procs[a]));
      HandledUpdate(f'.s.work.submissions, f.procs, f.s.db.jobs, a, NextAttempt(f.procs[a]));
    }
  }

  lemma WithdrawHandled(
    submissions: map<RequestId, Submission>, procs: map<AgentId, Process>, jobs: Jobs, r: RequestId)
    requires AllHandledOK(submissions, procs, jobs) && r in submissions
    ensures AllHandledOK(submissions - {r}, procs, jobs)
    ensures NothingInHand(submissions - {r}, submissions[r].agent)
  {
    forall q <- submissions - {r} ensures HandledOK(q, submissions[q], procs, jobs) {}
  }

  lemma CommitPostEffect(f: System, act: Act)
    requires act.CommitPost? && Enabled(f, act)
    ensures
      var sub, f' := f.s.work.submissions[act.request], Do(f, act);
      && f'.s == DoSubmitCommit(f.s, act.request).state && f'.procs == Procs(f, act) && f'.starts == f.starts
      && f'.log == f.log + [Entry(sub.job, sub.dashboard, sub.tenant, sub.body, sub.at)]
      && f'.s.db.agents == f.s.db.agents && f'.s.clock == f.s.clock && f'.s.db.dashboards == f.s.db.dashboards
      && f'.s.work.submissions == f.s.work.submissions - {act.request}
  {
    RunOne(f.s, SubmitCommit(act.request));
  }

  /** Accepting a post keeps the invariant: its job had no accepted post before. */
  lemma CommitPostGood(f: System, act: Act)
    requires Good(f) && act.CommitPost? && Enabled(f, act)
    ensures AgentsGood(Do(f, act))
  {
    CommitPostEffect(f, act);
    var sub := f.s.work.submissions[act.request];
    assert HandledOK(act.request, sub, f.procs, f.s.db.jobs);
    FirstAcceptance(f, sub.job);
    CommitHandled(f, act);
    CommitHoldings(f, act);
  }

  lemma FirstAcceptance(f: System, j: JobId)
    requires Good(f) && j in f.s.db.jobs && !f.s.db.jobs[j].Terminal()
    ensures forall i | 0 <= i < |f.log| :: f.log[i].job != j
  {
    LastOfSome(f.log, j);
    forall i | 0 <= i < |f.log| ensures f.log[i].job != j {
      assert f.log[i] in f.log;
    }
  }

  /** The other posts being handled are for other tenants' jobs. */
  lemma CommitHandled(f: System, act: Act)
    requires Good(f) && act.CommitPost? && Enabled(f, act)
    ensures
      var s' := DoSubmitCommit(f.s, act.request).state;
      AllHandledOK(s'.work.submissions, Procs(f, act), s'.db.jobs)
  {
    var r := act.request;
    var sub, s' := f.s.work.submissions[r], DoSubmitCommit(f.s, r).state;
    assert SubmissionOK(sub, f.s.db.jobs, f.s.db.agents);
    WithdrawHandled(f.s.work.submissions, f.procs, f.s.db.jobs, r);
    forall q <- s'.work.submissions ensures HandledOK(q, s'.work.submissions[q], f.procs, s'.db.jobs) {
      assert HandledOK(q, f.s.work.submissions[q], f.procs, f.s.db.jobs);
      assert SubmissionOK(f.s.work.submissions[q], f.s.db.jobs, f.s.db.agents);
    }
    assert AllHandledOK(s'.work.submissions, f.procs, s'.db.jobs);
    assert HandledOK(r, sub, f.procs, f.s.db.jobs);
    if f.procs[sub.agent].Sent? {
      HandledUpdate(s'.work.submissions, f.procs, s'.db.jobs, sub.agent, Procs(f, act)[sub.agent]);
    }
  }

  /** What the other agents hold is untouched; the sender's job now shows in its dashboard's row. */
  lemma CommitHoldings(f: System, act: Act)
    requires Good(f) && act.CommitPost? && Enabled(f, act)
    ensures
      var s' := DoSubmitCommit(f.s, act.request).state;
      HoldingsOK(Procs(f, act), s'.db.agents, s'.db.jobs, s'.db.results)
  {
    var r := act.request;
    var sub, s' := f.s.work.submissions[r], DoSubmitCommit(f.s, r).state;
    assert HandledOK(r, sub, f.procs, f.s.db.jobs);
    assert SubmissionOK(sub, f.s.db.jobs, f.s.db.agents);
    forall b <- f.procs ensures HoldingOK(f.procs[b], f.s.db.agents[b].tenant, s'.db.jobs, s'.db.results) {
      HeldNow(f, b);
      if b != sub.agent {
        OthersRows(f, sub, b);
      }
    }
    if f.procs[sub.agent].Sent? {
      HoldingsUpdate(f.procs, s'.db.agents, s'.db.jobs, s'.db.results, sub.agent, Procs(f, act)[sub.agent]);
    }
  }

  lemma OthersRows(f: System, sub: Submission, b: AgentId)
    requires Good(f) && b in f.procs && b != sub.agent && SubmissionOK(sub, f.s.db.jobs, f.s.db.agents)
    ensures forall j <- f.s.db.jobs ::
              f.procs[b].Holds(j) ==> j != sub.job && f.s.db.jobs[j].dashboard != sub.dashboard
  {
    HeldNow(f, b);
    forall j <- f.s.db.jobs ensures CopiesDashboard(f.s.db.jobs[j], f.s.db.dashboards) {}
  }

  /** The acts in which an agent and the control plane meet. */
  lemma TalkGood(f: System, act: Act)
    requires Good(f) && Enabled(f, act) && !act.Platform? && !act.Enrol? && !Local(act)
    ensures AgentsGood(Do(f, act))
  {
    match act
    case SendPoll(_, _, _, _) => SendPollGood(f, act);
    case Probe(p) => PollOwner(f, p); EndPollGood(f, act, f.s.work.polls[p].agent);
    case Transact(p, _) => PollOwner(f, p); TransactGood(f, act, f.s.work.polls[p].agent);
    case FailPoll(p) => PollOwner(f, p); EndPollGood(f, act, f.s.work.polls[p].agent);
    case SendPost(_, _, _) => SendPostGood(f, act);
    case CommitPost(_, _) => CommitPostGood(f, act);
    case FailPost(_) => FailPostGood(f, act);
    case _ =>
  }

  lemma ActGood(f: System, act: Act)
    requires Good(f)
    ensures Good(Do(f, act))
  {
    ServerGoodStep(f, act);
    if Enabled(f, act) {
      if act.Platform? {
        PlatformGood(f, act.step);
      } else if act.Enrol? {
        EnrolGood(f, act.request, act.tenant, act.agent, act.delivered);
      } else if Local(act) {
        LocalGood(f, act);
      } else {
        TalkGood(f, act);
      }
    }
  }

  lemma {:induction false} AlwaysGood(f: System, acts: seq<Act>)
    requires Good(f)
    ensures Good(RunActs(f, acts))
    decreases acts
  {
    if acts != [] {
      ActGood(f, acts[0]);
      AlwaysGood(Do(f, acts[0]), acts[1..]);
    }
  }

  lemma StartGood(clock: Time)
    ensures Good(Start(clock))
  {}

  /** At most once: in every run every job's result is accepted at most once. */
  lemma AcceptedAtMostOnce(clock: Time, acts: seq<Act>, i: int, k: int)
    requires 0 <= i < k < |RunActs(Start(clock), acts).log|
    ensures RunActs(Start(clock), acts).log[i].job != RunActs(Start(clock), acts).log[k].job
  {
    StartGood(clock);
    AlwaysGood(Start(clock), acts);
  }

  /** The terminal status of a job, once given, never changes. */
  lemma {:induction false} FinalStatusFinal(f: System, acts: seq<Act>, j: JobId)
    requires Good(f) && j in f.s.db.jobs && f.s.db.jobs[j].Terminal()
    ensures j in RunActs(f, acts).s.db.jobs && RunActs(f, acts).s.db.jobs[j].status == f.s.db.jobs[j].status
    decreases acts
  {
    if acts != [] {
      ActGood(f, acts[0]);
      ActKeepsStatus(f, acts[0], j);
      FinalStatusFinal(Do(f, acts[0]), acts[1..], j);
    }
  }

  lemma CommitKeepsStatus(f: System, r: RequestId, j: JobId)
    requires AgentsGood(f) && r in f.s.work.submissions && j in f.s.db.jobs && f.s.db.jobs[j].Terminal()
    ensures j in Next(f.s, SubmitCommit(r)).db.jobs && Next(f.s, SubmitCommit(r)).db.jobs[j] == f.s.db.jobs[j]
  {
    assert HandledOK(r, f.s.work.submissions[r], f.procs, f.s.db.jobs);
    JobEdge(f.s, SubmitCommit(r), j);
  }

  lemma {:induction false} RunKeepsStatus(s: State, steps: seq<Step>, j: JobId)
    requires j in s.db.jobs && s.db.jobs[j].Terminal()
    requires forall step <- steps :: !step.SubmitCommit?
    ensures j in Run(s, steps).db.jobs && Run(s, steps).db.jobs[j] == s.db.jobs[j]
    decreases steps
  {
    if steps != [] {
      assert steps[0] in steps;
      JobEdge(s, steps[0], j);
      RunKeepsStatus(Next(s, steps[0]), steps[1..], j);
    }
  }

  lemma ActKeepsStatus(f: System, act: Act, j: JobId)
    requires AgentsGood(f) && j in f.s.db.jobs && f.s.db.jobs[j].Terminal()
    ensures j in Do(f, act).s.db.jobs && Do(f, act).s.db.jobs[j].status == f.s.db.jobs[j].status
  {
    if Enabled(f, act) {
      if act.CommitPost? {
        RunOne(f.s, SubmitCommit(act.request));
        CommitKeepsStatus(f, act.request, j);
      } else {
        RunKeepsStatus(f.s, Steps(f, act), j);
      }
    }
  }

  /**
    Every stored result of every run counts its rows and fits the size limit, although only the
    agent program enforces it.
   */
  lemma StoredResultsPresentable(clock: Time, acts: seq<Act>, d: DashboardId)
    requires d in RunActs(Start(clock), acts).s.db.results
    ensures Presentable(RunActs(Start(clock), acts).s.db.results[d].body)
  {
    StartGood(clock);
    AlwaysGood(Start(clock), acts);
  }

  /** A tenant never has two agents, and an agent only ever executes SQL of its own tenant's dashboards. */
  lemma OwnTenantOnly(clock: Time, acts: seq<Act>, a: AgentId, b: AgentId)
    requires
      var f := RunActs(Start(clock), acts);
      a in f.s.db.agents && b in f.s.db.agents && a in f.procs
    ensures
      var f := RunActs(Start(clock), acts);
      && (f.s.db.agents[a].tenant == f.s.db.agents[b].tenant ==> a == b)
      && (f.procs[a].Executing? ==>
            && f.procs[a].job in f.s.db.jobs
            && var d := f.s.db.jobs[f.procs[a].job].dashboard;
               d in f.s.db.dashboards && f.s.db.dashboards[d].tenant == f.s.db.agents[a].tenant
               && f.s.db.dashboards[d].sql == f.procs[a].sql)
  {
    StartGood(clock);
    AlwaysGood(Start(clock), acts);
    var f := RunActs(Start(clock), acts);
    HeldNow(f, a);
    if f.procs[a].Executing? {
      assert CopiesDashboard(f.s.db.jobs[f.procs[a].job], f.s.db.dashboards);
    }
  }
}
