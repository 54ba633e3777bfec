/**
  The control plane together with the agent processes that enrolled with it, joined by a lossy
  link. An agent runs poll_loop and post_result: one request at a time, each handled (or lost on
  the way in) before the next is sent; answers may be lost; a process may die at any moment.
 */
module Fleet {
  import opened Tables
  import opened Protocol
  import opened Cache
  import opened Truncation

  datatype Process =
    | Ready
    | Waiting(poll: PollId)
    | Answered(job: JobId, sql: string, timeoutMs: nat)
    | Executing(job: JobId, sql: string, timeoutMs: nat, start: Time)
    | Posting(job: JobId, start: Time, body: Body, attempt: int)
    | Sent(job: JobId, start: Time, body: Body, attempt: int, request: RequestId)
    | Stopped
  {
    /** The job this process has been handed and has not finished with. */
    predicate Holds(j: JobId) {
      !Ready? && !Waiting? && !Stopped? && job == j
    }
  }

  /** An accepted post, with the time its query started. */
  datatype Post = Post(job: JobId, dashboard: DashboardId, tenant: TenantId, start: Time, at: Time)

  /** `starts` remembers the query start of each post being handled; `log` and `posts` record acceptances. */
  datatype System = System(
    s: State, procs: map<AgentId, Process>, starts: map<RequestId, Time>, log: seq<Entry>, posts: seq<Post>)

  datatype Act =
    | Platform(step: Step)
    | Enrol(request: RequestId, tenant: TenantId, agent: AgentId, delivered: bool)
    | SendPoll(agent: AgentId, poll: PollId, timeout: int, delivered: bool)
    | Probe(poll: PollId)
    | Transact(poll: PollId, pick: JobId)
    | FailPoll(poll: PollId)
    | Receive(agent: AgentId)
    | LoseAnswer(agent: AgentId)
    | Finish(agent: AgentId, query: Query)
    | LosePost(agent: AgentId)
    | SendPost(agent: AgentId, request: RequestId, delivered: bool)
    | CommitPost(request: RequestId, delivered: bool)
    | FailPost(request: RequestId)
    | Crash(agent: AgentId)

  function Start(clock: Time): System {
    System(Init(clock), map[], map[], [], [])
  }

  /** The steps no agent takes part in. */
  predicate PlatformStep(step: Step) {
    || step.Advance? || step.CreateTenant? || step.CreateDashboard? || step.Revoke?
    || step.TickUpdate? || step.TickInsert? || step.TickFail? || step.Reap?
  }

  predicate Enabled(f: System, act: Act) {
    match act
    case Platform(step) => PlatformStep(step)
    case Enrol(r, t, a, _) => r !in f.s.work.enrolments && a !in f.s.db.agents && CanEnrol(f.s, t)
    case SendPoll(a, p, timeout, _) =>
      a in f.procs && f.procs[a].Ready? && p !in f.s.work.polls && 1 <= timeout <= MAX_POLL_TIMEOUT
    case Probe(p) => p in f.s.work.polls
    case Transact(p, _) => p in f.s.work.polls
    case FailPoll(p) => p in f.s.work.polls
    case Receive(a) => a in f.procs && f.procs[a].Answered?
    case LoseAnswer(a) => a in f.procs && f.procs[a].Answered?
    case Finish(a, _) => a in f.procs && f.procs[a].Executing? && f.procs[a].start < f.s.clock
    case LosePost(a) => a in f.procs && f.procs[a].Posting?
    case SendPost(a, r, _) => a in f.procs && f.procs[a].Posting? && r !in f.s.work.submissions
    case CommitPost(r, _) => r in f.s.work.submissions && f.s.work.submissions[r].job in f.s.db.jobs
    case FailPost(r) => r in f.s.work.submissions
    case Crash(a) => a in f.procs
  }

  predicate CanEnrol(s: State, t: TenantId) {
    t in s.db.tenants && s.db.tenants[t].enrolledAt.None?
  }

  /** The transactions the control plane runs for an act. */
  function Steps(f: System, act: Act): seq<Step> {
    match act
    case Platform(step) => [step]
    case Enrol(r, t, a, _) => [EnrolLookup(r, t), EnrolCommit(r, a)]
    case SendPoll(a, p, timeout, _) => [OpenPoll(p, a, timeout)]
    case Probe(p) => [BeginProbe(p)]
    case Transact(p, pick) => [ProbeTransaction(p, pick)]
    case FailPoll(p) => [AbortPoll(p)]
    case SendPost(a, r, _) =>
      if a in f.procs && f.procs[a].Posting? then [SubmitCheck(r, a, f.procs[a].job, f.procs[a].body)] else []
    case CommitPost(r, _) => [SubmitCommit(r)]
    case FailPost(r) => [SubmitAbort(r)]
    case _ => []
  }

  /** After an attempt that brought no verdict: three attempts, then give up. */
  function NextAttempt(proc: Process): Process
    requires proc.Posting? || proc.Sent?
  {
    if proc.attempt < 3 then Posting(proc.job, proc.start, proc.body, proc.attempt + 1) else Ready
  }

  /** What the agent does once its open poll has ended with the given reply. */
  function AfterPoll(procs: map<AgentId, Process>, a: AgentId, p: PollId, next: Process): map<AgentId, Process> {
    if a in procs && procs[a] == Waiting(p) then procs[a := next] else procs
  }

  function AfterPost(procs: map<AgentId, Process>, a: AgentId, r: RequestId, verdict: bool): map<AgentId, Process> {
    if a in procs && procs[a].Sent? && procs[a].request == r then
      procs[a := if verdict then Ready else NextAttempt(procs[a])]
    else procs
  }

  /** The branch post_result takes on the answer to its check. */
  function AfterCheck(proc: Process, r: RequestId, reply: Reply, delivered: bool): Process
    requires proc.Posting?
  {
    match reply
    case Suspended => Sent(proc.job, proc.start, proc.body, proc.attempt, r)
    case Conflict => if delivered then Ready else NextAttempt(proc)
    case Unauthorized => if delivered then Stopped else NextAttempt(proc)
    case _ => NextAttempt(proc)
  }

  function Procs(f: System, act: Act): map<AgentId, Process>
    requires Enabled(f, act)
  {
    match act
    case Platform(_) => f.procs
    case Enrol(_, _, a, delivered) => f.procs[a := if delivered then Ready else Stopped]
    case SendPoll(a, p, timeout, delivered) =>
      f.procs[a := if Authorised(f.s, a) then Waiting(p) else if delivered then Stopped else Ready]
    case Probe(p) =>
      if DoBeginProbe(f.s, p).reply == NoContent then AfterPoll(f.procs, f.s.work.polls[p].agent, p, Ready) else f.procs
    case Transact(p, pick) =>
      var reply := DoProbeTransaction(f.s, p, pick).reply;
      if reply.Granted? && reply.timeoutMs >= 0 then
        AfterPoll(f.procs, f.s.work.polls[p].agent, p, Answered(reply.job, reply.sql, reply.timeoutMs))
      else f.procs
    case FailPoll(p) => AfterPoll(f.procs, f.s.work.polls[p].agent, p, Ready)
    case Receive(a) =>
      f.procs[a := Executing(f.procs[a].job, f.procs[a].sql, f.procs[a].timeoutMs, f.s.clock)]
    case LoseAnswer(a) => f.procs[a := Ready]
    case Finish(a, query) =>
      f.procs[a := Posting(f.procs[a].job, f.procs[a].start, ProgramBody(query, f.procs[a].timeoutMs), 1)]
    case LosePost(a) => f.procs[a := NextAttempt(f.procs[a])]
    case SendPost(a, r, delivered) =>
      var reply := DoSubmitCheck(f.s, r, a, f.procs[a].job, f.procs[a].body).reply;
      f.procs[a := AfterCheck(f.procs[a], r, reply, delivered)]
    case CommitPost(r, delivered) => AfterPost(f.procs, f.s.work.submissions[r].agent, r, delivered)
    case FailPost(r) => AfterPost(f.procs, f.s.work.submissions[r].agent, r, false)
    case Crash(a) => f.procs[a := Stopped]
  }

  function Starts(f: System, act: Act): map<RequestId, Time> {
    if act.SendPost? && act.agent in f.procs && f.procs[act.agent].Posting? then
      f.starts[act.request := f.procs[act.agent].start]
    else f.starts
  }

  function Accepting(f: System, act: Act): seq<Entry> {
    if act.CommitPost? then AcceptedBy(f.s, SubmitCommit(act.request)) else []
  }

  function Posted(f: System, act: Act): seq<Post> {
    if act.CommitPost? && Accepting(f, act) != [] && act.request in f.starts then
      var e := Accepting(f, act)[0];
      [Post(e.job, e.dashboard, e.tenant, f.starts[act.request], f.s.clock)]
    else []
  }

  /** An act that is not enabled does not happen. */
  function Do(f: System, act: Act): System {
    if !Enabled(f, act) then f
    else
      System(Run(f.s, Steps(f, act)), Procs(f, act), Starts(f, act),
             f.log + Accepting(f, act), f.posts + Posted(f, act))
  }

  function RunActs(f: System, acts: seq<Act>): System
    decreases acts
  {
    if acts == [] then f else RunActs(Do(f, acts[0]), acts[1..])
  }

  lemma {:induction false} RunActsConcat(f: System, a: seq<Act>, b: seq<Act>)
    ensures RunActs(f, a + b) == RunActs(RunActs(f, a), b)
    decreases a
  {
    if a == [] {
      assert a + b == b;
    } else {
      assert (a + b)[1..] == a[1..] + b;
      RunActsConcat(Do(f, a[0]), a[1..], b);
    }
  }

  lemma OneAct(f: System, act: Act)
    ensures RunActs(f, [act]) == Do(f, act)
  {
    assert [act][1..] == [];
  }

  lemma TwoActs(f: System, first: Act, second: Act)
    ensures RunActs(f, [first, second]) == Do(Do(f, first), second)
  {
    assert [first, second][1..] == [second];
    OneAct(Do(f, first), second);
  }

  lemma RunActsCons(f: System, act: Act, acts: seq<Act>)
    ensures RunActs(f, [act] + acts) == RunActs(Do(f, act), acts)
  {
    assert ([act] + acts)[1..] == acts;
  }

  lemma FourActs(f: System, a: Act, b: Act, c: Act, d: Act)
    ensures RunActs(f, [a, b, c, d]) == Do(Do(Do(Do(f, a), b), c), d)
  {
    RunActsCons(f, a, [b, c, d]);
    RunActsCons(Do(f, a), b, [c, d]);
    RunActsCons(Do(Do(f, a), b), c, [d]);
    RunActsCons(Do(Do(Do(f, a), b), c), d, []);
    assert [a] + [b, c, d] == [a, b, c, d] && [b] + [c, d] == [b, c, d] && [c] + [d] == [c, d] && [d] + [] == [d];
  }

  lemma PlatformAct(f: System, step: Step)
    requires PlatformStep(step)
    ensures Do(f, Platform(step)) == f.(s := Next(f.s, step))
  {
    RunOne(f.s, step);
    assert f.log + [] == f.log && f.posts + [] == f.posts;
  }

  /** The control plane's steps in an act that happens. */
  function ActSteps(f: System, act: Act): seq<Step> {
    if Enabled(f, act) then Steps(f, act) else []
  }

  /** The control plane's steps in a run of the whole system. */
  function ServerSteps(f: System, acts: seq<Act>): seq<Step>
    decreases acts
  {
    if acts == [] then [] else ActSteps(f, acts[0]) + ServerSteps(Do(f, acts[0]), acts[1..])
  }

  lemma Compose(s: State, now: seq<Step>, later: seq<Step>, log: seq<Entry>)
    ensures Run(s, now + later) == Run(Run(s, now), later)
    ensures log + Log(s, now + later) == log + Log(s, now) + Log(Run(s, now), later)
  {
    RunConcat(s, now, later);
    LogConcat(s, now, later);
  }

  /**
    Seen from the control plane, a run of the whole system is a run of the server with arbitrary
    clients, and its log is that run's log; so every theorem about server runs applies to it.
   */
  lemma {:induction false} ServerRun(f: System, acts: seq<Act>)
    ensures RunActs(f, acts).s == Run(f.s, ServerSteps(f, acts))
    ensures RunActs(f, acts).log == f.log + Log(f.s, ServerSteps(f, acts))
    decreases acts
  {
    if acts == [] {
      assert f.log + [] == f.log;
    } else {
      ServerRun(Do(f, acts[0]), acts[1..]);
      ActLog(f, acts[0]);
      Compose(f.s, ActSteps(f, acts[0]), ServerSteps(Do(f, acts[0]), acts[1..]), f.log);
    }
  }

  lemma ActLog(f: System, act: Act)
    ensures Do(f, act).s == Run(f.s, ActSteps(f, act)) && Do(f, act).log == f.log + Log(f.s, ActSteps(f, act))
  {
    if Enabled(f, act) {
      var now := Steps(f, act);
      if act.Enrol? {
        LogTwo(f.s, now[0], now[1]);
        assert now == [now[0], now[1]];
      } else if |now| == 1 {
        LogOne(f.s, now[0]);
        assert now == [now[0]];
      }
    } else {
      assert f.log + [] == f.log;
    }
  }
}
