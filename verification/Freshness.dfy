/**
  Freshness is monotone: an agent works through its tenant's jobs one at a time, so the query
  behind each stored result started after the previous result was accepted, even when a reaped
  older job is run again after a newer one.
 */
module Freshness {
  import opened Tables
  import opened Protocol
  import opened Coherence
  import opened Lifecycle
  import opened Cache
  import opened Fleet
  import opened AtMostOnce

  /** Tenant t's accepted posts, other than job j's own, were all accepted by `time`. */
  ghost predicate Before(posts: seq<Post>, t: TenantId, j: Option<JobId>, time: Time) {
    forall i | 0 <= i < |posts| :: posts[i].tenant == t && Some(posts[i].job) != j ==> posts[i].at <= time
  }

  ghost predicate InStep(posts: seq<Post>, log: seq<Entry>, dashboards: Dashboards) {
    && |posts| == |log|
    && forall i | 0 <= i < |posts| ::
         && posts[i].job == log[i].job && posts[i].dashboard == log[i].dashboard && posts[i].tenant == log[i].tenant
         && posts[i].dashboard in dashboards && dashboards[posts[i].dashboard].tenant == posts[i].tenant
  }

  /** One tenant's spans from query start to acceptance do not overlap. */
  ghost predicate Disjoint(posts: seq<Post>, clock: Time) {
    && (forall i | 0 <= i < |posts| :: posts[i].start < posts[i].at <= clock)
    && forall i, k | 0 <= i < k < |posts| && posts[i].tenant == posts[k].tenant :: posts[i].at <= posts[k].start
  }

  ghost predicate ProcFresh(proc: Process, t: TenantId, posts: seq<Post>, clock: Time) {
    match proc
    case Executing(j, _, _, start) => start <= clock && Before(posts, t, Some(j), start)
    case Posting(j, start, _, _) => start < clock && Before(posts, t, Some(j), start)
    case Sent(j, start, _, _, _) => start < clock && Before(posts, t, Some(j), start)
    case _ => true
  }

  ghost predicate ProcsFresh(procs: map<AgentId, Process>, agents: Agents, posts: seq<Post>, clock: Time) {
    forall a <- procs :: a in agents && ProcFresh(procs[a], agents[a].tenant, posts, clock)
  }

  ghost predicate HandledFresh(
    submissions: map<RequestId, Submission>, starts: map<RequestId, Time>, posts: seq<Post>, clock: Time)
  {
    forall r <- submissions ::
      r in starts && starts[r] < clock && Before(posts, submissions[r].tenant, None, starts[r])
  }

  ghost predicate Fresh(f: System) {
    && InStep(f.posts, f.log, f.s.db.dashboards)
    && Disjoint(f.posts, f.s.clock)
    && ProcsFresh(f.procs, f.s.db.agents, f.posts, f.s.clock)
    && HandledFresh(f.s.work.submissions, f.starts, f.posts, f.s.clock)
  }

  lemma PlatformClock(s: State, step: Step)
    requires PlatformStep(step)
    ensures s.clock <= Next(s, step).clock
    ensures forall d <- s.db.dashboards ::
              d in Next(s, step).db.dashboards && Next(s, step).db.dashboards[d].tenant == s.db.dashboards[d].tenant
  {}

  lemma PlatformFresh(f: System, step: Step)
    requires Good(f) && Fresh(f) && PlatformStep(step)
    ensures Fresh(Do(f, Platform(step)))
  {
    RunOne(f.s, step);
    PlatformFrame(f.s, step);
    PlatformClock(f.s, step);
    assert f.log + [] == f.log && f.posts + [] == f.posts;
    forall a <- f.procs ensures ProcFresh(f.procs[a], f.s.db.agents[a].tenant, f.posts, Next(f.s, step).clock) {}
  }

  lemma EnrolFresh(f: System, act: Act)
    requires Good(f) && Fresh(f) && act.Enrol? && Enabled(f, act)
    ensures Fresh(Do(f, act))
  {
    EnrolBoth(f.s, act.request, act.tenant, act.agent);
    assert f.log + [] == f.log && f.posts + [] == f.posts;
    forall a <- f.procs ensures ProcFresh(f.procs[a], f.s.db.agents[a].tenant, f.posts, f.s.clock) {}
  }

  /** Moving one process keeps freshness if the process itself is fresh. */
  lemma MoveFresh(
    procs: map<AgentId, Process>, agents: Agents, posts: seq<Post>, clock: Time, a: AgentId, proc: Process)
    requires ProcsFresh(procs, agents, posts, clock) && a in procs
    requires ProcFresh(proc, agents[a].tenant, posts, clock)
    ensures ProcsFresh(procs[a := proc], agents, posts, clock)
  {}

  /** An act that accepts nothing, opens no post and moves agent a's process only. */
  lemma SoloFresh(f: System, f': System, a: AgentId, proc: Process)
    requires Fresh(f) && a in f.procs && a in f.s.db.agents
    requires f'.posts == f.posts && f'.log == f.log && f'.starts == f.starts && f'.s.clock == f.s.clock
    requires f'.s.db.dashboards == f.s.db.dashboards && f'.s.db.agents == f.s.db.agents
    requires forall r <- f'.s.work.submissions ::
               r in f.s.work.submissions && f'.s.work.submissions[r] == f.s.work.submissions[r]
    requires f'.procs == f.procs[a := proc] && ProcFresh(proc, f.s.db.agents[a].tenant, f.posts, f.s.clock)
    ensures Fresh(f')
  {
    MoveFresh(f.procs, f.s.db.agents, f.posts, f.s.clock, a, proc);
  }

  lemma ProcNow(f: System, a: AgentId)
    requires Fresh(f) && a in f.procs
    ensures a in f.s.db.agents && ProcFresh(f.procs[a], f.s.db.agents[a].tenant, f.posts, f.s.clock)
  {}

  lemma LocalFresh(f: System, act: Act)
    requires Fresh(f) && Enabled(f, act) && Local(act)
    ensures Fresh(Do(f, act))
  {
    LocalFrame(f, act);
    ProcNow(f, act.agent);
    SoloFresh(f, Do(f, act), act.agent, Procs(f, act)[act.agent]);
  }

  /** An act on the open poll of agent a. */
  lemma PollFresh(f: System, act: Act, a: AgentId)
    requires Fresh(f) && Enabled(f, act) && a in f.procs && f.procs[a := f.procs[a]] == f.procs
    requires act.SendPoll? || act.Probe? || act.Transact? || act.FailPoll?
    requires a == if act.SendPoll? then act.agent else f.s.work.polls[act.poll].agent
    ensures Fresh(Do(f, act))
  {
    var step := Steps(f, act)[0];
    assert Steps(f, act) == [step];
    OneFrame(f, act, step);
    ProcNow(f, a);
    SoloFresh(f, Do(f, act), a, Procs(f, act)[a]);
  }

  /**
    A post let through the check has no predecessor for its own job, so all before it were accepted
    before it started.
   */
  lemma NoPredecessor(f: System, j: JobId, t: TenantId, start: Time)
    requires Good(f) && Fresh(f) && j in f.s.db.jobs && !f.s.db.jobs[j].Terminal()
    requires Before(f.posts, t, Some(j), start)
    ensures Before(f.posts, t, None, start)
  {
    FirstAcceptance(f, j);
  }

  /** A post that has just passed its check joins the posts being handled. */
  lemma SentFresh(f: System, f': System, a: AgentId, proc: Process, r: RequestId, sub: Submission, start: Time)
    requires Fresh(f) && a in f.procs && a in f.s.db.agents
    requires f'.posts == f.posts && f'.log == f.log && f'.starts == f.starts[r := start] && f'.s.clock == f.s.clock
    requires f'.s.db.dashboards == f.s.db.dashboards && f'.s.db.agents == f.s.db.agents
    requires f'.s.work.submissions == f.s.work.submissions[r := sub] && r !in f.s.work.submissions
    requires f'.procs == f.procs[a := proc] && ProcFresh(proc, f.s.db.agents[a].tenant, f.posts, f.s.clock)
    requires start < f.s.clock && Before(f.posts, sub.tenant, None, start)
    ensures Fresh(f')
  {
    MoveFresh(f.procs, f.s.db.agents, f.posts, f.s.clock, a, proc);
  }

  /** A refused post changes nothing but its sender's process. */
  lemma RefusedFresh(f: System, f': System, a: AgentId, proc: Process, r: RequestId, start: Time)
    requires Fresh(f) && a in f.procs && a in f.s.db.agents && r !in f.s.work.submissions
    requires f'.posts == f.posts && f'.log == f.log && f'.starts == f.starts[r := start] && f'.s == f.s
    requires f'.procs == f.procs[a := proc] && ProcFresh(proc, f.s.db.agents[a].tenant, f.posts, f.s.clock)
    ensures Fresh(f')
  {
    MoveFresh(f.procs, f.s.db.agents, f.posts, f.s.clock, a, proc);
  }

  lemma SendPostFresh(f: System, act: Act)
    requires Good(f) && Fresh(f) && act.SendPost? && Enabled(f, act)
    ensures Fresh(Do(f, act))
  {
    var a, r, proc := act.agent, act.request, f.procs[act.agent];
    var reply := DoSubmitCheck(f.s, r, a, proc.job, proc.body).reply;
    var proc' := AfterCheck(proc, r, reply, act.delivered);
    SendPostEffect(f, act);
    CheckedUnfinished(f, a, r);
    ProcNow(f, a);
    CheckEffect(f.s, r, a, proc.job, proc.body);
    if reply == Suspended {
      NoPredecessor(f, proc.job, f.s.db.agents[a].tenant, proc.start);
      SentFresh(f, Do(f, act), a, proc', r, Do(f, act).s.work.submissions[r], proc.start);
    } else {
      RefusedFresh(f, Do(f, act), a, proc', r, proc.start);
    }
  }

  lemma FailPostFresh(f: System, act: Act, a: AgentId)
    requires Fresh(f) && act.FailPost? && Enabled(f, act)
    requires a in f.procs && f.procs[a := f.procs[a]] == f.procs && a == f.s.work.submissions[act.request].agent
    ensures Fresh(Do(f, act))
  {
    OneFrame(f, act, SubmitAbort(act.request));
    ProcNow(f, a);
    SoloFresh(f, Do(f, act), a, Procs(f, act)[a]);
  }

  lemma BeforeAppend(posts: seq<Post>, post: Post, t: TenantId, j: Option<JobId>, time: Time)
    requires Before(posts, t, j, time) && (post.tenant != t || Some(post.job) == j)
    ensures Before(posts + [post], t, j, time)
  {}

  /** Every other process belongs to another tenant; the sender's own post is its job's. */
  lemma CommitProcsFresh(f: System, act: Act, post: Post)
    requires Good(f) && Fresh(f) && act.CommitPost? && Enabled(f, act)
    requires
      var sub := f.s.work.submissions[act.request];
      post.job == sub.job && post.tenant == sub.tenant
    ensures ProcsFresh(Procs(f, act), f.s.db.agents, f.posts + [post], f.s.clock)
  {
    var sub := f.s.work.submissions[act.request];
    assert SubmissionOK(sub, f.s.db.jobs, f.s.db.agents);
    assert HandledOK(act.request, sub, f.procs, f.s.db.jobs);
    forall a <- f.procs ensures ProcFresh(f.procs[a], f.s.db.agents[a].tenant, f.posts + [post], f.s.clock) {
      assert ProcFresh(f.procs[a], f.s.db.agents[a].tenant, f.posts, f.s.clock);
    }
    if f.procs[sub.agent].Sent? {
      MoveFresh(f.procs, f.s.db.agents, f.posts + [post], f.s.clock, sub.agent, Procs(f, act)[sub.agent]);
    }
  }

  /** Every other post being handled belongs to another tenant. */
  lemma CommitHandledFresh(f: System, r: RequestId, post: Post)
    requires Good(f) && Fresh(f) && r in f.s.work.submissions && post.tenant == f.s.work.submissions[r].tenant
    ensures HandledFresh(f.s.work.submissions - {r}, f.starts, f.posts + [post], f.s.clock)
  {
    var submissions := f.s.work.submissions;
    assert SubmissionOK(submissions[r], f.s.db.jobs, f.s.db.agents);
    forall q <- submissions - {r} ensures Before(f.posts + [post], submissions[q].tenant, None, f.starts[q]) {
      assert SubmissionOK(submissions[q], f.s.db.jobs, f.s.db.agents);
      assert submissions[q].agent != submissions[r].agent;
      BeforeAppend(f.posts, post, submissions[q].tenant, None, f.starts[q]);
    }
  }

  /** The log and the posts grow together, and the new post ends when it is accepted. */
  lemma PostAppended(posts: seq<Post>, log: seq<Entry>, dashboards: Dashboards, clock: Time, post: Post, e: Entry)
    requires InStep(posts, log, dashboards) && Disjoint(posts, clock)
    requires post.job == e.job && post.dashboard == e.dashboard && post.tenant == e.tenant
    requires post.dashboard in dashboards && dashboards[post.dashboard].tenant == post.tenant
    requires post.start < post.at == clock && Before(posts, post.tenant, None, post.start)
    ensures InStep(posts + [post], log + [e], dashboards) && Disjoint(posts + [post], clock)
  {}

  lemma CommitPostFresh(f: System, act: Act)
    requires Good(f) && Fresh(f) && act.CommitPost? && Enabled(f, act)
    ensures Fresh(Do(f, act))
  {
    var r, sub := act.request, f.s.work.submissions[act.request];
    CommitPostEffect(f, act);
    assert SubmissionOK(sub, f.s.db.jobs, f.s.db.agents);
    assert CopiesDashboard(f.s.db.jobs[sub.job], f.s.db.dashboards);
    var post := Post(sub.job, sub.dashboard, sub.tenant, f.starts[r], f.s.clock);
    var e := Entry(sub.job, sub.dashboard, sub.tenant, sub.body, sub.at);
    assert Do(f, act).posts == f.posts + [post];
    PostAppended(f.posts, f.log, f.s.db.dashboards, f.s.clock, post, e);
    CommitProcsFresh(f, act, post);
    CommitHandledFresh(f, r, post);
  }

  /** The process that an act on an open poll or a post in flight moves, if it moves any. */
  function Mover(f: System, act: Act): AgentId
    requires Enabled(f, act) && (act.SendPoll? || act.Probe? || act.Transact? || act.FailPoll? || act.FailPost?)
  {
    if act.SendPoll? then act.agent
    else if act.FailPost? then f.s.work.submissions[act.request].agent
    else f.s.work.polls[act.poll].agent
  }

  lemma MoverKnown(f: System, act: Act)
    requires Good(f) && Enabled(f, act)
    requires act.SendPoll? || act.Probe? || act.Transact? || act.FailPoll? || act.FailPost?
    ensures Mover(f, act) in f.procs && f.procs[Mover(f, act) := f.procs[Mover(f, act)]] == f.procs
  {
    if act.FailPost? {
      assert HandledOK(act.request, f.s.work.submissions[act.request], f.procs, f.s.db.jobs);
    } else if !act.SendPoll? {
      PollOwner(f, act.poll);
    }
    assert f.procs[Mover(f, act) := f.procs[Mover(f, act)]] == f.procs;
  }

  lemma ActFresh(f: System, act: Act)
    requires Good(f) && Fresh(f)
    ensures Fresh(Do(f, act))
  {
    if Enabled(f, act) {
      match act
      case Platform(step) => PlatformFresh(f, step);
      case Enrol(_, _, _, _) => EnrolFresh(f, act);
      case SendPost(_, _, _) => SendPostFresh(f, act);
      case CommitPost(_, _) => CommitPostFresh(f, act);
      case FailPost(_) => MoverKnown(f, act); FailPostFresh(f, act, Mover(f, act));
      case SendPoll(_, _, _, _) => MoverKnown(f, act); PollFresh(f, act, Mover(f, act));
      case Probe(_) => MoverKnown(f, act); PollFresh(f, act, Mover(f, act));
      case Transact(_, _) => MoverKnown(f, act); PollFresh(f, act, Mover(f, act));
      case FailPoll(_) => MoverKnown(f, act); PollFresh(f, act, Mover(f, act));
      case _ => LocalFresh(f, act);
    }
  }

  lemma {:induction false} AlwaysFresh(f: System, acts: seq<Act>)
    requires Good(f) && Fresh(f)
    ensures Good(RunActs(f, acts)) && Fresh(RunActs(f, acts))
    decreases acts
  {
    if acts != [] {
      ActGood(f, acts[0]);
      ActFresh(f, acts[0]);
      AlwaysFresh(Do(f, acts[0]), acts[1..]);
    }
  }

  /** The queries behind successive results of a dashboard started later and later. */
  lemma FreshnessMonotone(clock: Time, acts: seq<Act>, i: int, k: int)
    requires
      var posts := RunActs(Start(clock), acts).posts;
      0 <= i < k < |posts| && posts[i].dashboard == posts[k].dashboard
    ensures
      var posts := RunActs(Start(clock), acts).posts;
      posts[i].start < posts[i].at <= posts[k].start < posts[k].at
  {
    StartGood(clock);
    AlwaysFresh(Start(clock), acts);
  }

  /** The posts are the log's entries in order, and the last one of a dashboard is the result it shows. */
  lemma PostsAreLogged(clock: Time, acts: seq<Act>, i: int)
    requires
      var posts := RunActs(Start(clock), acts).posts;
      && 0 <= i < |posts|
      && forall k | i < k < |posts| :: posts[k].dashboard != posts[i].dashboard
    ensures
      var f := RunActs(Start(clock), acts);
      var d := f.posts[i].dashboard;
      && |f.log| == |f.posts| && f.log[i].job == f.posts[i].job
      && d in f.s.db.results && f.s.db.results[d] == RowOf(f.log[i])
  {
    StartGood(clock);
    AlwaysFresh(Start(clock), acts);
    var f := RunActs(Start(clock), acts);
    LastShown(f.log, i);
  }

  lemma {:induction false} LastShown(log: seq<Entry>, i: int)
    requires 0 <= i < |log| && forall k | i < k < |log| :: log[k].dashboard != log[i].dashboard
    ensures LastFor(log, log[i].dashboard) == Some(log[i])
    decreases log
  {
    if i < |log| - 1 {
      LastShown(log[..|log| - 1], i);
    }
  }
}
