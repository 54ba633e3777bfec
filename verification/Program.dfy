/**
  The fleet's agents do what the agent program does: their posts take the steps and end with the
  verdict of post_result, and an idle agent whose tenant has work to do can always do it, from the
  poll to the row that the embedding endpoint then returns.
 */
module Program {
  import opened Tables
  import opened Protocol
  import opened Coherence
  import opened Lifecycle
  import opened Truncation
  import opened Effects
  import opened Posting
  import opened Fleet
  import opened AtMostOnce

  // ---- Posting ----

  /** The acts of one attempt with the given fate while nobody else acts. */
  function AttemptActs(f: System, a: AgentId, r: RequestId, fate: Fate): seq<Act>
    requires a in f.procs && f.procs[a].Posting?
  {
    if fate == RequestLost then [LosePost(a)]
    else if DoSubmitCheck(f.s, r, a, f.procs[a].job, f.procs[a].body).reply != Suspended then
      [SendPost(a, r, fate != AnswerLost)]
    else if fate == HandlerFails then [SendPost(a, r, true), FailPost(r)]
    else [SendPost(a, r, fate != AnswerLost), CommitPost(r, fate == Delivered)]
  }

  /** What the process does next. */
  function AfterVerdict(proc: Process, verdict: Verdict): Process
    requires proc.Posting?
  {
    match verdict
    case Posted => Ready
    case Exited => Stopped
    case GaveUp => NextAttempt(proc)
  }

  ghost predicate AttemptRan(f: System, f': System, a: AgentId, r: RequestId, fate: Fate)
    requires a in f.procs && f.procs[a].Posting?
  {
    var proc, d := f.procs[a], Delivery(fate, [], []);
    && f'.s == Run(f.s, AttemptSteps(f.s, r, a, proc.job, proc.body, d))
    && f'.procs == f.procs[a := AfterVerdict(proc, AttemptVerdict(f.s, r, a, proc.job, proc.body, d))]
  }

  /** With nobody else acting, an attempt is the handler's steps. */
  lemma SilentAttempt(s: State, r: RequestId, a: AgentId, j: JobId, body: Body, fate: Fate)
    ensures
      var d := Delivery(fate, [], []);
      && AttemptSteps(s, r, a, j, body, d)
         == (if fate == RequestLost then [] else SubmitSteps(s, r, a, j, body, [], fate == HandlerFails))
      && AttemptVerdict(s, r, a, j, body, d)
         == if fate == RequestLost then GaveUp else HandledVerdict(s, r, a, j, body, fate)
  {
    assert [] + SubmitSteps(s, r, a, j, body, [], fate == HandlerFails)
        == SubmitSteps(s, r, a, j, body, [], fate == HandlerFails);
  }

  lemma LostAttemptRuns(f: System, a: AgentId, r: RequestId)
    requires a in f.procs && f.procs[a].Posting?
    ensures AttemptRan(f, Do(f, LosePost(a)), a, r, RequestLost)
  {
    LocalFrame(f, LosePost(a));
    SilentAttempt(f.s, r, a, f.procs[a].job, f.procs[a].body, RequestLost);
  }

  lemma RefusedAttemptRuns(f: System, a: AgentId, r: RequestId, fate: Fate)
    requires a in f.procs && f.procs[a].Posting? && r !in f.s.work.submissions && fate != RequestLost
    requires DoSubmitCheck(f.s, r, a, f.procs[a].job, f.procs[a].body).reply != Suspended
    ensures AttemptRan(f, Do(f, SendPost(a, r, fate != AnswerLost)), a, r, fate)
  {
    var proc := f.procs[a];
    SendPostEffect(f, SendPost(a, r, fate != AnswerLost));
    CheckEffect(f.s, r, a, proc.job, proc.body);
    SubmitRefused(f.s, r, a, proc.job, proc.body, [], fate == HandlerFails);
    SilentAttempt(f.s, r, a, proc.job, proc.body, fate);
  }

  /** The post passes its guards and is on its way to its transaction. */
  lemma PassedCheck(f: System, a: AgentId, r: RequestId, delivered: bool)
    requires a in f.procs && f.procs[a].Posting? && r !in f.s.work.submissions
    requires DoSubmitCheck(f.s, r, a, f.procs[a].job, f.procs[a].body).reply == Suspended
    ensures
      var proc, f1 := f.procs[a], Do(f, SendPost(a, r, delivered));
      && f1.s == DoSubmitCheck(f.s, r, a, proc.job, proc.body).state && r in f1.s.work.submissions
      && f1.s.work.submissions[r].agent == a && f1.s.work.submissions[r].job in f1.s.db.jobs
      && f1.procs == f.procs[a := Sent(proc.job, proc.start, proc.body, proc.attempt, r)]
  {
    SendPostEffect(f, SendPost(a, r, delivered));
    CheckEffect(f.s, r, a, f.procs[a].job, f.procs[a].body);
  }

  /** The transaction of a post in flight, and what its sender does then. */
  lemma EndOfHandling(f: System, a: AgentId, r: RequestId, act: Act)
    requires r in f.s.work.submissions && f.s.work.submissions[r].agent == a
    requires f.s.work.submissions[r].job in f.s.db.jobs
    requires a in f.procs && f.procs[a].Sent? && f.procs[a].request == r
    requires act == FailPost(r) || (act.CommitPost? && act.request == r)
    ensures Do(f, act).s == Next(f.s, if act.FailPost? then SubmitAbort(r) else SubmitCommit(r))
    ensures Do(f, act).procs ==
            f.procs[a := if act.CommitPost? && act.delivered then Ready else NextAttempt(f.procs[a])]
  {
    if act.FailPost? {
      OneFrame(f, act, SubmitAbort(r));
    } else {
      RunOne(f.s, SubmitCommit(r));
    }
  }

  /** The handler's steps and the agent's verdict when the guards let the post through and nobody else acts. */
  lemma ThroughAlone(s: State, r: RequestId, a: AgentId, j: JobId, body: Body, fate: Fate)
    requires r !in s.work.submissions && DoSubmitCheck(s, r, a, j, body).reply == Suspended && fate != RequestLost
    ensures
      var last := if fate == HandlerFails then SubmitAbort(r) else SubmitCommit(r);
      Run(s, AttemptSteps(s, r, a, j, body, Delivery(fate, [], [])))
      == Next(DoSubmitCheck(s, r, a, j, body).state, last)
    ensures AttemptVerdict(s, r, a, j, body, Delivery(fate, [], [])) == if fate == Delivered then Posted else GaveUp
  {
    SubmitThrough(s, r, a, j, body, [], fate == HandlerFails);
    SilentAttempt(s, r, a, j, body, fate);
  }

  lemma PassedRan(f: System, f': System, a: AgentId, r: RequestId, fate: Fate)
    requires a in f.procs && f.procs[a].Posting? && r !in f.s.work.submissions && fate != RequestLost
    requires DoSubmitCheck(f.s, r, a, f.procs[a].job, f.procs[a].body).reply == Suspended
    requires
      f'.s == Next(DoSubmitCheck(f.s, r, a, f.procs[a].job, f.procs[a].body).state,
                   if fate == HandlerFails then SubmitAbort(r) else SubmitCommit(r))
    requires f'.procs == f.procs[a := if fate == Delivered then Ready else NextAttempt(f.procs[a])]
    ensures AttemptRan(f, f', a, r, fate)
  {
    ThroughAlone(f.s, r, a, f.procs[a].job, f.procs[a].body, fate);
  }

  lemma PassedAttemptRuns(f: System, a: AgentId, r: RequestId, fate: Fate)
    requires a in f.procs && f.procs[a].Posting? && r !in f.s.work.submissions && fate != RequestLost
    requires DoSubmitCheck(f.s, r, a, f.procs[a].job, f.procs[a].body).reply == Suspended
    ensures
      var act := if fate == HandlerFails then FailPost(r) else CommitPost(r, fate == Delivered);
      AttemptRan(f, Do(Do(f, SendPost(a, r, fate != AnswerLost)), act), a, r, fate)
  {
    var f1 := Do(f, SendPost(a, r, fate != AnswerLost));
    var act := if fate == HandlerFails then FailPost(r) else CommitPost(r, fate == Delivered);
    PassedCheck(f, a, r, fate != AnswerLost);
    EndOfHandling(f1, a, r, act);
    PassedRan(f, Do(f1, act), a, r, fate);
  }

  lemma AttemptRuns(f: System, a: AgentId, r: RequestId, fate: Fate)
    requires a in f.procs && f.procs[a].Posting? && r !in f.s.work.submissions
    ensures AttemptRan(f, RunActs(f, AttemptActs(f, a, r, fate)), a, r, fate)
  {
    var acts := AttemptActs(f, a, r, fate);
    if fate == RequestLost {
      OneAct(f, acts[0]);
      LostAttemptRuns(f, a, r);
    } else if DoSubmitCheck(f.s, r, a, f.procs[a].job, f.procs[a].body).reply != Suspended {
      OneAct(f, acts[0]);
      RefusedAttemptRuns(f, a, r, fate);
    } else {
      TwoActs(f, acts[0], acts[1]);
      PassedAttemptRuns(f, a, r, fate);
    }
  }

  function Silent(fates: seq<Fate>): seq<Delivery> {
    seq(|fates|, i requires 0 <= i < |fates| => Delivery(fates[i], [], []))
  }

  /** The acts of attempts n, n + 1, ... while nobody else acts. */
  function PostingActs(f: System, a: AgentId, r: RequestId, fates: seq<Fate>, n: nat): seq<Act>
    decreases 3 - n
  {
    if n >= 3 || a !in f.procs || !f.procs[a].Posting? then []
    else
      var now := AttemptActs(f, a, r, Nth(Silent(fates), n).fate);
      now + PostingActs(RunActs(f, now), a, r, fates, n + 1)
  }

  /** How a posting process ends. */
  function AfterPosting(verdict: Verdict): Process {
    if verdict == Exited then Stopped else Ready
  }

  ghost predicate PostingRan(f: System, f': System, a: AgentId, r: RequestId, fates: seq<Fate>, n: nat)
    requires a in f.procs && f.procs[a].Posting?
  {
    var proc, ds := f.procs[a], Silent(fates);
    && f'.s == Run(f.s, PostingSteps(f.s, r, a, proc.job, proc.body, ds, n))
    && f'.procs == f.procs[a := AfterPosting(PostingVerdict(f.s, r, a, proc.job, proc.body, ds, n))]
  }

  /** One attempt and then the rest. */
  lemma PostingRanFirst(f: System, f1: System, f': System, a: AgentId, r: RequestId, fates: seq<Fate>, n: nat)
    requires a in f.procs && f.procs[a].Posting? && f.procs[a].attempt == n + 1 && n < 3
    requires AttemptRan(f, f1, a, r, Nth(Silent(fates), n).fate)
    requires a in f1.procs && if f1.procs[a].Posting? then PostingRan(f1, f', a, r, fates, n + 1) else f' == f1
    ensures PostingRan(f, f', a, r, fates, n)
  {
    FirstOfRest(f.s, r, a, f.procs[a].job, f.procs[a].body, Silent(fates), n);
  }

  /** A posting process of the fleet takes the steps of post_result, and ends as its verdict says. */
  lemma {:induction false} PostingRuns(f: System, a: AgentId, r: RequestId, fates: seq<Fate>, n: nat)
    requires a in f.procs && f.procs[a].Posting? && f.procs[a].attempt == n + 1 && n < 3
    requires r !in f.s.work.submissions
    ensures PostingRan(f, RunActs(f, PostingActs(f, a, r, fates, n)), a, r, fates, n)
    decreases 3 - n
  {
    var proc, d := f.procs[a], Nth(Silent(fates), n);
    var now := AttemptActs(f, a, r, d.fate);
    var f1 := RunActs(f, now);
    AttemptRuns(f, a, r, d.fate);
    AttemptTally(f.s, r, a, proc.job, proc.body, d);
    RunActsConcat(f, now, PostingActs(f1, a, r, fates, n + 1));
    if f1.procs[a].Posting? {
      PostingRuns(f1, a, r, fates, n + 1);
    }
    PostingRanFirst(f, f1, RunActs(f, PostingActs(f, a, r, fates, n)), a, r, fates, n);
  }

  // ---- From an idle agent and a pending job to the row that is read ----

  /** Job j is an oldest pending job of agent a's tenant. */
  ghost predicate NextFor(s: State, a: AgentId, j: JobId) {
    && MayCall(s, a) && j in s.db.jobs && Waits(s.db.jobs[j], s.db.agents[a].tenant)
    && forall k <- s.db.jobs ::
         Waits(s.db.jobs[k], s.db.agents[a].tenant) ==> s.db.jobs[j].createdAt <= s.db.jobs[k].createdAt
  }

  /** The poll, its first probe and the claim, at one moment. */
  lemma PollToClaim(s: State, a: AgentId, p: PollId, j: JobId)
    requires NextFor(s, a, j) && p !in s.work.polls
    ensures
      var s1 := Next(s, OpenPoll(p, a, 25));
      var s2 := Next(s1, BeginProbe(p));
      var o, was := Handle(s2, ProbeTransaction(p, j)), s.db.jobs[j];
      && p in s1.work.polls && s1.work.polls[p].agent == a && Handle(s1, BeginProbe(p)).reply == Suspended
      && p in s2.work.polls && s2.work.polls[p].agent == a
      && o.reply == Granted(j, was.dashboard, was.sql, was.timeoutMs)
      && o.state.clock == s.clock && o.state.work == s.work && o.state.db == s.db.(jobs := o.state.db.jobs)
      && o.state.db.jobs - {j} == s.db.jobs - {j} && j in o.state.db.jobs
      && o.state.db.jobs[j] == was.(status := Running, claimedBy := Some(a), claimedAt := Some(s.clock))
  {
    var s1 := Next(s, OpenPoll(p, a, 25));
    var s2 := Next(s1, BeginProbe(p));
    OpenPollEffect(s, p, a, 25);
    BeginProbeEffect(s1, p);
    ClaimEffect(s2, p, j);
    assert s2.work.polls - {p} == s.work.polls;
  }

  /** The agent has just been handed job j and starts on it. */
  ghost predicate StartedOn(f: System, f': System, a: AgentId, j: JobId)
    requires j in f.s.db.jobs
  {
    var was := f.s.db.jobs[j];
    && f'.s.clock == f.s.clock && f'.s.work == f.s.work && f'.s.db == f.s.db.(jobs := f'.s.db.jobs)
    && f'.s.db.jobs - {j} == f.s.db.jobs - {j} && j in f'.s.db.jobs
    && f'.s.db.jobs[j] == was.(status := Running, claimedBy := Some(a), claimedAt := Some(f.s.clock))
    && was.timeoutMs >= 0 && f'.procs == f.procs[a := Executing(j, was.sql, was.timeoutMs, f.s.clock)]
    && f'.log == f.log && f'.posts == f.posts && f'.starts == f.starts
  }

  lemma SendPollAct(f: System, a: AgentId, p: PollId)
    requires MayCall(f.s, a) && p !in f.s.work.polls && a in f.procs && f.procs[a].Ready?
    ensures
      Do(f, SendPoll(a, p, 25, true)) == f.(s := Next(f.s, OpenPoll(p, a, 25)), procs := f.procs[a := Waiting(p)])
  {
    OneFrame(f, SendPoll(a, p, 25, true), OpenPoll(p, a, 25));
  }

  lemma ProbeAct(f: System, p: PollId)
    requires p in f.s.work.polls && Handle(f.s, BeginProbe(p)).reply == Suspended
    ensures Do(f, Probe(p)) == f.(s := Next(f.s, BeginProbe(p)))
  {
    OneFrame(f, Probe(p), BeginProbe(p));
  }

  lemma TransactAct(f: System, a: AgentId, p: PollId, j: JobId)
    requires p in f.s.work.polls && f.s.work.polls[p].agent == a && a in f.procs && f.procs[a] == Waiting(p)
    requires Handle(f.s, ProbeTransaction(p, j)).reply.Granted?
    requires Handle(f.s, ProbeTransaction(p, j)).reply.timeoutMs >= 0
    ensures
      var o := Handle(f.s, ProbeTransaction(p, j));
      Do(f, Transact(p, j))
      == f.(s := o.state, procs := f.procs[a := Answered(o.reply.job, o.reply.sql, o.reply.timeoutMs)])
  {
    OneFrame(f, Transact(p, j), ProbeTransaction(p, j));
  }

  lemma StartsOn(f: System, a: AgentId, p: PollId, j: JobId)
    requires NextFor(f.s, a, j) && p !in f.s.work.polls && f.s.db.jobs[j].timeoutMs >= 0
    requires a in f.procs && f.procs[a].Ready?
    ensures StartedOn(f, Do(Do(Do(Do(f, SendPoll(a, p, 25, true)), Probe(p)), Transact(p, j)), Receive(a)), a, j)
  {
    PollToClaim(f.s, a, p, j);
    SendPollAct(f, a, p);
    var f1 := f.(s := Next(f.s, OpenPoll(p, a, 25)), procs := f.procs[a := Waiting(p)]);
    ProbeAct(f1, p);
    var f2 := f1.(s := Next(f1.s, BeginProbe(p)));
    TransactAct(f2, a, p, j);
    LocalFrame(Do(f2, Transact(p, j)), Receive(a));
  }

  /** The query takes some time, and the post passes its guards and is committed. */
  lemma FinishesWith(f: System, a: AgentId, r: RequestId, j: JobId, elapsed: nat, query: Query)
    requires a in f.procs && f.procs[a].Executing? && f.procs[a].job == j && f.procs[a].start == f.s.clock
    requires elapsed > 0 && r !in f.s.work.submissions
    requires MayCall(f.s, a) && OwnJob(f.s, a, j) && !InSomeRow(f.s, j)
    ensures
      var f1 := Do(Do(f, Platform(Advance(elapsed))), Finish(a, query));
      && f1 == f.(s := f.s.(clock := f.s.clock + elapsed),
                  procs := f.procs[a := Posting(j, f.s.clock, ProgramBody(query, f.procs[a].timeoutMs), 1)])
      && DoSubmitCheck(f1.s, r, a, j, ProgramBody(query, f.procs[a].timeoutMs)).reply == Suspended
  {
    PlatformAct(f, Advance(elapsed));
    var f0 := f.(s := f.s.(clock := f.s.clock + elapsed));
    LocalFrame(f0, Finish(a, query));
    assert InSomeRow(f0.s, j) == InSomeRow(f.s, j);
    GuardsAnswer(f0.s, r, a, j, ProgramBody(query, f.procs[a].timeoutMs));
  }

  /** The tables after a post of this body for job j: its row and its status, and nothing else. */
  ghost predicate RowWritten(s: State, s': State, a: AgentId, j: JobId, body: Body)
    requires j in s.db.jobs
  {
    var d := s.db.jobs[j].dashboard;
    && s'.clock == s.clock && s'.work == s.work
    && s'.db == s.db.(jobs := s'.db.jobs, results := s'.db.results)
    && s'.db.jobs - {j} == s.db.jobs - {j} && s'.db.results - {d} == s.db.results - {d}
    && j in s'.db.jobs && s'.db.jobs[j] == s.db.jobs[j].(status := if body.success then Done else Failed)
    && d in s'.db.results && s'.db.results[d].job == j && s'.db.results[d].body == body
    && s'.db.results[d].recordedAt == s.clock
  }

  lemma CheckAndCommit(s: State, r: RequestId, a: AgentId, j: JobId, body: Body)
    requires r !in s.work.submissions && DoSubmitCheck(s, r, a, j, body).reply == Suspended
    ensures j in s.db.jobs
    ensures RowWritten(s, Next(Next(s, SubmitCheck(r, a, j, body)), SubmitCommit(r)), a, j, body)
  {
    CheckEffect(s, r, a, j, body);
    var s1 := Next(s, SubmitCheck(r, a, j, body));
    SubmitCommitEffect(s1, r);
    assert s1.work.submissions - {r} == s.work.submissions;
  }

  lemma PostsAndCommits(f: System, a: AgentId, r: RequestId)
    requires a in f.procs && f.procs[a].Posting? && r !in f.s.work.submissions
    requires DoSubmitCheck(f.s, r, a, f.procs[a].job, f.procs[a].body).reply == Suspended
    ensures
      var proc, f' := f.procs[a], Do(Do(f, SendPost(a, r, true)), CommitPost(r, true));
      var db := f.s.db;
      && proc.job in f.s.db.jobs && a in f.s.db.agents
      && f'.s == Next(Next(f.s, SubmitCheck(r, a, proc.job, proc.body)), SubmitCommit(r))
      && f'.procs == f.procs[a := Ready]
      && f'.posts == f.posts + [Post(proc.job, db.jobs[proc.job].dashboard, db.agents[a].tenant, proc.start, f.s.clock)]
  {
    var proc := f.procs[a];
    PassedCheck(f, a, r, true);
    SendPostEffect(f, SendPost(a, r, true));
    CheckEffect(f.s, r, a, proc.job, proc.body);
    EndOfHandling(Do(f, SendPost(a, r, true)), a, r, CommitPost(r, true));
  }

  /** The acts that serve job j: poll, claim, execute for a while, post. */
  function ServingActs(a: AgentId, p: PollId, j: JobId, elapsed: nat, query: Query, r: RequestId): seq<Act> {
    [SendPoll(a, p, 25, true), Probe(p), Transact(p, j), Receive(a)]
    + [Platform(Advance(elapsed)), Finish(a, query), SendPost(a, r, true), CommitPost(r, true)]
  }

  /** Job j has been served, with this outcome of its query, and nothing else has changed. */
  ghost predicate ServedBy(f: System, f': System, a: AgentId, j: JobId, elapsed: nat, query: Query)
    requires j in f.s.db.jobs && a in f.s.db.agents
  {
    var d, db, db' := f.s.db.jobs[j].dashboard, f.s.db, f'.s.db;
    && f'.s.clock == f.s.clock + elapsed && f'.s.work == f.s.work && f'.procs == f.procs
    && db' == db.(jobs := db'.jobs, results := db'.results)
    && db'.jobs - {j} == db.jobs - {j} && db'.results - {d} == db.results - {d}
    && j in db'.jobs && db'.jobs[j].claimedBy == Some(a) && db'.jobs[j].claimedAt == Some(f.s.clock)
    && db'.jobs[j].status == (if query.Fetched? && query.elapsedMs <= 30000 then Done else Failed)
    && d in db'.results && db'.results[d].job == j && db'.results[d].recordedAt == f'.s.clock
    && Reports(db'.results[d].body, query, 30000)
    && f'.posts == f.posts + [Post(j, d, f.s.db.agents[a].tenant, f.s.clock, f'.s.clock)]
  }

  /** The second half: from execution to the row. */
  lemma ServesExecuting(f: System, a: AgentId, j: JobId, elapsed: nat, query: Query, r: RequestId)
    requires a in f.procs && f.procs[a].Executing? && f.procs[a].job == j && f.procs[a].start == f.s.clock
    requires f.procs[a].timeoutMs == 30000 && elapsed > 0 && r !in f.s.work.submissions
    requires MayCall(f.s, a) && OwnJob(f.s, a, j) && !InSomeRow(f.s, j)
    ensures
      var f1 := Do(Do(f, Platform(Advance(elapsed))), Finish(a, query));
      var f' := Do(Do(f1, SendPost(a, r, true)), CommitPost(r, true));
      var body := ProgramBody(query, 30000);
      && RowWritten(f.s.(clock := f.s.clock + elapsed), f'.s, a, j, body) && f'.procs == f.procs[a := Ready]
      && f'.posts == f.posts + [Post(j, f.s.db.jobs[j].dashboard, f.s.db.agents[a].tenant, f.s.clock, f'.s.clock)]
  {
    FinishesWith(f, a, r, j, elapsed, query);
    var f1 := Do(Do(f, Platform(Advance(elapsed))), Finish(a, query));
    PostsAndCommits(f1, a, r);
    CheckAndCommit(f1.s, r, a, j, f1.procs[a].body);
  }

  /** A pending job shows in no row. */
  lemma PendingUnrecorded(s: State, j: JobId)
    requires Inv(s) && j in s.db.jobs && s.db.jobs[j].status == Pending
    ensures !InSomeRow(s, j) && s.db.jobs[j].timeoutMs == 30000
  {
    forall d <- s.db.results ensures s.db.results[d].job != j {
      assert ResultOK(s.db.results[d], d, s.db.jobs);
    }
    assert CopiesDashboard(s.db.jobs[j], s.db.dashboards);
  }

  /**
    Whatever has happened before, an idle agent that is enrolled and not revoked can serve an oldest
    pending job of its tenant: it is handed that job, runs its query, and the dashboard then shows
    what the query brought, under a done or failed job.
   */
  lemma AlwaysServable(
    clock: Time, acts: seq<Act>, a: AgentId, p: PollId, j: JobId, elapsed: nat, query: Query, r: RequestId)
    requires
      var f := RunActs(Start(clock), acts);
      && a in f.procs && f.procs[a].Ready? && NextFor(f.s, a, j)
      && p !in f.s.work.polls && r !in f.s.work.submissions && elapsed > 0
    ensures
      ServedBy(RunActs(Start(clock), acts), RunActs(Start(clock), acts + ServingActs(a, p, j, elapsed, query, r)),
               a, j, elapsed, query)
  {
    var f := RunActs(Start(clock), acts);
    StartGood(clock);
    AlwaysGood(Start(clock), acts);
    RunActsConcat(Start(clock), acts, ServingActs(a, p, j, elapsed, query, r));
    Serves(f, a, p, j, elapsed, query, r);
  }

  lemma Serves(f: System, a: AgentId, p: PollId, j: JobId, elapsed: nat, query: Query, r: RequestId)
    requires Inv(f.s) && a in f.procs && f.procs[a].Ready? && NextFor(f.s, a, j)
    requires p !in f.s.work.polls && r !in f.s.work.submissions && elapsed > 0
    ensures ServedBy(f, RunActs(f, ServingActs(a, p, j, elapsed, query, r)), a, j, elapsed, query)
  {
    var first := [SendPoll(a, p, 25, true), Probe(p), Transact(p, j), Receive(a)];
    var f1 := RunActs(f, first);
    RunActsConcat(f, first, [Platform(Advance(elapsed)), Finish(a, query), SendPost(a, r, true), CommitPost(r, true)]);
    FourActs(f, SendPoll(a, p, 25, true), Probe(p), Transact(p, j), Receive(a));
    FourActs(f1, Platform(Advance(elapsed)), Finish(a, query), SendPost(a, r, true), CommitPost(r, true));
    PendingUnrecorded(f.s, j);
    StartsOn(f, a, p, j);
    assert InSomeRow(f1.s, j) == InSomeRow(f.s, j);
    ServesExecuting(f1, a, j, elapsed, query, r);
    ProgramBodyReports(query, 30000);
    Together(f, f1, RunActs(f, ServingActs(a, p, j, elapsed, query, r)), a, j, elapsed, query);
  }

  lemma Together(f: System, f1: System, f': System, a: AgentId, j: JobId, elapsed: nat, query: Query)
    requires j in f.s.db.jobs && a in f.s.db.agents && a in f.procs && f.procs[a].Ready?
    requires StartedOn(f, f1, a, j)
    requires RowWritten(f1.s.(clock := f1.s.clock + elapsed), f'.s, a, j, ProgramBody(query, 30000))
    requires f'.procs == f1.procs[a := Ready] && Reports(ProgramBody(query, 30000), query, 30000)
    requires f'.posts ==
             f1.posts + [Post(j, f1.s.db.jobs[j].dashboard, f.s.db.agents[a].tenant, f1.s.clock, f'.s.clock)]
    ensures ServedBy(f, f', a, j, elapsed, query)
  {}

  // ---- The other ways a turn can end ----

  /** What each act makes of the process it concerns when things do not go smoothly. */
  lemma Setbacks(f: System, act: Act)
    requires Enabled(f, act)
    ensures
      var f' := Do(f, act);
      match act
      case Enrol(_, t, a, delivered) =>
        && a in f'.s.db.agents && f'.s.db.agents[a].tenant == t && f'.s.db.agents[a].revokedAt == None
        && f'.procs == f.procs[a := if delivered then Ready else Stopped]
      case SendPoll(a, _, _, delivered) =>
        !MayCall(f.s, a) ==> f'.s == f.s && f'.procs == f.procs[a := if delivered then Stopped else Ready]
      case LoseAnswer(a) => f'.s == f.s && f'.procs == f.procs[a := Ready]
      case Crash(a) => f'.s == f.s && f'.procs == f.procs[a := Stopped]
      case FailPoll(p) =>
        var a := f.s.work.polls[p].agent;
        a in f.procs && f.procs[a] == Waiting(p) ==> f'.procs == f.procs[a := Ready]
      case Probe(p) =>
        var a := f.s.work.polls[p].agent;
        a in f.procs && f.procs[a] == Waiting(p) && Handle(f.s, BeginProbe(p)).reply == NoContent ==>
          f'.procs == f.procs[a := Ready]
      case _ => true
  {
    match act
    case Enrol(r, t, a, _) => EnrolBoth(f.s, r, t, a);
    case SendPoll(a, p, timeout, _) =>
      OneFrame(f, act, OpenPoll(p, a, timeout));
      OpenPollEffect(f.s, p, a, timeout);
    case LoseAnswer(_) => LocalFrame(f, act);
    case Crash(_) => LocalFrame(f, act);
    case _ =>
  }

  lemma StoppedStays(f: System, act: Act, a: AgentId)
    requires Good(f) && a in f.procs && f.procs[a].Stopped?
    ensures a in Do(f, act).procs && Do(f, act).procs[a].Stopped?
  {}

  /** A process that has exited or crashed never acts again. */
  lemma {:induction false} StoppedForGood(f: System, acts: seq<Act>, a: AgentId)
    requires Good(f) && a in f.procs && f.procs[a].Stopped?
    ensures a in RunActs(f, acts).procs && RunActs(f, acts).procs[a].Stopped?
    decreases acts
  {
    if acts != [] {
      StoppedStays(f, acts[0], a);
      ActGood(f, acts[0]);
      StoppedForGood(Do(f, acts[0]), acts[1..], a);
    }
  }
}
