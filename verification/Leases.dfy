/**
  What became of a lease. Along any run, a claimed job that nobody claims again and that is not
  accepted is back in the queue if and only if some reap expired it. For the agent program, every
  post being handled is for the job its sender claimed last, so the documented order of statuses
  is left exactly when that claim was reaped before the result arrived.
 */
module Leases {
  import opened Tables
  import opened Protocol
  import opened Coherence
  import opened Lifecycle
  import opened LongPoll
  import opened Truncation
  import opened Fleet
  import opened AtMostOnce

  ghost predicate ClaimsTo(s: State, step: Step, a: AgentId, j: JobId) {
    Claims(s, step, j) && s.work.polls[step.poll].agent == a
  }

  /** The state in which the i-th step of the run is taken. */
  function StateAt(s: State, steps: seq<Step>, i: nat): State
    requires i <= |steps|
  {
    Run(s, steps[..i])
  }

  /** Step i of the run claims job j for agent a, and no later step claims it. */
  ghost predicate LastClaimAt(s: State, steps: seq<Step>, i: int, a: AgentId, j: JobId) {
    && 0 <= i < |steps| && ClaimsTo(StateAt(s, steps, i), steps[i], a, j)
    && forall k | i < k < |steps| :: !Claims(StateAt(s, steps, k), steps[k], j)
  }

  /** A step after step i of the run resets job j because its lease has expired. */
  ghost predicate ReapedAfter(s: State, steps: seq<Step>, i: int, j: JobId) {
    exists k :: i < k < |steps| && 0 <= k && Expires(StateAt(s, steps, k), steps[k], j)
  }

  lemma BeforeSnoc(s: State, steps: seq<Step>, step: Step)
    ensures forall k | 0 <= k <= |steps| :: StateAt(s, steps + [step], k) == StateAt(s, steps, k)
    ensures StateAt(s, steps, |steps|) == Run(s, steps)
  {
    forall k | 0 <= k <= |steps| ensures (steps + [step])[..k] == steps[..k] {}
    assert steps[..|steps|] == steps;
  }

  lemma LastClaimSnoc(s: State, steps: seq<Step>, step: Step, i: int, a: AgentId, j: JobId)
    requires 0 <= i < |steps|
    ensures LastClaimAt(s, steps + [step], i, a, j) <==>
            LastClaimAt(s, steps, i, a, j) && !Claims(Run(s, steps), step, j)
    ensures ReapedAfter(s, steps + [step], i, j) <==> ReapedAfter(s, steps, i, j) || Expires(Run(s, steps), step, j)
  {
    BeforeSnoc(s, steps, step);
    var all := steps + [step];
    assert all[|steps|] == step;
    forall k | 0 <= k < |steps| ensures all[k] == steps[k] && StateAt(s, all, k) == StateAt(s, steps, k) {}
    if Expires(Run(s, steps), step, j) {
      assert Expires(StateAt(s, all, |steps|), all[|steps|], j);
    }
    if ReapedAfter(s, steps, i, j) {
      var k :| i < k < |steps| && 0 <= k && Expires(StateAt(s, steps, k), steps[k], j);
      assert Expires(StateAt(s, all, k), all[k], j);
    }
  }

  /** The job as its claim at `before` left it, or pending again if it was reaped since. */
  ghost predicate ClaimFate(job: Job, before: State, a: AgentId, j: JobId, reaped: bool) {
    && j in before.db.jobs && before.db.jobs[j].status == Pending
    && job == if reaped then before.db.jobs[j].(claimedBy := None, claimedAt := None)
              else Claimed(before.db.jobs[j], a, before.clock)
  }

  lemma FateStep(s: State, step: Step, before: State, a: AgentId, j: JobId, reaped: bool)
    requires j in s.db.jobs && ClaimFate(s.db.jobs[j], before, a, j, reaped)
    requires !Claims(s, step, j) && !Next(s, step).db.jobs[j].Terminal()
    ensures ClaimFate(Next(s, step).db.jobs[j], before, a, j, reaped || Expires(s, step, j))
  {
    JobEdge(s, step, j);
  }

  lemma NotYetTerminal(s: State, step: Step, j: JobId)
    requires j in s.db.jobs && j in Next(s, step).db.jobs && !Next(s, step).db.jobs[j].Terminal()
    ensures !s.db.jobs[j].Terminal()
  {
    JobEdge(s, step, j);
  }

  lemma ClaimedExists(s: State, steps: seq<Step>, i: int, a: AgentId, j: JobId)
    requires LastClaimAt(s, steps, i, a, j)
    ensures j in Run(s, steps).db.jobs
  {
    assert steps[..i] + steps[i..] == steps;
    RunConcat(s, steps[..i], steps[i..]);
    JobForever(StateAt(s, steps, i), steps[i..], j);
  }

  /** The job as it stands after its last claim, if it has not been accepted: reaped, or unchanged. */
  lemma {:induction false} LeaseFate(s: State, steps: seq<Step>, i: int, a: AgentId, j: JobId)
    requires LastClaimAt(s, steps, i, a, j)
    requires j in Run(s, steps).db.jobs && !Run(s, steps).db.jobs[j].Terminal()
    ensures ClaimFate(Run(s, steps).db.jobs[j], StateAt(s, steps, i), a, j, ReapedAfter(s, steps, i, j))
    decreases steps
  {
    var past, step := steps[..|steps| - 1], steps[|steps| - 1];
    assert steps == past + [step];
    RunSnoc(s, past, step);
    BeforeSnoc(s, past, step);
    if i == |past| {
      JobEdge(Run(s, past), step, j);
    } else {
      LastClaimSnoc(s, past, step, i, a, j);
      ClaimedExists(s, past, i, a, j);
      NotYetTerminal(Run(s, past), step, j);
      LeaseFate(s, past, i, a, j);
      FateStep(Run(s, past), step, StateAt(s, past, i), a, j, ReapedAfter(s, past, i, j));
    }
  }

  // ---- Agents and leases ----

  ghost predicate ClaimedLast(s: State, steps: seq<Step>, a: AgentId, j: JobId) {
    exists i :: LastClaimAt(s, steps, i, a, j)
  }

  /** An open poll's agent is waiting for it, or died waiting and has no post in flight. */
  ghost predicate AttendedPoll(f: System, p: PollId)
    requires p in f.s.work.polls
  {
    var a := f.s.work.polls[p].agent;
    a in f.procs && (f.procs[a] == Waiting(p) || (f.procs[a].Stopped? && NothingInHand(f.s.work.submissions, a)))
  }

  ghost predicate Attended(f: System) {
    forall p <- f.s.work.polls :: AttendedPoll(f, p)
  }

  /** Whatever job an agent holds, or has in flight, it claimed last; `steps` led from `s` to here. */
  ghost predicate HeldOnLease(f: System, s: State, steps: seq<Step>) {
    && (forall a, j | a in f.procs && f.procs[a].Holds(j) :: ClaimedLast(s, steps, a, j))
    && forall r <- f.s.work.submissions ::
         ClaimedLast(s, steps, f.s.work.submissions[r].agent, f.s.work.submissions[r].job)
  }

  /** The act hands a job to the agent of a poll. */
  ghost predicate Grants(f: System, act: Act) {
    act.Transact? && DoProbeTransaction(f.s, act.poll, act.pick).reply.Granted?
  }

  /** Every act but enrolment runs at most one step. */
  lemma ActStep(f: System, act: Act)
    requires Enabled(f, act) && !act.Enrol?
    ensures
      var steps := Steps(f, act);
      && Do(f, act).s == (if steps == [] then f.s else Next(f.s, steps[0]))
      && |steps| <= 1 && Do(f, act).procs == Procs(f, act)
      && (act.SendPost? ==>
            steps == [SubmitCheck(act.request, act.agent, f.procs[act.agent].job, f.procs[act.agent].body)])
      && (!act.SendPost? && steps != [] ==> !steps[0].SubmitCheck?)
      && (steps != [] && steps[0].OpenPoll? ==>
            act.SendPoll? && steps[0].agent == act.agent && steps[0].poll == act.poll)
      && (steps != [] && steps[0].ProbeTransaction? ==> act == Transact(steps[0].poll, steps[0].pick))
  {
    var steps := Steps(f, act);
    if steps != [] {
      assert steps == [steps[0]];
      RunOne(f.s, steps[0]);
    }
  }

  /** A process comes to hold a job only by being granted it. */
  lemma HoldsEdge(f: System, act: Act, a: AgentId, j: JobId)
    requires Enabled(f, act) && a in Procs(f, act) && Procs(f, act)[a].Holds(j)
    ensures
      || (a in f.procs && f.procs[a].Holds(j))
      || (Grants(f, act) && act.pick == j && a == f.s.work.polls[act.poll].agent)
  {}

  /** No post of agent a comes into flight but by its own sending. */
  lemma StillNothingInHand(f: System, act: Act, a: AgentId)
    requires Enabled(f, act) && !act.Enrol? && NothingInHand(f.s.work.submissions, a)
    requires act.SendPost? ==> act.agent != a
    ensures NothingInHand(Do(f, act).s.work.submissions, a)
  {
    ActStep(f, act);
    forall r <- Do(f, act).s.work.submissions ensures Do(f, act).s.work.submissions[r].agent != a {
      if Steps(f, act) != [] { PostEdge(f.s, Steps(f, act)[0], r); }
    }
  }

  /** The act ends poll p. */
  ghost predicate EndsPoll(f: System, act: Act, p: PollId) {
    || act == FailPoll(p) || (act == Probe(p) && DoBeginProbe(f.s, p).reply == NoContent)
    || (act.Transact? && act.poll == p && DoProbeTransaction(f.s, p, act.pick).reply.Granted?)
  }

  lemma EndedPoll(f: System, act: Act, p: PollId)
    requires Enabled(f, act) && EndsPoll(f, act, p)
    ensures p !in Do(f, act).s.work.polls
  {
    ActStep(f, act);
  }

  /** A process waiting for poll p goes on waiting until p ends, unless it dies. */
  lemma StillWaiting(f: System, act: Act, a: AgentId, p: PollId)
    requires Enabled(f, act) && !act.Enrol? && a in f.procs
    requires (f.procs[a] == Waiting(p) && !EndsPoll(f, act, p)) || f.procs[a].Stopped?
    ensures a in Procs(f, act) && (Procs(f, act)[a] == f.procs[a] || Procs(f, act)[a].Stopped?)
    ensures act.SendPost? ==> act.agent != a
  {}

  lemma AttendedStep(f: System, act: Act)
    requires Good(f) && Attended(f) && Enabled(f, act) && !act.Enrol?
    ensures Attended(Do(f, act))
  {
    ActStep(f, act);
    var f', steps := Do(f, act), Steps(f, act);
    forall p <- f'.s.work.polls ensures AttendedPoll(f', p) {
      var a := f'.s.work.polls[p].agent;
      if steps != [] { PollEdge(f.s, steps[0], p); }
      if p in f.s.work.polls {
        assert AttendedPoll(f, p);
        if EndsPoll(f, act, p) { EndedPoll(f, act, p); }
        StillWaiting(f, act, a, p);
        if f.procs[a] == Waiting(p) { InHand(f.s.work.submissions, f.procs, f.s.db.jobs, a); }
        StillNothingInHand(f, act, a);
      }
    }
  }

  lemma AttendedEnrol(f: System, act: Act)
    requires Good(f) && Attended(f) && Enabled(f, act) && act.Enrol?
    ensures Attended(Do(f, act))
  {
    EnrolBoth(f.s, act.request, act.tenant, act.agent);
  }

  lemma LeasedSnoc(s: State, steps: seq<Step>, step: Step, a: AgentId, j: JobId)
    ensures ClaimedLast(s, steps, a, j) && !Claims(Run(s, steps), step, j) ==> ClaimedLast(s, steps + [step], a, j)
    ensures ClaimsTo(Run(s, steps), step, a, j) ==> ClaimedLast(s, steps + [step], a, j)
  {
    if ClaimedLast(s, steps, a, j) && !Claims(Run(s, steps), step, j) {
      var i :| LastClaimAt(s, steps, i, a, j);
      LastClaimSnoc(s, steps, step, i, a, j);
    } else if ClaimsTo(Run(s, steps), step, a, j) {
      BeforeSnoc(s, steps, step);
      assert LastClaimAt(s, steps + [step], |steps|, a, j);
    }
  }

  /** A job being granted is held by no one and in nobody's flight. */
  lemma GrantedIsFree(f: System, act: Act)
    requires Good(f) && Attended(f) && Enabled(f, act) && Grants(f, act)
    ensures forall a <- f.procs :: !f.procs[a].Holds(act.pick)
    ensures forall r <- f.s.work.submissions :: f.s.work.submissions[r].job != act.pick
  {
    PollOwner(f, act.poll);
    forall a <- f.procs ensures !f.procs[a].Holds(act.pick) { HeldNow(f, a); }
    forall r <- f.s.work.submissions ensures f.s.work.submissions[r].job != act.pick {
      assert HandledOK(r, f.s.work.submissions[r], f.procs, f.s.db.jobs);
      assert SubmissionOK(f.s.work.submissions[r], f.s.db.jobs, f.s.db.agents);
    }
  }

  lemma HeldOnLeaseStep(f: System, act: Act, s: State, steps: seq<Step>)
    requires Good(f) && Attended(f) && HeldOnLease(f, s, steps) && Run(s, steps) == f.s
    requires Enabled(f, act) && !act.Enrol?
    ensures HeldOnLease(Do(f, act), s, steps + Steps(f, act))
  {
    ActStep(f, act);
    var f', now := Do(f, act), Steps(f, act);
    if Grants(f, act) { GrantedIsFree(f, act); }
    forall a, j ensures a in f.procs && f.procs[a].Holds(j) ==> ClaimedLast(s, steps + now, a, j)
                ensures now != [] && ClaimsTo(f.s, now[0], a, j) ==> ClaimedLast(s, steps + now, a, j)
    {
      Extend(s, steps, now, a, j);
    }
    forall a, j | a in f'.procs && f'.procs[a].Holds(j) ensures ClaimedLast(s, steps + now, a, j) {
      HoldsEdge(f, act, a, j);
    }
    forall r <- f'.s.work.submissions
      ensures ClaimedLast(s, steps + now, f'.s.work.submissions[r].agent, f'.s.work.submissions[r].job)
    {
      if now != [] { PostEdge(f.s, now[0], r); }
      Extend(s, steps, now, f'.s.work.submissions[r].agent, f'.s.work.submissions[r].job);
    }
  }

  lemma Extend(s: State, steps: seq<Step>, now: seq<Step>, a: AgentId, j: JobId)
    requires |now| <= 1
    ensures ClaimedLast(s, steps, a, j) && (now == [] || !Claims(Run(s, steps), now[0], j)) ==>
              ClaimedLast(s, steps + now, a, j)
    ensures now != [] && ClaimsTo(Run(s, steps), now[0], a, j) ==> ClaimedLast(s, steps + now, a, j)
  {
    if now == [] {
      assert steps + now == steps;
    } else {
      assert now == [now[0]];
      LeasedSnoc(s, steps, now[0], a, j);
    }
  }

  lemma HeldOnLeaseEnrol(f: System, act: Act, s: State, steps: seq<Step>)
    requires Good(f) && HeldOnLease(f, s, steps) && Run(s, steps) == f.s
    requires Enabled(f, act) && act.Enrol?
    ensures HeldOnLease(Do(f, act), s, steps + Steps(f, act))
  {
    var first, second := EnrolLookup(act.request, act.tenant), EnrolCommit(act.request, act.agent);
    EnrolBoth(f.s, act.request, act.tenant, act.agent);
    assert steps + Steps(f, act) == steps + [first] + [second];
    forall a, j | ClaimedLast(s, steps, a, j) ensures ClaimedLast(s, steps + Steps(f, act), a, j) {
      LeasedSnoc(s, steps, first, a, j);
      LeasedSnoc(s, steps + [first], second, a, j);
    }
  }

  /** The invariant of this module; `steps` led from `s` to the system's server state. */
  ghost predicate OnLease(f: System, s: State, steps: seq<Step>) {
    Good(f) && Attended(f) && HeldOnLease(f, s, steps) && Run(s, steps) == f.s
  }

  lemma OnLeaseStep(f: System, act: Act, s: State, steps: seq<Step>)
    requires OnLease(f, s, steps)
    ensures OnLease(Do(f, act), s, steps + ActSteps(f, act))
  {
    if Enabled(f, act) {
      ActGood(f, act);
      RunConcat(s, steps, Steps(f, act));
      if act.Enrol? {
        AttendedEnrol(f, act);
        HeldOnLeaseEnrol(f, act, s, steps);
      } else {
        AttendedStep(f, act);
        HeldOnLeaseStep(f, act, s, steps);
      }
    } else {
      assert steps + ActSteps(f, act) == steps;
    }
  }

  lemma {:induction false} OnLeaseAlways(f: System, acts: seq<Act>, s: State, steps: seq<Step>)
    requires OnLease(f, s, steps)
    ensures OnLease(RunActs(f, acts), s, steps + ServerSteps(f, acts))
    decreases acts
  {
    if acts == [] {
      assert steps + [] == steps;
    } else {
      OnLeaseStep(f, acts[0], s, steps);
      OnLeaseAlways(Do(f, acts[0]), acts[1..], s, steps + ActSteps(f, acts[0]));
      Regroup(steps, ActSteps(f, acts[0]), ServerSteps(Do(f, acts[0]), acts[1..]));
    }
  }

  lemma Regroup(a: seq<Step>, b: seq<Step>, c: seq<Step>)
    ensures a + b + c == a + (b + c)
  {}

  /**
    What an accepted post of the agent program finds, over every run: the sender claimed the job
    earlier, nobody has claimed it since, and it is still running on that claim if no reap expired
    it, back in the queue if one did.
   */
  lemma AcceptedFromLease(clock: Time, acts: seq<Act>, r: RequestId)
    requires r in RunActs(Start(clock), acts).s.work.submissions
    ensures
      var f, s, steps := RunActs(Start(clock), acts), Init(clock), ServerSteps(Start(clock), acts);
      var sub := f.s.work.submissions[r];
      && f.s == Run(s, steps) && Accepts(f.s, SubmitCommit(r), sub.job)
      && exists i :: LastClaimAt(s, steps, i, sub.agent, sub.job) && FollowsLease(s, steps, i, sub.agent, sub.job)
  {
    var f, s, steps := RunActs(Start(clock), acts), Init(clock), ServerSteps(Start(clock), acts);
    StartGood(clock);
    OnLeaseAlways(Start(clock), acts, s, []);
    assert [] + steps == steps;
    var sub := f.s.work.submissions[r];
    assert HandledOK(r, sub, f.procs, f.s.db.jobs);
    var i :| LastClaimAt(s, steps, i, sub.agent, sub.job);
    LeaseFate(s, steps, i, sub.agent, sub.job);
  }

  /** After the run, job j is as its claim at step i left it, or it was reaped since and is pending. */
  ghost predicate FollowsLease(s: State, steps: seq<Step>, i: nat, a: AgentId, j: JobId)
    requires i <= |steps|
  {
    && j in Run(s, steps).db.jobs
    && var job := Run(s, steps).db.jobs[j];
       && (job.status == Pending <==> ReapedAfter(s, steps, i, j))
       && (job.status == Running <==> !ReapedAfter(s, steps, i, j))
       && (job.status == Running ==> job.claimedBy == Some(a) && job.claimedAt == Some(StateAt(s, steps, i).clock))
  }

  // ---- A run in which the lease does not last ----

  const ENQUEUING := [Platform(CreateTenant(1, "t")), Enrol(1, 1, 1, true),
                      Platform(CreateDashboard(1, 1, "d", "q", 5)), Platform(TickUpdate(0)),
                      Platform(TickInsert(0, 1, 1))]

  const CLAIMING := [SendPoll(1, 1, 25, true), Probe(1), Transact(1, 1), Receive(1)]

  /** The query takes longer than the lease, and the reaper comes first. */
  function Overrunning(query: Query): seq<Act> {
    [Platform(Advance(41_000_000)), Platform(Reap(41_000_000)), Finish(1, query), SendPost(1, 1, true)]
  }

  /** One agent with nothing to do, and one pending job. */
  ghost predicate OneJobQueued(f: System) {
    && f.s.clock == 0 && f.procs == map[1 := Ready] && f.s.work.polls == map[] && f.s.work.submissions == map[]
    && f.s.db.agents == map[1 := Agent(1, 0, None)] && f.s.db.results == map[]
    && f.s.db.jobs == map[1 := NewJob(1, Due(1, "q", 0))]
  }

  /** One agent, and nothing else yet. */
  ghost predicate OneAgentReady(f: System) {
    && f.s.clock == 0 && f.procs == map[1 := Ready] && f.s.work == Init(0).work
    && 1 in f.s.db.tenants && f.s.db.agents == map[1 := Agent(1, 0, None)]
    && f.s.db.dashboards == map[] && f.s.db.jobs == map[] && f.s.db.results == map[]
  }

  lemma AgentReached()
    ensures OneAgentReady(Do(Do(Start(0), ENQUEUING[0]), ENQUEUING[1]))
  {
    PlatformAct(Start(0), CreateTenant(1, "t"));
    EnrolBoth(Do(Start(0), ENQUEUING[0]).s, 1, 1, 1);
  }

  /** One dashboard is created at time 0, and its first slot yields one job. */
  lemma JobInserted(s: State)
    requires s.clock == 0 && s.work == Init(0).work
    requires 1 in s.db.tenants && s.db.dashboards == map[] && s.db.jobs == map[]
    ensures
      var s' := Next(Next(Next(s, CreateDashboard(1, 1, "d", "q", 5)), TickUpdate(0)), TickInsert(0, 1, 1));
      && s'.clock == 0 && s'.work.polls == map[] && s'.work.submissions == map[]
      && s'.db.agents == s.db.agents && s'.db.results == s.db.results
      && s'.db.jobs == map[1 := NewJob(1, Due(1, "q", 0))]
  {
    var s1 := Next(s, CreateDashboard(1, 1, "d", "q", 5));
    var s2 := Next(s1, TickUpdate(0));
    assert s1.db.dashboards == map[1 := Dashboard(1, "d", "q", 5, 0, 0)];
    assert Owes(s2, 0, 1) && s2.work.owed[0][1] == Due(1, "q", 0);
  }

  lemma JobReached(f: System)
    requires OneAgentReady(f)
    ensures OneJobQueued(Do(Do(Do(f, ENQUEUING[2]), ENQUEUING[3]), ENQUEUING[4]))
  {
    var s1 := Next(f.s, CreateDashboard(1, 1, "d", "q", 5));
    PlatformAct(f, CreateDashboard(1, 1, "d", "q", 5));
    PlatformAct(f.(s := s1), TickUpdate(0));
    PlatformAct(f.(s := Next(s1, TickUpdate(0))), TickInsert(0, 1, 1));
    JobInserted(f.s);
  }

  lemma QueuedReached()
    ensures OneJobQueued(RunActs(Start(0), ENQUEUING))
  {
    RunActsCons(Start(0), ENQUEUING[0], ENQUEUING[1..]);
    FourActs(Do(Start(0), ENQUEUING[0]), ENQUEUING[1], ENQUEUING[2], ENQUEUING[3], ENQUEUING[4]);
    assert [ENQUEUING[0]] + ENQUEUING[1..] == ENQUEUING;
    assert ENQUEUING[1..] == [ENQUEUING[1], ENQUEUING[2], ENQUEUING[3], ENQUEUING[4]];
    AgentReached();
    JobReached(Do(Do(Start(0), ENQUEUING[0]), ENQUEUING[1]));
  }

  ghost predicate OneJobExecuting(f: System) {
    && f.s.clock == 0 && f.procs == map[1 := Executing(1, "q", 30000, 0)]
    && f.s.db.agents == map[1 := Agent(1, 0, None)] && f.s.db.results == map[] && f.s.work.submissions == map[]
    && f.s.db.jobs == map[1 := Claimed(NewJob(1, Due(1, "q", 0)), 1, 0)]
  }

  /** The job's agent is probing for it. */
  ghost predicate OneJobSought(f: System) {
    && f.s.clock == 0 && f.procs == map[1 := Waiting(1)] && f.s.work.submissions == map[]
    && 1 in f.s.work.polls && f.s.work.polls[1].phase.Probing?
    && f.s.work.polls[1].agent == 1 && f.s.work.polls[1].tenant == 1
    && f.s.db.agents == map[1 := Agent(1, 0, None)] && f.s.db.results == map[]
    && f.s.db.jobs == map[1 := NewJob(1, Due(1, "q", 0))]
  }

  lemma SoughtReached(f: System)
    requires OneJobQueued(f)
    ensures OneJobSought(Do(Do(f, CLAIMING[0]), CLAIMING[1]))
  {
    OneFrame(f, CLAIMING[0], OpenPoll(1, 1, 25));
    var f1 := Do(f, CLAIMING[0]);
    assert f1.s == DoOpenPoll(f.s, 1, 1, 25).state;
    OneFrame(f1, CLAIMING[1], BeginProbe(1));
  }

  lemma ClaimReached(f: System)
    requires OneJobSought(f)
    ensures OneJobExecuting(Do(Do(f, CLAIMING[2]), CLAIMING[3]))
  {
    assert PendingFor(f.s.db.jobs[1], 1) && OldestPending(f.s.db.jobs, 1, 1);
    OneFrame(f, CLAIMING[2], ProbeTransaction(1, 1));
    LocalFrame(Do(f, CLAIMING[2]), CLAIMING[3]);
  }

  lemma ExecutingReached(f: System)
    requires OneJobQueued(f)
    ensures OneJobExecuting(RunActs(f, CLAIMING))
  {
    FourActs(f, CLAIMING[0], CLAIMING[1], CLAIMING[2], CLAIMING[3]);
    SoughtReached(f);
    ClaimReached(Do(Do(f, CLAIMING[0]), CLAIMING[1]));
  }

  /** A concrete run of the agent program whose post is in flight for a job that has been reaped. */
  lemma ReapedInFlight(query: Query)
    ensures
      var f := RunActs(Start(0), ENQUEUING + CLAIMING + Overrunning(query));
      && 1 in f.s.work.submissions && f.s.work.submissions[1].job == 1
      && 1 in f.s.db.jobs && f.s.db.jobs[1].status == Pending
  {
    QueuedReached();
    ExecutingReached(RunActs(Start(0), ENQUEUING));
    RunActsConcat(Start(0), ENQUEUING, CLAIMING);
    RunActsConcat(Start(0), ENQUEUING + CLAIMING, Overrunning(query));
    OverrunReached(RunActs(Start(0), ENQUEUING + CLAIMING), query);
  }

  /** Forty-one seconds after its claim the job is reaped. */
  lemma JobReaped(s: State)
    requires s.clock == 0 && s.db.jobs == map[1 := Claimed(NewJob(1, Due(1, "q", 0)), 1, 0)]
    ensures
      var s' := Next(Next(s, Advance(41_000_000)), Reap(41_000_000));
      && s'.clock == 41_000_000 && s'.work == s.work && s'.db.agents == s.db.agents && s'.db.results == s.db.results
      && 1 in s'.db.jobs && s'.db.jobs[1].status == Pending && s'.db.jobs[1].tenant == 1
  {}

  /** The agent finishes its query and posts. */
  lemma PostReached(f: System, query: Query)
    requires f.s.clock == 41_000_000 && f.procs == map[1 := Executing(1, "q", 30000, 0)]
    requires f.s.work.submissions == map[] && f.s.db.results == map[] && f.s.db.agents == map[1 := Agent(1, 0, None)]
    requires 1 in f.s.db.jobs && f.s.db.jobs[1].status == Pending && f.s.db.jobs[1].tenant == 1
    ensures
      var f' := Do(Do(f, Finish(1, query)), SendPost(1, 1, true));
      && 1 in f'.s.work.submissions && f'.s.work.submissions[1].job == 1
      && 1 in f'.s.db.jobs && f'.s.db.jobs[1].status == Pending
  {
    LocalFrame(f, Finish(1, query));
    var f1 := f.(procs := Procs(f, Finish(1, query)));
    SendPostEffect(f1, SendPost(1, 1, true));
    CheckEffect(f1.s, 1, 1, 1, f1.procs[1].body);
  }

  lemma OverrunReached(f: System, query: Query)
    requires OneJobExecuting(f)
    ensures
      var f' := RunActs(f, Overrunning(query));
      && 1 in f'.s.work.submissions && f'.s.work.submissions[1].job == 1
      && 1 in f'.s.db.jobs && f'.s.db.jobs[1].status == Pending
  {
    FourActs(f, Platform(Advance(41_000_000)), Platform(Reap(41_000_000)), Finish(1, query), SendPost(1, 1, true));
    var s1 := Next(f.s, Advance(41_000_000));
    PlatformAct(f, Advance(41_000_000));
    PlatformAct(f.(s := s1), Reap(41_000_000));
    JobReaped(f.s);
    PostReached(f.(s := Next(s1, Reap(41_000_000))), query);
  }
}
