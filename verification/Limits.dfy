/**
  Where the design document promises more than the handlers do. Each failure is shown for every
  state it can start from, beside the exact condition under which the promise is kept.
 */
module Limits {
  import opened Tables
  import opened Protocol
  import opened Coherence
  import opened Lifecycle
  import opened Cache

  // ---- "Rejects duplicate submissions for the same job_id" ----

  /** Agent a may post for job j, and the duplicate check does not recognise it. */
  ghost predicate Postable(s: State, a: AgentId, j: JobId) {
    Authorised(s, a) && j in s.db.jobs && s.db.jobs[j].tenant == s.db.agents[a].tenant && !Recorded(s, j)
  }

  function PostSteps(r: RequestId, a: AgentId, j: JobId, body: Body): seq<Step> {
    [SubmitCheck(r, a, j, body), SubmitCommit(r)]
  }

  /** After a post is accepted, its dashboard's row shows its job and no other. */
  lemma CommitForgets(s: State, r: RequestId)
    requires Inv(s) && r in s.work.submissions
    ensures
      var s', sub := Next(s, SubmitCommit(r)), s.work.submissions[r];
      && Inv(s') && r !in s'.work.submissions && s'.db.agents == s.db.agents && sub.job in s.db.jobs
      && Recorded(s', sub.job)
      && (forall e <- AcceptedBy(s, SubmitCommit(r)) :: e.job == sub.job) && |AcceptedBy(s, SubmitCommit(r))| == 1
      && forall k <- s.db.jobs ::
           && k in s'.db.jobs && SameOrder(s.db.jobs[k], s'.db.jobs[k])
           && (k != sub.job && s.db.jobs[k].dashboard == sub.dashboard ==> !Recorded(s', k))
  {
    var s', sub := Next(s, SubmitCommit(r)), s.work.submissions[r];
    InvStep(s, SubmitCommit(r));
    assert SubmissionOK(sub, s.db.jobs, s.db.agents);
    assert s'.db.results[sub.dashboard].job == sub.job;
    forall k <- s.db.jobs
      ensures k in s'.db.jobs && SameOrder(s.db.jobs[k], s'.db.jobs[k])
      ensures k != sub.job && s.db.jobs[k].dashboard == sub.dashboard ==> !Recorded(s', k)
    {
      JobEdge(s, SubmitCommit(r), k);
      if k != sub.job && s.db.jobs[k].dashboard == sub.dashboard { OnlyRecorded(s', sub.dashboard, sub.job, k); }
    }
  }

  /** One request handled alone: it is accepted, and its dashboard's row forgets the job it showed before. */
  lemma PostAlone(s: State, r: RequestId, a: AgentId, j: JobId, body: Body)
    requires Inv(s) && r !in s.work.submissions && Postable(s, a, j)
    ensures
      var s', log := Run(s, PostSteps(r, a, j, body)), Log(s, PostSteps(r, a, j, body));
      && Inv(s') && r !in s'.work.submissions && |log| == 1 && log[0].job == j
      && Recorded(s', j)
      && forall k | k in s.db.jobs && k != j && s.db.jobs[k].tenant == s.db.agents[a].tenant
                    && s.db.jobs[k].dashboard == s.db.jobs[j].dashboard :: Postable(s', a, k)
  {
    var check, commit := SubmitCheck(r, a, j, body), SubmitCommit(r);
    CheckEffect(s, r, a, j, body);
    InvStep(s, check);
    CommitForgets(Next(s, check), r);
    RunTwo(s, check, commit);
    LogTwo(s, check, commit);
  }

  /** A dashboard's row records one job only. */
  lemma OnlyRecorded(s: State, d: DashboardId, j: JobId, k: JobId)
    requires Inv(s) && d in s.db.results && s.db.results[d].job == j && j != k
    requires k in s.db.jobs && s.db.jobs[k].dashboard == d
    ensures !Recorded(s, k)
  {
    forall e <- s.db.results ensures s.db.results[e].job != k {
      assert ResultOK(s.db.results[e], e, s.db.jobs);
    }
  }

  /** The first job and then the second: both accepted, and the first is postable again. */
  lemma PostBoth(s: State, r: RequestId, a: AgentId, j: JobId, k: JobId, body: Body)
    requires Inv(s) && r !in s.work.submissions && Postable(s, a, j) && Postable(s, a, k)
    requires j != k && s.db.jobs[j].dashboard == s.db.jobs[k].dashboard
    ensures
      var both := PostSteps(r, a, j, body) + PostSteps(r, a, k, body);
      var s', log := Run(s, both), Log(s, both);
      && Inv(s') && r !in s'.work.submissions && Postable(s', a, j)
      && |log| == 2 && log[0].job == j && log[1].job == k
  {
    var first, second := PostSteps(r, a, j, body), PostSteps(r, a, k, body);
    var s1 := Run(s, first);
    PostAlone(s, r, a, j, body);
    PostAgain(s, s1, first, a, j, k);
    PostAlone(s1, r, a, k, body);
    LogConcat(s, first, second);
    RunConcat(s, first, second);
  }

  /**
    The check forgets: whenever two jobs of one dashboard are unrecorded, posting the first, the
    second and the first again, one request at a time, is accepted three times.
   */
  lemma ForgottenDuplicate(s: State, r: RequestId, a: AgentId, j: JobId, k: JobId, body: Body)
    requires Inv(s) && r !in s.work.submissions && Postable(s, a, j) && Postable(s, a, k)
    requires j != k && s.db.jobs[j].dashboard == s.db.jobs[k].dashboard
    ensures
      var log := Log(s, PostSteps(r, a, j, body) + PostSteps(r, a, k, body) + PostSteps(r, a, j, body));
      |log| == 3 && log[0].job == j && log[1].job == k && log[2].job == j
  {
    var both, again := PostSteps(r, a, j, body) + PostSteps(r, a, k, body), PostSteps(r, a, j, body);
    PostBoth(s, r, a, j, k, body);
    PostAlone(Run(s, both), r, a, j, body);
    LogConcat(s, both, again);
  }

  /** The second job is still postable after the first, and then so is the first. */
  lemma PostAgain(s: State, s1: State, steps: seq<Step>, a: AgentId, j: JobId, k: JobId)
    requires Postable(s, a, j) && Postable(s, a, k) && j != k && s.db.jobs[j].dashboard == s.db.jobs[k].dashboard
    requires s1 == Run(s, steps)
    ensures j in s1.db.jobs && k in s1.db.jobs && a in s1.db.agents
    ensures s1.db.jobs[j].tenant == s1.db.agents[a].tenant && s1.db.jobs[j].dashboard == s1.db.jobs[k].dashboard
  {
    JobForever(s, steps, j);
    JobForever(s, steps, k);
    AgentForever(s, steps, a);
  }

  /** One tenant, one agent and one dashboard; then two ticks that insert two jobs. */
  const SETUP := [CreateTenant(1, "t"), EnrolLookup(1, 1)] + [EnrolCommit(1, 1), CreateDashboard(1, 1, "d", "q", 5)]
  const TICKS :=
    [TickUpdate(0), TickInsert(0, 1, 1)] + [Advance(5_000_000), TickUpdate(5_000_000)] + [TickInsert(1, 1, 2)]

  ghost predicate OneDashboard(s: State) {
    && s.clock == 0 && s.work.ticks == 0 && s.work.submissions == map[] && s.db.results == map[]
    && s.db.agents == map[1 := Agent(1, 0, None)]
    && s.db.dashboards == map[1 := Dashboard(1, "d", "q", 5, 0, 0)] && s.db.jobs == map[]
  }

  lemma SetupReached()
    ensures OneDashboard(Run(Init(0), SETUP))
  {
    RunTwo(Init(0), CreateTenant(1, "t"), EnrolLookup(1, 1));
    var s1 := Run(Init(0), [CreateTenant(1, "t"), EnrolLookup(1, 1)]);
    assert 1 in s1.work.enrolments && 1 in s1.db.tenants && s1.db.agents == map[] && s1.db.dashboards == map[];
    RunTwo(s1, EnrolCommit(1, 1), CreateDashboard(1, 1, "d", "q", 5));
    RunConcat(Init(0), [CreateTenant(1, "t"), EnrolLookup(1, 1)],
              [EnrolCommit(1, 1), CreateDashboard(1, 1, "d", "q", 5)]);
  }

  lemma TicksReached(s: State)
    requires OneDashboard(s)
    ensures
      var s' := Run(s, TICKS);
      && s'.work.submissions == map[] && Postable(s', 1, 1) && Postable(s', 1, 2)
      && s'.db.jobs[1].status == Pending && s'.db.jobs[1].claimedBy.None?
      && s'.db.jobs[1].dashboard == s'.db.jobs[2].dashboard
  {
    var first, second := [TickUpdate(0), TickInsert(0, 1, 1)], [Advance(5_000_000), TickUpdate(5_000_000)];
    RunTwo(s, TickUpdate(0), TickInsert(0, 1, 1));
    var s1 := Run(s, first);
    assert 1 in s1.db.jobs && 2 !in s1.db.jobs && s1.db.dashboards[1].nextRunAt == 5_000_000 && s1.work.ticks == 1;
    RunTwo(s1, Advance(5_000_000), TickUpdate(5_000_000));
    RunConcat(s, first, second);
    assert Owes(Run(s, first + second), 1, 1);
    RunSnoc(s, first + second, TickInsert(1, 1, 2));
  }

  lemma TwoJobsReached()
    ensures
      var s := Run(Init(0), SETUP + TICKS);
      Inv(s) && s.work.submissions == map[] && Postable(s, 1, 1) && Postable(s, 1, 2)
      && s.db.jobs[1].dashboard == s.db.jobs[2].dashboard
  {
    SetupReached();
    TicksReached(Run(Init(0), SETUP));
    RunConcat(Init(0), SETUP, TICKS);
    InitCoherent(0);
    CoherentAlways(Init(0), SETUP + TICKS);
  }

  /** A concrete run from the empty system that accepts one job's result twice, with no overlap and no loss. */
  lemma DuplicateAccepted(body: Body)
    ensures
      var again := PostSteps(1, 1, 1, body) + PostSteps(1, 1, 2, body) + PostSteps(1, 1, 1, body);
      var log := Log(Init(0), SETUP + TICKS + again);
      exists i, k :: 0 <= i < k < |log| && log[i].job == log[k].job
  {
    TwoJobsReached();
    var s := Run(Init(0), SETUP + TICKS);
    ForgottenDuplicate(s, 1, 1, 1, 2, body);
    var again := PostSteps(1, 1, 1, body) + PostSteps(1, 1, 2, body) + PostSteps(1, 1, 1, body);
    LogConcat(Init(0), SETUP + TICKS, again);
    var before, log := Log(Init(0), SETUP + TICKS), Log(Init(0), SETUP + TICKS + again);
    assert log[|before|].job == log[|before| + 2].job;
  }

  // ---- "pending, running, done or failed" ----

  /** A concrete run from the empty system in which a job becomes terminal without ever having been claimed. */
  lemma NeverRunning(body: Body)
    ensures
      var s := Run(Init(0), SETUP + TICKS);
      && 1 in s.db.jobs && s.db.jobs[1].status == Pending && s.db.jobs[1].claimedBy.None?
      && 1 in Run(s, PostSteps(1, 1, 1, body)).db.jobs
      && Run(s, PostSteps(1, 1, 1, body)).db.jobs[1] == s.db.jobs[1].(status := if body.success then Done else Failed)
  {
    SetupReached();
    RunConcat(Init(0), SETUP, TICKS);
    TicksReached(Run(Init(0), SETUP));
    var s := Run(Init(0), SETUP + TICKS);
    RunTwo(s, SubmitCheck(1, 1, 1, body), SubmitCommit(1));
  }

  /** The check and the transaction are apart: two overlapping requests for one job are both accepted. */
  lemma OverlappingDuplicate(s: State, r: RequestId, q: RequestId, a: AgentId, j: JobId, body: Body)
    requires Inv(s) && r != q && r !in s.work.submissions && q !in s.work.submissions && Postable(s, a, j)
    ensures
      var log := Log(s, [SubmitCheck(r, a, j, body), SubmitCheck(q, a, j, body), SubmitCommit(r), SubmitCommit(q)]);
      |log| == 2 && log[0].job == j && log[1].job == j
  {
    var s1 := Next(s, SubmitCheck(r, a, j, body));
    var s2 := Next(s1, SubmitCheck(q, a, j, body));
    var s3 := Next(s2, SubmitCommit(r));
    assert s2.db == s.db && !Recorded(s1, j);
    assert r in s2.work.submissions && q in s3.work.submissions;
    LogTwo(s, SubmitCheck(r, a, j, body), SubmitCheck(q, a, j, body));
    LogTwo(s2, SubmitCommit(r), SubmitCommit(q));
    RunTwo(s, SubmitCheck(r, a, j, body), SubmitCheck(q, a, j, body));
    LogConcat(s, [SubmitCheck(r, a, j, body), SubmitCheck(q, a, j, body)], [SubmitCommit(r), SubmitCommit(q)]);
    assert [SubmitCheck(r, a, j, body), SubmitCheck(q, a, j, body)] + [SubmitCommit(r), SubmitCommit(q)]
        == [SubmitCheck(r, a, j, body), SubmitCheck(q, a, j, body), SubmitCommit(r), SubmitCommit(q)];
  }

  // ---- "The token cannot be reused" ----

  ghost predicate HasAgent(s: State, t: TenantId) {
    exists a :: a in s.db.agents && s.db.agents[a].tenant == t
  }

  /** A tenant's token is burned exactly when it has an agent. */
  ghost predicate BurnedIffAgent(s: State) {
    forall t <- s.db.tenants :: s.db.tenants[t].enrolledAt.Some? <==> HasAgent(s, t)
  }

  lemma BurnedStep(s: State, step: Step)
    requires Inv(s) && BurnedIffAgent(s)
    ensures BurnedIffAgent(Next(s, step))
  {
    var s' := Next(s, step);
    forall t <- s'.db.tenants ensures s'.db.tenants[t].enrolledAt.Some? <==> HasAgent(s', t) {
      if HasAgent(s, t) {
        var a :| a in s.db.agents && s.db.agents[a].tenant == t;
        AgentEdge(s, step, a);
        assert HasAgent(s', t);
      }
      TenantEdge(s, step, t);
    }
  }

  lemma TenantEdge(s: State, step: Step, t: TenantId)
    requires Inv(s) && t in Next(s, step).db.tenants
    ensures
      var s' := Next(s, step);
      var enrolled := step.EnrolCommit? && step.request in s.work.enrolments && step.newAgent !in s.db.agents
                      && s.work.enrolments[step.request].tenant == t;
      && (enrolled ==> s'.db.tenants[t].enrolledAt.Some? && HasAgent(s', t))
      && (!enrolled ==>
            (s'.db.tenants[t].enrolledAt.Some? <==> t in s.db.tenants && s.db.tenants[t].enrolledAt.Some?)
            && (HasAgent(s', t) <==> HasAgent(s, t)) && (t !in s.db.tenants ==> !HasAgent(s, t)))
  {
    var s' := Next(s, step);
    if step.EnrolCommit? && step.request in s.work.enrolments && step.newAgent !in s.db.agents {
      var u := s.work.enrolments[step.request].tenant;
      assert s'.db.agents[step.newAgent].tenant == u;
    }
    if HasAgent(s', t) {
      var a :| a in s'.db.agents && s'.db.agents[a].tenant == t;
      if a in s.db.agents { AgentEdge(s, step, a); } else { AgentBirth(s, step, a); }
    }
    if HasAgent(s, t) {
      var a :| a in s.db.agents && s.db.agents[a].tenant == t;
      AgentEdge(s, step, a);
    }
  }

  lemma AgentBirth(s: State, step: Step, a: AgentId)
    requires a in Next(s, step).db.agents && a !in s.db.agents
    ensures step.EnrolCommit? && step.newAgent == a && step.request in s.work.enrolments
    ensures Next(s, step).db.agents[a].tenant == s.work.enrolments[step.request].tenant
  {}

  lemma {:induction false} BurnedAlways(s: State, steps: seq<Step>)
    requires Inv(s) && BurnedIffAgent(s)
    ensures Inv(Run(s, steps)) && BurnedIffAgent(Run(s, steps))
    decreases steps
  {
    if steps != [] {
      InvStep(s, steps[0]);
      BurnedStep(s, steps[0]);
      BurnedAlways(Next(s, steps[0]), steps[1..]);
    }
  }

  /**
    Single use, exactly: an enrolment that commits gives its tenant a further agent if and only if
    the tenant's token was already burned when it committed.
   */
  lemma SecondAgentExactly(clock: Time, steps: seq<Step>, r: RequestId, a: AgentId)
    requires DoEnrolCommit(Run(Init(clock), steps), r, a).reply == Created
    ensures
      var s := Run(Init(clock), steps);
      var s', t := DoEnrolCommit(s, r, a).state, s.work.enrolments[r].tenant;
      (exists b :: b in s'.db.agents && b != a && s'.db.agents[b].tenant == t) <==> s.db.tenants[t].enrolledAt.Some?
  {
    InitCoherent(clock);
    BurnedAlways(Init(clock), steps);
    var s := Run(Init(clock), steps);
    var s', t := DoEnrolCommit(s, r, a).state, s.work.enrolments[r].tenant;
    if HasAgent(s, t) {
      var b :| b in s.db.agents && s.db.agents[b].tenant == t;
      assert b in s'.db.agents && b != a && s'.db.agents[b].tenant == t;
    }
  }

  /** The lookup and the transaction are apart: two overlapping enrolments with one token both succeed. */
  lemma OverlappingEnrolments(s: State, r: RequestId, q: RequestId, t: TenantId, a: AgentId, b: AgentId)
    requires t in s.db.tenants && s.db.tenants[t].enrolledAt.None?
    requires r != q && r !in s.work.enrolments && q !in s.work.enrolments
    requires a != b && a !in s.db.agents && b !in s.db.agents
    ensures
      var s' := Run(s, [EnrolLookup(r, t), EnrolLookup(q, t), EnrolCommit(r, a), EnrolCommit(q, b)]);
      a in s'.db.agents && b in s'.db.agents && s'.db.agents[a].tenant == t && s'.db.agents[b].tenant == t
  {
    var s1 := Next(s, EnrolLookup(r, t));
    var s2 := Next(s1, EnrolLookup(q, t));
    var s3 := Next(s2, EnrolCommit(r, a));
    assert s2.db == s.db && r in s2.work.enrolments && q in s3.work.enrolments;
    RunTwo(s, EnrolLookup(r, t), EnrolLookup(q, t));
    RunTwo(s2, EnrolCommit(r, a), EnrolCommit(q, b));
    RunConcat(s, [EnrolLookup(r, t), EnrolLookup(q, t)], [EnrolCommit(r, a), EnrolCommit(q, b)]);
    assert [EnrolLookup(r, t), EnrolLookup(q, t)] + [EnrolCommit(r, a), EnrolCommit(q, b)]
        == [EnrolLookup(r, t), EnrolLookup(q, t), EnrolCommit(r, a), EnrolCommit(q, b)];
  }
}
