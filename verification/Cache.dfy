/**
  The results table refines the log of accepted posts: each row is the last accepted post of its
  dashboard. From that follow what the embedding endpoint returns, and exactly which repeated
  posts the duplicate check recognises.
 */
module Cache {
  import opened Tables
  import opened Protocol
  import opened Coherence
  import opened Lifecycle

  datatype Entry = Entry(job: JobId, dashboard: DashboardId, tenant: TenantId, body: Body, recordedAt: Time)

  /** The post a step accepts, if any. */
  function AcceptedBy(s: State, step: Step): seq<Entry> {
    if step.SubmitCommit? && step.request in s.work.submissions
       && s.work.submissions[step.request].job in s.db.jobs then
      var sub := s.work.submissions[step.request];
      [Entry(sub.job, sub.dashboard, sub.tenant, sub.body, sub.at)]
    else []
  }

  /** Every accepted post of a run, in order. */
  function Log(s: State, steps: seq<Step>): seq<Entry>
    decreases steps
  {
    if steps == [] then [] else AcceptedBy(s, steps[0]) + Log(Next(s, steps[0]), steps[1..])
  }

  lemma {:induction false} LogConcat(s: State, a: seq<Step>, b: seq<Step>)
    ensures Log(s, a + b) == Log(s, a) + Log(Run(s, a), b)
    decreases a
  {
    if a == [] {
      assert a + b == b;
    } else {
      assert (a + b)[1..] == a[1..] + b;
      LogConcat(Next(s, a[0]), a[1..], b);
    }
  }

  lemma LogTwo(s: State, first: Step, second: Step)
    ensures Log(s, [first, second]) == AcceptedBy(s, first) + AcceptedBy(Next(s, first), second)
  {
    assert [first, second][1..] == [second];
    LogOne(Next(s, first), second);
  }

  lemma LogOne(s: State, step: Step)
    ensures Log(s, [step]) == AcceptedBy(s, step)
  {
    assert [step][1..] == [];
    assert AcceptedBy(s, step) + [] == AcceptedBy(s, step);
  }

  lemma LogSnoc(s: State, steps: seq<Step>, step: Step)
    ensures Log(s, steps + [step]) == Log(s, steps) + AcceptedBy(Run(s, steps), step)
  {
    LogConcat(s, steps, [step]);
    assert [step][1..] == [];
  }

  function LastFor(log: seq<Entry>, d: DashboardId): Option<Entry>
    decreases log
  {
    if log == [] then None
    else if log[|log| - 1].dashboard == d then Some(log[|log| - 1])
    else LastFor(log[..|log| - 1], d)
  }

  /** The last accepted post of a job. */
  function LastOf(log: seq<Entry>, j: JobId): Option<Entry>
    decreases log
  {
    if log == [] then None
    else if log[|log| - 1].job == j then Some(log[|log| - 1])
    else LastOf(log[..|log| - 1], j)
  }

  /** The row that an entry leaves in the results table. */
  function RowOf(e: Entry): Result {
    Result(e.tenant, e.job, e.body, e.recordedAt)
  }

  ghost predicate RowsLogged(results: Results, log: seq<Entry>) {
    forall d: DashboardId ::
      if LastFor(log, d).None? then d !in results
      else d in results && results[d] == RowOf(LastFor(log, d).value)
  }

  ghost predicate StatusesLogged(jobs: Jobs, log: seq<Entry>) {
    && (forall j: JobId :: LastOf(log, j).Some? ==> j in jobs)
    && forall j <- jobs ::
         && (jobs[j].Terminal() <==> LastOf(log, j).Some?)
         && (jobs[j].Terminal() ==> jobs[j].status == if LastOf(log, j).value.body.success then Done else Failed)
  }

  ghost predicate CacheOK(s: State, log: seq<Entry>) {
    RowsLogged(s.db.results, log) && StatusesLogged(s.db.jobs, log)
  }

  lemma Append(log: seq<Entry>, e: Entry)
    ensures forall d :: LastFor(log + [e], d) == if e.dashboard == d then Some(e) else LastFor(log, d)
    ensures forall j :: LastOf(log + [e], j) == if e.job == j then Some(e) else LastOf(log, j)
  {
    assert (log + [e])[..|log|] == log;
  }

  lemma CommitLogged(s: State, r: RequestId, log: seq<Entry>)
    requires Inv(s) && CacheOK(s, log)
    ensures CacheOK(Next(s, SubmitCommit(r)), log + AcceptedBy(s, SubmitCommit(r)))
  {
    if r in s.work.submissions {
      var sub := s.work.submissions[r];
      var e := Entry(sub.job, sub.dashboard, sub.tenant, sub.body, sub.at);
      Append(log, e);
      var s' := DoSubmitCommit(s, r).state;
      assert SubmissionOK(sub, s.db.jobs, s.db.agents);
      assert s'.db.results[sub.dashboard] == RowOf(e) by {
        if sub.dashboard in s.db.results {
          assert ResultOK(s.db.results[sub.dashboard], sub.dashboard, s.db.jobs);
          assert CopiesDashboard(s.db.jobs[sub.job], s.db.dashboards);
          assert CopiesDashboard(s.db.jobs[s.db.results[sub.dashboard].job], s.db.dashboards);
        }
      }
      assert RowsLogged(s'.db.results, log + [e]);
      assert StatusesLogged(s'.db.jobs, log + [e]);
    } else {
      assert log + [] == log;
    }
  }

  lemma OtherStepLogged(s: State, step: Step, log: seq<Entry>)
    requires Inv(s) && CacheOK(s, log) && !step.SubmitCommit?
    ensures CacheOK(Next(s, step), log)
  {
    ResultsFrame(s, step);
    var s' := Next(s, step);
    forall j <- s'.db.jobs
      ensures s'.db.jobs[j].Terminal() <==> LastOf(log, j).Some?
      ensures s'.db.jobs[j].Terminal() ==>
                s'.db.jobs[j].status == if LastOf(log, j).value.body.success then Done else Failed
    {
      if j in s.db.jobs { JobEdge(s, step, j); } else { JobBirth(s, step, j); }
    }
    forall j | LastOf(log, j).Some? ensures j in s'.db.jobs {
      JobEdge(s, step, j);
    }
  }

  lemma ResultsFrame(s: State, step: Step)
    requires !step.SubmitCommit?
    ensures Next(s, step).db.results == s.db.results
  {}

  lemma StepLogged(s: State, step: Step, log: seq<Entry>)
    requires Inv(s) && CacheOK(s, log)
    ensures CacheOK(Next(s, step), log + AcceptedBy(s, step))
  {
    if step.SubmitCommit? {
      CommitLogged(s, step.request, log);
    } else {
      OtherStepLogged(s, step, log);
      assert log + [] == log;
    }
  }

  /** In every run the results table and the terminal statuses are determined by the log. */
  lemma {:induction false} CacheRefinesLog(s: State, steps: seq<Step>, past: seq<Entry>)
    requires Inv(s) && CacheOK(s, past)
    ensures CacheOK(Run(s, steps), past + Log(s, steps))
    decreases steps
  {
    if steps == [] {
      assert past + [] == past;
    } else {
      InvStep(s, steps[0]);
      StepLogged(s, steps[0], past);
      var now := AcceptedBy(s, steps[0]);
      CacheRefinesLog(Next(s, steps[0]), steps[1..], past + now);
      assert past + now + Log(Next(s, steps[0]), steps[1..]) == past + Log(s, steps);
    }
  }

  lemma ReachableCache(clock: Time, steps: seq<Step>)
    ensures Inv(Run(Init(clock), steps)) && CacheOK(Run(Init(clock), steps), Log(Init(clock), steps))
  {
    InitCoherent(clock);
    CoherentAlways(Init(clock), steps);
    CacheRefinesLog(Init(clock), steps, []);
    assert [] + Log(Init(clock), steps) == Log(Init(clock), steps);
  }

  /** The embedding endpoint returns the last accepted post, and "pending" exactly when there is none. */
  lemma ReadsLastAccepted(clock: Time, steps: seq<Step>, d: DashboardId)
    ensures
      var s := Run(Init(clock), steps);
      var last := LastFor(Log(Init(clock), steps), d);
      d in s.db.dashboards ==>
        GetDashboardData(s, d) ==
          match last
          case None => StillPending(s.db.dashboards[d].name)
          case Some(e) => Latest(s.db.dashboards[d].name, e.body, e.recordedAt)
  {
    ReachableCache(clock, steps);
  }

  /**
    The duplicate check, exactly: for an authorised agent of the job's tenant, 409 is answered
    if and only if the job is the last one accepted for its dashboard.
   */
  lemma DuplicateCheckExact(clock: Time, steps: seq<Step>, r: RequestId, a: AgentId, j: JobId, body: Body)
    requires
      var s := Run(Init(clock), steps);
      r !in s.work.submissions && Authorised(s, a) && j in s.db.jobs && s.db.jobs[j].tenant == s.db.agents[a].tenant
    ensures
      var s := Run(Init(clock), steps);
      var last := LastFor(Log(Init(clock), steps), s.db.jobs[j].dashboard);
      && (DoSubmitCheck(s, r, a, j, body).reply == Conflict <==> last.Some? && last.value.job == j)
      && (DoSubmitCheck(s, r, a, j, body).reply == Suspended <==> !(last.Some? && last.value.job == j))
  {
    ReachableCache(clock, steps);
    var s := Run(Init(clock), steps);
    var d := s.db.jobs[j].dashboard;
    if Recorded(s, j) {
      var d' :| d' in s.db.results && s.db.results[d'].job == j;
      assert ResultOK(s.db.results[d'], d', s.db.jobs);
    } else if d in s.db.results {
      assert s.db.results[d].job != j;
    }
  }

  /**
    What a status means: in every reachable state the job a row shows is done if the row's body
    reports a success and failed if it reports an error, and a terminal job is done or failed as its
    last accepted body says.
   */
  lemma StatusMeaning(clock: Time, steps: seq<Step>)
    ensures
      var s, log := Run(Init(clock), steps), Log(Init(clock), steps);
      && (forall d <- s.db.results ::
            && s.db.results[d].job in s.db.jobs
            && (s.db.jobs[s.db.results[d].job].status == Done <==> s.db.results[d].body.success)
            && (s.db.jobs[s.db.results[d].job].status == Failed <==> !s.db.results[d].body.success))
      && forall j <- s.db.jobs ::
           && (s.db.jobs[j].status == Done <==> LastOf(log, j).Some? && LastOf(log, j).value.body.success)
           && (s.db.jobs[j].status == Failed <==> LastOf(log, j).Some? && !LastOf(log, j).value.body.success)
  {
    ReachableCache(clock, steps);
    var s := Run(Init(clock), steps);
    forall d <- s.db.results ensures ResultOK(s.db.results[d], d, s.db.jobs) {}
  }

  /** A job is terminal exactly when some post for it was accepted. */
  lemma TerminalIffAccepted(clock: Time, steps: seq<Step>, j: JobId)
    requires j in Run(Init(clock), steps).db.jobs
    ensures Run(Init(clock), steps).db.jobs[j].Terminal() <==> exists e <- Log(Init(clock), steps) :: e.job == j
  {
    ReachableCache(clock, steps);
    LastOfSome(Log(Init(clock), steps), j);
  }

  /**
    A second acceptance, exactly: of a post that has passed the check, the commit is a further
    acceptance of its job if and only if the job is already terminal when it commits.
   */
  lemma SecondAcceptanceExactly(clock: Time, steps: seq<Step>, r: RequestId)
    requires r in Run(Init(clock), steps).work.submissions
    ensures
      var s, log := Run(Init(clock), steps), Log(Init(clock), steps);
      var sub := s.work.submissions[r];
      && sub.job in s.db.jobs
      && AcceptedBy(s, SubmitCommit(r)) == [Entry(sub.job, sub.dashboard, sub.tenant, sub.body, sub.at)]
      && ((exists e <- log :: e.job == sub.job) <==> s.db.jobs[sub.job].Terminal())
  {
    ReachableCache(clock, steps);
    var s := Run(Init(clock), steps);
    assert SubmissionOK(s.work.submissions[r], s.db.jobs, s.db.agents);
    LastOfSome(Log(Init(clock), steps), s.work.submissions[r].job);
  }

  predicate AcceptsTerminal(s: State, step: Step) {
    && step.SubmitCommit? && step.request in s.work.submissions
    && s.work.submissions[step.request].job in s.db.jobs && s.db.jobs[s.work.submissions[step.request].job].Terminal()
  }

  ghost predicate NoRepeats(log: seq<Entry>) {
    forall i, k | 0 <= i < k < |log| :: log[i].job != log[k].job
  }

  /** A run with arbitrary clients accepts every job at most once if and only if no commit finds its job terminal. */
  lemma {:induction false} AtMostOnceExactly(clock: Time, steps: seq<Step>)
    ensures
      NoRepeats(Log(Init(clock), steps)) <==>
      forall i | 0 <= i < |steps| :: !AcceptsTerminal(Run(Init(clock), steps[..i]), steps[i])
    decreases steps
  {
    if steps != [] {
      var past, step := steps[..|steps| - 1], steps[|steps| - 1];
      AtMostOnceExactly(clock, past);
      assert steps == past + [step];
      LogSnoc(Init(clock), past, step);
      forall i | 0 <= i < |past| ensures steps[..i] == past[..i] && steps[i] == past[i] {}
      assert steps[..|past|] == past;
      OneMore(clock, past, step);
      assert (forall i | 0 <= i < |steps| :: !AcceptsTerminal(Run(Init(clock), steps[..i]), steps[i])) <==>
             (forall i | 0 <= i < |past| :: !AcceptsTerminal(Run(Init(clock), past[..i]), past[i]))
             && !AcceptsTerminal(Run(Init(clock), past), step);
    }
  }

  lemma OneMore(clock: Time, past: seq<Step>, step: Step)
    ensures
      var s, log := Run(Init(clock), past), Log(Init(clock), past);
      NoRepeats(log + AcceptedBy(s, step)) <==> NoRepeats(log) && !AcceptsTerminal(s, step)
  {
    var s, log := Run(Init(clock), past), Log(Init(clock), past);
    var more := AcceptedBy(s, step);
    if more == [] {
      assert log + more == log;
    } else {
      SecondAcceptanceExactly(clock, past, step.request);
      forall i, k | 0 <= i < k < |log| ensures (log + more)[i] == log[i] && (log + more)[k] == log[k] {}
      assert (log + more)[|log|].job == s.work.submissions[step.request].job;
      if AcceptsTerminal(s, step) {
        var e :| e in log && e.job == s.work.submissions[step.request].job;
        var i :| 0 <= i < |log| && log[i] == e;
        assert (log + more)[i].job == (log + more)[|log|].job;
      }
    }
  }

  lemma {:induction false} LastOfSome(log: seq<Entry>, j: JobId)
    ensures LastOf(log, j).Some? <==> exists e <- log :: e.job == j
    ensures LastOf(log, j).Some? ==> LastOf(log, j).value in log && LastOf(log, j).value.job == j
    decreases log
  {
    if log != [] && log[|log| - 1].job != j {
      var rest := log[..|log| - 1];
      LastOfSome(rest, j);
      assert log == rest + [log[|log| - 1]];
    }
  }
}
