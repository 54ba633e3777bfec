/**
  Where a result comes from: in every run of the fleet, what a post says, and so what a dashboard
  shows, is a faithful report of one execution of the dashboard's own SQL by an agent of its tenant.
 */
module Provenance {
  import opened Tables
  import opened Protocol
  import opened Coherence
  import opened Lifecycle
  import opened LongPoll
  import opened Cache
  import opened Truncation
  import opened Fleet
  import opened AtMostOnce
  import opened Leases

  /** In this act agent a finishes the query of job j, and the body reports its outcome. */
  ghost predicate FinishesAs(f: System, act: Act, a: AgentId, j: JobId, body: Body) {
    && act.Finish? && act.agent == a && Enabled(f, act)
    && f.procs[a].job == j && Reports(body, act.query, f.procs[a].timeoutMs)
  }

  /** At some point of the run agent a finished the query of job j as the body reports. */
  ghost predicate Told(f: System, acts: seq<Act>, a: AgentId, j: JobId, body: Body) {
    exists i :: 0 <= i < |acts| && FinishesAs(RunActs(f, acts[..i]), acts[i], a, j, body)
  }

  lemma ToldSnoc(f: System, acts: seq<Act>, act: Act, a: AgentId, j: JobId, body: Body)
    ensures Told(f, acts, a, j, body) || FinishesAs(RunActs(f, acts), act, a, j, body) ==>
              Told(f, acts + [act], a, j, body)
  {
    var all := acts + [act];
    if Told(f, acts, a, j, body) {
      var i :| 0 <= i < |acts| && FinishesAs(RunActs(f, acts[..i]), acts[i], a, j, body);
      assert all[..i] == acts[..i] && all[i] == acts[i];
    } else if FinishesAs(RunActs(f, acts), act, a, j, body) {
      assert all[..|acts|] == acts && all[|acts|] == act;
    }
  }

  /** The process is posting this body for job j. */
  predicate Reporting(proc: Process, j: JobId, body: Body) {
    (proc.Posting? && proc.job == j && proc.body == body) || (proc.Sent? && proc.job == j && proc.body == body)
  }

  /** Everything being posted, in flight or accepted was told; `acts` led from `f0` to `f`. */
  ghost predicate AllTold(f0: System, acts: seq<Act>, f: System) {
    && (forall a, j, body | a in f.procs && Reporting(f.procs[a], j, body) :: Told(f0, acts, a, j, body))
    && (forall r <- f.s.work.submissions ::
          var sub := f.s.work.submissions[r];
          Told(f0, acts, sub.agent, sub.job, sub.body))
    && forall e <- f.log :: exists a :: Told(f0, acts, a, e.job, e.body)
  }

  lemma ReportingEdge(f: System, act: Act, a: AgentId, j: JobId, body: Body)
    requires Enabled(f, act) && a in Procs(f, act) && Reporting(Procs(f, act)[a], j, body)
    ensures (a in f.procs && Reporting(f.procs[a], j, body)) || FinishesAs(f, act, a, j, body)
  {
    if act.Finish? && act.agent == a {
      ProgramBodyReports(act.query, f.procs[a].timeoutMs);
    }
  }

  /** A post in flight after an act was in flight before, or is what its sender was posting. */
  lemma InFlightEdge(f: System, act: Act, r: RequestId)
    requires Good(f) && Enabled(f, act) && r in Do(f, act).s.work.submissions
    ensures
      var sub := Do(f, act).s.work.submissions[r];
      || (r in f.s.work.submissions && sub == f.s.work.submissions[r])
      || (sub.agent in f.procs && Reporting(f.procs[sub.agent], sub.job, sub.body))
  {
    if act.Enrol? {
      EnrolBoth(f.s, act.request, act.tenant, act.agent);
    } else {
      ActStep(f, act);
      if Steps(f, act) != [] { PostEdge(f.s, Steps(f, act)[0], r); }
    }
  }

  /** A new log entry is a post that was in flight. */
  lemma LoggedEdge(f: System, act: Act, e: Entry)
    requires Enabled(f, act) && e in Do(f, act).log
    ensures e in f.log || exists r <- f.s.work.submissions ::
              f.s.work.submissions[r].job == e.job && f.s.work.submissions[r].body == e.body
  {
    if e !in f.log {
      assert e in Accepting(f, act);
    }
  }

  lemma AllToldStep(f0: System, acts: seq<Act>, act: Act)
    requires Good(RunActs(f0, acts)) && AllTold(f0, acts, RunActs(f0, acts))
    ensures AllTold(f0, acts + [act], Do(RunActs(f0, acts), act))
  {
    var f := RunActs(f0, acts);
    var f' := Do(f, act);
    forall a, j, body | Told(f0, acts, a, j, body) || FinishesAs(f, act, a, j, body)
      ensures Told(f0, acts + [act], a, j, body)
    {
      ToldSnoc(f0, acts, act, a, j, body);
    }
    if Enabled(f, act) {
      forall a, j, body | a in f'.procs && Reporting(f'.procs[a], j, body) ensures Told(f0, acts + [act], a, j, body) {
        ReportingEdge(f, act, a, j, body);
      }
      forall r <- f'.s.work.submissions
        ensures Told(f0, acts + [act], f'.s.work.submissions[r].agent, f'.s.work.submissions[r].job,
                     f'.s.work.submissions[r].body)
      {
        InFlightEdge(f, act, r);
      }
      forall e <- f'.log ensures exists a :: Told(f0, acts + [act], a, e.job, e.body) {
        LoggedEdge(f, act, e);
        if e in f.log {
          var a :| Told(f0, acts, a, e.job, e.body);
          assert Told(f0, acts + [act], a, e.job, e.body);
        } else {
          var r :| r in f.s.work.submissions
                   && f.s.work.submissions[r].job == e.job && f.s.work.submissions[r].body == e.body;
          assert Told(f0, acts + [act], f.s.work.submissions[r].agent, e.job, e.body);
        }
      }
    }
  }

  lemma {:induction false} AllToldAlways(clock: Time, acts: seq<Act>)
    ensures AllTold(Start(clock), acts, RunActs(Start(clock), acts))
    decreases acts
  {
    if acts != [] {
      var past, act := acts[..|acts| - 1], acts[|acts| - 1];
      assert acts == past + [act];
      AllToldAlways(clock, past);
      StartGood(clock);
      AlwaysGood(Start(clock), past);
      AllToldStep(Start(clock), past, act);
      RunActsConcat(Start(clock), past, [act]);
      OneAct(RunActs(Start(clock), past), act);
    }
  }

  /**
    What a dashboard shows, in every run: an earlier act finished a query; it was the dashboard's
    own SQL, under a limit of 30 seconds, executed by an agent of the dashboard's tenant for the job
    that is shown; and the stored body reports its outcome.
   */
  lemma ShownIsReported(clock: Time, acts: seq<Act>, d: DashboardId)
    requires d in RunActs(Start(clock), acts).s.db.results
    ensures
      var row := RunActs(Start(clock), acts).s.db.results[d];
      exists i, a :: FinishedAt(Start(clock), acts, i, a, row.job, row.body, d)
  {
    var f := RunActs(Start(clock), acts);
    StartGood(clock);
    AlwaysGood(Start(clock), acts);
    AllToldAlways(clock, acts);
    RowIsLogged(f, d);
    var e := LastFor(f.log, d).value;
    var a :| Told(Start(clock), acts, a, e.job, e.body);
    ToldWhileExecuting(clock, acts, a, e.job, e.body);
  }

  lemma RowIsLogged(f: System, d: DashboardId)
    requires Good(f) && d in f.s.db.results
    ensures
      var row, last := f.s.db.results[d], LastFor(f.log, d);
      && last.Some? && last.value in f.log && last.value.job == row.job && last.value.body == row.body
      && row.job in f.s.db.jobs && f.s.db.jobs[row.job].dashboard == d
  {
    LastForIn(f.log, d);
    assert ResultOK(f.s.db.results[d], d, f.s.db.jobs);
  }

  lemma ToldWhileExecuting(clock: Time, acts: seq<Act>, a: AgentId, j: JobId, body: Body)
    requires Told(Start(clock), acts, a, j, body)
    requires j in RunActs(Start(clock), acts).s.db.jobs
    ensures
      exists i :: FinishedAt(Start(clock), acts, i, a, j, body, RunActs(Start(clock), acts).s.db.jobs[j].dashboard)
  {
    var i :| 0 <= i < |acts| && FinishesAs(RunActs(Start(clock), acts[..i]), acts[i], a, j, body);
    WholeRun(Start(clock), acts, i);
    FinishedOwn(clock, acts[..i], acts[i], acts[i..], a, j, body);
    assert FinishedAt(Start(clock), acts, i, a, j, body, RunActs(Start(clock), acts).s.db.jobs[j].dashboard);
  }

  lemma FinishedOwn(clock: Time, past: seq<Act>, act: Act, later: seq<Act>, a: AgentId, j: JobId, body: Body)
    requires FinishesAs(RunActs(Start(clock), past), act, a, j, body)
    ensures
      var f := RunActs(Start(clock), past);
      j in RunActs(f, later).s.db.jobs && ExecutesFor(f, a, RunActs(f, later).s.db.jobs[j].dashboard)
  {
    Executed(clock, past, later, a, j);
  }

  lemma WholeRun(f: System, acts: seq<Act>, i: nat)
    requires i <= |acts|
    ensures RunActs(f, acts) == RunActs(RunActs(f, acts[..i]), acts[i..])
  {
    assert acts[..i] + acts[i..] == acts;
    RunActsConcat(f, acts[..i], acts[i..]);
  }

  /** In the i-th act agent a finishes dashboard d's query for job j, and the body reports its outcome. */
  ghost predicate FinishedAt(
    f: System, acts: seq<Act>, i: int, a: AgentId, j: JobId, body: Body, d: DashboardId)
  {
    && 0 <= i < |acts| && FinishesAs(RunActs(f, acts[..i]), acts[i], a, j, body)
    && ExecutesFor(RunActs(f, acts[..i]), a, d)
  }

  /** Agent a is executing dashboard d's SQL, and is of its tenant. */
  ghost predicate ExecutesFor(f: System, a: AgentId, d: DashboardId) {
    && a in f.procs && a in f.s.db.agents && f.procs[a].Executing? && f.procs[a].timeoutMs == 30000
    && d in f.s.db.dashboards && f.s.db.dashboards[d].tenant == f.s.db.agents[a].tenant
    && f.procs[a].sql == f.s.db.dashboards[d].sql
  }

  lemma {:induction false} LastForIn(log: seq<Entry>, d: DashboardId)
    ensures LastFor(log, d).Some? ==> LastFor(log, d).value in log && LastFor(log, d).value.dashboard == d
    decreases log
  {
    if log != [] && log[|log| - 1].dashboard != d { LastForIn(log[..|log| - 1], d); }
  }

  /** The dashboard of the job being executed is the one it still has at the end. */
  lemma Executed(clock: Time, past: seq<Act>, later: seq<Act>, a: AgentId, j: JobId)
    requires
      var f := RunActs(Start(clock), past);
      a in f.procs && f.procs[a].Executing? && f.procs[a].job == j
    ensures
      var f := RunActs(Start(clock), past);
      j in RunActs(f, later).s.db.jobs && ExecutesFor(f, a, RunActs(f, later).s.db.jobs[j].dashboard)
  {
    var f := RunActs(Start(clock), past);
    StartGood(clock);
    AlwaysGood(Start(clock), past);
    ServerRun(f, later);
    HeldNow(f, a);
    JobForever(f.s, ServerSteps(f, later), j);
    assert CopiesDashboard(f.s.db.jobs[j], f.s.db.dashboards);
  }
}
