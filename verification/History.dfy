/**
  The tables as the outcome of what was asked and answered: who may call, which dashboards exist and
  what they say, and when a job was scheduled, all read off the transcript of a run.
 */
module History {
  import opened Tables
  import opened Protocol
  import opened Coherence
  import opened Lifecycle
  import opened LongPoll
  import opened Slots
  import opened Scheduling
  import opened Effects

  /** A step, the time it was taken at and its answer. */
  datatype Exchange = Exchange(step: Step, at: Time, reply: Reply)

  function Transcript(s: State, steps: seq<Step>): seq<Exchange>
    decreases steps
  {
    if steps == [] then []
    else [Exchange(steps[0], s.clock, Handle(s, steps[0]).reply)] + Transcript(Next(s, steps[0]), steps[1..])
  }

  lemma {:induction false} TranscriptConcat(s: State, a: seq<Step>, b: seq<Step>)
    ensures Transcript(s, a + b) == Transcript(s, a) + Transcript(Run(s, a), b)
    decreases a
  {
    if a == [] {
      assert a + b == b;
    } else {
      assert (a + b)[0] == a[0] && (a + b)[1..] == a[1..] + b;
      TranscriptConcat(Next(s, a[0]), a[1..], b);
    }
  }

  lemma TranscriptSnoc(s: State, past: seq<Step>, step: Step)
    ensures Transcript(s, past + [step]) ==
            Transcript(s, past) + [Exchange(step, Run(s, past).clock, Handle(Run(s, past), step).reply)]
  {
    TranscriptConcat(s, past, [step]);
    assert [step][1..] == [];
  }

  // ---- Who may call ----

  /** Agent a was enrolled. */
  predicate EnrolledIn(transcript: seq<Exchange>, a: AgentId) {
    exists x <- transcript :: x.step.EnrolCommit? && x.step.newAgent == a && x.reply == Created
  }

  /** Agent a's revocation was acknowledged. */
  predicate RevokedIn(transcript: seq<Exchange>, a: AgentId) {
    exists x <- transcript :: x.step == Revoke(a) && x.reply == Revoked
  }

  lemma AgentsEdge(s: State, step: Step, a: AgentId)
    requires Inv(s)
    ensures a in Next(s, step).db.agents <==>
              a in s.db.agents || (step.EnrolCommit? && step.newAgent == a && Handle(s, step).reply == Created)
    ensures a in Next(s, step).db.agents && Next(s, step).db.agents[a].revokedAt.Some? <==>
              || (a in s.db.agents && s.db.agents[a].revokedAt.Some?)
              || (step == Revoke(a) && Handle(s, step).reply == Revoked)
  {}

  /**
    A token works exactly from the enrolment that returned it until the revocation that was
    acknowledged: over every run, whatever else happened.
   */
  lemma {:induction false} AuthorisedExactly(clock: Time, steps: seq<Step>, a: AgentId)
    ensures
      var s, transcript := Run(Init(clock), steps), Transcript(Init(clock), steps);
      && (a in s.db.agents <==> EnrolledIn(transcript, a))
      && (a in s.db.agents && s.db.agents[a].revokedAt.Some? <==> RevokedIn(transcript, a))
      && (MayCall(s, a) <==> EnrolledIn(transcript, a) && !RevokedIn(transcript, a))
    decreases steps
  {
    if steps != [] {
      var past, step := steps[..|steps| - 1], steps[|steps| - 1];
      assert steps == past + [step];
      AuthorisedExactly(clock, past, a);
      TranscriptSnoc(Init(clock), past, step);
      RunSnoc(Init(clock), past, step);
      InitCoherent(clock);
      CoherentAlways(Init(clock), past);
      AgentsEdge(Run(Init(clock), past), step, a);
      var s, before := Run(Init(clock), past), Transcript(Init(clock), past);
      var x := Exchange(step, s.clock, Handle(s, step).reply);
      assert forall y :: y in before + [x] <==> y in before || y == x;
    }
  }

  /** An enrolled agent that has not been revoked is let in. */
  lemma TokenWorks(clock: Time, steps: seq<Step>, a: AgentId, p: PollId, timeout: int)
    requires EnrolledIn(Transcript(Init(clock), steps), a) && !RevokedIn(Transcript(Init(clock), steps), a)
    requires p !in Run(Init(clock), steps).work.polls && 1 <= timeout <= 25
    ensures
      var o := Handle(Run(Init(clock), steps), OpenPoll(p, a, timeout));
      o.reply == Suspended && p in o.state.work.polls && o.state.work.polls[p].agent == a
  {
    AuthorisedExactly(clock, steps, a);
    OpenPollEffect(Run(Init(clock), steps), p, a, timeout);
  }

  /** Once a revocation has been acknowledged, in every later run the agent's polls and posts are answered 401. */
  lemma RevocationEnforced(
    s: State, a: AgentId, later: seq<Step>, p: PollId, timeout: int, r: RequestId, j: JobId, body: Body)
    requires Handle(s, Revoke(a)).reply == Revoked && 1 <= timeout <= 25
    ensures
      var s' := Run(Next(s, Revoke(a)), later);
      && (p !in s'.work.polls ==> Handle(s', OpenPoll(p, a, timeout)) == Outcome(s', Unauthorized))
      && (r !in s'.work.submissions ==> Handle(s', SubmitCheck(r, a, j, body)) == Outcome(s', Unauthorized))
  {
    RevokeEffect(s, a);
    RevokedRefused(Next(s, Revoke(a)), later, a, p, timeout, r, j, body);
  }

  // ---- Which dashboards there are ----

  predicate Creates(x: Exchange, d: DashboardId) {
    x.step.CreateDashboard? && x.step.newDashboard == d && x.reply == Created
  }

  /** The row says what its creation said. */
  predicate RowFor(row: Dashboard, x: Exchange)
    requires x.step.CreateDashboard?
  {
    && row.tenant == x.step.tenant && row.name == x.step.name && row.sql == x.step.sql
    && row.refreshInterval == x.step.refreshInterval && row.createdAt == x.at
  }

  predicate CreatedIn(transcript: seq<Exchange>, d: DashboardId) {
    exists x <- transcript :: Creates(x, d)
  }

  lemma DashboardsEdge(s: State, step: Step, d: DashboardId)
    ensures
      var s', x := Next(s, step), Exchange(step, s.clock, Handle(s, step).reply);
      && (d in s'.db.dashboards <==> d in s.db.dashboards || Creates(x, d))
      && (d in s.db.dashboards ==> !Creates(x, d) && SameDefinition(s'.db.dashboards[d], s.db.dashboards[d]))
      && (Creates(x, d) ==> RowFor(s'.db.dashboards[d], x))
  {
    if d in s.db.dashboards { DashboardEdge(s, step, d); }
    if step.CreateDashboard? {
      CreateDashboardEffect(s, step.newDashboard, step.tenant, step.name, step.sql, step.refreshInterval);
    }
  }

  /** A dashboard exists, and is not answered 404, exactly since its creation was acknowledged, with those columns. */
  lemma {:induction false} DashboardsExactly(clock: Time, steps: seq<Step>, d: DashboardId)
    ensures
      var s, transcript := Run(Init(clock), steps), Transcript(Init(clock), steps);
      && (d in s.db.dashboards <==> CreatedIn(transcript, d))
      && (GetDashboardData(s, d) == NoSuchDashboard <==> !CreatedIn(transcript, d))
      && forall x <- transcript :: Creates(x, d) ==> d in s.db.dashboards && RowFor(s.db.dashboards[d], x)
    decreases steps
  {
    if steps != [] {
      var past, step := steps[..|steps| - 1], steps[|steps| - 1];
      assert steps == past + [step];
      DashboardsExactly(clock, past, d);
      TranscriptSnoc(Init(clock), past, step);
      RunSnoc(Init(clock), past, step);
      DashboardsEdge(Run(Init(clock), past), step, d);
      var s, before := Run(Init(clock), past), Transcript(Init(clock), past);
      var x := Exchange(step, s.clock, Handle(s, step).reply);
      assert forall y :: y in before + [x] <==> y in before || y == x;
    }
    ReadEffect(Run(Init(clock), steps), d);
  }

  // ---- When a job was scheduled ----

  /** The times of the run's ticks, in the order of their UPDATEs. */
  function TickTimes(s: State, steps: seq<Step>): seq<Time>
    decreases steps
  {
    if steps == [] then []
    else TickTime(s, steps[0]) + TickTimes(Next(s, steps[0]), steps[1..])
  }

  function TickTime(s: State, step: Step): seq<Time> {
    if step.TickUpdate? && step.now <= s.clock then [step.now] else []
  }

  /** Every INSERT owed carries its tick's time, and every job the time of the tick it came from. */
  ghost predicate Dated(s: State, g: Ledger, times: seq<Time>) {
    && |times| == s.work.ticks
    && (forall k, d | Owes(s, k, d) :: 0 <= k < |times| && s.work.owed[k][d].at == times[k])
    && forall j <- s.db.jobs :: j in g.origin && DatedJob(s.db.jobs[j], g.origin[j].tick, times)
  }

  predicate DatedJob(job: Job, k: TickId, times: seq<Time>) {
    0 <= k < |times| && job.createdAt == times[k]
  }

  lemma DatedTick(s: State, g: Ledger, times: seq<Time>, now: Time)
    requires Dated(s, g, times) && now <= s.clock
    ensures Dated(Next(s, TickUpdate(now)), Record(s, g, TickUpdate(now)), times + [now])
  {
    var s' := Next(s, TickUpdate(now));
    TickUpdateEffect(s, now);
    forall k, d | Owes(s', k, d) ensures 0 <= k <= |times| && s'.work.owed[k][d].at == (times + [now])[k] {
      if k != s.work.ticks { assert k in s.work.owed - {s.work.ticks} + s'.work.owed && Owes(s, k, d); }
    }
    forall j <- s.db.jobs ensures DatedJob(s.db.jobs[j], g.origin[j].tick, times + [now]) {
      assert DatedJob(s.db.jobs[j], g.origin[j].tick, times);
    }
  }

  lemma DatedInsert(s: State, g: Ledger, times: seq<Time>, k: TickId, d: DashboardId, j: JobId)
    requires Dated(s, g, times)
    ensures Dated(Next(s, TickInsert(k, d, j)), Record(s, g, TickInsert(k, d, j)), times)
  {
    var s' := Next(s, TickInsert(k, d, j));
    if Owes(s, k, d) {
      TickInsertEffect(s, k, d, j);
      forall i, c | Owes(s', i, c) ensures Owes(s, i, c) && s'.work.owed[i][c] == s.work.owed[i][c] {}
    }
  }

  lemma DatedOther(s: State, g: Ledger, times: seq<Time>, step: Step)
    requires Dated(s, g, times) && !step.TickInsert? && !(step.TickUpdate? && step.now <= s.clock)
    ensures Dated(Next(s, step), Record(s, g, step), times)
  {
    var s' := Next(s, step);
    if !step.TickUpdate? && !step.TickFail? { TicksFrame(s, step); }
    forall i, c | Owes(s', i, c) ensures Owes(s, i, c) && s'.work.owed[i][c] == s.work.owed[i][c] {}
    forall j <- s'.db.jobs ensures j in g.origin && DatedJob(s'.db.jobs[j], g.origin[j].tick, times) {
      if j in s.db.jobs { JobEdge(s, step, j); } else { JobBirth(s, step, j); }
    }
  }

  lemma DatedStep(s: State, g: Ledger, times: seq<Time>, step: Step)
    requires Dated(s, g, times)
    ensures Dated(Next(s, step), Record(s, g, step), times + TickTime(s, step))
  {
    assert times + [] == times;
    if TickTime(s, step) != [] {
      DatedTick(s, g, times, step.now);
    } else if step.TickInsert? {
      DatedInsert(s, g, times, step.tick, step.dashboard, step.newJob);
    } else {
      DatedOther(s, g, times, step);
    }
  }

  lemma {:induction false} DatedAlways(s: State, g: Ledger, times: seq<Time>, steps: seq<Step>)
    requires Dated(s, g, times)
    ensures Dated(Run(s, steps), LedgerAfter(s, g, steps), times + TickTimes(s, steps))
    decreases steps
  {
    if steps == [] {
      assert times + [] == times;
    } else {
      var now, later := TickTime(s, steps[0]), TickTimes(Next(s, steps[0]), steps[1..]);
      DatedStep(s, g, times, steps[0]);
      DatedAlways(Next(s, steps[0]), Record(s, g, steps[0]), times + now, steps[1..]);
      assert times + now + later == times + (now + later);
    }
  }

  /**
    Earlier ticks are served first: in every run, no probe hands out a job of one tick while a job of
    the same tenant from a tick with an earlier time is pending.
   */
  lemma EarlierTickFirst(clock: Time, steps: seq<Step>, p: PollId, pick: JobId, j: JobId)
    requires
      var s := Run(Init(clock), steps);
      && Handle(s, ProbeTransaction(p, pick)).reply.Granted?
      && j in s.db.jobs && pick in s.db.jobs
      && s.db.jobs[j].status == Pending && s.db.jobs[j].tenant == s.db.jobs[pick].tenant
    ensures
      var g, times := LedgerAfter(Init(clock), EMPTY, steps), TickTimes(Init(clock), steps);
      && j in g.origin && pick in g.origin
      && 0 <= g.origin[j].tick < |times| && 0 <= g.origin[pick].tick < |times|
      && times[g.origin[pick].tick] <= times[g.origin[j].tick]
  {
    var s, g := Run(Init(clock), steps), LedgerAfter(Init(clock), EMPTY, steps);
    var times := TickTimes(Init(clock), steps);
    DatedAlways(Init(clock), EMPTY, [], steps);
    assert [] + times == times;
    assert DatedJob(s.db.jobs[j], g.origin[j].tick, times) && DatedJob(s.db.jobs[pick], g.origin[pick].tick, times);
    assert PendingFor(s.db.jobs[j], s.db.jobs[pick].tenant);
  }
}
