/**
  What each step answers and writes, column by column, in terms of the request and the rows alone.
  The theorems over runs speak of these steps through names; here the names are cashed in.
 */
module Effects {
  import opened Tables
  import opened Protocol

  /** Nothing changed, and this was the answer. */
  predicate Refused(s: State, o: Outcome, reply: Reply) {
    o.state == s && o.reply == reply
  }

  lemma CreateTenantEffect(s: State, t: TenantId, name: string)
    ensures
      var o := Handle(s, CreateTenant(t, name));
      if name == "" || |name| > 200 then Refused(s, o, Unprocessable)
      else if t in s.db.tenants then Refused(s, o, ServerError)
      else
        var row := Tenant(name := name, enrolledAt := None, createdAt := s.clock);
        o.reply == Created && o.state == s.(db := s.db.(tenants := s.db.tenants[t := row]))
  {}

  /** The first run is due at once: next_run_at is the time of creation. */
  lemma CreateDashboardEffect(s: State, d: DashboardId, t: TenantId, name: string, sql: string, interval: int)
    ensures
      var o := Handle(s, CreateDashboard(d, t, name, sql, interval));
      if name == "" || |name| > 200 || sql == "" || interval < 5 || interval > 86400 then Refused(s, o, Unprocessable)
      else if t !in s.db.tenants then Refused(s, o, NotFound)
      else if d in s.db.dashboards then Refused(s, o, ServerError)
      else
        var row := Dashboard(tenant := t, name := name, sql := sql, refreshInterval := interval,
                             nextRunAt := s.clock, createdAt := s.clock);
        o.reply == Created && o.state == s.(db := s.db.(dashboards := s.db.dashboards[d := row]))
  {}

  lemma EnrolLookupEffect(s: State, r: RequestId, t: TenantId)
    requires r !in s.work.enrolments
    ensures
      var o := Handle(s, EnrolLookup(r, t));
      if t in s.db.tenants && s.db.tenants[t].enrolledAt == None then
        && o.reply == Suspended && o.state.db == s.db && o.state.clock == s.clock
        && o.state.work == s.work.(enrolments := s.work.enrolments[r := Enrolment(tenant := t, at := s.clock)])
      else Refused(s, o, Unauthorized)
  {}

  /** Both rows or, if the new id is taken, neither. */
  lemma EnrolCommitEffect(s: State, r: RequestId, a: AgentId)
    requires r in s.work.enrolments && s.work.enrolments[r].tenant in s.db.tenants
    ensures
      var o, e := Handle(s, EnrolCommit(r, a)), s.work.enrolments[r];
      && o.state.clock == s.clock && o.state.work == s.work.(enrolments := s.work.enrolments - {r})
      && if a in s.db.agents then o.reply == ServerError && o.state.db == s.db
         else
           && o.reply == Created
           && o.state.db.agents == s.db.agents[a := Agent(tenant := e.tenant, createdAt := e.at, revokedAt := None)]
           && e.tenant in o.state.db.tenants && o.state.db.tenants[e.tenant].enrolledAt == Some(e.at)
           && o.state.db.tenants[e.tenant].name == s.db.tenants[e.tenant].name
           && o.state.db.tenants[e.tenant].createdAt == s.db.tenants[e.tenant].createdAt
           && o.state.db.tenants - {e.tenant} == s.db.tenants - {e.tenant}
           && o.state.db.dashboards == s.db.dashboards && o.state.db.jobs == s.db.jobs
           && o.state.db.results == s.db.results
  {}

  /** revoked_at is set on the one row, once; an unknown or already revoked agent is 404. */
  lemma RevokeEffect(s: State, a: AgentId)
    ensures
      var o := Handle(s, Revoke(a));
      if a in s.db.agents && s.db.agents[a].revokedAt == None then
        && o.reply == Revoked && a in o.state.db.agents
        && o.state.db.agents[a].revokedAt == Some(s.clock)
        && o.state.db.agents[a].tenant == s.db.agents[a].tenant
        && o.state.db.agents[a].createdAt == s.db.agents[a].createdAt
        && o.state.db.agents - {a} == s.db.agents - {a}
        && o.state == s.(db := s.db.(agents := o.state.db.agents))
      else Refused(s, o, NotFound)
  {}

  predicate MayCall(s: State, a: AgentId) {
    a in s.db.agents && s.db.agents[a].revokedAt == None
  }

  lemma OpenPollEffect(s: State, p: PollId, a: AgentId, timeout: int)
    requires p !in s.work.polls
    ensures
      var o := Handle(s, OpenPoll(p, a, timeout));
      if timeout < 1 || timeout > 25 then Refused(s, o, Unprocessable)
      else if !MayCall(s, a) then Refused(s, o, Unauthorized)
      else
        && o.reply == Suspended && o.state.db == s.db && o.state.clock == s.clock
        && o.state.work == s.work.(polls := o.state.work.polls) && o.state.work.polls - {p} == s.work.polls
        && p in o.state.work.polls
        && var poll := o.state.work.polls[p];
           && poll.agent == a && poll.tenant == s.db.agents[a].tenant && poll.openedAt == s.clock
           && poll.Deadline() == s.clock + timeout * 1_000_000 && poll.phase == Asleep(s.clock)
  {}

  /** The loop test: a probe while the deadline has not passed, and 204 once it has. */
  lemma BeginProbeEffect(s: State, p: PollId)
    requires p in s.work.polls
    ensures
      var o, poll := Handle(s, BeginProbe(p)), s.work.polls[p];
      && o.state == s.(work := s.work.(polls := o.state.work.polls))
      && o.state.work.polls - {p} == s.work.polls - {p}
      && (o.reply == NoContent <==> poll.phase.Asleep? && poll.phase.until <= s.clock && poll.Deadline() <= s.clock)
      && (p !in o.state.work.polls <==> o.reply == NoContent)
      && (o.reply == Suspended <==> poll.phase.Asleep? && poll.phase.until <= s.clock < poll.Deadline())
      && (o.reply == Suspended ==>
            && o.state.work.polls[p].phase == Probing(s.clock) && o.state.work.polls[p].agent == poll.agent
            && o.state.work.polls[p].tenant == poll.tenant && o.state.work.polls[p].Deadline() == poll.Deadline())
  {}

  predicate Waits(job: Job, t: TenantId) {
    job.tenant == t && job.status == Pending
  }

  /** With nothing pending for its tenant the poll sleeps for a second. */
  lemma EmptyProbeEffect(s: State, p: PollId, pick: JobId)
    requires p in s.work.polls && s.work.polls[p].phase.Probing?
    requires forall j <- s.db.jobs :: !Waits(s.db.jobs[j], s.work.polls[p].tenant)
    ensures
      var o := Handle(s, ProbeTransaction(p, pick));
      && o.reply == Suspended && o.state == s.(work := s.work.(polls := o.state.work.polls))
      && o.state.work.polls.Keys == s.work.polls.Keys && o.state.work.polls[p].phase == Asleep(s.clock + 1_000_000)
      && o.state.work.polls - {p} == s.work.polls - {p}
  {
    var t := s.work.polls[p].tenant;
    assert forall j | j in s.db.jobs :: Waits(s.db.jobs[j], t) == PendingFor(s.db.jobs[j], t);
  }

  /** Otherwise an oldest one is taken: its status, claimer and claim time are written, and the poll ends. */
  lemma ClaimEffect(s: State, p: PollId, pick: JobId)
    requires p in s.work.polls && s.work.polls[p].phase.Probing?
    requires pick in s.db.jobs && Waits(s.db.jobs[pick], s.work.polls[p].tenant)
    requires forall j <- s.db.jobs ::
               Waits(s.db.jobs[j], s.work.polls[p].tenant) ==> s.db.jobs[pick].createdAt <= s.db.jobs[j].createdAt
    ensures
      var o, was := Handle(s, ProbeTransaction(p, pick)), s.db.jobs[pick];
      && o.reply == Granted(job := pick, dashboard := was.dashboard, sql := was.sql, timeoutMs := was.timeoutMs)
      && o.state.clock == s.clock && o.state.work == s.work.(polls := s.work.polls - {p})
      && o.state.db == s.db.(jobs := o.state.db.jobs) && o.state.db.jobs - {pick} == s.db.jobs - {pick}
      && pick in o.state.db.jobs
      && var job := o.state.db.jobs[pick];
         && job.status == Running && job.claimedBy == Some(s.work.polls[p].agent) && job.claimedAt == Some(s.clock)
         && job.tenant == was.tenant && job.dashboard == was.dashboard && job.sql == was.sql
         && job.timeoutMs == was.timeoutMs && job.createdAt == was.createdAt
  {
    assert PendingFor(s.db.jobs[pick], s.work.polls[p].tenant);
    assert OldestPending(s.db.jobs, s.work.polls[p].tenant, pick);
  }

  lemma AbortPollEffect(s: State, p: PollId)
    requires p in s.work.polls
    ensures
      var o := Handle(s, AbortPoll(p));
      o.reply == ServerError && o.state == s.(work := s.work.(polls := s.work.polls - {p}))
  {}

  /** The guards in order: token, job, tenant, duplicate; then the post waits for its transaction. */
  lemma SubmitCheckEffect(s: State, r: RequestId, a: AgentId, j: JobId, body: Body)
    requires r !in s.work.submissions
    ensures
      var o := Handle(s, SubmitCheck(r, a, j, body));
      if !MayCall(s, a) then Refused(s, o, Unauthorized)
      else if j !in s.db.jobs then Refused(s, o, NotFound)
      else if s.db.jobs[j].tenant != s.db.agents[a].tenant then Refused(s, o, Forbidden)
      else if exists d <- s.db.results :: s.db.results[d].job == j then Refused(s, o, Conflict)
      else
        var sub := Submission(agent := a, tenant := s.db.agents[a].tenant, job := j,
                              dashboard := s.db.jobs[j].dashboard, body := body, at := s.clock);
        o.reply == Suspended && o.state == s.(work := s.work.(submissions := s.work.submissions[r := sub]))
  {}

  /** Row and status together: the row shows this post, and the job is done or failed as the body says. */
  lemma SubmitCommitEffect(s: State, r: RequestId)
    requires r in s.work.submissions && s.work.submissions[r].job in s.db.jobs
    ensures
      var o, sub := Handle(s, SubmitCommit(r)), s.work.submissions[r];
      var db, d := o.state.db, sub.dashboard;
      && o.reply == Accepted && o.state.clock == s.clock
      && o.state.work == s.work.(submissions := s.work.submissions - {r})
      && d in db.results && db.results[d].job == sub.job && db.results[d].body == sub.body
      && db.results[d].recordedAt == sub.at && db.results - {d} == s.db.results - {d}
      && db.results[d].tenant == (if d in s.db.results then s.db.results[d].tenant else sub.tenant)
      && sub.job in db.jobs && db.jobs - {sub.job} == s.db.jobs - {sub.job}
      && db.jobs[sub.job] == s.db.jobs[sub.job].(status := db.jobs[sub.job].status)
      && db.jobs[sub.job].status == (if sub.body.success then Done else Failed)
      && db.tenants == s.db.tenants && db.agents == s.db.agents && db.dashboards == s.db.dashboards
  {}

  lemma SubmitAbortEffect(s: State, r: RequestId)
    requires r in s.work.submissions
    ensures
      var o := Handle(s, SubmitAbort(r));
      o.reply == ServerError && o.state == s.(work := s.work.(submissions := s.work.submissions - {r}))
  {}

  /** Each due dashboard advances by its interval, from its old slot; its INSERT is owed with this tick's time. */
  lemma TickUpdateEffect(s: State, now: Time)
    requires now <= s.clock
    ensures
      var s', k := Handle(s, TickUpdate(now)).state, s.work.ticks;
      && s'.clock == s.clock && s'.db == s.db.(dashboards := s'.db.dashboards)
      && s'.work == s.work.(owed := s'.work.owed, ticks := k + 1)
      && s'.db.dashboards.Keys == s.db.dashboards.Keys
      && k in s'.work.owed && s'.work.owed - {k} == s.work.owed - {k}
      && forall d <- s.db.dashboards ::
           var was, after := s.db.dashboards[d], s'.db.dashboards[d];
           && after == was.(nextRunAt := after.nextRunAt)
           && after.nextRunAt == was.nextRunAt + (if was.nextRunAt <= now then was.refreshInterval * 1_000_000 else 0)
           && (d in s'.work.owed[k] <==> was.nextRunAt <= now)
           && (was.nextRunAt <= now ==> s'.work.owed[k][d] == Due(tenant := was.tenant, sql := was.sql, at := now))
  {}

  /** The INSERT makes one pending job with the tick's time, or, if the id is taken, ends the tick. */
  lemma TickInsertEffect(s: State, k: TickId, d: DashboardId, j: JobId)
    requires k in s.work.owed && d in s.work.owed[k]
    ensures
      var s', due := Handle(s, TickInsert(k, d, j)).state, s.work.owed[k][d];
      && s'.clock == s.clock
      && if j in s.db.jobs then s'.db == s.db && s'.work == s.work.(owed := s.work.owed - {k})
         else
           && s'.work == s.work.(owed := s.work.owed[k := s.work.owed[k] - {d}])
           && s'.db == s.db.(jobs := s'.db.jobs) && s'.db.jobs - {j} == s.db.jobs && j in s'.db.jobs
           && s'.db.jobs[j] == Job(tenant := due.tenant, dashboard := d, sql := due.sql, status := Pending,
                                   claimedBy := None, claimedAt := None, timeoutMs := 30000, createdAt := due.at)
  {}

  lemma TickFailEffect(s: State, k: TickId)
    ensures Handle(s, TickFail(k)).state == s.(work := s.work.(owed := s.work.owed - {k}))
  {}

  /** Exactly the running jobs claimed more than forty seconds before `now` are put back. */
  lemma ReapEffect(s: State, now: Time)
    requires now <= s.clock
    ensures
      var s' := Handle(s, Reap(now)).state;
      && s' == s.(db := s.db.(jobs := s'.db.jobs)) && s'.db.jobs.Keys == s.db.jobs.Keys
      && forall j <- s.db.jobs ::
           var was, after := s.db.jobs[j], s'.db.jobs[j];
           if was.status == Running && was.claimedAt.Some? && was.claimedAt.value + 40_000_000 < now then
             && after.status == Pending && after.claimedBy == None && after.claimedAt == None
             && after.tenant == was.tenant && after.dashboard == was.dashboard && after.sql == was.sql
             && after.timeoutMs == was.timeoutMs && after.createdAt == was.createdAt
           else after == was
  {}

  /** The read: 404 without a dashboard, "pending" without a result, else the stored row. */
  lemma ReadEffect(s: State, d: DashboardId)
    ensures
      var data := GetDashboardData(s, d);
      && (data == NoSuchDashboard <==> d !in s.db.dashboards)
      && (data.StillPending? <==> d in s.db.dashboards && d !in s.db.results)
      && (d in s.db.dashboards && d in s.db.results ==>
            data == Latest(name := s.db.dashboards[d].name, body := s.db.results[d].body,
                           recordedAt := s.db.results[d].recordedAt))
      && (data.StillPending? ==> data.name == s.db.dashboards[d].name)
  {}
}
