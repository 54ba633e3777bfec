/**
  First come, first served. Once a job's tick has finished inserting, nothing can get in front of
  it: the unfinished jobs of its tenant that are no younger only become fewer, reaps included,
  and serving that many of the tenant's claims finishes the job.
 */
module Service {
  import opened Tables
  import opened Protocol
  import opened Lifecycle

  /** The unfinished jobs of j's tenant that were created no later than j, j among them. */
  function Ahead(s: State, j: JobId): set<JobId>
    requires j in s.db.jobs
  {
    set k | k in s.db.jobs && InFront(s.db.jobs[k], s.db.jobs[j].tenant, s.db.jobs[j].createdAt)
  }

  predicate InFront(job: Job, t: TenantId, at: Time) {
    job.tenant == t && !job.Terminal() && job.createdAt <= at
  }

  /** No tick still owes tenant t a job that would be created at `at` or earlier. */
  ghost predicate TickEnded(s: State, t: TenantId, at: Time) {
    forall k, d | Owes(s, k, d) :: s.work.owed[k][d].tenant == t ==> at < s.work.owed[k][d].at
  }

  /** Tick times increase: every later tick captures a time after `at`. */
  ghost predicate LaterTicks(steps: seq<Step>, at: Time) {
    forall step <- steps :: step.TickUpdate? ==> at < step.now
  }

  lemma TickEndedStep(s: State, step: Step, t: TenantId, at: Time)
    requires TickEnded(s, t, at) && (step.TickUpdate? ==> at < step.now)
    ensures TickEnded(Next(s, step), t, at)
  {
    var s' := Next(s, step);
    forall k, d | Owes(s', k, d)
      ensures || (Owes(s, k, d) && s'.work.owed[k][d] == s.work.owed[k][d])
              || (step.TickUpdate? && s'.work.owed[k][d].at == step.now)
    {
      OwedEdge(s, step, k, d);
    }
  }

  lemma OwedEdge(s: State, step: Step, k: TickId, d: DashboardId)
    requires Owes(Next(s, step), k, d)
    ensures (Owes(s, k, d) && Next(s, step).work.owed[k][d] == s.work.owed[k][d])
            || (step.TickUpdate? && Next(s, step).work.owed[k][d].at == step.now)
  {}

  lemma AheadStep(s: State, step: Step, j: JobId)
    requires j in s.db.jobs && TickEnded(s, s.db.jobs[j].tenant, s.db.jobs[j].createdAt)
    ensures j in Next(s, step).db.jobs && SameOrder(s.db.jobs[j], Next(s, step).db.jobs[j])
    ensures Ahead(Next(s, step), j) <= Ahead(s, j)
  {
    JobEdge(s, step, j);
    forall k <- Ahead(Next(s, step), j) ensures k in Ahead(s, j) {
      if k in s.db.jobs { JobEdge(s, step, k); } else { JobBirth(s, step, k); }
    }
  }

  /** No overtaking: over any run, reaps included, the set ahead of a job only shrinks. */
  lemma {:induction false} NoOvertaking(s: State, steps: seq<Step>, j: JobId)
    requires j in s.db.jobs && TickEnded(s, s.db.jobs[j].tenant, s.db.jobs[j].createdAt)
    requires LaterTicks(steps, s.db.jobs[j].createdAt)
    ensures j in Run(s, steps).db.jobs && Ahead(Run(s, steps), j) <= Ahead(s, j)
    decreases steps
  {
    if steps != [] {
      assert steps[0] in steps;
      AheadStep(s, steps[0], j);
      TickEndedStep(s, steps[0], s.db.jobs[j].tenant, s.db.jobs[j].createdAt);
      NoOvertaking(Next(s, steps[0]), steps[1..], j);
    }
  }

  // ---- Bounded service ----

  ghost predicate ClaimsFor(s: State, step: Step, t: TenantId) {
    step.ProbeTransaction? && Claims(s, step, step.pick) && s.work.polls[step.poll].tenant == t
  }

  predicate Busy(s: State, current: Option<JobId>) {
    current.Some? && current.value in s.db.jobs && !s.db.jobs[current.value].Terminal()
  }

  ghost function Current(s: State, step: Step, t: TenantId, current: Option<JobId>): Option<JobId> {
    if ClaimsFor(s, step, t) then Some(step.pick) else current
  }

  /** Each claim of tenant t is followed by its accepted post before the next claim and before any reap. */
  ghost predicate OneAtATime(s: State, steps: seq<Step>, t: TenantId, current: Option<JobId>)
    decreases steps
  {
    steps != [] ==>
      && (ClaimsFor(s, steps[0], t) || steps[0].Reap? ==> !Busy(s, current))
      && OneAtATime(Next(s, steps[0]), steps[1..], t, Current(s, steps[0], t, current))
  }

  ghost function ClaimCount(s: State, steps: seq<Step>, t: TenantId): nat
    decreases steps
  {
    if steps == [] then 0
    else (if ClaimsFor(s, steps[0], t) then 1 else 0) + ClaimCount(Next(s, steps[0]), steps[1..], t)
  }

  ghost function LastClaim(s: State, steps: seq<Step>, t: TenantId, current: Option<JobId>): Option<JobId>
    decreases steps
  {
    if steps == [] then current
    else LastClaim(Next(s, steps[0]), steps[1..], t, Current(s, steps[0], t, current))
  }

  /** The only running job of tenant t is the current one. */
  ghost predicate OnlyCurrentRuns(s: State, t: TenantId, current: Option<JobId>) {
    && (current.Some? ==> current.value in s.db.jobs)
    && forall k <- s.db.jobs :: s.db.jobs[k].tenant == t && s.db.jobs[k].status == Running ==> current == Some(k)
  }

  lemma OnlyCurrentStep(s: State, step: Step, t: TenantId, current: Option<JobId>)
    requires OnlyCurrentRuns(s, t, current)
    requires ClaimsFor(s, step, t) ==> !Busy(s, current)
    ensures OnlyCurrentRuns(Next(s, step), t, Current(s, step, t, current))
  {
    if current.Some? { JobEdge(s, step, current.value); }
    if ClaimsFor(s, step, t) { JobEdge(s, step, step.pick); }
    forall k <- Next(s, step).db.jobs
      ensures Next(s, step).db.jobs[k].tenant == t && Next(s, step).db.jobs[k].status == Running ==>
                Current(s, step, t, current) == Some(k)
    {
      if k in s.db.jobs { JobEdge(s, step, k); } else { JobBirth(s, step, k); }
    }
  }

  function Unit(b: bool): int {
    if b then 1 else 0
  }

  /** One step: a claim takes a job that is ahead of j, and an accepted post takes it away. */
  lemma ServeStep(s: State, step: Step, j: JobId, t: TenantId, current: Option<JobId>)
    requires j in s.db.jobs && s.db.jobs[j].tenant == t && !s.db.jobs[j].Terminal()
    requires TickEnded(s, t, s.db.jobs[j].createdAt) && OnlyCurrentRuns(s, t, current)
    requires Busy(s, current) ==> current.value in Ahead(s, j)
    requires ClaimsFor(s, step, t) ==> !Busy(s, current)
    requires j in Next(s, step).db.jobs
    ensures
      var s', current' := Next(s, step), Current(s, step, t, current);
      && (Busy(s', current') && !s'.db.jobs[j].Terminal() ==> current'.value in Ahead(s', j))
      && Unit(ClaimsFor(s, step, t)) + |Ahead(s', j)| + Unit(Busy(s, current))
         <= |Ahead(s, j)| + Unit(Busy(s', current'))
  {
    var s', current' := Next(s, step), Current(s, step, t, current);
    AheadStep(s, step, j);
    Subset(Ahead(s', j), Ahead(s, j));
    if ClaimsFor(s, step, t) {
      JobEdge(s, step, step.pick);
      assert PendingFor(s.db.jobs[j], t);
    } else if Busy(s, current) {
      JobEdge(s, step, current.value);
      if !Busy(s', current) {
        Subset(Ahead(s', j), Ahead(s, j) - {current.value});
      }
    } else if current.Some? && current.value in s.db.jobs {
      JobEdge(s, step, current.value);
    }
  }

  lemma Subset(a: set<int>, b: set<int>)
    requires a <= b
    ensures |a| <= |b|
  {
    assert b == a + (b - a);
  }

  lemma {:induction false} Served(s: State, steps: seq<Step>, j: JobId, t: TenantId, current: Option<JobId>)
    requires j in s.db.jobs && s.db.jobs[j].tenant == t
    requires TickEnded(s, t, s.db.jobs[j].createdAt) && LaterTicks(steps, s.db.jobs[j].createdAt)
    requires OnlyCurrentRuns(s, t, current) && OneAtATime(s, steps, t, current)
    requires Busy(s, current) ==> current.value in Ahead(s, j)
    requires j in Run(s, steps).db.jobs && !Run(s, steps).db.jobs[j].Terminal()
    ensures ClaimCount(s, steps, t) + |Ahead(Run(s, steps), j)| + Unit(Busy(s, current))
            <= |Ahead(s, j)| + Unit(Busy(Run(s, steps), LastClaim(s, steps, t, current)))
    decreases steps
  {
    if steps != [] {
      assert steps[0] in steps;
      var s', current' := Next(s, steps[0]), Current(s, steps[0], t, current);
      JobForever(s, steps, j);
      AheadStep(s, steps[0], j);
      JobForever(s', steps[1..], j);
      ServeStep(s, steps[0], j, t, current);
      TickEndedStep(s, steps[0], t, s.db.jobs[j].createdAt);
      OnlyCurrentStep(s, steps[0], t, current);
      Served(s', steps[1..], j, t, current');
    }
  }

  /**
    Bounded service: with no running job of the tenant at the start, once as many claims of the
    tenant have been served as there are jobs ahead of j, job j is done or failed.
   */
  lemma BoundedService(s: State, steps: seq<Step>, j: JobId)
    requires j in s.db.jobs
    requires TickEnded(s, s.db.jobs[j].tenant, s.db.jobs[j].createdAt) && LaterTicks(steps, s.db.jobs[j].createdAt)
    requires OnlyCurrentRuns(s, s.db.jobs[j].tenant, None)
    requires OneAtATime(s, steps, s.db.jobs[j].tenant, None)
    requires !Busy(Run(s, steps), LastClaim(s, steps, s.db.jobs[j].tenant, None))
    requires |Ahead(s, j)| <= ClaimCount(s, steps, s.db.jobs[j].tenant)
    ensures j in Run(s, steps).db.jobs && Run(s, steps).db.jobs[j].Terminal()
  {
    JobForever(s, steps, j);
    if !Run(s, steps).db.jobs[j].Terminal() {
      assert Ahead(Run(s, steps), j) >= {j};
      Subset({j}, Ahead(Run(s, steps), j));
      Served(s, steps, j, s.db.jobs[j].tenant, None);
    }
  }

  // ---- The queue in front of a pending job ----

  /** The pending jobs of j's tenant that were created no later than j, j among them if it is pending. */
  function QueueTo(s: State, j: JobId): set<JobId>
    requires j in s.db.jobs
  {
    set k | k in s.db.jobs && PendingFor(s.db.jobs[k], s.db.jobs[j].tenant)
            && s.db.jobs[k].createdAt <= s.db.jobs[j].createdAt
  }

  /** The jobs in front of j that a step returns to the queue. */
  function Requeued(s: State, step: Step, j: JobId): set<JobId>
    requires j in s.db.jobs
  {
    set k | k in s.db.jobs && InFront(s.db.jobs[k], s.db.jobs[j].tenant, s.db.jobs[j].createdAt) && Expires(s, step, k)
  }

  /** Job j is pending throughout the run. */
  predicate StaysPending(s: State, steps: seq<Step>, j: JobId)
    decreases steps
  {
    && j in s.db.jobs && s.db.jobs[j].status == Pending
    && (steps != [] ==> StaysPending(Next(s, steps[0]), steps[1..], j))
  }

  /** How often, along the run, a lease of a job in front of j expires. */
  function RequeueCount(s: State, steps: seq<Step>, j: JobId): nat
    requires StaysPending(s, steps, j)
    decreases steps
  {
    if steps == [] then 0 else |Requeued(s, steps[0], j)| + RequeueCount(Next(s, steps[0]), steps[1..], j)
  }

  lemma QueueStep(s: State, step: Step, j: JobId, t: TenantId)
    requires j in s.db.jobs && s.db.jobs[j].status == Pending && s.db.jobs[j].tenant == t
    requires TickEnded(s, t, s.db.jobs[j].createdAt)
    requires j in Next(s, step).db.jobs && Next(s, step).db.jobs[j].status == Pending
    ensures Unit(ClaimsFor(s, step, t)) + |QueueTo(Next(s, step), j)| <= |QueueTo(s, j)| + |Requeued(s, step, j)|
  {
    var before, after, back := QueueTo(s, j), QueueTo(Next(s, step), j), Requeued(s, step, j);
    JobEdge(s, step, j);
    forall k <- after ensures k in before + back && !(ClaimsFor(s, step, t) && k == step.pick) {
      if k in s.db.jobs { JobEdge(s, step, k); } else { JobBirth(s, step, k); }
    }
    if ClaimsFor(s, step, t) {
      JobEdge(s, step, step.pick);
      assert PendingFor(s.db.jobs[j], t) && step.pick in before;
      assert back == {};
      Subset(after, before - {step.pick});
    } else {
      Subset(after, before + back);
    }
  }

  /**
    Waiting time without any assumption on the agents: while j stays pending, the tenant's claims
    are fewer than the jobs that were in front of it, itself included, and the leases of jobs in
    front of it that expired meanwhile.
   */
  lemma {:induction false} ClaimsWhilePending(s: State, steps: seq<Step>, j: JobId, t: TenantId)
    requires StaysPending(s, steps, j) && s.db.jobs[j].tenant == t
    requires TickEnded(s, t, s.db.jobs[j].createdAt) && LaterTicks(steps, s.db.jobs[j].createdAt)
    ensures j in Run(s, steps).db.jobs
    ensures ClaimCount(s, steps, t) + |QueueTo(Run(s, steps), j)| <= |QueueTo(s, j)| + RequeueCount(s, steps, j)
    ensures ClaimCount(s, steps, t) < |QueueTo(s, j)| + RequeueCount(s, steps, j)
    decreases steps
  {
    if steps == [] {
      Subset({j}, QueueTo(s, j));
    } else {
      assert steps[0] in steps;
      JobEdge(s, steps[0], j);
      QueueStep(s, steps[0], j, t);
      TickEndedStep(s, steps[0], t, s.db.jobs[j].createdAt);
      ClaimsWhilePending(Next(s, steps[0]), steps[1..], j, t);
    }
  }
}
