/** What a long-poll may do: how often it probes, what it hands out, and what revocation leaves open. */
module LongPoll {
  import opened Tables
  import opened Protocol
  import opened Lifecycle

  /** Probes are at least a POLL_INTERVAL apart and none begins at or after the deadline. */
  ghost predicate Paced(poll: Poll, clock: Time) {
    && 1 <= poll.timeout <= MAX_POLL_TIMEOUT
    && 0 <= poll.probes <= poll.timeout
    && poll.openedAt <= clock
    && match poll.phase
       case Asleep(until) => poll.openedAt + Seconds(poll.probes * POLL_INTERVAL) <= until
       case Probing(begunAt) =>
         && poll.openedAt + Seconds((poll.probes - 1) * POLL_INTERVAL) <= begunAt <= clock
         && begunAt < poll.Deadline()
  }

  ghost predicate AllPaced(s: State) {
    forall p <- s.work.polls :: Paced(s.work.polls[p], s.clock)
  }

  /** What a step can do to an open poll. */
  lemma PollEdge(s: State, step: Step, p: PollId)
    requires p in Next(s, step).work.polls
    ensures
      var poll' := Next(s, step).work.polls[p];
      if p !in s.work.polls then
        && step.OpenPoll? && Authorised(s, step.agent)
        && poll' == Poll(step.agent, s.db.agents[step.agent].tenant, s.clock, step.timeout, Asleep(s.clock), 0)
        && 1 <= step.timeout <= MAX_POLL_TIMEOUT
      else
        var poll := s.work.polls[p];
        || poll' == poll
        || (&& step == BeginProbe(p) && poll.phase.Asleep? && poll.phase.until <= s.clock < poll.Deadline()
            && poll' == poll.(phase := Probing(s.clock), probes := poll.probes + 1))
        || (&& step.ProbeTransaction? && step.poll == p && poll.phase.Probing?
            && NonePending(s.db.jobs, poll.tenant)
            && poll' == poll.(phase := Asleep(s.clock + Seconds(POLL_INTERVAL))))
  {}

  lemma PacedStep(s: State, step: Step)
    requires AllPaced(s)
    ensures AllPaced(Next(s, step))
  {
    ClockStep(s, step);
    forall p <- Next(s, step).work.polls ensures Paced(Next(s, step).work.polls[p], Next(s, step).clock) {
      PollEdge(s, step, p);
    }
  }

  /** In every run a poll makes at most `timeout` probes, and never more than 25. */
  lemma {:induction false} ProbesBounded(s: State, steps: seq<Step>)
    requires AllPaced(s)
    ensures AllPaced(Run(s, steps))
    ensures forall p <- Run(s, steps).work.polls ::
              Run(s, steps).work.polls[p].probes <= Run(s, steps).work.polls[p].timeout <= MAX_POLL_TIMEOUT
    decreases steps
  {
    if steps != [] {
      PacedStep(s, steps[0]);
      ProbesBounded(Next(s, steps[0]), steps[1..]);
    } else {
      assert forall p <- s.work.polls :: Paced(s.work.polls[p], s.clock);
    }
  }

  /** Every probe of poll p along the run found no pending job of its tenant. */
  ghost predicate ProbesFoundNothing(s: State, steps: seq<Step>, p: PollId)
    decreases steps
  {
    steps != [] ==>
      && (steps[0].ProbeTransaction? && steps[0].poll == p && DoProbeTransaction(s, p, steps[0].pick).reply != Quiet ==>
            p in s.work.polls && NonePending(s.db.jobs, s.work.polls[p].tenant))
      && ProbesFoundNothing(Next(s, steps[0]), steps[1..], p)
  }

  /** A poll that is still open, and so may yet be answered 204, has found nothing so far. */
  lemma {:induction false} StillOpenFoundNothing(s: State, steps: seq<Step>, p: PollId)
    requires p in s.work.polls && p in Run(s, steps).work.polls
    requires forall step <- steps :: !(step.OpenPoll? && step.poll == p)
    ensures ProbesFoundNothing(s, steps, p)
    decreases steps
  {
    if steps != [] {
      var s' := Next(s, steps[0]);
      if p !in s'.work.polls {
        StaysClosed(s', steps[1..], p);
      } else {
        PollEdge(s, steps[0], p);
        StillOpenFoundNothing(s', steps[1..], p);
      }
    }
  }

  lemma {:induction false} StaysClosed(s: State, steps: seq<Step>, p: PollId)
    requires p !in s.work.polls
    requires forall step <- steps :: !(step.OpenPoll? && step.poll == p)
    ensures p !in Run(s, steps).work.polls
    decreases steps
  {
    if steps != [] {
      assert steps[0] in steps;
      if p in Next(s, steps[0]).work.polls {
        PollEdge(s, steps[0], p);
      }
      StaysClosed(Next(s, steps[0]), steps[1..], p);
    }
  }

  // ---- Revocation ----

  ghost predicate IsRevoked(s: State, a: AgentId) {
    a in s.db.agents && s.db.agents[a].revokedAt.Some?
  }

  lemma RevokedStep(s: State, step: Step, a: AgentId)
    requires IsRevoked(s, a)
    ensures a in Next(s, step).db.agents && Next(s, step).db.agents[a] == s.db.agents[a]
  {}

  /** revoked_at is set once and never cleared or moved. */
  lemma {:induction false} RevokedForever(s: State, steps: seq<Step>, a: AgentId)
    requires IsRevoked(s, a)
    ensures IsRevoked(Run(s, steps), a) && Run(s, steps).db.agents[a] == s.db.agents[a]
    decreases steps
  {
    if steps != [] {
      RevokedStep(s, steps[0], a);
      RevokedForever(Next(s, steps[0]), steps[1..], a);
    }
  }

  /** However much later, every request a revoked agent sends is refused with 401 and changes nothing. */
  lemma RevokedRefused(
    s: State, steps: seq<Step>, a: AgentId, p: PollId, timeout: int, r: RequestId, j: JobId, body: Body)
    requires IsRevoked(s, a) && 1 <= timeout <= MAX_POLL_TIMEOUT
    ensures
      var s' := Run(s, steps);
      && (p !in s'.work.polls ==> DoOpenPoll(s', p, a, timeout) == Outcome(s', Unauthorized))
      && (r !in s'.work.submissions ==> DoSubmitCheck(s', r, a, j, body) == Outcome(s', Unauthorized))
  {
    RevokedForever(s, steps, a);
  }

  /** After revocation the agent's open polls are among those open at that moment, on their old deadlines. */
  lemma {:induction false} RevokedPolls(s: State, steps: seq<Step>, a: AgentId, p: PollId)
    requires IsRevoked(s, a)
    requires p in Run(s, steps).work.polls && Run(s, steps).work.polls[p].agent == a
    ensures p in s.work.polls && s.work.polls[p].agent == a
    ensures s.work.polls[p].Deadline() == Run(s, steps).work.polls[p].Deadline()
    decreases steps
  {
    if steps != [] {
      RevokedStep(s, steps[0], a);
      RevokedPolls(Next(s, steps[0]), steps[1..], a, p);
      PollEdge(s, steps[0], p);
    }
  }

  /** A post being handled was being handled before, or has just been let through for an authorised agent. */
  lemma PostEdge(s: State, step: Step, r: RequestId)
    requires r in Next(s, step).work.submissions
    ensures
      var sub := Next(s, step).work.submissions[r];
      || (r in s.work.submissions && sub == s.work.submissions[r])
      || (&& step.SubmitCheck? && step.request == r && sub.agent == step.agent && sub.job == step.job
          && sub.body == step.body
          && Authorised(s, step.agent))
  {}

  /**
    The other half: every post of a revoked agent still in flight, and so possibly accepted later,
    had passed its check before the revocation and is unchanged since.
   */
  lemma {:induction false} RevokedPosts(s: State, steps: seq<Step>, a: AgentId, r: RequestId)
    requires IsRevoked(s, a)
    requires r in Run(s, steps).work.submissions && Run(s, steps).work.submissions[r].agent == a
    ensures r in s.work.submissions && s.work.submissions[r] == Run(s, steps).work.submissions[r]
    decreases steps
  {
    if steps != [] {
      RevokedStep(s, steps[0], a);
      RevokedPosts(Next(s, steps[0]), steps[1..], a, r);
      PostEdge(s, steps[0], r);
    }
  }

  /**
    Revocation bound: every job a revoked agent is still handed comes from a poll authorised
    before the revocation, in a probe begun less than 25 seconds after it.
   */
  lemma RevocationBound(s: State, steps: seq<Step>, a: AgentId, p: PollId, pick: JobId)
    requires AllPaced(s) && IsRevoked(s, a)
    requires
      var s' := Run(s, steps);
      DoProbeTransaction(s', p, pick).reply.Granted? && s'.work.polls[p].agent == a
    ensures p in s.work.polls && s.work.polls[p].agent == a
    ensures Run(s, steps).work.polls[p].phase.begunAt < s.clock + 25_000_000
  {
    RevokedPolls(s, steps, a, p);
    ProbesBounded(s, steps);
    assert Paced(Run(s, steps).work.polls[p], Run(s, steps).clock);
    assert Paced(s.work.polls[p], s.clock);
  }
}
