/**
  The agent's posting and polling loops, run against the mutable control plane over a lossy link.
  Others may act at every point where the agent or a handler waits.
 */
module Agents {
  import opened Tables
  import opened Protocol
  import opened Lifecycle
  import opened Truncation
  import opened Effects
  import opened Posting
  import opened Server

  predicate PausesAvoid(pauses: seq<Pause>, r: RequestId) {
    forall pause <- pauses :: AvoidsRequest(pause.acquiring + pause.sleeping, r)
  }

  lemma PollAvoids(trace: seq<Step>, p: PollId, others: seq<Pause>, r: RequestId)
    requires PollTrace(trace, p, Script(others)) && PausesAvoid(others, r)
    ensures AvoidsRequest(trace, r)
  {
    forall step <- trace ensures !(step.SubmitCheck? && step.request == r) {
      if step in Script(others) {
        var pause :| pause in others && step in pause.acquiring + pause.sleeping;
      }
    }
  }

  class AgentProcess {
    const id: AgentId
    var exited: bool

    constructor (id: AgentId)
      ensures this.id == id && !exited
    {
      this.id := id;
      exited := false;
    }

    /** One attempt: others act, and the request reaches its handler unless it is lost. */
    method Attempt(server: ControlPlane, r: RequestId, j: JobId, body: Body, delivery: Delivery)
      returns (verdict: Verdict)
      requires r !in server.submissions && delivery.Avoids(r)
      modifies server
      ensures server.Abs() == Run(old(server.Abs()), AttemptSteps(old(server.Abs()), r, id, j, body, delivery))
      ensures verdict == AttemptVerdict(old(server.Abs()), r, id, j, body, delivery)
      ensures
        var steps := AttemptSteps(old(server.Abs()), r, id, j, body, delivery);
        Attempted(old(server.Abs()), server.Abs(), OwnLog(old(server.Abs()), steps, r),
                  OthersLog(old(server.Abs()), steps, r), verdict, r, id, j, body, delivery.fate)
      ensures
        var steps := AttemptSteps(old(server.Abs()), r, id, j, body, delivery);
        AttemptDue(Run(old(server.Abs()), delivery.before), OwnLog(old(server.Abs()), steps, r), verdict, id, j, body,
                   delivery.fate)
    {
      ghost var start := server.Abs();
      AttemptMust(start, r, id, j, body, delivery);
      AttemptTally(start, r, id, j, body, delivery);
      RequestUnused(start, delivery.before, r);
      server.PerformAll(delivery.before);
      verdict := GaveUp;
      if delivery.fate != RequestLost {
        RunConcat(start, delivery.before,
                  SubmitSteps(server.Abs(), r, id, j, body, delivery.during, delivery.fate == HandlerFails));
        var reply := server.SubmitJobResult(r, id, j, body, delivery.during, delivery.fate == HandlerFails);
        if delivery.fate != AnswerLost {
          verdict := Judge(reply);
        }
      }
    }

    /** The attempt loop of post_result. */
    method Attempts(server: ControlPlane, r: RequestId, j: JobId, body: Body, deliveries: seq<Delivery>)
      returns (verdict: Verdict)
      requires r !in server.submissions && forall d <- deliveries :: d.Avoids(r)
      modifies server
      ensures server.Abs() == Run(old(server.Abs()), PostingSteps(old(server.Abs()), r, id, j, body, deliveries, 0))
      ensures verdict == PostingVerdict(old(server.Abs()), r, id, j, body, deliveries, 0)
    {
      ghost var start := server.Abs();
      for attempt := 0 to 3
        invariant r !in server.submissions
        invariant Run(server.Abs(), PostingSteps(server.Abs(), r, id, j, body, deliveries, attempt))
               == Run(start, PostingSteps(start, r, id, j, body, deliveries, 0))
        invariant PostingVerdict(server.Abs(), r, id, j, body, deliveries, attempt)
               == PostingVerdict(start, r, id, j, body, deliveries, 0)
      {
        assert attempt < |deliveries| ==> deliveries[attempt] in deliveries;
        FirstOfRest(server.Abs(), r, id, j, body, deliveries, attempt);
        verdict := Attempt(server, r, j, body, Nth(deliveries, attempt));
        if verdict != GaveUp { return; }
      }
      verdict := GaveUp;
    }

    /** post_result: up to three attempts, each with its fate, until one brings a verdict. */
    method PostResult(server: ControlPlane, r: RequestId, j: JobId, body: Body, deliveries: seq<Delivery>)
      returns (verdict: Verdict)
      requires r !in server.submissions && forall d <- deliveries :: d.Avoids(r)
      modifies this`exited, server
      ensures server.Abs() == Run(old(server.Abs()), PostingSteps(old(server.Abs()), r, id, j, body, deliveries, 0))
      ensures verdict == PostingVerdict(old(server.Abs()), r, id, j, body, deliveries, 0)
      ensures
        var steps := PostingSteps(old(server.Abs()), r, id, j, body, deliveries, 0);
        PostedOnce(old(server.Abs()), steps, verdict, r, id, j, body, deliveries)
      ensures FirstAnswered(old(server.Abs()), verdict, id, j, deliveries)
      ensures exited <==> old(exited) || verdict == Exited
    {
      PostingTally(server.Abs(), r, id, j, body, deliveries, 0);
      PostingMust(server.Abs(), r, id, j, body, deliveries, 0, 0, server.Abs());
      verdict := Attempts(server, r, j, body, deliveries);
      exited := exited || verdict == Exited;
    }

    /**
      One turn of poll_loop: long-poll, execute what is handed out, post the result. `arrives` says
      whether the poll's answer reaches the agent; `warehouse` is the local database; others act
      wherever the agent or a handler waits, and `executing` is what they do while the query runs.
     */
    method PollOnce(
      server: ControlPlane, p: PollId, timeout: int, others: seq<Pause>, arrives: bool,
      warehouse: string -> Query, executing: seq<Step>, r: RequestId, deliveries: seq<Delivery>)
      returns (reply: Reply, body: Option<Body>, verdict: Verdict, ghost polling: seq<Step>)
      requires p !in server.polls && r !in server.submissions
      requires forall pause <- others :: LeavesPoll(pause.acquiring, p) && LeavesPoll(pause.sleeping, p)
      requires PausesAvoid(others, r) && AvoidsRequest(executing, r) && forall d <- deliveries :: d.Avoids(r)
      modifies this`exited, server
      ensures PollTrace(polling, p, Script(others))
      ensures reply.Granted? <==> Found(old(server.Abs()), polling, p, reply)
      ensures reply == Unauthorized <==>
                1 <= timeout <= 25 && !MayCall(old(server.Abs()), id)
      ensures body.Some? <==> arrives && reply.Granted? && reply.timeoutMs >= 0
      ensures body.None? ==>
                && server.Abs() == Run(old(server.Abs()), polling)
                && verdict == if arrives && reply == Unauthorized then Exited else GaveUp
      ensures body.Some? ==>
                var executed := Run(Run(old(server.Abs()), polling), executing);
                var steps := PostingSteps(executed, r, id, reply.job, body.value, deliveries, 0);
                && id in old(server.agents) && reply.job in server.jobs
                && server.jobs[reply.job].tenant == old(server.agents)[id].tenant
                && server.jobs[reply.job].sql == reply.sql
                && Reports(body.value, warehouse(reply.sql), reply.timeoutMs) && Presentable(body.value)
                && body.value == ProgramBody(warehouse(reply.sql), reply.timeoutMs)
                && server.Abs() == Run(executed, steps)
                && verdict == PostingVerdict(executed, r, id, reply.job, body.value, deliveries, 0)
                && PostedOnce(executed, steps, verdict, r, id, reply.job, body.value, deliveries)
                && FirstAnswered(executed, verdict, id, reply.job, deliveries)
      ensures exited <==> old(exited) || verdict == Exited
    {
      ghost var start := server.Abs();
      reply, polling := server.GetNextJob(p, id, timeout, others);
      body, verdict := None, GaveUp;
      if !arrives { return; }
      if reply == Unauthorized {
        exited, verdict := true, Exited;
      } else if reply.Granted? && reply.timeoutMs >= 0 {
        var result := ExecuteQuery(warehouse(reply.sql), reply.timeoutMs);
        body := Some(result);
        PollAvoids(polling, p, others, r);
        RequestUnused(start, polling, r);
        RequestUnused(server.Abs(), executing, r);
        JobForever(server.Abs(), executing, reply.job);
        server.PerformAll(executing);
        ghost var executed := server.Abs();
        verdict := PostResult(server, r, reply.job, result, deliveries);
        JobForever(executed, PostingSteps(executed, r, id, reply.job, result, deliveries, 0), reply.job);
      }
    }
  }
}
