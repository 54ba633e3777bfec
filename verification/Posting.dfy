/**
  submit_job_result and the agent's post_result as functions of the server's state and of what
  others do meanwhile: which steps they take, what they answer, and what is accepted on the way.
 */
module Posting {
  import opened Tables
  import opened Protocol
  import opened Coherence
  import opened Lifecycle
  import opened LongPoll
  import opened Cache
  import opened Effects

  // ---- Whose acceptances ----

  /** The posts accepted along the steps by request r's own transaction. */
  function OwnLog(s: State, steps: seq<Step>, r: RequestId): seq<Entry>
    decreases steps
  {
    if steps == [] then []
    else
      (if steps[0] == SubmitCommit(r) then AcceptedBy(s, steps[0]) else [])
      + OwnLog(Next(s, steps[0]), steps[1..], r)
  }

  /** The posts accepted along the steps by others. */
  function OthersLog(s: State, steps: seq<Step>, r: RequestId): seq<Entry>
    decreases steps
  {
    if steps == [] then []
    else
      (if steps[0] == SubmitCommit(r) then [] else AcceptedBy(s, steps[0]))
      + OthersLog(Next(s, steps[0]), steps[1..], r)
  }

  lemma {:induction false} LogSplit(s: State, steps: seq<Step>, r: RequestId)
    ensures multiset(Log(s, steps)) == multiset(OwnLog(s, steps, r)) + multiset(OthersLog(s, steps, r))
    decreases steps
  {
    if steps != [] {
      LogSplit(Next(s, steps[0]), steps[1..], r);
    }
  }

  lemma {:induction false} OwnConcat(s: State, a: seq<Step>, b: seq<Step>, r: RequestId)
    ensures OwnLog(s, a + b, r) == OwnLog(s, a, r) + OwnLog(Run(s, a), b, r)
    decreases a
  {
    if a == [] {
      assert a + b == b;
    } else {
      assert (a + b)[0] == a[0] && (a + b)[1..] == a[1..] + b;
      OwnConcat(Next(s, a[0]), a[1..], b, r);
    }
  }

  lemma {:induction false} OthersConcat(s: State, a: seq<Step>, b: seq<Step>, r: RequestId)
    ensures OthersLog(s, a + b, r) == OthersLog(s, a, r) + OthersLog(Run(s, a), b, r)
    decreases a
  {
    if a == [] {
      assert a + b == b;
    } else {
      assert (a + b)[0] == a[0] && (a + b)[1..] == a[1..] + b;
      OthersConcat(Next(s, a[0]), a[1..], b, r);
    }
  }

  lemma SplitConcat(s: State, a: seq<Step>, b: seq<Step>, r: RequestId)
    ensures OwnLog(s, a + b, r) == OwnLog(s, a, r) + OwnLog(Run(s, a), b, r)
    ensures OthersLog(s, a + b, r) == OthersLog(s, a, r) + OthersLog(Run(s, a), b, r)
  {
    OwnConcat(s, a, b, r);
    OthersConcat(s, a, b, r);
  }

  lemma SplitOne(s: State, step: Step, r: RequestId)
    ensures OwnLog(s, [step], r) == if step == SubmitCommit(r) then AcceptedBy(s, step) else []
    ensures OthersLog(s, [step], r) == if step == SubmitCommit(r) then [] else AcceptedBy(s, step)
  {
    assert [step][1..] == [];
  }

  /** Only the handler of request r runs its transaction. */
  predicate LeavesRequest(steps: seq<Step>, r: RequestId) {
    forall step <- steps :: !((step.SubmitCommit? || step.SubmitAbort? || step.EnrolCommit?) && step.request == r)
  }

  /** Nobody else opens a request with id r. */
  predicate AvoidsRequest(steps: seq<Step>, r: RequestId) {
    forall step <- steps :: !(step.SubmitCheck? && step.request == r)
  }

  lemma {:induction false} RequestUnused(s: State, steps: seq<Step>, r: RequestId)
    requires r !in s.work.submissions && AvoidsRequest(steps, r)
    ensures r !in Run(s, steps).work.submissions
    ensures OwnLog(s, steps, r) == [] && OthersLog(s, steps, r) == Log(s, steps)
    decreases steps
  {
    if steps != [] {
      assert steps[0] in steps;
      if r in Next(s, steps[0]).work.submissions { PostEdge(s, steps[0], r); }
      RequestUnused(Next(s, steps[0]), steps[1..], r);
    }
  }

  lemma SubmissionKept(s: State, step: Step, r: RequestId)
    requires r in s.work.submissions && LeavesRequest([step], r)
    ensures r in Next(s, step).work.submissions && Next(s, step).work.submissions[r] == s.work.submissions[r]
  {
    assert step in [step];
  }

  /** Others run while request r is between its guards and its transaction. */
  lemma {:induction false} SubmissionKeptRun(s: State, steps: seq<Step>, r: RequestId)
    requires r in s.work.submissions && LeavesRequest(steps, r)
    ensures r in Run(s, steps).work.submissions && Run(s, steps).work.submissions[r] == s.work.submissions[r]
    ensures OwnLog(s, steps, r) == [] && OthersLog(s, steps, r) == Log(s, steps)
    decreases steps
  {
    if steps != [] {
      assert steps[0] in steps;
      SubmissionKept(s, steps[0], r);
      SubmissionKeptRun(Next(s, steps[0]), steps[1..], r);
    }
  }

  /** A post that has passed its guards is still there, with its job, when its transaction's turn comes. */
  lemma AwaitTurn(s: State, r: RequestId, others: seq<Step>)
    requires r in s.work.submissions && s.work.submissions[r].job in s.db.jobs && LeavesRequest(others, r)
    ensures r in Run(s, others).work.submissions && Run(s, others).work.submissions[r].job in Run(s, others).db.jobs
  {
    SubmissionKeptRun(s, others, r);
    JobForever(s, others, s.work.submissions[r].job);
  }

  // ---- submit_job_result ----

  /** Its steps: the guards, and if they let the post through, others and the transaction, which may raise. */
  function SubmitSteps(
    s: State, r: RequestId, a: AgentId, j: JobId, body: Body, others: seq<Step>, raises: bool): seq<Step>
  {
    if DoSubmitCheck(s, r, a, j, body).reply != Suspended then [SubmitCheck(r, a, j, body)]
    else [SubmitCheck(r, a, j, body)] + others + [if raises then SubmitAbort(r) else SubmitCommit(r)]
  }

  function SubmitReply(s: State, r: RequestId, a: AgentId, j: JobId, body: Body, raises: bool): Reply {
    var check := DoSubmitCheck(s, r, a, j, body).reply;
    if check != Suspended then check else if raises then ServerError else Accepted
  }

  /** The tables show job j finished with this body. */
  ghost predicate Shows(s: State, j: JobId, body: Body) {
    && j in s.db.jobs && s.db.jobs[j].status == (if body.success then Done else Failed)
    && s.db.jobs[j].dashboard in s.db.results
    && s.db.results[s.db.jobs[j].dashboard].job == j && s.db.results[s.db.jobs[j].dashboard].body == body
  }

  /** One accepted post of this job and body, or none. */
  ghost predicate IsPost(entries: seq<Entry>, one: bool, j: JobId, body: Body) {
    if one then |entries| == 1 && entries[0].job == j && entries[0].body == body else entries == []
  }

  /** The transaction: all of it, or nothing if it raises. */
  lemma Transaction(s: State, r: RequestId, raises: bool)
    requires r in s.work.submissions && s.work.submissions[r].job in s.db.jobs
    requires s.db.jobs[s.work.submissions[r].job].dashboard == s.work.submissions[r].dashboard
    ensures
      var step, sub := if raises then SubmitAbort(r) else SubmitCommit(r), s.work.submissions[r];
      && r !in Next(s, step).work.submissions
      && (!raises ==> Shows(Next(s, step), sub.job, sub.body))
      && (raises ==> Next(s, step).db == s.db)
      && IsPost(OwnLog(s, [step], r), !raises, sub.job, sub.body) && OthersLog(s, [step], r) == []
      && (!raises ==> OwnLog(s, [step], r)[0].dashboard == sub.dashboard)
  {
    SplitOne(s, if raises then SubmitAbort(r) else SubmitCommit(r), r);
  }

  /** What the whole handler amounts to when its guards let the post through. */
  lemma SubmitThrough(s: State, r: RequestId, a: AgentId, j: JobId, body: Body, others: seq<Step>, raises: bool)
    requires DoSubmitCheck(s, r, a, j, body).reply == Suspended && LeavesRequest(others, r)
    ensures
      var check, last := SubmitCheck(r, a, j, body), if raises then SubmitAbort(r) else SubmitCommit(r);
      var steps, checked := SubmitSteps(s, r, a, j, body, others, raises), DoSubmitCheck(s, r, a, j, body).state;
      && Run(s, steps) == Next(Run(checked, others), last) && r !in Run(s, steps).work.submissions
      && IsPost(OwnLog(s, steps, r), !raises, j, body) && OthersLog(s, steps, r) == Log(checked, others)
      && (!raises ==> j in s.db.jobs && OwnLog(s, steps, r)[0].dashboard == s.db.jobs[j].dashboard)
      && (!raises ==> Shows(Run(s, steps), j, body))
  {
    var check, last := SubmitCheck(r, a, j, body), if raises then SubmitAbort(r) else SubmitCommit(r);
    CheckEffect(s, r, a, j, body);
    var checked := Next(s, check);
    SubmissionKeptRun(checked, others, r);
    JobForever(checked, others, j);
    Transaction(Run(checked, others), r, raises);
    SplitOne(s, check, r);
    SplitConcat(s, [check], others, r);
    SplitConcat(s, [check] + others, [last], r);
    RunOne(s, check);
    RunConcat(s, [check], others);
    RunSnoc(s, [check] + others, last);
  }

  /** What it amounts to when a guard refuses the post: nothing. */
  lemma SubmitRefused(s: State, r: RequestId, a: AgentId, j: JobId, body: Body, others: seq<Step>, raises: bool)
    requires DoSubmitCheck(s, r, a, j, body).reply != Suspended
    ensures
      var steps := SubmitSteps(s, r, a, j, body, others, raises);
      Run(s, steps) == s && OwnLog(s, steps, r) == [] && OthersLog(s, steps, r) == []
  {
    CheckEffect(s, r, a, j, body);
    RunOne(s, SubmitCheck(r, a, j, body));
    SplitOne(s, SubmitCheck(r, a, j, body), r);
  }

  /** The handler's run, whatever its guards say. */
  lemma SubmitTally(s: State, r: RequestId, a: AgentId, j: JobId, body: Body, others: seq<Step>, raises: bool)
    requires r !in s.work.submissions && LeavesRequest(others, r)
    ensures
      var steps, reply := SubmitSteps(s, r, a, j, body, others, raises), SubmitReply(s, r, a, j, body, raises);
      && r !in Run(s, steps).work.submissions
      && (reply == Accepted ==> Shows(Run(s, steps), j, body))
      && (reply != Accepted && reply != ServerError ==> Run(s, steps) == s)
      && IsPost(OwnLog(s, steps, r), reply == Accepted, j, body)
  {
    if DoSubmitCheck(s, r, a, j, body).reply == Suspended {
      SubmitThrough(s, r, a, j, body, others, raises);
    } else {
      SubmitRefused(s, r, a, j, body, others, raises);
    }
  }

  // ---- post_result ----

  /** What the link and the handler do with one attempt. */
  datatype Fate = RequestLost | HandlerFails | AnswerLost | Delivered

  /** One attempt: its fate, and what others do before its request is handled and during its handling. */
  datatype Delivery = Delivery(fate: Fate, before: seq<Step>, during: seq<Step>)
  {
    predicate Avoids(r: RequestId) {
      AvoidsRequest(before, r) && LeavesRequest(during, r)
    }
  }

  datatype Verdict = Posted | GaveUp | Exited

  /** The n-th delivery; what is not scripted goes smoothly. */
  function Nth(deliveries: seq<Delivery>, n: nat): Delivery {
    if n < |deliveries| then deliveries[n] else Delivery(Delivered, [], [])
  }

  /** The branch the agent takes on an answer. */
  function Judge(reply: Reply): Verdict {
    if reply == Accepted || reply == Conflict then Posted else if reply == Unauthorized then Exited else GaveUp
  }

  /** The verdict on a request that has been handled. */
  function HandledVerdict(s: State, r: RequestId, a: AgentId, j: JobId, body: Body, fate: Fate): Verdict {
    if fate == AnswerLost then GaveUp else Judge(SubmitReply(s, r, a, j, body, fate == HandlerFails))
  }

  function AttemptSteps(s: State, r: RequestId, a: AgentId, j: JobId, body: Body, d: Delivery): seq<Step> {
    if d.fate == RequestLost then d.before
    else d.before + SubmitSteps(Run(s, d.before), r, a, j, body, d.during, d.fate == HandlerFails)
  }

  function AttemptVerdict(s: State, r: RequestId, a: AgentId, j: JobId, body: Body, d: Delivery): Verdict {
    if d.fate == RequestLost then GaveUp else HandledVerdict(Run(s, d.before), r, a, j, body, d.fate)
  }

  /** The steps of attempts n, n + 1, ... up to the third, until one brings a verdict. */
  function PostingSteps(
    s: State, r: RequestId, a: AgentId, j: JobId, body: Body, deliveries: seq<Delivery>, n: nat): seq<Step>
    decreases 3 - n
  {
    if n >= 3 then []
    else
      var d := Nth(deliveries, n);
      var now := AttemptSteps(s, r, a, j, body, d);
      if AttemptVerdict(s, r, a, j, body, d) != GaveUp then now
      else now + PostingSteps(Run(s, now), r, a, j, body, deliveries, n + 1)
  }

  function PostingVerdict(
    s: State, r: RequestId, a: AgentId, j: JobId, body: Body, deliveries: seq<Delivery>, n: nat): Verdict
    decreases 3 - n
  {
    if n >= 3 then GaveUp
    else
      var d := Nth(deliveries, n);
      var verdict := AttemptVerdict(s, r, a, j, body, d);
      if verdict != GaveUp then verdict
      else PostingVerdict(Run(s, AttemptSteps(s, r, a, j, body, d)), r, a, j, body, deliveries, n + 1)
  }

  // ---- Accepted at most once, unless a rival post comes in ----

  /** The dashboard of job j shows job j. */
  predicate ShowsJob(s: State, j: JobId) {
    j in s.db.jobs && s.db.jobs[j].dashboard in s.db.results && s.db.results[s.db.jobs[j].dashboard].job == j
  }

  /** None of the entries is for the dashboard of job j. */
  ghost predicate NoRival(entries: seq<Entry>, jobs: Jobs, j: JobId) {
    forall e <- entries :: j in jobs ==> e.dashboard != jobs[j].dashboard
  }

  /** Every entry is an acceptance of this body for this job. */
  ghost predicate OwnPosts(entries: seq<Entry>, j: JobId, body: Body) {
    forall e <- entries :: e.job == j && e.body == body
  }

  lemma RowStep(s: State, step: Step, j: JobId)
    requires ShowsJob(s, j) && NoRival(AcceptedBy(s, step), s.db.jobs, j)
    ensures ShowsJob(Next(s, step), j)
  {
    JobEdge(s, step, j);
    if step.SubmitCommit? {
      assert AcceptedBy(s, step) != [] ==> AcceptedBy(s, step)[0] in AcceptedBy(s, step);
    } else {
      ResultsFrame(s, step);
    }
  }

  /** While others accept nothing for its dashboard, a job that shows there goes on showing. */
  lemma {:induction false} RowKept(s: State, steps: seq<Step>, j: JobId)
    requires ShowsJob(s, j) && NoRival(Log(s, steps), s.db.jobs, j)
    ensures ShowsJob(Run(s, steps), j)
    decreases steps
  {
    if steps != [] {
      var now, later := AcceptedBy(s, steps[0]), Log(Next(s, steps[0]), steps[1..]);
      assert forall e <- now :: e in now + later;
      assert forall e <- later :: e in now + later;
      JobEdge(s, steps[0], j);
      RowStep(s, steps[0], j);
      RowKept(Next(s, steps[0]), steps[1..], j);
    }
  }

  /** What one handled request brings, seen from the agent. */
  ghost predicate Attempted(
    s: State, s': State, own: seq<Entry>, rivals: seq<Entry>, verdict: Verdict, r: RequestId, a: AgentId,
    j: JobId, body: Body, fate: Fate)
  {
    && r !in s'.work.submissions && |own| <= 1 && OwnPosts(own, j, body)
    && (fate == RequestLost || fate == HandlerFails ==> own == [])
    && (own != [] ==> ShowsJob(s', j) && (verdict == Posted || fate == AnswerLost))
    && (ShowsJob(s, j) && NoRival(rivals, s.db.jobs, j) ==> own == [] && ShowsJob(s', j))
    && (verdict == Posted ==> Recorded(s', j)) && (verdict == Exited ==> !Authorised(s', a))
  }

  /** A job that shows is recognised. */
  lemma ShownIsRefused(s: State, r: RequestId, a: AgentId, j: JobId, body: Body)
    requires ShowsJob(s, j)
    ensures Recorded(s, j) && DoSubmitCheck(s, r, a, j, body).reply != Suspended
  {
    assert s.db.results[s.db.jobs[j].dashboard].job == j;
  }

  lemma HandledRefused(s: State, r: RequestId, a: AgentId, j: JobId, body: Body, fate: Fate)
    requires r !in s.work.submissions && DoSubmitCheck(s, r, a, j, body).reply != Suspended
    ensures
      var verdict := if fate == AnswerLost then GaveUp else Judge(DoSubmitCheck(s, r, a, j, body).reply);
      Attempted(s, s, [], [], verdict, r, a, j, body, fate)
  {}

  lemma HandledThrough(
    s: State, s': State, own: seq<Entry>, rivals: seq<Entry>, r: RequestId, a: AgentId, j: JobId, body: Body,
    fate: Fate)
    requires r !in s'.work.submissions && !ShowsJob(s, j) && fate != RequestLost
    requires IsPost(own, fate != HandlerFails, j, body) && (fate != HandlerFails ==> Shows(s', j, body))
    ensures Attempted(s, s', own, rivals, if fate == Delivered then Posted else GaveUp, r, a, j, body, fate)
  {
    if fate != HandlerFails {
      assert s'.db.results[s'.db.jobs[j].dashboard].job == j;
    }
  }

  /** The part of an attempt in which the request is handled, and what the agent makes of it. */
  lemma HandledAttempt(s: State, r: RequestId, a: AgentId, j: JobId, body: Body, d: Delivery)
    requires r !in s.work.submissions && LeavesRequest(d.during, r) && d.fate != RequestLost
    ensures
      var steps := SubmitSteps(s, r, a, j, body, d.during, d.fate == HandlerFails);
      Attempted(s, Run(s, steps), OwnLog(s, steps, r), OthersLog(s, steps, r),
                HandledVerdict(s, r, a, j, body, d.fate), r, a, j, body, d.fate)
  {
    var steps := SubmitSteps(s, r, a, j, body, d.during, d.fate == HandlerFails);
    if DoSubmitCheck(s, r, a, j, body).reply == Suspended {
      SubmitThrough(s, r, a, j, body, d.during, d.fate == HandlerFails);
      if ShowsJob(s, j) { ShownIsRefused(s, r, a, j, body); }
      HandledThrough(s, Run(s, steps), OwnLog(s, steps, r), OthersLog(s, steps, r), r, a, j, body, d.fate);
    } else {
      SubmitRefused(s, r, a, j, body, d.during, d.fate == HandlerFails);
      HandledRefused(s, r, a, j, body, d.fate);
    }
  }

  /** One attempt, with others acting before its request is handled. */
  lemma AttemptTally(s: State, r: RequestId, a: AgentId, j: JobId, body: Body, d: Delivery)
    requires r !in s.work.submissions && d.Avoids(r)
    ensures
      var steps := AttemptSteps(s, r, a, j, body, d);
      Attempted(s, Run(s, steps), OwnLog(s, steps, r), OthersLog(s, steps, r), AttemptVerdict(s, r, a, j, body, d),
                r, a, j, body, d.fate)
  {
    var ready := Run(s, d.before);
    RequestUnused(s, d.before, r);
    if ShowsJob(s, j) && NoRival(Log(s, d.before), s.db.jobs, j) { RowKept(s, d.before, j); }
    if d.fate != RequestLost {
      var handling := SubmitSteps(ready, r, a, j, body, d.during, d.fate == HandlerFails);
      HandledAttempt(ready, r, a, j, body, d);
      SplitConcat(s, d.before, handling, r);
      RunConcat(s, d.before, handling);
      assert forall e <- Log(s, d.before) :: e in Log(s, d.before) + OthersLog(ready, handling, r);
      ShownStays(s, d.before, j);
    }
  }

  // ---- What must come of an attempt ----

  /** Some row records job j. */
  predicate InSomeRow(s: State, j: JobId) {
    exists d <- s.db.results :: s.db.results[d].job == j
  }

  /** Job j exists and is of agent a's tenant. */
  predicate OwnJob(s: State, a: AgentId, j: JobId) {
    a in s.db.agents && j in s.db.jobs && s.db.jobs[j].tenant == s.db.agents[a].tenant
  }

  /** What the agent must make of an answer that reaches it, given the state its request found. */
  function DueVerdict(ready: State, a: AgentId, j: JobId, raises: bool): Verdict {
    if !MayCall(ready, a) then Exited
    else if !OwnJob(ready, a, j) then GaveUp
    else if InSomeRow(ready, j) then Posted
    else if raises then GaveUp
    else Posted
  }

  /**
    A request that reaches its handler is accepted, once, if the agent may call, the job is its
    tenant's and no row records it, unless the handler raises; nothing else is. The agent is done if
    it is told 200 or 409, exits if it is told 401, and otherwise tries again.
   */
  predicate AttemptDue(ready: State, own: seq<Entry>, verdict: Verdict, a: AgentId, j: JobId, body: Body, fate: Fate) {
    && (if MayCall(ready, a) && OwnJob(ready, a, j) && !InSomeRow(ready, j) && (fate == Delivered || fate == AnswerLost)
        then |own| == 1 && own[0].job == j && own[0].body == body && own[0].dashboard == ready.db.jobs[j].dashboard
        else own == [])
    && verdict == if fate == RequestLost || fate == AnswerLost then GaveUp
                  else DueVerdict(ready, a, j, fate == HandlerFails)
  }

  /** The answer of the guards, by the state they find. */
  lemma GuardsAnswer(s: State, r: RequestId, a: AgentId, j: JobId, body: Body)
    requires r !in s.work.submissions
    ensures DoSubmitCheck(s, r, a, j, body).reply ==
            if !MayCall(s, a) then Unauthorized
            else if j !in s.db.jobs then NotFound
            else if !OwnJob(s, a, j) then Forbidden
            else if InSomeRow(s, j) then Conflict
            else Suspended
  {
    SubmitCheckEffect(s, r, a, j, body);
    assert InSomeRow(s, j) <==> exists d <- s.db.results :: s.db.results[d].job == j;
  }

  lemma HandledMust(s: State, r: RequestId, a: AgentId, j: JobId, body: Body, d: Delivery)
    requires r !in s.work.submissions && LeavesRequest(d.during, r) && d.fate != RequestLost
    ensures
      var steps := SubmitSteps(s, r, a, j, body, d.during, d.fate == HandlerFails);
      AttemptDue(s, OwnLog(s, steps, r), HandledVerdict(s, r, a, j, body, d.fate), a, j, body, d.fate)
  {
    var steps := SubmitSteps(s, r, a, j, body, d.during, d.fate == HandlerFails);
    GuardsAnswer(s, r, a, j, body);
    if DoSubmitCheck(s, r, a, j, body).reply == Suspended {
      SubmitThrough(s, r, a, j, body, d.during, d.fate == HandlerFails);
      ThroughMust(s, OwnLog(s, steps, r), a, j, body, d.fate);
    } else {
      SubmitRefused(s, r, a, j, body, d.during, d.fate == HandlerFails);
      RefusedMust(s, DoSubmitCheck(s, r, a, j, body).reply, a, j, body, d.fate);
    }
  }

  lemma ThroughMust(s: State, own: seq<Entry>, a: AgentId, j: JobId, body: Body, fate: Fate)
    requires MayCall(s, a) && OwnJob(s, a, j) && !InSomeRow(s, j) && fate != RequestLost
    requires IsPost(own, fate != HandlerFails, j, body)
    requires fate != HandlerFails ==> own[0].dashboard == s.db.jobs[j].dashboard
    ensures
      var reply := if fate == HandlerFails then ServerError else Accepted;
      AttemptDue(s, own, if fate == AnswerLost then GaveUp else Judge(reply), a, j, body, fate)
  {}

  lemma RefusedMust(s: State, reply: Reply, a: AgentId, j: JobId, body: Body, fate: Fate)
    requires !(MayCall(s, a) && OwnJob(s, a, j) && !InSomeRow(s, j)) && fate != RequestLost
    requires reply == if !MayCall(s, a) then Unauthorized
                      else if j !in s.db.jobs then NotFound
                      else if !OwnJob(s, a, j) then Forbidden
                      else Conflict
    ensures AttemptDue(s, [], if fate == AnswerLost then GaveUp else Judge(reply), a, j, body, fate)
  {}

  lemma AttemptMust(s: State, r: RequestId, a: AgentId, j: JobId, body: Body, d: Delivery)
    requires r !in s.work.submissions && d.Avoids(r)
    ensures
      AttemptDue(Run(s, d.before), OwnLog(s, AttemptSteps(s, r, a, j, body, d), r),
                 AttemptVerdict(s, r, a, j, body, d), a, j, body, d.fate)
  {
    RequestUnused(s, d.before, r);
    if d.fate != RequestLost {
      var ready := Run(s, d.before);
      HandledMust(ready, r, a, j, body, d);
      SplitConcat(s, d.before, SubmitSteps(ready, r, a, j, body, d.during, d.fate == HandlerFails), r);
    }
  }

  /** A job that shows shows the same dashboard later. */
  lemma ShownStays(s: State, steps: seq<Step>, j: JobId)
    ensures j in s.db.jobs ==>
              j in Run(s, steps).db.jobs && Run(s, steps).db.jobs[j].dashboard == s.db.jobs[j].dashboard
  {
    if j in s.db.jobs { JobForever(s, steps, j); }
  }

  /** Accepted once at most, with its job showing, unless a rival post for the same dashboard came in. */
  ghost predicate OnceUnlessRivalled(s: State, own: seq<Entry>, rivals: seq<Entry>, j: JobId) {
    NoRival(rivals, s.db.jobs, j) ==> |own| <= 1 && (own != [] ==> ShowsJob(s, j))
  }

  /**
    What post_result amounts to: all its own acceptances are of this job and body; unless a rival
    post for the same dashboard is accepted meanwhile there is one at most, and none if the job
    already showed; success is reported only if the job is recorded, and 401 only if the agent is
    revoked; and giving up with no answer lost means that nothing was accepted.
   */
  ghost predicate PostedOnce(
    s: State, steps: seq<Step>, verdict: Verdict, r: RequestId, a: AgentId, j: JobId, body: Body,
    deliveries: seq<Delivery>)
  {
    var s', own, rivals := Run(s, steps), OwnLog(s, steps, r), OthersLog(s, steps, r);
    && r !in s'.work.submissions && OwnPosts(own, j, body)
    && OnceUnlessRivalled(s', own, rivals, j)
    && (ShowsJob(s, j) && NoRival(rivals, s.db.jobs, j) ==> own == [] && ShowsJob(s', j))
    && (verdict == Posted ==> Recorded(s', j)) && (verdict == Exited ==> !Authorised(s', a))
    && (verdict != Posted && (forall d <- deliveries :: d.fate != AnswerLost) ==> own == [])
  }

  /** The steps and the verdict of post_result from its n-th attempt on, in terms of that attempt. */
  lemma FirstOfRest(s: State, r: RequestId, a: AgentId, j: JobId, body: Body, deliveries: seq<Delivery>, n: nat)
    requires n < 3
    ensures
      var now := AttemptSteps(s, r, a, j, body, Nth(deliveries, n));
      var verdict := AttemptVerdict(s, r, a, j, body, Nth(deliveries, n));
      if verdict != GaveUp then
        && PostingSteps(s, r, a, j, body, deliveries, n) == now
        && PostingVerdict(s, r, a, j, body, deliveries, n) == verdict
      else
        && Run(s, PostingSteps(s, r, a, j, body, deliveries, n))
           == Run(Run(s, now), PostingSteps(Run(s, now), r, a, j, body, deliveries, n + 1))
        && PostingVerdict(s, r, a, j, body, deliveries, n)
           == PostingVerdict(Run(s, now), r, a, j, body, deliveries, n + 1)
  {
    var now := AttemptSteps(s, r, a, j, body, Nth(deliveries, n));
    RunConcat(s, now, PostingSteps(Run(s, now), r, a, j, body, deliveries, n + 1));
  }

  lemma {:induction false} PostingTally(
    s: State, r: RequestId, a: AgentId, j: JobId, body: Body, deliveries: seq<Delivery>, n: nat)
    requires r !in s.work.submissions && forall d <- deliveries :: d.Avoids(r)
    ensures
      PostedOnce(s, PostingSteps(s, r, a, j, body, deliveries, n), PostingVerdict(s, r, a, j, body, deliveries, n),
                 r, a, j, body, deliveries)
    decreases 3 - n
  {
    if n < 3 {
      var d := Nth(deliveries, n);
      assert n < |deliveries| ==> d in deliveries;
      var now := AttemptSteps(s, r, a, j, body, d);
      AttemptTally(s, r, a, j, body, d);
      ShownStays(s, now, j);
      if AttemptVerdict(s, r, a, j, body, d) == GaveUp {
        var mid, later := Run(s, now), PostingSteps(Run(s, now), r, a, j, body, deliveries, n + 1);
        PostingTally(mid, r, a, j, body, deliveries, n + 1);
        SplitConcat(s, now, later, r);
        RunConcat(s, now, later);
        ShownStays(mid, later, j);
        assert forall e <- OthersLog(s, now, r) :: e in OthersLog(s, now, r) + OthersLog(mid, later, r);
        assert forall e <- OthersLog(mid, later, r) :: e in OthersLog(s, now, r) + OthersLog(mid, later, r);
      }
    }
  }

  /** Attempts n, ..., m - 1 lead from `s` to `s'`, and none of them brings a verdict. */
  predicate Reaches(
    s: State, r: RequestId, a: AgentId, j: JobId, body: Body, deliveries: seq<Delivery>, n: nat, m: nat, s': State)
    decreases m - n
  {
    if n >= m then n == m && s == s'
    else
      var d := Nth(deliveries, n);
      && AttemptVerdict(s, r, a, j, body, d) == GaveUp
      && Reaches(Run(s, AttemptSteps(s, r, a, j, body, d)), r, a, j, body, deliveries, n + 1, m, s')
  }

  /**
    What must come of the loop: an attempt it reaches ends it if the request must be answered with a
    verdict, and what that attempt has accepted is accepted.
   */
  lemma {:induction false} PostingMust(
    s: State, r: RequestId, a: AgentId, j: JobId, body: Body, deliveries: seq<Delivery>, n: nat, m: nat, s': State)
    requires r !in s.work.submissions && forall d <- deliveries :: d.Avoids(r)
    requires m < 3 && n <= m && Reaches(s, r, a, j, body, deliveries, n, m, s')
    ensures
      var d := Nth(deliveries, m);
      var ready := Run(s', d.before);
      var steps := PostingSteps(s, r, a, j, body, deliveries, n);
      var own' := OwnLog(s', AttemptSteps(s', r, a, j, body, d), r);
      var due := DueVerdict(ready, a, j, d.fate == HandlerFails);
      && AttemptDue(ready, own', AttemptVerdict(s', r, a, j, body, d), a, j, body, d.fate)
      && own' <= OwnLog(s', PostingSteps(s', r, a, j, body, deliveries, m), r)
      && (forall e <- own' :: e in OwnLog(s, steps, r))
      && ((d.fate == Delivered || d.fate == HandlerFails) && due != GaveUp ==>
            && PostingVerdict(s, r, a, j, body, deliveries, n) == due
            && Run(s, steps) == Run(s', AttemptSteps(s', r, a, j, body, d)))
    decreases m - n
  {
    var d := Nth(deliveries, n);
    assert n < |deliveries| ==> d in deliveries;
    var now := AttemptSteps(s, r, a, j, body, d);
    FirstOfRest(s, r, a, j, body, deliveries, n);
    if n == m {
      AttemptMust(s, r, a, j, body, d);
      if AttemptVerdict(s, r, a, j, body, d) == GaveUp {
        SplitConcat(s, now, PostingSteps(Run(s, now), r, a, j, body, deliveries, n + 1), r);
      }
    } else {
      AttemptTally(s, r, a, j, body, d);
      SplitConcat(s, now, PostingSteps(Run(s, now), r, a, j, body, deliveries, n + 1), r);
      PostingMust(Run(s, now), r, a, j, body, deliveries, n + 1, m, s');
    }
  }

  /** A first attempt that is delivered ends the loop whenever it must be answered with a verdict. */
  predicate FirstAnswered(s: State, verdict: Verdict, a: AgentId, j: JobId, deliveries: seq<Delivery>) {
    var d := Nth(deliveries, 0);
    var due := DueVerdict(Run(s, d.before), a, j, false);
    d.fate == Delivered && due != GaveUp ==> verdict == due
  }

  /** Giving up takes three attempts without a verdict. */
  lemma {:induction false} GivesUpAfterThree(
    s: State, r: RequestId, a: AgentId, j: JobId, body: Body, deliveries: seq<Delivery>, n: nat)
    requires n <= 3 && PostingVerdict(s, r, a, j, body, deliveries, n) == GaveUp
    ensures
      Reaches(s, r, a, j, body, deliveries, n, 3, Run(s, PostingSteps(s, r, a, j, body, deliveries, n)))
    decreases 3 - n
  {
    if n < 3 {
      FirstOfRest(s, r, a, j, body, deliveries, n);
      GivesUpAfterThree(Run(s, AttemptSteps(s, r, a, j, body, Nth(deliveries, n))), r, a, j, body, deliveries, n + 1);
    }
  }
}
