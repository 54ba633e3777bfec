# The job-lease protocol, modelled and proved

The control plane keeps a multi-tenant queue of query jobs. A scheduler enqueues a job whenever a
dashboard's slot comes due, agents long-poll for jobs of their own tenant, run the SQL locally and
post the result, a reaper returns jobs whose lease has expired, and a one-row-per-dashboard table
caches the latest result for the embedding endpoint. This project models that protocol, with the
agents, the lossy link and crashes, and proves what holds over whole runs.

## Structure

| file | content |
|---|---|
| Tables.dfy | the five tables, their columns and the constants |
| Protocol.dfy | the control plane as a transition system: `Step`, `Handle`, `Run` |
| Effects.dfy | what each step answers and writes, column by column |
| Coherence.dfy | the invariant every step keeps |
| Lifecycle.dfy | how a job may change; leases and the reaper |
| Cache.dfy | the results table against the log of accepted posts; the duplicate check, exactly |
| Slots.dfy, Scheduling.dfy | slot accounting, counting, catching up, drift |
| LongPoll.dfy | probes, 204, what a claim hands out, revocation |
| History.dfy | who may call, which dashboards exist and when a job was scheduled, read off a run's transcript |
| Isolation.dfy | non-interference between tenants |
| Service.dfy | no overtaking and bounded service |
| Truncation.dfy | the agent's halving loop and the body it posts |
| Fleet.dfy | control plane, agent processes and lossy link as one system |
| AtMostOnce.dfy, Freshness.dfy, Leases.dfy, Provenance.dfy | what holds when every client is the agent program |
| Program.dfy | the fleet's agents run the agent program, and can always serve what is pending |
| Limits.dfy | where the design document promises more than the handlers do |
| Posting.dfy | submit_job_result and post_result as functions; what is accepted on their way |
| Server.dfy | the handlers and the scheduler as methods of a mutable object |
| Agents.dfy | the agent's posting and polling loops, run against that object |
| Counting.dfy | cardinalities and division |

There are two layers. In the first the clients are arbitrary: any request may arrive at any time,
from anyone, twice or late. Coherence, lifecycle, leases, cache, slots, isolation, service and
long-poll theorems are proved there. The second (`Fleet`) adds the agent program and proves what
needs its discipline: acceptance at most once, final statuses that never change, monotone
freshness, presentable results, results that report an execution of the dashboard's own SQL.
`Fleet.ServerRun` shows that a run of the whole system is a run of
the first layer, so every theorem of that layer holds in it.

The handlers are also written as they are in the source, as methods of `Server.ControlPlane` that
update its tables in place. Each statement-sized method equates the new state and the reply with the
transition system's, whose steps `Effects` describes column by column; `Perform` collects them, and they
have no row of their own below. The handlers
that wait (`GetNextJob`, `SubmitJobResult`, `EnrollAgent`, the scheduler's tick) and the agent's
loops say which run of the transition system they perform. What others do wherever they wait is a
script: any steps at all, except those that only the waiting handler itself can take. So the run
theorems apply to them.

## How the code is read

- A step is one statement, or one transaction, with the locals of suspended handlers kept in
  `Work`. Claim and reap are single steps. The scheduler's UPDATE and its INSERTs are separate
  steps, with the list still to be inserted visible in `Work.owed`. The duplicate check and the
  transaction that follows it are separate steps; so are the enrolment lookup and its transaction.
- Row locks, SKIP LOCKED and single-statement atomicity are the meaning of a step.
- The clock never goes back, and the event loop's clock and the wall clock agree. Times are whole
  microseconds. A time read before its statement is a label (`TickUpdate(now)`, `Reap(now)` with
  `now` no later than the clock) or is remembered (`Submission.at`, `Enrolment.at`).
- Ids are labels. A draw of an id in use makes the statement fail, as the primary key does; where a
  theorem needs fresh ids it says so. A token is identified with the row it was generated for:
  hashing is taken to be injective.
- `Poll.probes`, `Ledger`, `Log`, `System.log`, `System.posts` and `System.starts` only record
  history; no branch of the system reads them.
- In `Fleet`, enrolment is atomic, and each request is handled, or lost on its way in, before its
  sender sends the next one (no delayed duplicates on the network). Answers may be lost, handlers
  may raise, agents may crash at any moment, and a crashed agent does not return: its token lived in
  its memory. Queries take positive time.

## Where the code and its documentation differ

The model follows the code.

- DESIGN.md line 227 says duplicate posts for a job are rejected. The check looks the job id up in
  `results`, whose row is keyed by dashboard and overwritten, so it recognises exactly the last
  accepted job of each dashboard: `Cache.DuplicateCheckExact` (both directions),
  `Limits.DuplicateAccepted` (a run), `Limits.ForgottenDuplicate` (the family). Two overlapping
  requests also both pass: `Limits.OverlappingDuplicate`. Whatever the check said, a commit accepts
  its job again if and only if the job is already terminal (`Cache.SecondAcceptanceExactly`), so a
  run accepts each job at most once if and only if no commit in it finds its job terminal
  (`Cache.AtMostOnceExactly`). With the agent program's discipline the promise is kept:
  `AtMostOnce.AcceptedAtMostOnce`.
- The lifecycle is documented as pending, running, then done or failed. The submit handler looks
  neither at the status nor at the claimer, so a pending job may become terminal and a terminal one
  may be overwritten: `Lifecycle.JobEdge` lists every edge there is, `Limits.NeverRunning` gives a run.
  With the agent program the documented order is left exactly when a reap expired the sender's claim
  before its result arrived: `Leases.AcceptedFromLease`; `Leases.ReapedInFlight` gives such a run.
- DESIGN.md line 149 says the enrolment token cannot be used again. The lookup is outside the
  transaction, so two overlapping enrolments both succeed: `Limits.OverlappingEnrolments`, and
  exactly when in `Limits.SecondAgentExactly`.
- The scheduler advances `next_run_at` from the old slot, one slot per tick. With ticks no further
  apart than the interval it does not drift (`Scheduling.NoDrift`); with sparser ticks, as a 5 s
  interval has once a tick takes any time, it falls further behind with every tick (`Scheduling.FallsBehind`).
  A single tick leaves the next slot in the future if and only if the old one was less than an interval
  behind (`Scheduling.AheadAfterTick`).
- The comment on the `results` table says it is overwritten on each successful run; error results
  overwrite it too.
- After a revocation an already open poll may still be handed a job, in a probe begun less than 25
  seconds later: `LongPoll.RevocationBound`. A post that had passed its check by then may be accepted at
  any later time, but no other: `LongPoll.RevokedPosts`.
- A post for another tenant's job is answered 403 while an unknown job is answered 404; this is the
  only reply in which other tenants show at all: `Isolation.SameRepliesAlone`.

## Model

| member | source | states |
|---|---|---|
| Effects.CreateTenantEffect | control/routes/tenants.py:24-54 | 422 for a name that is empty or over 200 characters, otherwise a new row with an unburned token |
| Effects.EnrolLookupEffect | control/routes/agent.py:131-155 | 401 iff the tenant is unknown or its token burned; otherwise the enrolment goes on, dated now |
| Effects.CreateDashboardEffect | control/routes/dashboards.py:16-37 | 422, 404 or a new row with the given columns whose first slot is its creation time |
| Effects.EnrolCommitEffect | control/routes/agent.py:157-173 | token burned and agent created with the lookup's time, or neither |
| Effects.RevokeEffect | control/routes/agent.py:436-451 | revoked_at is set to now on that row alone iff the agent exists and is not revoked; otherwise 404 and nothing |
| Effects.OpenPollEffect | control/routes/agent.py:222-252 | 422 outside 1 to 25 seconds, 401 without a valid token, otherwise an open poll of the token's tenant with its deadline |
| Effects.BeginProbeEffect | control/routes/agent.py:254-304 | a probe begins iff the poll is awake before its deadline, and 204 ends it iff it is awake at or after it |
| Effects.ClaimEffect | control/routes/agent.py:260-296 | an oldest pending job of the tenant is handed out and becomes running with this claimer and time; no other job changes |
| Effects.EmptyProbeEffect | control/routes/agent.py:298-300 | with no pending job of the tenant the poll sleeps for a second, and no table changes |
| Effects.AbortPollEffect | control/routes/agent.py:254-296 | an exception ends the poll and changes no table |
| Effects.SubmitCheckEffect | control/routes/agent.py:328-364 | 401, 404, 403, 409 in that order, each iff its condition holds and no earlier one; otherwise the post is kept for its transaction |
| Effects.SubmitCommitEffect | control/routes/agent.py:366-402 | the dashboard's row shows this job, body and time, the job is done or failed as the body says, and nothing else changes |
| Effects.SubmitAbortEffect | control/routes/agent.py:368-402 | an exception in the transaction changes no table |
| Effects.TickUpdateEffect | control/scheduler.py:76-84 | exactly the due dashboards advance by their interval in seconds, and each is owed an INSERT with its tenant, SQL and the tick's time |
| Effects.TickInsertEffect | control/scheduler.py:90-98 | one pending job with the owed columns and the default limit, or, if the id is taken, the end of the tick |
| Effects.TickFailEffect | control/scheduler.py:54-57 | an exception in a tick abandons what that tick still owes, and nothing else |
| Effects.ReapEffect | control/scheduler.py:120-134 | exactly the running jobs claimed more than 40 s before are pending and unclaimed again |
| Effects.ReadEffect | control/routes/dashboards.py:55-100 | 404 iff there is no dashboard, pending iff it has no row, otherwise the stored columns |
| Coherence.InvStep | control/db.py:82-163 | every statement of every handler keeps foreign keys, tenant agreement along every reference, the lease columns in step with the status, and the results/jobs agreement |
| Coherence.CoherentAlways | control/routes/agent.py:334-402 | after any run with arbitrary clients: a results row shows a terminal job of its own dashboard and tenant, done iff the stored status is success; a dashboard with a terminal job has a row; running jobs have a claimer of their tenant, pending ones none; jobs copy their dashboard's SQL |
| Coherence.SubmitCommitKeeps | control/routes/agent.py:366-402 | the submit transaction keeps all that, although its guards ran earlier and anything may have happened since |
| Lifecycle.JobEdge | control/routes/agent.py:256-402 | a job is never deleted and changes only by being claimed from pending, accepted as done if the body reports success and failed otherwise, or reset from running, and only in the columns named |
| Lifecycle.JobBirth | control/scheduler.py:90-98 | a job appears only by an INSERT that a tick owes: that due dashboard's tenant and SQL, pending, unclaimed, 30000 ms, dated with the tick's captured time |
| Lifecycle.JobForever | control/routes/agent.py:397-402 | over any run no job disappears, its immutable columns stay, and {done, failed} is absorbing |
| Lifecycle.ReapedOnlyAfterTimeout | control/scheduler.py:119-134 | whatever step takes a running job back to pending, strictly more than its own timeout_ms plus ten seconds have passed since its claim |
| Lifecycle.ReapComplete | control/scheduler.py:119-134 | after a reap at `now` no running job was claimed before now - 40 s, and fresh leases, other statuses and all other tables are untouched |
| Lifecycle.CrashRecovery | control/scheduler.py:105-134 | over every run in which reaps are never more than `gap` apart, no job is ever running on a claim more than 40 s and `gap` old, whatever became of its agent |
| Lifecycle.LeaseHolds | control/routes/agent.py:275-284 | the lease guarantee over runs: up to forty seconds after its claim, a running job with no accepted post is still running, for the same agent, unchanged |
| Lifecycle.NeverPendingAgain | control/routes/dashboards.py:62-77 | once a dashboard's read has shown a result, no later read of any run shows "pending" |
| Cache.CacheRefinesLog | control/routes/agent.py:369-402 | over any run, each results row is the last accepted post of its dashboard, and each terminal status is that of the job's last accepted post |
| Cache.ReadsLastAccepted | control/routes/dashboards.py:62-100 | a read returns the dashboard's last accepted post, and "pending" iff there is none |
| Cache.DuplicateCheckExact | control/routes/agent.py:357-364 | in every reachable state 409 is answered for job j iff j is the last accepted job of its dashboard, and otherwise the post goes through |
| Cache.SecondAcceptanceExactly | control/routes/agent.py:357-402 | in every reachable state, committing a post that has passed the check is a further acceptance of its job iff the job is terminal by then |
| Cache.AtMostOnceExactly | control/routes/agent.py:357-402 | a run with arbitrary clients accepts every job at most once iff no commit in it finds its job terminal |
| Cache.TerminalIffAccepted | control/routes/agent.py:397-402 | a job is terminal iff some post for it was accepted earlier in the run |
| Cache.StatusMeaning | control/routes/agent.py:397-402 | in every reachable state the job a row shows is done iff the row's body reports success and failed iff it does not, and a job is done or failed exactly as its last accepted post says |
| Slots.SlotsStep | control/scheduler.py:74-98 | one step keeps the slot ledger exact: every slot used up is owed, lost or spent, exclusively, and jobs match spent slots one to one |
| Slots.SlotsAlways | control/scheduler.py:74-98 | the same over every run, with any number of interleaved schedulers |
| Scheduling.SlotConservation | control/scheduler.py:76-98 | next_run_at = created_at + refresh_interval * (jobs inserted + inserts owed + inserts lost to a failed tick), in every reachable state |
| Scheduling.OneJobPerSlot | control/scheduler.py:74-98 | a slot never yields two jobs, a job never fills two slots, and a slot neither owed nor lost has its job |
| Scheduling.EverySlotOnce | control/scheduler.py:74-98 | when no tick fails, every slot used up is still owed or has exactly one job |
| Scheduling.NothingLost | control/scheduler.py:46-57 | only a failing tick loses an insert |
| Scheduling.EnqueueBound | control/scheduler.py:76-98 | a dashboard never has more than (now - created_at) div refresh_interval + 1 jobs |
| Scheduling.CatchUp | control/scheduler.py:76-84 | n ticks at a fixed time, interleaved with anything, use up exactly min(n, backlog) slots |
| Scheduling.CatchUpComplete | control/scheduler.py:76-98 | once as many ticks as there were slots due have run and nothing is owed or lost, the number of jobs is exactly the bound |
| Scheduling.NoDrift | control/scheduler.py:46-59 | for a new dashboard with ticks at most one interval apart, after every tick now < next_run_at <= now + refresh_interval |
| Scheduling.FallsBehind | control/scheduler.py:76-84 | with ticks at least `gap` apart the lag grows by at least gap - refresh_interval with every tick |
| LongPoll.ProbesBounded | control/routes/agent.py:252-304 | over any run no poll makes more probes than its timeout in seconds, never more than 25, and none begins at or after the deadline |
| LongPoll.StillOpenFoundNothing | control/routes/agent.py:254-304 | every probe of a poll that has not been granted a job found no pending job of its tenant |
| LongPoll.RevokedForever | control/routes/agent.py:436-445 | revoked_at is set once and neither cleared nor moved by any run |
| LongPoll.RevokedRefused | control/routes/agent.py:96-103 | in any run after its revocation, an agent's polls and posts are refused with 401 and change nothing |
| LongPoll.RevocationBound | control/routes/agent.py:79-103 | a job handed to a revoked agent comes from a poll authorised before the revocation, in a probe begun less than 25 s after it |
| LongPoll.RevokedPosts | control/routes/agent.py:328-368 | every post of a revoked agent still in flight in any later run had passed its check before the revocation and is unchanged since |
| History.AuthorisedExactly | control/routes/agent.py:86-103 | over every run a token works iff its agent's enrolment was answered 201 and no revocation of it was acknowledged since |
| History.TokenWorks | control/routes/agent.py:247-252 | the poll of an enrolled agent with no acknowledged revocation is opened |
| History.RevocationEnforced | control/routes/agent.py:436-458 | once a revocation is acknowledged, in every later run the agent's polls and posts are answered 401 and change nothing |
| History.DashboardsExactly | control/routes/dashboards.py:16-60 | a dashboard exists, and reads of it are not answered 404, exactly since its creation was acknowledged, with the columns it was created with |
| History.EarlierTickFirst | control/routes/agent.py:260-272 | in every run no probe hands out a job of one tick while a job of the same tenant from a tick with an earlier time is pending |
| Isolation.StepUnwinds | control/routes/agent.py:328-402 | each statement commutes with the projection to a tenant if it is that tenant's, and is invisible to it otherwise |
| Isolation.NonInterference | control/routes/agent.py:247-296 | for every run and tenant, the tenant's projection of all tables and suspended handlers equals the purged run of its projection |
| Isolation.OtherTenantsInvisible | control/routes/dashboards.py:51-100 | deleting all other tenants from a run leaves, in every table, exactly the tenant's rows, and its dashboard reads the same |
| Isolation.PurgeLeavesOwn | control/routes/agent.py:247-249 | no request of another tenant, or of another tenant's agent, is left in the purged run |
| Isolation.SameReplies | control/routes/agent.py:343-354 | the tenant's requests get the replies they would get alone, except 403 instead of 404 for another tenant's job |
| Isolation.SameRepliesAlone | control/routes/agent.py:343-354 | after any run, the tenant's requests are answered as after the run without the other tenants, except 403 instead of 404 for another tenant's job |
| Service.NoOvertaking | control/routes/agent.py:260-272 | with increasing tick times, the unfinished jobs of a tenant that are no younger than j only become fewer over any run, reaps included |
| Service.ServeStep | control/routes/agent.py:273-284 | a claim takes one of the jobs ahead of j, and finishing it removes it from them |
| Service.Served | control/routes/agent.py:260-284 | while j is unfinished, claims served plus jobs still ahead never exceed the jobs ahead at the start |
| Service.BoundedService | control/routes/agent.py:260-284 | if each claim is answered before the next claim or reap, j is terminal after at most as many rounds as there were jobs ahead of it |
| Service.ClaimsWhilePending | control/routes/agent.py:260-284 | with no assumption on agents or reaps: while j stays pending, the tenant's claims are fewer than the jobs queued in front of j, itself included, plus the leases of such jobs that expired meanwhile |
| Truncation.HalvingApproximates | agent/agent.py:237-247 | what halving keeps is a prefix that fits; it is everything iff everything fits; the longest fitting prefix is at most twice as long |
| Truncation.EncodedSize | agent/agent.py:236-243 | the size the limit is applied to is two brackets, all rows, and two characters between rows (arrays of section 5 of RFC 8259, with the two-character separator of the encoder) |
| Truncation.Truncate | agent/agent.py:236-247 | the loop halves exactly as often as it takes for the rows to fit, at most floor(log2 n) + 1 times; what it keeps is a prefix that fits, all if all fit, and no fitting prefix is more than twice as long; `truncated` iff a row was dropped |
| Truncation.ExecuteQuery | agent/agent.py:220-267 | the body reports the query: rows kept as above with their count when fetched in time, QUERY_TIMEOUT when fetched too late, EXECUTION_ERROR with the first 500 characters when it raised, and always the time it took |
| Truncation.ProgramBodyPresentable | agent/agent.py:222-267 | the same for the body as a function of the query's outcome, which the fleet uses |
| Truncation.ProgramBodyReports | agent/agent.py:222-267 | the body as a function reports its query in the same sense |
| Truncation.DigitsRead | agent/agent.py:223-229 | the numbers in the timeout message read back as the limit and the time taken |
| Fleet.ServerRun | agent/agent.py:317-392 | a run of agents, link and control plane is, for the control plane, a run with arbitrary clients and the same log |
| AtMostOnce.ActGood | agent/agent.py:279-312 | every act of the whole system keeps: one agent per tenant, a held job is unfinished or its own post was just accepted, a post in flight is for a job not yet accepted |
| AtMostOnce.AlwaysGood | agent/agent.py:317-392 | the same over every run |
| AtMostOnce.CheckedUnfinished | control/routes/agent.py:343-364 | the agent program's post is never answered 403 or 404, passes the check only for a job not yet accepted, and meets 409 only for one that is |
| AtMostOnce.AcceptedAtMostOnce | control/routes/agent.py:357-402 | in any run, with any losses, crashes and reaps, no job's result is accepted twice |
| AtMostOnce.FinalStatusFinal | control/routes/agent.py:397-402 | a job that is done stays done and a job that has failed stays failed |
| Leases.LeaseFate | control/routes/agent.py:275-284 | along any run, a job claimed for the last time at step i and not yet accepted is back in the queue iff a later step expired it, and otherwise exactly as the claim left it |
| Leases.OnLeaseAlways | agent/agent.py:331-356 | over every run of the fleet, each agent claimed last whatever job it holds or has in flight |
| Leases.AcceptedFromLease | control/routes/agent.py:397-402 | for every run and every post in flight in it: its sender claimed the job at some earlier step, nobody has claimed it since, and it is pending now iff a reap after that step expired it, else running on that claim |
| Leases.ReapedInFlight | control/scheduler.py:119-134 | a concrete run of the agent program whose query outlives its lease: its post is in flight for a job that is pending again |
| AtMostOnce.StoredResultsPresentable | agent/agent.py:236-255 | every stored success counts its rows and fits 1 MB, though only the agent enforces it |
| AtMostOnce.OwnTenantOnly | control/routes/agent.py:133-173 | a tenant never has two agents, and the SQL an agent executes is that of a dashboard of its tenant |
| Freshness.AlwaysFresh | agent/agent.py:331-356 | over every run the spans from query start to acceptance of one tenant's posts do not overlap |
| Freshness.FreshnessMonotone | agent/agent.py:279-312 | the queries behind successive results of a dashboard started later and later, each after the previous result was accepted, even when an older job is re-run |
| Freshness.PostsAreLogged | control/routes/agent.py:374-395 | the last of those posts is the row the dashboard shows |
| Provenance.ShownIsReported | agent/agent.py:344-356 | in every run, whatever a dashboard shows reports the outcome of an execution of that dashboard's own SQL, under the 30 s limit, by an agent of its tenant, for the job shown |
| Program.PostingRuns | agent/agent.py:272-312 | a posting process of the fleet takes the steps of post_result for every sequence of fates, and ends as its verdict says |
| Program.AlwaysServable | agent/agent.py:331-356 | after any run, an idle agent that may call can serve an oldest pending job of its tenant: exactly that job's row and status change, the status is done iff the query was fetched in time, and the dashboard shows what the query brought |
| Program.Setbacks | agent/agent.py:358-392 | what an agent does after a lost answer, a 204, a failing poll, a 401 and a crash |
| Program.StoppedForGood | agent/agent.py:362-368 | a process that has exited or crashed never acts again, in any run |
| Limits.PostAlone | control/routes/agent.py:357-402 | one undisturbed post is accepted and makes every other job of its dashboard acceptable again |
| Limits.ForgottenDuplicate | control/routes/agent.py:357-364 | whenever two jobs of a dashboard are unrecorded, posting first, second, first is accepted three times |
| Limits.DuplicateAccepted | control/routes/agent.py:357-364 | a concrete run from the empty system in which one job's result is accepted twice |
| Limits.OverlappingDuplicate | control/routes/agent.py:357-368 | two overlapping posts for one job are both accepted |
| Limits.NeverRunning | control/routes/agent.py:334-402 | a concrete run from the empty system in which a job goes from pending straight to terminal |
| Limits.SecondAgentExactly | control/routes/agent.py:133-173 | in every reachable state a committing enrolment gives its tenant a further agent iff the token was already burned |
| Limits.OverlappingEnrolments | control/routes/agent.py:133-173 | two overlapping enrolments with one token both succeed |
| Posting.LogSplit | control/routes/agent.py:366-402 | along any run, the accepted posts are those of one request's own transaction and those of others, none lost and none counted twice |
| Posting.SubmitTally | control/routes/agent.py:328-402 | the handler's whole run with others in between: its own transaction accepts exactly one post of this job and body iff the reply is 200, and a refusal leaves the state as it was |
| Posting.RowKept | control/routes/agent.py:374-395 | while others accept nothing for its dashboard, a job that shows there goes on showing, over any run |
| Posting.AttemptTally | agent/agent.py:280-308 | one attempt with any fate and interleaving: at most one own acceptance; none if the request is lost, the handler raises, or the job shows and no rival comes in; verdicts are truthful |
| Posting.AttemptMust | agent/agent.py:280-308 | a request that reaches its handler is accepted exactly once if the agent may call, the job is its tenant's and no row records it, and otherwise not at all; the agent is done on 200 or 409, exits on 401, and tries again on anything else |
| Posting.PostingTally | agent/agent.py:272-312 | three attempts with any fates and interleaving: own acceptances are of this job and body; unless a rival post for its dashboard is accepted meanwhile there is at most one, and the job then shows; 200 or 409 means recorded; giving up with no answer lost means nothing was accepted |
| Posting.PostingMust | agent/agent.py:279-310 | an attempt the loop reaches ends it, with that verdict, whenever its answer must be 200, 409 or 401, and what it has accepted is accepted |
| Posting.GivesUpAfterThree | agent/agent.py:279-312 | giving up takes three attempts, none of which brought a verdict |
| Server.ControlPlane.EnrollAgent | control/routes/agent.py:109-181 | 401 iff the tenant is unknown or its token burned at the lookup; otherwise exactly lookup, others' steps, transaction; 201 iff the new id is still free when the transaction comes, and then the agent row and the burned token carry the lookup's time |
| Server.ControlPlane.SelectOldest | control/routes/agent.py:260-271 | the scan finds a pending job of the tenant that no pending job of the tenant precedes, and none iff there is none |
| Server.ControlPlane.ProbeOnce | control/routes/agent.py:254-300 | one turn of the loop, with others acting before its transaction and while it sleeps: the trace ends with the probe that finds the tenant's oldest pending job, now leased to the poll's agent; or it holds one more probe, which found none, and a POLL_INTERVAL has passed |
| Server.ControlPlane.GetNextJob | control/routes/agent.py:247-304 | with arbitrary interleaving: the trace holds at most `timeout` probe transactions of the poll and no steps but its own, the script's and time passing, which the handler spends a POLL_INTERVAL per probe; 204 only at the deadline, every probe in the trace having taken place and found nothing; otherwise the last statement is the probe that answered this and leased the oldest pending job to the caller, all earlier ones having found none; 422 and 401 exactly when due, changing nothing |
| Server.ControlPlane.SubmitJobResult | control/routes/agent.py:310-409 | the reply is the first failing guard's or the transaction's, and the run is exactly guards, others, transaction; a refusal changes nothing; the request's own transaction accepts exactly one post iff the reply is 200, and job and row then show this body |
| Server.ControlPlane.WalkDue | control/scheduler.py:90-102 | with others acting before each INSERT: every dashboard of the due list that the loop reaches has its job, by this tick's own INSERT, and is owed no more, the rest is still owed, and the loop stops early only at a raising INSERT |
| Server.ControlPlane.EnqueueDueDashboards | control/scheduler.py:62-102 | with others acting before the UPDATE and between INSERTs: the trace is others, the UPDATE at the time read first, and this tick's own INSERTs, which are for the dashboards done and no others; either all are done and nothing is owed, or an INSERT raised and the unreached part is given up |
| Server.ControlPlane.SchedulerTick | control/scheduler.py:46-59 | the same for enqueue followed by reap at a later-read time, with others acting in between: after a successful turn every due dashboard has its job and no stale lease is left; a failed enqueue makes no reap |
| Server.ControlPlane.Perform | control/routes/agent.py:109-458 | for every label the object takes the transition system's step and gives its reply |
| Agents.AgentProcess.Attempt | agent/agent.py:280-308 | one attempt with others acting before and during it takes exactly the steps and verdict of its specification; its own transaction accepts nothing if the request is lost, the handler raises, or the job already shows and no rival post for its dashboard comes in; success is reported only if the job is recorded, 401 only if the agent is revoked |
| Agents.AgentProcess.PostResult | agent/agent.py:272-312 | the loop takes exactly the steps and verdict of the three-attempt specification, and has the guarantees of PostingTally; 401 exits |
| Agents.AgentProcess.PollOnce | agent/agent.py:331-368 | one turn of the loop with others acting wherever it waits: whatever job arrives is the agent's own tenant's and is executed and posted; the body is the program's for that SQL and presentable; posting it is the specification's run with its guarantees; 401 exits |

## Left out

- HTTP, validation framework, CORS, connection pool, logging, startup and shutdown: plumbing.
- SQL execution and the seed data: a query is an arbitrary outcome (rows or an error, and a duration) per SQL text.
- Token generation, hashing, bearer-header parsing and the admin key: a token is its row; requests with no usable token are those of unknown agents.
- Heartbeats, hostname and version columns, enrolment retries, the 429 branch, back-off times and `consecutive_errors`: no effect on the queue.
- JSON encoding and `_convert_to_json_serializable`: a row is its encoded text; the array's brackets and separators are modelled.
- Guards read at one instant: authentication and the following reads of a handler are separate statements in the source and one step here, so a revocation cannot fall between them.
- Times of claim, revocation and creation: read just before their statement in the source, equal to the statement's clock here.
- An agent whose HTTP client gives up while its poll or post is still being handled: excluded in `Fleet` by the one-request-at-a-time assumption, present in the first layer.
- SQL statements over whole tables: UPDATE is a map comprehension over the rows; ORDER BY with LIMIT 1 is a scan.
- Server.ControlPlane.SchedulerTick: one turn; the endless loop and its five-second sleep are the choice of the next turn's time. Exceptions are a number of INSERTs after which one raises, or an id already taken.
- Agents.AgentProcess.PollOnce: one turn of the endless loop; a job with a negative timeout, which no INSERT creates, is not executed.
