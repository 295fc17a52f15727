# Verified model of an agentic identity provider's control plane

The control plane turns requests by humans and agents into CI runs, and gives a CI job
cloud credentials only for a run that policy allows. This project models the parts where
that is decided, and proves what they keep under every interleaving.

## How it is built

**A run's life** (`RunTables`, `RunProtocol`, `RunInvariant`, `RunTheorems`,
`RunEffects`, `RunInstants`, `RunSafety`, `RunAttempts`, `RunCharges`, `RunWitnesses`,
`RunStore`). Requesters, approvers, job deliveries, worker pollers, CI callbacks and
result reporters act on the same rows at once, and nearly all safety comes from the
`WHERE` guards of single SQL statements. `RunTables` holds the tables and the
statements. `RunProtocol` is the state machine: one SQL statement is one step, the Go
code between two statements is a program counter per process, and a schedule is any list
of steps of any number of processes. A process that crashes is one that the schedule
stops mentioning; a statement that fails for reasons of its own ends its process in the
same way. `RunInvariant` has the inductive invariant, `RunTheorems` what holds over
whole schedules, `RunEffects` what each statement does to each table, column by column
and in words of its own, `RunInstants` which steps the stored instants are those of,
`RunSafety` what holds in every state reached, `RunAttempts` what becomes of a run that
a job attempt refuses, and `RunCharges` what every stored cost amounts to;
`RunWitnesses` has two schedules from empty tables whose ends may surprise. `RunStore`
writes the Go functions out again as methods over mutable tables, with arbitrary work of
other processes before each of their statements, and shows that each is exactly its
process's part of a schedule; so what is proved over schedules holds of those bodies.
Their contracts say what each is answered, by what its statements find whatever runs in
between, and what the answer means.

**Cost** (`CostTables`, `Rates`, `Rollup`). The rate table refines a map from scopes to
rates, the `ORDER BY ... LIMIT 1` scan a layered lookup, and the grouped rollup
conserves totals.

**Sessions** (`Identity`, `Sessions`). Token verification, revocation and an hourly
pruner run together; the pruned table is compared with one that is never pruned.

**Authority** (`Identity`, `Agents`, `Enrolments`, `AgentHandler`, `WorkerCredentials`).
Agent enrolment with idempotent reissue, and worker credentials that are minted, rotated
and granted environments, again statement by statement.

**Text and agreement** (`Refs`, `Poller`, `Shell`, `SigningKey`). The git refs that the
poller dispatches and the callback resolver compares, the shell quoting that a CI step
evaluates, and the start-up protocol by which instances agree on one signing key.

`Machine` holds what all the protocols share: execution of a schedule, invariants,
counting and amortisation along it, and the weaving of one process into the others.

Conventions: identifiers are natural numbers with 0 for the nil UUID; a string is a
sequence of characters; run times are microseconds and token times nanoseconds; the
answers of foreign services, generated keys and the order of ties are inputs.

## What the proofs bring to light

- A crash between two statements of `Request` or `Decide` strands the run: nobody else
  ever moves or enqueues it (`RunSafety.CrashStrands`).
- `policy.Check` answers "requires approval" for the human-in-the-loop tier even after
  the approval, so a job attempt that has started an approved run goes on to fail it
  closed (`RunAttempts.RefusesIff`), and no credential is ever minted for one
  (`RunSafety.MintsAreAllowed`). But failing it is a statement of its own. It takes
  effect exactly when the run's claimant has not reported before
  (`RunAttempts.FailsClosedUnlessReported`), so an approved run can end succeeded
  (`RunWitnesses.ApprovedRunSucceeds`); and if the attempt crashes, the run goes on
  executing, to be claimed like any other (`RunAttempts.CrashLeavesExecuting`).
- The mint gate asks policy, not the run's status. A callback that finds its run
  executing may be given credentials after the run has finished, if that ended it
  without a reference (`RunSafety.MintsIff`, `RunTheorems.LateCallbacks`,
  `RunWitnesses.FailedRunIsMinted`).
- A report with an empty external reference puts NULL back, and resolving is guarded by
  NULL alone; two callbacks can resolve one run only with such a report in between
  (`RunTheorems.ResolvedOncePerReport`).
- `normalizeRef`'s comment speaks of a bare branch or tag setting. A bare setting always
  names a branch to the resolver: if GitHub resolved it to a tag, the run's own callback
  is refused (`Refs.CallbackRefAccepted`, `Poller.OwnCallbackMatches`). The code is
  followed.
- Verification is two steps. If a check passes the expiry test and then pauses across
  both the token's expiry and a pruning, a revoked token is accepted. Pruning is
  invisible exactly when the revocation query is made no later than the expiry
  (`Sessions.PausedCheckAcceptsRevoked`, `Sessions.AnswersAlikeIff`). The comment that
  nothing calls `DeleteExpired` is out of date: the server does, hourly.
- The rate route accepts the nil UUID as an environment. That scope coincides with the
  tenant's default in the unique index, so the call updates the default if there is one
  and fails otherwise (`Rates.RateStore.SetRate`). The store would also accept a blank
  provider, which the route never sends: the lookup is layered exactly for the tables
  without one (`Rates.ScanIsLayeredIff`).
- The lifetime of an agent is bounded after its multiplication in 64 bits, and that
  wraps. Some lifetimes of centuries pass the bound: one of 18446744074 seconds comes to
  0.29 s, and one of 9223372037 seconds ends before it begins, so that the agent's row
  is inserted and no token signed (`Enrolments.WrappedLivesPass`). An agent lives as
  long as was asked for exactly up to thirty days (`Enrolments.LifeIsAskedIff`,
  `Enrolments.EnrolledAsAsked`).
- A reissue reads the clock twice, for what is left of the agent's life and to date the
  token: the token can outlive the agent by the time in between
  (`Agents.AnswersInScope`).
- No code issues a delegated token to a human, and agents may not enrol agents: the
  scope check on a delegated enroller guards against a caller that does not exist yet
  (`Agents.NoDelegatedCallers`).
- `RotateWorkerCredentialToken` is not guarded by `revoked_at`: a bootstrap that races a
  revocation may hand out a token, but it never verifies
  (`WorkerCredentials.VerifiesIffLatest`), and the name stays refused.
- The store behind worker credentials trusts its caller for the tenant of an
  environment, and a grant refused halfway leaves the credential and the earlier grants
  behind (`WorkerCredentials.CredentialStore.Mint`).

## Model

| member | source | states |
|---|---|---|
| Policy.Check | controlplane/internal/policy/policy.go:20-38 | approval is required exactly for the human-in-the-loop tier; the autonomous tier is always allowed and the read-only tier exactly a pipeline that does not mutate; an invalid tier is denied |
| RunInvariant.StepKeeps | controlplane/internal/execution/sqlcgen/execution.sql.go:390-396 | every step of every process keeps the invariant of tables and processes, and only moves rows along the lifecycle, with identity, claims and timestamps fixed once set |
| RunEffects.EveryStatement | controlplane/internal/execution/sqlcgen/execution.sql.go:16-396 | every statement of every process changes every column of every table exactly as its SQL says: which row, under which guard, to which value, and nothing else; a cost row holds the whole milliseconds and their price cut to 64 bits |
| RunTheorems.HistoryIsLifecycle | controlplane/internal/execution/execution.go:121-249 | under any schedule a run's statuses form a path policy_checked or awaiting_approval, queued or denied, executing, end state, with at most three changes, ending where the row is |
| RunTheorems.SystemWindsDown | controlplane/internal/execution/sqlcgen/execution.sql.go:291-298 | the steps that change any status number at most three for each run ever requested |
| RunTheorems.DecidedOnce | controlplane/internal/execution/sqlcgen/execution.sql.go:141-146 | among any number of concurrent decisions the approval row is written exactly once, by the first |
| RunEffects.DecidedUnderTier | controlplane/internal/api/runs.go:173-185 | whenever an approval is decided, exactly one step has done it, by a caller who is not of the read-only tier, another actor than the requester and of the run's tenant |
| RunEffects.ReadOnlyMayNotDecide | controlplane/internal/api/runs.go:180-183 | a read-only caller's decision ends Forbidden on arrival and changes no table, whatever it is about |
| RunTheorems.EnqueuedOnce | controlplane/internal/execution/execution.go:150-152 | at most one job is ever inserted for a run, and one exactly if some enqueue step was taken |
| RunTheorems.DeliveredOnce | controlplane/internal/execution/queue.go:47-54 | over all deliveries of a run's job exactly one passes queued to executing, and the run has started exactly if one did |
| RunTheorems.RedeliveryIsHarmless | controlplane/internal/execution/queue.go:47-80 | over all deliveries and attempts of a run's job together, at most two steps change a table: the start and the fail-closed; none once the run is finished |
| RunTheorems.ClaimedOnce | controlplane/internal/execution/sqlcgen/execution.sql.go:16-27 | a run is claimed at most once, and is claimed exactly if one claim step took it |
| RunEffects.FinishedNeverClaimed | controlplane/internal/execution/sqlcgen/execution.sql.go:16-27 | once a run is finished, no step of any schedule changes who claimed it |
| RunTheorems.FinishedOnce | controlplane/internal/execution/queue.go:74-80 | a run is finished exactly once, by a report or by failing closed, so neither overwrites the other |
| RunTheorems.ReportedByClaimant | controlplane/internal/execution/execution.go:313-329 | a run that ended succeeded, cancelled or timed out was finished exactly once, by a report of its own claimant, of its tenant and granted its environment |
| RunTheorems.ResultsAreFinal | controlplane/internal/execution/sqlcgen/execution.sql.go:291-298 | identity, claim and start never change once set, and a finished run keeps its status, raw status, finish time and non-NULL reference |
| RunInstants.InstantsAreSteps | controlplane/internal/execution/sqlcgen/execution.sql.go:291-298 | in every reachable state started_at is the instant of the delivery that started the run, finished_at that of the report or fail-closed write that finished it, and a reported row holds that report's own status, raw status, reference and URL, empty as NULL |
| RunTheorems.BoundedOvertaking | controlplane/internal/execution/sqlcgen/execution.sql.go:16-27 | claims that could have taken a run and took another number at most the unclaimed runs requested no later, plus the rows inserted at its own instant, of which there are none once the clock has moved on |
| RunTheorems.ResolvedOncePerReport | controlplane/internal/execution/sqlcgen/execution.sql.go:349-353 | two callbacks with references resolve the same run only with a report that clears it in between |
| RunSafety.ApprovalsGovern | controlplane/internal/api/runs.go:222-243 | a run has an approval row exactly when its tier needs one; past awaiting_approval it stands where the decision put it, by someone other than the requester |
| RunSafety.FollowUpsNeverMiss | controlplane/internal/execution/execution.go:228-241 | whoever inserted a run or won its decision finds the row where it left it: the guarded follow-up never misses |
| RunSafety.CrashStrands | controlplane/internal/execution/execution.go:126-152 | between inserting or deciding a run and enqueuing it, no other process moves or enqueues it, for however long |
| RunSafety.MintsAreAllowed | controlplane/internal/api/runs.go:435-469 | every credential.minted event is for a started run that policy allows, never one of the human-in-the-loop tier, with the run's own tier and environment |
| RunSafety.MintsIff | controlplane/internal/api/runs.go:435-479 | undisturbed, a callback that has matched its run mints exactly when the run is unresolved and policy allows it, whatever its status, finished included |
| RunTheorems.LateCallbacks | controlplane/internal/execution/sqlcgen/execution.sql.go:349-353 | a run that has finished is open to a late callback only if exactly one step ended it unresolved: a report with an empty reference, or a fail-closed before any callback |
| RunWitnesses.FailedRunIsMinted | controlplane/internal/api/runs.go:400-480 | a schedule from empty tables after which the run has failed by its worker's report, and its credentials are minted |
| RunAttempts.RefusesIff | controlplane/internal/execution/queue.go:56-70 | a job attempt that has started a run goes on to fail it closed exactly when the run went through approval or its provider has no adapter |
| RunAttempts.FailsClosedUnlessReported | controlplane/internal/execution/queue.go:73-80 | that write takes effect, and the run has failed, exactly when the run's claimant has not reported before; otherwise nothing changes |
| RunAttempts.OneAttempt | controlplane/internal/execution/queue.go:47-51 | at most one process is between starting a run and ending the attempt, however often its job is delivered |
| RunAttempts.RefusedRunsFail | controlplane/internal/execution/queue.go:47-80 | a started run that went through approval or has no adapter is executing only while its attempt is under way; once the attempt is over it has failed, unless its claimant reported |
| RunAttempts.CrashLeavesExecuting | controlplane/internal/execution/queue.go:47-80 | if the process that started a run stops, nobody else fails it closed: only its claimant's report finishes it, and until then it is executing |
| RunWitnesses.ApprovedRunSucceeds | controlplane/internal/execution/queue.go:56-80 | a schedule from empty tables, for any pipeline and adapters, after which an approved run has succeeded |
| RunSafety.TenantsAgree | controlplane/internal/api/runs.go:78-100 | a run, its environment, its pipeline and its claimant share one tenant, the claimant is granted the environment, and idempotency keys are unique |
| RunSafety.MintsAreMatched | controlplane/internal/api/runs.go:416-434 | a callback about to be given credentials is relayed by a worker granted the run's environment, and its claims match the run's own pipeline and ref |
| RunSafety.TimesRecordTheLifecycle | controlplane/internal/api/runs.go:366-372 | started_at is set exactly once executing, finished_at exactly in an end state, in order; so no report dereferences nil and no cost capture fails |
| RunSafety.OneCostPerRun | controlplane/internal/cost/cost.go:86-105 | each run has at most one ci_duration row, of its own and non-negative duration |
| RunInstants.DurationIsBetween | controlplane/internal/cost/cost.go:67-79 | every cost row charges the whole milliseconds between the step that started its run and the later one that finished it |
| RunSafety.CostsAreFixed | controlplane/internal/cost/sqlcgen/cost.sql.go:15-20 | cost rows and audit events are only ever appended, whatever happens to the rates later |
| RunCharges.ChargesAreLayered | controlplane/internal/cost/cost.go:67-107 | in every reachable state each cost row's amount is its run's duration times the rate of the narrowest scope set for the run's tenant, environment and provider at one moment after the run finished, whatever is set before or since; absent exactly when there was none, and exact exactly when the product fits 64 bits |
| RunCharges.RatesAreLastSet | controlplane/internal/cost/sqlcgen/cost.sql.go:205-211 | after any schedule the table is the map of what every scope was last set to, a call with a negative rate or an unknown environment having changed nothing |
| RunStore.HandlersAreSchedules | controlplane/internal/execution/execution.go:111-249 | a handler interleaved with others from any reachable state is part of one schedule, so it ends in a state that satisfies the invariant |
| RunStore.Database.PostRuns | controlplane/internal/api/runs.go:41-131 | the request handler, under any interleaving, is its process's schedule within six statements; its answer is determined by what its three lookups find at their own moments, and an answered id is a run of that request, with its columns, its job inserted or its approval row, and its audit event |
| RunStore.Database.Request | controlplane/internal/execution/execution.go:111-174 | the store's request is the schedule from the pipeline lookup on, and ends with a refusal or with the run placed |
| RunStore.Database.PostRunDecision | controlplane/internal/api/runs.go:173-260 | the decision handler with its tier check is its process's schedule within five statements: a read-only caller is refused with the tables unchanged, and otherwise the answer is determined by what the lookup and the guarded write find; when it succeeds the approval row holds this actor's decision, and an approved run its job |
| RunStore.Database.Decide | controlplane/internal/execution/execution.go:212-249 | the store's decision is the schedule from the decision write on: a conflict, or the decision written and followed up |
| RunStore.Database.Work | controlplane/internal/execution/queue.go:47-80 | one job attempt with its fail-closed path is its process's schedule from the delivery on, within three statements, and always completes its job |
| RunStore.Database.UpdateRunStatus | controlplane/internal/execution/sqlcgen/execution.sql.go:390-396 | the guarded status update returns the new row exactly when it hit, with the timestamps it sets |
| RunStore.Database.ClaimNextExecutingRun | controlplane/internal/execution/sqlcgen/execution.sql.go:16-27 | a run is claimed exactly if some row is executing, unclaimed and in one of the environments; it is one with the least request time among them, and its claim columns alone change |
| RunStore.Database.GetNextWorkerRun | controlplane/internal/api/runs.go:274-307 | the poll is its process's schedule within two statements; it hands out a run exactly if one is executing, unclaimed and in an environment granted to the worker at that moment, the earliest requested of them, now claimed by the worker |
| RunStore.Database.ReportRunResult | controlplane/internal/execution/sqlcgen/execution.sql.go:291-298 | the report is written exactly when the caller is the claimant of an executing run: status, reference, URL and raw status are the result's own, empty as NULL, an end state is dated now, and nothing else changes |
| RunStore.Database.CaptureCIDuration | controlplane/internal/cost/cost.go:67-107 | look up, price, insert, re-read: the process's schedule, and a finished capture has a cost row |
| RunStore.Database.PostWorkerRunResult | controlplane/internal/api/runs.go:327-379 | the result handler is its process's schedule within four statements: refused unless the status is an end state, answered by whether the caller then is the claimant of an executing run, never anything else; an accepted report stands, dated to its own write, with a cost row of the milliseconds since the start |
| RunStore.Database.FindUnresolvedExecutingRuns | controlplane/internal/execution/sqlcgen/execution.sql.go:168-177 | lists, once each and oldest request first, exactly the rows that are executing, unresolved, in the worker's environments and of a pipeline that the claims match |
| RunStore.AwaitsIff | controlplane/internal/execution/sqlcgen/execution.sql.go:168-177 | the listing's guard holds exactly of an executing run without a reference, in the relaying worker's environments, of a pipeline with these claims |
| RunStore.Database.ResolveExternalRef | controlplane/internal/execution/execution.go:336-377 | not found, ambiguous or the run exactly when none, several or one of the executing, unresolved runs of the listing matches provider, repository, workflow and ref, in whatever order; a single match is lost only if it was resolved before its row was written |
| RunStore.GoneNeverMatches | controlplane/internal/execution/sqlcgen/execution.sql.go:168-177 | once a run has been resolved or has finished, no schedule brings it back into any callback's listing or matches, so it makes no other run's callback ambiguous |
| RunStore.AmbiguousIff | controlplane/internal/execution/execution.go:347-364 | a callback is ambiguous exactly when two different executing, unresolved runs match it |
| RunStore.Database.MatchCandidates | controlplane/internal/execution/execution.go:347-364 | the loop over the candidates finds the only match, none, or a second one, although each pipeline is loaded at a different moment |
| RunStore.Database.RecordMatch | controlplane/internal/execution/execution.go:366-377 | the callback is recorded exactly when the match is still unresolved at that statement |
| RunStore.Database.PostWorkerRunResolve | controlplane/internal/api/runs.go:400-480 | the resolve handler with its mint gate is its process's schedule from arrival on, within six statements more than there are candidates; the answer follows from what the listing finds, whether the match is still unresolved, and whether its tier may run its pipeline; credentials are never answered for a run with an approval row |
| RunStore.PipelinesStay | controlplane/internal/execution/execution.go:116-121 | no schedule removes or changes a pipeline, so its mutability is the same at request, work and mint |
| RunStore.Database.Mint | controlplane/internal/api/runs.go:448-479 | credentials are answered exactly when both configuration lookups succeed, and the last audit event is then this run's mint |
| RunStore.CandidatesLoad | controlplane/internal/execution/execution.go:349-352 | in a reachable state every candidate's pipeline loads |
| Refs.ParseUndoesClaim | worker/internal/ciauth/githuboidc/verifier.go:71-78 | the parser undoes the workflow claim exactly when neither part holds an '@', or in the one coincidence where the repository does and the path is its own head |
| Refs.NormalizeRefIdempotent | controlplane/internal/execution/execution.go:381-389 | normalising is idempotent, always yields a full ref, and leaves exactly the full refs alone |
| Refs.CallbackRefAccepted | controlplane/internal/execution/execution.go:353-355 | a callback's ref is accepted exactly when the setting is full and equal to it, or bare and naming the branch |
| Poller.PollRuns | worker/internal/poller/poller.go:108-146 | a claimed run is either dispatched, with a ref that normalises like its setting, or reported failed, never both and never neither |
| Poller.OwnCallbackMatches | controlplane/internal/execution/execution.go:336-364 | a dispatched run is among the matches of its own job's callback exactly when the workflow path survives the claim and the ref setting names what GitHub ran |
| CostTables.AmountExactIff | controlplane/internal/cost/cost.go:80-83 | 64-bit multiplication is exact exactly when the product fits |
| Rates.ReplayIsLastSet | controlplane/internal/cost/sqlcgen/cost.sql.go:205-211 | after any calls the table holds each scope once and is the map of what each scope was last set to |
| Rates.LookupIsLastSet | controlplane/internal/cost/cost.go:177-190 | a lookup answers what was last set at the narrowest of environment and provider, environment, provider, tenant default |
| Rates.ScanIsLayered | controlplane/internal/cost/sqlcgen/cost.sql.go:51-58 | the ordered scan of any table with one row per scope is that layered lookup |
| Rates.ScanIsLayeredIff | controlplane/internal/cost/sqlcgen/cost.sql.go:51-58 | on a table with one row per scope the scan answers every lookup with the narrowest stored scope exactly when no row has a blank provider |
| Rates.UpsertRefines | controlplane/internal/cost/sqlcgen/cost.sql.go:205-211 | the upsert is one update of the map from scopes to rates |
| Rates.RateStore.SetRate | controlplane/internal/cost/cost.go:159-175 | each answer of the rate route, and the map of scopes after it, for every input |
| Rates.RateStore.FindRate | controlplane/internal/cost/cost.go:177-190 | the rate found is the layered lookup's |
| Rollup.GroupsConserve | controlplane/internal/cost/sqlcgen/cost.sql.go:140-154 | the actors' durations, amounts and counts add up to the totals over all selected rows |
| Rollup.GroupIsActorsSum | controlplane/internal/cost/sqlcgen/cost.sql.go:140-154 | every actor with a selected row has exactly one group, and it is the total of the query narrowed to that actor |
| Rollup.WindowsAdd | controlplane/internal/cost/sqlcgen/cost.sql.go:149-151 | adjacent half-open windows add up |
| Rollup.RowAddsItsOwn | controlplane/internal/cost/sqlcgen/cost.sql.go:140-154 | wherever it stands in the table, a row of this tenant's run in the window adds exactly its own amount, duration and one to the count, and any other row, such as one of another tenant's run, changes nothing |
| Rollup.PricedIff | controlplane/internal/cost/sqlcgen/cost.sql.go:142-143 | a total has an amount exactly when one of its rows has |
| Rollup.SumByActor | controlplane/internal/cost/cost.go:124-154 | one summary per actor with a counted row, largest amount first, with the totals of its actor's counted rows, the amount absent exactly when none has one; fails exactly when a total does not fit 64 bits |
| Identity.Issue | pkg/identity/token.go:47-82 | a token is signed exactly for a complete, valid request at no more than the issuer's tier; it carries the requested tenant, actor, type, tier, environments and delegation, is dated to the second, and expires within a second before the requested end |
| Identity.PermitsEnvironment | pkg/identity/types.go:117-124 | the search finds the environment exactly when the token is scoped to it |
| Sessions.PruningIsInvisible | controlplane/internal/session/sqlcgen/session.sql.go:16-32 | under any schedule whose queries come no later than their token's expiry, every verification answers as with a table that is never pruned |
| Sessions.PruningIsInvisibleAtOnce | controlplane/internal/session/sqlcgen/session.sql.go:16-32 | when every verification does both its steps at one instant, no hypothesis about time is needed |
| Sessions.AnswersAlikeIff | pkg/identity/token.go:105-123 | one query answers alike whatever has been pruned exactly when the actor is disabled, the session was never revoked, or the expiry has not passed |
| Sessions.PausedCheckAcceptsRevoked | pkg/identity/token.go:105-123 | from the empty store: check the expiry, revoke, expire, prune, query; the revoked token is accepted |
| Sessions.RevokedNeverVerifies | controlplane/internal/session/session.go:62-79 | after a revocation no verification not yet answered accepts the token, whether it begins later or is under way, whenever the pruner runs, its queries being in time |
| Sessions.RowOutlivesTokenIff | controlplane/internal/session/session.go:40-60 | a row outlives its token's last valid instant exactly if it expires at most one tick before the token |
| Sessions.SessionStore.Revoke | controlplane/internal/session/session.go:43-60 | refuses nil identifiers and a second revocation, and otherwise stores exactly the one row |
| Sessions.SessionStore.DeleteExpired | controlplane/internal/session/session.go:85-91 | removes and counts exactly the rows whose expiry has passed |
| Sessions.SessionStore.Verify | pkg/identity/token.go:100-136 | expiry is checked before revocation, with anything others do in between; claims are returned exactly for a valid verdict |
| Agents.AuthorityOnlyDecreases | controlplane/internal/api/agents.go:56-99 | every agent is authorised by a human of its tenant and of at least its tier, and its environments lie within the scope of the token it was enrolled under |
| Agents.TokensMatchActors | controlplane/internal/api/agents.go:222-230 | every token ever issued carries its actor's stored tier, and an agent's names its authoriser, holds a subset of its granted environments and lives at most the maximum |
| Agents.AnswersInScope | controlplane/internal/api/agents.go:126-149 | a delegated caller receives only tokens within its own scope; a reissued token ends with the agent, put off by the time between the two clock reads and cut to the second |
| Agents.ReplaysAgree | controlplane/internal/api/agents.go:114-160 | all successful answers to one caller under one key name the same agent, with the same tier and delegation, however retries race |
| Enrolments.EnrolledAsAsked | controlplane/internal/api/agents.go:197-245 | in every reachable state an enrolment answered with a token has left an agent whose row is the request's name, team, tier and key, created by one step and ending the requested lifetime after that step's instant; the token is dated by the step that signed it, lives as long, cut to the second, and holds the named environments in order |
| Enrolments.LifeIsAskedIff | controlplane/internal/api/agents.go:86-90 | a lifetime that passes the bound is the one asked for exactly up to thirty days of seconds |
| Enrolments.WrappedLivesPass | controlplane/internal/api/agents.go:82-90 | two lifetimes of centuries that pass the bound, one as 0.29 seconds and one as a negative life |
| Enrolments.ListsAll | controlplane/internal/api/agents.go:126-141 | what a retry is granted again is exactly what the agent holds at the listing |
| Agents.NoDelegatedCallers | controlplane/internal/api/token.go:68-74 | with the present issuers no enrolment is made by a delegated caller |
| AgentHandler.HandlersAreSchedules | controlplane/internal/api/agents.go:49-251 | an enrolment interleaved with other requests from any reachable state is part of one schedule, so it ends in a state that satisfies the invariant |
| AgentHandler.Server.PostAgents | controlplane/internal/api/agents.go:49-251 | the enrolment handler, under any interleaving, is its process's schedule from arrival on; a call that is refused before its first statement leaves the tables alone; a first token lives as long as was asked for, with the environments named, for an agent whose row is the request's, and a reissued one ends with its agent; undisturbed, the answer and every table after it are those of a decision table over the tables before |
| AgentHandler.Server.ReissueAgentToken | controlplane/internal/api/agents.go:256-280 | a token is reissued exactly for an agent that has not expired at the first clock read, at no more than the caller's tier: with the stored tier, all listed environments, the caller as authoriser, and the agent's end put off by the time to the second read |
| AgentHandler.Server.ResolveEnvironments | controlplane/internal/api/agents.go:172-190 | the loop ends with the team and every name resolved in order within the caller's scope, or with the first refusal: a name that was not there when the call came, or one out of scope |
| AgentHandler.Server.GrantEnvironments | controlplane/internal/api/agents.go:213-220 | the loop grants row by row and stops at a repeat; undisturbed it succeeds exactly when no environment is granted yet or repeated, and then adds exactly these rows |
| WorkerCredentials.VerifiesIffLatest | controlplane/internal/workercred/workercred.go:187-202 | a token verifies, as one credential only, exactly when it is the one last minted or rotated for a credential that is not revoked |
| WorkerCredentials.BootstrapsAgree | controlplane/internal/workercred/workercred.go:67-103 | all tokens handed out for one tenant and name are for one credential |
| WorkerCredentials.StepKeeps | controlplane/internal/workercred/workercred.go:126-166 | every statement keeps names unique, hashes latest and scopes within one tenant; identities never change, and grants never shrink |
| WorkerCredentials.GrantsAreAuthorised | controlplane/internal/api/workers.go:266-340 | whatever enters a credential's scope was granted by an autonomous caller of its tenant, within its delegated scope |
| WorkerCredentials.ArrivalAnswers | controlplane/internal/api/workers.go:46-63 | what each call is answered before any statement: forbidden exactly below the autonomous tier, a bad request exactly for a blank name or no environments |
| WorkerCredentials.RevokedNamesStayRefused | controlplane/internal/workercred/sqlcgen/workercred.sql.go:86-88 | a bootstrap that looks up the name of a revoked credential can only fail |
| WorkerCredentials.CredentialStore.ResolveWorkerEnvironments | controlplane/internal/api/workers.go:166-187 | all names resolved in order, or the first refusal and its kind |
| WorkerCredentials.CredentialStore.Grant | controlplane/internal/workercred/workercred.go:126-136 | adds the listed environments in order, up to the first that the foreign key refuses, and nothing when repeated; succeeds exactly when none is refused |
| WorkerCredentials.CredentialStore.Mint | controlplane/internal/workercred/workercred.go:140-166 | fails exactly for a missing tenant, a blank or a taken name, or an unknown environment, and otherwise adds one live credential with its grants; the credential stays when a grant is refused |
| WorkerCredentials.CredentialStore.Bootstrap | controlplane/internal/workercred/workercred.go:67-103 | mints on first use, rotates a live credential's token and nothing else later, and fails for a revoked name |
| WorkerCredentials.CredentialStore.Verify | controlplane/internal/workercred/workercred.go:187-202 | finds a live credential holding the token's hash, with its scope, exactly when there is one |
| SigningKey.CallersAgree | controlplane/internal/signingkey/signingkey.go:18-51 | every caller that returns a key returns the stored one, so all return the same, even when an insert commits and its answer is lost; without faults none fails |
| SigningKey.DoneWithinThree | controlplane/internal/signingkey/signingkey.go:23-51 | a caller is done after at most three statements of its own, however many others run |
| SigningKey.KeyTable.LoadOrCreate | controlplane/internal/signingkey/signingkey.go:23-51 | the function is that process under every interleaving, and returns the stored key unless a statement failed |
| Shell.QuoteRoundTrip | cli/internal/cmd/ci.go:201-206 | the shell reads the quoted form of any string as that one word |
| Shell.QuotedReads | cli/internal/cmd/ci.go:204-206 | wherever it stands outside quotes, a quoted string adds exactly its text to the word being read |
| Shell.EnvRoundTrip | cli/internal/cmd/ci.go:192-199 | the env output is exactly three export commands, each assigning its own credential |

## Left out

- HTTP, JSON and header handling, the CLI's command tree and the HTTP clients: no state of their own; the checks that guard a store call are kept.
- River, Postgres and pgx internals: a job is deliverable any number of times, although River stops after five attempts, a statement is atomic, and the skip-locked pick is an atomic choice of an oldest eligible row.
- Hashing and signatures: a token is its claims and cannot be forged; a hash is injective; generated tokens are fresh.
- GitHub, STS and OIDC discovery: their answers are inputs. The AWS configuration lookups before a mint may find anything.
- The single clock: all processes and the database read one monotone clock; `Sessions.RowOutlivesTokenIff` says how much a copied expiry may be off.
- Saturation of `time.Sub`, the rounding of an agent's `expires_at` to microseconds, and the moment between the clock read for it and the INSERT.
- The foreign key from a revocation to its actor: the session model has no actor rows, only the set of disabled ones.
- Deletion of pipelines, environments, actors and credentials: there is no such route.
- NUL characters and encodings in shell words: strings are sequences of characters, and the reader rejects unquoted characters that it does not interpret.
- The order of rollup rows with equal amounts, and the retrieval of single cost rows.
- The verification queue: it repeats the claim pattern with a weaker completion guard.
- Discovery of CI callback URLs, telemetry, secret redaction, log masking and the audit log's own queries.
- Setup and password login beyond the tokens that they issue.
- WorkerCredentials.RevokedNamesStayRefused: starts at the lookup; a bootstrap that looked the name up before the revocation may still rotate the token, which then never verifies.
