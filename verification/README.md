# The governed Plan Engine over the leased task queue

This project models the part of Shaka that decides what may run and remembers what did: a queue of leased
tasks, and plans whose every change is appended to a hash-chained log in the transaction that updates the
snapshot. It proves what the log, the snapshot, the leases and the counters promise over whole runs.

## How it is put together

- **Values and rules.** `PlanCore` (plans, states, approvals, digests), `TransitionLog` (rows, chain, reducer),
  `PlanVerification` and `PlanGraph` (the bounded verifier and the depth-first search, as the imperative loops
  they are, against declarative predicates).
- **Transactions.** `PlanTransactions` states each transaction on a plan and its task as a function from rows to
  rows or to an error; `QueueModel` does the same for the operations of the store and defines governed runs: any
  sequence of saving a draft, approving, submitting, claiming, finishing, cancelling, recovering expired leases,
  resolving, and the write phase of a resumption whose read phase looked at a plan that had not ended.
- **The engine as it writes.** `PlanStore.PlanTx` and `TaskQueue.QueueStore` are the classes that update rows in
  place, with the loops of the source; each method is proved against the transaction function of the same
  operation, error for error, and a failing operation leaves the store as it was. `QueueStore` keeps the history
  of its contents, so that a client using it through governed operations alone holds a governed run.
- **Laws.** `Journal` says what every logged event obeys, `LogLaws` what follows for whole logs,
  `PlanInvariants`, `PlanPreservation` and `PlanResolution` that every transaction keeps the rows and the joint
  state of plan and task, `GovernedRuns` and `RunLaws` that this holds in every store of every run. `Authority`,
  `Approvals`, `ResumeRuns`, `TaskFrames`, `LeaseFencing`, `DirectAttempts` and `Admission` are about who resolves,
  who approved, what racing resumers write, what moves, who may finish, how often, and how much is admitted.
- **Meaning.** What each transaction does, said of the rows alone and without its helper functions: `Conditions` and
  `RowConditions` (conditions, approvals, what may start), `ClaimMeaning`, `FinishMeaning`, `TaskMeaning` (direct
  tasks, cancellation, expiry), `ResolutionMeaning`, `Decisions` (saving, approving), `Inspection` (inspecting,
  resuming). `StepRuns`, `ResolutionRuns`, `Leases` and `Quotas` carry this to every run.
- **Progress.** `Schedule` is the order, `Scheduler` the rounds of one plan, `AdmittedPlans` how it gets there, and
  `LeastOrder` the same order over whole runs.
- **Limits.** `ResumeLimits`, `CancelKeys` and `Truncation` say exactly when a promise fails, and `Witnesses` reaches
  the failing rows by the engine's own transactions.
- **Around it.** `Permutation`, `CircuitBreaker`, `AuditText`, `AuditChain`, `AgentLoop`.

## Conventions

Identifiers are naturals: the source only compares and orders them. Instants are integers (milliseconds where a
calendar matters). SHA-256 is an injective constructor over what is hashed: the serialised fields of a plan or a log
row, and the joined text of an audit event. The formatted idempotency keys are injective constructors too; a caller
may pass any key, including one of the engine's own formats, and the two formats that coincide for the texts `cancel`
and `compensation` do so here. In the source others can coincide: a resolution under the key `claim:ready` writes
`claim:ready:step:1` for a step named `1`, which is the claim key of a step named `step` at its first attempt. The
source then refuses on the unique key, and so leaves unchanged, what the model lets through. The model has the more
runs, so the laws proved of all its runs hold of those of the source; only `CancelKeys.CancelSucceedsIff` and
`ResolutionMeaning.ResolutionMeans`, which say when a cancellation or a resolution goes through, take such
coincidences to be absent. Fresh lease tokens are drawn from a counter. A transaction is an atomic step that either
commits or has no effect, as under an IMMEDIATE SQLite transaction. Where the order of a query is not determined by
its ORDER BY clause, the operation takes any order the database may deliver.

## What the code does that its documentation does not say

- Resuming a plan that has ended but still holds a compensating step appends an event the transition table
  forbids, after which inspection reports the plan as diverged (`ResumeLimits.ResumeAgreesIff` gives the exact
  condition, `Witnesses.ResumeDiverges` such rows).
- Resuming an unknown plan with compensating steps reports a recovery but writes nothing. This is the only case in
  which a resumption leaves an active step (`PlanResolution.ResumeLeavesActiveIff`, `Witnesses.ResumeWritesNothing`).
- Keeping only a prefix of the violations never hides that a plan is blocked, but it can turn "invalid" into
  "requires approval": exactly when the unmet conditions of the target begin with as many missing approvals as the
  report retains and a later one is something else (`Truncation.TruncationSoftensStatus`, `Truncation.SoftenedPlan`).
- A direct task whose worker reports success with a retryable policy is queued again while attempts are left
  (`TaskMeaning.RunDirectFinish`); a planned step is retried only after a failure (`FinishMeaning.FinishMeans`).
- A resolution takes an ended task back into the queue without asking a quota, so a tenant may have one unfinished
  task above its limit for each resolution (`Quotas.RunActiveBound`). The daily limits hold for every day
  (`Quotas.RunDailyBound`).
- The pause a rate-limited caller is advised is cut to whole seconds, so that the window may not be over after it
  (`Quotas.RetryAfterIff`, `Quotas.RetryAfterTooShort`).
- Claims and finishes supply no artifacts, so a condition on an artifact's digest never holds there
  (`RowConditions.Met`).
- With a failure threshold of zero the circuit breaker behaves as with one (`CircuitBreaker.ThresholdMeaning`).
- The digest ignores the order of the steps only where identifiers are unique, as validation demands; among steps
  with one identifier the sort keeps their order (`Permutation.DigestIgnoresOrder`).
- An audit event is hashed from its fields joined by `|` without escaping, so two different events can have one hash
  (`AuditChain.SeparatorsCollide`). The last hash of a chain commits to its events exactly when no actor, action or
  outcome in it contains a `|` (`AuditChain.ChainCommitment`). The tenant, which the hash does not cover, is pinned by
  the chain check; the task identifier is not (`AuditChain.TasksAreNotCommitted`).
- A cancellation writes under fixed keys, one for the request, one for the completion and one for each waiting step,
  so each can be logged once per plan. After a resolution has put the plan back to Running a second cancellation of
  the running task fails on the request's key. A resumption under the key `cancel` takes the keys of the steps it
  readies, after which the queued task cannot be cancelled (`CancelKeys.CancelSucceedsIff`,
  `CancelKeys.ResumeTakesCancelKey`, `Witnesses.CancelBlocked`).

## Model

| member | source | states |
|---|---|---|
| GovernedRuns.StepKeeps | crates/shaka-queue/src/lib.rs:1302-1913 | every governed operation, from any store satisfying the invariant, leaves a store satisfying it; a failing one changes nothing |
| GovernedRuns.RunKeeps | crates/shaka-queue/src/lib.rs:1302-1913 | the store invariant holds in every store of every governed run |
| GovernedRuns.AlwaysStable | crates/shaka-queue/src/plan_store.rs:441-499 | in every store of every governed run each plan inspects as stable: linked hashes, sequences 1..n, snapshot equal to the replay from Draft and all-Pending, checkpoints 1..m |
| GovernedRuns.AlwaysJoint | crates/shaka-queue/src/plan_store.rs:1912-2658 | in every run: a leased planned task names a step that is running or unknown, no other step runs and none without a lease; the task has succeeded iff the plan has, and then every step has; a plan with cancellation requested has its task in that status; a compensated plan has no compensating step |
| RunLaws.RunDependencySafety | crates/shaka-queue/src/plan_store.rs:1959-1998 | in every run each start of a step is preceded in the log by a success of each of its dependencies, through retries, recovery, resumption and compensation |
| RunLaws.RunNoBlindRetry | crates/shaka-queue/src/plan_store.rs:1044-1282 | between a plan becoming unknown and the next start of any of its steps lies an event written by an Administrator's resolution of that plan, whose position in the run is returned |
| RunLaws.RunCompensation | crates/shaka-queue/src/plan_store.rs:2344-2446 | each Compensating to Compensated event of a source follows a success of its declared compensation step that is later than the source's last move to Compensating |
| RunLaws.RunOnlyCompensations | crates/shaka-queue/src/plan_store.rs:1950-1969 | while a plan compensates only declared compensations of compensating steps start |
| RunLaws.RunOneRecoveryPerResolution | crates/shaka-queue/src/plan_store.rs:1515-1577 | two quarantines of a plan have an Administrator's resolution between them, whatever expiries, cancelled steps and resumers raced |
| RunLaws.RunEndings | crates/shaka-core/src/lib.rs:484-540 | after a plan has ended no event moves it and no step of it starts |
| RunLaws.RunAttempts | crates/shaka-queue/src/plan_store.rs:2023-2062 | a step's attempt counter is at most its limit plus the resolutions that reset it; all starts of the plan together are at most the sum of those, and of the limits alone without resets |
| RunLaws.RunCommitment | crates/shaka-queue/src/plan_store.rs:262-290 | two histories of a plan, from any two runs, that end in the same hash are identical |
| StepRuns.RunStartsMeet | crates/shaka-queue/src/plan_store.rs:1959-1998 | in every run, at the claim that started a step the plan was within the limits, the step waited, its dependencies had succeeded, each precondition held of the rows and of the task, and its approval stood |
| StepRuns.RunCapabilities | crates/shaka-core/src/lib.rs:1244-1258 | in every run a step that needs a capability starts only in a task that holds it, and that task was submitted by an Administrator |
| StepRuns.RunFinish | crates/shaka-queue/src/plan_store.rs:2077-2343 | in every run a finish that writes a plan held the current token before the end of the lease; unless the task was cancelled the step succeeds iff no failure was reported and every declared postcondition holds, with the whole effect on plan, log, checkpoints and task; a cancelled one ends cancelled and unknown |
| StepRuns.RunSuccessWasReported | crates/shaka-queue/src/plan_store.rs:2141-2188 | in every run each logged success of a step was written by a finish that reported no failure, under the current lease for this step, with every postcondition holding |
| Approvals.RunStartsAreApproved | crates/shaka-queue/src/plan_store.rs:1937-1949 | in every run each start of a step of a plan that requires approval was written by a claim, and an earlier operation of the run gave an approval of this plan: its principal may approve plans, is not the plan's operator and has a sufficient role, and the approval is unrevoked and unexpired at that claim |
| Approvals.StartedByClaim | crates/shaka-queue/src/plan_store.rs:1999-2062 | only a claim starts a step: the operation that wrote a given start is found in the run |
| RunLaws.ClaimsAreApproved | crates/shaka-queue/src/plan_store.rs:1937-1949 | a claim of a step of a plan that requires approval finds an unexpired, unrevoked approval of this plan by somebody other than its operator in a sufficient role |
| Authority.ApprovalsAreGiven | crates/shaka-queue/src/plan_store.rs:901-990 | every stored approval was given by an earlier approval operation of the run, by the principal and in the role it names, who may approve plans |
| Authority.AppendOnly | crates/shaka-queue/src/plan_store.rs:2743-2960 | in every run a saved plan stays, keeps its specification, and its log only grows |
| Authority.OnlyAdministratorsResolve | crates/shaka-queue/src/plan_store.rs:1044-1046 | every logged event that leaves an unknown state was written by an Administrator's resolution of that plan, found in the run |
| LogLaws.DependencySafety | crates/shaka-queue/src/plan_store.rs:1991-1998 | in a lawful log a start of a step is preceded by a success of each dependency |
| LogLaws.NoBlindRetry | crates/shaka-queue/src/plan_store.rs:1928-1933 | in a lawful log no step starts after an Unknown event before a move to Running or Compensating |
| LogLaws.OneRecoveryPerResolution | crates/shaka-queue/src/plan_store.rs:1506-1541 | two Unknown events have a resolution between them |
| LogLaws.CompensationOrder | crates/shaka-queue/src/plan_store.rs:2344-2386 | last move to Compensating, then success of the declared target, then Compensated, with nothing else touching the source |
| LogLaws.OnlyCompensationsStart | crates/shaka-queue/src/plan_store.rs:1950-1969 | a step that starts while the plan compensates is the declared compensation of a compensating step |
| LogLaws.PlanEndings | crates/shaka-queue/src/plan_store.rs:2184-2240 | the plan succeeds only with all steps succeeded and is compensated only with none compensating |
| LogLaws.NothingStartsAfterTheEnd | crates/shaka-core/src/lib.rs:484-540 | no start and no plan event follows a terminal plan event |
| LogLaws.AttemptBound | crates/shaka-queue/src/plan_store.rs:2283-2313 | starts of a step never exceed its limit plus its resets, and one is left while the step may still start |
| LogLaws.AttemptsWithoutResolution | crates/shaka-queue/src/plan_store.rs:2283-2313 | without a reset a step starts at most its limit of times |
| LogLaws.ClaimsBounded | crates/shaka-queue/src/plan_store.rs:2023-2062 | starts of all steps together never exceed the sum of limits and resets |
| Journal.AppendPlanKeeps | crates/shaka-queue/src/plan_store.rs:2743-2769 | a plan append keeps chain, columns, replay and laws, moves exactly the plan's state and adds exactly one row with the given key |
| Journal.AppendStepKeeps | crates/shaka-queue/src/plan_store.rs:2771-2798 | a step append does the same for exactly one step |
| Journal.MoveAllKeeps | crates/shaka-queue/src/plan_store.rs:2480-2504 | a loop of step appends keeps the journal and moves exactly the listed steps |
| TransitionLog.ChainCommitment | crates/shaka-queue/src/plan_store.rs:262-290 | two valid chains with equal last hash are equal |
| TransitionLog.HashesDistinct | crates/shaka-queue/src/plan_store.rs:262-279 | no two rows of a chain share an event hash |
| PlanInvariants.FoldIsReplay | crates/shaka-queue/src/plan_store.rs:460-478 | the replay loop succeeds iff the chain is valid and every event applies, and then computes the fold of the log |
| PlanInvariants.InspectStable | crates/shaka-queue/src/plan_store.rs:441-499 | a plan whose rows agree inspects without an issue |
| PlanInvariants.SelectedStep | crates/shaka-queue/src/plan_store.rs:1970-1998 | the claim takes the claimable step with the least identifier |
| PlanInvariants.AdmitKeeps | crates/shaka-queue/src/plan_store.rs:1845-1911 | admission takes a plan without a task to Approved and keeps log, snapshot, checkpoints and attempts in agreement |
| PlanInvariants.ApproveKeeps | crates/shaka-queue/src/plan_store.rs:883-1033 | an approval or rejection keeps rows and joint state; only a draft plan changes state, a rejection leaves it Rejected and an approval of the whole plan Approved, and a repetition changes nothing |
| PlanInvariants.ClaimKeeps | crates/shaka-queue/src/plan_store.rs:1912-2076 | a claim keeps rows and joint state: the claimed step runs under the new lease |
| PlanPreservation.FinishKeeps | crates/shaka-queue/src/plan_store.rs:2077-2343 | every way of finishing a step keeps rows and joint state |
| PlanPreservation.CompensateSourcesKeeps | crates/shaka-queue/src/plan_store.rs:2352-2400 | completing a compensation moves to Compensated exactly the steps under compensation that declare the target, and no other step |
| PlanPreservation.CancelKeeps | crates/shaka-queue/src/plan_store.rs:2448-2530 | cancelling a planned task keeps rows and joint state |
| CancelKeys.CancelSucceedsIff | crates/shaka-queue/src/plan_store.rs:2448-2530 | for all rows: cancelling a planned task goes through iff its plan loads, is neither unknown nor compensating, and every fixed key it needs is free: for a queued task those of the request, of the completion and of each waiting step, for a running one that of the request; then exactly the waiting steps and the plan are cancelled, otherwise the key is refused |
| CancelKeys.ResumeTakesCancelKey | crates/shaka-queue/src/plan_store.rs:1105-1122 | a resumption under the key "cancel" writes the cancellation key of each step it readies, so the queued task of the plan cannot be cancelled while such a step waits |
| Witnesses.CancelBlocked | crates/shaka-queue/src/plan_store.rs:2459-2528 | governed rows of a running plan with a queued task, the request key free, whose cancellation fails |
| PlanPreservation.MarkUnknownKeeps | crates/shaka-queue/src/plan_store.rs:2566-2658 | on governed states the quarantine is always logged and moves only the plan and the leased step |
| PlanPreservation.RecoverExpiredKeeps | crates/shaka-queue/src/plan_store.rs:2531-2565 | recovering an expired planned lease keeps rows and joint state |
| FinishMeaning.FinishMeans | crates/shaka-queue/src/plan_store.rs:2141-2343 | on governed rows and an uncancelled task, a finish that goes through logs Running to Succeeded of the leased step iff no failure was reported and the plan is within the limits with every postcondition holding, else Running to Failed; it then retries iff the plan runs, the policy allows it and starts are left, after base * 2^min(starts-1, 10) capped; else plan and task fail, or become unknown while compensating; the last success ends plan and task; a finished compensation compensates exactly the waiting sources and ends the plan iff none is left |
| FinishMeaning.CancelledFinishMeans | crates/shaka-queue/src/plan_store.rs:2116-2140 | whatever is reported, a cancelled task ends cancelled, its plan and leased step unknown, with one checkpoint |
| TaskMeaning.CancellationMeans | crates/shaka-queue/src/lib.rs:1600-1640 | an ended task stays as it is; a waiting one ends at once and a leased one is told to stop and keeps its lease; a planned one iff its plan allows it, whose waiting steps and state move exactly so |
| TaskMeaning.RunExpiry | crates/shaka-queue/src/lib.rs:1879-1913 | in every run each task a recovery lists had a lease that is over: a direct one is queued again or ended cancelled, a planned one has failed or ended cancelled and its plan and leased step are unknown |
| TaskMeaning.RunDirectFinish | crates/shaka-queue/src/lib.rs:1805-1870 | in every run a finish that changes a direct task held its lease; the task ends cancelled if that was requested, waits again after the backoff if retryable with attempts left, reported failure or not, and else ends as reported, with the result |
| TaskMeaning.OtherFinishes | crates/shaka-queue/src/lib.rs:1802-1818 | a finish for another tenant, of an ended task or without the current lease is answered so and changes nothing |
| PlanResolution.ResolveKeeps | crates/shaka-queue/src/plan_store.rs:1036-1282 | a resolution keeps rows and joint state |
| PlanResolution.ResolveWrites | crates/shaka-queue/src/plan_store.rs:1044-1117 | a resolution that writes was an Administrator's, on an unknown plan with its task present, and writes exactly the decision, whose meaning ResolutionMeans gives, the task row and one checkpoint |
| ResolutionMeaning.ResolutionMeans | crates/shaka-queue/src/plan_store.rs:1044-1282 | under a fresh key on an unknown governed plan a resolution goes through iff an Administrator of the tenant decides on proper evidence and the rows allow it: resuming readies exactly the unknown steps; compensating needs a step with a declared compensation that is Succeeded, Failed, Unknown or Compensating, makes exactly those Compensating, readies exactly their declared targets that were Unknown or Failed and are none of them; cancelling needs every effect closed |
| ResolutionMeaning.RepetitionMeans | crates/shaka-queue/src/plan_store.rs:1073-1098 | a key the log has repeats the resolution that led to the same state and is refused otherwise; nothing changes |
| ResolutionRuns.RunResolution | crates/shaka-queue/src/plan_store.rs:1044-1282 | in every run a resolution that changes anything was an Administrator's, on an unknown plan with its task, and did exactly what its decision says |
| PlanResolution.ResumeReadGoverned | crates/shaka-queue/src/plan_store.rs:1316-1398 | on a plan that has not ended the read phase never finds an inconsistency |
| PlanResolution.ResumeWriteKeeps | crates/shaka-queue/src/plan_store.rs:1506-1590 | whatever happened between the phases, the write phase keeps log and snapshot in agreement |
| PlanResolution.ResumeIdempotent | crates/shaka-queue/src/plan_store.rs:1311-1409 | from any rows, corrupt ones included, resuming twice equals resuming once, and the plan is not left Running, CancelRequested or Compensating |
| Inspection.InspectionMeans | crates/shaka-queue/src/plan_store.rs:441-499 | for any rows: no issue iff every row is linked, the events have a history of allowed moves from the draft that ends in the snapshot, and the checkpoints are numbered; a broken chain iff the first bad row is not linked; bad checkpoints iff all else agrees |
| Inspection.ResumptionMeans | crates/shaka-queue/src/plan_store.rs:1311-1409 | for any rows: a resumption quarantines rows with an issue without a log row, leaves settled ones alone, and else makes the plan and exactly its open steps unknown, the plan's move logged first |
| PlanResolution.ResumeLeavesActiveIff | crates/shaka-queue/src/plan_store.rs:1506-1590 | from any rows, a resumption that goes through leaves an active step iff the plan was unknown, inspected as stable and held one; then it writes nothing |
| Witnesses.ResumeWritesNothing | crates/shaka-queue/src/plan_store.rs:1506-1522 | governed rows of an unknown plan with a compensating step, whose resumption goes through without a write |
| ResumeRuns.RunResumeWritesFresh | crates/shaka-queue/src/plan_store.rs:1533-1577 | in every run a resume write changes the store only when its view is exactly what a read at that moment returns; it then makes the plan and its active steps unknown and touches nothing else |
| ResumeRuns.RunResumesOnce | crates/shaka-queue/src/plan_store.rs:1515-1541 | in every run, once a resumer has written a plan, every later resume write of it changes nothing, whatever was read, until an Administrator resolves the plan |
| ResumeLimits.ResumeAgreesIff | crates/shaka-queue/src/plan_store.rs:1613-1660 | resuming a consistent plan leaves it consistent iff the plan has not ended or holds no active step, since the recovery rows are not checked against the transition table |
| Witnesses.EndedWithActiveStep | crates/shaka-queue/src/plan_store.rs:1036-1282 | governed rows that end cancelled with a compensating step, reached by claim, expiry, compensation, expiry, resumption and cancellation |
| Witnesses.ResumeDiverges | crates/shaka-queue/src/plan_store.rs:1613-1660 | resuming those rows goes through and leaves them diverged |
| LeaseFencing.FinishFenced | crates/shaka-queue/src/lib.rs:1805-1822 | a finish that writes carries the current token, strictly before the lease end, and kills that token; any other finish leaves the store unchanged |
| LeaseFencing.OneFinishPerToken | crates/shaka-queue/src/lib.rs:1805-1874 | in every run each token commits at most one finish |
| LeaseFencing.DeadForever | crates/shaka-queue/src/lib.rs:1570-1594 | a token no task holds any more is never held again |
| LeaseFencing.HeldWhileLeased | crates/shaka-queue/src/lib.rs:1570-1594 | a token is held iff the task is running or has cancellation requested, and by one task only |
| LeaseFencing.DirectTasksStayFinished | crates/shaka-queue/src/lib.rs:1805-1810 | a finished direct task never changes again |
| LeaseFencing.RetryDelayExact | crates/shaka-queue/src/lib.rs:1833-1842 | for non-negative base and cap the delay is exactly min(base * 2^min(attempts-1, 10), cap) despite saturation |
| ClaimMeaning.ClaimMeans | crates/shaka-queue/src/lib.rs:1521-1594 | a claim takes an eligible task before which, by priority and age, only tasks without work come, leases it for exactly the time asked for under a fresh token, counts its attempt and, for a plan, starts the least step that may start; without a result nothing changes |
| Leases.RunLease | crates/shaka-queue/src/lib.rs:1545-1580 | in every run, while no operation touched a claimed task: before now + leaseFor a finish is refused as LeaseLost iff its token is another one and no recovery may list the task, and from then on every finish is refused and every recovery that is not full lists it |
| Leases.RunLeaseIsExclusive | crates/shaka-queue/src/lib.rs:1521-1913 | in every run, from a claim until the end of its lease only the holder's finish, a cancellation or a resolution of its plan touches the task |
| DirectAttempts.DirectAttemptBound | crates/shaka-queue/src/lib.rs:1833-1909 | a direct task is claimed at most its limit of times plus once per recovered lease |
| TaskFrames.StepFramed | crates/shaka-queue/src/lib.rs:1302-1913 | a governed step changes task rows only as tokens, attempts and identities allow, and only a submission adds tasks or counters |
| Admission.AlwaysCounted | crates/shaka-queue/src/lib.rs:1382-1409 | in every run each window counter equals the number of tasks created in its window and never exceeds a tenant's limit, and idempotency keys are unique per tenant |
| Admission.RunReplay | crates/shaka-queue/src/lib.rs:1347-1371 | in every run, once a tenant's key was accepted every later submission under it leaves the store alone; it is answered, with the first task, iff it passes the request checks and has the same fingerprint and plan |
| Admission.OneTaskPerKey | crates/shaka-queue/src/lib.rs:1347-1371 | over a whole run a tenant's idempotency key names one task |
| Admission.IntervalBound | crates/shaka-queue/src/lib.rs:2154-2159 | any interval as long as a window sees at most twice the limit of a tenant's tasks |
| Admission.TwoWindows | crates/shaka-queue/src/lib.rs:2154-2159 | an interval of window length meets at most two windows |
| Quotas.RunQuotas | crates/shaka-queue/src/lib.rs:1424-1463 | in every run, whenever a task appears, a submission put it there while the tenant's unfinished tasks were fewer than max_active_tasks, its tasks since the start of the day fewer than max_daily_tasks, and the day's budgets with the new one at most max_daily_cost |
| Quotas.DirectSubmissionMeans | crates/shaka-queue/src/lib.rs:1302-1496 | under a fresh key a direct submission is refused with QuotaExceeded iff it is acceptable, no window is full and one of the three quotas fails, and goes through iff none does and its identifier is free |
| Quotas.RunDailyBound | crates/shaka-queue/src/lib.rs:1433-1463 | in every run and for every day a tenant's tasks of that day are at most max_daily_tasks and their budgets add up, in 64 bits, to at most max_daily_cost |
| Quotas.RunActiveBound | crates/shaka-queue/src/lib.rs:1424-1432 | in every run a tenant's unfinished tasks are at most max_active_tasks plus the resolutions so far, which ask no quota |
| Quotas.TaskOrigin | crates/shaka-queue/src/lib.rs:1464-1496 | every task of a run was added by one earlier submission and keeps what it asked for, with all capabilities for an Administrator and none for others |
| Quotas.RetryAfterIff | crates/shaka-queue/src/lib.rs:1387-1395 | after the advised pause the window is over iff the time left was a whole number of seconds or less than one |
| Quotas.RetryAfterTooShort | crates/shaka-queue/src/lib.rs:1387-1395 | half a second into a window of two seconds the advised pause ends within it |
| Schedule.SomeStepReady | crates/shaka-core/src/lib.rs:1135-1176 | an unfinished acyclic plan always has a step whose dependencies are done |
| Schedule.GreedyIsLeastTopological | crates/shaka-queue/src/plan_store.rs:1959-1998 | taking the least ready step each time yields a topological order, lexicographically least among all |
| Scheduler.ClaimableAreReady | crates/shaka-queue/src/plan_store.rs:1959-1998 | without conditions and approvals the claimable steps are exactly those ready in the dependency order |
| Scheduler.RunsToSuccess | crates/shaka-queue/src/plan_store.rs:1912-2240 | from any point between two rounds the plan never stalls and ends succeeded after one claim per remaining step, in the greedy order |
| AdmittedPlans.AdmittedIff | crates/shaka-queue/src/plan_store.rs:1807-1911 | any governed plan without a task is admitted iff it is not rejected, reference, tenant, operator and task match, it is a dry run within the limits, and an approval stands if it needs one; then exactly the events of the admission and one checkpoint are added |
| Decisions.DecisionMeans | crates/shaka-queue/src/plan_store.rs:883-1033 | a decision about a governed plan goes through iff a Reviewer or Administrator of the tenant decides in his own name about exactly this plan and scope, in time, with the level the scope needs and his role allows, not approving his own plan, and the plan is a draft or the scope one step; a repeated key answers the first decision under it or conflicts; exactly the decision, its events and one checkpoint are added |
| Decisions.SavingMeans | crates/shaka-core/src/lib.rs:898-918 | saving goes through iff budget and structure are valid and the identifier is free or holds the same content of the same tenant; a new plan is a first revision nothing has happened to |
| AdmittedPlans.AdmittedPlanRunsToSuccess | crates/shaka-queue/src/plan_store.rs:1845-2240 | any governed plan without conditions or required approval, once admitted and if all its steps succeed, ends succeeded after exactly one claim per step, in the least topological order, with the last result |
| LeastOrder.StartsAreGreedy | crates/shaka-queue/src/plan_store.rs:1959-1998 | in a lawful log without failure, cancellation or quarantine, steps without preconditions or approvals start along the greedy order |
| LeastOrder.RunFollowsLeastOrder | crates/shaka-queue/src/plan_store.rs:1959-1998 | in every run, through the store's own claims and leases, such a plan has started a prefix of its lexicographically least topological order, and all of it once it has succeeded |
| PlanGraph.EnsureAcyclic | crates/shaka-core/src/lib.rs:1135-1176 | accepts iff the graph has no cycle and every dependency is a step |
| PlanGraph.DepthFirstSearch.Visit | crates/shaka-core/src/lib.rs:1136-1157 | terminates; marks a step visited only after its dependencies; refuses only when there is a cycle or an unknown dependency |
| PlanGraph.RevisitIsCycle | crates/shaka-core/src/lib.rs:1145-1147 | meeting a step that is still being visited exhibits a cycle |
| PlanGraph.OrderedIsAcyclic | crates/shaka-core/src/lib.rs:1150-1157 | a dependencies-first order of all steps excludes every cycle |
| PlanVerification.ValidateStructure | crates/shaka-core/src/lib.rs:921-984 | accepts iff the declarative structure holds |
| PlanVerification.Verify | crates/shaka-core/src/plan_verifier.rs:187-338 | the report is the retained prefix of all violations, its status is that of the prefix, and it is valid iff the plan is executable, for every retention limit, which ValidMeans spells out |
| PlanVerification.ExecutableIffNothingRetained | crates/shaka-core/src/plan_verifier.rs:610-622 | truncation never hides the only barrier, zero retention included |
| PlanVerification.ExecutableMonotone | crates/shaka-core/src/plan_verifier.rs:487-637 | executability is monotone in succeeded steps, capabilities, approvals, remaining budget and a closed circuit |
| Conditions.ValidMeans | crates/shaka-core/src/plan_verifier.rs:187-338 | for every limit, plan and context the status is Valid iff the plan is well-formed and, said of the context's own fields, the dependencies have succeeded, each condition of the phase holds and the approvals that plan or step need stand |
| Conditions.EvaluationMeans | crates/shaka-core/src/plan_verifier.rs:487-608 | a condition is satisfied iff what it says holds of the context's field: capability granted, circuit closed, each budget component enough, step succeeded, task state, artifact and state digest equal, key unused, approval standing; missing iff the context lacks the field |
| Conditions.ViolationsMean | crates/shaka-core/src/plan_verifier.rs:445-485 | exactly the conditions that do not hold are reported, with position and code |
| Conditions.GrantMeans | crates/shaka-core/src/lib.rs:1065-1115 | an approval is valid iff it stands for this plan, revision, tenant and scope, is by somebody other than the operator, and claims a level that its role allows and the scope needs |
| Conditions.PlanDemand | crates/shaka-core/src/lib.rs:1013-1021 | the plan needs an Administrator, or somebody, iff its own level, its risk or any step's level or risk says so |
| RowConditions.ClaimableMeans | crates/shaka-queue/src/plan_store.rs:1959-1998 | a step may be claimed iff it waits, a compensating plan wants it, its dependencies have succeeded, its preconditions hold of the rows and its approval stands |
| RowConditions.PrepareClaimMeans | crates/shaka-queue/src/plan_store.rs:1912-2076 | a claim on a plan finds no work iff no step may start, and else starts the least one with one checkpoint |
| Truncation.TruncationSoftensStatus | crates/shaka-core/src/plan_verifier.rs:610-622 | for all limits, plans and contexts: the status of the truncated report differs from that of all violations iff the plan is well-formed, no dependency of the target is missing, and the unmet conditions begin with as many missing approvals as are retained while a later one is none; it then reads "requires approval" where the plan is invalid |
| Truncation.SoftenedPlan | crates/shaka-core/src/plan_verifier.rs:445-485 | a plan of one step with an approval and a circuit condition, and a context, for which it differs |
| PlanVerification.Report.Push | crates/shaka-core/src/plan_verifier.rs:610-615 | keeps exactly the first violations up to the limit |
| PlanVerification.Report.VerifyStepShape | crates/shaka-core/src/plan_verifier.rs:340-400 | pushes the shape violations of one step in order |
| PlanVerification.Report.VerifyDependencies | crates/shaka-core/src/plan_verifier.rs:424-443 | pushes one violation per dependency that has not succeeded |
| PlanVerification.Report.VerifyConditions | crates/shaka-core/src/plan_verifier.rs:445-485 | pushes, in order, the violations that ViolationsMean describes: one per condition that does not hold, with its code and index |
| PlanVerification.Report.VerifyPhase | crates/shaka-core/src/plan_verifier.rs:262-330 | pushes the violations of the requested phase |
| Permutation.DigestIgnoresOrder | crates/shaka-core/src/lib.rs:986-997 | no reordering of the steps changes the digest iff steps that share an identifier are equal |
| Permutation.DigestCommits | crates/shaka-core/src/lib.rs:986-997 | equal digests imply equal plans up to step order, digest field, state and creation time |
| Permutation.ValidityIgnoresOrder | crates/shaka-core/src/lib.rs:921-984 | reordering the steps does not change structural validity |
| Permutation.ExecutabilityIgnoresOrder | crates/shaka-core/src/plan_verifier.rs:187-338 | reordering the steps does not change executability |
| Permutation.SelectionIgnoresOrder | crates/shaka-queue/src/plan_store.rs:1959-1998 | reordering the steps does not change the step a claim selects |
| CircuitBreaker.Breaker.Allow | crates/shaka-queue/src/lib.rs:2027-2043 | lets a call through iff the history of outcomes and questions says so |
| CircuitBreaker.Breaker.RecordSuccess | crates/shaka-queue/src/lib.rs:2046-2053 | keeps the snapshot the one the history determines |
| CircuitBreaker.Breaker.RecordFailure | crates/shaka-queue/src/lib.rs:2056-2068 | keeps the snapshot the one the history determines, with saturating count |
| CircuitBreaker.OneProbeBetweenOutcomes | crates/shaka-queue/src/lib.rs:2027-2043 | while not closed, at most one call passes between two recorded outcomes |
| CircuitBreaker.ProbeWaitsForThePause | crates/shaka-queue/src/lib.rs:2056-2068 | a call that passes a circuit that is not closed comes no earlier than the last failure plus the pause |
| CircuitBreaker.ThresholdMeaning | crates/shaka-queue/src/lib.rs:2056-2068 | closed iff failures since the last success are below the threshold, for all histories, iff the threshold is at least one |
| AuditChain.AuditLog.Append | crates/shaka-memory/src/lib.rs:478-503 | chains an event to its tenant's last row, and refuses a reused identifier without a write |
| AuditChain.AuditLog.Verify | crates/shaka-memory/src/lib.rs:506-543 | valid iff every link of the tenant's chain holds; otherwise it names the first broken one |
| AuditChain.EveryTenantVerifies | crates/shaka-memory/src/lib.rs:478-543 | under any interleaving of appends each tenant's chain is valid and holds exactly its own events in order |
| AuditChain.ChainCommitment | crates/shaka-core/src/lib.rs:1360-1387 | the last hash of a valid chain fixes the events of every valid chain that ends in it, up to task identifiers, iff no actor, action or outcome in it contains the separator that the hashed text joins its fields with |
| AuditChain.SeparatorsCollide | crates/shaka-core/src/lib.rs:1360-1387 | two different events with one hash, each a chain that verifies |
| AuditChain.TasksAreNotCommitted | crates/shaka-core/src/lib.rs:1360-1387 | replacing any row's task identifier keeps the chain valid and its last hash |
| AuditText.SplitHead | crates/shaka-core/src/lib.rs:1364-1375 | identifier, instant, actor, action, outcome and metadata are recovered from the joined text when actor, action and outcome of one side hold no separator, whatever the other side holds |
| AuditText.NoInnerMetadata | crates/shaka-core/src/lib.rs:1364-1375 | no printed metadata ends in a separator followed by printed metadata, so metadata is found from the right |
| AgentLoop.AgentRuntime.Run | crates/shaka-orchestrator/src/lib.rs:628-792 | whatever the model answers: at most max_steps model calls, at most max_tool_calls tools run, exactly the permitted ones in the order proposed, none of a batch over budget; a result is a success iff its call came back in time and ran well or was simulated; nothing happens after the first observation of a cancellation or the deadline, and each outcome says what was observed |
| AgentLoop.AgentRuntime.CallTool | crates/shaka-orchestrator/src/lib.rs:711-762 | one proposed call: ends the run only on an observed cancellation or deadline, runs only when permitted, and else leaves one result that tells whether it succeeded |
| AgentLoop.GateExecutes | crates/shaka-orchestrator/src/lib.rs:386-445 | a tool runs for real iff it is registered, in scope, covered by capabilities, given valid input and read-only in a dry run |
| PlanStore.PlanTx.AppendPlan | crates/shaka-queue/src/plan_store.rs:2743-2769 | checked plan append with unique idempotency key, or the error |
| PlanStore.PlanTx.AppendStep | crates/shaka-queue/src/plan_store.rs:2771-2798 | checked step append with unique idempotency key, or the error |
| PlanStore.PlanTx.LoadPlan | crates/shaka-queue/src/plan_store.rs:2660-2703 | loads iff reference, tenant, structure and digest agree |
| PlanStore.PlanTx.Admit | crates/shaka-queue/src/plan_store.rs:1807-1911 | checks reference, owner, mode, state and preflight, and leaves exactly the rows of the admission that AdmitKeeps and AdmittedIff speak of, or gives its error |
| PlanStore.PlanTx.Approve | crates/shaka-queue/src/plan_store.rs:883-1033 | same outcome, error and rows as the approval that ApproveKeeps speaks of: duties separated, idempotent by key, plan moved by the decision |
| PlanStore.PlanTx.SelectStep | crates/shaka-queue/src/plan_store.rs:1959-1998 | the loop over sorted candidates finds the claimable step with the least identifier, or none |
| PlanStore.PlanTx.PrepareClaim | crates/shaka-queue/src/plan_store.rs:1912-2076 | claims exactly the step, and leaves exactly the rows, that ClaimKeeps, ClaimsAreApproved and the scheduling theorems speak of; without work the rows are untouched |
| PlanStore.PlanTx.Finish | crates/shaka-queue/src/plan_store.rs:2077-2343 | outcome, task row and plan rows of the finish that FinishMeans and CancelledFinishMeans describe, or its error |
| PlanStore.PlanTx.CompleteCompensation | crates/shaka-queue/src/plan_store.rs:2344-2446 | compensates every waiting source of the finished target, and ends the plan compensated iff no source is left |
| PlanStore.PlanTx.CancelTask | crates/shaka-queue/src/plan_store.rs:2448-2530 | cancels waiting steps and the plan of a queued task, only requests it for a running one, and refuses unknown and compensating plans |
| PlanStore.PlanTx.MarkUnknown | crates/shaka-queue/src/plan_store.rs:2566-2658 | plan and step become unknown, logged where the transition table allows it and unlogged where not, with one checkpoint |
| PlanStore.PlanTx.RecoverExpired | crates/shaka-queue/src/plan_store.rs:2531-2565 | quarantines the plan and its leased step and ends the task failed, or cancelled if that was requested |
| PlanStore.PlanTx.Resolve | crates/shaka-queue/src/plan_store.rs:1036-1282 | outcome, task row and plan rows of the resolution that ResolutionMeans and RepetitionMeans describe, or its error |
| PlanStore.PlanTx.Replay | crates/shaka-queue/src/plan_store.rs:453-478 | the replay loop over running state, steps, previous hash and expected sequence computes the fold or the first issue |
| PlanStore.PlanTx.Inspect | crates/shaka-queue/src/plan_store.rs:441-499 | reports the first problem of chain, reducer, snapshot or checkpoints |
| PlanStore.PlanTx.ResumeRead | crates/shaka-queue/src/plan_store.rs:1311-1398 | classifies the plan and collects its active steps |
| PlanStore.PlanTx.InsertRecovery | crates/shaka-queue/src/plan_store.rs:1613-1660 | the recovery rows: the plan first, then each active step in identifier order |
| PlanStore.PlanTx.RecoverUnknown | crates/shaka-queue/src/plan_store.rs:1506-1577 | nothing on an unknown plan, an error on a stale view, else recovery rows, snapshot and one checkpoint |
| PlanStore.PlanTx.ForceUnknown | crates/shaka-queue/src/plan_store.rs:1662-1716 | quarantines the snapshot of an inconsistent plan, with a recovery checkpoint unless there is one |
| TaskQueue.QueueStore.SavePlan | crates/shaka-queue/src/plan_store.rs:553-646 | saves a new first revision, accepts a repetition, refuses another digest; a failure changes nothing |
| TaskQueue.QueueStore.ApprovePlan | crates/shaka-queue/src/plan_store.rs:883-1033 | the approval step of a run; a failure changes nothing |
| TaskQueue.QueueStore.Submit | crates/shaka-queue/src/lib.rs:1302-1496 | governed submission, of which RunReplay, RunQuotas, DirectSubmissionMeans and AdmittedIff speak; counters roll back on failure |
| TaskQueue.QueueStore.DailyCost | crates/shaka-queue/src/lib.rs:1446-1458 | the saturating sum of the budgets of the tenant's tasks since the start of the day |
| TaskQueue.QueueStore.ClaimNext | crates/shaka-queue/src/lib.rs:1521-1594 | the claim that ClaimMeans describes; a task it returns runs under the next token until exactly now + leaseFor |
| TaskQueue.QueueStore.FinishTask | crates/shaka-queue/src/lib.rs:1792-1874 | the fenced finish that FinishMeans, DirectFinishMeans and OtherFinishes describe |
| TaskQueue.QueueStore.FinishDirectTask | crates/shaka-queue/src/lib.rs:1821-1870 | the three ways a direct task leaves its lease, as RunDirectFinish describes them |
| TaskQueue.QueueStore.RequestCancel | crates/shaka-queue/src/lib.rs:1600-1640 | idempotent cancellation of a direct or planned task |
| TaskQueue.QueueStore.RecoverExpiredLeases | crates/shaka-queue/src/lib.rs:1879-1913 | recovers every listed task or, on failure, none |
| TaskQueue.QueueStore.ResolvePlanUnknown | crates/shaka-queue/src/plan_store.rs:1036-1282 | the resolution that RunResolution describes; a failure changes nothing |
| TaskQueue.QueueStore.InspectPlan | crates/shaka-queue/src/plan_store.rs:441-499 | reports what inspection finds, and no issue on an object that only governed operations have touched |
| TaskQueue.QueueStore.ReadForResume | crates/shaka-queue/src/plan_store.rs:1311-1398 | the read phase, which finds a governed view on a governed plan that has not ended |
| TaskQueue.QueueStore.WriteForResume | crates/shaka-queue/src/plan_store.rs:1506-1716 | the write phase with a possibly stale view |
| TaskQueue.QueueStore.ResumePlan | crates/shaka-queue/src/plan_store.rs:1311-1409 | both phases: the plan is not left live and resuming again changes nothing |

## Left out

- Revisions above the first: `PlanSpec::new` always builds revision 1, and a plan identifier names one plan here.
- The library entry points `record_plan_transition`, `append_plan_checkpoint`, `save_plan_approval` and
  `mark_plan_unknown`, which neither the API, the workers nor the CLI call: they are not governed steps. The unlogged
  branch of the quarantine is in `PlanTx.MarkUnknown`; governed runs never take it (`PlanPreservation.MarkUnknownKeeps`).
- Columns that decide nothing: `transition_id`, `last_error`, `updated_at`, `session_id` on the task row, request
  provenance and the admission approval identifier, and the `plan_compensations` table.
- The order of the recovery query (`updated_at`) and ties of the claim query: any order is allowed.
- Blankness and length of caller-supplied keys for approvals and resolutions (they are validated before anything is
  looked up); those of submissions are modelled.
- Format checks of step and artifact identifiers where identifiers are naturals.
- Errors are classified, not worded; a missing row surfaces as not-found where SQLite reports a storage error.
- The failure of a write to disk, the SQLite quota and pragmas, schema migration, backup and restore.
- JSON and timestamp text, HTTP routing, bearer tokens, tenants and users, telemetry, CLI, Wasmtime, skills,
  redaction, configuration.
- Changes of tenant limits or sessions during a run.
- The circuit breaker's persistence: the snapshot in memory is the one saved.
- The agent loop's audit and episode records, redaction and truncation of answers; the JSON schema validator's
  verdict is part of each proposed call.
- The scheduler's progress theorems are about one plan's claims and finishes; that the queue offers the plan's task to a
  worker at all depends on the other tasks' priorities.
- AuditChain.ChainCommitment: does not determine task identifiers, because the hash does not cover them; it is the exact
  condition for all the other fields.
- Debug escapes of unprintable characters (`\u{..}`) in audit metadata: such characters are printed as they are, beside
  the escapes of quotes, backslashes, tabs, line breaks and zero that are modelled.
