/** The transactions of the plan engine on one plan and the task bound to it
    (crates/shaka-queue/src/plan_store.rs). A transaction that fails yields `Err` and no new state:
    the source runs each of them under an IMMEDIATE SQLite transaction. */
module PlanTransactions {
  import opened Base
  import opened PlanCore
  import opened PlanVerification
  import opened TransitionLog

  datatype TaskStatus = TQueued | TRunning | TSucceeded | TFailed | TCancelRequested | TCancelled {
    predicate IsTerminal() {
      TSucceeded? || TFailed? || TCancelled?
    }
    predicate IsLeased() {
      TRunning? || TCancelRequested?
    }
  }

  datatype PlanRef = PlanRef(planId: PlanId, revision: nat, digest: Digest)

  /** `PlanTaskReference::new`. */
  predicate RefOk(ref: PlanRef) {
    ref.revision > 0 && IsSha256(ref.digest)
  }

  datatype TaskRow = TaskRow(
    taskId: TaskId, tenant: TenantId, operator: OperatorId, key: string, fingerprint: string,
    budget: Budget, capabilities: seq<Capability>, status: TaskStatus, priority: int,
    attempts: nat, maxAttempts: nat, nextAttemptAt: int, cancelRequested: bool,
    leaseUntil: Option<int>, leaseToken: Option<nat>, result: Option<string>,
    createdAt: int, completedAt: Option<int>, plan: Option<PlanRef>, planStep: Option<StepId>)
  {
    /** Give the lease back and leave the given status. */
    function Release(to: TaskStatus): TaskRow {
      this.(status := to, leaseUntil := None, leaseToken := None, planStep := None)
    }
  }

  datatype StoredApproval = StoredApproval(approval: Approval, key: Key)

  /** One revision of a plan with its rows: snapshot, step rows, log, checkpoints and approvals. */
  datatype PlanRec = PlanRec(
    spec: PlanSpec, state: PlanState, steps: map<StepId, StepState>, attempts: map<StepId, nat>,
    log: seq<LogRow>, checkpoints: seq<Checkpoint>, approvals: seq<StoredApproval>)

  datatype ClaimContext = ClaimContext(
    circuitClosed: bool, granted: seq<Capability>, remaining: Option<Budget>, stateDigest: Option<Digest>)

  datatype FinishOutcome =
    | FinishedSucceeded | PlanStepSucceeded(nextAttemptAt: int) | FinishedCompensated
    | Requeued(nextAttemptAt: int) | FinishedFailed | FinishedCancelled

  // ----- appending to the log -----

  function NextTransition(rec: PlanRec, entity: Entity, id: Option<StepId>, a: EntityState, b: EntityState,
                          key: Key, now: int): Transition
  {
    var t := Transition(rec.spec.planId, rec.spec.revision, NextSequence(rec.log), entity, id, a, b, key,
                        LastHash(rec.log), HashText(""), now);
    t.(eventHash := t.CalculateHash())
  }

  /** `insert_transition_tx`: the idempotency key is UNIQUE per plan revision. */
  function InsertRow(rec: PlanRec, t: Transition): Result<PlanRec> {
    if KeyUsed(rec.log, t.key) then Err(UniqueViolation)
    else Ok(rec.(log := rec.log + [LogRow(t.sequence, t.key, t.eventHash, t)]))
  }

  /** `append_plan_transition_tx`. */
  function AppendPlan(rec: PlanRec, a: PlanState, b: PlanState, key: Key, now: int): Result<PlanRec> {
    if rec.state != a then Err(InvalidInput)
    else if !a.CanMoveTo(b) then Err(CoreRejected)
    else
      var r :- InsertRow(rec, NextTransition(rec, PlanEntity, None, PlanIs(a), PlanIs(b), key, now));
      Ok(r.(state := b))
  }

  /** `append_step_transition_tx`. */
  function AppendStep(rec: PlanRec, id: StepId, a: StepState, b: StepState, key: Key, now: int): Result<PlanRec> {
    if id !in rec.steps then Err(NotFound)
    else if rec.steps[id] != a then Err(InvalidInput)
    else if !a.CanMoveTo(b) then Err(CoreRejected)
    else
      var r :- InsertRow(rec, NextTransition(rec, StepEntity, Some(id), StepIs(a), StepIs(b), key, now));
      Ok(r.(steps := r.steps[id := b]))
  }

  datatype MoveKind = ByCancel | ByCompensation | ByResolution(base: Key) | BySource(base: Key) | ByTarget(base: Key)

  function KeyFor(kind: MoveKind, id: StepId): Key {
    match kind
    case ByCancel => CancelStep(id)
    case ByCompensation => CompensationSource(id)
    case ByResolution(base) => StepKey(base, id)
    case BySource(base) => SourceKey(base, id)
    case ByTarget(base) => TargetKey(base, id)
  }

  /** The loops that move several steps to one state, from states read before the loop. */
  function MoveAll(rec: PlanRec, ids: seq<StepId>, from: map<StepId, StepState>, to: StepState,
                   kind: MoveKind, now: int): Result<PlanRec>
    requires forall id :: id in ids ==> id in from
  {
    if ids == [] then Ok(rec) else
      var last := ids[|ids| - 1];
      var r :- MoveAll(rec, ids[..|ids| - 1], from, to, kind, now);
      AppendStep(r, last, from[last], to, KeyFor(kind, last), now)
  }

  function StepsWhere(steps: map<StepId, StepState>, states: set<StepState>): set<StepId> {
    set id | id in steps && steps[id] in states
  }

  function NextCheckpointSequence(c: seq<Checkpoint>): nat {
    if c == [] then 1 else c[|c| - 1].sequence + 1
  }

  function AddCheckpoint(rec: PlanRec, id: Option<StepId>, phase: CheckpointPhase, status: CheckpointStatus,
                         digest: Option<Digest>, now: int): PlanRec
  {
    rec.(checkpoints := rec.checkpoints
         + [Checkpoint(NextCheckpointSequence(rec.checkpoints), id, phase, status, digest, now)])
  }

  /** `insert_checkpoint_tx`. */
  function InsertCheckpoint(rec: PlanRec, id: Option<StepId>, phase: CheckpointPhase, status: CheckpointStatus,
                            digest: Option<Digest>, now: int): Result<PlanRec>
  {
    if digest.Some? && !IsSha256(digest.value) then Err(CoreRejected)
    else Ok(AddCheckpoint(rec, id, phase, status, digest, now))
  }

  // ----- loading -----

  function Loaded(rec: PlanRec): PlanSpec {
    rec.spec.(state := rec.state)
  }

  /** `load_plan_tx`. */
  ghost function LoadPlan(rec: PlanRec, tenant: TenantId, ref: PlanRef): Result<PlanSpec> {
    if rec.spec.planId != ref.planId || rec.spec.revision != ref.revision || rec.spec.tenant != tenant
      then Err(NotFound)
    else if rec.spec.digest != ref.digest then Err(InvalidInput)
    else if !ValidStructure(Loaded(rec)) || !DigestOk(Loaded(rec)) then Err(CoreRejected)
    else Ok(Loaded(rec))
  }

  /** `load_plan`, by plan and tenant alone. */
  ghost predicate Loadable(rec: PlanRec, tenant: TenantId) {
    rec.spec.tenant == tenant && ValidStructure(Loaded(rec)) && DigestOk(Loaded(rec))
  }

  function LoadError(rec: PlanRec, tenant: TenantId): Error {
    if rec.spec.tenant != tenant then NotFound else CoreRejected
  }

  function LoadApprovals(stored: seq<StoredApproval>): seq<Approval> {
    if stored == [] then [] else
      var last := stored[|stored| - 1].approval;
      LoadApprovals(stored[..|stored| - 1]) + (if last.revoked then [] else [last])
  }

  function TaskReference(task: TaskRow): Result<PlanRef> {
    if task.plan.None? then Err(InvalidInput) else Ok(task.plan.value)
  }

  // ----- admission -----

  function PreflightContext(rec: PlanRec, now: int): Context {
    Context(PreflightPhase, None, None, {}, [], false, Budget(0, 0, 0, 0), map[], {}, None,
            LoadApprovals(rec.approvals), now)
  }

  ghost predicate PreflightOk(rec: PlanRec, now: int) {
    Executable(DEFAULT_LIMITS, Loaded(rec), PreflightContext(rec, now))
  }

  /** `record_plan_admission_tx`. */
  ghost function Admit(rec: PlanRec, principal: Principal, taskId: TaskId, ref: PlanRef, now: int): Result<PlanRec> {
    var plan :- LoadPlan(rec, principal.tenant, ref);
    if plan.taskId != taskId || plan.operator != principal.operator then Err(Forbidden)
    else if plan.mode != DryRun then Err(InvalidInput)
    else if rec.state !in {Draft, Proposed, Validated, AwaitingApproval, Approved} then Err(InvalidInput)
    else if !PreflightOk(rec, now) then Err(InvalidInput)
    else
      var r1 :- if rec.state.Draft? then AppendPlan(rec, Draft, Proposed, AdmissionProposed, now) else Ok(rec);
      var r2 :- if r1.state.Proposed? then AppendPlan(r1, Proposed, Validated, AdmissionValidated, now) else Ok(r1);
      var r3 :- if r2.state.Validated? || r2.state.AwaitingApproval?
                then AppendPlan(r2, r2.state, Approved, AdmissionApproved, now) else Ok(r2);
      InsertCheckpoint(r3, None, Preflight, CheckpointSucceeded, Some(plan.digest), now)
  }

  // ----- approval -----

  datatype ApprovalOutcome = WasApproved | WasRejected | WasExisting

  /** `validate_approval_shape`. */
  predicate ApprovalShapeOk(plan: PlanSpec, principal: Principal, a: Approval, now: int) {
    && a.planId == plan.planId && a.revision == plan.revision && a.planDigest == plan.digest
    && a.tenant == plan.tenant && a.tenant == principal.tenant
    && a.approver == principal.operator && a.approverRole == principal.role
    && !a.revoked && now < a.expiresAt
    && RequiredForScope(plan, a.stepId).Some?
    && RequiredForScope(plan, a.stepId).value.Rank() <= a.required.Rank()
    && a.required.AllowsRole(a.approverRole)
    && (a.decision == ApprovedDecision ==> ApprovalValidFor(a, plan, a.stepId, now))
  }

  /** Why `validate_approval_shape` refuses, in the order of its checks. */
  function ApprovalShapeError(plan: PlanSpec, principal: Principal, a: Approval, now: int): Error {
    if a.planId != plan.planId || a.revision != plan.revision || a.planDigest != plan.digest
      || a.tenant != plan.tenant || a.tenant != principal.tenant || a.approver != principal.operator
      || a.approverRole != principal.role || a.revoked || a.expiresAt <= now then Forbidden
    else if RequiredForScope(plan, a.stepId).None? then NotFound
    else if a.required.Rank() < RequiredForScope(plan, a.stepId).value.Rank() || !a.required.AllowsRole(a.approverRole)
      then Forbidden
    else CoreRejected
  }

  predicate SameIntent(a: Approval, b: Approval) {
    a.(expiresAt := 0) == b.(expiresAt := 0)
  }

  predicate ApprovalKeyUsed(stored: seq<StoredApproval>, key: Key) {
    exists i :: 0 <= i < |stored| && stored[i].key == key
  }

  function ApprovalWithKey(stored: seq<StoredApproval>, key: Key): Approval
    requires ApprovalKeyUsed(stored, key)
  {
    if stored[0].key == key then stored[0].approval else
      assert ApprovalKeyUsed(stored[1..], key) by {
        var i :| 0 <= i < |stored| && stored[i].key == key;
        assert stored[1..][i - 1].key == key;
      }
      ApprovalWithKey(stored[1..], key)
  }

  /** The plan transitions of a global approval. */
  function ApproveTransitions(rec: PlanRec, id: nat, now: int): Result<PlanRec> {
    var r1 :- if rec.state.Draft? then AppendPlan(rec, Draft, Proposed, ApprovalProposed(id), now) else Ok(rec);
    var r2 :- if r1.state.Proposed? then AppendPlan(r1, Proposed, Validated, ApprovalValidated(id), now) else Ok(r1);
    if !r2.state.Validated? && !r2.state.AwaitingApproval? then Err(InvalidInput)
    else AppendPlan(r2, r2.state, Approved, ApprovalApproved(id), now)
  }

  /** Store the decision, move the plan accordingly, leave a checkpoint. */
  function RecordApproval(rec: PlanRec, a: Approval, key: Key, now: int): Result<(PlanRec, ApprovalOutcome)> {
    var stored := rec.(approvals := rec.approvals + [StoredApproval(a, key)]);
    if a.decision == ApprovedDecision then
      var r :- if a.stepId.Some? then Ok(stored) else ApproveTransitions(stored, a.approvalId, now);
      Ok((AddCheckpoint(r, a.stepId, ApprovalPhase, CheckpointSucceeded, None, now), WasApproved))
    else if rec.state !in {Draft, Proposed, Validated, AwaitingApproval} then Err(InvalidInput)
    else
      var r :- AppendPlan(stored, rec.state, Rejected, ApprovalRejected(a.approvalId), now);
      Ok((AddCheckpoint(r, a.stepId, ApprovalPhase, CheckpointFailed, None, now), WasRejected))
  }

  /** `approve_plan`; `idTaken` tells whether some row already has this approval identifier. */
  ghost function Approve(rec: PlanRec, principal: Principal, a: Approval, key: Key, idTaken: bool, now: int)
    : Result<(PlanRec, ApprovalOutcome)>
  {
    if !principal.Allows(ApprovePlan) || principal.operator != a.approver || principal.role != a.approverRole
      then Err(Forbidden)
    else if !RefOk(PlanRef(a.planId, a.revision, a.planDigest)) then Err(InvalidInput)
    else
      var plan :- LoadPlan(rec, principal.tenant, PlanRef(a.planId, a.revision, a.planDigest));
      if !ApprovalShapeOk(plan, principal, a, now) then Err(ApprovalShapeError(plan, principal, a, now))
      else if ApprovalKeyUsed(rec.approvals, key) then
        if SameIntent(ApprovalWithKey(rec.approvals, key), a) then Ok((rec, WasExisting))
        else Err(IdempotencyConflict)
      else if idTaken then Err(UniqueViolation)
      else RecordApproval(rec, a, key, now)
  }

  // ----- claim -----

  function StepReadyContext(rec: PlanRec, task: TaskRow, ctx: ClaimContext, id: StepId, now: int): Context {
    Context(StepReadyPhase, Some(id), Some(TaskRunning), StepsWhere(rec.steps, {StepSucceeded}),
            ctx.granted, ctx.circuitClosed,
            if ctx.remaining.Some? then ctx.remaining.value else task.budget, map[], {},
            ctx.stateDigest, LoadApprovals(rec.approvals), now)
  }

  function CompensationTargets(rec: PlanRec): set<StepId> {
    set s | s in rec.spec.steps && s.id in rec.steps && rec.steps[s.id] == StepCompensating
         && s.compensation.Some? :: s.compensation.value
  }

  /** A step the claim may start: waiting, wanted by a compensation when the plan compensates, with
      every dependency succeeded, and executable. */
  ghost predicate Claimable(rec: PlanRec, task: TaskRow, ctx: ClaimContext, s: PlanStep, now: int) {
    && s.id in rec.steps && (rec.steps[s.id] == StepReady || rec.steps[s.id] == StepPending)
    && (rec.state == Compensating ==> s.id in CompensationTargets(rec))
    && (forall d :: d in s.dependsOn ==> d in rec.steps && rec.steps[d] == StepSucceeded)
    && Executable(DEFAULT_LIMITS, Loaded(rec), StepReadyContext(rec, task, ctx, s.id, now))
  }

  ghost function ClaimableIds(rec: PlanRec, task: TaskRow, ctx: ClaimContext, now: int): set<StepId> {
    set s | s in rec.spec.steps && Claimable(rec, task, ctx, s, now) :: s.id
  }

  /** The claim takes the claimable step with the least identifier. */
  ghost function SelectStep(rec: PlanRec, task: TaskRow, ctx: ClaimContext, now: int): Option<StepId> {
    var ids := ClaimableIds(rec, task, ctx, now);
    if ids == {} then None else Some(MinOf(ids))
  }

  /** An approved plan begins running; a pending step becomes ready. */
  function MakeReady(rec: PlanRec, id: StepId, attempt: nat, now: int): Result<PlanRec>
    requires id in rec.steps
  {
    var r :- if rec.state.Approved? then AppendPlan(rec, Approved, Running, ClaimPlan(id), now) else Ok(rec);
    if rec.steps[id] == StepPending then AppendStep(r, id, StepPending, StepReady, ClaimReady(id, attempt), now) else Ok(r)
  }

  /** The writes of a claim: the step runs, its attempt is counted, a checkpoint marks the boundary. */
  function StartStep(rec: PlanRec, id: StepId, digest: Option<Digest>, now: int): Result<PlanRec>
  {
    if id !in rec.steps || id !in rec.attempts then Err(NotFound) else
      var attempt := rec.attempts[id] + 1;
      var ready :- MakeReady(rec, id, attempt, now);
      var started :- AppendStep(ready, id, StepReady, StepRunning, ClaimRunning(id, attempt), now);
      InsertCheckpoint(started.(attempts := started.attempts[id := attempt]), Some(id), BeforeStep, CheckpointPending, digest, now)
  }

  /** `prepare_planned_claim_tx`. */
  ghost function PrepareClaim(rec: PlanRec, task: TaskRow, ref: PlanRef, ctx: ClaimContext, now: int)
    : Result<Option<(PlanRec, StepId)>>
  {
    var plan :- LoadPlan(rec, task.tenant, ref);
    if plan.taskId != task.taskId || plan.mode != DryRun then Err(Forbidden)
    else if task.planStep.Some? then Err(InvalidInput)
    else if rec.state !in {Approved, Running, Compensating} then Ok(None)
    else if !PreflightOk(rec, now) then Ok(None)
    else
      match SelectStep(rec, task, ctx, now)
      case None => Ok(None)
      case Some(id) =>
        var r :- StartStep(rec, id, ctx.stateDigest, now);
        Ok(Some((r, id)))
  }

  // ----- finish -----

  function PostStepContext(rec: PlanRec, task: TaskRow, id: StepId, ctx: ClaimContext, now: int): Context {
    Context(PostStepPhase, Some(id), Some(TaskSucceeded),
            StepsWhere(rec.steps, {StepSucceeded}) + StepsWhere(map[id := StepSucceeded], {StepSucceeded}),
            task.capabilities, ctx.circuitClosed,
            if ctx.remaining.Some? then ctx.remaining.value else task.budget, map[], {},
            ctx.stateDigest, LoadApprovals(rec.approvals), now)
  }

  ghost predicate PostStepOk(rec: PlanRec, task: TaskRow, id: StepId, ctx: ClaimContext, now: int) {
    Executable(DEFAULT_LIMITS, Loaded(rec), PostStepContext(rec, task, id, ctx, now))
  }

  const I64_MAX: int := 0x7FFF_FFFF_FFFF_FFFF
  const I64_MIN: int := -0x8000_0000_0000_0000

  function SaturatingMul(a: int, b: int): int {
    if a * b > I64_MAX then I64_MAX else if a * b < I64_MIN then I64_MIN else a * b
  }

  function Pow2(n: nat): nat {
    if n == 0 then 1 else 2 * Pow2(n - 1)
  }

  /** Milliseconds before the next attempt after `attempts` attempts. */
  function RetryDelay(attempts: nat, base: int, max: int): int {
    var exponent := if attempts <= 1 then 0 else if attempts - 1 < 10 then attempts - 1 else 10;
    var product := SaturatingMul(base, Pow2(exponent));
    var capped := if product < max then product else max;
    if capped < 0 then 0 else capped
  }

  datatype Policy = Policy(retryable: bool, baseDelay: int, maxDelay: int)

  type Finished = Result<(PlanRec, TaskRow, FinishOutcome)>

  function FinishCancelled(rec: PlanRec, task: TaskRow, id: StepId, digest: Option<Digest>, now: int): Finished {
    var r :- MarkUnknown(rec, Some(id), digest, now);
    Ok((r, task.Release(TCancelled).(cancelRequested := true, completedAt := Some(now)), FinishedCancelled))
  }

  function CompensationSources(rec: PlanRec, target: StepId): (r: set<StepId>)
    ensures r <= rec.steps.Keys
  {
    set s | s in rec.spec.steps && s.compensation == Some(target) && s.id in rec.steps
         && rec.steps[s.id] == StepCompensating :: s.id
  }

  /** Compensate every waiting source of the target, and leave a checkpoint. */
  function CompensateSources(rec: PlanRec, target: StepId, now: int): Result<PlanRec> {
    var r :- MoveAll(rec, Ascending(CompensationSources(rec, target)), rec.steps, StepCompensated, ByCompensation, now);
    Ok(AddCheckpoint(r, Some(target), CompensationPhase, CheckpointSucceeded, None, now))
  }

  function AfterCompensation(rec: PlanRec, task: TaskRow, result: Option<string>, now: int): Finished {
    if StepsWhere(rec.steps, {StepCompensating}) == {} then
      var r :- AppendPlan(rec, Compensating, Compensated, CompensationPlan, now);
      Ok((r, task.Release(TFailed).(result := result, completedAt := Some(now)), FinishedCompensated))
    else
      Ok((rec, task.Release(TQueued).(result := None, nextAttemptAt := now), PlanStepSucceeded(now)))
  }

  /** `complete_compensation_tx`. */
  function CompleteCompensation(rec: PlanRec, task: TaskRow, target: StepId, result: Option<string>, now: int): Finished {
    var r :- CompensateSources(rec, target, now);
    AfterCompensation(r, task, result, now)
  }

  /** The running step ends; a checkpoint marks the boundary. */
  function EndStep(rec: PlanRec, id: StepId, to: StepState, key: Key, status: CheckpointStatus,
                   digest: Option<Digest>, now: int): Result<PlanRec>
  {
    var r :- AppendStep(rec, id, StepRunning, to, key, now);
    InsertCheckpoint(r, Some(id), AfterStep, status, digest, now)
  }

  /** Every step has succeeded: so does the plan, and the task with it. Otherwise the task waits for
      its next step. */
  function AfterSuccess(rec: PlanRec, task: TaskRow, result: Option<string>, now: int): Finished {
    if StepsWhere(rec.steps, {StepSucceeded}) == rec.steps.Keys then
      var r :- AppendPlan(rec, Running, Succeeded, FinishPlanSucceeded, now);
      Ok((r, task.Release(TSucceeded).(result := result, completedAt := Some(now)), FinishedSucceeded))
    else
      Ok((rec, task.Release(TQueued).(result := None, nextAttemptAt := now), PlanStepSucceeded(now)))
  }

  function FinishSuccess(rec: PlanRec, task: TaskRow, id: StepId, result: Option<string>,
                         digest: Option<Digest>, now: int): Finished
    requires id in rec.attempts
  {
    var r :- EndStep(rec, id, StepSucceeded, FinishSucceeded(id, rec.attempts[id]), CheckpointSucceeded, digest, now);
    if rec.state == Compensating then CompleteCompensation(r, task, id, result, now)
    else AfterSuccess(r, task, result, now)
  }

  /** A failed step is retried while the policy and its attempts allow; otherwise the plan fails. A
      failure during compensation quarantines the plan. */
  function AfterFailure(rec: PlanRec, task: TaskRow, id: StepId, attempts: nat, retry: bool, policy: Policy,
                        digest: Option<Digest>, now: int): Finished
  {
    if rec.state == Compensating then
      var r :- MarkUnknown(rec, Some(id), digest, now);
      Ok((r, task.Release(TFailed).(result := None, completedAt := Some(now)), FinishedFailed))
    else if retry then
      var r :- AppendStep(rec, id, StepFailed, StepReady, RetryReady(id, attempts), now);
      var at := now + RetryDelay(attempts, policy.baseDelay, policy.maxDelay);
      Ok((r, task.Release(TQueued).(result := None, nextAttemptAt := at), Requeued(at)))
    else
      var r :- if rec.state == Running then AppendPlan(rec, Running, Failed, FinishPlanFailed, now) else Ok(rec);
      Ok((r, task.Release(TFailed).(result := None, completedAt := Some(now)), FinishedFailed))
  }

  function FinishFailure(rec: PlanRec, task: TaskRow, id: StepId, maxAttempts: nat, policy: Policy,
                         digest: Option<Digest>, now: int): Finished
    requires id in rec.attempts
  {
    var attempts := rec.attempts[id];
    var r :- EndStep(rec, id, StepFailed, FinishFailed(id, attempts), CheckpointFailed, digest, now);
    AfterFailure(r, task, id, attempts, policy.retryable && attempts < maxAttempts, policy, digest, now)
  }

  /** `finish_planned_step_tx`. */
  ghost function FinishPlanned(rec: PlanRec, task: TaskRow, result: Option<string>, failed: bool, policy: Policy,
                               ctx: ClaimContext, now: int): Finished
  {
    var ref :- TaskReference(task);
    var plan :- LoadPlan(rec, task.tenant, ref);
    if task.planStep.None? then Err(InvalidInput) else
      var id := task.planStep.value;
      if id !in rec.steps || id !in rec.attempts || FindStep(rec.spec.steps, id).None? then Err(NotFound)
      else if rec.steps[id] != StepRunning && rec.steps[id] != StepCancelRequested then Err(InvalidInput)
      else if task.cancelRequested || task.status == TCancelRequested then
        FinishCancelled(rec, task, id, ctx.stateDigest, now)
      else if !failed && PostStepOk(rec, task, id, ctx, now) then
        FinishSuccess(rec, task, id, result, ctx.stateDigest, now)
      else
        FinishFailure(rec, task, id, FindStep(rec.spec.steps, id).value.maxAttempts, policy, ctx.stateDigest, now)
  }

  // ----- cancellation, lease expiry, quarantine -----

  function CancelWaiting(rec: PlanRec, now: int): Result<PlanRec> {
    var ids := Ascending(StepsWhere(rec.steps, {StepPending, StepReady, StepAwaitingApproval}));
    MoveAll(rec, ids, rec.steps, StepCancelled, ByCancel, now)
  }

  /** Cancelling a queued task: request, cancel every waiting step, complete. */
  function CancelQueued(rec: PlanRec, now: int): Result<PlanRec> {
    var r1 :- if rec.state == Approved || rec.state == Running
              then AppendPlan(rec, rec.state, CancelRequested, CancelPlanRequested, now) else Ok(rec);
    var r2 :- CancelWaiting(r1, now);
    if r2.state == CancelRequested then AppendPlan(r2, CancelRequested, Cancelled, CancelPlanCompleted, now)
    else Ok(r2)
  }

  /** `cancel_planned_task_tx`. */
  ghost function CancelPlanned(rec: PlanRec, task: TaskRow, now: int): Result<PlanRec> {
    var ref :- TaskReference(task);
    var plan :- LoadPlan(rec, task.tenant, ref);
    if rec.state == Unknown || rec.state == Compensating then Err(InvalidInput)
    else if task.status == TQueued then CancelQueued(rec, now)
    else if task.status == TRunning && rec.state == Running then
      AppendPlan(rec, Running, CancelRequested, CancelPlanRequested, now)
    else Ok(rec)
  }

  /** `mark_plan_unknown_tx`; where the table forbids the move the snapshot changes without a log row. */
  function MarkUnknown(rec: PlanRec, id: Option<StepId>, digest: Option<Digest>, now: int): Result<PlanRec> {
    var r1 :- if rec.state == Unknown then Ok(rec)
              else if rec.state.CanMoveTo(Unknown)
                then AppendPlan(rec, rec.state, Unknown, RecoveryPlanUnknown(now), now)
              else Ok(rec.(state := Unknown));
    var r2 :- if id.None? || id.value !in r1.steps || r1.steps[id.value] == StepUnknown then Ok(r1)
              else if r1.steps[id.value].CanMoveTo(StepUnknown)
                then AppendStep(r1, id.value, r1.steps[id.value], StepUnknown, RecoveryStepUnknown(id.value, now), now)
              else Ok(r1.(steps := r1.steps[id.value := StepUnknown]));
    InsertCheckpoint(r2, id, Recovery, CheckpointUnknown, digest, now)
  }

  /** `recover_expired_plan_lease_tx`. */
  ghost function RecoverExpired(rec: PlanRec, task: TaskRow, now: int): Result<(PlanRec, TaskRow)> {
    var ref :- TaskReference(task);
    var plan :- LoadPlan(rec, task.tenant, ref);
    var r :- MarkUnknown(rec, task.planStep, None, now);
    Ok((r, task.Release(if task.cancelRequested then TCancelled else TFailed).(completedAt := Some(now))))
  }

  // ----- human resolution -----

  datatype ResolutionDecision = Resume | Compensate | Cancel

  datatype ResolutionOutcome = Resumed | NowCompensating | NowCancelled | AlreadyResolved

  function Target(decision: ResolutionDecision): PlanState {
    match decision
    case Resume => Running
    case Compensate => Compensating
    case Cancel => Cancelled
  }

  predicate KeyUsedFor(log: seq<LogRow>, key: Key, to: PlanState) {
    exists i :: 0 <= i < |log| && log[i].key == key && log[i].body.toState == PlanIs(to)
  }

  /** The steps a compensation starts from. */
  function EligibleSources(rec: PlanRec): (r: set<StepId>)
    ensures r <= rec.steps.Keys
  {
    set s | s in rec.spec.steps && s.compensation.Some? && s.id in rec.steps
         && rec.steps[s.id] in {StepSucceeded, StepFailed, StepUnknown, StepCompensating} :: s.id
  }

  /** The sources that still have to move, in the order the plan presents its steps. */
  function MovingSources(rec: PlanRec, steps: seq<PlanStep>): (r: seq<StepId>)
    ensures forall id :: id in r ==> id in EligibleSources(rec) && rec.steps[id] != StepCompensating
    ensures forall s :: s in steps && s.id in EligibleSources(rec) && rec.steps[s.id] != StepCompensating ==> s.id in r
  {
    if steps == [] then [] else
      var s := steps[|steps| - 1];
      MovingSources(rec, steps[..|steps| - 1])
      + (if s.id in EligibleSources(rec) && rec.steps[s.id] != StepCompensating then [s.id] else [])
  }

  function EligibleTargets(rec: PlanRec): set<StepId> {
    set s | s in rec.spec.steps && s.compensation.Some? && s.id in EligibleSources(rec) :: s.compensation.value
  }

  function ResolveResume(rec: PlanRec, key: Key, now: int): Result<PlanRec> {
    var ids := Ascending(StepsWhere(rec.steps, {StepUnknown}));
    var r :- MoveAll(rec, ids, rec.steps, StepReady, ByResolution(key), now);
    AppendPlan(r, Unknown, Running, key, now)
  }

  function ResolveCompensate(rec: PlanRec, key: Key, now: int): Result<PlanRec> {
    var sources := EligibleSources(rec);
    if sources == {} then Err(InvalidInput) else
      var moving := MovingSources(rec, rec.spec.steps);
      var r1 :- MoveAll(rec, moving, rec.steps, StepCompensating, BySource(key), now);
      var waiting := Ascending(set id | id in EligibleTargets(rec) && id in r1.steps
                                     && r1.steps[id] in {StepUnknown, StepFailed});
      var r2 :- MoveAll(r1, waiting, r1.steps, StepReady, ByTarget(key), now);
      AppendPlan(r2, Unknown, Compensating, key, now)
  }

  function ResolveCancel(rec: PlanRec, key: Key, now: int): Result<PlanRec> {
    if StepsWhere(rec.steps, {StepRunning, StepCancelRequested, StepCompensating, StepUnknown}) != {}
      then Err(InvalidInput)
    else AppendPlan(rec, Unknown, Cancelled, key, now)
  }

  function ResolveWith(rec: PlanRec, decision: ResolutionDecision, key: Key, now: int): Result<PlanRec> {
    match decision
    case Resume => ResolveResume(rec, key, now)
    case Compensate => ResolveCompensate(rec, key, now)
    case Cancel => ResolveCancel(rec, key, now)
  }

  function ResolvedTask(task: TaskRow, decision: ResolutionDecision, now: int): TaskRow {
    if decision == Cancel
    then task.Release(TCancelled).(cancelRequested := true, completedAt := Some(now))
    else task.Release(TQueued).(cancelRequested := false, completedAt := None)
  }

  function OutcomeOf(decision: ResolutionDecision): ResolutionOutcome {
    match decision
    case Resume => Resumed
    case Compensate => NowCompensating
    case Cancel => NowCancelled
  }

  /** `resolve_plan_unknown`; `task` is the row bound to the plan, if there is one. */
  ghost function Resolve(rec: PlanRec, task: Option<TaskRow>, principal: Principal, decision: ResolutionDecision,
                         key: Key, evidence: Option<Digest>, now: int)
    : Result<(PlanRec, Option<TaskRow>, ResolutionOutcome)>
  {
    if !principal.Allows(ResolvePlanUnknown) then Err(Forbidden)
    else if evidence.Some? && !IsSha256(evidence.value) then Err(CoreRejected)
    else if decision == Resume && evidence.None? then Err(InvalidInput)
    else if !Loadable(rec, principal.tenant) then Err(LoadError(rec, principal.tenant))
    else if KeyUsed(rec.log, key) then
      if KeyUsedFor(rec.log, key, Target(decision)) then Ok((rec, task, AlreadyResolved))
      else Err(IdempotencyConflict)
    else if rec.state != Unknown then Err(InvalidInput)
    else
      var r :- ResolveWith(rec, decision, key, now);
      if task.None? then Err(NotFound) else
        var c :- InsertCheckpoint(r, None, Resolution,
                   if decision == Cancel then CheckpointFailed else CheckpointSucceeded, evidence, now);
        Ok((c, Some(ResolvedTask(task.value, decision, now)), OutcomeOf(decision)))
  }

  // ----- inspection and resumption -----

  datatype Issue = ChainInvalid | ReducerDiverged | CheckpointSequenceInvalid

  datatype Fold = Broken(issue: Issue) | Folded(reduced: Reduced)

  /** The replay loop of `inspect_plan` and `resume_plan`: chain first, then reducer, row by row. */
  function FoldLog(ids: set<StepId>, log: seq<LogRow>): Fold {
    if log == [] then Folded(Initial(ids)) else
      var n := |log| - 1;
      match FoldLog(ids, log[..n])
      case Broken(issue) => Broken(issue)
      case Folded(before) =>
        if !LinkOk(log, n) then Broken(ChainInvalid)
        else match ApplyTransition(before, log[n].body)
          case None => Broken(ReducerDiverged)
          case Some(after) => Folded(after)
  }

  /** The first problem `inspect_plan` reports, if any. */
  function Inspect(rec: PlanRec): Option<Issue> {
    match FoldLog(Ids(rec.spec.steps), rec.log)
    case Broken(issue) => Some(issue)
    case Folded(r) =>
      if r.plan != rec.state || r.steps != rec.steps then Some(ReducerDiverged)
      else if !CheckpointsOk(rec.checkpoints) then Some(CheckpointSequenceInvalid)
      else None
  }

  datatype Verdict = FoundInconsistent | FoundActive | FoundStable

  /** What the read phase of `resume_plan` carries into its write phase. */
  datatype ResumeView = ResumeView(verdict: Verdict, state: PlanState, active: map<StepId, StepState>)

  function ActiveSteps(steps: map<StepId, StepState>): map<StepId, StepState> {
    map id | id in steps && steps[id].IsActive() :: steps[id]
  }

  function ResumeRead(rec: PlanRec): ResumeView {
    var active := ActiveSteps(rec.steps);
    var verdict :=
      if Inspect(rec).Some? then FoundInconsistent
      else if rec.state in {Running, CancelRequested, Compensating} || active != map[] then FoundActive
      else FoundStable;
    ResumeView(verdict, rec.state, active)
  }

  function InsertStepRecovery(rec: PlanRec, id: StepId, from: StepState, now: int): Result<PlanRec> {
    InsertRow(rec, NextTransition(rec, StepEntity, Some(id), StepIs(from), StepIs(StepUnknown),
                                  RecoveryStep(id, NextSequence(rec.log)), now))
  }

  function InsertStepRecoveries(rec: PlanRec, ids: seq<StepId>, from: map<StepId, StepState>, now: int): Result<PlanRec>
    requires forall id :: id in ids ==> id in from
  {
    if ids == [] then Ok(rec) else
      var last := ids[|ids| - 1];
      var r :- InsertStepRecoveries(rec, ids[..|ids| - 1], from, now);
      InsertStepRecovery(r, last, from[last], now)
  }

  /** `append_recovery_transitions_tx`: rows are inserted without consulting the transition table. */
  function InsertRecovery(rec: PlanRec, state: PlanState, active: map<StepId, StepState>, now: int): Result<PlanRec> {
    var r :- InsertRow(rec, NextTransition(rec, PlanEntity, None, PlanIs(state), PlanIs(Unknown),
                                           RecoveryPlan(NextSequence(rec.log)), now));
    InsertStepRecoveries(r, Ascending(active.Keys), active, now)
  }

  function Quarantined(steps: map<StepId, StepState>): map<StepId, StepState> {
    map id | id in steps :: if steps[id].IsActive() then StepUnknown else steps[id]
  }

  function Quarantine(rec: PlanRec): PlanRec {
    rec.(state := Unknown, steps := Quarantined(rec.steps))
  }

  /** `recover_unknown`. */
  function RecoverUnknown(rec: PlanRec, view: ResumeView, now: int): Result<PlanRec> {
    if rec.state == Unknown then Ok(rec)
    else if rec.state != view.state then Err(InvalidInput)
    else if ActiveSteps(rec.steps) != view.active then Err(InvalidInput)
    else
      var r :- InsertRecovery(rec, view.state, view.active, now);
      Ok(AddCheckpoint(Quarantine(r), None, Recovery, CheckpointUnknown, Some(rec.spec.digest), now))
  }

  predicate HasRecoveryCheckpoint(c: seq<Checkpoint>) {
    exists i :: 0 <= i < |c| && c[i].phase == Recovery && c[i].status == CheckpointUnknown
  }

  /** `force_unknown`. */
  function ForceUnknown(rec: PlanRec, now: int): PlanRec {
    var q := Quarantine(rec);
    if HasRecoveryCheckpoint(rec.checkpoints) then q
    else AddCheckpoint(q, None, Recovery, CheckpointUnknown, Some(rec.spec.digest), now)
  }

  function ResumeWrite(rec: PlanRec, view: ResumeView, now: int): Result<PlanRec> {
    match view.verdict
    case FoundInconsistent => Ok(ForceUnknown(rec, now))
    case FoundActive => RecoverUnknown(rec, view, now)
    case FoundStable => Ok(rec)
  }

  /** `resume_plan` without interference between its two phases. */
  ghost function ResumeTx(rec: PlanRec, tenant: TenantId, now: int): Result<PlanRec> {
    if !Loadable(rec, tenant) then Err(LoadError(rec, tenant)) else ResumeWrite(rec, ResumeRead(rec), now)
  }
}
