/** Plans, their states and approvals (crates/shaka-core/src/lib.rs). Identifiers are naturals: the
    source only compares them. Instants are integers. */
module PlanCore {
  import opened Base

  type PlanId = nat
  type TaskId = nat
  type TenantId = nat
  type OperatorId = nat
  type StepId = nat

  datatype Role = Administrator | Reviewer | Operator

  datatype Action =
    | RunReadOnly | RunExternal | CreateSkill | ApproveSkill | RevokeSkill | Backup | Restore
    | VerifyAudit | PurgeMemory | ManageIam | ApprovePlan | ResumePlan | ResolvePlanUnknown

  datatype Principal = Principal(operator: OperatorId, tenant: TenantId, role: Role) {
    predicate Allows(action: Action) {
      match role
      case Administrator => true
      case Reviewer =>
        action in {RunReadOnly, ApproveSkill, VerifyAudit, Backup, ApprovePlan}
      case Operator => action in {RunReadOnly, CreateSkill}
    }
  }

  datatype Capability =
    | Network | FilesystemRead | FilesystemWrite | CodeExecution | ExternalMessaging | MemoryWrite

  function CapabilitiesFor(role: Role): seq<Capability> {
    if role == Administrator
    then [Network, FilesystemRead, FilesystemWrite, CodeExecution, ExternalMessaging, MemoryWrite]
    else []
  }

  datatype Budget = Budget(maxSteps: nat, maxToolCalls: nat, maxElapsedMs: nat, maxCostMicrounits: nat)

  /** `Budget::validate`. */
  predicate BudgetOk(b: Budget) {
    1 <= b.maxSteps <= 256 && b.maxToolCalls <= 512 && 1 <= b.maxElapsedMs <= 300_000
    && b.maxCostMicrounits <= 10_000_000
  }

  datatype PlanMode = DryRun | Live

  datatype Risk = ReadOnlyRisk | MutationRisk | ExternalEffectRisk | Irreversible {
    function Rank(): nat {
      match this
      case ReadOnlyRisk => 0
      case MutationRisk => 1
      case ExternalEffectRisk => 2
      case Irreversible => 3
    }
    function MinimumApproval(): Requirement {
      match this
      case ReadOnlyRisk => NoApproval
      case MutationRisk => ByReviewer
      case _ => ByAdministrator
    }
  }

  datatype Requirement = NoApproval | ByReviewer | ByAdministrator {
    function Rank(): nat {
      match this
      case NoApproval => 0
      case ByReviewer => 1
      case ByAdministrator => 2
    }
    predicate AllowsRole(role: Role) {
      match this
      case NoApproval => true
      case ByReviewer => role == Reviewer || role == Administrator
      case ByAdministrator => role == Administrator
    }
  }

  function MaxRequirement(a: Requirement, b: Requirement): Requirement {
    if a.Rank() <= b.Rank() then b else a
  }

  // ----- state machines -----

  datatype PlanState =
    | Draft | Proposed | Validated | AwaitingApproval | Approved | Running | Paused | Succeeded
    | Failed | CancelRequested | Cancelled | Compensating | Compensated | Unknown | Rejected
  {
    predicate IsTerminal() {
      this in {Succeeded, Failed, Cancelled, Compensated, Rejected}
    }
    predicate CanMoveTo(next: PlanState) {
      match this
      case Draft => next.Proposed? || next.Rejected?
      case Proposed => next.Validated? || next.Rejected?
      case Validated => next.AwaitingApproval? || next.Approved? || next.Rejected?
      case AwaitingApproval => next.Approved? || next.Rejected?
      case Approved => next.Running? || next.Rejected? || next.CancelRequested?
      case Running =>
        next.Paused? || next.Succeeded? || next.Failed? || next.CancelRequested?
        || next.Compensating? || next.Unknown?
      case Paused => next.Running? || next.CancelRequested? || next.Failed?
      case CancelRequested => next.Cancelled? || next.Unknown? || next.Compensating?
      case Compensating => next.Compensated? || next.Failed? || next.Unknown?
      case Unknown => next.Running? || next.Failed? || next.Compensating? || next.Cancelled?
      case _ => false
    }
  }

  datatype StepState =
    | StepPending | StepReady | StepRunning | StepSucceeded | StepFailed | StepBlocked
    | StepAwaitingApproval | StepCancelRequested | StepCancelled | StepCompensating
    | StepCompensated | StepUnknown
  {
    /** The states a restart treats as an open effect boundary. */
    predicate IsActive() {
      StepRunning? || StepCancelRequested? || StepCompensating?
    }
    predicate CanMoveTo(next: StepState) {
      match this
      case StepPending => next.StepReady? || next.StepBlocked? || next.StepCancelled?
      case StepReady =>
        next.StepRunning? || next.StepAwaitingApproval? || next.StepBlocked? || next.StepCancelled?
      case StepAwaitingApproval => next.StepReady? || next.StepBlocked? || next.StepCancelled?
      case StepRunning =>
        next.StepSucceeded? || next.StepFailed? || next.StepCancelRequested? || next.StepUnknown?
        || next.StepCompensating?
      case StepFailed => next.StepReady? || next.StepCompensating? || next.StepUnknown?
      case StepCancelRequested => next.StepCancelled? || next.StepUnknown?
      case StepCompensating => next.StepCompensated? || next.StepFailed? || next.StepUnknown?
      case StepUnknown =>
        next.StepReady? || next.StepFailed? || next.StepCompensating? || next.StepCancelled?
      case StepSucceeded => next.StepCompensating?
      case _ => false
    }
  }

  // ----- plans -----

  datatype PlanTaskState = TaskQueued | TaskRunning | TaskSucceeded | TaskFailed | TaskCancelled

  datatype Condition =
    | TaskStateIs(state: PlanTaskState)
    | StepHasSucceeded(stepId: StepId)
    | ApprovalExists(scope: Option<StepId>)
    | CapabilityGranted(capability: Capability)
    | CircuitClosed
    | BudgetRemainingAtLeast(budget: Budget)
    | ArtifactDigestMatches(artifact: string, sha256: string)
    | IdempotencyKeyUnused(keyRef: string)
    | StateDigestMatches(digest: Digest)

  datatype PlanAction =
    | ReadOnlyAction(operation: string)
    | MutationAction(operation: string)
    | ExecuteTool(toolName: string)
    | ExternalEffectAction(operation: string)
  {
    function MinimumRisk(): Risk {
      match this
      case ReadOnlyAction(_) => ReadOnlyRisk
      case MutationAction(_) => MutationRisk
      case ExecuteTool(_) => MutationRisk
      case ExternalEffectAction(_) => ExternalEffectRisk
    }
    function Name(): string {
      match this
      case ReadOnlyAction(n) => n
      case MutationAction(n) => n
      case ExecuteTool(n) => n
      case ExternalEffectAction(n) => n
    }
  }

  datatype PlanStep = PlanStep(
    id: StepId, dependsOn: seq<StepId>, action: PlanAction, preconditions: seq<Condition>,
    postconditions: seq<Condition>, risk: Risk, approval: Requirement, maxAttempts: nat,
    compensation: Option<StepId>)
  {
    function RequiredApproval(): Requirement {
      MaxRequirement(approval, risk.MinimumApproval())
    }
  }

  /** SHA-256 as an injective constructor over what it hashes; `Text` is any other digest string. */
  datatype Digest = Sha256(material: PlanSpec) | Text(text: string)

  datatype PlanSpec = PlanSpec(
    planId: PlanId, taskId: TaskId, tenant: TenantId, operator: OperatorId, revision: nat,
    mode: PlanMode, risk: Risk, approval: Requirement, budget: Budget, steps: seq<PlanStep>,
    digest: Digest, state: PlanState, createdAt: int)

  predicate IsHexDigit(c: char) {
    '0' <= c <= '9' || 'a' <= c <= 'f' || 'A' <= c <= 'F'
  }

  predicate IsSha256Text(text: string) {
    |text| == 64 && forall i :: 0 <= i < |text| ==> IsHexDigit(text[i])
  }

  predicate IsSha256(digest: Digest) {
    digest.Sha256? || IsSha256Text(digest.text)
  }

  predicate IsPlanKeyChar(c: char) {
    '0' <= c <= '9' || 'a' <= c <= 'z' || 'A' <= c <= 'Z' || c == '.' || c == '_' || c == '-'
  }

  predicate IsPlanKey(text: string) {
    1 <= |text| <= 128 && forall i :: 0 <= i < |text| ==> IsPlanKeyChar(text[i])
  }

  predicate IsBlank(c: char) {
    c == ' ' || c == '\t' || c == '\n' || c == '\r'
  }

  /** Idempotency keys: not blank and at most `maxLength` long. */
  predicate IsKey(text: string, maxLength: nat) {
    |text| <= maxLength && exists i :: 0 <= i < |text| && !IsBlank(text[i])
  }

  predicate ValidCondition(c: Condition) {
    match c
    case ArtifactDigestMatches(artifact, sha256) => IsPlanKey(artifact) && IsSha256Text(sha256)
    case IdempotencyKeyUnused(keyRef) => IsPlanKey(keyRef)
    case StateDigestMatches(digest) => IsSha256(digest)
    case _ => true
  }

  predicate ValidStep(s: PlanStep) {
    && IsPlanKey(s.action.Name())
    && 1 <= s.maxAttempts <= 10
    && s.risk != Irreversible
    && s.action.MinimumRisk().Rank() <= s.risk.Rank()
    && s.risk.MinimumApproval().Rank() <= s.approval.Rank()
    && (forall c :: c in s.preconditions ==> ValidCondition(c))
    && (forall c :: c in s.postconditions ==> ValidCondition(c))
  }

  predicate UniqueIds(steps: seq<PlanStep>) {
    forall i, j :: 0 <= i < j < |steps| ==> steps[i].id != steps[j].id
  }

  function Ids(steps: seq<PlanStep>): set<StepId> {
    set s | s in steps :: s.id
  }

  predicate ReferencesKnown(steps: seq<PlanStep>) {
    forall s :: s in steps ==>
      && (forall d :: d in s.dependsOn ==> d != s.id && d in Ids(steps))
      && (s.compensation.Some? ==> s.compensation.value != s.id && s.compensation.value in Ids(steps))
  }

  // ----- the dependency graph -----

  /** Consecutive identifiers are linked by "depends on". */
  ghost predicate IsPath(steps: seq<PlanStep>, path: seq<StepId>) {
    forall i :: 0 <= i < |path| - 1 ==> DependsOn(steps, path[i], path[i + 1])
  }

  ghost predicate DependsOn(steps: seq<PlanStep>, a: StepId, b: StepId) {
    exists s :: s in steps && s.id == a && b in s.dependsOn
  }

  ghost predicate IsCycle(steps: seq<PlanStep>, path: seq<StepId>) {
    |path| >= 2 && path[0] == path[|path| - 1] && IsPath(steps, path)
  }

  ghost predicate Acyclic(steps: seq<PlanStep>) {
    forall path :: !IsCycle(steps, path)
  }

  /** What `validate_structure` accepts. */
  ghost predicate ValidStructure(p: PlanSpec) {
    && ValidHeader(p)
    && UniqueIds(p.steps)
    && (forall s :: s in p.steps ==> ValidStep(s))
    && ReferencesKnown(p.steps)
    && Acyclic(p.steps)
  }

  predicate ValidHeader(p: PlanSpec) {
    && p.revision > 0
    && 1 <= |p.steps| <= 128
    && p.budget.maxSteps > 0 && p.budget.maxElapsedMs > 0
    && p.risk != Irreversible
    && (forall s :: s in p.steps ==> s.risk.Rank() <= p.risk.Rank())
    && p.risk.MinimumApproval().Rank() <= p.approval.Rank()
  }

  function FindStep(steps: seq<PlanStep>, id: StepId): (r: Option<PlanStep>)
    ensures r.Some? ==> r.value in steps && r.value.id == id
    ensures r.None? ==> id !in Ids(steps)
  {
    if steps == [] then None
    else if steps[0].id == id then Some(steps[0])
    else FindStep(steps[1..], id)
  }

  /** With unique identifiers a step is determined by its identifier. */
  lemma SameIdSameStep(steps: seq<PlanStep>, a: PlanStep, b: PlanStep)
    requires UniqueIds(steps) && a in steps && b in steps && a.id == b.id
    ensures a == b
  {
  }

  // ----- canonical digest -----

  function InsertById(s: PlanStep, sorted: seq<PlanStep>): seq<PlanStep> {
    if sorted == [] || s.id <= sorted[0].id then [s] + sorted
    else [sorted[0]] + InsertById(s, sorted[1..])
  }

  /** Stable sort by identifier. */
  function SortById(steps: seq<PlanStep>): seq<PlanStep> {
    if steps == [] then [] else InsertById(steps[0], SortById(steps[1..]))
  }

  function Canonical(p: PlanSpec): PlanSpec {
    p.(digest := Text(""), state := Draft, createdAt := 0, steps := SortById(p.steps))
  }

  function CalculateDigest(p: PlanSpec): Digest {
    Sha256(Canonical(p))
  }

  predicate DigestOk(p: PlanSpec) {
    p.digest == CalculateDigest(p)
  }

  // ----- approvals -----

  function RequiredOfSteps(steps: seq<PlanStep>): Requirement {
    if steps == [] then NoApproval
    else MaxRequirement(steps[0].RequiredApproval(), RequiredOfSteps(steps[1..]))
  }

  /** The strictest requirement of the plan and of its steps. */
  function RequiredApproval(p: PlanSpec): Requirement {
    MaxRequirement(MaxRequirement(RequiredOfSteps(p.steps), p.approval), p.risk.MinimumApproval())
  }

  datatype Decision = ApprovedDecision | RejectedDecision

  datatype Approval = Approval(
    approvalId: nat, planId: PlanId, planDigest: Digest, revision: nat, tenant: TenantId,
    approver: OperatorId, approverRole: Role, stepId: Option<StepId>, required: Requirement,
    decision: Decision, expiresAt: int, revoked: bool)

  function RequiredForScope(p: PlanSpec, scope: Option<StepId>): Option<Requirement> {
    match scope
    case None => Some(RequiredApproval(p))
    case Some(id) =>
      match FindStep(p.steps, id)
      case None => None
      case Some(s) => Some(s.RequiredApproval())
  }

  /** `PlanApproval::validate_for`. */
  predicate ApprovalValidFor(a: Approval, p: PlanSpec, scope: Option<StepId>, now: int) {
    && a.decision == ApprovedDecision
    && !a.revoked && now < a.expiresAt
    && a.approver != p.operator
    && a.planId == p.planId && a.planDigest == p.digest && a.revision == p.revision
    && a.tenant == p.tenant && a.stepId == scope
    && RequiredForScope(p, scope).Some?
    && a.required.AllowsRole(a.approverRole)
    && RequiredForScope(p, scope).value.Rank() <= a.required.Rank()
  }
}
