/** What conditions, approvals and an executable verdict mean, said of plans, approvals and contexts
    field by field, and what each reported violation says. */
module Conditions {
  import opened Base
  import opened PlanCore
  import opened PlanVerification

  // ----- what a plan or a step demands -----

  /** The step is declared, or risky enough, to need an Administrator. */
  predicate StepNeedsAdministrator(s: PlanStep) {
    s.approval == ByAdministrator || s.risk == ExternalEffectRisk || s.risk == Irreversible
  }

  predicate StepNeedsSomebody(s: PlanStep) {
    StepNeedsAdministrator(s) || s.approval == ByReviewer || s.risk == MutationRisk
  }

  /** A plan needs what it declares, what its risk asks for, and what any of its steps needs. */
  predicate PlanNeedsAdministrator(p: PlanSpec) {
    || p.approval == ByAdministrator || p.risk == ExternalEffectRisk || p.risk == Irreversible
    || exists s :: s in p.steps && StepNeedsAdministrator(s)
  }

  predicate PlanNeedsSomebody(p: PlanSpec) {
    || PlanNeedsAdministrator(p) || p.approval == ByReviewer || p.risk == MutationRisk
    || exists s :: s in p.steps && StepNeedsSomebody(s)
  }

  lemma StepDemand(s: PlanStep)
    ensures s.RequiredApproval() == ByAdministrator <==> StepNeedsAdministrator(s)
    ensures s.RequiredApproval() != NoApproval <==> StepNeedsSomebody(s)
  {
  }

  lemma {:induction false} StepsDemand(steps: seq<PlanStep>)
    ensures RequiredOfSteps(steps) == ByAdministrator <==> exists s :: s in steps && StepNeedsAdministrator(s)
    ensures RequiredOfSteps(steps) != NoApproval <==> exists s :: s in steps && StepNeedsSomebody(s)
  {
    if steps != [] {
      hide StepNeedsAdministrator, StepNeedsSomebody;
      StepDemand(steps[0]);
      StepsDemand(steps[1..]);
      assert steps == [steps[0]] + steps[1..];
    }
  }

  /** The plan's own demand is the strictest of all of them. */
  lemma PlanDemand(p: PlanSpec)
    ensures RequiredApproval(p) == ByAdministrator <==> PlanNeedsAdministrator(p)
    ensures RequiredApproval(p) != NoApproval <==> PlanNeedsSomebody(p)
  {
    StepsDemand(p.steps);
    hide StepNeedsAdministrator, StepNeedsSomebody, RequiredOfSteps;
  }

  // ----- what an approval is good for -----

  /** What the scope of an approval, a step or the whole plan, needs. */
  predicate ScopeNeedsAdministrator(p: PlanSpec, scope: Option<StepId>) {
    match scope
    case None => PlanNeedsAdministrator(p)
    case Some(id) => exists s :: s in p.steps && s.id == id && StepNeedsAdministrator(s)
  }

  predicate ScopeNeedsSomebody(p: PlanSpec, scope: Option<StepId>) {
    match scope
    case None => PlanNeedsSomebody(p)
    case Some(id) => exists s :: s in p.steps && s.id == id && StepNeedsSomebody(s)
  }

  /** The approval stands at `now` for exactly this plan and scope, by somebody other than the plan's
      operator, whose role matches what the approval claims, and it claims what the scope needs. */
  predicate Grants(a: Approval, p: PlanSpec, scope: Option<StepId>, now: int) {
    && a.decision == ApprovedDecision && !a.revoked && now < a.expiresAt
    && a.approver != p.operator && a.tenant == p.tenant
    && a.planId == p.planId && a.planDigest == p.digest && a.revision == p.revision && a.stepId == scope
    && (scope.Some? ==> exists s :: s in p.steps && s.id == scope.value)
    && (a.required == ByAdministrator ==> a.approverRole == Administrator)
    && (a.required == ByReviewer ==> a.approverRole != Operator)
    && (ScopeNeedsAdministrator(p, scope) ==> a.required == ByAdministrator)
    && (ScopeNeedsSomebody(p, scope) ==> a.required != NoApproval)
  }

  lemma FoundIffListed(steps: seq<PlanStep>, id: StepId)
    ensures FindStep(steps, id).Some? <==> exists s :: s in steps && s.id == id
  {
    if FindStep(steps, id).None? {
      forall s | s in steps ensures s.id != id { assert s.id in Ids(steps); }
    }
  }

  lemma GrantMeans(a: Approval, p: PlanSpec, scope: Option<StepId>, now: int)
    requires UniqueIds(p.steps)
    ensures ApprovalValidFor(a, p, scope, now) <==> Grants(a, p, scope, now)
  {
    ScopeMeans(p, scope);
    hide PlanNeedsAdministrator, PlanNeedsSomebody, RequiredApproval, FindStep, UniqueIds, RequiredForScope,
         ScopeNeedsAdministrator, ScopeNeedsSomebody;
  }

  lemma ScopeMeans(p: PlanSpec, scope: Option<StepId>)
    requires UniqueIds(p.steps)
    ensures var required := RequiredForScope(p, scope);
            && (required.Some? <==> scope.Some? ==> exists s :: s in p.steps && s.id == scope.value)
            && (required.Some? ==> (required.value == ByAdministrator <==> ScopeNeedsAdministrator(p, scope)))
            && (required.Some? ==> (required.value != NoApproval <==> ScopeNeedsSomebody(p, scope)))
            && (required.None? ==> !ScopeNeedsAdministrator(p, scope) && !ScopeNeedsSomebody(p, scope))
  {
    PlanDemand(p);
    hide PlanNeedsAdministrator, PlanNeedsSomebody, RequiredApproval, StepNeedsAdministrator, StepNeedsSomebody;
    if scope.Some? {
      FoundIffListed(p.steps, scope.value);
      var found := FindStep(p.steps, scope.value);
      if found.Some? {
        StepDemand(found.value);
        forall s | s in p.steps && s.id == scope.value ensures s == found.value {
          SameIdSameStep(p.steps, s, found.value);
        }
      }
    }
  }

  // ----- what a condition says -----

  /** The condition holds of the context's own fields. */
  predicate Holds(p: PlanSpec, c: Condition, ctx: Context) {
    match c
    case TaskStateIs(state) => ctx.taskState == Some(state)
    case StepHasSucceeded(id) => id in ctx.succeeded
    case ApprovalExists(scope) => exists a :: a in ctx.approvals && Grants(a, p, scope, ctx.now)
    case CapabilityGranted(capability) => exists i :: 0 <= i < |ctx.granted| && ctx.granted[i] == capability
    case CircuitClosed => ctx.circuitClosed
    case BudgetRemainingAtLeast(b) => BudgetCovers(ctx.remaining, b)
    case ArtifactDigestMatches(artifact, sha256) => artifact in ctx.artifacts && ctx.artifacts[artifact] == sha256
    case IdempotencyKeyUnused(keyRef) => !(keyRef in ctx.usedKeys)
    case StateDigestMatches(digest) => ctx.stateDigest == Some(digest)
  }

  predicate BudgetCovers(left: Budget, b: Budget) {
    && b.maxSteps <= left.maxSteps && b.maxToolCalls <= left.maxToolCalls
    && b.maxElapsedMs <= left.maxElapsedMs && b.maxCostMicrounits <= left.maxCostMicrounits
  }

  /** The context lacks what the condition is about. */
  predicate Missing(c: Condition, ctx: Context) {
    match c
    case TaskStateIs(_) => ctx.taskState == None
    case ArtifactDigestMatches(artifact, _) => artifact !in ctx.artifacts
    case StateDigestMatches(_) => ctx.stateDigest == None
    case _ => false
  }

  lemma EvaluationMeans(p: PlanSpec, c: Condition, ctx: Context)
    requires UniqueIds(p.steps)
    ensures Evaluate(p, c, ctx) == Satisfied <==> Holds(p, c, ctx)
    ensures Evaluate(p, c, ctx) == NeedsApproval <==> c.ApprovalExists? && !Holds(p, c, ctx)
    ensures Evaluate(p, c, ctx) == MissingContext <==> Missing(c, ctx)
  {
    hide UniqueIds, Grants, ApprovalValidFor;
    if c.ApprovalExists? {
      ApprovalsMean(p, c.scope, ctx);
    }
  }

  lemma ApprovalsMean(p: PlanSpec, scope: Option<StepId>, ctx: Context)
    requires UniqueIds(p.steps)
    ensures HasApproval(p, scope, ctx) <==> exists a :: a in ctx.approvals && Grants(a, p, scope, ctx.now)
  {
    hide UniqueIds, Grants, ApprovalValidFor;
    forall a ensures ApprovalValidFor(a, p, scope, ctx.now) <==> Grants(a, p, scope, ctx.now) {
      GrantMeans(a, p, scope, ctx.now);
    }
  }

  // ----- what the verifier's verdict says -----

  /** What the context must show about its target. */
  predicate TargetReady(p: PlanSpec, s: PlanStep, ctx: Context) {
    match ctx.phase
    case PreflightPhase => true
    case StepReadyPhase =>
      && (forall d :: d in s.dependsOn ==> d in ctx.succeeded)
      && (forall c :: c in s.preconditions ==> Holds(p, c, ctx))
      && (StepNeedsSomebody(s) ==>
            exists a :: a in ctx.approvals && (Grants(a, p, Some(s.id), ctx.now) || Grants(a, p, None, ctx.now)))
    case PostStepPhase => forall c :: c in s.postconditions ==> Holds(p, c, ctx)
  }

  ghost predicate Ready(p: PlanSpec, ctx: Context) {
    if ctx.phase == PreflightPhase then
      PlanNeedsSomebody(p) ==> exists a :: a in ctx.approvals && Grants(a, p, None, ctx.now)
    else
      ctx.targetStep.Some? && exists s :: s in p.steps && s.id == ctx.targetStep.value && TargetReady(p, s, ctx)
  }

  /** The verdict "valid", for every limit, plan and context: the plan is well-formed, and the phase's
      dependencies, conditions and approvals hold of the context's own fields. */
  lemma ValidMeans(limits: Limits, p: PlanSpec, ctx: Context)
    ensures StatusOf(Take(Violations(limits, p, ctx), Retained(limits))) == Valid <==> WellFormed(limits, p) && Ready(p, ctx)
  {
    ExecutableIffNothingRetained(limits, p, ctx);
    hide Violations, StatusOf, Take, PhaseMet, Ready, ValidStructure, DigestOk, ShapeOk;
    if WellFormed(limits, p) {
      assert UniqueIds(p.steps) by { ValidIsUnique(p); }
      PhaseMeans(p, ctx);
    }
  }

  lemma ValidIsUnique(p: PlanSpec)
    requires ValidStructure(p)
    ensures UniqueIds(p.steps)
  {
  }

  lemma ConditionsMean(p: PlanSpec, conditions: seq<Condition>, ctx: Context)
    requires UniqueIds(p.steps)
    ensures ConditionsMet(p, conditions, ctx) <==> forall c :: c in conditions ==> Holds(p, c, ctx)
  {
    hide UniqueIds, Holds, Evaluate;
    forall c ensures Evaluate(p, c, ctx) == Satisfied <==> Holds(p, c, ctx) {
      EvaluationMeans(p, c, ctx);
    }
  }

  lemma StepApprovedMeans(p: PlanSpec, s: PlanStep, ctx: Context)
    requires UniqueIds(p.steps)
    ensures StepApproved(p, s, ctx) <==>
            (StepNeedsSomebody(s) ==>
               exists a :: a in ctx.approvals && (Grants(a, p, Some(s.id), ctx.now) || Grants(a, p, None, ctx.now)))
  {
    hide UniqueIds, Grants, HasApproval, StepNeedsSomebody;
    StepDemand(s);
    ApprovalsMean(p, Some(s.id), ctx);
    ApprovalsMean(p, None, ctx);
  }

  lemma TargetMeans(p: PlanSpec, s: PlanStep, ctx: Context)
    requires UniqueIds(p.steps) && s in p.steps && ctx.targetStep == Some(s.id) && !ctx.phase.PreflightPhase?
    ensures PhaseMet(p, ctx) <==> TargetReady(p, s, ctx)
  {
    hide Holds, ConditionsMet, StepApproved, StepNeedsSomebody, Grants;
    FoundIffListed(p.steps, s.id);
    var found := FindStep(p.steps, s.id).value;
    SameIdSameStep(p.steps, s, found);
    hide UniqueIds;
    ConditionsMean(p, s.preconditions, ctx);
    ConditionsMean(p, s.postconditions, ctx);
    StepApprovedMeans(p, s, ctx);
  }

  lemma PhaseMeans(p: PlanSpec, ctx: Context)
    requires UniqueIds(p.steps)
    ensures PhaseMet(p, ctx) <==> Ready(p, ctx)
  {
    hide UniqueIds, TargetReady, Grants, PlanNeedsSomebody, ConditionsMet, StepApproved, RequiredApproval, HasApproval;
    if ctx.phase.PreflightPhase? {
      PlanDemand(p);
      ApprovalsMean(p, None, ctx);
    } else if ctx.targetStep.Some? {
      var id := ctx.targetStep.value;
      FoundIffListed(p.steps, id);
      forall s | s in p.steps && s.id == id ensures PhaseMet(p, ctx) <==> TargetReady(p, s, ctx) {
        TargetMeans(p, s, ctx);
      }
    }
  }

  // ----- what each violation says -----

  /** The code reported for a condition that does not hold. */
  function CodeFor(c: Condition, ctx: Context): Code {
    if c.ApprovalExists? then ApprovalRequired else if Missing(c, ctx) then ConditionContextMissing else ConditionUnsatisfied
  }

  /** Exactly the conditions that do not hold are reported, each with its position and its code, in
      order. */
  lemma {:induction false} ViolationsMean(p: PlanSpec, s: PlanStep, conditions: seq<Condition>, ctx: Context, v: Violation)
    requires UniqueIds(p.steps)
    ensures v in ConditionViolations(p, s, conditions, ctx) <==>
            exists i :: 0 <= i < |conditions| && !Holds(p, conditions[i], ctx)
                     && v == Violation(CodeFor(conditions[i], ctx), Some(s.id), Some(i))
  {
    hide UniqueIds, Holds, Missing, Evaluate;
    if conditions != [] {
      var n := |conditions| - 1;
      ViolationsMean(p, s, conditions[..n], ctx, v);
      EvaluationMeans(p, conditions[n], ctx);
      assert forall i :: 0 <= i < n ==> conditions[..n][i] == conditions[i];
    }
  }
}
