/** The bounded plan verifier (crates/shaka-core/src/plan_verifier.rs). */
module PlanVerification {
  import opened Base
  import opened PlanCore
  import PlanGraph

  datatype Phase = PreflightPhase | StepReadyPhase | PostStepPhase

  datatype Context = Context(
    phase: Phase, targetStep: Option<StepId>, taskState: Option<PlanTaskState>,
    succeeded: set<StepId>, granted: seq<Capability>, circuitClosed: bool, remaining: Budget,
    artifacts: map<string, string>, usedKeys: set<string>, stateDigest: Option<Digest>,
    approvals: seq<Approval>, now: int)

  datatype Code =
    | StructureInvalid | DigestInvalid | PlanStateInvalid | LimitExceeded | MissingReference
    | DependencyNotSatisfied | ConditionContextMissing | ConditionUnsatisfied | ApprovalRequired

  datatype Violation = Violation(code: Code, stepId: Option<StepId>, conditionIndex: Option<nat>)

  datatype Status = Valid | RequiresApproval | Invalid

  datatype Limits = Limits(maxSteps: nat, maxDependencies: nat, maxConditions: nat, maxViolations: nat)

  const DEFAULT_LIMITS := Limits(128, 32, 64, 64)

  datatype ConditionResult = Satisfied | NeedsApproval | MissingContext | Unsatisfied

  predicate HasApproval(plan: PlanSpec, scope: Option<StepId>, ctx: Context) {
    exists a :: a in ctx.approvals && ApprovalValidFor(a, plan, scope, ctx.now)
  }

  predicate BudgetAtLeast(available: Budget, required: Budget) {
    && available.maxSteps >= required.maxSteps
    && available.maxToolCalls >= required.maxToolCalls
    && available.maxElapsedMs >= required.maxElapsedMs
    && available.maxCostMicrounits >= required.maxCostMicrounits
  }

  function Compare<T(==)>(actual: Option<T>, expected: T): ConditionResult {
    if actual.None? then MissingContext
    else if actual.value == expected then Satisfied else Unsatisfied
  }

  function Check(holds: bool): ConditionResult {
    if holds then Satisfied else Unsatisfied
  }

  /** `evaluate_condition`. */
  function Evaluate(plan: PlanSpec, condition: Condition, ctx: Context): ConditionResult {
    match condition
    case TaskStateIs(state) => Compare(ctx.taskState, state)
    case StepHasSucceeded(id) => Check(id in ctx.succeeded)
    case ApprovalExists(scope) => if HasApproval(plan, scope, ctx) then Satisfied else NeedsApproval
    case CapabilityGranted(capability) => Check(capability in ctx.granted)
    case CircuitClosed => Check(ctx.circuitClosed)
    case BudgetRemainingAtLeast(budget) => Check(BudgetAtLeast(ctx.remaining, budget))
    case ArtifactDigestMatches(artifact, sha256) =>
      Compare(if artifact in ctx.artifacts then Some(ctx.artifacts[artifact]) else None, sha256)
    case IdempotencyKeyUnused(keyRef) => Check(keyRef !in ctx.usedKeys)
    case StateDigestMatches(digest) => Compare(ctx.stateDigest, digest)
  }

  // ----- the declarative meaning of "executable" -----

  function ReferencedStep(c: Condition): Option<StepId> {
    match c
    case StepHasSucceeded(id) => Some(id)
    case ApprovalExists(scope) => scope
    case _ => None
  }

  predicate ReferenceResolves(plan: PlanSpec, c: Condition) {
    ReferencedStep(c).Some? ==> FindStep(plan.steps, ReferencedStep(c).value).Some?
  }

  predicate ShapeOk(limits: Limits, plan: PlanSpec, s: PlanStep) {
    && |s.dependsOn| <= limits.maxDependencies
    && |s.preconditions| <= limits.maxConditions
    && |s.postconditions| <= limits.maxConditions
    && forall c :: c in s.preconditions + s.postconditions ==> ReferenceResolves(plan, c)
  }

  ghost predicate WellFormed(limits: Limits, plan: PlanSpec) {
    && ValidStructure(plan)
    && DigestOk(plan)
    && |plan.steps| <= limits.maxSteps
    && (forall s :: s in plan.steps ==> ShapeOk(limits, plan, s))
    && !plan.state.IsTerminal()
  }

  predicate StepApproved(plan: PlanSpec, s: PlanStep, ctx: Context) {
    || s.RequiredApproval() == NoApproval
    || HasApproval(plan, Some(s.id), ctx)
    || HasApproval(plan, None, ctx)
  }

  predicate ConditionsMet(plan: PlanSpec, conditions: seq<Condition>, ctx: Context) {
    forall c :: c in conditions ==> Evaluate(plan, c, ctx) == Satisfied
  }

  predicate PhaseMet(plan: PlanSpec, ctx: Context) {
    match ctx.phase
    case PreflightPhase => RequiredApproval(plan) == NoApproval || HasApproval(plan, None, ctx)
    case StepReadyPhase =>
      ctx.targetStep.Some? && FindStep(plan.steps, ctx.targetStep.value).Some? &&
      var s := FindStep(plan.steps, ctx.targetStep.value).value;
      && (forall d :: d in s.dependsOn ==> d in ctx.succeeded)
      && ConditionsMet(plan, s.preconditions, ctx)
      && StepApproved(plan, s, ctx)
    case PostStepPhase =>
      ctx.targetStep.Some? && FindStep(plan.steps, ctx.targetStep.value).Some? &&
      ConditionsMet(plan, FindStep(plan.steps, ctx.targetStep.value).value.postconditions, ctx)
  }

  /** No barrier at all. */
  ghost predicate Executable(limits: Limits, plan: PlanSpec, ctx: Context) {
    WellFormed(limits, plan) && PhaseMet(plan, ctx)
  }

  // ----- the untruncated list of violations, in the order the verifier meets them -----

  function When(present: bool, code: Code, id: Option<StepId>): seq<Violation> {
    if present then [Violation(code, id, None)] else []
  }

  function ReferenceViolations(plan: PlanSpec, s: PlanStep, conditions: seq<Condition>): seq<Violation> {
    if conditions == [] then [] else
      var n := |conditions| - 1;
      ReferenceViolations(plan, s, conditions[..n])
      + if ReferenceResolves(plan, conditions[n]) then []
        else [Violation(MissingReference, Some(s.id), Some(n))]
  }

  lemma NoReferenceViolations(plan: PlanSpec, s: PlanStep, conditions: seq<Condition>)
    requires conditions == []
    ensures ReferenceViolations(plan, s, conditions) == []
  {
  }

  lemma OneReferenceMore(plan: PlanSpec, s: PlanStep, conditions: seq<Condition>, i: nat)
    requires i < |conditions|
    ensures ReferenceViolations(plan, s, conditions[..i + 1])
         == ReferenceViolations(plan, s, conditions[..i])
            + if ReferenceResolves(plan, conditions[i]) then [] else [Violation(MissingReference, Some(s.id), Some(i))]
  {
    assert conditions[..i + 1][..i] == conditions[..i];
  }

  function ShapeViolations(limits: Limits, plan: PlanSpec, s: PlanStep): seq<Violation> {
    When(|s.dependsOn| > limits.maxDependencies, LimitExceeded, Some(s.id))
    + When(|s.preconditions| > limits.maxConditions || |s.postconditions| > limits.maxConditions,
           LimitExceeded, Some(s.id))
    + ReferenceViolations(plan, s, s.preconditions + s.postconditions)
  }

  function AllShapeViolations(limits: Limits, plan: PlanSpec, steps: seq<PlanStep>): seq<Violation> {
    if steps == [] then [] else
      AllShapeViolations(limits, plan, steps[..|steps| - 1])
      + ShapeViolations(limits, plan, steps[|steps| - 1])
  }

  function FormViolations(limits: Limits, plan: PlanSpec): seq<Violation> {
    When(!DigestOk(plan), DigestInvalid, None)
    + When(|plan.steps| > limits.maxSteps, LimitExceeded, None)
    + AllShapeViolations(limits, plan, plan.steps)
    + When(plan.state.IsTerminal(), PlanStateInvalid, None)
  }

  function DependencyViolations(s: PlanStep, dependencies: seq<StepId>, ctx: Context): seq<Violation> {
    if dependencies == [] then [] else
      var n := |dependencies| - 1;
      DependencyViolations(s, dependencies[..n], ctx)
      + When(dependencies[n] !in ctx.succeeded, DependencyNotSatisfied, Some(s.id))
  }

  function ConditionCode(r: ConditionResult): Code
    requires r != Satisfied
  {
    match r
    case NeedsApproval => ApprovalRequired
    case MissingContext => ConditionContextMissing
    case Unsatisfied => ConditionUnsatisfied
  }

  function ConditionViolations(plan: PlanSpec, s: PlanStep, conditions: seq<Condition>, ctx: Context): seq<Violation> {
    if conditions == [] then [] else
      var n := |conditions| - 1;
      var r := Evaluate(plan, conditions[n], ctx);
      ConditionViolations(plan, s, conditions[..n], ctx)
      + if r == Satisfied then [] else [Violation(ConditionCode(r), Some(s.id), Some(n))]
  }

  function PhaseViolations(plan: PlanSpec, ctx: Context): seq<Violation> {
    match ctx.phase
    case PreflightPhase =>
      When(RequiredApproval(plan) != NoApproval && !HasApproval(plan, None, ctx), ApprovalRequired, None)
    case _ =>
      if ctx.targetStep.None? then [Violation(MissingReference, None, None)]
      else if FindStep(plan.steps, ctx.targetStep.value).None?
        then [Violation(MissingReference, ctx.targetStep, None)]
      else
        var s := FindStep(plan.steps, ctx.targetStep.value).value;
        if ctx.phase.PostStepPhase? then ConditionViolations(plan, s, s.postconditions, ctx)
        else
          DependencyViolations(s, s.dependsOn, ctx)
          + ConditionViolations(plan, s, s.preconditions, ctx)
          + When(!StepApproved(plan, s, ctx), ApprovalRequired, Some(s.id))
  }

  ghost function Violations(limits: Limits, plan: PlanSpec, ctx: Context): seq<Violation> {
    if !ValidStructure(plan) then [Violation(StructureInvalid, None, None)]
    else if FormViolations(limits, plan) != [] then FormViolations(limits, plan)
    else PhaseViolations(plan, ctx)
  }

  predicate Blocking(v: seq<Violation>) {
    exists i :: 0 <= i < |v| && v[i].code != ApprovalRequired
  }

  /** The status the verifier derives from the violations it kept. */
  function StatusOf(v: seq<Violation>): Status {
    if Blocking(v) then Invalid else if v != [] then RequiresApproval else Valid
  }

  function Retained(limits: Limits): nat {
    if limits.maxViolations == 0 then 1 else limits.maxViolations
  }

  function Take(v: seq<Violation>, n: nat): seq<Violation> {
    if |v| <= n then v else v[..n]
  }

  // ----- the list is empty exactly when the plan is executable -----

  lemma {:induction false} NoReferenceViolation(plan: PlanSpec, s: PlanStep, conditions: seq<Condition>)
    ensures ReferenceViolations(plan, s, conditions) == []
        <==> forall c :: c in conditions ==> ReferenceResolves(plan, c)
  {
    if conditions != [] {
      var n := |conditions| - 1;
      NoReferenceViolation(plan, s, conditions[..n]);
      assert conditions == conditions[..n] + [conditions[n]];
    }
  }

  lemma ShapeViolationFree(limits: Limits, plan: PlanSpec, s: PlanStep)
    ensures ShapeViolations(limits, plan, s) == [] <==> ShapeOk(limits, plan, s)
  {
    NoReferenceViolation(plan, s, s.preconditions + s.postconditions);
  }

  lemma {:induction false} NoShapeViolation(limits: Limits, plan: PlanSpec, steps: seq<PlanStep>)
    ensures AllShapeViolations(limits, plan, steps) == []
        <==> forall s :: s in steps ==> ShapeOk(limits, plan, s)
  {
    hide ShapeOk, ShapeViolations;
    if steps != [] {
      var n := |steps| - 1;
      NoShapeViolation(limits, plan, steps[..n]);
      ShapeViolationFree(limits, plan, steps[n]);
      assert steps == steps[..n] + [steps[n]];
    }
  }

  lemma {:induction false} NoDependencyViolation(s: PlanStep, dependencies: seq<StepId>, ctx: Context)
    ensures DependencyViolations(s, dependencies, ctx) == []
        <==> forall d :: d in dependencies ==> d in ctx.succeeded
  {
    if dependencies != [] {
      var n := |dependencies| - 1;
      NoDependencyViolation(s, dependencies[..n], ctx);
      assert dependencies == dependencies[..n] + [dependencies[n]];
    }
  }

  lemma {:induction false} NoConditionViolation(plan: PlanSpec, s: PlanStep, conditions: seq<Condition>, ctx: Context)
    ensures ConditionViolations(plan, s, conditions, ctx) == [] <==> ConditionsMet(plan, conditions, ctx)
  {
    if conditions != [] {
      var n := |conditions| - 1;
      NoConditionViolation(plan, s, conditions[..n], ctx);
      assert conditions == conditions[..n] + [conditions[n]];
    }
  }

  lemma NoPhaseViolation(plan: PlanSpec, ctx: Context)
    ensures PhaseViolations(plan, ctx) == [] <==> PhaseMet(plan, ctx)
  {
    if !ctx.phase.PreflightPhase? && ctx.targetStep.Some? && FindStep(plan.steps, ctx.targetStep.value).Some? {
      var s := FindStep(plan.steps, ctx.targetStep.value).value;
      NoDependencyViolation(s, s.dependsOn, ctx);
      NoConditionViolation(plan, s, s.preconditions, ctx);
      NoConditionViolation(plan, s, s.postconditions, ctx);
    }
  }

  /** Truncation never hides the only barrier, whatever the retention limit. */
  lemma ExecutableIffNothingRetained(limits: Limits, plan: PlanSpec, ctx: Context)
    ensures StatusOf(Take(Violations(limits, plan, ctx), Retained(limits))) == Valid
        <==> Executable(limits, plan, ctx)
  {
    NoShapeViolation(limits, plan, plan.steps);
    NoPhaseViolation(plan, ctx);
    var all := Violations(limits, plan, ctx);
    assert all == [] <==> Executable(limits, plan, ctx);
    assert Take(all, Retained(limits)) == [] <==> all == [];
  }

  // ----- monotonicity -----

  /** `b` knows at least as much in favour of the step as `a`. */
  predicate AtLeastAsPermissive(a: Context, b: Context) {
    && a.phase == b.phase && a.targetStep == b.targetStep && a.taskState == b.taskState
    && a.artifacts == b.artifacts && a.stateDigest == b.stateDigest && a.now == b.now
    && a.succeeded <= b.succeeded
    && (forall c :: c in a.granted ==> c in b.granted)
    && (a.circuitClosed ==> b.circuitClosed)
    && BudgetAtLeast(b.remaining, a.remaining)
    && b.usedKeys <= a.usedKeys
    && (forall p :: p in a.approvals ==> p in b.approvals)
  }

  lemma EvaluateMonotone(plan: PlanSpec, condition: Condition, a: Context, b: Context)
    requires AtLeastAsPermissive(a, b) && Evaluate(plan, condition, a) == Satisfied
    ensures Evaluate(plan, condition, b) == Satisfied
  {
    if condition.ApprovalExists? {
      ApprovalMonotone(plan, condition.scope, a, b);
    }
  }

  lemma ApprovalMonotone(plan: PlanSpec, scope: Option<StepId>, a: Context, b: Context)
    requires AtLeastAsPermissive(a, b) && HasApproval(plan, scope, a)
    ensures HasApproval(plan, scope, b)
  {
    var p :| p in a.approvals && ApprovalValidFor(p, plan, scope, a.now);
    assert p in b.approvals && ApprovalValidFor(p, plan, scope, b.now);
  }

  lemma ConditionsMonotone(plan: PlanSpec, conditions: seq<Condition>, a: Context, b: Context)
    requires AtLeastAsPermissive(a, b) && ConditionsMet(plan, conditions, a)
    ensures ConditionsMet(plan, conditions, b)
  {
    forall c | c in conditions ensures Evaluate(plan, c, b) == Satisfied {
      EvaluateMonotone(plan, c, a, b);
    }
  }

  /** More succeeded steps, capabilities, approvals or budget, or a closed circuit, never turn an
      executable plan into a blocked one. */
  lemma ExecutableMonotone(limits: Limits, plan: PlanSpec, a: Context, b: Context)
    requires AtLeastAsPermissive(a, b) && Executable(limits, plan, a)
    ensures Executable(limits, plan, b)
  {
    if HasApproval(plan, None, a) { ApprovalMonotone(plan, None, a, b); }
    if a.targetStep.Some? && HasApproval(plan, a.targetStep, a) { ApprovalMonotone(plan, a.targetStep, a, b); }
    if !a.phase.PreflightPhase? {
      var s := FindStep(plan.steps, a.targetStep.value).value;
      if a.phase.PostStepPhase? {
        ConditionsMonotone(plan, s.postconditions, a, b);
      } else {
        ConditionsMonotone(plan, s.preconditions, a, b);
      }
    }
  }

  // ----- the verifier itself -----

  class Report {
    const limit: nat
    var status: Status
    var violations: seq<Violation>
    /** Everything pushed so far, kept or not. */
    ghost var pushed: seq<Violation>

    ghost predicate Ok()
      reads this
    {
      violations == Take(pushed, limit) && limit > 0
    }

    constructor (limits: Limits)
      ensures Ok() && pushed == [] && status == Valid && limit == Retained(limits)
    {
      limit := Retained(limits);
      status, violations, pushed := Valid, [], [];
    }

    method Push(v: Violation)
      requires Ok()
      modifies this
      ensures Ok() && pushed == old(pushed) + [v] && status == old(status)
    {
      if |violations| < limit {
        violations := violations + [v];
      }
      pushed := pushed + [v];
    }

    method PushWhen(present: bool, code: Code, id: Option<StepId>)
      requires Ok()
      modifies this
      ensures Ok() && pushed == old(pushed) + When(present, code, id) && status == old(status)
    {
      if present {
        Push(Violation(code, id, None));
      }
    }

    method VerifyStepShape(limits: Limits, plan: PlanSpec, s: PlanStep)
      requires Ok()
      modifies this
      ensures Ok() && status == old(status)
      ensures pushed == old(pushed) + ShapeViolations(limits, plan, s)
    {
      hide Take, ReferenceResolves, ReferenceViolations;
      PushWhen(|s.dependsOn| > limits.maxDependencies, LimitExceeded, Some(s.id));
      PushWhen(|s.preconditions| > limits.maxConditions || |s.postconditions| > limits.maxConditions,
               LimitExceeded, Some(s.id));
      var conditions := s.preconditions + s.postconditions;
      ghost var before := pushed;
      NoReferenceViolations(plan, s, conditions[..0]);
      for i := 0 to |conditions|
        invariant Ok() && status == old(status)
        invariant pushed == before + ReferenceViolations(plan, s, conditions[..i])
      {
        OneReferenceMore(plan, s, conditions, i);
        if !ReferenceResolves(plan, conditions[i]) {
          Push(Violation(MissingReference, Some(s.id), Some(i)));
        }
      }
      assert conditions[..|conditions|] == conditions;
    }

    method VerifyForm(limits: Limits, plan: PlanSpec)
      requires Ok() && pushed == []
      modifies this
      ensures Ok() && status == old(status)
      ensures pushed == FormViolations(limits, plan)
    {
      hide DigestOk, ShapeViolations, Take;
      PushWhen(!DigestOk(plan), DigestInvalid, None);
      PushWhen(|plan.steps| > limits.maxSteps, LimitExceeded, None);
      ghost var before := pushed;
      for i := 0 to |plan.steps|
        invariant Ok() && status == old(status)
        invariant pushed == before + AllShapeViolations(limits, plan, plan.steps[..i])
      {
        assert plan.steps[..i + 1][..i] == plan.steps[..i];
        VerifyStepShape(limits, plan, plan.steps[i]);
      }
      assert plan.steps[..|plan.steps|] == plan.steps;
      PushWhen(plan.state.IsTerminal(), PlanStateInvalid, None);
    }

    method VerifyDependencies(s: PlanStep, ctx: Context)
      requires Ok()
      modifies this
      ensures Ok() && status == old(status)
      ensures pushed == old(pushed) + DependencyViolations(s, s.dependsOn, ctx)
    {
      for i := 0 to |s.dependsOn|
        invariant Ok() && status == old(status)
        invariant pushed == old(pushed) + DependencyViolations(s, s.dependsOn[..i], ctx)
      {
        assert s.dependsOn[..i + 1][..i] == s.dependsOn[..i];
        PushWhen(s.dependsOn[i] !in ctx.succeeded, DependencyNotSatisfied, Some(s.id));
      }
      assert s.dependsOn[..|s.dependsOn|] == s.dependsOn;
    }

    method VerifyConditions(plan: PlanSpec, s: PlanStep, conditions: seq<Condition>, ctx: Context)
      requires Ok()
      modifies this
      ensures Ok() && status == old(status)
      ensures pushed == old(pushed) + ConditionViolations(plan, s, conditions, ctx)
    {
      for i := 0 to |conditions|
        invariant Ok() && status == old(status)
        invariant pushed == old(pushed) + ConditionViolations(plan, s, conditions[..i], ctx)
      {
        assert conditions[..i + 1][..i] == conditions[..i];
        var r := Evaluate(plan, conditions[i], ctx);
        if r != Satisfied {
          Push(Violation(ConditionCode(r), Some(s.id), Some(i)));
        }
      }
      assert conditions[..|conditions|] == conditions;
    }

    method VerifyPhase(plan: PlanSpec, ctx: Context)
      requires Ok() && pushed == []
      modifies this
      ensures Ok() && status == old(status)
      ensures pushed == PhaseViolations(plan, ctx)
    {
      if ctx.phase.PreflightPhase? {
        PushWhen(RequiredApproval(plan) != NoApproval && !HasApproval(plan, None, ctx), ApprovalRequired, None);
        return;
      }
      if ctx.targetStep.None? {
        Push(Violation(MissingReference, None, None));
        return;
      }
      var found := FindStep(plan.steps, ctx.targetStep.value);
      if found.None? {
        Push(Violation(MissingReference, ctx.targetStep, None));
      } else if ctx.phase.PostStepPhase? {
        VerifyConditions(plan, found.value, found.value.postconditions, ctx);
      } else {
        VerifyDependencies(found.value, ctx);
        VerifyConditions(plan, found.value, found.value.preconditions, ctx);
        PushWhen(!StepApproved(plan, found.value, ctx), ApprovalRequired, Some(found.value.id));
      }
    }
  }

  method ValidateStructure(plan: PlanSpec) returns (ok: bool)
    ensures ok <==> ValidStructure(plan)
  {
    if !ValidHeader(plan) || !UniqueIds(plan.steps) {
      return false;
    }
    for i := 0 to |plan.steps|
      invariant forall j :: 0 <= j < i ==> ValidStep(plan.steps[j])
    {
      if !ValidStep(plan.steps[i]) {
        return false;
      }
    }
    if !ReferencesKnown(plan.steps) {
      return false;
    }
    ok := PlanGraph.EnsureAcyclic(plan.steps);
  }

  /** `PlanVerifier::verify`: the report keeps a prefix of the violations, derives its status from
      that prefix, and is executable exactly when nothing blocks the plan. */
  method Verify(limits: Limits, plan: PlanSpec, ctx: Context) returns (report: Report)
    ensures fresh(report)
    ensures report.violations == Take(Violations(limits, plan, ctx), Retained(limits))
    ensures report.status == StatusOf(report.violations)
    ensures report.status == Valid <==> Executable(limits, plan, ctx)
  {
    report := new Report(limits);
    var structured := ValidateStructure(plan);
    if !structured {
      report.Push(Violation(StructureInvalid, None, None));
    } else {
      report.VerifyForm(limits, plan);
      NoShapeViolation(limits, plan, plan.steps);
      if report.violations == [] {
        report.VerifyPhase(plan, ctx);
      }
    }
    report.status := StatusOf(report.violations);
    ExecutableIffNothingRetained(limits, plan, ctx);
  }
}
