/** What the retention limit of the verifier's report can hide: never that a plan is blocked, but
    sometimes that an approval would not unblock it. */
module Truncation {
  import opened Base
  import opened PlanCore
  import opened PlanVerification

  /** The conditions the phase evaluates on the target step. */
  function PhaseConditions(plan: PlanSpec, ctx: Context): seq<Condition> {
    if ctx.phase.PreflightPhase? || ctx.targetStep.None? || FindStep(plan.steps, ctx.targetStep.value).None? then []
    else if ctx.phase.PostStepPhase? then FindStep(plan.steps, ctx.targetStep.value).value.postconditions
    else FindStep(plan.steps, ctx.targetStep.value).value.preconditions
  }

  /** The results of the conditions that are not satisfied, in order. */
  function Unmet(plan: PlanSpec, conditions: seq<Condition>, ctx: Context): (r: seq<ConditionResult>)
    ensures Satisfied !in r
  {
    if conditions == [] then [] else
      var result := Evaluate(plan, conditions[|conditions| - 1], ctx);
      Unmet(plan, conditions[..|conditions| - 1], ctx) + (if result == Satisfied then [] else [result])
  }

  /** The first `n` unmet conditions all wait for an approval, and a later one does not. */
  predicate ApprovalsFirst(unmet: seq<ConditionResult>, n: nat) {
    && n < |unmet|
    && (forall i :: 0 <= i < n ==> unmet[i] == NeedsApproval)
    && exists i :: n <= i < |unmet| && unmet[i] != NeedsApproval
  }

  /** Before a step, all of its dependencies have succeeded. */
  predicate NoDependencyMissing(plan: PlanSpec, ctx: Context) {
    ctx.phase.StepReadyPhase? && ctx.targetStep.Some? && FindStep(plan.steps, ctx.targetStep.value).Some? ==>
      forall d :: d in FindStep(plan.steps, ctx.targetStep.value).value.dependsOn ==> d in ctx.succeeded
  }

  /** What a caller can look at: a well-formed plan, no missing dependency, and among the unmet
      conditions as many approvals in front as the report retains. */
  ghost predicate Softened(limits: Limits, plan: PlanSpec, ctx: Context) {
    && WellFormed(limits, plan)
    && NoDependencyMissing(plan, ctx)
    && ApprovalsFirst(Unmet(plan, PhaseConditions(plan, ctx), ctx), Retained(limits))
  }

  // ----- codes of the violations -----

  predicate AllBlocking(v: seq<Violation>) {
    forall i :: 0 <= i < |v| ==> v[i].code != ApprovalRequired
  }

  lemma {:induction false} ShapesBlock(limits: Limits, plan: PlanSpec, steps: seq<PlanStep>)
    ensures AllBlocking(AllShapeViolations(limits, plan, steps))
  {
    if steps != [] {
      var s := steps[|steps| - 1];
      ShapesBlock(limits, plan, steps[..|steps| - 1]);
      ReferencesBlock(plan, s, s.preconditions + s.postconditions);
    }
  }

  lemma {:induction false} ReferencesBlock(plan: PlanSpec, s: PlanStep, conditions: seq<Condition>)
    ensures AllBlocking(ReferenceViolations(plan, s, conditions))
  {
    if conditions != [] {
      ReferencesBlock(plan, s, conditions[..|conditions| - 1]);
    }
  }

  lemma FormBlocks(limits: Limits, plan: PlanSpec)
    ensures AllBlocking(FormViolations(limits, plan))
  {
    ShapesBlock(limits, plan, plan.steps);
    hide DigestOk, AllShapeViolations;
  }

  lemma {:induction false} DependenciesBlock(s: PlanStep, dependencies: seq<StepId>, ctx: Context)
    ensures AllBlocking(DependencyViolations(s, dependencies, ctx))
  {
    if dependencies != [] {
      DependenciesBlock(s, dependencies[..|dependencies| - 1], ctx);
    }
  }

  /** One violation per unmet condition, with the code of its result. */
  lemma {:induction false} ConditionCodes(plan: PlanSpec, s: PlanStep, conditions: seq<Condition>, ctx: Context)
    ensures var v, u := ConditionViolations(plan, s, conditions, ctx), Unmet(plan, conditions, ctx);
            |v| == |u| && forall i :: 0 <= i < |u| ==> u[i] != Satisfied && v[i].code == ConditionCode(u[i])
  {
    hide Evaluate;
    if conditions != [] {
      ConditionCodes(plan, s, conditions[..|conditions| - 1], ctx);
    }
  }

  // ----- when truncation changes the status -----

  /** A retained blocking violation settles the status. */
  lemma FirstBlocks(v: seq<Violation>, n: nat)
    requires 0 < n && v != [] && v[0].code != ApprovalRequired
    ensures StatusOf(Take(v, n)) == StatusOf(v) == Invalid
  {
    assert Take(v, n)[0] == v[0];
  }

  lemma StatusDiffers(v: seq<Violation>, n: nat)
    requires 0 < n
    ensures StatusOf(Take(v, n)) != StatusOf(v) <==> Blocking(v) && !Blocking(Take(v, n))
    ensures StatusOf(Take(v, n)) != StatusOf(v) ==> StatusOf(Take(v, n)) == RequiresApproval && StatusOf(v) == Invalid
  {
    if Blocking(Take(v, n)) {
      var i :| 0 <= i < |Take(v, n)| && Take(v, n)[i].code != ApprovalRequired;
      assert v[i].code != ApprovalRequired;
    }
  }

  /** Condition violations followed by at most one missing approval. */
  lemma TailOfApprovals(unmet: seq<ConditionResult>, v: seq<Violation>, tail: seq<Violation>, n: nat)
    requires 0 < n && |v| == |unmet| && Satisfied !in unmet
    requires forall i :: 0 <= i < |unmet| ==> unmet[i] != Satisfied && v[i].code == ConditionCode(unmet[i])
    requires forall i :: 0 <= i < |tail| ==> tail[i].code == ApprovalRequired
    ensures Blocking(v + tail) && !Blocking(Take(v + tail, n)) <==> ApprovalsFirst(unmet, n)
  {
    var all := v + tail;
    if ApprovalsFirst(unmet, n) {
      var i :| n <= i < |unmet| && unmet[i] != NeedsApproval;
      assert all[i].code != ApprovalRequired;
      assert forall k :: 0 <= k < n ==> all[k] == v[k];
    }
    if Blocking(all) && !Blocking(Take(all, n)) {
      var i :| 0 <= i < |all| && all[i].code != ApprovalRequired;
      assert i < |v| && all[i] == v[i];
      forall k | 0 <= k < n && k < |all| ensures all[k].code == ApprovalRequired {
        assert Take(all, n)[k] == all[k];
      }
      forall k | 0 <= k < n ensures unmet[k] == NeedsApproval {
        assert Take(all, n)[k] == all[k] == v[k];
      }
      assert unmet[i] != NeedsApproval;
    }
  }

  lemma PhaseSoftens(plan: PlanSpec, ctx: Context, n: nat)
    requires 0 < n
    ensures var v := PhaseViolations(plan, ctx);
            Blocking(v) && !Blocking(Take(v, n)) <==>
              NoDependencyMissing(plan, ctx) && ApprovalsFirst(Unmet(plan, PhaseConditions(plan, ctx), ctx), n)
  {
    hide Unmet, ApprovalsFirst, StepApproved, HasApproval, RequiredApproval;
    NothingUnmet(plan, ctx, n);
    if !ctx.phase.PreflightPhase? && ctx.targetStep.Some? && FindStep(plan.steps, ctx.targetStep.value).Some? {
      TargetSoftens(plan, ctx, FindStep(plan.steps, ctx.targetStep.value).value, n);
    }
  }

  lemma NothingUnmet(plan: PlanSpec, ctx: Context, n: nat)
    ensures !ApprovalsFirst(Unmet(plan, [], ctx), n)
  {
  }

  lemma TargetSoftens(plan: PlanSpec, ctx: Context, s: PlanStep, n: nat)
    requires 0 < n && !ctx.phase.PreflightPhase? && ctx.targetStep.Some?
    requires FindStep(plan.steps, ctx.targetStep.value) == Some(s)
    ensures var v := PhaseViolations(plan, ctx);
            Blocking(v) && !Blocking(Take(v, n)) <==>
              NoDependencyMissing(plan, ctx) && ApprovalsFirst(Unmet(plan, PhaseConditions(plan, ctx), ctx), n)
  {
    hide Unmet, ApprovalsFirst, StepApproved, ConditionViolations, DependencyViolations, Blocking, FindStep;
    var conditions := PhaseConditions(plan, ctx);
    var unmet, v := Unmet(plan, conditions, ctx), ConditionViolations(plan, s, conditions, ctx);
    ConditionCodes(plan, s, conditions, ctx);
    if ctx.phase.PostStepPhase? {
      TailOfApprovals(unmet, v, [], n);
      assert v + [] == v;
    } else {
      var deps := DependencyViolations(s, s.dependsOn, ctx);
      var tail := When(!StepApproved(plan, s, ctx), ApprovalRequired, Some(s.id));
      NoDependencyViolation(s, s.dependsOn, ctx);
      DependenciesBlock(s, s.dependsOn, ctx);
      if deps == [] {
        TailOfApprovals(unmet, v, tail, n);
        assert deps + v + tail == v + tail;
      } else {
        assert (deps + v + tail)[0] == deps[0];
        FirstBlocks(deps + v + tail, n);
        StatusDiffers(deps + v + tail, n);
      }
    }
  }

  /** The status of the truncated report differs from the status of the full list exactly when the plan
      is well-formed, no dependency of the target is missing, and the unmet conditions begin with as
      many missing approvals as the report retains while a later one is no approval. The report then
      says "requires approval" about a plan that is invalid. */
  lemma TruncationSoftensStatus(limits: Limits, plan: PlanSpec, ctx: Context)
    ensures var all := Violations(limits, plan, ctx);
            && (StatusOf(Take(all, Retained(limits))) != StatusOf(all) <==> Softened(limits, plan, ctx))
            && (Softened(limits, plan, ctx) ==> StatusOf(Take(all, Retained(limits))) == RequiresApproval && StatusOf(all) == Invalid)
  {
    hide ValidStructure, FormViolations, PhaseViolations, ApprovalsFirst, Unmet, NoDependencyMissing, PhaseConditions, Blocking;
    var all, n := Violations(limits, plan, ctx), Retained(limits);
    StatusDiffers(all, n);
    FormFree(limits, plan);
    if !ValidStructure(plan) {
      FirstBlocks(all, n);
    } else if FormViolations(limits, plan) != [] {
      FormBlocks(limits, plan);
      FirstBlocks(all, n);
    } else {
      PhaseSoftens(plan, ctx, n);
    }
  }

  lemma FormFree(limits: Limits, plan: PlanSpec)
    ensures WellFormed(limits, plan) <==> ValidStructure(plan) && FormViolations(limits, plan) == []
  {
    hide ValidStructure, DigestOk;
    NoShapeViolation(limits, plan, plan.steps);
  }

  // ----- an instance -----

  function ApprovalThenCircuit(): PlanSpec {
    var s := PlanStep(0, [], ReadOnlyAction("read"), [ApprovalExists(None), CircuitClosed], [], ReadOnlyRisk, NoApproval, 1, None);
    var p := PlanSpec(0, 0, 0, 0, 1, DryRun, ReadOnlyRisk, NoApproval, Budget(1, 0, 1, 0), [s], Text(""), Draft, 0);
    p.(digest := CalculateDigest(p))
  }

  lemma SingleStepIsValid(p: PlanSpec)
    requires |p.steps| == 1 && ValidHeader(p) && ValidStep(p.steps[0])
    requires p.steps[0].dependsOn == [] && p.steps[0].compensation.None?
    ensures ValidStructure(p)
  {
    assert PlanGraph.DependenciesWithin(p.steps, p.steps[0].id, []);
    assert PlanGraph.DependenciesFirst(p.steps, [p.steps[0].id]);
    PlanGraph.OrderedIsAcyclic(p.steps, [p.steps[0].id]);
    hide Acyclic, ValidStep, ValidHeader;
  }

  /** One step that waits for an approval and then for a closed circuit, verified before the step with
      neither: a report that retains one violation says that an approval is required, while none would
      help. */
  lemma SoftenedPlan(limits: Limits, now: int)
    requires limits.maxViolations <= 1 && 1 <= limits.maxSteps && 2 <= limits.maxConditions
    ensures var ctx := Context(StepReadyPhase, Some(0), None, {}, [], false, Budget(0, 0, 0, 0), map[], {}, None, [], now);
            Softened(limits, ApprovalThenCircuit(), ctx)
  {
    var plan := ApprovalThenCircuit();
    var ctx := Context(StepReadyPhase, Some(0), None, {}, [], false, Budget(0, 0, 0, 0), map[], {}, None, [], now);
    var s := plan.steps[0];
    InstanceIsWellFormed(limits);
    hide WellFormed;
    assert FindStep(plan.steps, 0) == Some(s);
    var c := s.preconditions;
    assert c[..1][..0] == [] && c[..2] == c && c[..1] == [c[0]];
    assert Unmet(plan, [], ctx) == [];
    assert Evaluate(plan, c[0], ctx) == NeedsApproval && Evaluate(plan, c[1], ctx) == Unsatisfied;
    assert Unmet(plan, [c[0]], ctx) == [NeedsApproval];
    assert Unmet(plan, c, ctx) == [NeedsApproval, Unsatisfied];
    assert PhaseConditions(plan, ctx) == c;
    assert [NeedsApproval, Unsatisfied][1] != NeedsApproval;
  }

  lemma InstanceIsWellFormed(limits: Limits)
    requires 1 <= limits.maxSteps && 2 <= limits.maxConditions
    ensures WellFormed(limits, ApprovalThenCircuit())
  {
    var plan := ApprovalThenCircuit();
    assert Canonical(plan) == Canonical(plan.(digest := Text("")));
    assert IsPlanKey("read");
    SingleStepIsValid(plan);
    hide ValidStructure, DigestOk;
    assert plan.steps[0].preconditions + plan.steps[0].postconditions == plan.steps[0].preconditions;
  }
}
