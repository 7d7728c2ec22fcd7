/** Conditions of a plan's steps, said of the rows a claim or a finish finds. */
module RowConditions {
  import opened Base
  import opened PlanCore
  import opened PlanVerification
  import opened TransitionLog
  import opened Journal
  import opened PlanTransactions
  import opened PlanInvariants
  import opened Conditions

  /** The condition names a step. */
  predicate Names(c: Condition, id: StepId) {
    c == StepHasSucceeded(id) || c == ApprovalExists(Some(id))
  }

  ghost predicate NamesSteps(p: PlanSpec, conditions: seq<Condition>) {
    forall c, id :: c in conditions && Names(c, id) ==> id in Ids(p.steps)
  }

  /** The sizes the engine accepts, and conditions that name only steps of the plan. */
  ghost predicate WithinLimits(p: PlanSpec) {
    && |p.steps| <= 128
    && forall s :: s in p.steps ==>
         && |s.dependsOn| <= 32 && |s.preconditions| <= 64 && |s.postconditions| <= 64
         && NamesSteps(p, s.preconditions) && NamesSteps(p, s.postconditions)
  }

  /** A stored approval stands for the plan and scope. */
  predicate Approves(rec: PlanRec, scope: Option<StepId>, now: int) {
    exists k :: 0 <= k < |rec.approvals| && Grants(rec.approvals[k].approval, rec.spec, scope, now)
  }

  /** The condition holds of the rows: of the steps that have succeeded, the finishing one included, of
      the task's capabilities, of what is left of the budget, and of the stored approvals. Artifacts are
      never supplied to a step, and no key counts as used. */
  predicate Met(rec: PlanRec, task: TaskRow, finishing: Option<StepId>, c: Condition, ctx: ClaimContext, now: int) {
    match c
    case TaskStateIs(state) => state == if finishing.Some? then TaskSucceeded else TaskRunning
    case StepHasSucceeded(id) => Some(id) == finishing || (id in rec.steps && rec.steps[id] == StepSucceeded)
    case ApprovalExists(scope) => Approves(rec, scope, now)
    case CapabilityGranted(capability) => capability in task.capabilities
    case CircuitClosed => ctx.circuitClosed
    case BudgetRemainingAtLeast(b) => BudgetCovers(if ctx.remaining.Some? then ctx.remaining.value else task.budget, b)
    case ArtifactDigestMatches(_, _) => false
    case IdempotencyKeyUnused(_) => true
    case StateDigestMatches(digest) => ctx.stateDigest == Some(digest)
  }

  // ----- the plan as it is -----

  lemma ReferencesMean(p: PlanSpec, c: Condition)
    ensures ReferenceResolves(p, c) <==> forall id :: Names(c, id) ==> id in Ids(p.steps)
  {
    if ReferencedStep(c).Some? {
      var id := ReferencedStep(c).value;
      assert Names(c, id);
      FoundIffListed(p.steps, id);
    }
  }

  lemma ShapeMeans(p: PlanSpec, s: PlanStep)
    ensures ShapeOk(DEFAULT_LIMITS, p, s) <==>
         && |s.dependsOn| <= 32 && |s.preconditions| <= 64 && |s.postconditions| <= 64
         && NamesSteps(p, s.preconditions) && NamesSteps(p, s.postconditions)
  {
    hide Names, Ids, ReferenceResolves;
    forall c ensures ReferenceResolves(p, c) <==> forall id :: Names(c, id) ==> id in Ids(p.steps) {
      ReferencesMean(p, c);
    }
    var all := s.preconditions + s.postconditions;
    assert forall c :: c in all <==> c in s.preconditions || c in s.postconditions;
    if ShapeOk(DEFAULT_LIMITS, p, s) {
      forall c | c in s.preconditions || c in s.postconditions ensures ReferenceResolves(p, c) { assert c in all; }
    }
  }

  lemma LimitsMean(p: PlanSpec)
    ensures WithinLimits(p) <==> |p.steps| <= 128 && forall s :: s in p.steps ==> ShapeOk(DEFAULT_LIMITS, p, s)
  {
    hide NamesSteps, ShapeOk;
    forall s | s in p.steps
      ensures ShapeOk(DEFAULT_LIMITS, p, s) <==>
         && |s.dependsOn| <= 32 && |s.preconditions| <= 64 && |s.postconditions| <= 64
         && NamesSteps(p, s.preconditions) && NamesSteps(p, s.postconditions)
    {
      ShapeMeans(p, s);
    }
  }

  lemma SameShapes(rec: PlanRec)
    ensures WithinLimits(Loaded(rec)) <==> WithinLimits(rec.spec)
    ensures ValidStructure(Loaded(rec)) <==> ValidStructure(rec.spec)
    ensures DigestOk(Loaded(rec)) <==> DigestOk(rec.spec)
  {
    assert Canonical(Loaded(rec)) == Canonical(rec.spec);
    assert ValidHeader(Loaded(rec)) == ValidHeader(rec.spec);
  }

  lemma FormMeans(rec: PlanRec)
    requires RecOk(rec)
    ensures WellFormed(DEFAULT_LIMITS, Loaded(rec)) <==> WithinLimits(rec.spec) && !rec.state.IsTerminal()
    ensures UniqueIds(rec.spec.steps)
  {
    hide ShapeOk, WithinLimits, Journaled, AttemptsOk, CheckpointsOk;
    LimitsMean(Loaded(rec));
    SameShapes(rec);
    hide DigestOk;
  }

  // ----- approvals -----

  /** Revoked approvals are not loaded, and grant nothing. */
  lemma {:induction false} LoadedMeans(stored: seq<StoredApproval>, p: PlanSpec, scope: Option<StepId>, now: int)
    ensures (exists a :: a in LoadApprovals(stored) && Grants(a, p, scope, now))
       <==> exists k :: 0 <= k < |stored| && Grants(stored[k].approval, p, scope, now)
  {
    if stored != [] {
      var n := |stored| - 1;
      LoadedMeans(stored[..n], p, scope, now);
      RevokedGrantsNothing(stored[n].approval, p, scope, now);
      hide Grants;
      assert forall k :: 0 <= k < n ==> stored[..n][k] == stored[k];
    }
  }

  lemma RevokedGrantsNothing(a: Approval, p: PlanSpec, scope: Option<StepId>, now: int)
    ensures Grants(a, p, scope, now) ==> !a.revoked
  {
  }

  lemma SameGrants(rec: PlanRec, a: Approval, scope: Option<StepId>, now: int)
    ensures Grants(a, Loaded(rec), scope, now) <==> Grants(a, rec.spec, scope, now)
  {
    SameDemands(rec, scope);
    hide ScopeNeedsAdministrator, ScopeNeedsSomebody;
  }

  lemma SameDemands(rec: PlanRec, scope: Option<StepId>)
    ensures ScopeNeedsAdministrator(Loaded(rec), scope) == ScopeNeedsAdministrator(rec.spec, scope)
    ensures ScopeNeedsSomebody(Loaded(rec), scope) == ScopeNeedsSomebody(rec.spec, scope)
    ensures PlanNeedsSomebody(Loaded(rec)) == PlanNeedsSomebody(rec.spec)
  {
    hide StepNeedsAdministrator, StepNeedsSomebody;
  }

  lemma ApprovesMeans(rec: PlanRec, scope: Option<StepId>, now: int)
    ensures Approves(rec, scope, now) <==> exists a :: a in LoadApprovals(rec.approvals) && Grants(a, Loaded(rec), scope, now)
  {
    hide Grants, LoadApprovals;
    LoadedMeans(rec.approvals, rec.spec, scope, now);
    forall a ensures Grants(a, Loaded(rec), scope, now) <==> Grants(a, rec.spec, scope, now) {
      SameGrants(rec, a, scope, now);
    }
  }

  // ----- conditions -----

  lemma MetAtFinish(rec: PlanRec, task: TaskRow, id: StepId, c: Condition, ctx: ClaimContext, now: int)
    ensures Holds(Loaded(rec), c, PostStepContext(rec, task, id, ctx, now)) <==> Met(rec, task, Some(id), c, ctx, now)
  {
    hide Grants, LoadApprovals, Approves;
    if c.ApprovalExists? {
      ApprovesMeans(rec, c.scope, now);
    }
  }

  lemma MetAtClaim(rec: PlanRec, task: TaskRow, id: StepId, c: Condition, ctx: ClaimContext, now: int)
    requires ctx.granted == task.capabilities
    ensures Holds(Loaded(rec), c, StepReadyContext(rec, task, ctx, id, now)) <==> Met(rec, task, None, c, ctx, now)
  {
    hide Grants, LoadApprovals, Approves;
    if c.ApprovalExists? {
      ApprovesMeans(rec, c.scope, now);
    }
  }

  ghost predicate Passes(rec: PlanRec, task: TaskRow, id: StepId, ctx: ClaimContext, now: int) {
    WithinLimits(rec.spec) && forall s, c :: s in rec.spec.steps && s.id == id && c in s.postconditions ==>
      Met(rec, task, Some(id), c, ctx, now)
  }

  /** The check after a step: its plan is within the limits, and every declared postcondition holds. */
  lemma PostStepMeans(rec: PlanRec, task: TaskRow, id: StepId, ctx: ClaimContext, now: int)
    requires RecOk(rec) && id in Ids(rec.spec.steps) && !rec.state.IsTerminal()
    ensures PostStepOk(rec, task, id, ctx, now) <==> Passes(rec, task, id, ctx, now)
  {
    hide RecOk, WellFormed, WithinLimits, Holds, Met, PhaseMet, PostStepContext, UniqueIds, StepNeedsSomebody, Grants;
    FormMeans(rec);
    var p, context := Loaded(rec), PostStepContext(rec, task, id, ctx, now);
    ContextOfFinish(rec, task, id, ctx, now);
    PhaseMeans(p, context);
    forall c ensures Holds(p, c, context) <==> Met(rec, task, Some(id), c, ctx, now) {
      MetAtFinish(rec, task, id, c, ctx, now);
    }
    var s :| s in rec.spec.steps && s.id == id;
    forall o | o in rec.spec.steps && o.id == id ensures o == s {
      SameIdSameStep(rec.spec.steps, s, o);
    }
  }

  lemma ContextOfFinish(rec: PlanRec, task: TaskRow, id: StepId, ctx: ClaimContext, now: int)
    ensures var context := PostStepContext(rec, task, id, ctx, now);
            context.phase == PostStepPhase && context.targetStep == Some(id)
  {
  }

  /** The check before admission and before every claim. */
  lemma PreflightMeans(rec: PlanRec, now: int)
    requires RecOk(rec)
    ensures PreflightOk(rec, now) <==>
         && WithinLimits(rec.spec) && !rec.state.IsTerminal()
         && (PlanNeedsSomebody(rec.spec) ==> Approves(rec, None, now))
  {
    FormMeans(rec);
    hide RecOk, WellFormed, WithinLimits, PhaseMet, UniqueIds, Grants, Approves, LoadApprovals;
    PhaseMeans(Loaded(rec), PreflightContext(rec, now));
    SameDemands(rec, None);
    hide PlanNeedsSomebody;
    ApprovesMeans(rec, None, now);
  }

  // ----- what a claim finds -----

  /** The step waits, a compensating plan wants it, its dependencies have succeeded, its preconditions
      hold, and it is approved if it must be. */
  ghost predicate MayStart(rec: PlanRec, task: TaskRow, s: PlanStep, ctx: ClaimContext, now: int) {
    && s.id in rec.steps && (rec.steps[s.id] == StepPending || rec.steps[s.id] == StepReady)
    && (rec.state == Compensating ==>
          exists o :: o in rec.spec.steps && o.compensation == Some(s.id) && o.id in rec.steps && rec.steps[o.id] == StepCompensating)
    && (forall d :: d in s.dependsOn ==> d in rec.steps && rec.steps[d] == StepSucceeded)
    && (forall c :: c in s.preconditions ==> Met(rec, task, None, c, ctx, now))
    && (StepNeedsSomebody(s) ==> Approves(rec, Some(s.id), now) || Approves(rec, None, now))
  }

  lemma ClaimableMeans(rec: PlanRec, task: TaskRow, s: PlanStep, ctx: ClaimContext, now: int)
    requires RecOk(rec) && s in rec.spec.steps && ctx.granted == task.capabilities && !rec.state.IsTerminal()
    ensures Claimable(rec, task, ctx, s, now) <==> WithinLimits(rec.spec) && MayStart(rec, task, s, ctx, now)
  {
    hide RecOk, WellFormed, WithinLimits, Met, PhaseMet, StepReadyContext, UniqueIds, Approves, StepNeedsSomebody, TargetReady,
         CompensationTargets;
    FormMeans(rec);
    ContextOfClaim(rec, task, s, ctx, now);
    TargetMeans(Loaded(rec), s, StepReadyContext(rec, task, ctx, s.id, now));
    TargetAtClaim(rec, task, s, ctx, now);
    WantedMeans(rec, s);
  }

  lemma TargetAtClaim(rec: PlanRec, task: TaskRow, s: PlanStep, ctx: ClaimContext, now: int)
    requires ctx.granted == task.capabilities
    ensures TargetReady(Loaded(rec), s, StepReadyContext(rec, task, ctx, s.id, now)) <==>
         && (forall d :: d in s.dependsOn ==> d in rec.steps && rec.steps[d] == StepSucceeded)
         && (forall c :: c in s.preconditions ==> Met(rec, task, None, c, ctx, now))
         && (StepNeedsSomebody(s) ==> Approves(rec, Some(s.id), now) || Approves(rec, None, now))
  {
    hide Holds, Met, StepReadyContext, Grants, Approves, StepNeedsSomebody, LoadApprovals;
    var context := StepReadyContext(rec, task, ctx, s.id, now);
    ContextOfClaim(rec, task, s, ctx, now);
    forall c ensures Holds(Loaded(rec), c, context) <==> Met(rec, task, None, c, ctx, now) {
      MetAtClaim(rec, task, s.id, c, ctx, now);
    }
    ApprovesMeans(rec, Some(s.id), now);
    ApprovesMeans(rec, None, now);
  }

  lemma ContextOfClaim(rec: PlanRec, task: TaskRow, s: PlanStep, ctx: ClaimContext, now: int)
    ensures var context := StepReadyContext(rec, task, ctx, s.id, now);
            && context.phase == StepReadyPhase && context.targetStep == Some(s.id) && context.now == now
            && context.approvals == LoadApprovals(rec.approvals)
            && forall d :: d in context.succeeded <==> d in rec.steps && rec.steps[d] == StepSucceeded
  {
  }

  lemma WantedMeans(rec: PlanRec, s: PlanStep)
    ensures s.id in CompensationTargets(rec) <==>
            exists o :: o in rec.spec.steps && o.compensation == Some(s.id) && o.id in rec.steps && rec.steps[o.id] == StepCompensating
  {
  }

  // ----- what a claim of one plan does -----

  /** The plan may work now: it is approved or at work, within the limits, and approved as a whole if it
      must be. */
  ghost predicate AtWork(rec: PlanRec, now: int) {
    && rec.state in {Approved, Running, Compensating} && WithinLimits(rec.spec)
    && (PlanNeedsSomebody(rec.spec) ==> Approves(rec, None, now))
  }

  /** No step may start now. */
  ghost predicate NoWork(rec: PlanRec, task: TaskRow, ctx: ClaimContext, now: int) {
    !AtWork(rec, now) || forall s :: s in rec.spec.steps ==> !MayStart(rec, task, s, ctx, now)
  }

  /** Step `id` is the least one that may start; it runs, its attempt is counted, a checkpoint notes it, and
      the last row of the log says so. */
  ghost predicate StartsLeast(rec: PlanRec, task: TaskRow, ctx: ClaimContext, now: int, r: PlanRec, id: StepId) {
    && AtWork(rec, now)
    && (exists s :: s in rec.spec.steps && s.id == id && MayStart(rec, task, s, ctx, now))
    && (forall s :: s in rec.spec.steps && MayStart(rec, task, s, ctx, now) ==> id <= s.id)
    && id in rec.steps && id in rec.attempts
    && r == rec.(state := if rec.state == Approved then Running else rec.state, steps := rec.steps[id := StepRunning],
                 attempts := rec.attempts[id := rec.attempts[id] + 1], log := r.log,
                 checkpoints := rec.checkpoints
                   + [Checkpoint(|rec.checkpoints| + 1, Some(id), BeforeStep, CheckpointPending, ctx.stateDigest, now)])
    && |rec.log| < |r.log| && r.log[|r.log| - 1].body.MovesStep(id, StepReady, StepRunning)
  }

  lemma NextNumber(rec: PlanRec)
    requires RecOk(rec)
    ensures NextCheckpointSequence(rec.checkpoints) == |rec.checkpoints| + 1
  {
    hide ValidStructure, DigestOk, Journaled, AttemptsOk;
  }

  /** A checkpoint after the ones the plan has. */
  lemma Numbered(rec: PlanRec, r: PlanRec, id: Option<StepId>, phase: CheckpointPhase, status: CheckpointStatus,
                 digest: Option<Digest>, now: int)
    requires RecOk(rec) && r.checkpoints == rec.checkpoints
    ensures AddCheckpoint(r, id, phase, status, digest, now)
         == r.(checkpoints := rec.checkpoints + [Checkpoint(|rec.checkpoints| + 1, id, phase, status, digest, now)])
  {
    NextNumber(rec);
    hide RecOk;
  }

  lemma LastRowStarts(rec: PlanRec, id: StepId, digest: Option<Digest>, now: int)
    requires RecOk(rec) && StartStep(rec, id, digest, now).Ok?
    ensures var r := StartStep(rec, id, digest, now).value;
            && id in rec.steps && id in rec.attempts
            && r == rec.(state := if rec.state == Approved then Running else rec.state, steps := rec.steps[id := StepRunning],
                         attempts := rec.attempts[id := rec.attempts[id] + 1], log := r.log,
                         checkpoints := rec.checkpoints
                           + [Checkpoint(|rec.checkpoints| + 1, Some(id), BeforeStep, CheckpointPending, digest, now)])
            && |rec.log| < |r.log| && r.log[|r.log| - 1].body.MovesStep(id, StepReady, StepRunning)
  {
    hide StartStep, AppendStep, RecOk, Quiet, AddCheckpoint;
    var ready := MadeReady(rec, id, digest, now);
    StartRow(ready, id, ClaimRunning(id, rec.attempts[id] + 1), now);
    var started := AppendStep(ready, id, StepReady, StepRunning, ClaimRunning(id, rec.attempts[id] + 1), now).value;
    Numbered(rec, started.(attempts := started.attempts[id := rec.attempts[id] + 1]), Some(id), BeforeStep, CheckpointPending,
             digest, now);
    assert rec.steps[id := StepReady][id := StepRunning] == rec.steps[id := StepRunning];
  }

  lemma StartRow(ready: PlanRec, id: StepId, key: Key, now: int)
    requires AppendStep(ready, id, StepReady, StepRunning, key, now).Ok?
    ensures var r := AppendStep(ready, id, StepReady, StepRunning, key, now).value;
            && id in ready.steps && r == ready.(steps := ready.steps[id := StepRunning], log := r.log)
            && |r.log| == |ready.log| + 1 && r.log[|ready.log|].body.MovesStep(id, StepReady, StepRunning)
  {
  }

  /** A claim on a plan finds no work exactly when no step may start; otherwise it starts the least one. */
  lemma PrepareClaimMeans(rec: PlanRec, task: TaskRow, ref: PlanRef, ctx: ClaimContext, now: int)
    requires RecOk(rec) && ctx.granted == task.capabilities && PrepareClaim(rec, task, ref, ctx, now).Ok?
    ensures var claimed := PrepareClaim(rec, task, ref, ctx, now).value;
            match claimed
            case None => NoWork(rec, task, ctx, now)
            case Some((r, id)) => StartsLeast(rec, task, ctx, now, r, id)
  {
    hide RecOk, LoadPlan, PreflightOk, SelectStep, StartStep, MayStart, Claimable, WithinLimits, Approves, PlanNeedsSomebody, StartsLeast;
    PreflightMeans(rec, now);
    if rec.state in {Approved, Running, Compensating} && PreflightOk(rec, now) {
      SelectionMeans(rec, task, ctx, now);
      var selected := SelectStep(rec, task, ctx, now);
      if selected.Some? {
        LastRowStarts(rec, selected.value, ctx.stateDigest, now);
        assert StartsLeast(rec, task, ctx, now, PrepareClaim(rec, task, ref, ctx, now).value.value.0, selected.value) by {
          FoldStarts(rec, task, ctx, now, StartStep(rec, selected.value, ctx.stateDigest, now).value, selected.value);
        }
      }
    }
  }

  lemma FoldStarts(rec: PlanRec, task: TaskRow, ctx: ClaimContext, now: int, r: PlanRec, id: StepId)
    requires AtWork(rec, now) && id in rec.steps && id in rec.attempts
    requires exists s :: s in rec.spec.steps && s.id == id && MayStart(rec, task, s, ctx, now)
    requires forall s :: s in rec.spec.steps && MayStart(rec, task, s, ctx, now) ==> id <= s.id
    requires r == rec.(state := if rec.state == Approved then Running else rec.state, steps := rec.steps[id := StepRunning],
                       attempts := rec.attempts[id := rec.attempts[id] + 1], log := r.log,
                       checkpoints := rec.checkpoints
                         + [Checkpoint(|rec.checkpoints| + 1, Some(id), BeforeStep, CheckpointPending, ctx.stateDigest, now)])
    requires |rec.log| < |r.log| && r.log[|r.log| - 1].body.MovesStep(id, StepReady, StepRunning)
    ensures StartsLeast(rec, task, ctx, now, r, id)
  {
    hide MayStart, AtWork;
  }

  lemma NothingSelected(rec: PlanRec, task: TaskRow, ctx: ClaimContext, now: int)
    requires SelectStep(rec, task, ctx, now).None?
    ensures forall s :: s in rec.spec.steps ==> !Claimable(rec, task, ctx, s, now)
  {
    hide Claimable;
    assert forall s :: s in rec.spec.steps && Claimable(rec, task, ctx, s, now) ==> s.id in ClaimableIds(rec, task, ctx, now);
  }

  lemma SelectionMeans(rec: PlanRec, task: TaskRow, ctx: ClaimContext, now: int)
    requires RecOk(rec) && ctx.granted == task.capabilities && WithinLimits(rec.spec) && !rec.state.IsTerminal()
    ensures match SelectStep(rec, task, ctx, now)
            case None => forall s :: s in rec.spec.steps ==> !MayStart(rec, task, s, ctx, now)
            case Some(id) =>
              && (exists s :: s in rec.spec.steps && s.id == id && MayStart(rec, task, s, ctx, now))
              && (forall s :: s in rec.spec.steps && MayStart(rec, task, s, ctx, now) ==> id <= s.id)
  {
    hide RecOk, MayStart, Claimable, WithinLimits;
    forall s | s in rec.spec.steps ensures Claimable(rec, task, ctx, s, now) <==> MayStart(rec, task, s, ctx, now) {
      ClaimableMeans(rec, task, s, ctx, now);
    }
    if SelectStep(rec, task, ctx, now).Some? {
      var s := SelectedStep(rec, task, ctx, now);
    } else {
      NothingSelected(rec, task, ctx, now);
    }
  }
}
