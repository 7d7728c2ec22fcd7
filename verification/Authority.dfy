/** Logs are append-only, and only an Administrator's resolution takes a plan or a step out of unknown. */
module Authority {
  import opened Base
  import opened PlanCore
  import opened TransitionLog
  import opened PlanTransactions
  import opened Journal
  import opened PlanInvariants
  import opened PlanResolution
  import opened QueueModel
  import opened GovernedRuns

  /** The transition leaves an unknown state. */
  predicate LeavesUnknown(t: Transition) {
    t.fromState == PlanIs(Unknown) || t.fromState == StepIs(StepUnknown)
  }

  /** The log of the same plan grew, and no new row leaves an unknown state. */
  ghost predicate LogGrows(rec: PlanRec, r: PlanRec) {
    && IsExtension(rec.log, r.log) && r.spec == rec.spec
    && forall k :: |rec.log| <= k < |r.log| ==> !LeavesUnknown(r.log[k].body)
  }

  /** And the approvals are the same. */
  ghost predicate Advances(rec: PlanRec, r: PlanRec) {
    LogGrows(rec, r) && r.approvals == rec.approvals
  }

  /** And no step has made another attempt or succeeded. */
  ghost predicate Grows(rec: PlanRec, r: PlanRec) {
    Advances(rec, r) && r.attempts == rec.attempts && NoSuccess(rec.log, r.log)
  }

  /** The transition ends a running step in success. */
  predicate IsSuccess(t: Transition) {
    t.fromState == StepIs(StepRunning) && t.toState == StepIs(StepSucceeded)
  }

  predicate NoSuccess(log: seq<LogRow>, longer: seq<LogRow>) {
    forall k :: |log| <= k < |longer| ==> !IsSuccess(longer[k].body)
  }

  /** The same plan, approvals and attempts. */
  predicate SameTerms(rec: PlanRec, r: PlanRec) {
    r.spec == rec.spec && r.approvals == rec.approvals && r.attempts == rec.attempts
  }

  lemma GrowsOn(a: PlanRec, b: PlanRec, c: PlanRec)
    requires Grows(a, b) && Grows(b, c)
    ensures Grows(a, c)
  {
    assert c.log[..|a.log|] == b.log[..|a.log|];
    forall k | |a.log| <= k < |c.log| ensures !LeavesUnknown(c.log[k].body) && !IsSuccess(c.log[k].body) {
      if k < |b.log| { assert c.log[k] == b.log[k]; }
    }
  }

  lemma PlanGrows(rec: PlanRec, mid: PlanRec, a: PlanState, b: PlanState, key: Key, now: int)
    requires Grows(rec, mid) && AppendPlan(mid, a, b, key, now).Ok? && a != Unknown
    ensures Grows(rec, AppendPlan(mid, a, b, key, now).value)
    ensures AppendPlan(mid, a, b, key, now).value.state == b && AppendPlan(mid, a, b, key, now).value.steps == mid.steps
  {
    GrowsOn(rec, mid, AppendPlan(mid, a, b, key, now).value);
  }

  lemma StepGrows(rec: PlanRec, mid: PlanRec, id: StepId, a: StepState, b: StepState, key: Key, now: int)
    requires Grows(rec, mid) && AppendStep(mid, id, a, b, key, now).Ok? && a != StepUnknown && b != StepSucceeded
    ensures Grows(rec, AppendStep(mid, id, a, b, key, now).value)
    ensures AppendStep(mid, id, a, b, key, now).value.state == mid.state
  {
    GrowsOn(rec, mid, AppendStep(mid, id, a, b, key, now).value);
  }

  lemma SameLog(rec: PlanRec, mid: PlanRec, r: PlanRec)
    requires Grows(rec, mid) && r.log == mid.log && SameTerms(mid, r)
    ensures Grows(rec, r)
  {
  }

  lemma {:induction false} BatchGrows(rec: PlanRec, mid: PlanRec, ids: seq<StepId>, from: map<StepId, StepState>,
                                      to: StepState, kind: MoveKind, now: int)
    requires Grows(rec, mid) && (forall id :: id in ids ==> id in from && from[id] != StepUnknown) && to != StepSucceeded
    requires MoveAll(mid, ids, from, to, kind, now).Ok?
    ensures Grows(rec, MoveAll(mid, ids, from, to, kind, now).value)
    ensures MoveAll(mid, ids, from, to, kind, now).value.state == mid.state
  {
    hide Grows, AppendStep;
    if ids != [] {
      var n := |ids| - 1;
      assert ids == ids[..n] + [ids[n]];
      BatchGrows(rec, mid, ids[..n], from, to, kind, now);
      StepGrows(rec, MoveAll(mid, ids[..n], from, to, kind, now).value, ids[n], from[ids[n]], to, KeyFor(kind, ids[n]), now);
    }
  }

  lemma MarkUnknownGrows(rec: PlanRec, mid: PlanRec, id: Option<StepId>, digest: Option<Digest>, now: int)
    requires Grows(rec, mid) && MarkUnknown(mid, id, digest, now).Ok?
    ensures Grows(rec, MarkUnknown(mid, id, digest, now).value)
  {
    hide AppendPlan, AppendStep, Grows, IsSha256;
    var r := mid;
    if mid.state != Unknown {
      if mid.state.CanMoveTo(Unknown) {
        PlanGrows(rec, mid, mid.state, Unknown, RecoveryPlanUnknown(now), now);
        r := AppendPlan(mid, mid.state, Unknown, RecoveryPlanUnknown(now), now).value;
      } else {
        r := mid.(state := Unknown);
        SameLog(rec, mid, r);
      }
    }
    var r2 := r;
    if id.Some? && id.value in r.steps && r.steps[id.value] != StepUnknown {
      if r.steps[id.value].CanMoveTo(StepUnknown) {
        StepGrows(rec, r, id.value, r.steps[id.value], StepUnknown, RecoveryStepUnknown(id.value, now), now);
        r2 := AppendStep(r, id.value, r.steps[id.value], StepUnknown, RecoveryStepUnknown(id.value, now), now).value;
      } else {
        r2 := r.(steps := r.steps[id.value := StepUnknown]);
        SameLog(rec, r, r2);
      }
    }
    SameLog(rec, r2, MarkUnknown(mid, id, digest, now).value);
  }

  lemma AdmitGrows(rec: PlanRec, principal: Principal, taskId: TaskId, ref: PlanRef, now: int)
    requires Admit(rec, principal, taskId, ref, now).Ok?
    ensures Grows(rec, Admit(rec, principal, taskId, ref, now).value)
  {
    hide PreflightOk, LoadPlan, AppendPlan;
    var r1, r2, r3 := rec, rec, rec;
    if rec.state.Draft? {
      PlanGrows(rec, rec, Draft, Proposed, AdmissionProposed, now);
      r1 := AppendPlan(rec, Draft, Proposed, AdmissionProposed, now).value;
    }
    r2 := r1;
    if r1.state.Proposed? {
      PlanGrows(rec, r1, Proposed, Validated, AdmissionValidated, now);
      r2 := AppendPlan(r1, Proposed, Validated, AdmissionValidated, now).value;
    }
    r3 := r2;
    if r2.state.Validated? || r2.state.AwaitingApproval? {
      PlanGrows(rec, r2, r2.state, Approved, AdmissionApproved, now);
      r3 := AppendPlan(r2, r2.state, Approved, AdmissionApproved, now).value;
    }
    SameLog(rec, r3, Admit(rec, principal, taskId, ref, now).value);
  }

  lemma ApproveTransitionsGrow(rec: PlanRec, mid: PlanRec, id: nat, now: int)
    requires Grows(rec, mid) && ApproveTransitions(mid, id, now).Ok?
    ensures Grows(rec, ApproveTransitions(mid, id, now).value)
  {
    hide AppendPlan, Grows;
    var r1 := mid;
    if mid.state.Draft? {
      PlanGrows(rec, mid, Draft, Proposed, ApprovalProposed(id), now);
      r1 := AppendPlan(mid, Draft, Proposed, ApprovalProposed(id), now).value;
    }
    var r2 := r1;
    if r1.state.Proposed? {
      PlanGrows(rec, r1, Proposed, Validated, ApprovalValidated(id), now);
      r2 := AppendPlan(r1, Proposed, Validated, ApprovalValidated(id), now).value;
    }
    PlanGrows(rec, r2, r2.state, Approved, ApprovalApproved(id), now);
  }

  /** An approval is recorded for the principal who gave it, if he may, and nothing else about the
      approvals changes. */
  predicate RecordedBy(rec: PlanRec, r: PlanRec, principal: Principal, a: Approval, key: Key) {
    && r.approvals == rec.approvals + [StoredApproval(a, key)] && r.attempts == rec.attempts && NoSuccess(rec.log, r.log)
    && principal.Allows(ApprovePlan) && principal.operator == a.approver && principal.role == a.approverRole
  }

  lemma ApproveGrows(rec: PlanRec, principal: Principal, a: Approval, key: Key, idTaken: bool, now: int)
    requires Approve(rec, principal, a, key, idTaken, now).Ok?
    ensures var r := Approve(rec, principal, a, key, idTaken, now).value.0;
            LogGrows(rec, r) && (r == rec || RecordedBy(rec, r, principal, a, key))
  {
    hide LoadPlan, ApprovalShapeOk, RecordApproval, SameIntent;
    if !ApprovalKeyUsed(rec.approvals, key) {
      RecordApprovalGrows(rec, a, key, now);
    }
  }

  lemma RecordApprovalGrows(rec: PlanRec, a: Approval, key: Key, now: int)
    requires RecordApproval(rec, a, key, now).Ok?
    ensures LogGrows(rec, RecordApproval(rec, a, key, now).value.0)
    ensures RecordApproval(rec, a, key, now).value.0.approvals == rec.approvals + [StoredApproval(a, key)]
    ensures RecordApproval(rec, a, key, now).value.0.attempts == rec.attempts
    ensures NoSuccess(rec.log, RecordApproval(rec, a, key, now).value.0.log)
  {
    var stored := rec.(approvals := rec.approvals + [StoredApproval(a, key)]);
    SameLog(stored, stored, stored);
    hide AppendPlan, ApproveTransitions, LogGrows;
    var r := RecordApproval(rec, a, key, now).value.0;
    if a.decision == ApprovedDecision {
      if a.stepId.None? {
        ApproveTransitionsGrow(stored, stored, a.approvalId, now);
        SameLog(stored, ApproveTransitions(stored, a.approvalId, now).value, r);
      } else {
        SameLog(stored, stored, r);
      }
    } else {
      PlanGrows(stored, stored, rec.state, Rejected, ApprovalRejected(a.approvalId), now);
      SameLog(stored, AppendPlan(stored, rec.state, Rejected, ApprovalRejected(a.approvalId), now).value, r);
    }
    SameStart(rec, stored, r);
  }

  lemma SameStart(rec: PlanRec, stored: PlanRec, r: PlanRec)
    requires LogGrows(stored, r) && stored.log == rec.log && stored.spec == rec.spec
    ensures LogGrows(rec, r)
  {
  }

  lemma MakeReadyGrows(rec: PlanRec, id: StepId, attempt: nat, now: int)
    requires id in rec.steps && MakeReady(rec, id, attempt, now).Ok?
    ensures Grows(rec, MakeReady(rec, id, attempt, now).value)
  {
    SameLog(rec, rec, rec);
    hide AppendPlan, AppendStep, Grows;
    var r := rec;
    if rec.state.Approved? {
      PlanGrows(rec, rec, Approved, Running, ClaimPlan(id), now);
      r := AppendPlan(rec, Approved, Running, ClaimPlan(id), now).value;
    }
    if rec.steps[id] == StepPending {
      StepGrows(rec, r, id, StepPending, StepReady, ClaimReady(id, attempt), now);
    }
  }

  lemma StartStepGrows(rec: PlanRec, id: StepId, digest: Option<Digest>, now: int)
    requires StartStep(rec, id, digest, now).Ok?
    ensures Advances(rec, StartStep(rec, id, digest, now).value)
    ensures NoSuccess(rec.log, StartStep(rec, id, digest, now).value.log)
  {
    hide MakeReady, AppendStep, Grows, IsSha256;
    var attempt := rec.attempts[id] + 1;
    MakeReadyGrows(rec, id, attempt, now);
    var ready := MakeReady(rec, id, attempt, now).value;
    StepGrows(rec, ready, id, StepReady, StepRunning, ClaimRunning(id, attempt), now);
    StartAdvances(rec, AppendStep(ready, id, StepReady, StepRunning, ClaimRunning(id, attempt), now).value,
                  StartStep(rec, id, digest, now).value);
  }

  lemma StartAdvances(rec: PlanRec, mid: PlanRec, r: PlanRec)
    requires Grows(rec, mid) && r.log == mid.log && r.spec == mid.spec && r.approvals == mid.approvals
    ensures Advances(rec, r) && NoSuccess(rec.log, r.log)
  {
  }

  lemma ClaimGrows(rec: PlanRec, task: TaskRow, ref: PlanRef, ctx: ClaimContext, now: int)
    requires PrepareClaim(rec, task, ref, ctx, now).Ok? && PrepareClaim(rec, task, ref, ctx, now).value.Some?
    ensures Advances(rec, PrepareClaim(rec, task, ref, ctx, now).value.value.0)
    ensures NoSuccess(rec.log, PrepareClaim(rec, task, ref, ctx, now).value.value.0.log)
  {
    ClaimUnfolds(rec, task, ref, ctx, now);
    hide PrepareClaim, StartStep, SelectStep, Advances, NoSuccess;
    var (r, id) := PrepareClaim(rec, task, ref, ctx, now).value.value;
    StartStepGrows(rec, id, ctx.stateDigest, now);
  }

  /** What a finish may do: it may log a success. */
  ghost predicate Ends(rec: PlanRec, r: PlanRec) {
    Advances(rec, r) && r.attempts == rec.attempts
  }

  lemma EndsOn(a: PlanRec, b: PlanRec, c: PlanRec)
    requires Ends(a, b) && Grows(b, c)
    ensures Ends(a, c)
  {
    assert c.log[..|a.log|] == b.log[..|a.log|];
    forall k | |a.log| <= k < |c.log| ensures !LeavesUnknown(c.log[k].body) {
      if k < |b.log| { assert c.log[k] == b.log[k]; }
    }
  }

  lemma EndStepGrows(rec: PlanRec, id: StepId, to: StepState, key: Key, status: CheckpointStatus,
                     digest: Option<Digest>, now: int)
    requires EndStep(rec, id, to, key, status, digest, now).Ok?
    ensures var r := EndStep(rec, id, to, key, status, digest, now).value;
            Ends(rec, r) && Grows(r, r)
  {
  }

  lemma SourcesAreCompensating(rec: PlanRec, target: StepId)
    ensures forall id :: id in CompensationSources(rec, target) ==> id in rec.steps && rec.steps[id] == StepCompensating
  {
  }

  lemma CompleteCompensationGrows(rec: PlanRec, mid: PlanRec, task: TaskRow, target: StepId, result: Option<string>, now: int)
    requires Grows(rec, mid) && CompleteCompensation(mid, task, target, result, now).Ok?
    ensures Grows(rec, CompleteCompensation(mid, task, target, result, now).value.0)
  {
    SourcesAreCompensating(mid, target);
    hide AppendPlan, MoveAll, Grows, CompensationSources, StepsWhere;
    var ids := Ascending(CompensationSources(mid, target));
    BatchGrows(rec, mid, ids, mid.steps, StepCompensated, ByCompensation, now);
    var r := CompensateSources(mid, target, now).value;
    SameLog(rec, MoveAll(mid, ids, mid.steps, StepCompensated, ByCompensation, now).value, r);
    if StepsWhere(r.steps, {StepCompensating}) == {} {
      PlanGrows(rec, r, Compensating, Compensated, CompensationPlan, now);
    }
  }

  lemma FinishGrows(rec: PlanRec, task: TaskRow, result: Option<string>, failed: bool, policy: Policy,
                    ctx: ClaimContext, now: int)
    requires FinishPlanned(rec, task, result, failed, policy, ctx, now).Ok?
    ensures Ends(rec, FinishPlanned(rec, task, result, failed, policy, ctx, now).value.0)
  {
    SameLog(rec, rec, rec);
    hide LoadPlan, PostStepOk, MarkUnknown, FinishSuccess, FinishFailure, Advances, NoSuccess;
    var id := task.planStep.value;
    if task.cancelRequested || task.status == TCancelRequested {
      MarkUnknownGrows(rec, rec, Some(id), ctx.stateDigest, now);
    } else if !failed && PostStepOk(rec, task, id, ctx, now) {
      FinishSuccessGrows(rec, task, id, result, ctx.stateDigest, now);
    } else {
      FinishFailureGrows(rec, task, id, FindStep(rec.spec.steps, id).value.maxAttempts, policy, ctx.stateDigest, now);
    }
  }

  lemma FinishSuccessGrows(rec: PlanRec, task: TaskRow, id: StepId, result: Option<string>, digest: Option<Digest>, now: int)
    requires id in rec.attempts && FinishSuccess(rec, task, id, result, digest, now).Ok?
    ensures Ends(rec, FinishSuccess(rec, task, id, result, digest, now).value.0)
  {
    hide EndStep, CompleteCompensation, AppendPlan, Grows, Ends, StepsWhere;
    var key := FinishSucceeded(id, rec.attempts[id]);
    EndStepGrows(rec, id, StepSucceeded, key, CheckpointSucceeded, digest, now);
    var r := EndStep(rec, id, StepSucceeded, key, CheckpointSucceeded, digest, now).value;
    if rec.state == Compensating {
      CompleteCompensationGrows(r, r, task, id, result, now);
    } else if StepsWhere(r.steps, {StepSucceeded}) == r.steps.Keys {
      PlanGrows(r, r, Running, Succeeded, FinishPlanSucceeded, now);
    }
    EndsOn(rec, r, FinishSuccess(rec, task, id, result, digest, now).value.0);
  }

  lemma FinishFailureGrows(rec: PlanRec, task: TaskRow, id: StepId, max: nat, policy: Policy, digest: Option<Digest>, now: int)
    requires id in rec.attempts && FinishFailure(rec, task, id, max, policy, digest, now).Ok?
    ensures Ends(rec, FinishFailure(rec, task, id, max, policy, digest, now).value.0)
  {
    hide EndStep, MarkUnknown, AppendPlan, AppendStep, Grows, Ends, RetryDelay;
    var attempts := rec.attempts[id];
    EndStepGrows(rec, id, StepFailed, FinishFailed(id, attempts), CheckpointFailed, digest, now);
    var r := EndStep(rec, id, StepFailed, FinishFailed(id, attempts), CheckpointFailed, digest, now).value;
    if r.state == Compensating {
      MarkUnknownGrows(r, r, Some(id), digest, now);
    } else if policy.retryable && attempts < max {
      StepGrows(r, r, id, StepFailed, StepReady, RetryReady(id, attempts), now);
    } else if r.state == Running {
      PlanGrows(r, r, Running, Failed, FinishPlanFailed, now);
    }
    EndsOn(rec, r, FinishFailure(rec, task, id, max, policy, digest, now).value.0);
  }

  lemma CancelGrows(rec: PlanRec, task: TaskRow, now: int)
    requires CancelPlanned(rec, task, now).Ok?
    ensures Grows(rec, CancelPlanned(rec, task, now).value)
  {
    SameLog(rec, rec, rec);
    hide LoadPlan, CancelQueued, AppendPlan, Grows;
    if task.status == TQueued {
      CancelQueuedGrows(rec, now);
    } else if task.status == TRunning && rec.state == Running {
      PlanGrows(rec, rec, Running, CancelRequested, CancelPlanRequested, now);
    }
  }

  lemma CancelWaitingGrows(rec: PlanRec, mid: PlanRec, now: int)
    requires Grows(rec, mid) && CancelWaiting(mid, now).Ok?
    ensures Grows(rec, CancelWaiting(mid, now).value) && CancelWaiting(mid, now).value.state == mid.state
  {
    hide MoveAll, Grows, StepsWhere, Ascending;
    WhereIn(mid.steps, {StepPending, StepReady, StepAwaitingApproval});
    BatchGrows(rec, mid, Ascending(StepsWhere(mid.steps, {StepPending, StepReady, StepAwaitingApproval})), mid.steps,
               StepCancelled, ByCancel, now);
  }

  lemma CancelQueuedGrows(rec: PlanRec, now: int)
    requires CancelQueued(rec, now).Ok?
    ensures Grows(rec, CancelQueued(rec, now).value)
  {
    SameLog(rec, rec, rec);
    hide AppendPlan, CancelWaiting, Grows;
    var r1 := rec;
    if rec.state == Approved || rec.state == Running {
      PlanGrows(rec, rec, rec.state, CancelRequested, CancelPlanRequested, now);
      r1 := AppendPlan(rec, rec.state, CancelRequested, CancelPlanRequested, now).value;
    }
    CancelWaitingGrows(rec, r1, now);
    if r1.state == CancelRequested {
      PlanGrows(rec, CancelWaiting(r1, now).value, CancelRequested, Cancelled, CancelPlanCompleted, now);
    }
  }

  lemma RecoverExpiredGrows(rec: PlanRec, task: TaskRow, now: int)
    requires RecoverExpired(rec, task, now).Ok?
    ensures Grows(rec, RecoverExpired(rec, task, now).value.0)
  {
    SameLog(rec, rec, rec);
    hide LoadPlan, MarkUnknown, Grows;
    MarkUnknownGrows(rec, rec, task.planStep, None, now);
  }

  lemma {:induction false} StepRecoveriesGrow(rec: PlanRec, mid: PlanRec, ids: seq<StepId>, from: map<StepId, StepState>, now: int)
    requires Grows(rec, mid) && (forall id :: id in ids ==> id in from && from[id] != StepUnknown)
    requires InsertStepRecoveries(mid, ids, from, now).Ok?
    ensures Grows(rec, InsertStepRecoveries(mid, ids, from, now).value)
  {
    if ids != [] {
      var n := |ids| - 1;
      assert ids == ids[..n] + [ids[n]];
      StepRecoveriesGrow(rec, mid, ids[..n], from, now);
      var r := InsertStepRecoveries(mid, ids[..n], from, now).value;
      GrowsOn(rec, r, InsertStepRecovery(r, ids[n], from[ids[n]], now).value);
    }
  }

  lemma RecoveryRowGrows(rec: PlanRec, state: PlanState, now: int)
    requires state != Unknown
    requires InsertRow(rec, NextTransition(rec, PlanEntity, None, PlanIs(state), PlanIs(Unknown),
                                           RecoveryPlan(NextSequence(rec.log)), now)).Ok?
    ensures Grows(rec, InsertRow(rec, NextTransition(rec, PlanEntity, None, PlanIs(state), PlanIs(Unknown),
                                                     RecoveryPlan(NextSequence(rec.log)), now)).value)
  {
    hide KeyUsed;
  }

  lemma InsertRecoveryGrows(rec: PlanRec, state: PlanState, active: map<StepId, StepState>, now: int)
    requires state != Unknown && (forall id :: id in active ==> active[id] != StepUnknown)
    requires InsertRecovery(rec, state, active, now).Ok?
    ensures Grows(rec, InsertRecovery(rec, state, active, now).value)
  {
    hide Grows, InsertRow, InsertStepRecoveries, NextTransition;
    var r := InsertRow(rec, NextTransition(rec, PlanEntity, None, PlanIs(state), PlanIs(Unknown),
                                           RecoveryPlan(NextSequence(rec.log)), now)).value;
    RecoveryRowGrows(rec, state, now);
    StepRecoveriesGrow(rec, r, Ascending(active.Keys), active, now);
  }

  lemma ResumeGrows(rec: PlanRec, view: ResumeView, now: int)
    requires ResumeWrite(rec, view, now).Ok?
    ensures Grows(rec, ResumeWrite(rec, view, now).value)
  {
    if view.verdict == FoundActive && rec.state != Unknown {
      RecoverUnfolds(rec, view, now);
      hide InsertRecovery, Grows, RecoverUnknown;
      ActiveIsNotUnknown(rec.steps);
      InsertRecoveryGrows(rec, rec.state, ActiveSteps(rec.steps), now);
      SameLog(rec, InsertRecovery(rec, rec.state, ActiveSteps(rec.steps), now).value, ResumeWrite(rec, view, now).value);
    } else {
      hide Inspect;
      SameLog(rec, rec, ResumeWrite(rec, view, now).value);
    }
  }

  lemma ActiveIsNotUnknown(steps: map<StepId, StepState>)
    ensures forall id :: id in ActiveSteps(steps) ==> ActiveSteps(steps)[id] != StepUnknown
  {
  }

  // ----- resolution appends, and leaves unknown states -----

  lemma {:induction false} BatchExtends(rec: PlanRec, ids: seq<StepId>, from: map<StepId, StepState>, to: StepState,
                                        kind: MoveKind, now: int)
    requires (forall id :: id in ids ==> id in from) && MoveAll(rec, ids, from, to, kind, now).Ok? && to != StepSucceeded
    ensures NoSuccess(rec.log, MoveAll(rec, ids, from, to, kind, now).value.log)
    ensures IsExtension(rec.log, MoveAll(rec, ids, from, to, kind, now).value.log)
    ensures SameTerms(rec, MoveAll(rec, ids, from, to, kind, now).value)
  {
    hide AppendStep, IsExtension, KeyFor, NoSuccess;
    ExtendsSelf(rec.log);
    if ids != [] {
      var n := |ids| - 1;
      assert ids == ids[..n] + [ids[n]];
      BatchExtends(rec, ids[..n], from, to, kind, now);
      var mid := MoveAll(rec, ids[..n], from, to, kind, now).value;
      StepExtends(mid, ids[n], from[ids[n]], to, KeyFor(kind, ids[n]), now);
      ExtendsOn(rec.log, mid.log, MoveAll(rec, ids, from, to, kind, now).value.log);
    }
  }

  lemma ExtendsSelf(log: seq<LogRow>)
    ensures IsExtension(log, log) && NoSuccess(log, log)
  {
  }

  lemma ExtendsOn(a: seq<LogRow>, b: seq<LogRow>, c: seq<LogRow>)
    requires IsExtension(a, b) && IsExtension(b, c)
    ensures IsExtension(a, c)
    ensures NoSuccess(a, b) && NoSuccess(b, c) ==> NoSuccess(a, c)
  {
    assert c[..|a|] == b[..|a|];
    if NoSuccess(a, b) && NoSuccess(b, c) {
      forall k | |a| <= k < |c| ensures !IsSuccess(c[k].body) {
        if k < |b| { assert c[k] == b[k]; }
      }
    }
  }

  lemma StepExtends(rec: PlanRec, id: StepId, a: StepState, b: StepState, key: Key, now: int)
    requires AppendStep(rec, id, a, b, key, now).Ok?
    ensures IsExtension(rec.log, AppendStep(rec, id, a, b, key, now).value.log)
    ensures b != StepSucceeded ==> NoSuccess(rec.log, AppendStep(rec, id, a, b, key, now).value.log)
    ensures SameTerms(rec, AppendStep(rec, id, a, b, key, now).value)
  {
  }

  lemma PlanExtends(rec: PlanRec, a: PlanState, b: PlanState, key: Key, now: int)
    requires AppendPlan(rec, a, b, key, now).Ok?
    ensures IsExtension(rec.log, AppendPlan(rec, a, b, key, now).value.log)
    ensures NoSuccess(rec.log, AppendPlan(rec, a, b, key, now).value.log)
    ensures SameTerms(rec, AppendPlan(rec, a, b, key, now).value)
  {
  }

  lemma ResolveExtends(rec: PlanRec, decision: ResolutionDecision, key: Key, now: int)
    requires ResolveWith(rec, decision, key, now).Ok?
    ensures IsExtension(rec.log, ResolveWith(rec, decision, key, now).value.log)
    ensures NoSuccess(rec.log, ResolveWith(rec, decision, key, now).value.log)
    ensures SameTerms(rec, ResolveWith(rec, decision, key, now).value)
  {
    hide AppendPlan, MoveAll, IsExtension, EligibleSources, EligibleTargets, StepsWhere, NoSuccess;
    match decision {
      case Resume =>
        var ids := Ascending(StepsWhere(rec.steps, {StepUnknown}));
        WhereIn(rec.steps, {StepUnknown});
        BatchExtends(rec, ids, rec.steps, StepReady, ByResolution(key), now);
        var r := MoveAll(rec, ids, rec.steps, StepReady, ByResolution(key), now).value;
        PlanExtends(r, Unknown, Running, key, now);
        ExtendsOn(rec.log, r.log, ResolveWith(rec, decision, key, now).value.log);
      case Compensate =>
        var moving := MovingSources(rec, rec.spec.steps);
        BatchExtends(rec, moving, rec.steps, StepCompensating, BySource(key), now);
        var r1 := MoveAll(rec, moving, rec.steps, StepCompensating, BySource(key), now).value;
        var waiting := Ascending(set id | id in EligibleTargets(rec) && id in r1.steps && r1.steps[id] in {StepUnknown, StepFailed});
        BatchExtends(r1, waiting, r1.steps, StepReady, ByTarget(key), now);
        var r2 := MoveAll(r1, waiting, r1.steps, StepReady, ByTarget(key), now).value;
        PlanExtends(r2, Unknown, Compensating, key, now);
        ExtendsOn(rec.log, r1.log, r2.log);
        ExtendsOn(rec.log, r2.log, ResolveWith(rec, decision, key, now).value.log);
      case Cancel =>
        PlanExtends(rec, Unknown, Cancelled, key, now);
    }
  }

  lemma WhereIn(steps: map<StepId, StepState>, states: set<StepState>)
    ensures forall id :: id in StepsWhere(steps, states) ==> id in steps && steps[id] in states
  {
  }

  /** The event is an Administrator's resolution of plan `p`. */
  predicate IsAdminResolution(e: Event, p: PlanId) {
    e.op.OpResolve? && e.op.plan == p && e.op.principal.role == Administrator
  }

  lemma ResolveGrew(rec: PlanRec, task: Option<TaskRow>, principal: Principal, decision: ResolutionDecision, key: Key,
                    evidence: Option<Digest>, now: int)
    requires Resolve(rec, task, principal, decision, key, evidence, now).Ok?
    ensures IsExtension(rec.log, Resolve(rec, task, principal, decision, key, evidence, now).value.0.log)
    ensures NoSuccess(rec.log, Resolve(rec, task, principal, decision, key, evidence, now).value.0.log)
    ensures SameTerms(rec, Resolve(rec, task, principal, decision, key, evidence, now).value.0)
    ensures principal.role == Administrator
  {
    if KeyUsed(rec.log, key) {
      hide Loadable, ResolveWith, KeyUsedFor;
    } else {
      ResolveWrites(rec, task, principal, decision, key, evidence, now);
      ResolveExtends(rec, decision, key, now);
      hide Resolve, ResolveWith;
    }
  }

  // ----- at the store -----

  /** Plan `p` keeps its log, or it grows without leaving an unknown state. */
  ghost predicate LogsGrew(before: Store, after: Store, p: PlanId)
    requires p in before.plans
  {
    p in after.plans && LogGrows(before.plans[p], after.plans[p])
  }

  /** And it keeps its approvals. */
  ghost predicate Advanced(before: Store, after: Store, p: PlanId)
    requires p in before.plans
  {
    p in after.plans && Advances(before.plans[p], after.plans[p])
  }

  /** And its attempts. */
  ghost predicate RowsGrew(before: Store, after: Store, p: PlanId)
    requires p in before.plans
  {
    p in after.plans && Grows(before.plans[p], after.plans[p])
  }

  lemma OnePlanGrew(before: Store, after: Store, q: PlanId, r: PlanRec, p: PlanId)
    requires p in before.plans && q in before.plans && after.plans == before.plans[q := r] && Grows(before.plans[q], r)
    ensures RowsGrew(before, after, p)
  {
    SameLog(before.plans[p], before.plans[p], before.plans[p]);
  }

  lemma SameGrew(before: Store, after: Store, p: PlanId)
    requires p in before.plans && p in after.plans && after.plans[p] == before.plans[p]
    ensures RowsGrew(before, after, p)
  {
  }

  lemma OnePlanAdvanced(before: Store, after: Store, q: PlanId, r: PlanRec, p: PlanId)
    requires p in before.plans && q in before.plans && after.plans == before.plans[q := r] && Advances(before.plans[q], r)
    ensures Advanced(before, after, p)
    ensures NoSuccess(before.plans[q].log, r.log) ==> NoSuccessOf(before, after, p)
    ensures r.attempts == before.plans[q].attempts ==> after.plans[p].attempts == before.plans[p].attempts
  {
    SameLog(before.plans[p], before.plans[p], before.plans[p]);
  }

  lemma SameAdvanced(before: Store, after: Store, p: PlanId)
    requires p in before.plans && p in after.plans && after.plans[p] == before.plans[p]
    ensures Advanced(before, after, p) && NoSuccessOf(before, after, p)
  {
  }

  /** The operation ended no step of plan `p` in success. */
  predicate NoSuccessOf(before: Store, after: Store, p: PlanId)
    requires p in before.plans
  {
    p in after.plans && NoSuccess(before.plans[p].log, after.plans[p].log)
  }

  lemma {:induction false} ClaimFromGrew(st: Store, order: seq<TaskId>, ctx: ClaimContext, now: int, until: int, p: PlanId)
    requires p in st.plans && (forall t :: t in order ==> t in st.tasks)
    requires ClaimFrom(st, order, ctx, now, until).Ok?
    ensures Advanced(st, ClaimFrom(st, order, ctx, now, until).value.0, p)
    ensures NoSuccessOf(st, ClaimFrom(st, order, ctx, now, until).value.0, p)
  {
    hide PrepareClaim, Advanced, Advances, NoSuccess, NoSuccessOf;
    var after := ClaimFrom(st, order, ctx, now, until).value.0;
    if order == [] || st.tasks[order[0]].plan.None? {
      SameAdvanced(st, after, p);
    } else {
      var task := st.tasks[order[0]];
      var q := task.plan.value.planId;
      var granted := ctx.(granted := task.capabilities);
      var claimed := PrepareClaim(st.plans[q], task, task.plan.value, granted, now).value;
      if claimed.None? {
        assert forall t :: t in order[1..] ==> t in order;
        ClaimFromGrew(st, order[1..], ctx, now, until, p);
      } else {
        ClaimGrows(st.plans[q], task, task.plan.value, granted, now);
        OnePlanAdvanced(st, after, q, claimed.value.0, p);
      }
    }
  }

  lemma SubmitGrew(st: Store, s: Submission, principal: Principal, now: int, p: PlanId)
    requires p in st.plans && Submit(st, s, principal, now).Ok?
    ensures RowsGrew(st, Submit(st, s, principal, now).value.0, p)
  {
    SubmitShape(st, s, principal, now);
    var (after, outcome, _) := Submit(st, s, principal, now).value;
    hide RowsGrew, Grows, Submit, Admit, WindowStart, SubmissionOk, TasksWithKey;
    if outcome == Existing || s.plan.None? {
      SameGrew(st, after, p);
    } else {
      var q := s.plan.value.planId;
      AdmitGrows(st.plans[q], principal, s.taskId, s.plan.value, now);
      OnePlanGrew(st, after, q, Admit(st.plans[q], principal, s.taskId, s.plan.value, now).value, p);
    }
  }

  lemma RecoverOneGrew(st: Store, id: TaskId, now: int, p: PlanId)
    requires p in st.plans && id in st.tasks && RecoverOne(st, id, now).Ok?
    ensures RowsGrew(st, RecoverOne(st, id, now).value, p)
  {
    hide RowsGrew, Grows, RecoverExpired;
    var after := RecoverOne(st, id, now).value;
    var task := st.tasks[id];
    if task.plan.None? {
      SameGrew(st, after, p);
    } else {
      var q := task.plan.value.planId;
      RecoverExpiredGrows(st.plans[q], task, now);
      OnePlanGrew(st, after, q, RecoverExpired(st.plans[q], task, now).value.0, p);
    }
  }

  lemma {:induction false} RecoverAllGrew(st: Store, order: seq<TaskId>, now: int, p: PlanId)
    requires p in st.plans && (forall t :: t in order ==> t in st.tasks) && RecoverAll(st, order, now).Ok?
    ensures RowsGrew(st, RecoverAll(st, order, now).value, p)
  {
    if order == [] {
      SameGrew(st, st, p);
    } else {
      hide RecoverOne, Grows;
      var n := |order| - 1;
      assert order == order[..n] + [order[n]];
      RecoverAllGrew(st, order[..n], now, p);
      var mid := RecoverAll(st, order[..n], now).value;
      RecoverOneGrew(mid, order[n], now, p);
      GrowsOn(st.plans[p], mid.plans[p], RecoverAll(st, order, now).value.plans[p]);
    }
  }

  lemma FinishGrew(st: Store, id: TaskId, tenant: TenantId, token: nat, result: Option<string>, failed: bool,
                   policy: Policy, ctx: ClaimContext, now: int, p: PlanId)
    requires p in st.plans && Finish(st, id, tenant, token, result, failed, policy, ctx, now).Ok?
    ensures Advanced(st, Finish(st, id, tenant, token, result, failed, policy, ctx, now).value.0, p)
    ensures Finish(st, id, tenant, token, result, failed, policy, ctx, now).value.0.plans[p].attempts == st.plans[p].attempts
  {
    hide Advanced, Advances, NoSuccessOf, NoSuccess, FinishPlanned, FinishDirect;
    var after := Finish(st, id, tenant, token, result, failed, policy, ctx, now).value.0;
    var task := st.tasks[id];
    if task.status.IsTerminal() || task.plan.None? {
      SameAdvanced(st, after, p);
    } else {
      var q := task.plan.value.planId;
      FinishGrows(st.plans[q], task, result, failed, policy, ctx, now);
      OnePlanAdvanced(st, after, q, FinishPlanned(st.plans[q], task, result, failed, policy, ctx, now).value.0, p);
    }
  }

  lemma CancelGrew(st: Store, id: TaskId, tenant: TenantId, now: int, p: PlanId)
    requires p in st.plans && RequestCancel(st, id, tenant, now).Ok?
    ensures RowsGrew(st, RequestCancel(st, id, tenant, now).value, p)
  {
    hide RowsGrew, Grows, CancelPlanned;
    var after := RequestCancel(st, id, tenant, now).value;
    var task := st.tasks[id];
    if task.status.IsTerminal() || task.plan.None? {
      SameGrew(st, after, p);
    } else {
      var q := task.plan.value.planId;
      CancelGrows(st.plans[q], task, now);
      OnePlanGrew(st, after, q, CancelPlanned(st.plans[q], task, now).value, p);
    }
  }

  lemma SaveGrew(st: Store, input: PlanSpec, now: int, p: PlanId)
    requires p in st.plans && SavePlan(st, input, now).Ok?
    ensures RowsGrew(st, SavePlan(st, input, now).value, p)
  {
    hide RowsGrew, ValidStructure, NewPlan, FreshRec;
    SameGrew(st, SavePlan(st, input, now).value, p);
  }

  lemma ApproveGrew(st: Store, principal: Principal, a: Approval, key: Key, now: int, p: PlanId)
    requires p in st.plans && ApprovePlanOp(st, principal, a, key, now).Ok?
    ensures var after := ApprovePlanOp(st, principal, a, key, now).value;
            && LogsGrew(st, after, p)
            && (after.plans[p] == st.plans[p] || RecordedBy(st.plans[p], after.plans[p], principal, a, key))
            && after.plans[p].attempts == st.plans[p].attempts && NoSuccessOf(st, after, p)
  {
    hide LogGrows, Approve;
    var taken := ApprovalIdTaken(st, a.approvalId);
    ApproveGrows(st.plans[a.planId], principal, a, key, taken, now);
    SameGrew(st, st, p);
  }

  lemma ResumeGrew(st: Store, q: PlanId, view: ResumeView, now: int, p: PlanId)
    requires p in st.plans && ResumeWriteOp(st, q, view, now).Ok?
    ensures RowsGrew(st, ResumeWriteOp(st, q, view, now).value, p)
  {
    hide RowsGrew, Grows, ResumeWrite;
    ResumeGrows(st.plans[q], view, now);
    OnePlanGrew(st, ResumeWriteOp(st, q, view, now).value, q, ResumeWrite(st.plans[q], view, now).value, p);
  }

  lemma RowsThenLogs(before: Store, after: Store, p: PlanId)
    requires p in before.plans
    ensures RowsGrew(before, after, p) ==>
              Advanced(before, after, p) && NoSuccessOf(before, after, p) && after.plans[p].attempts == before.plans[p].attempts
    ensures Advanced(before, after, p) ==> LogsGrew(before, after, p) && after.plans[p].approvals == before.plans[p].approvals
  {
  }

  /** Every step other than a resolution keeps each log, or lets it grow without leaving unknown. */
  lemma StepGrew(st: Store, e: Event, p: PlanId)
    requires Governed(st, e) && p in st.plans && !e.op.OpResolve?
    ensures LogsGrew(st, Apply(st, e), p)
    ensures !e.op.OpApprove? ==> Advanced(st, Apply(st, e), p)
    ensures !e.op.OpClaim? ==> Apply(st, e).plans[p].attempts == st.plans[p].attempts
    ensures !e.op.OpFinish? ==> NoSuccessOf(st, Apply(st, e), p)
  {
    hide SavePlan, ApprovePlanOp, Submit, ClaimFrom, Finish, RequestCancel, RecoverAll, ResolvePlan, ResumeWriteOp, RowsGrew,
         Advanced, LogsGrew, NoSuccessOf, RecordedBy;
    RowsThenLogs(st, Apply(st, e), p);
    if Attempt(st, e).Err? {
      SameGrew(st, st, p);
    } else {
      match e.op {
        case OpSave(input) => SaveGrew(st, input, e.now, p);
        case OpApprove(principal, a, key) => ApproveGrew(st, principal, a, key, e.now, p);
        case OpSubmit(s, principal) => SubmitGrew(st, s, principal, e.now, p);
        case OpClaim(order, ctx, leaseFor) => ClaimFromGrew(st, order, ctx, e.now, e.now + leaseFor, p);
        case OpFinish(id, tenant, token, result, failed, policy, ctx) =>
          FinishGrew(st, id, tenant, token, result, failed, policy, ctx, e.now, p);
        case OpCancel(id, tenant) => CancelGrew(st, id, tenant, e.now, p);
        case OpRecover(order) => RecoverAllGrew(st, order, e.now, p);
        case OpResumeWrite(q, view) => ResumeGrew(st, q, view, e.now, p);
      }
    }
  }

  /** A resolution appends to its own plan only, and succeeds only for an Administrator. */
  lemma ResolutionGrew(st: Store, e: Event, p: PlanId)
    requires Governed(st, e) && p in st.plans && e.op.OpResolve?
    ensures p in Apply(st, e).plans && IsExtension(st.plans[p].log, Apply(st, e).plans[p].log)
    ensures SameTerms(st.plans[p], Apply(st, e).plans[p]) && NoSuccessOf(st, Apply(st, e), p)
    ensures IsAdminResolution(e, p) || Apply(st, e).plans[p] == st.plans[p]
  {
    hide Resolve;
    if Attempt(st, e).Ok? {
      var rec := st.plans[e.op.plan];
      ResolveGrew(rec, BoundTask(st, rec), e.op.principal, e.op.decision, e.op.key, e.op.evidence, e.now);
    }
  }

  lemma RunSteps(stores: seq<Store>, events: seq<Event>, i: nat)
    requires IsRun(stores, events) && i + 1 < |stores|
    ensures i < |events| && Governed(stores[i], events[i]) && stores[i + 1] == Apply(stores[i], events[i])
  {
    hide Apply, Governed;
    assert IsStep(stores[i], events[i], stores[i + 1]);
  }

  /** In a run, a plan once saved stays as it was specified, and its log only grows. */
  lemma {:induction false} AppendOnly(stores: seq<Store>, events: seq<Event>, i: nat, j: nat, p: PlanId)
    requires IsRun(stores, events) && i <= j < |stores| && p in stores[i].plans
    ensures p in stores[j].plans && IsExtension(stores[i].plans[p].log, stores[j].plans[p].log)
    ensures stores[j].plans[p].spec == stores[i].plans[p].spec
  {
    hide Apply, Governed, IsRun;
    if i < j {
      RunSteps(stores, events, j - 1);
      AppendOnly(stores, events, i, j - 1, p);
      if events[j - 1].op.OpResolve? {
        ResolutionGrew(stores[j - 1], events[j - 1], p);
      } else {
        StepGrew(stores[j - 1], events[j - 1], p);
      }
      ExtendsOn(stores[i].plans[p].log, stores[j - 1].plans[p].log, stores[j].plans[p].log);
    }
  }

  lemma NewPlansAreEmpty(st: Store, e: Event, p: PlanId)
    requires Governed(st, e) && p !in st.plans && p in Apply(st, e).plans
    ensures Apply(st, e).plans[p].log == [] && Apply(st, e).plans[p].approvals == []
  {
    if Attempt(st, e).Ok? {
      if e.op.OpSave? {
        hide ValidStructure, NewPlan;
      } else {
        OnlySaveAddsPlans(st, e);
      }
    }
  }

  lemma OnlySaveAddsPlans(st: Store, e: Event)
    requires Governed(st, e) && !e.op.OpSave? && Attempt(st, e).Ok?
    ensures Attempt(st, e).value.plans.Keys == st.plans.Keys
  {
    hide SavePlan, ApprovePlanOp, Submit, ClaimFrom, Finish, RequestCancel, RecoverAll, ResolvePlan, ResumeWriteOp;
    match e.op {
      case OpApprove(principal, a, key) => ApproveAddsNoPlan(st, principal, a, key, e.now);
      case OpSubmit(s, principal) => SubmitAddsNoPlan(st, s, principal, e.now);
      case OpClaim(order, ctx, leaseFor) => ClaimAddsNoPlan(st, order, ctx, e.now, e.now + leaseFor);
      case OpFinish(id, tenant, token, result, failed, policy, ctx) =>
        FinishAddsNoPlan(st, id, tenant, token, result, failed, policy, ctx, e.now);
      case OpCancel(id, tenant) => CancelAddsNoPlan(st, id, tenant, e.now);
      case OpRecover(order) => RecoverAddsNoPlan(st, order, e.now);
      case OpResolve(principal, p, decision, key, evidence) => ResolveAddsNoPlan(st, principal, p, decision, key, evidence, e.now);
      case OpResumeWrite(p, view) => ResumeAddsNoPlan(st, p, view, e.now);
    }
  }

  lemma ApproveAddsNoPlan(st: Store, principal: Principal, a: Approval, key: Key, now: int)
    requires ApprovePlanOp(st, principal, a, key, now).Ok?
    ensures ApprovePlanOp(st, principal, a, key, now).value.plans.Keys == st.plans.Keys
  {
    hide Approve;
  }

  lemma SubmitAddsNoPlan(st: Store, s: Submission, principal: Principal, now: int)
    requires Submit(st, s, principal, now).Ok?
    ensures Submit(st, s, principal, now).value.0.plans.Keys == st.plans.Keys
  {
    SubmitShape(st, s, principal, now);
    hide Submit, Admit, WindowStart, SubmissionOk, TasksWithKey;
  }

  lemma FinishAddsNoPlan(st: Store, id: TaskId, tenant: TenantId, token: nat, result: Option<string>, failed: bool,
                         policy: Policy, ctx: ClaimContext, now: int)
    requires Finish(st, id, tenant, token, result, failed, policy, ctx, now).Ok?
    ensures Finish(st, id, tenant, token, result, failed, policy, ctx, now).value.0.plans.Keys == st.plans.Keys
  {
    hide FinishPlanned, FinishDirect;
  }

  lemma CancelAddsNoPlan(st: Store, id: TaskId, tenant: TenantId, now: int)
    requires RequestCancel(st, id, tenant, now).Ok?
    ensures RequestCancel(st, id, tenant, now).value.plans.Keys == st.plans.Keys
  {
    hide CancelPlanned;
  }

  lemma ResolveAddsNoPlan(st: Store, principal: Principal, p: PlanId, decision: ResolutionDecision, key: Key,
                          evidence: Option<Digest>, now: int)
    requires ResolvePlan(st, principal, p, decision, key, evidence, now).Ok?
    ensures ResolvePlan(st, principal, p, decision, key, evidence, now).value.0.plans.Keys == st.plans.Keys
  {
    hide Resolve;
  }

  lemma ResumeAddsNoPlan(st: Store, p: PlanId, view: ResumeView, now: int)
    requires ResumeWriteOp(st, p, view, now).Ok?
    ensures ResumeWriteOp(st, p, view, now).value.plans.Keys == st.plans.Keys
  {
    hide ResumeWrite;
  }

  lemma {:induction false} ClaimAddsNoPlan(st: Store, order: seq<TaskId>, ctx: ClaimContext, now: int, until: int)
    requires (forall t :: t in order ==> t in st.tasks) && ClaimFrom(st, order, ctx, now, until).Ok?
    ensures ClaimFrom(st, order, ctx, now, until).value.0.plans.Keys == st.plans.Keys
  {
    hide PrepareClaim;
    if order != [] {
      assert forall t :: t in order[1..] ==> t in order;
      var task := st.tasks[order[0]];
      if task.plan.Some? && task.plan.value.planId in st.plans
        && PrepareClaim(st.plans[task.plan.value.planId], task, task.plan.value, ctx.(granted := task.capabilities), now).value.None? {
        ClaimFromAgain(st, order, ctx, now, until);
        ClaimAddsNoPlan(st, order[1..], ctx, now, until);
      }
    }
  }

  lemma ClaimFromAgain(st: Store, order: seq<TaskId>, ctx: ClaimContext, now: int, until: int)
    requires order != [] && (forall t :: t in order ==> t in st.tasks) && ClaimFrom(st, order, ctx, now, until).Ok?
    requires st.tasks[order[0]].plan.Some? && st.tasks[order[0]].plan.value.planId in st.plans
    requires var task := st.tasks[order[0]];
             PrepareClaim(st.plans[task.plan.value.planId], task, task.plan.value, ctx.(granted := task.capabilities), now) == Ok(None)
    ensures forall t :: t in order[1..] ==> t in st.tasks
    ensures ClaimFrom(st, order, ctx, now, until) == ClaimFrom(st, order[1..], ctx, now, until)
  {
    hide PrepareClaim;
    assert forall t :: t in order[1..] ==> t in order;
  }

  lemma {:induction false} RecoverAddsNoPlan(st: Store, order: seq<TaskId>, now: int)
    requires (forall t :: t in order ==> t in st.tasks) && RecoverAll(st, order, now).Ok?
    ensures RecoverAll(st, order, now).value.plans.Keys == st.plans.Keys
  {
    hide RecoverExpired;
    if order != [] {
      var n := |order| - 1;
      assert order == order[..n] + [order[n]];
      RecoverAddsNoPlan(st, order[..n], now);
    }
  }

  /** Every row of a log was appended by one operation of the run. */
  lemma {:induction false} WrittenAt(stores: seq<Store>, events: seq<Event>, n: nat, p: PlanId, k: nat) returns (i: nat)
    requires IsRun(stores, events) && n < |stores| && p in stores[n].plans && k < |stores[n].plans[p].log|
    ensures i < n && i < |events| && Governed(stores[i], events[i]) && stores[i + 1] == Apply(stores[i], events[i])
    ensures p in stores[i].plans && p in stores[i + 1].plans
    ensures |stores[i].plans[p].log| <= k < |stores[i + 1].plans[p].log|
    ensures stores[i + 1].plans[p].log[k] == stores[n].plans[p].log[k]
    ensures stores[i].plans[p].spec == stores[n].plans[p].spec
  {
    hide Apply, Governed, IsRun;
    FirstIsInitial(stores, events);
    i := n - 1;
    RunSteps(stores, events, i);
    if p !in stores[i].plans {
      NewPlansAreEmpty(stores[i], events[i], p);
    }
    AppendOnly(stores, events, i, n, p);
    if k < |stores[i].plans[p].log| {
      i := WrittenAt(stores, events, i, p, k);
    }
  }

  /** Every event that takes a plan or a step out of unknown was written by an Administrator's
      resolution of that plan: the operation is found in the run. */
  lemma OnlyAdministratorsResolve(stores: seq<Store>, events: seq<Event>, n: nat, p: PlanId, k: nat) returns (i: nat)
    requires IsRun(stores, events) && n < |stores| && p in stores[n].plans
    requires k < |stores[n].plans[p].log| && LeavesUnknown(stores[n].plans[p].log[k].body)
    ensures i < n && IsAdminResolution(events[i], p) && p in stores[i].plans && p in stores[i + 1].plans
    ensures |stores[i].plans[p].log| <= k < |stores[i + 1].plans[p].log|
  {
    hide Apply, Governed, IsRun, IsAdminResolution;
    i := WrittenAt(stores, events, n, p, k);
    if events[i].op.OpResolve? {
      ResolutionGrew(stores[i], events[i], p);
    } else {
      StepGrew(stores[i], events[i], p);
    }
  }

  /** Every stored approval was given in the run, by the principal it names, who may approve plans. */
  lemma {:induction false} ApprovalsAreGiven(stores: seq<Store>, events: seq<Event>, n: nat, p: PlanId, k: nat) returns (i: nat)
    requires IsRun(stores, events) && n < |stores| && p in stores[n].plans && k < |stores[n].plans[p].approvals|
    ensures i < n && i < |events| && IsApprovalOf(events[i], stores[n].plans[p].approvals[k])
  {
    hide Apply, Governed, IsRun, IsApprovalOf;
    FirstIsInitial(stores, events);
    i := n - 1;
    RunSteps(stores, events, i);
    if !GivenBefore(stores[i], stores[n], p, k) {
      GivenNow(stores[i], events[i], p, k);
    } else {
      i := ApprovalsAreGiven(stores, events, i, p, k);
    }
  }

  predicate GivenBefore(st: Store, after: Store, p: PlanId, k: nat) {
    && p in st.plans && p in after.plans && k < |st.plans[p].approvals| && k < |after.plans[p].approvals|
    && after.plans[p].approvals[k] == st.plans[p].approvals[k]
  }

  lemma GivenNow(st: Store, e: Event, p: PlanId, k: nat)
    requires Governed(st, e) && p in Apply(st, e).plans && k < |Apply(st, e).plans[p].approvals|
    requires !GivenBefore(st, Apply(st, e), p, k)
    ensures IsApprovalOf(e, Apply(st, e).plans[p].approvals[k])
  {
    hide Apply, Governed, IsApprovalOf;
    if p !in st.plans {
      NewPlansAreEmpty(st, e, p);
    }
    ApprovalAdded(st, e, p);
  }

  lemma FirstIsInitial(stores: seq<Store>, events: seq<Event>)
    requires IsRun(stores, events)
    ensures |stores| == |events| + 1 && stores[0].plans == map[]
  {
    hide IsStep;
  }

  /** The event records the approval for the principal who gives it. */
  predicate IsApprovalOf(e: Event, stored: StoredApproval) {
    && e.op.OpApprove? && e.op.approval == stored.approval && e.op.key == stored.key
    && e.op.principal.Allows(ApprovePlan) && e.op.principal.operator == stored.approval.approver
    && e.op.principal.role == stored.approval.approverRole
  }

  lemma ApprovalAdded(st: Store, e: Event, p: PlanId)
    requires Governed(st, e) && p in st.plans && p in Apply(st, e).plans
    requires Apply(st, e).plans[p].approvals != st.plans[p].approvals
    ensures var n := |st.plans[p].approvals|;
            var after := Apply(st, e).plans[p].approvals;
            |after| == n + 1 && after[..n] == st.plans[p].approvals && IsApprovalOf(e, after[n])
  {
    if e.op.OpResolve? {
      ResolutionGrew(st, e, p);
    } else {
      StepGrew(st, e, p);
    }
    hide SavePlan, ApprovePlanOp, Submit, ClaimFrom, Finish, RequestCancel, RecoverAll, ResolvePlan, ResumeWriteOp;
    assert Attempt(st, e).Ok? && e.op.OpApprove?;
    ApproveGrew(st, e.op.principal, e.op.approval, e.op.key, e.now, p);
  }
}
