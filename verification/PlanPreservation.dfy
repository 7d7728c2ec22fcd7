/** Finish, cancellation, lease expiry, human resolution and resumption keep the joint invariant. */
module PlanPreservation {
  import opened Base
  import opened PlanCore
  import opened TransitionLog
  import opened PlanTransactions
  import opened Journal
  import opened PlanInvariants

  function WithUnknown(steps: map<StepId, StepState>, id: Option<StepId>): map<StepId, StepState> {
    if id.Some? && id.value in steps then steps[id.value := StepUnknown] else steps
  }

  /** On the paths of governed runs the quarantine is always logged. */
  lemma MarkUnknownKeeps(rec: PlanRec, mid: PlanRec, id: Option<StepId>, digest: Option<Digest>, now: int)
    requires Quiet(rec, mid) && MarkUnknown(mid, id, digest, now).Ok?
    requires mid.state in {Running, CancelRequested, Compensating, Unknown}
    requires id.Some? && id.value in mid.steps ==> mid.steps[id.value] in {StepRunning, StepFailed, StepUnknown}
    ensures var r := MarkUnknown(mid, id, digest, now).value;
            && Quiet(rec, r)
            && r == mid.(state := Unknown, steps := WithUnknown(mid.steps, id), log := r.log, checkpoints := r.checkpoints)
  {
    hide Quiet, AppendPlan, AppendStep, AddCheckpoint, IsSha256;
    var r := mid;
    if mid.state != Unknown {
      QuietPlan(rec, mid, mid.state, Unknown, RecoveryPlanUnknown(now), now);
      r := AppendPlan(mid, mid.state, Unknown, RecoveryPlanUnknown(now), now).value;
    }
    if id.Some? && id.value in r.steps && r.steps[id.value] != StepUnknown {
      QuietStep(rec, r, id.value, r.steps[id.value], StepUnknown, RecoveryStepUnknown(id.value, now), now);
      r := AppendStep(r, id.value, r.steps[id.value], StepUnknown, RecoveryStepUnknown(id.value, now), now).value;
    }
    assert r.steps == WithUnknown(mid.steps, id);
    QuietCheckpoint(rec, r, id, Recovery, CheckpointUnknown, digest, now);
    assert AddCheckpoint(r, id, Recovery, CheckpointUnknown, digest, now) == MarkUnknown(mid, id, digest, now).value;
  }

  // ----- finish -----

  /** What holds when a leased step finishes without a pending cancellation. */
  ghost predicate Finishing(rec: PlanRec, task: TaskRow, id: StepId) {
    && RecOk(rec) && Joint(rec, Some(task))
    && task.planStep == Some(id) && id in rec.steps && rec.steps[id] == StepRunning && id in rec.attempts
    && task.status == TRunning && rec.state in {Running, Compensating}
  }

  lemma FinishCancelledKeeps(rec: PlanRec, task: TaskRow, id: StepId, digest: Option<Digest>, now: int)
    requires RecOk(rec) && Joint(rec, Some(task)) && FinishCancelled(rec, task, id, digest, now).Ok?
    requires task.planStep == Some(id) && id in rec.steps && rec.steps[id] == StepRunning
    requires task.status == TCancelRequested
    ensures var (r, t, _) := FinishCancelled(rec, task, id, digest, now).value;
            RecOk(r) && Joint(r, Some(t)) && r.spec == rec.spec
  {
    hide RecOk, MarkUnknown, Quiet;
    QuietStart(rec);
    MarkUnknownKeeps(rec, rec, Some(id), digest, now);
    var r := MarkUnknown(rec, Some(id), digest, now).value;
    QuietDone(rec, r);
  }

  /** A fresh success of the compensation step is the evidence its sources need. */
  lemma SuccessIsEvidence(steps: seq<PlanStep>, log: seq<LogRow>, longer: seq<LogRow>, target: StepId, source: StepId)
    requires |longer| == |log| + 1 && longer[|log|].body.MovesStep(target, StepRunning, StepSucceeded)
    requires Compensates(steps, target, source) && ReferencesKnown(steps)
    ensures CompensationEvidence(steps, longer, source)
  {
    assert EvidenceAt(steps, longer, source, target, |log|);
  }

  lemma SourcesHaveEvidence(rec: PlanRec, r2: PlanRec, target: StepId)
    requires ReferencesKnown(rec.spec.steps) && r2.spec == rec.spec
    requires |r2.log| == |rec.log| + 1 && r2.log[|rec.log|].body.MovesStep(target, StepRunning, StepSucceeded)
    ensures BatchRule(r2, Ascending(CompensationSources(r2, target)), r2.steps, StepCompensated)
  {
    forall id | id in CompensationSources(r2, target)
      ensures CompensationEvidence(r2.spec.steps, r2.log, id)
    {
      assert Compensates(r2.spec.steps, target, id);
      SuccessIsEvidence(r2.spec.steps, rec.log, r2.log, target, id);
    }
  }

  /** After the sources were compensated: the target has succeeded, exactly its waiting sources are
      compensated, and nothing else moved. */
  ghost predicate SourcesDone(rec: PlanRec, r: PlanRec, id: StepId) {
    && Quiet(rec, r) && r.spec == rec.spec && r.state == rec.state && r.steps.Keys == rec.steps.Keys
    && id in r.steps && r.steps[id] == StepSucceeded
    && forall j :: j in rec.steps && j != id ==>
         r.steps[j] == if j in CompensationSources(rec, id) then StepCompensated else rec.steps[j]
  }

  lemma CompensateSourcesKeeps(rec: PlanRec, r2: PlanRec, id: StepId, now: int)
    requires Quiet(rec, r2) && id in rec.steps
    requires r2 == rec.(steps := rec.steps[id := StepSucceeded], log := r2.log, checkpoints := r2.checkpoints)
    requires BatchRule(r2, Ascending(CompensationSources(r2, id)), r2.steps, StepCompensated)
    requires CompensateSources(r2, id, now).Ok?
    ensures SourcesDone(rec, CompensateSources(r2, id, now).value, id)
  {
    hide Quiet, MoveAll, BatchRule, CompensationSources, SourcesDone, Ascending, AddCheckpoint;
    var sources := Ascending(CompensationSources(r2, id));
    SourcesListed(r2, id);
    QuietBatch(rec, r2, sources, r2.steps, StepCompensated, ByCompensation, now);
    var r3 := MoveAll(r2, sources, r2.steps, StepCompensated, ByCompensation, now).value;
    QuietCheckpoint(rec, r3, Some(id), CompensationPhase, CheckpointSucceeded, None, now);
    SourcesMoved(rec, r2, r3, id, sources);
    SourcesDoneLater(rec, r3, CompensateSources(r2, id, now).value, id);
  }

  lemma SourcesListed(r2: PlanRec, id: StepId)
    ensures forall j :: j in Ascending(CompensationSources(r2, id)) <==> j in CompensationSources(r2, id)
    ensures forall j :: j in CompensationSources(r2, id) ==> j in r2.steps
  {
    hide CompensationSources;
  }

  lemma SourcesMoved(rec: PlanRec, r2: PlanRec, r3: PlanRec, id: StepId, sources: seq<StepId>)
    requires Quiet(rec, r3) && id in rec.steps && r2.spec == rec.spec && r2.state == rec.state
    requires r2.steps == rec.steps[id := StepSucceeded] && r3 == r2.(steps := r3.steps, log := r3.log)
    requires forall j :: j in sources <==> j in CompensationSources(r2, id)
    requires r3.steps.Keys == r2.steps.Keys
    requires forall j :: j in r2.steps ==> r3.steps[j] == if j in sources then StepCompensated else r2.steps[j]
    ensures SourcesDone(rec, r3, id)
  {
    TargetIsNoSource(r2, id);
    SameSources(rec, r2, id);
    hide Quiet, CompensationSources;
  }

  lemma SourcesDoneLater(rec: PlanRec, r3: PlanRec, r: PlanRec, id: StepId)
    requires SourcesDone(rec, r3, id) && Quiet(rec, r) && r == r3.(checkpoints := r.checkpoints)
    ensures SourcesDone(rec, r, id)
  {
    hide Quiet, CompensationSources;
  }

  lemma SameSources(rec: PlanRec, r2: PlanRec, id: StepId)
    requires id in rec.steps && r2.spec == rec.spec && r2.steps == rec.steps[id := StepSucceeded]
    ensures forall j :: j != id ==> (j in CompensationSources(r2, id) <==> j in CompensationSources(rec, id))
  {
    forall j | j != id ensures j in CompensationSources(r2, id) <==> j in CompensationSources(rec, id) {
      if j in CompensationSources(r2, id) {
        var s :| s in rec.spec.steps && s.compensation == Some(id) && s.id == j && r2.steps[s.id] == StepCompensating;
        assert rec.steps[s.id] == StepCompensating;
      }
      if j in CompensationSources(rec, id) {
        var s :| s in rec.spec.steps && s.compensation == Some(id) && s.id == j && rec.steps[s.id] == StepCompensating;
        assert r2.steps[s.id] == StepCompensating;
      }
    }
  }

  lemma TargetIsNoSource(rec: PlanRec, id: StepId)
    requires id in rec.steps && rec.steps[id] == StepSucceeded
    ensures id !in CompensationSources(rec, id)
  {
  }

  lemma AfterCompensationKeeps(rec: PlanRec, r3: PlanRec, task: TaskRow, id: StepId, result: Option<string>, now: int)
    requires Finishing(rec, task, id) && rec.state == Compensating && SourcesDone(rec, r3, id)
    requires AfterCompensation(r3, task, result, now).Ok?
    ensures var (r, t, _) := AfterCompensation(r3, task, result, now).value;
            RecOk(r) && Joint(r, Some(t)) && r.spec == rec.spec
  {
    hide RecOk, Quiet, Joint, AppendPlan;
    var (r, t, _) := AfterCompensation(r3, task, result, now).value;
    if StepsWhere(r3.steps, {StepCompensating}) == {} {
      NoneWhere(r3.steps, StepCompensating);
      QuietPlan(rec, r3, Compensating, Compensated, CompensationPlan, now);
    }
    QuietDone(rec, r);
    JointAfterFinish(rec, r, task, t, id);
  }

  lemma NoneWhere(steps: map<StepId, StepState>, state: StepState)
    requires StepsWhere(steps, {state}) == {}
    ensures forall id :: id in steps ==> steps[id] != state
  {
    assert forall id :: id in steps && steps[id] == state ==> id in StepsWhere(steps, {state});
  }

  /** The task gives its lease back; the finished step ended, other steps may only have been compensated. */
  lemma JointAfterFinish(rec: PlanRec, r: PlanRec, task: TaskRow, t: TaskRow, id: StepId)
    requires Finishing(rec, task, id) && r.spec == rec.spec
    requires r.steps.Keys == rec.steps.Keys && r.steps[id] != StepRunning
    requires forall j :: j in rec.steps && j != id ==> r.steps[j] == rec.steps[j] || r.steps[j] == StepCompensated
    requires r.steps[id] in {StepSucceeded, StepReady, StepUnknown, StepFailed}
    requires r.steps[id] == StepFailed ==> r.state == Failed
    requires r.steps[id] == StepUnknown ==> r.state == Unknown
    requires StatusOk(r.state, t.status) && t.status in {TQueued, TSucceeded, TFailed}
    requires r.state in {Running, Compensating, Unknown, Failed, Succeeded, Compensated}
    requires r.state == Running ==> rec.state == Running
    requires r.state == Succeeded ==> forall j :: j in r.steps ==> r.steps[j] == StepSucceeded
    requires r.state == Compensated ==> forall j :: j in r.steps ==> r.steps[j] != StepCompensating
    requires t == task.Release(t.status).(result := t.result, nextAttemptAt := t.nextAttemptAt, completedAt := t.completedAt)
    ensures Joint(r, Some(t))
  {
    hide RecOk;
  }

  lemma EndStepKeeps(rec: PlanRec, id: StepId, to: StepState, key: Key, status: CheckpointStatus,
                     digest: Option<Digest>, now: int)
    requires RecOk(rec) && to in {StepSucceeded, StepFailed} && EndStep(rec, id, to, key, status, digest, now).Ok?
    ensures var r := EndStep(rec, id, to, key, status, digest, now).value;
            && Quiet(rec, r) && id in rec.steps
            && r == rec.(steps := rec.steps[id := to], log := r.log, checkpoints := r.checkpoints)
            && |r.log| == |rec.log| + 1 && r.log[|rec.log|].body.MovesStep(id, StepRunning, to)
  {
    assert Journaled(rec);
    hide RecOk, Quiet, AppendStep, AddCheckpoint, Journaled, IsSha256, Starts;
    QuietStart(rec);
    QuietStep(rec, rec, id, StepRunning, to, key, now);
    AppendStepKeeps(rec, id, StepRunning, to, key, now);
    var r := AppendStep(rec, id, StepRunning, to, key, now).value;
    QuietCheckpoint(rec, r, Some(id), AfterStep, status, digest, now);
  }

  lemma AfterSuccessKeeps(rec: PlanRec, r2: PlanRec, task: TaskRow, id: StepId, result: Option<string>, now: int)
    requires Finishing(rec, task, id) && rec.state == Running && Quiet(rec, r2)
    requires r2 == rec.(steps := rec.steps[id := StepSucceeded], log := r2.log, checkpoints := r2.checkpoints)
    requires AfterSuccess(r2, task, result, now).Ok?
    ensures var (r, t, _) := AfterSuccess(r2, task, result, now).value;
            RecOk(r) && Joint(r, Some(t)) && r.spec == rec.spec
  {
    hide RecOk, Quiet, Joint, AppendPlan;
    var (r, t, _) := AfterSuccess(r2, task, result, now).value;
    if StepsWhere(r2.steps, {StepSucceeded}) == r2.steps.Keys {
      AllWhere(r2.steps, StepSucceeded);
      QuietPlan(rec, r2, Running, Succeeded, FinishPlanSucceeded, now);
    }
    QuietDone(rec, r);
    JointAfterFinish(rec, r, task, t, id);
  }

  lemma FinishSuccessKeeps(rec: PlanRec, task: TaskRow, id: StepId, result: Option<string>, digest: Option<Digest>, now: int)
    requires Finishing(rec, task, id) && FinishSuccess(rec, task, id, result, digest, now).Ok?
    ensures var (r, t, _) := FinishSuccess(rec, task, id, result, digest, now).value;
            RecOk(r) && Joint(r, Some(t)) && r.spec == rec.spec
  {
    assert ReferencesKnown(rec.spec.steps);
    hide RecOk, Quiet, Joint, EndStep, BatchRule, CompensateSources, AfterCompensation, AfterSuccess,
         ReferencesKnown, SourcesDone;
    var key := FinishSucceeded(id, rec.attempts[id]);
    EndStepKeeps(rec, id, StepSucceeded, key, CheckpointSucceeded, digest, now);
    var r2 := EndStep(rec, id, StepSucceeded, key, CheckpointSucceeded, digest, now).value;
    if rec.state == Compensating {
      SourcesHaveEvidence(rec, r2, id);
      CompensateSourcesKeeps(rec, r2, id, now);
      AfterCompensationKeeps(rec, CompensateSources(r2, id, now).value, task, id, result, now);
    } else {
      AfterSuccessKeeps(rec, r2, task, id, result, now);
    }
  }

  lemma AllWhere(steps: map<StepId, StepState>, state: StepState)
    requires StepsWhere(steps, {state}) == steps.Keys
    ensures forall id :: id in steps ==> steps[id] == state
  {
    forall id | id in steps ensures steps[id] == state {
      assert id in StepsWhere(steps, {state});
    }
  }

  lemma AfterFailureKeeps(rec: PlanRec, r2: PlanRec, task: TaskRow, id: StepId, attempts: nat, retry: bool,
                          policy: Policy, digest: Option<Digest>, now: int)
    requires Finishing(rec, task, id) && Quiet(rec, r2)
    requires r2 == rec.(steps := rec.steps[id := StepFailed], log := r2.log, checkpoints := r2.checkpoints)
    requires retry ==> RetryRule(r2.spec.steps, r2.log, id)
    requires AfterFailure(r2, task, id, attempts, retry, policy, digest, now).Ok?
    ensures var (r, t, _) := AfterFailure(r2, task, id, attempts, retry, policy, digest, now).value;
            RecOk(r) && Joint(r, Some(t)) && r.spec == rec.spec
  {
    hide RecOk, Quiet, Joint, AppendPlan, AppendStep, MarkUnknown, RetryDelay, RetryRule;
    var (r, t, _) := AfterFailure(r2, task, id, attempts, retry, policy, digest, now).value;
    if rec.state == Compensating {
      MarkUnknownKeeps(rec, r2, Some(id), digest, now);
    } else if retry {
      QuietStep(rec, r2, id, StepFailed, StepReady, RetryReady(id, attempts), now);
    } else {
      QuietPlan(rec, r2, Running, Failed, FinishPlanFailed, now);
    }
    QuietDone(rec, r);
    JointAfterFinish(rec, r, task, t, id);
  }

  lemma FinishFailureKeeps(rec: PlanRec, task: TaskRow, id: StepId, s: PlanStep, policy: Policy,
                           digest: Option<Digest>, now: int)
    requires Finishing(rec, task, id) && s in rec.spec.steps && s.id == id
    requires FinishFailure(rec, task, id, s.maxAttempts, policy, digest, now).Ok?
    ensures var (r, t, _) := FinishFailure(rec, task, id, s.maxAttempts, policy, digest, now).value;
            RecOk(r) && Joint(r, Some(t)) && r.spec == rec.spec
  {
    assert UniqueIds(rec.spec.steps) && rec.attempts[id] == Starts(rec.log, id);
    hide RecOk, Quiet, Joint, EndStep, AfterFailure, UniqueIds, Starts, RetryRule;
    var attempts := rec.attempts[id];
    EndStepKeeps(rec, id, StepFailed, FinishFailed(id, attempts), CheckpointFailed, digest, now);
    var r2 := EndStep(rec, id, StepFailed, FinishFailed(id, attempts), CheckpointFailed, digest, now).value;
    var retry := policy.retryable && attempts < s.maxAttempts;
    if retry {
      MayRetry(rec, r2, s);
    }
    AfterFailureKeeps(rec, r2, task, id, attempts, retry, policy, digest, now);
  }

  lemma MayRetry(rec: PlanRec, r2: PlanRec, s: PlanStep)
    requires UniqueIds(rec.spec.steps) && s in rec.spec.steps && Quiet(rec, r2)
    requires Starts(rec.log, s.id) < s.maxAttempts
    ensures RetryRule(r2.spec.steps, r2.log, s.id)
  {
    hide Starts, Journaled;
  }

  lemma FinishKeeps(rec: PlanRec, task: TaskRow, result: Option<string>, failed: bool, policy: Policy,
                    ctx: ClaimContext, now: int)
    requires RecOk(rec) && Joint(rec, Some(task))
    requires FinishPlanned(rec, task, result, failed, policy, ctx, now).Ok?
    ensures var (r, t, _) := FinishPlanned(rec, task, result, failed, policy, ctx, now).value;
            RecOk(r) && Joint(r, Some(t)) && r.spec == rec.spec
  {
    hide RecOk, PostStepOk, LoadPlan, FinishCancelled, FinishSuccess, FinishFailure;
    var id := task.planStep.value;
    if task.cancelRequested || task.status == TCancelRequested {
      FinishCancelledKeeps(rec, task, id, ctx.stateDigest, now);
    } else if !failed && PostStepOk(rec, task, id, ctx, now) {
      FinishSuccessKeeps(rec, task, id, result, ctx.stateDigest, now);
    } else {
      FinishFailureKeeps(rec, task, id, FindStep(rec.spec.steps, id).value, policy, ctx.stateDigest, now);
    }
  }

  // ----- cancellation and lease expiry -----

  /** The task row after `request_cancel`. */
  function CancelledTask(task: TaskRow, now: int): TaskRow {
    if task.status == TQueued then task.(status := TCancelled, cancelRequested := true, completedAt := Some(now))
    else task.(status := TCancelRequested, cancelRequested := true, completedAt := None)
  }

  lemma CancelQueuedKeeps(rec: PlanRec, now: int)
    requires RecOk(rec) && rec.state in {Approved, Running} && CancelQueued(rec, now).Ok?
    ensures var r := CancelQueued(rec, now).value;
            && Quiet(rec, r) && r.spec == rec.spec && r.state == Cancelled && r.steps.Keys == rec.steps.Keys
            && (forall id :: id in rec.steps ==> r.steps[id] == rec.steps[id] || r.steps[id] == StepCancelled)
  {
    hide RecOk, Quiet, AppendPlan, MoveAll, BatchRule;
    QuietStart(rec);
    QuietPlan(rec, rec, rec.state, CancelRequested, CancelPlanRequested, now);
    var r1 := AppendPlan(rec, rec.state, CancelRequested, CancelPlanRequested, now).value;
    var ids := Ascending(StepsWhere(r1.steps, {StepPending, StepReady, StepAwaitingApproval}));
    CancelBatch(r1, ids);
    QuietBatch(rec, r1, ids, r1.steps, StepCancelled, ByCancel, now);
    var r2 := MoveAll(r1, ids, r1.steps, StepCancelled, ByCancel, now).value;
    QuietPlan(rec, r2, CancelRequested, Cancelled, CancelPlanCompleted, now);
  }

  lemma CancelKeeps(rec: PlanRec, task: TaskRow, now: int)
    requires RecOk(rec) && Joint(rec, Some(task)) && !task.status.IsTerminal() && CancelPlanned(rec, task, now).Ok?
    ensures var r := CancelPlanned(rec, task, now).value;
            RecOk(r) && Joint(r, Some(CancelledTask(task, now))) && r.spec == rec.spec
  {
    hide RecOk, Quiet, AppendPlan, LoadPlan, CancelQueued, Joint, CancelledTask, StepsOk, OnlyRunning, LeasedStepOk;
    QuietStart(rec);
    CancellableStates(rec, task);
    var r := CancelPlanned(rec, task, now).value;
    if task.status == TQueued {
      CancelQueuedKeeps(rec, now);
    } else if task.status == TRunning && rec.state == Running {
      QuietPlan(rec, rec, Running, CancelRequested, CancelPlanRequested, now);
    }
    QuietDone(rec, r);
    JointAfterCancel(rec, task, r, now);
  }

  lemma CancellableStates(rec: PlanRec, task: TaskRow)
    requires Joint(rec, Some(task))
    ensures task.status == TQueued ==> rec.state in {Approved, Running, Compensating, Unknown}
  {
  }

  lemma JointAfterCancel(rec: PlanRec, task: TaskRow, r: PlanRec, now: int)
    requires Joint(rec, Some(task)) && !task.status.IsTerminal() && rec.state !in {Unknown, Compensating}
    requires r.spec == rec.spec
    requires if task.status == TQueued then
               r.state == Cancelled && r.steps.Keys == rec.steps.Keys
               && forall id :: id in rec.steps ==> r.steps[id] in {rec.steps[id], StepCancelled}
             else r.steps == rec.steps && r.state == if task.status == TRunning && rec.state == Running then CancelRequested else rec.state
    ensures Joint(r, Some(CancelledTask(task, now)))
  {
  }

  lemma CancelBatch(rec: PlanRec, ids: seq<StepId>)
    requires forall id :: id in ids ==> id in rec.steps
    ensures BatchRule(rec, ids, rec.steps, StepCancelled)
  {
  }

  lemma RecoverExpiredKeeps(rec: PlanRec, task: TaskRow, now: int)
    requires RecOk(rec) && Joint(rec, Some(task)) && task.status.IsLeased() && RecoverExpired(rec, task, now).Ok?
    ensures var (r, t) := RecoverExpired(rec, task, now).value;
            RecOk(r) && Joint(r, Some(t)) && r.spec == rec.spec && r.state == Unknown && t.status.IsTerminal()
  {
    hide RecOk, Quiet, MarkUnknown, LoadPlan;
    QuietStart(rec);
    MarkUnknownKeeps(rec, rec, task.planStep, None, now);
    QuietDone(rec, RecoverExpired(rec, task, now).value.0);
  }
}
