/** The joint invariant of a governed plan and its task, kept by every transaction. */
module PlanInvariants {
  import opened Base
  import opened PlanCore
  import opened PlanVerification
  import opened TransitionLog
  import opened PlanTransactions
  import opened Journal

  /** Snapshot rows, log, checkpoints and attempt counters of one plan agree. */
  ghost predicate RecOk(rec: PlanRec) {
    && ValidStructure(rec.spec) && DigestOk(rec.spec)
    && Journaled(rec)
    && AttemptsOk(rec)
    && CheckpointsOk(rec.checkpoints)
  }

  ghost predicate AttemptsOk(rec: PlanRec) {
    && rec.attempts.Keys == Ids(rec.spec.steps)
    && forall id :: id in rec.attempts ==> rec.attempts[id] == Starts(rec.log, id)
  }

  /** A lease token, a lease end and (for planned tasks) a leased step exist exactly while the task is
      running or cancellation is requested; the cancellation flag follows the status. */
  predicate TaskOk(t: TaskRow) {
    && (t.leaseToken.Some? <==> t.status.IsLeased())
    && (t.leaseUntil.Some? <==> t.status.IsLeased())
    && (t.planStep.Some? <==> t.status.IsLeased() && t.plan.Some?)
    && (t.cancelRequested <==> t.status == TCancelRequested || t.status == TCancelled)
  }

  /** Step states the engine never uses, and the ones tied to the plan's state. */
  predicate StepsOk(state: PlanState, steps: map<StepId, StepState>) {
    && state !in {Proposed, Validated, AwaitingApproval, Paused}
    && (forall id :: id in steps ==> steps[id] !in {StepBlocked, StepAwaitingApproval, StepCancelRequested})
    && (forall id :: id in steps ==> steps[id] == StepFailed ==> state == Failed)
    && (state in {Draft, Approved, Rejected} ==> forall id :: id in steps ==> steps[id] == StepPending)
    && (state == Succeeded ==> forall id :: id in steps ==> steps[id] == StepSucceeded)
    && (state in {Running, CancelRequested} ==> forall id :: id in steps ==> steps[id] != StepUnknown)
    && (state == Compensated ==> forall id :: id in steps ==> steps[id] != StepCompensating)
  }

  /** Only the leased step may be running. */
  predicate OnlyRunning(steps: map<StepId, StepState>, leased: Option<StepId>) {
    forall id :: id in steps && steps[id] == StepRunning ==> leased == Some(id)
  }

  /** The step a lease names is running while the plan is live, or unknown once it is quarantined. */
  predicate LeasedStepOk(state: PlanState, steps: map<StepId, StepState>, leased: Option<StepId>) {
    leased.Some? ==>
      && leased.value in steps
      && (|| (steps[leased.value] == StepRunning && state in {Running, Compensating, CancelRequested})
          || (steps[leased.value] == StepUnknown && state == Unknown))
  }

  /** Which plan states go with which task status. */
  predicate StatusOk(state: PlanState, status: TaskStatus) {
    match status
    case TQueued => state in {Approved, Running, Compensating, Unknown}
    case TRunning => state in {Running, Compensating, Unknown}
    case TCancelRequested => state in {CancelRequested, Unknown}
    case TSucceeded => state == Succeeded
    case TFailed => state in {Failed, Compensated, Unknown}
    case TCancelled => state in {Cancelled, Unknown}
  }

  ghost predicate Joint(rec: PlanRec, task: Option<TaskRow>) {
    && StepsOk(rec.state, rec.steps)
    && match task
       case None => rec.state in {Draft, Approved, Rejected}
       case Some(t) =>
         && TaskOk(t)
         && t.plan == Some(PlanRef(rec.spec.planId, rec.spec.revision, rec.spec.digest))
         && t.taskId == rec.spec.taskId && t.tenant == rec.spec.tenant
         && StatusOk(rec.state, t.status)
         && OnlyRunning(rec.steps, t.planStep)
         && LeasedStepOk(rec.state, rec.steps, t.planStep)
  }

  // ----- small facts -----

  lemma FoldIsReplay(ids: set<StepId>, log: seq<LogRow>)
    ensures FoldLog(ids, log).Folded? <==> ChainOk(log) && Replay(ids, log).Some?
    ensures FoldLog(ids, log).Folded? ==> FoldLog(ids, log).reduced == Replay(ids, log).value
  {
    if log != [] {
      var n := |log| - 1;
      FoldIsReplay(ids, log[..n]);
      ChainSplit(log);
    }
  }

  lemma ChainSplit(log: seq<LogRow>)
    requires log != []
    ensures ChainOk(log) <==> ChainOk(log[..|log| - 1]) && LinkOk(log, |log| - 1)
  {
    var n := |log| - 1;
    if ChainOk(log) {
      forall i | 0 <= i < n ensures LinkOk(log[..n], i) { assert LinkOk(log, i); }
    }
    if ChainOk(log[..n]) && LinkOk(log, n) {
      forall i | 0 <= i <= n ensures LinkOk(log, i) {
        if i < n { assert LinkOk(log[..n], i); }
      }
    }
  }

  /** An inspection of a consistent plan reports nothing. */
  lemma InspectStable(rec: PlanRec)
    requires RecOk(rec)
    ensures Inspect(rec) == None
  {
    FoldIsReplay(Ids(rec.spec.steps), rec.log);
  }

  lemma StepKeys(rec: PlanRec)
    requires Journaled(rec)
    ensures rec.steps.Keys == Ids(rec.spec.steps)
  {
    ReplayKeys(Ids(rec.spec.steps), rec.log);
  }

  lemma CheckpointAppend(rec: PlanRec, id: Option<StepId>, phase: CheckpointPhase, status: CheckpointStatus,
                         digest: Option<Digest>, now: int)
    requires CheckpointsOk(rec.checkpoints)
    ensures CheckpointsOk(AddCheckpoint(rec, id, phase, status, digest, now).checkpoints)
  {
  }

  /** `r` is `rec` after appends that start no step and after checkpoints; nothing else changed. */
  ghost predicate Quiet(rec: PlanRec, r: PlanRec) {
    && r == rec.(state := r.state, steps := r.steps, log := r.log, checkpoints := r.checkpoints)
    && Journaled(r)
    && CheckpointsOk(r.checkpoints)
    && forall id :: Starts(r.log, id) == Starts(rec.log, id)
  }

  lemma QuietStart(rec: PlanRec)
    requires RecOk(rec)
    ensures Quiet(rec, rec)
  {
  }

  lemma QuietDone(rec: PlanRec, r: PlanRec)
    requires RecOk(rec) && Quiet(rec, r)
    ensures RecOk(r)
  {
    hide ValidStructure, DigestOk, Journaled, CheckpointsOk, Starts;
  }

  lemma QuietPlan(rec: PlanRec, mid: PlanRec, a: PlanState, b: PlanState, key: Key, now: int)
    requires Quiet(rec, mid) && AppendPlan(mid, a, b, key, now).Ok?
    requires PlanRule(Reduced(mid.state, mid.steps), b, key)
    ensures var r := AppendPlan(mid, a, b, key, now).value;
            && Quiet(rec, r) && r == mid.(state := b, log := r.log) && mid.state == a && a.CanMoveTo(b)
            && |r.log| == |mid.log| + 1
  {
    AppendPlanKeeps(mid, a, b, key, now);
    hide Journaled, Starts, AppendPlan;
  }

  lemma QuietStep(rec: PlanRec, mid: PlanRec, id: StepId, a: StepState, b: StepState, key: Key, now: int)
    requires Quiet(rec, mid) && AppendStep(mid, id, a, b, key, now).Ok? && b != StepRunning
    requires StepRule(mid.spec.steps, Reduced(mid.state, mid.steps), mid.log, id, a, b)
    ensures var r := AppendStep(mid, id, a, b, key, now).value;
            && Quiet(rec, r) && r == mid.(steps := mid.steps[id := b], log := r.log)
            && id in mid.steps && mid.steps[id] == a && a.CanMoveTo(b) && |r.log| == |mid.log| + 1
  {
    AppendStepKeeps(mid, id, a, b, key, now);
    hide Journaled, Starts, AppendStep, StepRule;
  }

  lemma QuietBatch(rec: PlanRec, mid: PlanRec, ids: seq<StepId>, from: map<StepId, StepState>, to: StepState,
                   kind: MoveKind, now: int)
    requires Quiet(rec, mid) && BatchRule(mid, ids, from, to)
    requires MoveAll(mid, ids, from, to, kind, now).Ok?
    ensures var r := MoveAll(mid, ids, from, to, kind, now).value;
            && Quiet(rec, r) && r == mid.(steps := r.steps, log := r.log)
            && r.steps.Keys == mid.steps.Keys
            && (forall id :: id in mid.steps ==> r.steps[id] == if id in ids then to else mid.steps[id])
  {
    MoveAllKeeps(mid, ids, from, to, kind, now);
    hide Journaled, Starts, MoveAll, BatchRule;
  }

  lemma QuietCheckpoint(rec: PlanRec, mid: PlanRec, id: Option<StepId>, phase: CheckpointPhase,
                        status: CheckpointStatus, digest: Option<Digest>, now: int)
    requires Quiet(rec, mid)
    ensures var r := AddCheckpoint(mid, id, phase, status, digest, now);
            Quiet(rec, r) && r == mid.(checkpoints := r.checkpoints)
  {
    CheckpointAppend(mid, id, phase, status, digest, now);
    hide Starts;
  }

  // ----- admission and approval -----

  lemma AdmitKeeps(rec: PlanRec, principal: Principal, taskId: TaskId, ref: PlanRef, now: int)
    requires RecOk(rec) && Joint(rec, None) && Admit(rec, principal, taskId, ref, now).Ok?
    ensures var r := Admit(rec, principal, taskId, ref, now).value;
            && RecOk(r) && r == rec.(state := Approved, log := r.log, checkpoints := r.checkpoints)
            && taskId == rec.spec.taskId && principal.tenant == rec.spec.tenant
            && ref == PlanRef(rec.spec.planId, rec.spec.revision, rec.spec.digest)
  {
    hide RecOk, Quiet, PreflightOk, ValidStructure, DigestOk, AppendPlan;
    QuietStart(rec);
    var r1, r2 := rec, rec;
    if rec.state.Draft? {
      QuietPlan(rec, rec, Draft, Proposed, AdmissionProposed, now);
      r1 := AppendPlan(rec, Draft, Proposed, AdmissionProposed, now).value;
      QuietPlan(rec, r1, Proposed, Validated, AdmissionValidated, now);
      r2 := AppendPlan(r1, Proposed, Validated, AdmissionValidated, now).value;
      QuietPlan(rec, r2, Validated, Approved, AdmissionApproved, now);
      r2 := AppendPlan(r2, Validated, Approved, AdmissionApproved, now).value;
    }
    QuietCheckpoint(rec, r2, None, Preflight, CheckpointSucceeded, Some(rec.spec.digest), now);
    QuietDone(rec, Admit(rec, principal, taskId, ref, now).value);
  }

  /** What a decision did to the plan: nothing when it was recorded before; a rejection rejects it, an
      approval of the whole plan approves it, an approval of one step leaves its state; and only a draft
      changes state. */
  ghost predicate Decided(rec: PlanRec, r: PlanRec, a: Approval, outcome: ApprovalOutcome) {
    && r == rec.(state := r.state, log := r.log, checkpoints := r.checkpoints, approvals := r.approvals)
    && (outcome == WasExisting ==> r == rec)
    && (outcome == WasRejected ==> r.state == Rejected)
    && (outcome == WasApproved ==> r.state == if a.stepId.None? then Approved else rec.state)
    && (r.state != rec.state ==> rec.state == Draft)
  }

  lemma ApproveKeeps(rec: PlanRec, task: Option<TaskRow>, principal: Principal, a: Approval, key: Key, idTaken: bool, now: int)
    requires RecOk(rec) && Joint(rec, task) && Approve(rec, principal, a, key, idTaken, now).Ok?
    ensures var (r, outcome) := Approve(rec, principal, a, key, idTaken, now).value;
            RecOk(r) && Joint(r, task) && r.spec == rec.spec && Decided(rec, r, a, outcome)
  {
    hide RecOk, Joint, RecordApproval, LoadPlan, ApprovalShapeOk, SameIntent;
    if !ApprovalKeyUsed(rec.approvals, key) {
      RecordApprovalKeeps(rec, task, a, key, now);
    }
  }

  lemma JointSteps(rec: PlanRec, task: Option<TaskRow>)
    requires Joint(rec, task)
    ensures StepsOk(rec.state, rec.steps)
  {
    hide StepsOk;
  }

  lemma RecordApprovalKeeps(rec: PlanRec, task: Option<TaskRow>, a: Approval, key: Key, now: int)
    requires RecOk(rec) && Joint(rec, task) && RecordApproval(rec, a, key, now).Ok?
    ensures var (r, outcome) := RecordApproval(rec, a, key, now).value;
            RecOk(r) && Joint(r, task) && r.spec == rec.spec && Decided(rec, r, a, outcome)
  {
    hide RecOk, Quiet, AppendPlan, ApproveTransitions, Joint, StepsOk;
    var stored := rec.(approvals := rec.approvals + [StoredApproval(a, key)]);
    ApprovalsAreAside(rec, stored);
    JointSteps(rec, task);
    QuietStart(stored);
    var r := RecordApproval(rec, a, key, now).value.0;
    if a.decision == ApprovedDecision {
      var moved := stored;
      if a.stepId.None? {
        ApproveTransitionsKeep(stored, a.approvalId, now);
        moved := ApproveTransitions(stored, a.approvalId, now).value;
      }
      QuietCheckpoint(stored, moved, a.stepId, ApprovalPhase, CheckpointSucceeded, None, now);
    } else {
      QuietPlan(stored, stored, rec.state, Rejected, ApprovalRejected(a.approvalId), now);
      QuietCheckpoint(stored, AppendPlan(stored, rec.state, Rejected, ApprovalRejected(a.approvalId), now).value,
                      a.stepId, ApprovalPhase, CheckpointFailed, None, now);
    }
    QuietDone(stored, r);
    NeverProposed(rec, task);
    JointAfterApproval(rec, r, task);
  }

  lemma NeverProposed(rec: PlanRec, task: Option<TaskRow>)
    requires Joint(rec, task)
    ensures rec.state !in {Proposed, Validated, AwaitingApproval}
  {
  }

  lemma JointAfterApproval(rec: PlanRec, r: PlanRec, task: Option<TaskRow>)
    requires Joint(rec, task) && r.spec == rec.spec && r.steps == rec.steps
    requires r.state == rec.state || (rec.state == Draft && r.state in {Approved, Rejected})
      || (rec.state in {Proposed, Validated, AwaitingApproval})
    ensures Joint(r, task)
  {
  }

  lemma ApprovalsAreAside(rec: PlanRec, r: PlanRec)
    requires RecOk(rec) && r == rec.(approvals := r.approvals)
    ensures RecOk(r)
  {
  }

  lemma ApproveTransitionsKeep(rec: PlanRec, id: nat, now: int)
    requires RecOk(rec) && StepsOk(rec.state, rec.steps) && ApproveTransitions(rec, id, now).Ok?
    ensures var r := ApproveTransitions(rec, id, now).value;
            Quiet(rec, r) && rec.state == Draft && r == rec.(state := Approved, log := r.log)
  {
    hide RecOk, Quiet, AppendPlan;
    QuietStart(rec);
    if rec.state.Draft? {
      QuietPlan(rec, rec, Draft, Proposed, ApprovalProposed(id), now);
      var r1 := AppendPlan(rec, Draft, Proposed, ApprovalProposed(id), now).value;
      QuietPlan(rec, r1, Proposed, Validated, ApprovalValidated(id), now);
      var r2 := AppendPlan(r1, Proposed, Validated, ApprovalValidated(id), now).value;
      QuietPlan(rec, r2, Validated, Approved, ApprovalApproved(id), now);
    }
  }

  // ----- claim -----

  /** What the claim knows about the step it selects. */
  lemma SelectedStep(rec: PlanRec, task: TaskRow, ctx: ClaimContext, now: int) returns (s: PlanStep)
    requires SelectStep(rec, task, ctx, now).Some?
    ensures s in rec.spec.steps && SelectStep(rec, task, ctx, now) == Some(s.id)
    ensures Claimable(rec, task, ctx, s, now)
    ensures forall o :: o in rec.spec.steps && Claimable(rec, task, ctx, o, now) ==> s.id <= o.id
  {
    var id := SelectStep(rec, task, ctx, now).value;
    assert id in ClaimableIds(rec, task, ctx, now);
    s :| s in rec.spec.steps && Claimable(rec, task, ctx, s, now) && s.id == id;
    hide Claimable;
    forall o | o in rec.spec.steps && Claimable(rec, task, ctx, o, now) ensures s.id <= o.id {
      assert o.id in ClaimableIds(rec, task, ctx, now);
    }
  }

  /** If any step is claimable then so is every one that waits freely. */
  lemma FreeIsClaimable(rec: PlanRec, task: TaskRow, ctx: ClaimContext, s: PlanStep, o: PlanStep, now: int)
    requires UniqueIds(rec.spec.steps) && s in rec.spec.steps && Claimable(rec, task, ctx, s, now)
    requires rec.state != Compensating && o in rec.spec.steps && WaitsFreely(Reduced(Running, rec.steps), o)
    ensures Claimable(rec, task, ctx, o, now)
  {
    hide WellFormed, UniqueIds, HasApproval;
    FoundById(rec.spec.steps, o);
  }

  lemma FoundById(steps: seq<PlanStep>, s: PlanStep)
    requires UniqueIds(steps) && s in steps
    ensures FindStep(steps, s.id) == Some(s)
  {
    var f := FindStep(steps, s.id);
    assert s.id in Ids(steps);
    SameIdSameStep(steps, f.value, s);
  }

  lemma ClaimableMayStart(rec: PlanRec, task: TaskRow, ctx: ClaimContext, s: PlanStep, now: int, state: PlanState)
    requires UniqueIds(rec.spec.steps) && s in rec.spec.steps && Claimable(rec, task, ctx, s, now)
    requires rec.state == Compensating ==> state == Compensating
    requires rec.state != Compensating ==> state == Running
    requires forall o :: o in rec.spec.steps && Claimable(rec, task, ctx, o, now) ==> s.id <= o.id
    requires forall id :: id in rec.steps ==> rec.steps[id] != StepRunning
    ensures StartRule(rec.spec.steps, Reduced(state, rec.steps), s.id)
  {
    hide Executable, StepReadyContext, IsFree;
    if rec.state != Compensating {
      forall o | o in rec.spec.steps && WaitsFreely(Reduced(state, rec.steps), o) ensures s.id <= o.id {
        FreeIsClaimable(rec, task, ctx, s, o, now);
      }
    }
    if rec.state == Compensating {
      var o :| o in rec.spec.steps && o.id in rec.steps && rec.steps[o.id] == StepCompensating
        && o.compensation.Some? && o.compensation.value == s.id;
      assert Compensates(rec.spec.steps, s.id, o.id);
    }
    forall t, d | t in rec.spec.steps && t.id == s.id && d in t.dependsOn
      ensures d in rec.steps && rec.steps[d] == StepSucceeded
    {
      SameIdSameStep(rec.spec.steps, s, t);
    }
  }

  /** The state in which a step starts: an approved plan begins running with its first step. */
  function StartingState(state: PlanState): PlanState {
    if state == Approved then Running else state
  }

  /** The transitions before the start itself: approved plan to running, pending step to ready. */
  lemma MadeReady(rec: PlanRec, id: StepId, digest: Option<Digest>, now: int) returns (ready: PlanRec)
    requires RecOk(rec) && StartStep(rec, id, digest, now).Ok?
    ensures id in rec.steps && rec.steps[id] in {StepPending, StepReady} && id in rec.attempts
    ensures Quiet(rec, ready) && ready == rec.(state := StartingState(rec.state), steps := rec.steps[id := StepReady], log := ready.log)
    ensures |rec.log| <= |ready.log|
    ensures AppendStep(ready, id, StepReady, StepRunning, ClaimRunning(id, rec.attempts[id] + 1), now).Ok?
    ensures StartStep(rec, id, digest, now).value
         == (var started := AppendStep(ready, id, StepReady, StepRunning, ClaimRunning(id, rec.attempts[id] + 1), now).value;
             AddCheckpoint(started.(attempts := started.attempts[id := rec.attempts[id] + 1]), Some(id), BeforeStep,
                           CheckpointPending, digest, now))
  {
    hide RecOk, Quiet, AppendPlan, AppendStep, AddCheckpoint;
    QuietStart(rec);
    var attempt := rec.attempts[id] + 1;
    ready := rec;
    if rec.state.Approved? {
      QuietPlan(rec, rec, Approved, Running, ClaimPlan(id), now);
      ready := AppendPlan(rec, Approved, Running, ClaimPlan(id), now).value;
    }
    if rec.steps[id] == StepPending {
      QuietStep(rec, ready, id, StepPending, StepReady, ClaimReady(id, attempt), now);
      ready := AppendStep(ready, id, StepPending, StepReady, ClaimReady(id, attempt), now).value;
    } else {
      ReadyIsReady(ready, id, now, attempt);
      assert ready.steps == ready.steps[id := StepReady];
    }
  }

  lemma ReadyIsReady(rec: PlanRec, id: StepId, now: int, attempt: nat)
    requires AppendStep(rec, id, StepReady, StepRunning, ClaimRunning(id, attempt), now).Ok?
    ensures id in rec.steps && rec.steps[id] == StepReady
  {
  }

  /** Starting a waiting step whose start rule holds: the step runs, one more attempt is counted. */
  lemma StartStepKeeps(rec: PlanRec, id: StepId, digest: Option<Digest>, now: int)
    requires RecOk(rec) && StartStep(rec, id, digest, now).Ok?
    requires StartRule(rec.spec.steps, Reduced(StartingState(rec.state), rec.steps), id)
    ensures var r := StartStep(rec, id, digest, now).value;
            && RecOk(r) && r == rec.(state := StartingState(rec.state), steps := rec.steps[id := StepRunning],
                                     attempts := r.attempts, log := r.log, checkpoints := r.checkpoints)
            && id in rec.steps && rec.steps[id] in {StepPending, StepReady}
            && id in rec.attempts && r.attempts == rec.attempts[id := rec.attempts[id] + 1]
  {
    hide StartStep, AppendStep, RecOk, StartRule, Starts, Journaled, Quiet;
    var ready := MadeReady(rec, id, digest, now);
    var attempt := rec.attempts[id] + 1;
    StartRuleAfterReady(rec.spec.steps, ready.state, rec.steps, ready.steps, id);
    var started := Started(rec, ready, id, now);
    var counted := started.(attempts := started.attempts[id := attempt]);
    CheckpointAppend(counted, Some(id), BeforeStep, CheckpointPending, digest, now);
    StartDone(rec, started, id, StartStep(rec, id, digest, now).value);
  }

  lemma Started(rec: PlanRec, ready: PlanRec, id: StepId, now: int) returns (started: PlanRec)
    requires RecOk(rec) && Quiet(rec, ready) && id in rec.attempts
    requires StartRule(rec.spec.steps, Reduced(ready.state, ready.steps), id)
    requires AppendStep(ready, id, StepReady, StepRunning, ClaimRunning(id, rec.attempts[id] + 1), now).Ok?
    ensures started == AppendStep(ready, id, StepReady, StepRunning, ClaimRunning(id, rec.attempts[id] + 1), now).value
    ensures Journaled(started) && started == ready.(steps := ready.steps[id := StepRunning], log := started.log)
    ensures forall j :: Starts(started.log, j) == Starts(rec.log, j) + (if j == id then 1 else 0)
    ensures CheckpointsOk(ready.checkpoints)
  {
    var key := ClaimRunning(id, rec.attempts[id] + 1);
    hide AppendStep, RecOk, StartRule, Starts, Journaled;
    AppendStepKeeps(ready, id, StepReady, StepRunning, key, now);
    started := AppendStep(ready, id, StepReady, StepRunning, key, now).value;
  }

  lemma StartRuleAfterReady(steps: seq<PlanStep>, plan: PlanState, before: map<StepId, StepState>,
                            after: map<StepId, StepState>, id: StepId)
    requires StartRule(steps, Reduced(plan, before), id) && id in before
    requires before[id] in {StepPending, StepReady} && after == before[id := StepReady]
    ensures StartRule(steps, Reduced(plan, after), id)
  {
  }

  lemma StartDone(rec: PlanRec, r3: PlanRec, id: StepId, r: PlanRec)
    requires RecOk(rec) && Journaled(r3) && CheckpointsOk(r.checkpoints) && id in rec.attempts
    requires r3.spec == rec.spec && r3.attempts == rec.attempts
    requires forall j :: Starts(r3.log, j) == Starts(rec.log, j) + (if j == id then 1 else 0)
    requires r == r3.(attempts := r3.attempts[id := rec.attempts[id] + 1], checkpoints := r.checkpoints)
    ensures RecOk(r)
  {
    hide ValidStructure, DigestOk, Starts, Lawful, ChainOk, ColumnsOk;
  }

  function Leased(task: TaskRow, id: Option<StepId>, token: nat, until: int): TaskRow {
    task.(status := TRunning, attempts := task.attempts + 1, leaseUntil := Some(until), leaseToken := Some(token),
          planStep := id)
  }

  lemma ClaimUnfolds(rec: PlanRec, task: TaskRow, ref: PlanRef, ctx: ClaimContext, now: int)
    requires PrepareClaim(rec, task, ref, ctx, now).Ok? && PrepareClaim(rec, task, ref, ctx, now).value.Some?
    ensures var (r, id) := PrepareClaim(rec, task, ref, ctx, now).value.value;
            && SelectStep(rec, task, ctx, now) == Some(id) && StartStep(rec, id, ctx.stateDigest, now) == Ok(r)
            && rec.state in {Approved, Running, Compensating}
  {
    hide SelectStep, StartStep, PreflightOk, LoadPlan;
  }

  lemma JointAfterStart(rec: PlanRec, r: PlanRec, task: TaskRow, id: StepId, token: nat, until: int)
    requires Joint(rec, Some(task)) && task.status == TQueued && rec.state in {Approved, Running, Compensating}
    requires id in rec.steps && r.spec == rec.spec
    requires r.state == StartingState(rec.state) && r.steps == rec.steps[id := StepRunning]
    ensures Joint(r, Some(Leased(task, Some(id), token, until)))
  {
  }

  lemma NothingRuns(rec: PlanRec, task: TaskRow)
    requires Joint(rec, Some(task)) && task.status == TQueued
    ensures forall id :: id in rec.steps ==> rec.steps[id] != StepRunning
  {
  }

  lemma ClaimKeeps(rec: PlanRec, task: TaskRow, ref: PlanRef, ctx: ClaimContext, now: int, token: nat, until: int)
    requires RecOk(rec) && Joint(rec, Some(task)) && task.status == TQueued
    requires PrepareClaim(rec, task, ref, ctx, now).Ok? && PrepareClaim(rec, task, ref, ctx, now).value.Some?
    ensures var (r, id) := PrepareClaim(rec, task, ref, ctx, now).value.value;
            RecOk(r) && Joint(r, Some(Leased(task, Some(id), token, until))) && r.spec == rec.spec
  {
    ClaimUnfolds(rec, task, ref, ctx, now);
    var (r, id) := PrepareClaim(rec, task, ref, ctx, now).value.value;
    var s := SelectedStep(rec, task, ctx, now);
    NothingRuns(rec, task);
    ClaimableMayStart(rec, task, ctx, s, now, StartingState(rec.state));
    hide RecOk, Joint, PrepareClaim, SelectStep, Claimable, StartStep, StartRule;
    StartStepKeeps(rec, s.id, ctx.stateDigest, now);
    JointAfterStart(rec, r, task, s.id, token, until);
  }
}
