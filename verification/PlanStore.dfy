/** The plan engine as it writes: one open transaction over the rows of a plan and of the task bound to
    it (crates/shaka-queue/src/plan_store.rs), each method proved against the transaction function that
    the laws are about. A method that returns an error may leave the rows half written; its caller
    drops the transaction. */
module PlanStore {
  import opened Base
  import opened PlanCore
  import opened PlanVerification
  import opened TransitionLog
  import T = PlanTransactions
  import opened PlanTransactions
  import Permutation

  /** The outcome a transaction function prescribes, as a result and the rows it leaves. */
  ghost predicate Commits(r: Result<()>, expected: Result<PlanRec>, rec: PlanRec) {
    match expected
    case Err(e) => r == Err(e)
    case Ok(after) => r == Ok(()) && rec == after
  }

  ghost predicate CommitsTask(r: Result<FinishOutcome>, expected: Finished, rec: PlanRec, task: Option<TaskRow>) {
    match expected
    case Err(e) => r == Err(e)
    case Ok((after, row, outcome)) => r == Ok(outcome) && rec == after && task == Some(row)
  }

  // ----- prefixes of the recursive loops -----

  lemma {:induction false} MoveAllFails(rec: PlanRec, ids: seq<StepId>, from: map<StepId, StepState>, to: StepState,
                                        kind: MoveKind, now: int, n: nat)
    requires (forall id :: id in ids ==> id in from) && n <= |ids|
    requires MoveAll(rec, ids[..n], from, to, kind, now).Err?
    ensures MoveAll(rec, ids, from, to, kind, now) == MoveAll(rec, ids[..n], from, to, kind, now)
  {
    hide AppendStep;
    if n == |ids| {
      assert ids[..n] == ids;
    } else {
      assert ids[..|ids| - 1][..n] == ids[..n];
      MoveAllFails(rec, ids[..|ids| - 1], from, to, kind, now, n);
    }
  }

  lemma MoveAllNone(rec: PlanRec, from: map<StepId, StepState>, to: StepState, kind: MoveKind, now: int)
    ensures MoveAll(rec, [], from, to, kind, now) == Ok(rec)
  {
  }

  lemma MoveAllOne(rec: PlanRec, ids: seq<StepId>, from: map<StepId, StepState>, to: StepState, kind: MoveKind, now: int,
                   n: nat, mid: PlanRec)
    requires (forall id :: id in ids ==> id in from) && n < |ids|
    requires MoveAll(rec, ids[..n], from, to, kind, now) == Ok(mid)
    ensures MoveAll(rec, ids[..n + 1], from, to, kind, now)
         == AppendStep(mid, ids[n], from[ids[n]], to, KeyFor(kind, ids[n]), now)
  {
    hide AppendStep;
    assert ids[..n + 1][..n] == ids[..n];
  }

  lemma {:induction false} RecoveriesFail(rec: PlanRec, ids: seq<StepId>, from: map<StepId, StepState>, now: int, n: nat)
    requires (forall id :: id in ids ==> id in from) && n <= |ids|
    requires InsertStepRecoveries(rec, ids[..n], from, now).Err?
    ensures InsertStepRecoveries(rec, ids, from, now) == InsertStepRecoveries(rec, ids[..n], from, now)
  {
    hide InsertStepRecovery;
    if n == |ids| {
      assert ids[..n] == ids;
    } else {
      assert ids[..|ids| - 1][..n] == ids[..n];
      RecoveriesFail(rec, ids[..|ids| - 1], from, now, n);
    }
  }

  lemma RecoveriesNone(rec: PlanRec, from: map<StepId, StepState>, now: int)
    ensures InsertStepRecoveries(rec, [], from, now) == Ok(rec)
  {
  }

  lemma RecoveriesOne(rec: PlanRec, ids: seq<StepId>, from: map<StepId, StepState>, now: int, n: nat, mid: PlanRec)
    requires (forall id :: id in ids ==> id in from) && n < |ids|
    requires InsertStepRecoveries(rec, ids[..n], from, now) == Ok(mid)
    ensures InsertStepRecoveries(rec, ids[..n + 1], from, now) == InsertStepRecovery(mid, ids[n], from[ids[n]], now)
  {
    hide InsertStepRecovery;
    assert ids[..n + 1][..n] == ids[..n];
  }

  /** One more row of the fold, read off the whole log. */
  lemma FoldOne(ids: set<StepId>, log: seq<LogRow>, n: nat, before: Reduced)
    requires n < |log| && FoldLog(ids, log[..n]) == Folded(before)
    ensures FoldLog(ids, log[..n + 1]) ==
            if !LinkOk(log, n) then Broken(ChainInvalid)
            else match ApplyTransition(before, log[n].body)
              case None => Broken(ReducerDiverged)
              case Some(after) => Folded(after)
  {
    hide ApplyTransition;
    assert log[..n + 1][..n] == log[..n];
    assert LinkOk(log[..n + 1], n) <==> LinkOk(log, n);
  }

  lemma {:induction false} BrokenStays(ids: set<StepId>, log: seq<LogRow>, n: nat)
    requires n <= |log| && FoldLog(ids, log[..n]).Broken?
    ensures FoldLog(ids, log) == FoldLog(ids, log[..n])
  {
    if n == |log| {
      assert log[..n] == log;
    } else {
      assert log[..|log| - 1][..n] == log[..n];
      BrokenStays(ids, log[..|log| - 1], n);
    }
  }

  /** The two halves of `mark_plan_unknown_tx`. */
  function PlanMarked(rec: PlanRec, now: int): Result<PlanRec> {
    if rec.state == Unknown then Ok(rec)
    else if rec.state.CanMoveTo(Unknown) then AppendPlan(rec, rec.state, Unknown, RecoveryPlanUnknown(now), now)
    else Ok(rec.(state := Unknown))
  }

  function StepMarked(rec: PlanRec, id: Option<StepId>, now: int): Result<PlanRec> {
    if id.None? || id.value !in rec.steps || rec.steps[id.value] == StepUnknown then Ok(rec)
    else if rec.steps[id.value].CanMoveTo(StepUnknown)
      then AppendStep(rec, id.value, rec.steps[id.value], StepUnknown, RecoveryStepUnknown(id.value, now), now)
    else Ok(rec.(steps := rec.steps[id.value := StepUnknown]))
  }

  lemma MarkUnknownParts(rec: PlanRec, id: Option<StepId>, digest: Option<Digest>, now: int)
    ensures MarkUnknown(rec, id, digest, now) ==
            var r1 :- PlanMarked(rec, now);
            var r2 :- StepMarked(r1, id, now);
            InsertCheckpoint(r2, id, Recovery, CheckpointUnknown, digest, now)
  {
    hide AppendPlan, AppendStep, InsertCheckpoint;
  }

  /** The checks of `resolve_plan_unknown`, and what follows them. */
  ghost function ResolutionChecked(rec: PlanRec, principal: Principal, decision: ResolutionDecision, key: Key,
                                   evidence: Option<Digest>): Result<bool>
  {
    if !principal.Allows(ResolvePlanUnknown) then Err(Forbidden)
    else if evidence.Some? && !IsSha256(evidence.value) then Err(CoreRejected)
    else if decision == Resume && evidence.None? then Err(InvalidInput)
    else if !Loadable(rec, principal.tenant) then Err(LoadError(rec, principal.tenant))
    else if KeyUsed(rec.log, key) then
      if KeyUsedFor(rec.log, key, Target(decision)) then Ok(true) else Err(IdempotencyConflict)
    else if rec.state != Unknown then Err(InvalidInput)
    else Ok(false)
  }

  lemma ResolveParts(rec: PlanRec, task: Option<TaskRow>, principal: Principal, decision: ResolutionDecision,
                     key: Key, evidence: Option<Digest>, now: int)
    ensures Resolve(rec, task, principal, decision, key, evidence, now) ==
            var resolved :- ResolutionChecked(rec, principal, decision, key, evidence);
            if resolved then Ok((rec, task, AlreadyResolved)) else
              var r :- ResolveWith(rec, decision, key, now);
              if task.None? then Err(NotFound) else
                var c :- InsertCheckpoint(r, None, Resolution,
                  if decision == Cancel then CheckpointFailed else CheckpointSucceeded, evidence, now);
                Ok((c, Some(ResolvedTask(task.value, decision, now)), OutcomeOf(decision)))
  {
    hide Loadable, KeyUsed, KeyUsedFor, ResolveWith, InsertCheckpoint, ResolvedTask, IsSha256;
  }

  class PlanTx {
    const spec: PlanSpec
    var state: PlanState
    var steps: map<StepId, StepState>
    var attempts: map<StepId, nat>
    var log: seq<LogRow>
    var checkpoints: seq<Checkpoint>
    var approvals: seq<StoredApproval>
    var task: Option<TaskRow>

    function Rec(): PlanRec
      reads this
    {
      PlanRec(spec, state, steps, attempts, log, checkpoints, approvals)
    }

    constructor (rec: PlanRec, task: Option<TaskRow>)
      ensures Rec() == rec && this.task == task
    {
      spec, state, steps, attempts := rec.spec, rec.state, rec.steps, rec.attempts;
      log, checkpoints, approvals := rec.log, rec.checkpoints, rec.approvals;
      this.task := task;
    }

    // ----- rows -----

    method InsertTransition(t: Transition) returns (r: Result<()>)
      modifies this`log
      ensures Commits(r, InsertRow(old(Rec()), t), Rec())
    {
      for i := 0 to |log|
        invariant forall j :: 0 <= j < i ==> log[j].key != t.key
      {
        if log[i].key == t.key {
          return Err(UniqueViolation);
        }
      }
      log := log + [LogRow(t.sequence, t.key, t.eventHash, t)];
      return Ok(());
    }

    method AppendPlan(a: PlanState, b: PlanState, key: Key, now: int) returns (r: Result<()>)
      modifies this`log, this`state
      ensures Commits(r, T.AppendPlan(old(Rec()), a, b, key, now), Rec())
    {
      if state != a {
        return Err(InvalidInput);
      }
      if !a.CanMoveTo(b) {
        return Err(CoreRejected);
      }
      var _ :- InsertTransition(NextTransition(Rec(), PlanEntity, None, PlanIs(a), PlanIs(b), key, now));
      state := b;
      return Ok(());
    }

    method AppendStep(id: StepId, a: StepState, b: StepState, key: Key, now: int) returns (r: Result<()>)
      modifies this`log, this`steps
      ensures Commits(r, T.AppendStep(old(Rec()), id, a, b, key, now), Rec())
    {
      if id !in steps {
        return Err(NotFound);
      }
      if steps[id] != a {
        return Err(InvalidInput);
      }
      if !a.CanMoveTo(b) {
        return Err(CoreRejected);
      }
      var _ :- InsertTransition(NextTransition(Rec(), StepEntity, Some(id), StepIs(a), StepIs(b), key, now));
      steps := steps[id := b];
      return Ok(());
    }

    /** The loops that move several steps, from states read before. */
    method MoveAll(ids: seq<StepId>, from: map<StepId, StepState>, to: StepState, kind: MoveKind, now: int)
      returns (r: Result<()>)
      requires forall id :: id in ids ==> id in from
      modifies this`log, this`steps
      ensures Commits(r, T.MoveAll(old(Rec()), ids, from, to, kind, now), Rec())
    {
      hide T.AppendStep, T.MoveAll;
      ghost var before := Rec();
      MoveAllNone(before, from, to, kind, now);
      for i := 0 to |ids|
        invariant T.MoveAll(before, ids[..i], from, to, kind, now) == Ok(Rec())
      {
        MoveAllOne(before, ids, from, to, kind, now, i, Rec());
        var s := AppendStep(ids[i], from[ids[i]], to, KeyFor(kind, ids[i]), now);
        if s.Err? {
          MoveAllFails(before, ids, from, to, kind, now, i + 1);
          return s;
        }
      }
      assert ids[..|ids|] == ids;
      return Ok(());
    }

    method InsertCheckpoint(id: Option<StepId>, phase: CheckpointPhase, status: CheckpointStatus,
                            digest: Option<Digest>, now: int)
      returns (r: Result<()>)
      modifies this`checkpoints
      ensures Commits(r, T.InsertCheckpoint(old(Rec()), id, phase, status, digest, now), Rec())
    {
      if digest.Some? && !IsSha256(digest.value) {
        return Err(CoreRejected);
      }
      checkpoints := checkpoints + [Checkpoint(NextCheckpointSequence(checkpoints), id, phase, status, digest, now)];
      return Ok(());
    }

    // ----- loading -----

    method LoadPlan(tenant: TenantId, ref: PlanRef) returns (r: Result<PlanSpec>)
      ensures r == T.LoadPlan(Rec(), tenant, ref)
    {
      if spec.planId != ref.planId || spec.revision != ref.revision || spec.tenant != tenant {
        return Err(NotFound);
      }
      if spec.digest != ref.digest {
        return Err(InvalidInput);
      }
      var structured := ValidateStructure(Loaded(Rec()));
      if !structured || !DigestOk(Loaded(Rec())) {
        return Err(CoreRejected);
      }
      return Ok(Loaded(Rec()));
    }

    method CanLoad(tenant: TenantId) returns (ok: bool)
      ensures ok == Loadable(Rec(), tenant)
    {
      ok := ValidateStructure(Loaded(Rec()));
      ok := ok && spec.tenant == tenant && DigestOk(Loaded(Rec()));
    }

    method IsExecutable(ctx: Context) returns (ok: bool)
      ensures ok == Executable(DEFAULT_LIMITS, Loaded(Rec()), ctx)
    {
      var report := Verify(DEFAULT_LIMITS, Loaded(Rec()), ctx);
      ok := report.status == Valid;
    }

    // ----- admission -----

    method Admit(principal: Principal, taskId: TaskId, ref: PlanRef, now: int) returns (r: Result<()>)
      modifies this
      ensures Commits(r, T.Admit(old(Rec()), principal, taskId, ref, now), Rec()) && task == old(task)
    {
      hide T.LoadPlan, T.AppendPlan, T.InsertCheckpoint, Executable;
      var plan :- LoadPlan(principal.tenant, ref);
      if plan.taskId != taskId || plan.operator != principal.operator {
        return Err(Forbidden);
      }
      if plan.mode != DryRun || state !in {Draft, Proposed, Validated, AwaitingApproval, Approved} {
        return Err(InvalidInput);
      }
      var executable := IsExecutable(PreflightContext(Rec(), now));
      if !executable {
        return Err(InvalidInput);
      }
      if state == Draft {
        var _ :- AppendPlan(Draft, Proposed, AdmissionProposed, now);
      }
      if state == Proposed {
        var _ :- AppendPlan(Proposed, Validated, AdmissionValidated, now);
      }
      if state == Validated || state == AwaitingApproval {
        var _ :- AppendPlan(state, Approved, AdmissionApproved, now);
      }
      r := InsertCheckpoint(None, Preflight, CheckpointSucceeded, Some(plan.digest), now);
    }

    // ----- approval -----

    method ApproveTransitions(id: nat, now: int) returns (r: Result<()>)
      modifies this`log, this`state
      ensures Commits(r, T.ApproveTransitions(old(Rec()), id, now), Rec())
    {
      hide T.AppendPlan;
      if state == Draft {
        var _ :- AppendPlan(Draft, Proposed, ApprovalProposed(id), now);
      }
      if state == Proposed {
        var _ :- AppendPlan(Proposed, Validated, ApprovalValidated(id), now);
      }
      if state != Validated && state != AwaitingApproval {
        return Err(InvalidInput);
      }
      r := AppendPlan(state, Approved, ApprovalApproved(id), now);
    }

    method RecordApproval(a: Approval, key: Key, now: int) returns (r: Result<ApprovalOutcome>)
      modifies this
      ensures match T.RecordApproval(old(Rec()), a, key, now)
              case Err(e) => r == Err(e)
              case Ok((rec, outcome)) => r == Ok(outcome) && Rec() == rec
      ensures task == old(task)
    {
      hide T.AppendPlan, T.ApproveTransitions;
      var stateBefore := state;
      approvals := approvals + [StoredApproval(a, key)];
      if a.decision == ApprovedDecision {
        if a.stepId.None? {
          var _ :- ApproveTransitions(a.approvalId, now);
        }
        AddCheckpoint(a.stepId, ApprovalPhase, CheckpointSucceeded, None, now);
        return Ok(WasApproved);
      }
      if stateBefore !in {Draft, Proposed, Validated, AwaitingApproval} {
        return Err(InvalidInput);
      }
      var _ :- AppendPlan(stateBefore, Rejected, ApprovalRejected(a.approvalId), now);
      AddCheckpoint(a.stepId, ApprovalPhase, CheckpointFailed, None, now);
      return Ok(WasRejected);
    }

    method AddCheckpoint(id: Option<StepId>, phase: CheckpointPhase, status: CheckpointStatus,
                         digest: Option<Digest>, now: int)
      modifies this`checkpoints
      ensures Rec() == T.AddCheckpoint(old(Rec()), id, phase, status, digest, now)
    {
      checkpoints := checkpoints + [Checkpoint(NextCheckpointSequence(checkpoints), id, phase, status, digest, now)];
    }

    method Approve(principal: Principal, a: Approval, key: Key, idTaken: bool, now: int) returns (r: Result<ApprovalOutcome>)
      modifies this
      ensures match T.Approve(old(Rec()), principal, a, key, idTaken, now)
              case Err(e) => r == Err(e)
              case Ok((rec, outcome)) => r == Ok(outcome) && Rec() == rec
      ensures task == old(task)
    {
      hide T.LoadPlan, T.RecordApproval, ApprovalShapeOk, ApprovalShapeError, RefOk;
      if !principal.Allows(ApprovePlan) || principal.operator != a.approver || principal.role != a.approverRole {
        return Err(Forbidden);
      }
      if !RefOk(PlanRef(a.planId, a.revision, a.planDigest)) {
        return Err(InvalidInput);
      }
      var plan :- LoadPlan(principal.tenant, PlanRef(a.planId, a.revision, a.planDigest));
      if !ApprovalShapeOk(plan, principal, a, now) {
        return Err(ApprovalShapeError(plan, principal, a, now));
      }
      if ApprovalKeyUsed(approvals, key) {
        if SameIntent(ApprovalWithKey(approvals, key), a) {
          return Ok(WasExisting);
        }
        return Err(IdempotencyConflict);
      }
      if idTaken {
        return Err(UniqueViolation);
      }
      r := RecordApproval(a, key, now);
    }

    // ----- claim -----

    /** A step that waits and, while the plan compensates, is wanted by a compensation. */
    predicate IsCandidate(s: PlanStep)
      reads this
    {
      && s.id in steps && (steps[s.id] == StepReady || steps[s.id] == StepPending)
      && (state == Compensating ==> s.id in CompensationTargets(Rec()))
    }

    method Candidates() returns (candidates: seq<PlanStep>)
      ensures Permutation.SortedById(candidates)
      ensures forall s :: s in candidates <==> s in spec.steps && IsCandidate(s)
    {
      var found: seq<PlanStep> := [];
      for i := 0 to |spec.steps|
        invariant forall s :: s in found <==> s in spec.steps[..i] && IsCandidate(s)
      {
        if IsCandidate(spec.steps[i]) {
          found := found + [spec.steps[i]];
        }
      }
      assert spec.steps[..|spec.steps|] == spec.steps;
      Permutation.SortSorts(found);
      candidates := SortById(found);
      Permutation.SameMembers(found, candidates);
    }

    /** The first candidate in identifier order whose dependencies have succeeded and which the
        verifier finds executable. */
    method SelectStep(row: TaskRow, ctx: ClaimContext, now: int) returns (selected: Option<StepId>)
      ensures selected == T.SelectStep(Rec(), row, ctx, now)
    {
      var succeeded := StepsWhere(steps, {StepSucceeded});
      var candidates := Candidates();
      hide Executable, CompensationTargets;
      for i := 0 to |candidates|
        invariant forall j :: 0 <= j < i ==> !Claimable(Rec(), row, ctx, candidates[j], now)
      {
        var s := candidates[i];
        assert s in candidates;
        if forall d :: d in s.dependsOn ==> d in succeeded {
          var executable := IsExecutable(StepReadyContext(Rec(), row, ctx, s.id, now));
          if executable {
            LeastClaimable(row, ctx, now, candidates, i);
            return Some(s.id);
          }
        }
      }
      NoneClaimable(row, ctx, now, candidates);
      return None;
    }

    lemma LeastClaimable(row: TaskRow, ctx: ClaimContext, now: int, candidates: seq<PlanStep>, i: nat)
      requires i < |candidates| && Permutation.SortedById(candidates)
      requires forall s :: s in candidates <==> s in spec.steps && IsCandidate(s)
      requires forall j :: 0 <= j < i ==> !Claimable(Rec(), row, ctx, candidates[j], now)
      requires Claimable(Rec(), row, ctx, candidates[i], now)
      ensures T.SelectStep(Rec(), row, ctx, now) == Some(candidates[i].id)
    {
      hide Executable, CompensationTargets, StepReadyContext;
      var ids := ClaimableIds(Rec(), row, ctx, now);
      assert candidates[i] in candidates;
      assert candidates[i].id in ids;
      forall x | x in ids ensures candidates[i].id <= x {
        var s :| s in spec.steps && Claimable(Rec(), row, ctx, s, now) && s.id == x;
        assert s in candidates;
        var k :| 0 <= k < |candidates| && candidates[k] == s;
      }
    }

    lemma NoneClaimable(row: TaskRow, ctx: ClaimContext, now: int, candidates: seq<PlanStep>)
      requires forall s :: s in candidates <==> s in spec.steps && IsCandidate(s)
      requires forall j :: 0 <= j < |candidates| ==> !Claimable(Rec(), row, ctx, candidates[j], now)
      ensures T.SelectStep(Rec(), row, ctx, now) == None
    {
      hide Executable, CompensationTargets, StepReadyContext;
      forall s | s in spec.steps ensures !Claimable(Rec(), row, ctx, s, now) {
        if s in candidates {
          var k :| 0 <= k < |candidates| && candidates[k] == s;
        }
      }
    }

    method MakeReady(id: StepId, attempt: nat, now: int) returns (r: Result<()>)
      requires id in steps
      modifies this`log, this`state, this`steps
      ensures Commits(r, T.MakeReady(old(Rec()), id, attempt, now), Rec())
    {
      hide T.AppendPlan, T.AppendStep;
      var before := steps[id];
      if state == Approved {
        var _ :- AppendPlan(Approved, Running, ClaimPlan(id), now);
      }
      if before == StepPending {
        var _ :- AppendStep(id, StepPending, StepReady, ClaimReady(id, attempt), now);
      }
      return Ok(());
    }

    method StartStep(id: StepId, digest: Option<Digest>, now: int) returns (r: Result<()>)
      modifies this
      ensures Commits(r, T.StartStep(old(Rec()), id, digest, now), Rec()) && task == old(task)
    {
      hide T.MakeReady, T.AppendStep, T.InsertCheckpoint;
      if id !in steps || id !in attempts {
        return Err(NotFound);
      }
      var attempt := attempts[id] + 1;
      var _ :- MakeReady(id, attempt, now);
      var _ :- AppendStep(id, StepReady, StepRunning, ClaimRunning(id, attempt), now);
      attempts := attempts[id := attempt];
      r := InsertCheckpoint(Some(id), BeforeStep, CheckpointPending, digest, now);
    }

    /** `None` when the plan has no work for a worker now. */
    method PrepareClaim(row: TaskRow, ref: PlanRef, ctx: ClaimContext, now: int) returns (r: Result<Option<StepId>>)
      modifies this
      ensures match T.PrepareClaim(old(Rec()), row, ref, ctx, now)
              case Err(e) => r == Err(e)
              case Ok(None) => r == Ok(None) && Rec() == old(Rec())
              case Ok(Some((rec, id))) => r == Ok(Some(id)) && Rec() == rec
      ensures task == old(task)
    {
      hide T.LoadPlan, T.SelectStep, T.StartStep, Executable;
      var plan :- LoadPlan(row.tenant, ref);
      if plan.taskId != row.taskId || plan.mode != DryRun {
        return Err(Forbidden);
      }
      if row.planStep.Some? {
        return Err(InvalidInput);
      }
      if state !in {Approved, Running, Compensating} {
        return Ok(None);
      }
      var executable := IsExecutable(PreflightContext(Rec(), now));
      if !executable {
        return Ok(None);
      }
      var selected := SelectStep(row, ctx, now);
      if selected.None? {
        return Ok(None);
      }
      var _ :- StartStep(selected.value, ctx.stateDigest, now);
      return Ok(selected);
    }

    // ----- quarantine -----

    method MarkPlan(now: int) returns (r: Result<()>)
      modifies this`log, this`state
      ensures Commits(r, PlanMarked(old(Rec()), now), Rec())
    {
      hide T.AppendPlan;
      if state == Unknown {
        return Ok(());
      }
      if state.CanMoveTo(Unknown) {
        r := AppendPlan(state, Unknown, RecoveryPlanUnknown(now), now);
      } else {
        state := Unknown;
        return Ok(());
      }
    }

    method MarkStep(id: Option<StepId>, now: int) returns (r: Result<()>)
      modifies this`log, this`steps
      ensures Commits(r, StepMarked(old(Rec()), id, now), Rec())
    {
      hide T.AppendStep;
      if id.None? || id.value !in steps || steps[id.value] == StepUnknown {
        return Ok(());
      }
      if steps[id.value].CanMoveTo(StepUnknown) {
        r := AppendStep(id.value, steps[id.value], StepUnknown, RecoveryStepUnknown(id.value, now), now);
      } else {
        steps := steps[id.value := StepUnknown];
        return Ok(());
      }
    }

    method MarkUnknown(id: Option<StepId>, digest: Option<Digest>, now: int) returns (r: Result<()>)
      modifies this`log, this`state, this`steps, this`checkpoints
      ensures Commits(r, T.MarkUnknown(old(Rec()), id, digest, now), Rec())
    {
      hide PlanMarked, StepMarked, T.InsertCheckpoint, T.MarkUnknown;
      MarkUnknownParts(Rec(), id, digest, now);
      var _ :- MarkPlan(now);
      var _ :- MarkStep(id, now);
      r := InsertCheckpoint(id, Recovery, CheckpointUnknown, digest, now);
    }

    // ----- finish -----

    method EndStep(id: StepId, to: StepState, key: Key, status: CheckpointStatus, digest: Option<Digest>, now: int)
      returns (r: Result<()>)
      modifies this`log, this`steps, this`checkpoints
      ensures Commits(r, T.EndStep(old(Rec()), id, to, key, status, digest, now), Rec())
    {
      hide T.AppendStep, T.InsertCheckpoint;
      var _ :- AppendStep(id, StepRunning, to, key, now);
      r := InsertCheckpoint(Some(id), AfterStep, status, digest, now);
    }

    method CompleteCompensation(target: StepId, result: Option<string>, now: int) returns (r: Result<FinishOutcome>)
      requires task.Some?
      modifies this
      ensures CommitsTask(r, T.CompleteCompensation(old(Rec()), old(task).value, target, result, now), Rec(), task)
    {
      hide T.MoveAll, T.AppendPlan, CompensationSources;
      var sources := Ascending(CompensationSources(Rec(), target));
      var _ :- MoveAll(sources, steps, StepCompensated, ByCompensation, now);
      AddCheckpoint(Some(target), CompensationPhase, CheckpointSucceeded, None, now);
      if StepsWhere(steps, {StepCompensating}) == {} {
        var _ :- AppendPlan(Compensating, Compensated, CompensationPlan, now);
        task := Some(task.value.Release(TFailed).(result := result, completedAt := Some(now)));
        return Ok(FinishedCompensated);
      }
      task := Some(task.value.Release(TQueued).(result := None, nextAttemptAt := now));
      return Ok(PlanStepSucceeded(now));
    }

    method FinishSuccess(id: StepId, result: Option<string>, digest: Option<Digest>, now: int) returns (r: Result<FinishOutcome>)
      requires task.Some? && id in attempts
      modifies this
      ensures CommitsTask(r, T.FinishSuccess(old(Rec()), old(task).value, id, result, digest, now), Rec(), task)
    {
      hide T.EndStep, T.CompleteCompensation, T.AppendPlan;
      var compensating := state == Compensating;
      var _ :- EndStep(id, StepSucceeded, FinishSucceeded(id, attempts[id]), CheckpointSucceeded, digest, now);
      if compensating {
        r := CompleteCompensation(id, result, now);
        return;
      }
      if StepsWhere(steps, {StepSucceeded}) == steps.Keys {
        var _ :- AppendPlan(Running, Succeeded, FinishPlanSucceeded, now);
        task := Some(task.value.Release(TSucceeded).(result := result, completedAt := Some(now)));
        return Ok(FinishedSucceeded);
      }
      task := Some(task.value.Release(TQueued).(result := None, nextAttemptAt := now));
      return Ok(PlanStepSucceeded(now));
    }

    method FinishFailure(id: StepId, maxAttempts: nat, policy: Policy, digest: Option<Digest>, now: int)
      returns (r: Result<FinishOutcome>)
      requires task.Some? && id in attempts
      modifies this
      ensures CommitsTask(r, T.FinishFailure(old(Rec()), old(task).value, id, maxAttempts, policy, digest, now), Rec(), task)
    {
      hide T.EndStep, T.MarkUnknown, T.AppendPlan, T.AppendStep, RetryDelay;
      var made := attempts[id];
      var _ :- EndStep(id, StepFailed, FinishFailed(id, made), CheckpointFailed, digest, now);
      if state == Compensating {
        var _ :- MarkUnknown(Some(id), digest, now);
        task := Some(task.value.Release(TFailed).(result := None, completedAt := Some(now)));
        return Ok(FinishedFailed);
      }
      if policy.retryable && made < maxAttempts {
        var _ :- AppendStep(id, StepFailed, StepReady, RetryReady(id, made), now);
        var at := now + RetryDelay(made, policy.baseDelay, policy.maxDelay);
        task := Some(task.value.Release(TQueued).(result := None, nextAttemptAt := at));
        return Ok(Requeued(at));
      }
      if state == Running {
        var _ :- AppendPlan(Running, Failed, FinishPlanFailed, now);
      }
      task := Some(task.value.Release(TFailed).(result := None, completedAt := Some(now)));
      return Ok(FinishedFailed);
    }

    method Finish(result: Option<string>, failed: bool, policy: Policy, ctx: ClaimContext, now: int)
      returns (r: Result<FinishOutcome>)
      requires task.Some?
      modifies this
      ensures CommitsTask(r, FinishPlanned(old(Rec()), old(task).value, result, failed, policy, ctx, now), Rec(), task)
    {
      hide T.LoadPlan, T.FinishSuccess, T.FinishFailure, T.MarkUnknown, Executable;
      var row := task.value;
      var ref :- TaskReference(row);
      var plan :- LoadPlan(row.tenant, ref);
      if row.planStep.None? {
        return Err(InvalidInput);
      }
      var id := row.planStep.value;
      if id !in steps || id !in attempts || FindStep(spec.steps, id).None? {
        return Err(NotFound);
      }
      if steps[id] != StepRunning && steps[id] != StepCancelRequested {
        return Err(InvalidInput);
      }
      if row.cancelRequested || row.status == TCancelRequested {
        var _ :- MarkUnknown(Some(id), ctx.stateDigest, now);
        task := Some(row.Release(TCancelled).(cancelRequested := true, completedAt := Some(now)));
        return Ok(FinishedCancelled);
      }
      var success := !failed;
      if success {
        success := IsExecutable(PostStepContext(Rec(), row, id, ctx, now));
      }
      if success {
        r := FinishSuccess(id, result, ctx.stateDigest, now);
      } else {
        r := FinishFailure(id, FindStep(spec.steps, id).value.maxAttempts, policy, ctx.stateDigest, now);
      }
    }

    // ----- cancellation and expired leases -----

    method CancelTask(row: TaskRow, now: int) returns (r: Result<()>)
      modifies this`log, this`state, this`steps
      ensures Commits(r, CancelPlanned(old(Rec()), row, now), Rec())
    {
      hide T.LoadPlan, T.AppendPlan, T.MoveAll;
      var ref :- TaskReference(row);
      var plan :- LoadPlan(row.tenant, ref);
      if state == Unknown || state == Compensating {
        return Err(InvalidInput);
      }
      if row.status == TQueued {
        if state == Approved || state == Running {
          var _ :- AppendPlan(state, CancelRequested, CancelPlanRequested, now);
        }
        var waiting := Ascending(StepsWhere(steps, {StepPending, StepReady, StepAwaitingApproval}));
        var _ :- MoveAll(waiting, steps, StepCancelled, ByCancel, now);
        if state == CancelRequested {
          var _ :- AppendPlan(CancelRequested, Cancelled, CancelPlanCompleted, now);
        }
      } else if row.status == TRunning && state == Running {
        var _ :- AppendPlan(Running, CancelRequested, CancelPlanRequested, now);
      }
      return Ok(());
    }

    method RecoverExpired(now: int) returns (r: Result<()>)
      requires task.Some?
      modifies this
      ensures match T.RecoverExpired(old(Rec()), old(task).value, now)
              case Err(e) => r == Err(e)
              case Ok((rec, row)) => r == Ok(()) && Rec() == rec && task == Some(row)
    {
      hide T.LoadPlan, T.MarkUnknown;
      var row := task.value;
      var ref :- TaskReference(row);
      var plan :- LoadPlan(row.tenant, ref);
      var _ :- MarkUnknown(row.planStep, None, now);
      task := Some(row.Release(if row.cancelRequested then TCancelled else TFailed).(completedAt := Some(now)));
      return Ok(());
    }

    // ----- human resolution -----

    method ResolveResume(key: Key, now: int) returns (r: Result<()>)
      modifies this`log, this`state, this`steps
      ensures Commits(r, T.ResolveResume(old(Rec()), key, now), Rec())
    {
      hide T.MoveAll, T.AppendPlan;
      var unknown := Ascending(StepsWhere(steps, {StepUnknown}));
      var _ :- MoveAll(unknown, steps, StepReady, ByResolution(key), now);
      r := AppendPlan(Unknown, Running, key, now);
    }

    /** The sources that still have to move, in the order of the plan. */
    method Moving() returns (moving: seq<StepId>)
      ensures moving == MovingSources(Rec(), spec.steps)
    {
      hide EligibleSources;
      var sources := EligibleSources(Rec());
      moving := [];
      for i := 0 to |spec.steps|
        invariant moving == MovingSources(Rec(), spec.steps[..i])
      {
        assert spec.steps[..i + 1][..i] == spec.steps[..i];
        var s := spec.steps[i];
        if s.id in sources && steps[s.id] != StepCompensating {
          moving := moving + [s.id];
        }
      }
      assert spec.steps[..|spec.steps|] == spec.steps;
    }

    method ResolveCompensate(key: Key, now: int) returns (r: Result<()>)
      modifies this`log, this`state, this`steps
      ensures Commits(r, T.ResolveCompensate(old(Rec()), key, now), Rec())
    {
      hide T.MoveAll, T.AppendPlan, MovingSources, EligibleTargets, EligibleSources;
      var sources := EligibleSources(Rec());
      var targets := EligibleTargets(Rec());
      if sources == {} {
        return Err(InvalidInput);
      }
      var moving := Moving();
      var _ :- MoveAll(moving, steps, StepCompensating, BySource(key), now);
      var waiting := Ascending(set id | id in targets && id in steps && steps[id] in {StepUnknown, StepFailed});
      var _ :- MoveAll(waiting, steps, StepReady, ByTarget(key), now);
      r := AppendPlan(Unknown, Compensating, key, now);
    }

    method ResolveCancel(key: Key, now: int) returns (r: Result<()>)
      modifies this`log, this`state
      ensures Commits(r, T.ResolveCancel(old(Rec()), key, now), Rec())
    {
      hide T.AppendPlan;
      if StepsWhere(steps, {StepRunning, StepCancelRequested, StepCompensating, StepUnknown}) != {} {
        return Err(InvalidInput);
      }
      r := AppendPlan(Unknown, Cancelled, key, now);
    }

    method ResolveWith(decision: ResolutionDecision, key: Key, now: int) returns (r: Result<()>)
      modifies this`log, this`state, this`steps
      ensures Commits(r, T.ResolveWith(old(Rec()), decision, key, now), Rec())
    {
      hide T.ResolveResume, T.ResolveCompensate, T.ResolveCancel;
      match decision {
        case Resume => r := ResolveResume(key, now);
        case Compensate => r := ResolveCompensate(key, now);
        case Cancel => r := ResolveCancel(key, now);
      }
    }

    /** Whether the decision was recorded before, unless something forbids it. */
    method ResolveChecks(principal: Principal, decision: ResolutionDecision, key: Key, evidence: Option<Digest>)
      returns (r: Result<bool>)
      ensures r == ResolutionChecked(Rec(), principal, decision, key, evidence)
    {
      hide Loadable, KeyUsed, KeyUsedFor, IsSha256;
      if !principal.Allows(ResolvePlanUnknown) {
        return Err(Forbidden);
      }
      if evidence.Some? && !IsSha256(evidence.value) {
        return Err(CoreRejected);
      }
      if decision == Resume && evidence.None? {
        return Err(InvalidInput);
      }
      var loadable := CanLoad(principal.tenant);
      if !loadable {
        return Err(LoadError(Rec(), principal.tenant));
      }
      if KeyUsed(log, key) {
        if KeyUsedFor(log, key, Target(decision)) {
          return Ok(true);
        }
        return Err(IdempotencyConflict);
      }
      if state != Unknown {
        return Err(InvalidInput);
      }
      return Ok(false);
    }

    method Resolve(principal: Principal, decision: ResolutionDecision, key: Key, evidence: Option<Digest>, now: int)
      returns (r: Result<ResolutionOutcome>)
      modifies this
      ensures match T.Resolve(old(Rec()), old(task), principal, decision, key, evidence, now)
              case Err(e) => r == Err(e)
              case Ok((rec, row, outcome)) => r == Ok(outcome) && Rec() == rec && task == row
    {
      hide T.Resolve, ResolutionChecked, T.ResolveWith, T.InsertCheckpoint, ResolvedTask;
      ResolveParts(Rec(), task, principal, decision, key, evidence, now);
      var resolved :- ResolveChecks(principal, decision, key, evidence);
      if resolved {
        return Ok(AlreadyResolved);
      }
      var _ :- ResolveWith(decision, key, now);
      if task.None? {
        return Err(NotFound);
      }
      task := Some(ResolvedTask(task.value, decision, now));
      var _ :- InsertCheckpoint(None, Resolution, if decision == Cancel then CheckpointFailed else CheckpointSucceeded,
                                evidence, now);
      return Ok(OutcomeOf(decision));
    }

    // ----- inspection and resumption -----

    /** The replay loop shared by inspection and resumption: chain first, then reducer, row by row. */
    method Replay() returns (fold: Fold)
      ensures fold == FoldLog(Ids(spec.steps), log)
    {
      hide ApplyTransition, Initial;
      var ids := Ids(spec.steps);
      var computed := Initial(ids);
      var previousHash: Option<Hash> := None;
      var expectedSequence := 1;
      for i := 0 to |log|
        invariant FoldLog(ids, log[..i]) == Folded(computed)
        invariant previousHash == PreviousHash(log, i) && expectedSequence == i + 1
      {
        FoldOne(ids, log, i, computed);
        var t := log[i].body;
        if t.sequence != expectedSequence || t.previousHash != previousHash || !t.HashOk() {
          BrokenStays(ids, log, i + 1);
          return Broken(ChainInvalid);
        }
        var after := ApplyTransition(computed, t);
        if after.None? {
          BrokenStays(ids, log, i + 1);
          return Broken(ReducerDiverged);
        }
        computed := after.value;
        previousHash := Some(t.eventHash);
        expectedSequence := expectedSequence + 1;
      }
      assert log[..|log|] == log;
      return Folded(computed);
    }

    method Inspect() returns (issue: Option<Issue>)
      ensures issue == T.Inspect(Rec())
    {
      hide FoldLog;
      var fold := Replay();
      match fold {
        case Broken(problem) => return Some(problem);
        case Folded(computed) =>
          if computed.plan != state || computed.steps != steps {
            return Some(ReducerDiverged);
          }
          if !CheckpointsOk(checkpoints) {
            return Some(CheckpointSequenceInvalid);
          }
          return None;
      }
    }

    method ResumeRead() returns (view: ResumeView)
      ensures view == T.ResumeRead(Rec())
    {
      hide T.Inspect;
      var issue := Inspect();
      var active := ActiveSteps(steps);
      var verdict := FoundStable;
      if issue.Some? {
        verdict := FoundInconsistent;
      } else if state in {Running, CancelRequested, Compensating} || active != map[] {
        verdict := FoundActive;
      }
      return ResumeView(verdict, state, active);
    }

    method InsertRecovery(from: PlanState, active: map<StepId, StepState>, now: int) returns (r: Result<()>)
      modifies this`log
      ensures Commits(r, T.InsertRecovery(old(Rec()), from, active, now), Rec())
    {
      hide T.InsertRow, T.InsertStepRecoveries;
      var _ :- InsertTransition(NextTransition(Rec(), PlanEntity, None, PlanIs(from), PlanIs(Unknown),
                                               RecoveryPlan(NextSequence(log)), now));
      ghost var before := Rec();
      var ids := Ascending(active.Keys);
      RecoveriesNone(before, active, now);
      for i := 0 to |ids|
        invariant T.InsertStepRecoveries(before, ids[..i], active, now) == Ok(Rec())
      {
        RecoveriesOne(before, ids, active, now, i, Rec());
        var s := InsertTransition(NextTransition(Rec(), StepEntity, Some(ids[i]), StepIs(active[ids[i]]), StepIs(StepUnknown),
                                                 RecoveryStep(ids[i], NextSequence(log)), now));
        if s.Err? {
          RecoveriesFail(before, ids, active, now, i + 1);
          return s;
        }
      }
      assert ids[..|ids|] == ids;
      return Ok(());
    }

    method Quarantine()
      modifies this`state, this`steps
      ensures Rec() == T.Quarantine(old(Rec()))
    {
      state := Unknown;
      steps := map id | id in steps :: if steps[id].IsActive() then StepUnknown else steps[id];
    }

    method RecoverUnknown(view: ResumeView, now: int) returns (r: Result<()>)
      modifies this
      ensures Commits(r, T.RecoverUnknown(old(Rec()), view, now), Rec()) && task == old(task)
    {
      hide T.InsertRecovery, T.Quarantine, T.AddCheckpoint;
      if state == Unknown {
        return Ok(());
      }
      if state != view.state || ActiveSteps(steps) != view.active {
        return Err(InvalidInput);
      }
      var _ :- InsertRecovery(view.state, view.active, now);
      Quarantine();
      AddCheckpoint(None, Recovery, CheckpointUnknown, Some(spec.digest), now);
      return Ok(());
    }

    method ForceUnknown(now: int)
      modifies this
      ensures Rec() == T.ForceUnknown(old(Rec()), now) && task == old(task)
    {
      Quarantine();
      if !HasRecoveryCheckpoint(checkpoints) {
        AddCheckpoint(None, Recovery, CheckpointUnknown, Some(spec.digest), now);
      }
    }

    method ResumeWrite(view: ResumeView, now: int) returns (r: Result<()>)
      modifies this
      ensures Commits(r, T.ResumeWrite(old(Rec()), view, now), Rec()) && task == old(task)
    {
      hide T.RecoverUnknown, T.ForceUnknown;
      match view.verdict {
        case FoundInconsistent =>
          ForceUnknown(now);
          return Ok(());
        case FoundActive => r := RecoverUnknown(view, now);
        case FoundStable => return Ok(());
      }
    }
  }
}
