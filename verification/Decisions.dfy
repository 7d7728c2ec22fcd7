/** What saving a plan and deciding about it does, and who may decide, said of plans and rows alone. */
module Decisions {
  import opened Base
  import opened PlanCore
  import opened TransitionLog
  import opened PlanTransactions
  import opened Journal
  import opened PlanInvariants
  import opened AdmittedPlans
  import opened Scheduler
  import opened Conditions
  import opened QueueModel

  // ----- who may decide -----

  /** A Reviewer or an Administrator of the plan's tenant decides in his own name and role about exactly this
      plan and scope, in time, and claims at least what the scope needs and his role allows; his own plan
      nobody approves. */
  predicate MayApprove(rec: PlanRec, principal: Principal, a: Approval, now: int) {
    && (principal.role == Administrator || principal.role == Reviewer)
    && a.approver == principal.operator && a.approverRole == principal.role
    && a.tenant == principal.tenant && a.tenant == rec.spec.tenant
    && a.planId == rec.spec.planId && a.planDigest == rec.spec.digest && a.revision == rec.spec.revision
    && !a.revoked && now < a.expiresAt
    && (a.stepId.Some? ==> exists s :: s in rec.spec.steps && s.id == a.stepId.value)
    && (a.required == ByAdministrator ==> a.approverRole == Administrator)
    && (a.required == ByReviewer ==> a.approverRole != Operator)
    && (ScopeNeedsAdministrator(rec.spec, a.stepId) ==> a.required == ByAdministrator)
    && (ScopeNeedsSomebody(rec.spec, a.stepId) ==> a.required != NoApproval)
    && (a.decision == ApprovedDecision ==> a.approver != rec.spec.operator)
  }

  lemma ShapeMeans(rec: PlanRec, principal: Principal, a: Approval, now: int)
    requires UniqueIds(rec.spec.steps)
    requires principal.Allows(ApprovePlan) && principal.operator == a.approver && principal.role == a.approverRole
    requires principal.tenant == rec.spec.tenant
    ensures ApprovalShapeOk(Loaded(rec), principal, a, now) <==> MayApprove(rec, principal, a, now)
  {
    ScopeMeans(Loaded(rec), a.stepId);
    RowConditionsSame(rec, a.stepId);
    hide UniqueIds, ScopeNeedsAdministrator, ScopeNeedsSomebody, RequiredForScope;
  }

  lemma RowConditionsSame(rec: PlanRec, scope: Option<StepId>)
    ensures ScopeNeedsAdministrator(Loaded(rec), scope) == ScopeNeedsAdministrator(rec.spec, scope)
    ensures ScopeNeedsSomebody(Loaded(rec), scope) == ScopeNeedsSomebody(rec.spec, scope)
  {
    hide StepNeedsAdministrator, StepNeedsSomebody;
  }

  // ----- what a decision does -----

  /** The first stored decision under the key. */
  predicate IsFirstUnder(stored: seq<StoredApproval>, key: Key, k: nat) {
    k < |stored| && stored[k].key == key && forall j :: 0 <= j < k ==> stored[j].key != key
  }

  /** The same decision, but for the time it expires. */
  predicate SameDecision(a: Approval, b: Approval) {
    && a.approvalId == b.approvalId && a.planId == b.planId && a.planDigest == b.planDigest && a.revision == b.revision
    && a.tenant == b.tenant && a.approver == b.approver && a.approverRole == b.approverRole && a.stepId == b.stepId
    && a.required == b.required && a.decision == b.decision && a.revoked == b.revoked
  }

  /** A repeated key is answered by the first decision under it, if that was the same. */
  ghost predicate Repeats(rec: PlanRec, a: Approval, key: Key, result: Result<(PlanRec, ApprovalOutcome)>) {
    exists k: nat ::
      && IsFirstUnder(rec.approvals, key, k)
      && result == if SameDecision(rec.approvals[k].approval, a) then Ok((rec, WasExisting)) else Err(IdempotencyConflict)
  }

  lemma {:induction false} FirstUnder(stored: seq<StoredApproval>, key: Key) returns (k: nat)
    requires ApprovalKeyUsed(stored, key)
    ensures IsFirstUnder(stored, key, k) && ApprovalWithKey(stored, key) == stored[k].approval
  {
    if stored[0].key == key {
      k := 0;
    } else {
      assert ApprovalKeyUsed(stored[1..], key) by {
        var i :| 0 <= i < |stored| && stored[i].key == key;
        assert stored[1..][i - 1].key == key;
      }
      k := FirstUnder(stored[1..], key);
      k := k + 1;
      forall j | 0 <= j < k ensures stored[j].key != key {
        if j > 0 { assert stored[j] == stored[1..][j - 1]; }
      }
    }
  }

  /** The decision is stored and noted. An approval of a whole draft approves it and a rejection rejects it;
      an approval of one step moves nothing. */
  predicate IsDecided(rec: PlanRec, r: PlanRec, a: Approval, key: Key, now: int) {
    && r == rec.(state := r.state, log := r.log, approvals := rec.approvals + [StoredApproval(a, key)], checkpoints := r.checkpoints)
    && r.checkpoints == rec.checkpoints
         + [Checkpoint(NextCheckpointSequence(rec.checkpoints), a.stepId, ApprovalPhase,
                       if a.decision == ApprovedDecision then CheckpointSucceeded else CheckpointFailed, None, now)]
    && if a.decision == ApprovedDecision && a.stepId.Some? then r.state == rec.state && r.log == rec.log
       else if a.decision == ApprovedDecision then
         && r.state == Approved && |r.log| == 3 && r.log[0].body.MovesPlan(Draft, Proposed)
         && r.log[1].body.MovesPlan(Proposed, Validated) && r.log[2].body.MovesPlan(Validated, Approved)
       else r.state == Rejected && |r.log| == 1 && r.log[0].body.MovesPlan(Draft, Rejected)
  }

  lemma ApprovalRows(rec: PlanRec, id: nat, now: int)
    requires rec.state == Draft && rec.log == []
    ensures ApproveTransitions(rec, id, now).Ok?
    ensures var r := ApproveTransitions(rec, id, now).value;
            && r == rec.(state := Approved, log := r.log) && |r.log| == 3 && r.log[0].body.MovesPlan(Draft, Proposed)
            && r.log[1].body.MovesPlan(Proposed, Validated) && r.log[2].body.MovesPlan(Validated, Approved)
  {
    hide AppendPlan, KeysAmong;
    NoKeys();
    PlanRow(rec, Draft, Proposed, ApprovalProposed(id), now, {});
    var r1 := AppendPlan(rec, Draft, Proposed, ApprovalProposed(id), now).value;
    PlanRow(r1, Proposed, Validated, ApprovalValidated(id), now, {} + {ApprovalProposed(id)});
    var r2 := AppendPlan(r1, Proposed, Validated, ApprovalValidated(id), now).value;
    PlanRow(r2, Validated, Approved, ApprovalApproved(id), now, {} + {ApprovalProposed(id)} + {ApprovalValidated(id)});
    var r3 := AppendPlan(r2, Validated, Approved, ApprovalApproved(id), now).value;
    assert r3.log[1] == r2.log[1] && r2.log[0] == r1.log[0] && r3.log[0] == r2.log[0];
  }

  lemma RejectionRow(rec: PlanRec, id: nat, now: int)
    requires rec.state == Draft && rec.log == []
    ensures AppendPlan(rec, Draft, Rejected, ApprovalRejected(id), now).Ok?
    ensures var r := AppendPlan(rec, Draft, Rejected, ApprovalRejected(id), now).value;
            r == rec.(state := Rejected, log := r.log) && |r.log| == 1 && r.log[0].body.MovesPlan(Draft, Rejected)
  {
  }

  lemma RecordMeans(rec: PlanRec, task: Option<TaskRow>, a: Approval, key: Key, now: int)
    requires RecOk(rec) && Joint(rec, task)
    ensures var r := RecordApproval(rec, a, key, now);
            && (r.Ok? <==> (a.decision == ApprovedDecision && a.stepId.Some?) || rec.state == Draft)
            && (r.Ok? ==> IsDecided(rec, r.value.0, a, key, now) && r.value.1 == OutcomeOfDecision(a))
  {
    hide RecOk, Joint, AppendPlan, ApproveTransitions, StepsOk, KeysAllowed;
    DecidedStates(rec, task);
    var stored := rec.(approvals := rec.approvals + [StoredApproval(a, key)]);
    if rec.state == Draft {
      NoEngineKeys(rec);
      ApprovalRows(stored, a.approvalId, now);
      RejectionRow(stored, a.approvalId, now);
    } else {
      NoTransitions(stored, a.approvalId, now);
    }
  }

  function OutcomeOfDecision(a: Approval): ApprovalOutcome {
    if a.decision == ApprovedDecision then WasApproved else WasRejected
  }

  lemma DecidedStates(rec: PlanRec, task: Option<TaskRow>)
    requires Joint(rec, task)
    ensures StepsOk(rec.state, rec.steps) && rec.state !in {Proposed, Validated, AwaitingApproval}
  {
  }

  lemma NoTransitions(rec: PlanRec, id: nat, now: int)
    requires rec.state !in {Draft, Proposed, Validated, AwaitingApproval}
    ensures ApproveTransitions(rec, id, now).Err?
  {
  }

  /** A decision about a governed plan: who may decide, what a repeated key means, and what is recorded.
      Whole plans are decided while they are drafts, single steps at any time. */
  lemma DecisionMeans(rec: PlanRec, task: Option<TaskRow>, principal: Principal, a: Approval, key: Key, idTaken: bool, now: int)
    requires RecOk(rec) && Joint(rec, task)
    ensures var result := Approve(rec, principal, a, key, idTaken, now);
            && (!MayApprove(rec, principal, a, now) ==> result.Err?)
            && (MayApprove(rec, principal, a, now) ==>
                  if ApprovalKeyUsed(rec.approvals, key) then Repeats(rec, a, key, result)
                  else
                    && (result.Ok? <==> !idTaken && ((a.decision == ApprovedDecision && a.stepId.Some?) || rec.state == Draft))
                    && (result.Ok? ==> IsDecided(rec, result.value.0, a, key, now) && result.value.1 == OutcomeOfDecision(a)))
  {
    hide RecOk, Joint, LoadPlan, ApprovalShapeOk, RecordApproval, MayApprove, IsDecided, IsSha256, IsFirstUnder, ApprovalWithKey,
         ApprovalShapeError;
    LoadsIff(rec, principal.tenant, PlanRef(a.planId, a.revision, a.planDigest));
    GovernedRef(rec);
    MayApproveShape(rec, principal, a, now);
    if principal.Allows(ApprovePlan) && principal.operator == a.approver && principal.role == a.approverRole
      && principal.tenant == rec.spec.tenant {
      ShapeMeans(rec, principal, a, now);
    }
    RecordMeans(rec, task, a, key, now);
    if ApprovalKeyUsed(rec.approvals, key) {
      var k := FirstUnder(rec.approvals, key);
      IntentMeans(ApprovalWithKey(rec.approvals, key), a);
      InRange(rec.approvals, key, k);
    }
  }

  lemma InRange(stored: seq<StoredApproval>, key: Key, k: nat)
    requires IsFirstUnder(stored, key, k)
    ensures k < |stored|
  {
  }

  lemma IntentMeans(a: Approval, b: Approval)
    ensures SameIntent(a, b) <==> SameDecision(a, b)
  {
  }

  lemma GovernedRef(rec: PlanRec)
    requires RecOk(rec)
    ensures RefOk(PlanRef(rec.spec.planId, rec.spec.revision, rec.spec.digest)) && UniqueIds(rec.spec.steps)
  {
    hide Journaled, AttemptsOk, CheckpointsOk;
  }

  lemma MayApproveShape(rec: PlanRec, principal: Principal, a: Approval, now: int)
    ensures MayApprove(rec, principal, a, now) ==>
              && principal.Allows(ApprovePlan) && principal.operator == a.approver && principal.role == a.approverRole
              && principal.tenant == rec.spec.tenant
              && PlanRef(a.planId, a.revision, a.planDigest) == PlanRef(rec.spec.planId, rec.spec.revision, rec.spec.digest)
  {
    hide ScopeNeedsAdministrator, ScopeNeedsSomebody;
  }

  // ----- saving -----

  /** The plan as it is saved: first revision, draft, with the digest of its content. */
  predicate IsFirstRevision(p: PlanSpec, input: PlanSpec, now: int) {
    && p == input.(revision := 1, state := Draft, createdAt := now, digest := p.digest)
    && p.digest == Sha256(Canonical(p))
  }

  /** A plan nothing has happened to. */
  predicate IsFresh(rec: PlanRec) {
    && rec.state == Draft && rec.log == [] && rec.checkpoints == [] && rec.approvals == []
    && rec.steps.Keys == Ids(rec.spec.steps) && rec.attempts.Keys == Ids(rec.spec.steps)
    && (forall id :: id in rec.steps ==> rec.steps[id] == StepPending)
    && (forall id :: id in rec.attempts ==> rec.attempts[id] == 0)
  }

  /** Saving goes through for a valid plan whose identifier is free, or taken by the same content of the same
      tenant, and then changes nothing. */
  lemma SavingMeans(st: Store, input: PlanSpec, now: int, p: PlanSpec)
    requires IsFirstRevision(p, input, now)
    ensures var r := SavePlan(st, input, now);
            && (r.Ok? <==>
                  && 1 <= input.budget.maxSteps <= 256 && input.budget.maxToolCalls <= 512
                  && 1 <= input.budget.maxElapsedMs <= 300_000 && input.budget.maxCostMicrounits <= 10_000_000
                  && ValidStructure(p)
                  && (p.planId in st.plans ==>
                        st.plans[p.planId].spec.tenant == p.tenant && st.plans[p.planId].spec.digest == p.digest))
            && (r.Ok? ==>
                  if p.planId in st.plans then r.value == st
                  else
                    && p.planId in r.value.plans && r.value == st.(plans := st.plans[p.planId := r.value.plans[p.planId]])
                    && r.value.plans[p.planId].spec == p && IsFresh(r.value.plans[p.planId]))
  {
    hide ValidStructure, Canonical, NewPlan, IsFirstRevision, IsFresh, FreshRec;
    SavedIs(p, input, now);
    FirstRevisionKeeps(p, input, now);
    FreshIsFresh(p);
  }

  lemma FreshIsFresh(p: PlanSpec)
    requires p.state == Draft
    ensures IsFresh(FreshRec(p)) && FreshRec(p).spec == p
  {
  }

  lemma FirstRevisionKeeps(p: PlanSpec, input: PlanSpec, now: int)
    requires IsFirstRevision(p, input, now)
    ensures p.state == Draft && p.budget == input.budget && p.planId == input.planId && p.tenant == input.tenant
  {
  }

  lemma SavedIs(p: PlanSpec, input: PlanSpec, now: int)
    requires IsFirstRevision(p, input, now)
    ensures NewPlan(input, now) == p
  {
    assert Canonical(NewPlan(input, now)) == Canonical(p);
  }
}
