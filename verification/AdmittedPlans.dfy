/** From admission to success: any governed plan whose steps nothing but the dependencies holds back. */
module AdmittedPlans {
  import opened Base
  import opened PlanCore
  import opened PlanVerification
  import opened TransitionLog
  import opened PlanTransactions
  import opened Journal
  import opened LogLaws
  import opened PlanInvariants
  import opened Schedule
  import opened Scheduler
  import opened Conditions
  import opened RowConditions

  // ----- the log of a plan that has not begun -----

  predicate NotBegun(r: Reduced) {
    && r.plan in {Draft, Proposed, Validated, AwaitingApproval, Approved}
    && forall id :: id in r.steps ==> r.steps[id] == StepPending
  }

  /** Before the first claim the log holds plan events under admission and approval keys alone, and none
      as long as the plan is a draft. */
  lemma {:induction false} NotBegunKeys(steps: seq<PlanStep>, log: seq<LogRow>)
    requires Lawful(steps, log) && Replay(Ids(steps), log).Some? && NotBegun(Replay(Ids(steps), log).value)
    ensures forall i :: 0 <= i < |log| ==> IsAdmissionKey(log[i].body.key)
    ensures Replay(Ids(steps), log).value.plan == Draft ==> log == []
  {
    hide NotBegun, EventRule, IsAdmissionKey, Replay, Lawful, ApplyTransition;
    if log != [] {
      var n := |log| - 1;
      LawAt(steps, log, n);
      StepAt(Ids(steps), log, n);
      assert log[..|log|] == log;
      LastOfNotBegun(Replay(Ids(steps), log[..n]).value, log[n].body, Replay(Ids(steps), log).value);
      assert IsAdmissionKey(log[n].body.key) by { KeyOfPlanEvent(steps, log, n); }
      NotBegunKeys(steps, log[..n]);
      assert forall i :: 0 <= i < n ==> log[i] == log[..n][i];
    }
  }

  /** A step event leaves a step that is no longer pending. */
  lemma StepEventShows(before: Reduced, t: Transition, after: Reduced)
    requires ApplyTransition(before, t) == Some(after)
    ensures t.toState.StepIs? ==> t.entityId.Some? && t.entityId.value in after.steps
                                  && after.steps[t.entityId.value] != StepPending
  {
  }

  lemma LastOfNotBegun(before: Reduced, t: Transition, after: Reduced)
    requires ApplyTransition(before, t) == Some(after) && NotBegun(after)
    ensures NotBegun(before) && t.toState.PlanIs? && t.toState.plan in {Proposed, Validated, AwaitingApproval, Approved}
    ensures after.plan != Draft
  {
    StepEventShows(before, t, after);
  }

  lemma KeyOfPlanEvent(steps: seq<PlanStep>, log: seq<LogRow>, n: nat)
    requires n < |log| && Replay(Ids(steps), log[..n]).Some?
    requires EventRule(steps, Replay(Ids(steps), log[..n]).value, log[..n], log[n].body)
    requires log[n].body.toState.PlanIs? && log[n].body.toState.plan in {Proposed, Validated, AwaitingApproval, Approved}
    ensures IsAdmissionKey(log[n].body.key)
  {
  }

  lemma NoEngineKeys(rec: PlanRec)
    requires RecOk(rec) && StepsOk(rec.state, rec.steps) && rec.state in {Draft, Approved}
    ensures KeysAllowed(rec.log, {}, {}, false)
    ensures rec.state == Draft ==> rec.log == []
  {
    assert Replay(Ids(rec.spec.steps), rec.log) == Some(Reduced(rec.state, rec.steps));
    NotBegunKeys(rec.spec.steps, rec.log);
    ColumnKeys(rec.log);
    hide RecOk, Lawful, Replay;
  }

  lemma ColumnKeys(log: seq<LogRow>)
    requires ColumnsOk(log) && forall i :: 0 <= i < |log| ==> IsAdmissionKey(log[i].body.key)
    ensures KeysAllowed(log, {}, {}, false)
  {
    forall i | 0 <= i < |log| ensures KeyAllowed(log[i].key, {}, {}, false) {
      assert IsAdmissionKey(log[i].body.key);
    }
  }

  // ----- admission -----

  lemma AdmissionChecks(rec: PlanRec, principal: Principal, taskId: TaskId, ref: PlanRef, now: int)
    requires RecOk(rec) && Admit(rec, principal, taskId, ref, now).Ok?
    requires RequiredApproval(rec.spec) == NoApproval
    requires forall s :: s in rec.spec.steps ==> s.preconditions == [] && s.postconditions == []
    ensures Unconditional(rec.spec)
  {
    assert PreflightOk(rec, now) && rec.spec.mode == DryRun by { hide PreflightOk, ValidStructure, DigestOk, AppendPlan; }
    forall s | s in rec.spec.steps ensures ShapeOk(DEFAULT_LIMITS, rec.spec, s) {
      assert ShapeOk(DEFAULT_LIMITS, Loaded(rec), s);
    }
    hide Journaled, Admit, RequiredApproval, ShapeOk;
  }

  lemma SameLookups(rec: PlanRec)
    ensures RequiredApproval(Loaded(rec)) == RequiredApproval(rec.spec)
    ensures ValidStructure(Loaded(rec)) <==> ValidStructure(rec.spec)
    ensures DigestOk(Loaded(rec)) <==> DigestOk(rec.spec)
    ensures forall s :: ShapeOk(DEFAULT_LIMITS, Loaded(rec), s) <==> ShapeOk(DEFAULT_LIMITS, rec.spec, s)
  {
    assert Canonical(Loaded(rec)) == Canonical(rec.spec);
    hide RequiredOfSteps, SortById;
  }

  lemma LoadsIff(rec: PlanRec, tenant: TenantId, ref: PlanRef)
    requires RecOk(rec)
    ensures LoadPlan(rec, tenant, ref).Ok? <==>
            tenant == rec.spec.tenant && ref == PlanRef(rec.spec.planId, rec.spec.revision, rec.spec.digest)
    ensures LoadPlan(rec, tenant, ref).Ok? ==> LoadPlan(rec, tenant, ref).value == Loaded(rec)
    ensures IsSha256(rec.spec.digest)
  {
    SameLookups(rec);
    assert ValidStructure(rec.spec) && DigestOk(rec.spec) by { hide Journaled; }
    assert IsSha256(rec.spec.digest) by { hide ValidStructure, RecOk; }
    hide ValidStructure, DigestOk, RecOk;
  }

  /** The three transitions of an admission have keys of their own. */
  lemma ThreeAppends(rec: PlanRec, now: int)
    requires rec.state == Draft && rec.log == []
    ensures AppendPlan(rec, Draft, Proposed, AdmissionProposed, now).Ok?
    ensures var r1 := AppendPlan(rec, Draft, Proposed, AdmissionProposed, now).value;
            && r1.state == Proposed && AppendPlan(r1, Proposed, Validated, AdmissionValidated, now).Ok?
            && var r2 := AppendPlan(r1, Proposed, Validated, AdmissionValidated, now).value;
               r2.state == Validated && AppendPlan(r2, Validated, Approved, AdmissionApproved, now).Ok?
  {
    hide AppendPlan, KeysAmong;
    NoKeys();
    AppendUnderKey(rec, Draft, Proposed, AdmissionProposed, now, {});
    var r1 := AppendPlan(rec, Draft, Proposed, AdmissionProposed, now).value;
    AppendUnderKey(r1, Proposed, Validated, AdmissionValidated, now, {AdmissionProposed});
    var r2 := AppendPlan(r1, Proposed, Validated, AdmissionValidated, now).value;
    AppendUnderKey(r2, Validated, Approved, AdmissionApproved, now, {AdmissionProposed} + {AdmissionValidated});
  }

  lemma NoKeys()
    ensures KeysAmong([], {})
  {
  }

  predicate KeysAmong(log: seq<LogRow>, keys: set<Key>) {
    forall i :: 0 <= i < |log| ==> log[i].key in keys
  }

  lemma AppendUnderKey(rec: PlanRec, a: PlanState, b: PlanState, key: Key, now: int, used: set<Key>)
    requires rec.state == a && a.CanMoveTo(b) && KeysAmong(rec.log, used) && key !in used
    ensures AppendPlan(rec, a, b, key, now).Ok? && AppendPlan(rec, a, b, key, now).value.state == b
    ensures KeysAmong(AppendPlan(rec, a, b, key, now).value.log, used + {key})
    ensures {} + {key} == {key}
  {
    PlanAppendOk(rec, a, b, key, now);
    var r := AppendPlan(rec, a, b, key, now).value;
    forall i | 0 <= i < |r.log| ensures r.log[i].key in used + {key} {
      if i < |rec.log| { assert r.log[..|rec.log|][i] == rec.log[i]; }
    }
  }

  /** The plan is approved, by three events if it was a draft and none if it was approved before; a
      checkpoint notes the plan's digest. */
  predicate IsAdmitted(rec: PlanRec, r: PlanRec, now: int) {
    && r == rec.(state := Approved, log := r.log, checkpoints := rec.checkpoints
         + [Checkpoint(|rec.checkpoints| + 1, None, Preflight, CheckpointSucceeded, Some(rec.spec.digest), now)])
    && if rec.state == Draft then
         && |r.log| == 3 && r.log[0].body.MovesPlan(Draft, Proposed)
         && r.log[1].body.MovesPlan(Proposed, Validated) && r.log[2].body.MovesPlan(Validated, Approved)
       else r.log == rec.log
  }

  /** Exactly when a governed plan that no task has yet is admitted: it was not rejected, reference, owner
      and task are its own, it is a dry run within the limits, and if it needs an approval one stands. */
  lemma AdmittedIff(rec: PlanRec, principal: Principal, taskId: TaskId, ref: PlanRef, now: int)
    requires RecOk(rec) && Joint(rec, None)
    ensures Admit(rec, principal, taskId, ref, now).Ok? <==>
            && rec.state != Rejected
            && ref == PlanRef(rec.spec.planId, rec.spec.revision, rec.spec.digest)
            && principal.tenant == rec.spec.tenant && principal.operator == rec.spec.operator
            && taskId == rec.spec.taskId && rec.spec.mode == DryRun
            && WithinLimits(rec.spec) && (PlanNeedsSomebody(rec.spec) ==> Approves(rec, None, now))
    ensures Admit(rec, principal, taskId, ref, now).Ok? ==> IsAdmitted(rec, Admit(rec, principal, taskId, ref, now).value, now)
  {
    hide PreflightOk, LoadPlan, AppendPlan, RecOk, IsSha256, StepsOk, KeysAllowed, WithinLimits, PlanNeedsSomebody, Approves,
         AddCheckpoint, IsAdmitted;
    LoadsIff(rec, principal.tenant, ref);
    if rec.state != Rejected {
      PreflightMeans(rec, now);
      NoEngineKeys(rec);
      var r := rec;
      if rec.state == Draft {
        ThreeAppends(rec, now);
        r := AfterThree(rec, now);
      }
      CheckpointAdmits(rec, r, now);
    }
  }

  function AfterThree(rec: PlanRec, now: int): PlanRec
    requires rec.state == Draft && rec.log == []
  {
    ThreeAppends(rec, now);
    var r1 := AppendPlan(rec, Draft, Proposed, AdmissionProposed, now).value;
    var r2 := AppendPlan(r1, Proposed, Validated, AdmissionValidated, now).value;
    AppendPlan(r2, Validated, Approved, AdmissionApproved, now).value
  }

  lemma CheckpointAdmits(rec: PlanRec, r: PlanRec, now: int)
    requires RecOk(rec)
    requires (rec.state == Draft && rec.log == [] && r == AfterThree(rec, now)) || (rec.state == Approved && r == rec)
    ensures IsAdmitted(rec, AddCheckpoint(r, None, Preflight, CheckpointSucceeded, Some(rec.spec.digest), now), now)
  {
    hide RecOk, AfterThree, AddCheckpoint;
    if rec.state == Draft {
      ThreeRows(rec, now);
    }
    Numbered(rec, r, None, Preflight, CheckpointSucceeded, Some(rec.spec.digest), now);
  }

  /** One more plan event under a fresh key. */
  lemma PlanRow(rec: PlanRec, a: PlanState, b: PlanState, key: Key, now: int, used: set<Key>)
    requires rec.state == a && a.CanMoveTo(b) && KeysAmong(rec.log, used) && key !in used
    ensures AppendPlan(rec, a, b, key, now).Ok?
    ensures var r := AppendPlan(rec, a, b, key, now).value;
            && r == rec.(state := b, log := r.log) && |r.log| == |rec.log| + 1 && r.log[..|rec.log|] == rec.log
            && r.log[|rec.log|].body.MovesPlan(a, b) && KeysAmong(r.log, used + {key})
  {
    AppendUnderKey(rec, a, b, key, now, used);
    hide KeysAmong, KeyUsed;
  }

  lemma ThreeRows(rec: PlanRec, now: int)
    requires rec.state == Draft && rec.log == []
    ensures var r := AfterThree(rec, now);
            && r == rec.(state := Approved, log := r.log) && |r.log| == 3 && r.log[0].body.MovesPlan(Draft, Proposed)
            && r.log[1].body.MovesPlan(Proposed, Validated) && r.log[2].body.MovesPlan(Validated, Approved)
  {
    hide AppendPlan, KeysAmong;
    NoKeys();
    PlanRow(rec, Draft, Proposed, AdmissionProposed, now, {});
    var r1 := AppendPlan(rec, Draft, Proposed, AdmissionProposed, now).value;
    PlanRow(r1, Proposed, Validated, AdmissionValidated, now, {} + {AdmissionProposed});
    var r2 := AppendPlan(r1, Proposed, Validated, AdmissionValidated, now).value;
    PlanRow(r2, Validated, Approved, AdmissionApproved, now, {} + {AdmissionProposed} + {AdmissionValidated});
    var r3 := AppendPlan(r2, Validated, Approved, AdmissionApproved, now).value;
    assert r3.log[1] == r2.log[1] && r2.log[0] == r1.log[0] && r3.log[0] == r2.log[0];
  }

  // ----- to success -----

  /** Any governed plan without conditions or required approvals, once admitted with its task, runs to
      success: one claim per step, in the least topological order of its dependencies. */
  lemma AdmittedPlanRunsToSuccess(rec: PlanRec, principal: Principal, ref: PlanRef, now: int, task: TaskRow, rounds: seq<Round>)
    requires RecOk(rec) && Joint(rec, None) && RequiredApproval(rec.spec) == NoApproval
    requires forall s :: s in rec.spec.steps ==> s.preconditions == [] && s.postconditions == []
    requires Admit(rec, principal, rec.spec.taskId, ref, now).Ok?
    requires task.status == TQueued && TaskOk(task) && task.plan == Some(ref)
    requires task.taskId == rec.spec.taskId && task.tenant == rec.spec.tenant
    requires |rounds| == |rec.spec.steps| && forall r :: r in rounds ==> RoundOk(r)
    ensures Acyclic(rec.spec.steps) && ReferencesKnown(rec.spec.steps)
    ensures Play(Admit(rec, principal, rec.spec.taskId, ref, now).value, task, rounds).Ok?
    ensures var (r, t, order) := Play(Admit(rec, principal, rec.spec.taskId, ref, now).value, task, rounds).value;
            && order == Greedy(rec.spec.steps, {}) && |order| == |rec.spec.steps|
            && r.state == Succeeded && t.status == TSucceeded && t.result == rounds[|rounds| - 1].result
  {
    hide RecOk, Joint, RequiredApproval, Waiting, Admit, Play, Acyclic, ReferencesKnown, Ids, Greedy, UniqueIds;
    AdmittedWaits(rec, principal, ref, now, task);
    var r := Admit(rec, principal, rec.spec.taskId, ref, now).value;
    BoundRef(r, task, {});
    CountSteps(rec, rounds);
    RunsToSuccess(r, task, rounds, {});
    GreedyCompletes(rec.spec.steps, {});
  }

  lemma CountSteps(rec: PlanRec, rounds: seq<Round>)
    requires RecOk(rec) && |rounds| == |rec.spec.steps|
    ensures |rounds| == |Ids(rec.spec.steps) - {}| == |Ids(rec.spec.steps)| && Ids(rec.spec.steps) != {}
  {
    assert UniqueIds(rec.spec.steps) && rec.spec.steps != [] by { hide Journaled; }
    IdCount(rec.spec.steps);
    hide Ids, RecOk;
    assert Ids(rec.spec.steps) - {} == Ids(rec.spec.steps);
  }

  /** Admission leaves the plan waiting for its first claim. */
  lemma AdmittedWaits(rec: PlanRec, principal: Principal, ref: PlanRef, now: int, task: TaskRow)
    requires RecOk(rec) && Joint(rec, None) && RequiredApproval(rec.spec) == NoApproval
    requires forall s :: s in rec.spec.steps ==> s.preconditions == [] && s.postconditions == []
    requires Admit(rec, principal, rec.spec.taskId, ref, now).Ok?
    requires task.status == TQueued && TaskOk(task) && task.plan == Some(ref)
    requires task.taskId == rec.spec.taskId && task.tenant == rec.spec.tenant
    ensures var r := Admit(rec, principal, rec.spec.taskId, ref, now).value;
            Waiting(r, task, {}) && r.spec == rec.spec
  {
    hide Admit, RecOk, Joint, Unconditional, Waiting, StepsAre, KeysAllowed, RequiredApproval, StepsOk;
    AdmissionChecks(rec, principal, rec.spec.taskId, ref, now);
    AdmitKeeps(rec, principal, rec.spec.taskId, ref, now);
    var r := Admit(rec, principal, rec.spec.taskId, ref, now).value;
    AdmittedState(rec, principal, ref, now);
    JointQueued(rec, r, task);
    NothingDone(r, task);
    NoEngineKeys(r);
    FirstWaiting(r, task);
  }

  lemma AdmittedState(rec: PlanRec, principal: Principal, ref: PlanRef, now: int)
    requires Admit(rec, principal, rec.spec.taskId, ref, now).Ok? && Joint(rec, None)
    ensures rec.state in {Draft, Approved}
  {
    hide PreflightOk, AppendPlan, ValidStructure, DigestOk;
  }

  lemma JointQueued(rec: PlanRec, r: PlanRec, task: TaskRow)
    requires Joint(rec, None) && r == rec.(state := Approved, log := r.log, checkpoints := r.checkpoints)
    requires rec.state in {Draft, Approved}
    requires TaskOk(task) && task.status == TQueued && task.taskId == rec.spec.taskId && task.tenant == rec.spec.tenant
    requires task.plan == Some(PlanRef(rec.spec.planId, rec.spec.revision, rec.spec.digest))
    ensures Joint(r, Some(task))
  {
  }

  lemma NothingDone(r: PlanRec, task: TaskRow)
    requires RecOk(r) && Joint(r, Some(task)) && r.state == Approved
    ensures StepsAre(r, {}, None) && StepsOk(r.state, r.steps)
  {
    StepKeys(r);
    hide Journaled, ValidStructure, DigestOk;
  }

  lemma FirstWaiting(r: PlanRec, task: TaskRow)
    requires Unconditional(r.spec) && RecOk(r) && Joint(r, Some(task)) && task.status == TQueued && r.state == Approved
    requires StepsAre(r, {}, None) && KeysAllowed(r.log, {}, {}, false)
    ensures Waiting(r, task, {})
  {
    hide RecOk, Joint, Unconditional, StepsAre, KeysAllowed;
  }

  lemma {:induction false} IdCount(steps: seq<PlanStep>)
    requires UniqueIds(steps)
    ensures |Ids(steps)| == |steps|
  {
    if steps != [] {
      var n := |steps| - 1;
      IdCount(steps[..n]);
      assert Ids(steps) == Ids(steps[..n]) + {steps[n].id};
    }
  }
}
