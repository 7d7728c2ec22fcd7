/** What an Administrator's resolution of an unknown plan does, and when it goes through, said of the
    plan's steps and rows alone. */
module ResolutionMeaning {
  import opened Base
  import opened PlanCore
  import opened TransitionLog
  import opened PlanTransactions
  import opened PlanInvariants
  import opened CancelKeys
  import opened RowConditions

  // ----- what each decision asks of the rows -----

  /** The step declares a compensation and may have had an effect. */
  predicate HasEffect(rec: PlanRec, id: StepId) {
    && id in rec.steps
    && (|| rec.steps[id] == StepSucceeded || rec.steps[id] == StepFailed
        || rec.steps[id] == StepUnknown || rec.steps[id] == StepCompensating)
    && exists s :: s in rec.spec.steps && s.id == id && s.compensation.Some?
  }

  /** The step is the declared compensation of one that may have had an effect, has not had one itself, and
      cannot start as it is. */
  predicate IsAwaited(rec: PlanRec, id: StepId) {
    && id in rec.steps && !HasEffect(rec, id) && (rec.steps[id] == StepUnknown || rec.steps[id] == StepFailed)
    && exists s :: s in rec.spec.steps && s.compensation == Some(id) && HasEffect(rec, s.id)
  }

  /** The rows allow the decision: there is an effect to compensate, or no open effect to forget, and the
      keys it writes are free. */
  predicate MayResolve(rec: PlanRec, decision: ResolutionDecision, key: Key) {
    match decision
    case Resume => forall id :: id in rec.steps && rec.steps[id] == StepUnknown ==> !KeyUsed(rec.log, StepKey(key, id))
    case Compensate =>
      && (exists id :: id in rec.steps && HasEffect(rec, id))
      && (forall id :: id in rec.steps && HasEffect(rec, id) && rec.steps[id] != StepCompensating ==>
            !KeyUsed(rec.log, SourceKey(key, id)))
      && (forall id :: id in rec.steps && IsAwaited(rec, id) ==> !KeyUsed(rec.log, TargetKey(key, id)))
    case Cancel =>
      forall id :: id in rec.steps ==>
        rec.steps[id] != StepRunning && rec.steps[id] != StepCancelRequested
        && rec.steps[id] != StepCompensating && rec.steps[id] != StepUnknown
  }

  /** The plan's state and steps afterwards; everything else is as it was, but for the log. */
  predicate Resolved(rec: PlanRec, r: PlanRec, decision: ResolutionDecision) {
    && r == rec.(state := r.state, steps := r.steps, log := r.log, checkpoints := r.checkpoints)
    && match decision
       case Resume =>
         && r.state == Running
         && r.steps == map id | id in rec.steps :: if rec.steps[id] == StepUnknown then StepReady else rec.steps[id]
       case Compensate =>
         && r.state == Compensating
         && r.steps == map id | id in rec.steps ::
              if HasEffect(rec, id) then StepCompensating else if IsAwaited(rec, id) then StepReady else rec.steps[id]
       case Cancel => r.state == Cancelled && r.steps == rec.steps
  }

  // ----- resume -----

  lemma ResumeMeans(rec: PlanRec, key: Key, now: int)
    requires rec.state == Unknown && !KeyUsed(rec.log, key)
    ensures ResolveResume(rec, key, now).Ok? <==> MayResolve(rec, Resume, key)
    ensures ResolveResume(rec, key, now).Ok? ==>
              && Resolved(rec, ResolveResume(rec, key, now).value, Resume)
              && ResolveResume(rec, key, now).value.checkpoints == rec.checkpoints
  {
    hide MoveAll, KeyUsed, AppendPlan, Ascending, Movable, StepsWhere;
    var ids := Ascending(StepsWhere(rec.steps, {StepUnknown}));
    UnknownAreMovable(rec, key, ids);
    UnknownListed(rec);
    MoveAllIff(rec, ids, rec.steps, StepReady, ByResolution(key), now);
    StepKeysDiffer(key);
    var r := MoveAll(rec, ids, rec.steps, StepReady, ByResolution(key), now);
    if r.Ok? {
      PlanAppendIff(r.value, Unknown, Running, key, now);
    }
  }

  lemma UnknownListed(rec: PlanRec)
    ensures forall id :: id in StepsWhere(rec.steps, {StepUnknown}) <==> id in rec.steps && rec.steps[id] == StepUnknown
  {
  }

  lemma {:induction false} NotWithinItself(key: Key, id: StepId)
    ensures SubStep(key, id) != key && SubSource(key, id) != key && SubTarget(key, id) != key
  {
    match key {
      case SubStep(base, step) => NotWithinItself(base, step);
      case SubSource(base, step) => NotWithinItself(base, step);
      case SubTarget(base, step) => NotWithinItself(base, step);
      case _ =>
    }
  }

  /** A key is not among those derived from it. */
  lemma StepKeysDiffer(key: Key)
    ensures forall id :: KeyFor(ByResolution(key), id) == StepKey(key, id) != key
    ensures forall id :: KeyFor(BySource(key), id) == SourceKey(key, id) != key
    ensures forall id :: KeyFor(ByTarget(key), id) == TargetKey(key, id) != key
  {
    forall id { NotWithinItself(key, id); }
  }

  lemma DerivedKeysDiffer(key: Key)
    ensures forall a, b :: SourceKey(key, a) != TargetKey(key, b)
    ensures forall a, b :: a != b ==> SourceKey(key, a) != SourceKey(key, b)
    ensures forall a, b :: a != b ==> TargetKey(key, a) != TargetKey(key, b)
  {
  }

  // ----- compensate -----

  lemma SourcesMean(rec: PlanRec, id: StepId)
    ensures id in EligibleSources(rec) <==> HasEffect(rec, id)
  {
  }

  lemma TargetsMean(rec: PlanRec, id: StepId)
    ensures id in EligibleTargets(rec) <==> exists s :: s in rec.spec.steps && s.compensation == Some(id) && HasEffect(rec, s.id)
  {
    hide EligibleSources, HasEffect;
    forall o ensures o in EligibleSources(rec) <==> HasEffect(rec, o) { SourcesMean(rec, o); }
    if id in EligibleTargets(rec) {
      var s :| s in rec.spec.steps && s.compensation.Some? && s.id in EligibleSources(rec) && s.compensation.value == id;
      assert s.compensation == Some(id);
    }
  }

  lemma {:induction false} SourcesAreDistinct(rec: PlanRec, steps: seq<PlanStep>)
    requires UniqueIds(steps)
    ensures Distinct(MovingSources(rec, steps)) && forall id :: id in MovingSources(rec, steps) ==> id in Ids(steps)
  {
    hide EligibleSources;
    if steps != [] {
      var n := |steps| - 1;
      SourcesAreDistinct(rec, steps[..n]);
      LastIsNew(steps);
    }
  }

  lemma LastIsNew(steps: seq<PlanStep>)
    requires UniqueIds(steps) && steps != []
    ensures UniqueIds(steps[..|steps| - 1]) && steps[|steps| - 1].id !in Ids(steps[..|steps| - 1])
    ensures Ids(steps) == Ids(steps[..|steps| - 1]) + {steps[|steps| - 1].id}
  {
    assert steps == steps[..|steps| - 1] + [steps[|steps| - 1]];
  }

  /** Exactly the steps with an effect that are not under compensation yet are moved. */
  lemma MovingMeans(rec: PlanRec, key: Key)
    requires UniqueIds(rec.spec.steps)
    ensures var moving := MovingSources(rec, rec.spec.steps);
            && Movable(rec, moving, rec.steps, StepCompensating, BySource(key))
            && forall id :: id in moving <==> id in rec.steps && HasEffect(rec, id) && rec.steps[id] != StepCompensating
  {
    SourcesAreDistinct(rec, rec.spec.steps);
    StepKeysDiffer(key);
    DerivedKeysDiffer(key);
    SourceSteps(rec);
    var moving := MovingSources(rec, rec.spec.steps);
    hide MovingSources, EligibleSources, UniqueIds, KeyFor;
    forall id ensures id in EligibleSources(rec) <==> HasEffect(rec, id) { SourcesMean(rec, id); }
    forall id | id in moving ensures id in rec.steps && rec.steps[id].CanMoveTo(StepCompensating) { }
  }

  lemma SourceSteps(rec: PlanRec)
    ensures forall id :: id in EligibleSources(rec) ==> exists s :: s in rec.spec.steps && s.id == id
  {
  }

  /** Afterwards exactly the awaited steps are made ready. */
  lemma WaitingMeans(rec: PlanRec, r1: PlanRec, key: Key, waiting: seq<StepId>)
    requires r1.steps.Keys == rec.steps.Keys && r1.spec == rec.spec
    requires forall id :: id in rec.steps ==> r1.steps[id] == if HasEffect(rec, id) then StepCompensating else rec.steps[id]
    requires waiting == Ascending(set id | id in EligibleTargets(rec) && id in r1.steps && r1.steps[id] in {StepUnknown, StepFailed})
    ensures Movable(r1, waiting, r1.steps, StepReady, ByTarget(key))
    ensures forall id :: id in waiting <==> id in rec.steps && IsAwaited(rec, id)
  {
    hide EligibleTargets, HasEffect, IsAwaited, Ascending, Movable;
    var chosen := set id | id in EligibleTargets(rec) && id in r1.steps && r1.steps[id] in {StepUnknown, StepFailed};
    assert forall id :: id in waiting <==> id in chosen;
    assert forall i, j :: 0 <= i < j < |waiting| ==> waiting[i] < waiting[j];
    ReadyIsMovable(r1, waiting, key);
    forall id ensures id in waiting <==> id in rec.steps && IsAwaited(rec, id) {
      if id in rec.steps { AwaitedMeans(rec, r1, id); }
    }
  }

  lemma AwaitedMeans(rec: PlanRec, r1: PlanRec, id: StepId)
    requires id in rec.steps && id in r1.steps && r1.steps[id] == if HasEffect(rec, id) then StepCompensating else rec.steps[id]
    ensures id in EligibleTargets(rec) && r1.steps[id] in {StepUnknown, StepFailed} <==> IsAwaited(rec, id)
  {
    TargetsMean(rec, id);
    hide EligibleTargets, HasEffect;
  }

  lemma ReadyIsMovable(r1: PlanRec, waiting: seq<StepId>, key: Key)
    requires forall i, j :: 0 <= i < j < |waiting| ==> waiting[i] < waiting[j]
    requires forall id :: id in waiting ==> id in r1.steps && r1.steps[id] in {StepUnknown, StepFailed}
    ensures Movable(r1, waiting, r1.steps, StepReady, ByTarget(key))
  {
    StepKeysDiffer(key);
    DerivedKeysDiffer(key);
    hide KeyFor;
  }

  lemma SomeSource(rec: PlanRec)
    ensures EligibleSources(rec) != {} <==> exists id :: id in rec.steps && HasEffect(rec, id)
  {
    hide HasEffect;
    forall id ensures id in EligibleSources(rec) <==> HasEffect(rec, id) { SourcesMean(rec, id); }
    if EligibleSources(rec) != {} {
      var id :| id in EligibleSources(rec);
      assert HasEffect(rec, id);
    }
  }

  lemma CompensateMeans(rec: PlanRec, key: Key, now: int)
    requires rec.state == Unknown && !KeyUsed(rec.log, key) && UniqueIds(rec.spec.steps)
    ensures ResolveCompensate(rec, key, now).Ok? <==> MayResolve(rec, Compensate, key)
    ensures ResolveCompensate(rec, key, now).Ok? ==>
              && Resolved(rec, ResolveCompensate(rec, key, now).value, Compensate)
              && ResolveCompensate(rec, key, now).value.checkpoints == rec.checkpoints
  {
    hide MoveAll, KeyUsed, AppendPlan, Ascending, Movable, EligibleSources, EligibleTargets, MovingSources, HasEffect, UniqueIds, IsAwaited;
    SomeSource(rec);
    MovingMeans(rec, key);
    StepKeysDiffer(key);
    DerivedKeysDiffer(key);
    var moving := MovingSources(rec, rec.spec.steps);
    MoveAllIff(rec, moving, rec.steps, StepCompensating, BySource(key), now);
    var moved := MoveAll(rec, moving, rec.steps, StepCompensating, BySource(key), now);
    if EligibleSources(rec) != {} && moved.Ok? {
      TargetsReady(rec, moved.value, key, now);
    }
  }

  lemma TargetsReady(rec: PlanRec, r1: PlanRec, key: Key, now: int)
    requires r1 == rec.(steps := r1.steps, log := r1.log) && rec.state == Unknown && r1.steps.Keys == rec.steps.Keys
    requires forall id :: id in rec.steps ==>
               r1.steps[id] == if HasEffect(rec, id) && rec.steps[id] != StepCompensating then StepCompensating else rec.steps[id]
    requires !KeyUsed(r1.log, key)
    requires forall id :: KeyUsed(r1.log, TargetKey(key, id)) <==> KeyUsed(rec.log, TargetKey(key, id))
    ensures var waiting := Ascending(set id | id in EligibleTargets(rec) && id in r1.steps && r1.steps[id] in {StepUnknown, StepFailed});
            && (forall id :: id in waiting ==> id in r1.steps)
            && var m := MoveAll(r1, waiting, r1.steps, StepReady, ByTarget(key), now);
               && (m.Ok? <==> forall id :: id in rec.steps && IsAwaited(rec, id) ==> !KeyUsed(rec.log, TargetKey(key, id)))
               && (m.Ok? ==>
                     && AppendPlan(m.value, Unknown, Compensating, key, now).Ok?
                     && Resolved(rec, AppendPlan(m.value, Unknown, Compensating, key, now).value, Compensate)
                     && AppendPlan(m.value, Unknown, Compensating, key, now).value.checkpoints == rec.checkpoints)
  {
    hide MoveAll, KeyUsed, AppendPlan, Ascending, Movable, EligibleTargets, HasEffect, IsAwaited, Resolved;
    var waiting := Ascending(set id | id in EligibleTargets(rec) && id in r1.steps && r1.steps[id] in {StepUnknown, StepFailed});
    WaitingMeans(rec, r1, key, waiting);
    AwaitedHasNoEffect(rec);
    StepKeysDiffer(key);
    DerivedKeysDiffer(key);
    MoveAllIff(r1, waiting, r1.steps, StepReady, ByTarget(key), now);
    var m := MoveAll(r1, waiting, r1.steps, StepReady, ByTarget(key), now);
    if m.Ok? {
      CompensationBegins(rec, m.value, key, now);
    }
  }

  lemma CompensationBegins(rec: PlanRec, m: PlanRec, key: Key, now: int)
    requires m == rec.(steps := m.steps, log := m.log) && rec.state == Unknown && m.steps.Keys == rec.steps.Keys
    requires forall id :: id in rec.steps ==>
               m.steps[id] == if HasEffect(rec, id) then StepCompensating else if IsAwaited(rec, id) then StepReady else rec.steps[id]
    requires !KeyUsed(m.log, key)
    ensures AppendPlan(m, Unknown, Compensating, key, now).Ok?
    ensures var r := AppendPlan(m, Unknown, Compensating, key, now).value;
            Resolved(rec, r, Compensate) && r.checkpoints == rec.checkpoints
  {
    hide KeyUsed, AppendPlan, HasEffect, IsAwaited;
    PlanAppendIff(m, Unknown, Compensating, key, now);
  }

  lemma AwaitedHasNoEffect(rec: PlanRec)
    ensures forall id :: IsAwaited(rec, id) ==> !HasEffect(rec, id)
  {
  }

  // ----- cancel -----

  lemma CancelMeans(rec: PlanRec, key: Key, now: int)
    requires rec.state == Unknown && !KeyUsed(rec.log, key)
    ensures ResolveCancel(rec, key, now).Ok? <==> MayResolve(rec, Cancel, key)
    ensures ResolveCancel(rec, key, now).Ok? ==>
              && Resolved(rec, ResolveCancel(rec, key, now).value, Cancel)
              && ResolveCancel(rec, key, now).value.checkpoints == rec.checkpoints
  {
    PlanAppendIff(rec, Unknown, Cancelled, key, now);
    hide KeyUsed, AppendPlan;
    var open := {StepRunning, StepCancelRequested, StepCompensating, StepUnknown};
    assert forall id :: id in StepsWhere(rec.steps, open) <==> id in rec.steps && rec.steps[id] in open;
    if StepsWhere(rec.steps, open) != {} {
      var id :| id in StepsWhere(rec.steps, open);
    }
  }

  // ----- the resolution -----

  /** Who may decide, and on what evidence. */
  predicate MayDecide(rec: PlanRec, principal: Principal, decision: ResolutionDecision, evidence: Option<Digest>) {
    && principal.role == Administrator && principal.tenant == rec.spec.tenant
    && (evidence.Some? ==> IsSha256(evidence.value))
    && (decision == Resume ==> evidence.Some?)
  }

  /** The task is queued again, or cancelled with the plan. */
  predicate TaskResolved(task: TaskRow, t: TaskRow, decision: ResolutionDecision, now: int) {
    if decision == Cancel
    then t == task.(status := TCancelled, cancelRequested := true, completedAt := Some(now),
                    leaseUntil := None, leaseToken := None, planStep := None)
    else t == task.(status := TQueued, cancelRequested := false, completedAt := None,
                    leaseUntil := None, leaseToken := None, planStep := None)
  }

  lemma AlwaysLoadable(rec: PlanRec, tenant: TenantId)
    requires RecOk(rec)
    ensures Loadable(rec, tenant) <==> rec.spec.tenant == tenant
  {
    SameShapes(rec);
  }

  /** A resolution under a fresh key of an unknown governed plan goes through exactly when an Administrator
      of the tenant decides on proper evidence and the rows allow the decision. */
  lemma ResolutionMeans(rec: PlanRec, task: TaskRow, principal: Principal, decision: ResolutionDecision, key: Key,
                        evidence: Option<Digest>, now: int)
    requires RecOk(rec) && rec.state == Unknown && !KeyUsed(rec.log, key)
    ensures var result := Resolve(rec, Some(task), principal, decision, key, evidence, now);
            && (result.Ok? <==> MayDecide(rec, principal, decision, evidence) && MayResolve(rec, decision, key))
            && (result.Ok? ==>
                  var (r, t, outcome) := result.value;
                  && Resolved(rec, r, decision) && r.checkpoints == rec.checkpoints
                       + [Checkpoint(|rec.checkpoints| + 1, None, Resolution,
                                     if decision == Cancel then CheckpointFailed else CheckpointSucceeded, evidence, now)]
                  && t.Some? && TaskResolved(task, t.value, decision, now)
                  && outcome == match decision case Resume => Resumed case Compensate => NowCompensating case Cancel => NowCancelled)
  {
    hide RecOk, Resolve, ResolveWith, KeyUsed, MayResolve, Resolved, MayDecide, AddCheckpoint;
    DecisionMeans(rec, decision, key, now);
    ResolveUnfolds(rec, task, principal, decision, key, evidence, now);
    if ResolveWith(rec, decision, key, now).Ok? {
      ResolvedCheckpoint(rec, ResolveWith(rec, decision, key, now).value, decision, evidence, now);
    }
  }

  lemma DecisionMeans(rec: PlanRec, decision: ResolutionDecision, key: Key, now: int)
    requires RecOk(rec) && rec.state == Unknown && !KeyUsed(rec.log, key)
    ensures ResolveWith(rec, decision, key, now).Ok? <==> MayResolve(rec, decision, key)
    ensures ResolveWith(rec, decision, key, now).Ok? ==>
              && Resolved(rec, ResolveWith(rec, decision, key, now).value, decision)
              && ResolveWith(rec, decision, key, now).value.checkpoints == rec.checkpoints
  {
    assert UniqueIds(rec.spec.steps);
    hide RecOk, ResolveResume, ResolveCompensate, ResolveCancel, KeyUsed, MayResolve, Resolved, UniqueIds;
    match decision {
      case Resume => ResumeMeans(rec, key, now);
      case Compensate => CompensateMeans(rec, key, now);
      case Cancel => CancelMeans(rec, key, now);
    }
  }

  lemma ResolveUnfolds(rec: PlanRec, task: TaskRow, principal: Principal, decision: ResolutionDecision, key: Key,
                       evidence: Option<Digest>, now: int)
    requires RecOk(rec) && rec.state == Unknown && !KeyUsed(rec.log, key)
    ensures var result := Resolve(rec, Some(task), principal, decision, key, evidence, now);
            var written := ResolveWith(rec, decision, key, now);
            && (result.Ok? <==> MayDecide(rec, principal, decision, evidence) && written.Ok?)
            && (result.Ok? ==>
                  && result.value.0 == AddCheckpoint(written.value, None, Resolution, StatusFor(decision), evidence, now)
                  && result.value.1 == Some(ResolvedTask(task, decision, now)) && result.value.2 == OutcomeOf(decision))
  {
    hide RecOk, Resolve, ResolveWith, KeyUsed, MayDecide, AddCheckpoint, ResolvedTask;
    if MayDecide(rec, principal, decision, evidence) {
      ResolveDecides(rec, task, principal, decision, key, evidence, now);
    } else {
      ResolveRefuses(rec, task, principal, decision, key, evidence, now);
    }
  }

  lemma ResolveRefuses(rec: PlanRec, task: TaskRow, principal: Principal, decision: ResolutionDecision, key: Key,
                       evidence: Option<Digest>, now: int)
    requires RecOk(rec) && !KeyUsed(rec.log, key) && !MayDecide(rec, principal, decision, evidence)
    ensures Resolve(rec, Some(task), principal, decision, key, evidence, now).Err?
  {
    AlwaysLoadable(rec, principal.tenant);
    OnlyAdministrators(principal);
    hide RecOk, Loadable, ResolveWith, KeyUsed, KeyUsedFor, IsSha256, InsertCheckpoint, ResolvedTask;
  }

  lemma ResolveDecides(rec: PlanRec, task: TaskRow, principal: Principal, decision: ResolutionDecision, key: Key,
                       evidence: Option<Digest>, now: int)
    requires RecOk(rec) && rec.state == Unknown && !KeyUsed(rec.log, key) && MayDecide(rec, principal, decision, evidence)
    ensures Resolve(rec, Some(task), principal, decision, key, evidence, now) ==
            match ResolveWith(rec, decision, key, now)
            case Err(e) => Err(e)
            case Ok(r) =>
              Ok((AddCheckpoint(r, None, Resolution, StatusFor(decision), evidence, now),
                  Some(ResolvedTask(task, decision, now)), OutcomeOf(decision)))
  {
    AlwaysLoadable(rec, principal.tenant);
    OnlyAdministrators(principal);
    hide RecOk, Loadable, ResolveWith, KeyUsed, KeyUsedFor, IsSha256, AddCheckpoint, ResolvedTask;
  }

  function StatusFor(decision: ResolutionDecision): CheckpointStatus {
    if decision == Cancel then CheckpointFailed else CheckpointSucceeded
  }

  lemma OnlyAdministrators(principal: Principal)
    ensures principal.Allows(ResolvePlanUnknown) <==> principal.role == Administrator
  {
  }

  lemma ResolvedCheckpoint(rec: PlanRec, r: PlanRec, decision: ResolutionDecision, evidence: Option<Digest>, now: int)
    requires Resolved(rec, r, decision) && r.checkpoints == rec.checkpoints && RecOk(rec)
    ensures AddCheckpoint(r, None, Resolution, StatusFor(decision), evidence, now).checkpoints == rec.checkpoints
            + [Checkpoint(|rec.checkpoints| + 1, None, Resolution,
                          if decision == Cancel then CheckpointFailed else CheckpointSucceeded, evidence, now)]
    ensures Resolved(rec, AddCheckpoint(r, None, Resolution, StatusFor(decision), evidence, now), decision)
  {
    NextNumber(rec);
    hide HasEffect, IsAwaited, RecOk;
  }

  /** A key that the log already has repeats a resolution when it led to the same state, and is refused
      otherwise; either way nothing changes, whatever the plan's state is now. */
  lemma RepetitionMeans(rec: PlanRec, task: Option<TaskRow>, principal: Principal, decision: ResolutionDecision, key: Key,
                        evidence: Option<Digest>, now: int)
    requires RecOk(rec) && KeyUsed(rec.log, key) && MayDecide(rec, principal, decision, evidence)
    ensures var state := match decision case Resume => Running case Compensate => Compensating case Cancel => Cancelled;
            Resolve(rec, task, principal, decision, key, evidence, now)
            == if exists i :: 0 <= i < |rec.log| && rec.log[i].key == key && rec.log[i].body.toState == PlanIs(state)
               then Ok((rec, task, AlreadyResolved)) else Err(IdempotencyConflict)
  {
    AlwaysLoadable(rec, principal.tenant);
    hide RecOk, Loadable, KeyUsed, IsSha256;
  }
}
