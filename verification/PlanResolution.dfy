/** Human resolution of an unknown plan, and resumption after a restart. */
module PlanResolution {
  import opened Base
  import opened PlanCore
  import opened TransitionLog
  import opened PlanTransactions
  import opened Journal
  import opened PlanInvariants

  // ----- resolution -----

  /** A resolution readies or compensates steps, and leaves the rest alone. */
  ghost predicate Resolved(rec: PlanRec, r: PlanRec, decision: ResolutionDecision) {
    && Quiet(rec, r) && r.spec == rec.spec && r.state == Target(decision) && r.steps.Keys == rec.steps.Keys
    && (forall id :: id in rec.steps ==> r.steps[id] == rec.steps[id] || r.steps[id] in {StepReady, StepCompensating})
    && (decision == Resume ==> forall id :: id in rec.steps ==> r.steps[id] != StepUnknown)
    && (decision == Cancel ==> r.steps == rec.steps)
  }

  lemma UnknownBatch(rec: PlanRec, ids: seq<StepId>)
    requires ids == Ascending(StepsWhere(rec.steps, {StepUnknown}))
    ensures BatchRule(rec, ids, rec.steps, StepReady)
    ensures forall id :: id in ids ==> id in rec.steps
    ensures forall id :: id in rec.steps && rec.steps[id] == StepUnknown ==> id in ids
  {
  }

  lemma ResumeSteps(rec: PlanRec, key: Key, now: int)
    requires RecOk(rec) && ResolveResume(rec, key, now).Ok?
    ensures Resolved(rec, ResolveResume(rec, key, now).value, Resume)
  {
    hide RecOk, Quiet, MoveAll, AppendPlan, StepsWhere, BatchRule, Ascending, Resolved;
    var ids := Ascending(StepsWhere(rec.steps, {StepUnknown}));
    UnknownBatch(rec, ids);
    QuietStart(rec);
    QuietBatch(rec, rec, ids, rec.steps, StepReady, ByResolution(key), now);
    var r := MoveAll(rec, ids, rec.steps, StepReady, ByResolution(key), now).value;
    assert forall id :: id in rec.steps ==> r.steps[id] != StepUnknown;
    QuietPlan(rec, r, Unknown, Running, key, now);
    ReadiedSteps(rec, r, AppendPlan(r, Unknown, Running, key, now).value);
  }

  lemma ReadiedSteps(rec: PlanRec, mid: PlanRec, r: PlanRec)
    requires Quiet(rec, r) && r == mid.(state := Running, log := r.log) && mid.steps.Keys == rec.steps.Keys
    requires forall id :: id in rec.steps ==> mid.steps[id] == rec.steps[id] || mid.steps[id] == StepReady
    requires forall id :: id in rec.steps ==> mid.steps[id] != StepUnknown
    ensures Resolved(rec, r, Resume)
  {
    hide Journaled, Starts;
  }

  lemma CompensateSteps(rec: PlanRec, key: Key, now: int)
    requires RecOk(rec) && StepsOk(rec.state, rec.steps) && rec.state == Unknown && ResolveCompensate(rec, key, now).Ok?
    ensures Resolved(rec, ResolveCompensate(rec, key, now).value, Compensate)
  {
    hide RecOk, Quiet, MoveAll, AppendPlan, MovingSources, EligibleSources, EligibleTargets, BatchRule, Ascending;
    QuietStart(rec);
    var moving := MovingSources(rec, rec.spec.steps);
    SourcesBatch(rec, moving);
    QuietBatch(rec, rec, moving, rec.steps, StepCompensating, BySource(key), now);
    var r1 := MoveAll(rec, moving, rec.steps, StepCompensating, BySource(key), now).value;
    var waiting := Ascending(set id | id in EligibleTargets(rec) && id in r1.steps && r1.steps[id] in {StepUnknown, StepFailed});
    TargetsBatch(rec, r1, waiting);
    QuietBatch(rec, r1, waiting, r1.steps, StepReady, ByTarget(key), now);
    var r2 := MoveAll(r1, waiting, r1.steps, StepReady, ByTarget(key), now).value;
    QuietPlan(rec, r2, Unknown, Compensating, key, now);
  }

  lemma SourcesBatch(rec: PlanRec, ids: seq<StepId>)
    requires forall id :: id in ids ==> id in rec.steps
    ensures BatchRule(rec, ids, rec.steps, StepCompensating)
  {
  }

  lemma TargetsBatch(rec: PlanRec, r1: PlanRec, ids: seq<StepId>)
    requires StepsOk(rec.state, rec.steps) && rec.state == Unknown && r1.steps.Keys == rec.steps.Keys
    requires forall id :: id in rec.steps ==> r1.steps[id] == rec.steps[id] || r1.steps[id] == StepCompensating
    requires forall id :: id in ids ==> id in r1.steps && r1.steps[id] in {StepUnknown, StepFailed}
    ensures BatchRule(r1, ids, r1.steps, StepReady)
  {
  }

  lemma CancelSteps(rec: PlanRec, key: Key, now: int)
    requires RecOk(rec) && ResolveCancel(rec, key, now).Ok?
    ensures Resolved(rec, ResolveCancel(rec, key, now).value, Cancel)
  {
    hide RecOk, Quiet, AppendPlan;
    QuietStart(rec);
    QuietPlan(rec, rec, Unknown, Cancelled, key, now);
  }

  lemma JointAfterResolution(rec: PlanRec, r: PlanRec, task: TaskRow, decision: ResolutionDecision, now: int)
    requires Joint(rec, Some(task)) && rec.state == Unknown && Resolved(rec, r, decision)
    ensures Joint(r, Some(ResolvedTask(task, decision, now)))
  {
    hide Quiet;
  }

  lemma ResolveWithKeeps(rec: PlanRec, decision: ResolutionDecision, key: Key, now: int)
    requires RecOk(rec) && StepsOk(rec.state, rec.steps) && rec.state == Unknown && ResolveWith(rec, decision, key, now).Ok?
    ensures Resolved(rec, ResolveWith(rec, decision, key, now).value, decision)
  {
    hide RecOk, StepsOk, Resolved, ResolveResume, ResolveCompensate, ResolveCancel;
    match decision {
      case Resume => ResumeSteps(rec, key, now);
      case Compensate => CompensateSteps(rec, key, now);
      case Cancel => CancelSteps(rec, key, now);
    }
  }

  lemma ResolveKeeps(rec: PlanRec, task: Option<TaskRow>, principal: Principal, decision: ResolutionDecision,
                     key: Key, evidence: Option<Digest>, now: int)
    requires RecOk(rec) && Joint(rec, task) && Resolve(rec, task, principal, decision, key, evidence, now).Ok?
    ensures var (r, t, _) := Resolve(rec, task, principal, decision, key, evidence, now).value;
            RecOk(r) && Joint(r, t) && r.spec == rec.spec
  {
    var (c, t, _) := Resolve(rec, task, principal, decision, key, evidence, now).value;
    if !KeyUsed(rec.log, key) {
      ResolveWrites(rec, task, principal, decision, key, evidence, now);
      var r := ResolveWith(rec, decision, key, now).value;
      assert StepsOk(rec.state, rec.steps);
      hide RecOk, Joint, StepsOk, Quiet, ResolveWith, Resolve, ResolvedTask;
      ResolveWithKeeps(rec, decision, key, now);
      var status := if decision == Cancel then CheckpointFailed else CheckpointSucceeded;
      QuietCheckpoint(rec, r, None, Resolution, status, evidence, now);
      QuietDone(rec, c);
      JointAfterResolution(rec, r, task.value, decision, now);
      SameRows(r, c, t);
    }
  }

  lemma SameRows(r: PlanRec, c: PlanRec, task: Option<TaskRow>)
    requires Joint(r, task) && c == r.(checkpoints := c.checkpoints)
    ensures Joint(c, task)
  {
  }

  lemma ResolveWrites(rec: PlanRec, task: Option<TaskRow>, principal: Principal, decision: ResolutionDecision,
                      key: Key, evidence: Option<Digest>, now: int)
    requires !KeyUsed(rec.log, key) && Resolve(rec, task, principal, decision, key, evidence, now).Ok?
    ensures principal.role == Administrator && rec.state == Unknown && task.Some?
    ensures ResolveWith(rec, decision, key, now).Ok?
    ensures var (c, t, _) := Resolve(rec, task, principal, decision, key, evidence, now).value;
            && c == AddCheckpoint(ResolveWith(rec, decision, key, now).value, None, Resolution,
                                  if decision == Cancel then CheckpointFailed else CheckpointSucceeded, evidence, now)
            && t == Some(ResolvedTask(task.value, decision, now))
  {
    hide ResolveWith, Loadable, AddCheckpoint, IsSha256, KeyUsed;
  }

  // ----- resumption -----

  predicate LiveState(state: PlanState) {
    state in {Running, CancelRequested, Compensating}
  }

  /** What the read phase can find in a governed run, on a plan that is not terminal. */
  predicate GovernedView(view: ResumeView) {
    && view.verdict != FoundInconsistent
    && (view.verdict == FoundActive ==>
          !view.state.IsTerminal() && (LiveState(view.state) || view.active != map[]))
  }

  lemma ResumeReadGoverned(rec: PlanRec)
    requires RecOk(rec) && !rec.state.IsTerminal()
    ensures GovernedView(ResumeRead(rec))
  {
    InspectStable(rec);
  }

  function MovedToUnknown(steps: map<StepId, StepState>, ids: seq<StepId>): map<StepId, StepState> {
    map id | id in steps :: if id in ids then StepUnknown else steps[id]
  }

  /** Rows for the active steps, inserted without touching the snapshot, are the journal of the
      snapshot in which those steps are unknown. */
  lemma {:induction false} StepRecoveriesKeep(rec: PlanRec, steps: map<StepId, StepState>, ids: seq<StepId>,
                                              from: map<StepId, StepState>, now: int)
    requires Journaled(rec.(steps := steps)) && Distinct(ids)
    requires forall id :: id in ids ==> id in from && id in steps && steps[id] == from[id] && from[id].IsActive()
    requires InsertStepRecoveries(rec, ids, from, now).Ok?
    ensures var r := InsertStepRecoveries(rec, ids, from, now).value;
            && r == rec.(log := r.log) && Journaled(r.(steps := MovedToUnknown(steps, ids)))
            && (forall id :: Starts(r.log, id) == Starts(rec.log, id))
  {
    if ids == [] {
      assert MovedToUnknown(steps, ids) == steps;
    } else {
      hide Journaled, Starts, InsertStepRecovery, MovedToUnknown, Distinct;
      var n := |ids| - 1;
      var last := ids[n];
      MovedOneMore(steps, ids);
      StepRecoveriesKeep(rec, steps, ids[..n], from, now);
      var r := InsertStepRecoveries(rec, ids[..n], from, now).value;
      StepRecoveryKeeps(r, MovedToUnknown(steps, ids[..n]), last, from[last], now);
    }
  }

  lemma MovedOneMore(steps: map<StepId, StepState>, ids: seq<StepId>)
    requires ids != [] && Distinct(ids) && forall id :: id in ids ==> id in steps
    ensures var n := |ids| - 1;
            && Distinct(ids[..n]) && ids[n] in steps
            && MovedToUnknown(steps, ids[..n])[ids[n] := StepUnknown] == MovedToUnknown(steps, ids)
            && MovedToUnknown(steps, ids[..n])[ids[n]] == steps[ids[n]]
            && ids[n] in MovedToUnknown(steps, ids[..n])
  {
    assert ids == ids[..|ids| - 1] + [ids[|ids| - 1]];
  }

  lemma StepRecoveryKeeps(rec: PlanRec, steps: map<StepId, StepState>, id: StepId, from: StepState, now: int)
    requires Journaled(rec.(steps := steps)) && id in steps && steps[id] == from && from.IsActive()
    requires InsertStepRecovery(rec, id, from, now).Ok?
    ensures var r := InsertStepRecovery(rec, id, from, now).value;
            && r == rec.(log := r.log) && Journaled(r.(steps := steps[id := StepUnknown]))
            && (forall j :: Starts(r.log, j) == Starts(rec.log, j))
  {
    var t := NextTransition(rec, StepEntity, Some(id), StepIs(from), StepIs(StepUnknown),
                            RecoveryStep(id, NextSequence(rec.log)), now);
    InsertKeeps(rec.(steps := steps), t, Reduced(rec.state, steps[id := StepUnknown]));
    forall j ensures Starts(rec.log + [LogRow(t.sequence, t.key, t.eventHash, t)], j) == Starts(rec.log, j) {
      CountAppend(rec.log, LogRow(t.sequence, t.key, t.eventHash, t), j);
    }
  }

  lemma PlanRecoveryKeeps(rec: PlanRec, key: Key, now: int)
    requires Journaled(rec) && LiveState(rec.state)
    requires InsertRow(rec, NextTransition(rec, PlanEntity, None, PlanIs(rec.state), PlanIs(Unknown), key, now)).Ok?
    ensures var r := InsertRow(rec, NextTransition(rec, PlanEntity, None, PlanIs(rec.state), PlanIs(Unknown), key, now)).value;
            && r == rec.(log := r.log) && Journaled(r.(state := Unknown))
            && (forall j :: Starts(r.log, j) == Starts(rec.log, j))
  {
    var t := NextTransition(rec, PlanEntity, None, PlanIs(rec.state), PlanIs(Unknown), key, now);
    InsertKeeps(rec, t, Reduced(Unknown, rec.steps));
    forall j ensures Starts(rec.log + [LogRow(t.sequence, t.key, t.eventHash, t)], j) == Starts(rec.log, j) {
      CountAppend(rec.log, LogRow(t.sequence, t.key, t.eventHash, t), j);
    }
  }

  /** The step insertions look at the log and the specification only. */
  lemma {:induction false} RecoveriesIgnoreState(rec: PlanRec, state: PlanState, ids: seq<StepId>,
                                                 from: map<StepId, StepState>, now: int)
    requires forall id :: id in ids ==> id in from
    requires InsertStepRecoveries(rec, ids, from, now).Ok?
    ensures InsertStepRecoveries(rec.(state := state), ids, from, now).Ok?
    ensures InsertStepRecoveries(rec, ids, from, now).value
         == InsertStepRecoveries(rec.(state := state), ids, from, now).value.(state := rec.state)
  {
    if ids != [] {
      var n := |ids| - 1;
      assert ids == ids[..n] + [ids[n]];
      RecoveriesIgnoreState(rec, state, ids[..n], from, now);
    }
  }

  lemma ActiveAscending(steps: map<StepId, StepState>)
    ensures Distinct(Ascending(ActiveSteps(steps).Keys))
    ensures MovedToUnknown(steps, Ascending(ActiveSteps(steps).Keys)) == Quarantined(steps)
    ensures forall id :: id in Ascending(ActiveSteps(steps).Keys) ==> ActiveAt(steps, id)
  {
    var ids := Ascending(ActiveSteps(steps).Keys);
    hide Ascending;
    assert forall id :: id in ids <==> id in ActiveSteps(steps).Keys;
    ActiveMembers(steps, ids);
  }

  lemma ActiveMembers(steps: map<StepId, StepState>, ids: seq<StepId>)
    requires forall id :: id in ids <==> id in ActiveSteps(steps).Keys
    ensures MovedToUnknown(steps, ids) == Quarantined(steps)
    ensures forall id :: id in ids ==> ActiveAt(steps, id)
  {
    forall id | id in ids ensures ActiveAt(steps, id) {
      assert id in ActiveSteps(steps).Keys;
    }
    forall id | id in steps ensures MovedToUnknown(steps, ids)[id] == Quarantined(steps)[id] {
      assert id in ActiveSteps(steps).Keys <==> steps[id].IsActive();
    }
  }

  predicate ActiveAt(steps: map<StepId, StepState>, id: StepId) {
    id in ActiveSteps(steps) && id in steps && steps[id] == ActiveSteps(steps)[id] && steps[id].IsActive()
  }

  /** The recovery batch of a live plan is a lawful continuation of its log. */
  lemma RecoveryKeeps(rec: PlanRec, now: int)
    requires RecOk(rec) && LiveState(rec.state)
    requires InsertRecovery(rec, rec.state, ActiveSteps(rec.steps), now).Ok?
    ensures Quiet(rec, Quarantine(InsertRecovery(rec, rec.state, ActiveSteps(rec.steps), now).value))
  {
    var active := ActiveSteps(rec.steps);
    var ids := Ascending(active.Keys);
    var key := RecoveryPlan(NextSequence(rec.log));
    assert Journaled(rec) && CheckpointsOk(rec.checkpoints);
    ActiveAscending(rec.steps);
    hide RecOk, Journaled, Starts, InsertRow, InsertStepRecoveries, ActiveSteps, MovedToUnknown, Quarantined, Distinct,
         CheckpointsOk, Ascending, NextTransition;
    PlanRecoveryKeeps(rec, key, now);
    var r1 := InsertRow(rec, NextTransition(rec, PlanEntity, None, PlanIs(rec.state), PlanIs(Unknown), key, now)).value;
    RecoveriesIgnoreState(r1, Unknown, ids, active, now);
    StepRecoveriesKeep(r1.(state := Unknown), rec.steps, ids, active, now);
  }

  lemma RecoverUnknownKeeps(rec: PlanRec, task: Option<TaskRow>, view: ResumeView, now: int)
    requires RecOk(rec) && Joint(rec, task) && GovernedView(view) && view.verdict == FoundActive
    requires RecoverUnknown(rec, view, now).Ok?
    ensures var r := RecoverUnknown(rec, view, now).value;
            && RecOk(r) && Joint(r, task) && r.spec == rec.spec
            && (rec.state != Unknown ==> LiveState(rec.state))
  {
    if rec.state != Unknown {
      WaitingPlansAreInactive(rec, task);
      RecoverUnfolds(rec, view, now);
      hide RecOk, Quiet, InsertRecovery, RecoverUnknown, Joint;
      RecoveryKeeps(rec, now);
      var q := Quarantine(InsertRecovery(rec, rec.state, ActiveSteps(rec.steps), now).value);
      QuietCheckpoint(rec, q, None, Recovery, CheckpointUnknown, Some(rec.spec.digest), now);
      var r := AddCheckpoint(q, None, Recovery, CheckpointUnknown, Some(rec.spec.digest), now);
      QuietDone(rec, r);
      RecoverySteps(rec, now);
      JointAfterQuarantine(rec, r, task);
    }
  }

  lemma RecoverUnfolds(rec: PlanRec, view: ResumeView, now: int)
    requires RecoverUnknown(rec, view, now).Ok? && rec.state != Unknown
    ensures view.state == rec.state && view.active == ActiveSteps(rec.steps)
    ensures InsertRecovery(rec, rec.state, ActiveSteps(rec.steps), now).Ok?
    ensures RecoverUnknown(rec, view, now).value
         == AddCheckpoint(Quarantine(InsertRecovery(rec, rec.state, ActiveSteps(rec.steps), now).value),
                          None, Recovery, CheckpointUnknown, Some(rec.spec.digest), now)
  {
    hide InsertRecovery, AddCheckpoint, Quarantine;
  }

  lemma RecoverySteps(rec: PlanRec, now: int)
    requires InsertRecovery(rec, rec.state, ActiveSteps(rec.steps), now).Ok?
    ensures var r := InsertRecovery(rec, rec.state, ActiveSteps(rec.steps), now).value;
            r == rec.(log := r.log)
  {
    var r1 := InsertRow(rec, NextTransition(rec, PlanEntity, None, PlanIs(rec.state), PlanIs(Unknown),
                                            RecoveryPlan(NextSequence(rec.log)), now)).value;
    RecoveriesOnlyLog(r1, Ascending(ActiveSteps(rec.steps).Keys), ActiveSteps(rec.steps), now);
  }

  lemma {:induction false} RecoveriesOnlyLog(rec: PlanRec, ids: seq<StepId>, from: map<StepId, StepState>, now: int)
    requires forall id :: id in ids ==> id in from
    requires InsertStepRecoveries(rec, ids, from, now).Ok?
    ensures var r := InsertStepRecoveries(rec, ids, from, now).value;
            r == rec.(log := r.log)
  {
    if ids != [] {
      var n := |ids| - 1;
      assert ids == ids[..n] + [ids[n]];
      RecoveriesOnlyLog(rec, ids[..n], from, now);
    }
  }

  lemma WaitingPlansAreInactive(rec: PlanRec, task: Option<TaskRow>)
    requires Joint(rec, task) && !rec.state.IsTerminal() && rec.state != Unknown
    ensures LiveState(rec.state) || ActiveSteps(rec.steps) == map[]
  {
  }

  lemma JointAfterQuarantine(rec: PlanRec, r: PlanRec, task: Option<TaskRow>)
    requires Joint(rec, task) && LiveState(rec.state) && r.spec == rec.spec
    requires r.state == Unknown && r.steps == Quarantined(rec.steps)
    ensures Joint(r, task)
  {
  }

  /** Whatever happened between the two phases, the write phase keeps log and snapshot in agreement. */
  lemma ResumeWriteKeeps(rec: PlanRec, task: Option<TaskRow>, view: ResumeView, now: int)
    requires RecOk(rec) && Joint(rec, task) && GovernedView(view) && ResumeWrite(rec, view, now).Ok?
    ensures var r := ResumeWrite(rec, view, now).value;
            RecOk(r) && Joint(r, task) && r.spec == rec.spec
  {
    hide RecOk, Joint, RecoverUnknown;
    if view.verdict == FoundActive {
      RecoverUnknownKeeps(rec, task, view, now);
    }
  }

  // ----- resumption from any store contents -----

  lemma QuarantineSettles(rec: PlanRec)
    requires rec.state == Unknown && ActiveSteps(rec.steps) == map[]
    ensures Quarantine(rec) == rec
  {
    assert forall id :: id in rec.steps && rec.steps[id].IsActive() ==> id in ActiveSteps(rec.steps);
    assert Quarantined(rec.steps) == rec.steps;
  }

  /** An unknown plan without active steps and with a recovery checkpoint is a fixed point. */
  lemma SettledStays(rec: PlanRec, tenant: TenantId, now: int)
    requires rec.state == Unknown && ActiveSteps(rec.steps) == map[] && HasRecoveryCheckpoint(rec.checkpoints)
    requires Loadable(rec, tenant)
    ensures ResumeTx(rec, tenant, now) == Ok(rec)
  {
    hide Loadable, Inspect;
    QuarantineSettles(rec);
  }

  lemma QuarantinedIsInactive(steps: map<StepId, StepState>)
    ensures ActiveSteps(Quarantined(steps)) == map[]
  {
  }

  /** Resuming twice is resuming once, from any rows whatever: corrupt chain, diverged snapshot,
      broken checkpoints, events the table forbids. And no resumed plan is left live. */
  lemma ResumeIdempotent(rec: PlanRec, tenant: TenantId, now: int, later: int)
    requires ResumeTx(rec, tenant, now).Ok?
    ensures var r := ResumeTx(rec, tenant, now).value;
            ResumeTx(r, tenant, later) == Ok(r) && !LiveState(r.state)
  {
    var view := ResumeRead(rec);
    var r := ResumeTx(rec, tenant, now).value;
    if view.verdict == FoundInconsistent || (view.verdict == FoundActive && rec.state != Unknown) {
      QuarantineShape(rec, view, now);
      StillLoadable(rec, r, tenant);
      SettledStays(r, tenant, later);
    }
  }

  /** A successful resumption leaves an active step in exactly one case: the plan was unknown already, its
      rows were consistent, and it held an active step — then nothing is written. */
  lemma ResumeLeavesActiveIff(rec: PlanRec, tenant: TenantId, now: int)
    requires ResumeTx(rec, tenant, now).Ok?
    ensures ActiveSteps(ResumeTx(rec, tenant, now).value.steps) != map[]
       <==> rec.state == Unknown && Inspect(rec) == None && ActiveSteps(rec.steps) != map[]
    ensures rec.state == Unknown && Inspect(rec) == None ==> ResumeTx(rec, tenant, now).value == rec
  {
    hide Inspect, InsertRecovery, Loadable;
    var view := ResumeRead(rec);
    if view.verdict == FoundInconsistent || (view.verdict == FoundActive && rec.state != Unknown) {
      QuarantineShape(rec, view, now);
    }
  }

  lemma StillLoadable(rec: PlanRec, r: PlanRec, tenant: TenantId)
    requires Loadable(rec, tenant) && r.spec == rec.spec
    ensures Loadable(r, tenant)
  {
    assert Loaded(rec).(state := r.state) == Loaded(r);
    assert Canonical(Loaded(rec)) == Canonical(Loaded(r));
  }

  lemma QuarantineShape(rec: PlanRec, view: ResumeView, now: int)
    requires view == ResumeRead(rec) && ResumeWrite(rec, view, now).Ok?
    requires view.verdict == FoundInconsistent || (view.verdict == FoundActive && rec.state != Unknown)
    ensures var r := ResumeWrite(rec, view, now).value;
            && r.spec == rec.spec && r.state == Unknown && ActiveSteps(r.steps) == map[]
            && HasRecoveryCheckpoint(r.checkpoints)
  {
    hide Inspect, InsertRecovery;
    QuarantinedIsInactive(rec.steps);
    var r := ResumeWrite(rec, view, now).value;
    if view.verdict == FoundActive {
      RecoverUnfolds(rec, view, now);
      RecoverySteps(rec, now);
    }
    if view.verdict == FoundActive || !HasRecoveryCheckpoint(rec.checkpoints) {
      assert r.checkpoints[|r.checkpoints| - 1].phase == Recovery;
    }
  }

  /** A stale view never overwrites a plan that moved on to another state. */
  lemma StaleViewRejected(rec: PlanRec, view: ResumeView, now: int)
    requires view.verdict == FoundActive && rec.state != Unknown
    requires view.state != rec.state || view.active != ActiveSteps(rec.steps)
    ensures ResumeWrite(rec, view, now).Err?
  {
  }
}
