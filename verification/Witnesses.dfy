/** A run of transactions on a small plan that reaches the records other modules speak of: a step whose
    compensation was interrupted and which the plan then leaves behind. */
module Witnesses {
  import opened Base
  import opened PlanCore
  import opened PlanGraph
  import opened PlanVerification
  import opened TransitionLog
  import opened PlanTransactions
  import opened Journal
  import opened PlanInvariants
  import opened PlanPreservation
  import opened PlanResolution
  import opened Scheduler
  import opened QueueModel
  import opened GovernedRuns
  import opened AdmittedPlans
  import opened Conditions
  import opened RowConditions
  import opened CancelKeys
  import opened ResumeLimits

  // ----- the plan: step 1 compensates step 0 -----

  function Step(id: StepId, compensation: Option<StepId>): PlanStep {
    PlanStep(id, [], ReadOnlyAction("read"), [], [], ReadOnlyRisk, NoApproval, 1, compensation)
  }

  function TwoSteps(): PlanSpec {
    NewPlan(PlanSpec(0, 0, 0, 0, 1, DryRun, ReadOnlyRisk, NoApproval, Budget(1, 0, 1, 0), [Step(0, Some(1)), Step(1, None)],
                     Text(""), Draft, 0), 0)
  }

  function Ref(): PlanRef {
    PlanRef(0, 1, TwoSteps().digest)
  }

  function Queued(attempts: nat): TaskRow {
    TaskRow(0, 0, 0, "key", "fingerprint", Budget(1, 0, 1, 0), [], TQueued, 0, attempts, 1, 0, false, None, None, None, 0,
            None, Some(Ref()), None)
  }

  const CONTEXT := ClaimContext(false, [], None, None)
  const ADMIN := Principal(1, 0, Administrator)

  lemma TwoStepsValid()
    ensures var p := TwoSteps();
            && ValidStructure(p) && DigestOk(p) && p.state == Draft && RequiredApproval(p) == NoApproval && p.mode == DryRun
            && p.steps == [Step(0, Some(1)), Step(1, None)] && Ids(p.steps) == {0, 1}
            && p.planId == 0 && p.taskId == 0 && p.tenant == 0 && p.operator == 0 && p.revision == 1
            && (forall s :: s in p.steps ==> s.preconditions == [] && s.postconditions == [] && s.dependsOn == [])
            && (forall s :: s in p.steps ==> ShapeOk(DEFAULT_LIMITS, p, s))
  {
    hide NewPlan, DigestOk, ValidHeader, ValidStep, Acyclic, RequiredApproval, Ids, ShapeOk;
    var p := TwoSteps();
    DigestHolds();
    Fields(p);
    StepValid(0, Some(1));
    StepValid(1, None);
    TwoIds(p.steps);
    IndependentIsAcyclic(p.steps);
    NothingRequired(p);
    ShapesHold(p);
  }

  lemma DigestHolds()
    ensures DigestOk(TwoSteps())
  {
    var p := TwoSteps();
    assert Canonical(p) == Canonical(p.(digest := Text("")));
  }

  lemma Fields(p: PlanSpec)
    requires p == TwoSteps()
    ensures p.steps == [Step(0, Some(1)), Step(1, None)] && p.state == Draft && p.mode == DryRun
    ensures p.planId == 0 && p.taskId == 0 && p.tenant == 0 && p.operator == 0 && p.revision == 1
    ensures p.risk == ReadOnlyRisk && p.approval == NoApproval && ValidHeader(p)
  {
    hide CalculateDigest;
    var steps := p.steps;
    assert forall s :: s in steps ==> s == steps[0] || s == steps[1];
  }

  lemma StepValid(id: StepId, compensation: Option<StepId>)
    ensures ValidStep(Step(id, compensation)) && Step(id, compensation).RequiredApproval() == NoApproval
  {
    assert IsPlanKey("read");
  }

  lemma TwoIds(steps: seq<PlanStep>)
    requires steps == [Step(0, Some(1)), Step(1, None)]
    ensures Ids(steps) == {0, 1} && UniqueIds(steps) && ReferencesKnown(steps)
  {
    assert steps[0] in steps && steps[1] in steps;
    assert Ids(steps) == {0, 1};
  }

  lemma NothingRequired(p: PlanSpec)
    requires p.steps == [Step(0, Some(1)), Step(1, None)] && p.risk == ReadOnlyRisk && p.approval == NoApproval
    ensures RequiredApproval(p) == NoApproval
  {
    var steps := p.steps;
    assert RequiredOfSteps(steps[2..]) == NoApproval;
    assert steps[1..][1..] == steps[2..];
    assert RequiredOfSteps(steps[1..]) == NoApproval;
  }

  lemma ShapesHold(p: PlanSpec)
    requires p.steps == [Step(0, Some(1)), Step(1, None)]
    ensures forall s :: s in p.steps ==> ShapeOk(DEFAULT_LIMITS, p, s)
  {
  }

  lemma IndependentIsAcyclic(steps: seq<PlanStep>)
    requires Ids(steps) == {0, 1} && forall s :: s in steps ==> s.dependsOn == []
    ensures Acyclic(steps)
  {
    forall i | 0 <= i < 2 ensures DependenciesWithin(steps, [0, 1][i], [0, 1][..i]) {
    }
    OrderedIsAcyclic(steps, [0, 1]);
  }

  // ----- keys in the order in which they are taken -----

  function Order(k: Key): nat {
    match k
    case ClaimPlan(_) => 1
    case ClaimReady(s, _) => if s == 0 then 2 else 9
    case ClaimRunning(s, _) => if s == 0 then 3 else 10
    case RecoveryPlanUnknown(now) => if now <= 1 then 4 else 11
    case RecoveryStepUnknown(s, _) => if s == 0 then 5 else 12
    case SubSource(_, _) => 6
    case Free(text) => if text == "compensate" then 7 else if text == "resume" then 14 else 17
    case SubStep(_, _) => 13
    case CancelPlanRequested => 15
    case CancelStep(_) => 16
    case CancelPlanCompleted => 18
    case RecoveryPlan(_) => 19
    case RecoveryStep(_, _) => 20
    case _ => 0
  }

  ghost predicate KeysBelow(log: seq<LogRow>, n: nat) {
    forall k :: KeyUsed(log, k) ==> Order(k) < n
  }

  lemma PlanBelow(rec: PlanRec, a: PlanState, b: PlanState, key: Key, now: int, n: nat)
    requires rec.state == a && a.CanMoveTo(b) && KeysBelow(rec.log, n) && n <= Order(key)
    ensures AppendPlan(rec, a, b, key, now).Ok?
    ensures var r := AppendPlan(rec, a, b, key, now).value;
            r == rec.(state := b, log := r.log) && KeysBelow(r.log, Order(key) + 1)
  {
    hide Order, AppendPlan, KeyUsed;
    PlanAppendIff(rec, a, b, key, now);
  }

  lemma StepBelow(rec: PlanRec, id: StepId, a: StepState, b: StepState, key: Key, now: int, n: nat)
    requires id in rec.steps && rec.steps[id] == a && a.CanMoveTo(b) && KeysBelow(rec.log, n) && n <= Order(key)
    ensures AppendStep(rec, id, a, b, key, now).Ok?
    ensures var r := AppendStep(rec, id, a, b, key, now).value;
            r == rec.(steps := rec.steps[id := b], log := r.log) && KeysBelow(r.log, Order(key) + 1)
  {
    hide Order, AppendStep, KeyUsed;
    StepAppendIff(rec, id, a, b, key, now);
  }

  // ----- stages -----

  /** The plan's rows and the task at one point of the run. */
  ghost predicate At(rec: PlanRec, task: TaskRow, state: PlanState, a: StepState, c: StepState, n: nat) {
    && rec.spec == TwoSteps() && RecOk(rec) && Joint(rec, Some(task))
    && rec.state == state && rec.steps == map[0 := a, 1 := c] && KeysBelow(rec.log, n)
  }

  lemma AtFacts(rec: PlanRec, task: TaskRow, state: PlanState, a: StepState, c: StepState, n: nat)
    requires At(rec, task, state, a, c, n)
    ensures Unconditional(rec.spec) && rec.attempts.Keys == {0, 1} && rec.spec.steps == [Step(0, Some(1)), Step(1, None)]
    ensures rec.spec.tenant == 0 && rec.spec.taskId == 0 && task.taskId == 0 && task.tenant == 0
    ensures task.plan == Some(PlanRef(rec.spec.planId, rec.spec.revision, rec.spec.digest))
    ensures LoadPlan(rec, 0, task.plan.value) == Ok(Loaded(rec)) && Loadable(rec, 0) && IsSha256(rec.spec.digest)
  {
    TwoStepsValid();
    hide TwoSteps, ValidStructure, DigestOk, RequiredApproval, ShapeOk, KeysBelow, Journaled;
    SameLookups(rec);
    LoadsIff(rec, 0, task.plan.value);
  }

  lemma Admitted() returns (rec: PlanRec)
    ensures At(rec, Queued(0), Approved, StepPending, StepPending, 1)
  {
    TwoStepsValid();
    hide TwoSteps, ValidStructure, DigestOk, RequiredApproval, ShapeOk, RecOk, Joint, Order, KeyUsed, Admit;
    var saved := FreshRec(TwoSteps());
    FreshOk(TwoSteps());
    LimitsMean(saved.spec);
    PlanDemand(saved.spec);
    hide WithinLimits, PlanNeedsSomebody, IsAdmitted;
    AdmittedIff(saved, Principal(0, 0, Operator), 0, Ref(), 0);
    AdmitKeeps(saved, Principal(0, 0, Operator), 0, Ref(), 0);
    rec := Admit(saved, Principal(0, 0, Operator), 0, Ref(), 0).value;
    JointQueued(saved, rec, Queued(0));
    AdmissionOrder(rec, Queued(0));
  }

  lemma AdmissionOrder(rec: PlanRec, task: TaskRow)
    requires RecOk(rec) && Joint(rec, Some(task)) && rec.state == Approved
    ensures KeysBelow(rec.log, 1)
  {
    assert Lawful(rec.spec.steps, rec.log) && Replay(Ids(rec.spec.steps), rec.log) == Some(Reduced(rec.state, rec.steps));
    assert ColumnsOk(rec.log) && NotBegun(Reduced(rec.state, rec.steps));
    hide RecOk, Joint, Lawful, Replay;
    NotBegunKeys(rec.spec.steps, rec.log);
    forall k | KeyUsed(rec.log, k) ensures Order(k) < 1 {
      var i :| 0 <= i < |rec.log| && rec.log[i].key == k;
      assert IsAdmissionKey(rec.log[i].body.key);
    }
  }

  // ----- a claim -----

  /** A pending step of an unconditional plan can be started under free keys. */
  lemma StartBelow(rec: PlanRec, id: StepId, now: int, n: nat)
    requires id in rec.steps && id in rec.attempts && rec.steps[id] == StepPending && KeysBelow(rec.log, n)
    requires rec.state in {Approved, Running, Compensating} && n <= (if id == 0 then 1 else 9)
    requires rec.state == Approved ==> id == 0
    ensures StartStep(rec, id, None, now).Ok?
    ensures KeysBelow(StartStep(rec, id, None, now).value.log, if id == 0 then 4 else 11)
  {
    hide AppendPlan, AppendStep, KeysBelow;
    var attempt := rec.attempts[id] + 1;
    var r, m := rec, n;
    if rec.state == Approved {
      PlanBelow(rec, Approved, Running, ClaimPlan(id), now, n);
      r, m := AppendPlan(rec, Approved, Running, ClaimPlan(id), now).value, 2;
    }
    StepBelow(r, id, StepPending, StepReady, ClaimReady(id, attempt), now, m);
    var r2 := AppendStep(r, id, StepPending, StepReady, ClaimReady(id, attempt), now).value;
    StepBelow(r2, id, StepReady, StepRunning, ClaimRunning(id, attempt), now, if id == 0 then 3 else 10);
  }

  /** The step is the least one that waits. */
  lemma Selects(rec: PlanRec, task: TaskRow, state: PlanState, a: StepState, c: StepState, n: nat, id: StepId, now: int)
    requires At(rec, task, state, a, c, n) && state in {Approved, Compensating}
    requires if state == Approved then id == 0 && a == StepPending else id == 1 && a == StepCompensating && c == StepPending
    ensures SelectStep(rec, task, CONTEXT, now) == Some(id)
  {
    hide At, RecOk, Joint, Executable, Unconditional, LoadPlan, Loadable, StepReadyContext, TwoSteps, KeysBelow, StepsOk,
         PlanTransactions.Claimable, ClaimableIds, CompensationTargets;
    AtFacts(rec, task, state, a, c, n);
    AtUnfolds(rec, task, state, a, c, n);
    var s := if id == 0 then Step(0, Some(1)) else Step(1, None);
    var steps := rec.spec.steps;
    assert steps[0] in steps && steps[1] in steps;
    StepReadyExecutable(rec, task, CONTEXT, s, now);
    if id == 1 {
      FirstIsWanted(rec);
      NotWaiting(rec, task, now);
    }
    CanClaim(rec, task, s, now);
    LeastOfTwo(rec, task, s, now);
  }

  lemma FirstIsWanted(rec: PlanRec)
    requires rec.spec.steps == [Step(0, Some(1)), Step(1, None)] && 0 in rec.steps && rec.steps[0] == StepCompensating
    ensures 1 in CompensationTargets(rec)
  {
    assert rec.spec.steps[0] in rec.spec.steps && rec.spec.steps[0].compensation.value == 1;
  }

  lemma NotWaiting(rec: PlanRec, task: TaskRow, now: int)
    requires 0 in rec.steps && rec.steps[0] == StepCompensating
    ensures !PlanTransactions.Claimable(rec, task, CONTEXT, Step(0, Some(1)), now)
  {
    hide Executable, CompensationTargets;
  }

  lemma CanClaim(rec: PlanRec, task: TaskRow, s: PlanStep, now: int)
    requires s.id in rec.steps && rec.steps[s.id] == StepPending && s.dependsOn == []
    requires rec.state == Compensating ==> s.id in CompensationTargets(rec)
    requires Executable(DEFAULT_LIMITS, Loaded(rec), StepReadyContext(rec, task, CONTEXT, s.id, now))
    ensures PlanTransactions.Claimable(rec, task, CONTEXT, s, now)
  {
    hide Executable, CompensationTargets, StepReadyContext;
  }

  lemma LeastOfTwo(rec: PlanRec, task: TaskRow, s: PlanStep, now: int)
    requires rec.spec.steps == [Step(0, Some(1)), Step(1, None)] && s in rec.spec.steps
    requires PlanTransactions.Claimable(rec, task, CONTEXT, s, now)
    requires s.id == 1 ==> !PlanTransactions.Claimable(rec, task, CONTEXT, Step(0, Some(1)), now)
    ensures SelectStep(rec, task, CONTEXT, now) == Some(s.id)
  {
    hide PlanTransactions.Claimable;
    var ids := ClaimableIds(rec, task, CONTEXT, now);
    assert s.id in ids;
    assert forall o :: o in rec.spec.steps ==> o == Step(0, Some(1)) || o == Step(1, None);
    assert s.id == 1 ==> 0 !in ids;
  }

  lemma Claims(rec: PlanRec, task: TaskRow, state: PlanState, a: StepState, c: StepState, n: nat, id: StepId, now: int)
    returns (r: PlanRec, t: TaskRow)
    requires At(rec, task, state, a, c, n) && task.status == TQueued && state in {Approved, Compensating}
    requires if state == Approved then id == 0 && a == c == StepPending && n == 1
             else id == 1 && a == StepCompensating && c == StepPending && n <= 9
    ensures PrepareClaim(rec, task, Ref(), CONTEXT, now) == Ok(Some((r, id)))
    ensures t == Leased(task, Some(id), 0, 0) && t.status == TRunning && t.planStep == Some(id)
    ensures if state == Approved then At(r, t, Running, StepRunning, StepPending, 4)
            else At(r, t, Compensating, StepCompensating, StepRunning, 11)
  {
    hide At, RecOk, Joint, SelectStep, StartStep, PrepareClaim, TwoSteps, Unconditional, KeysBelow, LoadPlan, Loadable, StepsOk, IsSha256;
    Selects(rec, task, state, a, c, n, id, now);
    AtFacts(rec, task, state, a, c, n);
    AtUnfolds(rec, task, state, a, c, n);
    StartBelow(rec, id, now, n);
    ClaimSucceeds(rec, task, task.plan.value, CONTEXT, now, id);
    assert Ref() == task.plan.value by { RefIs(rec); }
    r := StartStep(rec, id, None, now).value;
    t := Leased(task, Some(id), 0, 0);
    ClaimKeeps(rec, task, Ref(), CONTEXT, now, 0, 0);
    Starts1(rec, id, now);
    AtFolds(r, t, if state == Approved then Running else Compensating, if id == 0 then StepRunning else a,
            if id == 1 then StepRunning else c, if id == 0 then 4 else 11);
  }

  lemma RefIs(rec: PlanRec)
    requires rec.spec == TwoSteps()
    ensures Ref() == PlanRef(rec.spec.planId, rec.spec.revision, rec.spec.digest)
  {
    TwoStepsValid();
    hide TwoSteps;
  }

  lemma Starts1(rec: PlanRec, id: StepId, now: int)
    requires StartStep(rec, id, None, now).Ok?
    ensures var r := StartStep(rec, id, None, now).value;
            && r.spec == rec.spec && r.state == StartingState(rec.state) && id in rec.steps
            && r.steps == rec.steps[id := StepRunning]
  {
    hide KeyUsed, NextTransition;
  }

  lemma AtUnfolds(rec: PlanRec, task: TaskRow, state: PlanState, a: StepState, c: StepState, n: nat)
    requires At(rec, task, state, a, c, n)
    ensures rec.spec == TwoSteps() && RecOk(rec) && Joint(rec, Some(task))
    ensures rec.state == state && rec.steps == map[0 := a, 1 := c] && KeysBelow(rec.log, n)
  {
    hide TwoSteps, RecOk, Joint, KeysBelow;
  }

  lemma AtFolds(rec: PlanRec, task: TaskRow, state: PlanState, a: StepState, c: StepState, n: nat)
    requires rec.spec == TwoSteps() && RecOk(rec) && Joint(rec, Some(task))
    requires rec.state == state && rec.steps == map[0 := a, 1 := c] && KeysBelow(rec.log, n)
    ensures At(rec, task, state, a, c, n)
  {
    hide TwoSteps, RecOk, Joint, KeysBelow;
  }

  // ----- an expired lease -----

  lemma MarkBelow(rec: PlanRec, id: StepId, now: int, n: nat)
    requires rec.state in {Running, Compensating} && id in rec.steps && rec.steps[id] == StepRunning && KeysBelow(rec.log, n)
    requires if now <= 1 then id == 0 && n <= 4 else id == 1 && n <= 11
    ensures MarkUnknown(rec, Some(id), None, now).Ok?
    ensures var r := MarkUnknown(rec, Some(id), None, now).value;
            && r.spec == rec.spec && r.state == Unknown && r.steps == rec.steps[id := StepUnknown]
            && KeysBelow(r.log, if now <= 1 then 6 else 13)
  {
    hide AppendPlan, AppendStep, KeysBelow;
    PlanBelow(rec, rec.state, Unknown, RecoveryPlanUnknown(now), now, n);
    var r1 := AppendPlan(rec, rec.state, Unknown, RecoveryPlanUnknown(now), now).value;
    StepBelow(r1, id, StepRunning, StepUnknown, RecoveryStepUnknown(id, now), now, if now <= 1 then 5 else 12);
  }

  lemma Expires(rec: PlanRec, task: TaskRow, state: PlanState, a: StepState, c: StepState, n: nat, id: StepId, now: int)
    returns (r: PlanRec, t: TaskRow)
    requires At(rec, task, state, a, c, n) && task.status == TRunning && task.planStep == Some(id)
    requires state in {Running, Compensating} && (if id == 0 then a else c) == StepRunning
    requires if now <= 1 then id == 0 && n <= 4 else id == 1 && n <= 11
    ensures RecoverExpired(rec, task, now) == Ok((r, t))
    ensures At(r, t, Unknown, if id == 0 then StepUnknown else a, if id == 1 then StepUnknown else c, if now <= 1 then 6 else 13)
  {
    hide At, RecOk, Joint, MarkUnknown, TwoSteps, Unconditional, KeysBelow, LoadPlan, Loadable, IsSha256;
    AtFacts(rec, task, state, a, c, n);
    AtUnfolds(rec, task, state, a, c, n);
    MarkBelow(rec, id, now, n);
    RecoverExpiredKeeps(rec, task, now);
    r, t := RecoverExpired(rec, task, now).value.0, RecoverExpired(rec, task, now).value.1;
    AtFolds(r, t, Unknown, if id == 0 then StepUnknown else a, if id == 1 then StepUnknown else c, if now <= 1 then 6 else 13);
  }

  // ----- resolutions -----

  lemma CompensateBelow(rec: PlanRec, now: int, n: nat)
    requires rec.spec.steps == [Step(0, Some(1)), Step(1, None)] && rec.state == Unknown
    requires rec.steps == map[0 := StepUnknown, 1 := StepPending] && KeysBelow(rec.log, n) && n <= 6
    ensures ResolveCompensate(rec, Free("compensate"), now).Ok?
    ensures var r := ResolveCompensate(rec, Free("compensate"), now).value;
            && r.spec == rec.spec && r.state == Compensating
            && r.steps == map[0 := StepCompensating, 1 := StepPending] && KeysBelow(r.log, 8)
  {
    hide AppendPlan, AppendStep, KeysBelow, Order, MoveAll, EligibleSources, EligibleTargets, MovingSources, Ascending;
    var key := Free("compensate");
    OneSource(rec);
    MovingIsFirst(rec, rec.spec.steps);
    OneMove(rec, 0, rec.steps, StepCompensating, BySource(key), now);
    assert Order(SourceKey(key, 0)) == 6 && Order(key) == 7 by { OrderOfResolutions(); }
    StepBelow(rec, 0, StepUnknown, StepCompensating, SourceKey(key, 0), now, n);
    var r1 := AppendStep(rec, 0, StepUnknown, StepCompensating, SourceKey(key, 0), now).value;
    assert (set id | id in EligibleTargets(rec) && id in r1.steps && r1.steps[id] in {StepUnknown, StepFailed}) == {} by {
      OneSource(rec);
    }
    OnlyOne(0);
    OneMove(r1, 0, r1.steps, StepReady, ByTarget(key), now);
    PlanBelow(r1, Unknown, Compensating, key, now, 7);
  }

  lemma OneSource(rec: PlanRec)
    requires rec.spec.steps == [Step(0, Some(1)), Step(1, None)] && rec.steps == map[0 := StepUnknown, 1 := StepPending]
    ensures EligibleSources(rec) == {0} && EligibleTargets(rec) == {1}
  {
    var steps := rec.spec.steps;
    assert steps[0] in steps && steps[1] in steps;
    assert EligibleSources(rec) == {0};
    hide EligibleSources;
    assert 1 in EligibleTargets(rec);
  }

  lemma OrderOfResolutions()
    ensures Order(SourceKey(Free("compensate"), 0)) == 6 && Order(Free("compensate")) == 7
    ensures Order(StepKey(Free("resume"), 1)) == 13 && Order(Free("resume")) == 14
    ensures Order(StepKey(Free("cancel"), 1)) == 16 && Order(Free("cancel")) == 17
  {
    assert |"compensate"| == 10 && |"compensation"| == 12;
    assert |"resume"| == 6 && |"cancel"| == 6 && "resume"[0] != "cancel"[0];
  }

  lemma MovingIsFirst(rec: PlanRec, steps: seq<PlanStep>)
    requires steps == [Step(0, Some(1)), Step(1, None)] && EligibleSources(rec) == {0} && rec.steps[0] == StepUnknown
    ensures MovingSources(rec, steps) == [0]
  {
    hide EligibleSources;
    assert steps[..1] == [Step(0, Some(1))] && steps[..1][..0] == [];
    assert MovingSources(rec, []) == [];
    assert MovingSources(rec, steps[..1]) == [0];
  }

  lemma OneMove(rec: PlanRec, id: StepId, from: map<StepId, StepState>, to: StepState, kind: MoveKind, now: int)
    requires id in from
    ensures forall x :: x in [id] ==> x in from
    ensures MoveAll(rec, [id], from, to, kind, now) == AppendStep(rec, id, from[id], to, KeyFor(kind, id), now)
    ensures MoveAll(rec, [], from, to, kind, now) == Ok(rec)
  {
    hide AppendStep, KeyFor;
    assert [id][..0] == [];
    assert MoveAll(rec, [], from, to, kind, now) == Ok(rec);
  }

  lemma ResumeBelow(rec: PlanRec, key: Key, now: int, n: nat)
    requires rec.state == Unknown && rec.steps == map[0 := StepCompensating, 1 := StepUnknown]
    requires KeysBelow(rec.log, n) && n <= 13 && key in {Free("resume"), Free("cancel")}
    ensures ResolveResume(rec, key, now).Ok?
    ensures var r := ResolveResume(rec, key, now).value;
            && r.spec == rec.spec && r.state == Running && r.steps == map[0 := StepCompensating, 1 := StepReady]
            && KeysBelow(r.log, if key == Free("resume") then 15 else 18)
  {
    hide AppendPlan, AppendStep, KeysBelow, Order;
    OrderOfResolutions();
    assert StepsWhere(rec.steps, {StepUnknown}) == {1};
    hide StepsWhere, Ascending, MoveAll;
    OnlyOne(1);
    OneMove(rec, 1, rec.steps, StepReady, ByResolution(key), now);
    StepBelow(rec, 1, StepUnknown, StepReady, StepKey(key, 1), now, n);
    var r1 := AppendStep(rec, 1, StepUnknown, StepReady, StepKey(key, 1), now).value;
    PlanBelow(r1, Unknown, Running, key, now, Order(StepKey(key, 1)) + 1);
  }

  lemma OnlyOne(id: nat)
    ensures Ascending({id}) == [id] && Ascending({}) == []
  {
    var r := Ascending({id});
    assert |r| == 1 && r[0] in r;
  }

  lemma Resolves(rec: PlanRec, task: TaskRow, a: StepState, c: StepState, n: nat, decision: ResolutionDecision, key: Key, now: int)
    returns (r: PlanRec, t: TaskRow)
    requires At(rec, task, Unknown, a, c, n) && decision != Cancel
    requires if decision == Compensate then a == StepUnknown && c == StepPending && n <= 6 && key == Free("compensate")
             else a == StepCompensating && c == StepUnknown && n <= 13 && key in {Free("resume"), Free("cancel")}
    ensures Resolve(rec, Some(task), ADMIN, decision, key, Some(rec.spec.digest), now) == Ok((r, Some(t), OutcomeOf(decision)))
    ensures t == ResolvedTask(task, decision, now) && t.status == TQueued
    ensures if decision == Compensate then At(r, t, Compensating, StepCompensating, StepPending, 8)
            else At(r, t, Running, StepCompensating, StepReady, if key == Free("resume") then 15 else 18)
    ensures decision == Resume ==> ResolveResume(rec, key, now).Ok? && r.log == ResolveResume(rec, key, now).value.log
  {
    hide At, RecOk, Joint, TwoSteps, Unconditional, KeysBelow, LoadPlan, Loadable, ResolveResume, ResolveCompensate, KeyUsed,
         IsSha256, StepsOk;
    AtFacts(rec, task, Unknown, a, c, n);
    AtUnfolds(rec, task, Unknown, a, c, n);
    KeyIsFree(rec, key, n);
    if decision == Compensate {
      CompensateBelow(rec, now, n);
    } else {
      ResumeBelow(rec, key, now, n);
    }
    var out := Resolve(rec, Some(task), ADMIN, decision, key, Some(rec.spec.digest), now);
    ResolveKeeps(rec, Some(task), ADMIN, decision, key, Some(rec.spec.digest), now);
    r, t := out.value.0, out.value.1.value;
    if decision == Compensate {
      AtFolds(r, t, Compensating, StepCompensating, StepPending, 8);
    } else {
      AtFolds(r, t, Running, StepCompensating, StepReady, if key == Free("resume") then 15 else 18);
    }
  }

  lemma KeyIsFree(rec: PlanRec, key: Key, n: nat)
    requires KeysBelow(rec.log, n)
    requires (key == Free("compensate") && n <= 6) || (key in {Free("resume"), Free("cancel")} && n <= 13)
    ensures !KeyUsed(rec.log, key)
  {
    OrderOfResolutions();
    hide Order;
  }

  // ----- the run -----

  /** Step 0 runs and its lease expires; an Administrator chooses compensation; the compensating step
      runs and its lease expires too. The plan is unknown, its rows are consistent, and step 0 is still
      compensating. */
  lemma InterruptedCompensation() returns (rec: PlanRec, task: TaskRow)
    ensures At(rec, task, Unknown, StepCompensating, StepUnknown, 13)
  {
    hide At, PrepareClaim, RecoverExpired, Resolve;
    var r1 := Admitted();
    var r2, t2 := Claims(r1, Queued(0), Approved, StepPending, StepPending, 1, 0, 0);
    var r3, t3 := Expires(r2, t2, Running, StepRunning, StepPending, 4, 0, 1);
    var r4, t4 := Resolves(r3, t3, StepUnknown, StepPending, 6, Compensate, Free("compensate"), 1);
    var r5, t5 := Claims(r4, t4, Compensating, StepCompensating, StepPending, 8, 1, 1);
    rec, task := Expires(r5, t5, Compensating, StepCompensating, StepRunning, 11, 1, 2);
  }

  /** Resuming it reports a recovery and writes nothing, so the active step stays. */
  lemma ResumeWritesNothing(now: int) returns (rec: PlanRec, task: TaskRow)
    ensures RecOk(rec) && Joint(rec, Some(task)) && ResumeRead(rec).verdict == FoundActive
    ensures ResumeTx(rec, rec.spec.tenant, now) == Ok(rec) && ActiveSteps(rec.steps) != map[]
  {
    hide At, RecOk, Joint, TwoSteps, Unconditional, KeysBelow, LoadPlan, Loadable, Inspect, IsSha256;
    rec, task := InterruptedCompensation();
    AtFacts(rec, task, Unknown, StepCompensating, StepUnknown, 13);
    AtUnfolds(rec, task, Unknown, StepCompensating, StepUnknown, 13);
    InspectStable(rec);
    assert 0 in ActiveSteps(rec.steps);
  }

  /** An Administrator resumes the plan and the queued task is cancelled: the plan has ended with an
      active step. */
  lemma EndedWithActiveStep() returns (rec: PlanRec, task: TaskRow)
    ensures RecOk(rec) && Joint(rec, Some(task)) && rec.state == Cancelled && rec.spec.tenant == 0
    ensures ActiveSteps(rec.steps) == map[0 := StepCompensating] && KeysBelow(rec.log, 19)
  {
    hide At, RecOk, Joint, TwoSteps, Unconditional, KeysBelow, LoadPlan, Loadable, Resolve, ResolveResume, IsSha256, StepsOk,
         ActiveSteps;
    var r6, t6 := InterruptedCompensation();
    var r7, t7 := Resolves(r6, t6, StepCompensating, StepUnknown, 13, Resume, Free("resume"), 2);
    rec, task := CancelsResumed(r7, t7);
  }

  lemma CancelsResumed(r7: PlanRec, t7: TaskRow) returns (rec: PlanRec, task: TaskRow)
    requires At(r7, t7, Running, StepCompensating, StepReady, 15) && t7.status == TQueued
    ensures RecOk(rec) && Joint(rec, Some(task)) && rec.state == Cancelled && rec.spec.tenant == 0
    ensures ActiveSteps(rec.steps) == map[0 := StepCompensating] && KeysBelow(rec.log, 19)
  {
    hide At, RecOk, Joint, TwoSteps, Unconditional, KeysBelow, LoadPlan, Loadable, CancelKeysFree, KeyUsed, CancelPlanned,
         IsSha256, StepsOk, WaitingSteps, IsCancelled, ActiveSteps, CancelledTask;
    AtFacts(r7, t7, Running, StepCompensating, StepReady, 15);
    AtUnfolds(r7, t7, Running, StepCompensating, StepReady, 15);
    OneWaits(r7);
    CancelIsFree(r7);
    CancelSucceedsIff(r7, t7, 3);
    CancelKeeps(r7, t7, 3);
    rec, task := CancelPlanned(r7, t7, 3).value, CancelledTask(t7, 3);
    CancelLeaves(r7, rec);
    CancelBelow(r7, t7, 3);
  }

  lemma CancelLeaves(rec: PlanRec, r: PlanRec)
    requires IsCancelled(rec, r) && rec.state == Running && WaitingSteps(rec) == {1}
    requires rec.steps == map[0 := StepCompensating, 1 := StepReady]
    ensures r.state == Cancelled && r.spec == rec.spec && ActiveSteps(r.steps) == map[0 := StepCompensating]
  {
    hide WaitingSteps;
  }

  lemma OneWaits(rec: PlanRec)
    requires rec.steps == map[0 := StepCompensating, 1 := StepReady]
    ensures WaitingSteps(rec) == {1}
  {
  }

  lemma CancelIsFree(rec: PlanRec)
    requires KeysBelow(rec.log, 15)
    ensures CancelKeysFree(rec)
  {
    hide KeyUsed, StepsWhere;
    assert Order(CancelPlanRequested) == 15 && Order(CancelPlanCompleted) == 18;
    assert forall id :: Order(CancelStep(id)) == 16;
  }

  lemma CancelBelow(rec: PlanRec, task: TaskRow, now: int)
    requires rec.state == Running && task.status == TQueued && CancelPlanned(rec, task, now).Ok? && KeysBelow(rec.log, 15)
    requires WaitingSteps(rec) == {1}
    ensures KeysBelow(CancelPlanned(rec, task, now).value.log, 19)
  {
    hide KeyUsed, AppendPlan, CancelWaiting, LoadPlan, StepsWhere;
    PlanAppendIff(rec, Running, CancelRequested, CancelPlanRequested, now);
    var r1 := AppendPlan(rec, Running, CancelRequested, CancelPlanRequested, now).value;
    CancelWaitingIff(r1, now);
    var r2 := CancelWaiting(r1, now).value;
    PlanAppendIff(r2, CancelRequested, Cancelled, CancelPlanCompleted, now);
    assert CancelPlanned(rec, task, now) == CancelQueued(rec, now);
    assert CancelQueued(rec, now).value == AppendPlan(r2, CancelRequested, Cancelled, CancelPlanCompleted, now).value;
  }

  /** Resuming that plan goes through, and inspection then reports it. */
  lemma ResumeDiverges(now: int) returns (rec: PlanRec, task: TaskRow)
    ensures RecOk(rec) && Joint(rec, Some(task)) && rec.state.IsTerminal() && Inspect(rec) == None
    ensures ResumeWrite(rec, ResumeRead(rec), now).Ok? && Inspect(ResumeWrite(rec, ResumeRead(rec), now).value) != None
  {
    rec, task := EndedWithActiveStep();
    hide RecOk, Joint, Inspect, KeysBelow, ResumeWrite;
    InspectStable(rec);
    RecoveryGoesThrough(rec, now);
    assert 0 in ActiveSteps(rec.steps);
    ResumeAgreesIff(rec, Some(task), now);
  }

  lemma RecoveryGoesThrough(rec: PlanRec, now: int)
    requires rec.state == Cancelled && Inspect(rec) == None && KeysBelow(rec.log, 19)
    requires ActiveSteps(rec.steps) == map[0 := StepCompensating]
    ensures ResumeWrite(rec, ResumeRead(rec), now).Ok?
  {
    hide Inspect, ActiveSteps, KeyUsed, InsertRow, InsertStepRecoveries, Ascending, KeysBelow;
    var active := ActiveSteps(rec.steps);
    assert active.Keys == {0};
    OnlyOne(0);
    var t := NextTransition(rec, PlanEntity, None, PlanIs(Cancelled), PlanIs(Unknown), RecoveryPlan(NextSequence(rec.log)), now);
    RowBelow(rec, t, 19);
    var r1 := InsertRow(rec, t).value;
    assert InsertStepRecoveries(r1, [0], active, now).Ok? by { OneRecovery(r1, active, now); }
    assert InsertRecovery(rec, Cancelled, active, now).Ok?;
    assert ResumeRead(rec) == ResumeView(FoundActive, Cancelled, active);
  }

  lemma RowBelow(rec: PlanRec, t: Transition, n: nat)
    requires KeysBelow(rec.log, n) && n <= Order(t.key)
    ensures InsertRow(rec, t).Ok? && KeysBelow(InsertRow(rec, t).value.log, Order(t.key) + 1)
  {
    hide Order;
    assert !KeyUsed(rec.log, t.key);
    LastKey(rec.log, InsertRow(rec, t).value.log, t.key);
    hide KeyUsed;
  }

  lemma OneRecovery(rec: PlanRec, active: map<StepId, StepState>, now: int)
    requires active == map[0 := StepCompensating] && KeysBelow(rec.log, 20)
    ensures InsertStepRecoveries(rec, [0], active, now).Ok?
  {
    var t := NextTransition(rec, StepEntity, Some(0), StepIs(StepCompensating), StepIs(StepUnknown),
                            RecoveryStep(0, NextSequence(rec.log)), now);
    RowBelow(rec, t, 20);
    hide InsertRow, NextTransition, KeysBelow;
    assert [0][..0] == [];
    assert InsertStepRecoveries(rec, [], active, now) == Ok(rec);
  }

  /** Had the Administrator resumed it under the key "cancel", the queued task could not be cancelled. */
  lemma CancelBlocked(now: int) returns (rec: PlanRec, task: TaskRow)
    ensures RecOk(rec) && Joint(rec, Some(task)) && rec.state == Running && task.status == TQueued
    ensures LoadPlan(rec, task.tenant, task.plan.value).Ok? && !KeyUsed(rec.log, CancelPlanRequested)
    ensures CancelPlanned(rec, task, now) == Err(UniqueViolation)
  {
    hide At, RecOk, Joint, TwoSteps, Unconditional, LoadPlan, Loadable, Resolve, KeyUsed, CancelPlanned, ResolveResume, KeysBelow,
         IsSha256, StepsOk, CancelKeysFree;
    var r6, t6 := InterruptedCompensation();
    AtUnfolds(r6, t6, Unknown, StepCompensating, StepUnknown, 13);
    var r7, t7 := Resolves(r6, t6, StepCompensating, StepUnknown, 13, Resume, Free("cancel"), 2);
    AtFacts(r7, t7, Running, StepCompensating, StepReady, 18);
    AtUnfolds(r7, t7, Running, StepCompensating, StepReady, 18);
    ResumeTakesCancelKey(r6, 1, 2, t7, now);
    OnlyLogged(r7, ResolveResume(r6, Free("cancel"), 2).value, t7, now);
    RequestIsFree(r6, 2);
    rec, task := r7, t7;
  }

  /** Cancelling a running plan's queued task looks at the rows through the log and the waiting steps. */
  lemma OnlyLogged(r: PlanRec, m: PlanRec, task: TaskRow, now: int)
    requires task.plan.Some? && LoadPlan(r, task.tenant, task.plan.value).Ok? && task.status == TQueued && r.state == Running
    requires r.log == m.log && 1 in r.steps && r.steps[1] == StepReady && KeyUsed(m.log, CancelStep(1))
    ensures CancelPlanned(r, task, now) == Err(UniqueViolation)
  {
    hide LoadPlan, KeyUsed, CancelPlanned;
    assert 1 in WaitingSteps(r);
    CancelSucceedsIff(r, task, now);
  }

  lemma RequestIsFree(rec: PlanRec, now: int)
    requires ResolveResume(rec, Free("cancel"), now).Ok? && KeysBelow(rec.log, 13)
    ensures !KeyUsed(ResolveResume(rec, Free("cancel"), now).value.log, CancelPlanRequested)
  {
    hide KeyUsed, MoveAll, AppendPlan, Ascending, Movable;
    var ids := Ascending(StepsWhere(rec.steps, {StepUnknown}));
    UnknownAreMovable(rec, Free("cancel"), ids);
    MoveAllIff(rec, ids, rec.steps, StepReady, ByResolution(Free("cancel")), now);
    var m := MoveAll(rec, ids, rec.steps, StepReady, ByResolution(Free("cancel")), now).value;
    assert Order(CancelPlanRequested) == 15;
    assert m.state == Unknown by { StateOfAppend(m, now); }
    PlanAppendIff(m, Unknown, Running, Free("cancel"), now);
  }

  lemma StateOfAppend(m: PlanRec, now: int)
    requires AppendPlan(m, Unknown, Running, Free("cancel"), now).Ok?
    ensures m.state == Unknown
  {
  }
}
