/** A plan without conditions or required approvals, whose steps all succeed, runs to success: one claim
    per step, in the least topological order. */
module Scheduler {
  import opened Base
  import opened PlanCore
  import opened PlanVerification
  import opened TransitionLog
  import opened PlanTransactions
  import opened Journal
  import opened PlanInvariants
  import opened PlanPreservation
  import opened Schedule

  /** An admitted plan that nothing but its dependencies holds back. */
  ghost predicate Unconditional(p: PlanSpec) {
    && p.mode == DryRun && RequiredApproval(p) == NoApproval
    && ValidStructure(p) && DigestOk(p) && |p.steps| <= DEFAULT_LIMITS.maxSteps
    && (forall s :: s in p.steps ==> ShapeOk(DEFAULT_LIMITS, p, s))
    && (forall s :: s in p.steps ==> s.preconditions == [] && s.postconditions == [])
  }

  /** Which engine keys the log may already hold: claims of `claimed`, finishes of `finished`, the
      start of the plan if it has started. */
  predicate KeyAllowed(k: Key, claimed: set<StepId>, finished: set<StepId>, started: bool) {
    match k
    case ClaimPlan(_) => started
    case ClaimReady(s, _) => s in claimed
    case ClaimRunning(s, _) => s in claimed
    case FinishSucceeded(s, _) => s in finished
    case FinishPlanSucceeded => false
    case _ => true
  }

  predicate KeysAllowed(log: seq<LogRow>, claimed: set<StepId>, finished: set<StepId>, started: bool) {
    forall i :: 0 <= i < |log| ==> KeyAllowed(log[i].key, claimed, finished, started)
  }

  /** The steps in `done` have succeeded, `running` runs if given, the others wait; attempts agree. */
  predicate StepsAre(rec: PlanRec, done: set<StepId>, running: Option<StepId>) {
    && rec.steps.Keys == Ids(rec.spec.steps) && rec.attempts.Keys == Ids(rec.spec.steps)
    && done <= Ids(rec.spec.steps)
    && forall id :: id in rec.steps ==>
         rec.steps[id] == (if Some(id) == running then StepRunning else if id in done then StepSucceeded else StepPending)
  }

  /** Between two rounds: the task is queued, `done` has succeeded. */
  ghost predicate Waiting(rec: PlanRec, task: TaskRow, done: set<StepId>) {
    && Unconditional(rec.spec) && RecOk(rec) && Joint(rec, Some(task)) && task.status == TQueued
    && rec.state in {Approved, Running} && StepsAre(rec, done, None)
    && KeysAllowed(rec.log, done, done, rec.state == Running)
  }

  /** Within a round: step `id` is leased and running. */
  ghost predicate Busy(rec: PlanRec, task: TaskRow, done: set<StepId>, id: StepId) {
    && Unconditional(rec.spec) && RecOk(rec) && Joint(rec, Some(task)) && task.status == TRunning
    && task.planStep == Some(id) && id in Ids(rec.spec.steps) && id !in done
    && rec.state == Running && StepsAre(rec, done, Some(id))
    && KeysAllowed(rec.log, done + {id}, done, true)
  }

  // ----- nothing blocks -----

  lemma RequiredOfEach(steps: seq<PlanStep>, s: PlanStep)
    requires s in steps && RequiredOfSteps(steps) == NoApproval
    ensures s.RequiredApproval() == NoApproval
  {
    if s != steps[0] {
      RequiredOfEach(steps[1..], s);
    }
  }

  lemma LoadedWellFormed(rec: PlanRec)
    requires Unconditional(rec.spec) && !rec.state.IsTerminal()
    ensures WellFormed(DEFAULT_LIMITS, Loaded(rec)) && RequiredApproval(Loaded(rec)) == NoApproval
    ensures ValidStructure(Loaded(rec)) && DigestOk(Loaded(rec))
  {
    assert Canonical(Loaded(rec)) == Canonical(rec.spec);
    forall s | s in rec.spec.steps ensures ShapeOk(DEFAULT_LIMITS, Loaded(rec), s) {
      assert ShapeOk(DEFAULT_LIMITS, rec.spec, s);
    }
    hide RequiredOfSteps;
  }

  lemma StepReadyExecutable(rec: PlanRec, task: TaskRow, ctx: ClaimContext, s: PlanStep, now: int)
    requires Unconditional(rec.spec) && !rec.state.IsTerminal() && s in rec.spec.steps
    requires forall d :: d in s.dependsOn ==> d in rec.steps && rec.steps[d] == StepSucceeded
    ensures Executable(DEFAULT_LIMITS, Loaded(rec), StepReadyContext(rec, task, ctx, s.id, now))
  {
    LoadedWellFormed(rec);
    RequiredOfEach(rec.spec.steps, s);
    FoundById(rec.spec.steps, s);
    hide WellFormed;
  }

  lemma PostStepExecutable(rec: PlanRec, task: TaskRow, ctx: ClaimContext, s: PlanStep, now: int)
    requires Unconditional(rec.spec) && !rec.state.IsTerminal() && s in rec.spec.steps
    ensures PostStepOk(rec, task, s.id, ctx, now)
  {
    LoadedWellFormed(rec);
    FoundById(rec.spec.steps, s);
    hide WellFormed;
  }

  lemma PreflightPasses(rec: PlanRec, now: int)
    requires Unconditional(rec.spec) && !rec.state.IsTerminal()
    ensures PreflightOk(rec, now)
  {
    LoadedWellFormed(rec);
    hide WellFormed;
  }

  /** The claim can start exactly the steps that are ready in the dependency order. */
  lemma ClaimableAreReady(rec: PlanRec, task: TaskRow, ctx: ClaimContext, now: int, done: set<StepId>)
    requires Waiting(rec, task, done)
    ensures ClaimableIds(rec, task, ctx, now) == ReadyIds(rec.spec.steps, done)
  {
    hide Claimable, Waiting;
    forall s | s in rec.spec.steps
      ensures Claimable(rec, task, ctx, s, now) <==>
              s.id !in done && forall d :: d in s.dependsOn ==> d in done
    {
      ClaimableIffReady(rec, task, ctx, s, now, done);
    }
  }

  lemma DependenciesDone(rec: PlanRec, s: PlanStep, done: set<StepId>)
    requires StepsAre(rec, done, None) && s in rec.spec.steps && ReferencesKnown(rec.spec.steps)
    ensures (forall d :: d in s.dependsOn ==> d in rec.steps && rec.steps[d] == StepSucceeded)
       <==> (forall d :: d in s.dependsOn ==> d in done)
    ensures s.id in rec.steps
    ensures (rec.steps[s.id] == StepReady || rec.steps[s.id] == StepPending) <==> s.id !in done
  {
    assert s.id in Ids(rec.spec.steps);
    assert forall d :: d in s.dependsOn ==> d in Ids(rec.spec.steps);
  }

  lemma ClaimableIffReady(rec: PlanRec, task: TaskRow, ctx: ClaimContext, s: PlanStep, now: int, done: set<StepId>)
    requires Waiting(rec, task, done) && s in rec.spec.steps
    ensures Claimable(rec, task, ctx, s, now) <==> s.id !in done && forall d :: d in s.dependsOn ==> d in done
  {
    hide RecOk, Joint, Unconditional, Executable, KeysAllowed, CompensationTargets, StepReadyContext, StepsAre, ReferencesKnown, Acyclic, UniqueIds, Ids;
    BoundRef(rec, task, done);
    DependenciesDone(rec, s, done);
    if forall d :: d in s.dependsOn ==> d in done {
      StepReadyExecutable(rec, task, ctx, s, now);
    }
  }

  // ----- each append goes through -----

  lemma PlanAppendOk(rec: PlanRec, a: PlanState, b: PlanState, key: Key, now: int)
    requires rec.state == a && a.CanMoveTo(b) && !KeyUsed(rec.log, key)
    ensures AppendPlan(rec, a, b, key, now).Ok?
    ensures var r := AppendPlan(rec, a, b, key, now).value;
            r == rec.(state := b, log := r.log) && |r.log| == |rec.log| + 1 && IsExtension(rec.log, r.log)
            && r.log[|rec.log|].key == key
  {
  }

  lemma StepAppendOk(rec: PlanRec, id: StepId, a: StepState, b: StepState, key: Key, now: int)
    requires id in rec.steps && rec.steps[id] == a && a.CanMoveTo(b) && !KeyUsed(rec.log, key)
    ensures AppendStep(rec, id, a, b, key, now).Ok?
    ensures var r := AppendStep(rec, id, a, b, key, now).value;
            r == rec.(steps := rec.steps[id := b], log := r.log) && |r.log| == |rec.log| + 1
            && IsExtension(rec.log, r.log) && r.log[|rec.log|].key == key
  {
  }

  lemma KeyFree(log: seq<LogRow>, claimed: set<StepId>, finished: set<StepId>, started: bool, key: Key)
    requires KeysAllowed(log, claimed, finished, started) && !KeyAllowed(key, claimed, finished, started)
    ensures !KeyUsed(log, key)
  {
  }

  lemma KeysGrow(log: seq<LogRow>, longer: seq<LogRow>, claimed: set<StepId>, finished: set<StepId>, started: bool,
                 claimed2: set<StepId>, finished2: set<StepId>, started2: bool)
    requires KeysAllowed(log, claimed, finished, started) && |longer| == |log| + 1 && IsExtension(log, longer)
    requires claimed <= claimed2 && finished <= finished2 && (started ==> started2)
    requires KeyAllowed(longer[|log|].key, claimed2, finished2, started2)
    ensures KeysAllowed(longer, claimed2, finished2, started2)
  {
    forall i | 0 <= i < |longer| ensures KeyAllowed(longer[i].key, claimed2, finished2, started2) {
      if i < |log| {
        assert longer[i] == log[i];
        assert KeyAllowed(log[i].key, claimed, finished, started);
      }
    }
  }

  // ----- a round -----

  /** A digest the checkpoint accepts, if there is one. */
  predicate DigestAccepted(digest: Option<Digest>) {
    digest.Some? ==> IsSha256(digest.value)
  }

  lemma MakeReadyOk(rec: PlanRec, id: StepId, now: int, done: set<StepId>)
    requires id in rec.steps && rec.steps[id] == StepPending && id !in done && rec.state in {Approved, Running}
    requires KeysAllowed(rec.log, done, done, rec.state == Running)
    ensures MakeReady(rec, id, 1, now).Ok?
    ensures var r := MakeReady(rec, id, 1, now).value;
            && r == rec.(state := Running, steps := rec.steps[id := StepReady], log := r.log)
            && KeysAllowed(r.log, done + {id}, done, true)
            && !KeyUsed(r.log, ClaimRunning(id, 1))
  {
    hide AppendPlan, AppendStep, KeysAllowed, IsExtension, KeyUsed;
    var r := rec;
    if rec.state.Approved? {
      KeyFree(rec.log, done, done, false, ClaimPlan(id));
      PlanAppendOk(rec, Approved, Running, ClaimPlan(id), now);
      r := AppendPlan(rec, Approved, Running, ClaimPlan(id), now).value;
      KeysGrow(rec.log, r.log, done, done, false, done, done, true);
    }
    KeyFree(r.log, done, done, true, ClaimReady(id, 1));
    KeyFree(r.log, done, done, true, ClaimRunning(id, 1));
    StepAppendOk(r, id, StepPending, StepReady, ClaimReady(id, 1), now);
    var r2 := AppendStep(r, id, StepPending, StepReady, ClaimReady(id, 1), now).value;
    KeysGrow(r.log, r2.log, done, done, true, done + {id}, done, true);
    StillUnused(r.log, r2.log, ClaimRunning(id, 1));
  }

  lemma StillUnused(log: seq<LogRow>, longer: seq<LogRow>, key: Key)
    requires |longer| == |log| + 1 && IsExtension(log, longer) && !KeyUsed(log, key) && longer[|log|].key != key
    ensures !KeyUsed(longer, key)
  {
    forall i | 0 <= i < |longer| ensures longer[i].key != key {
      if i < |log| { assert longer[i] == log[i]; }
    }
  }

  lemma StartOk(rec: PlanRec, id: StepId, digest: Option<Digest>, now: int, done: set<StepId>)
    requires id in rec.steps && rec.steps[id] == StepPending && id !in done && rec.state in {Approved, Running}
    requires id in rec.attempts && rec.attempts[id] == 0 && DigestAccepted(digest)
    requires KeysAllowed(rec.log, done, done, rec.state == Running)
    ensures StartStep(rec, id, digest, now).Ok?
    ensures var r := StartStep(rec, id, digest, now).value;
            && r == rec.(state := Running, steps := rec.steps[id := StepRunning], attempts := rec.attempts[id := 1],
                         log := r.log, checkpoints := r.checkpoints)
            && KeysAllowed(r.log, done + {id}, done, true)
  {
    hide MakeReady, AppendStep, KeysAllowed, IsExtension, KeyUsed, IsSha256;
    MakeReadyOk(rec, id, now, done);
    var ready := MakeReady(rec, id, 1, now).value;
    StepAppendOk(ready, id, StepReady, StepRunning, ClaimRunning(id, 1), now);
    var started := AppendStep(ready, id, StepReady, StepRunning, ClaimRunning(id, 1), now).value;
    KeysGrow(ready.log, started.log, done + {id}, done, true, done + {id}, done, true);
  }

  /** A step that has not started has no attempts. */
  lemma NoAttempts(rec: PlanRec, id: StepId)
    requires RecOk(rec) && id in rec.steps && rec.steps[id] == StepPending
    ensures id in rec.attempts && rec.attempts[id] == 0
  {
    assert Journaled(rec) && AttemptsOk(rec);
    StepKeys(rec);
    PendingNeverStarted(Ids(rec.spec.steps), rec.log, id);
    hide Journaled, ValidStructure;
  }

  lemma {:induction false} PendingNeverStarted(ids: set<StepId>, log: seq<LogRow>, id: StepId)
    requires Replay(ids, log).Some? && id in Replay(ids, log).value.steps && Replay(ids, log).value.steps[id] == StepPending
    ensures Starts(log, id) == 0
  {
    if log != [] {
      PendingNeverStarted(ids, log[..|log| - 1], id);
    }
  }

  /** While steps remain, the claim yields the ready step with the least identifier. */
  lemma ClaimAdvances(rec: PlanRec, task: TaskRow, ref: PlanRef, ctx: ClaimContext, now: int, done: set<StepId>,
                      token: nat, until: int)
    requires Waiting(rec, task, done) && done != Ids(rec.spec.steps) && DigestAccepted(ctx.stateDigest)
    requires Some(ref) == task.plan
    ensures ReadyIds(rec.spec.steps, done) != {}
    ensures PrepareClaim(rec, task, ref, ctx, now).Ok? && PrepareClaim(rec, task, ref, ctx, now).value.Some?
    ensures var (r, id) := PrepareClaim(rec, task, ref, ctx, now).value.value;
            && id == MinOf(ReadyIds(rec.spec.steps, done)) && r.spec == rec.spec
            && Busy(r, Leased(task, Some(id), token, until), done, id)
  {
    SomeStepReady(rec.spec.steps, done);
    ClaimableAreReady(rec, task, ctx, now, done);
    var id := MinOf(ReadyIds(rec.spec.steps, done));
    ReadyIsPending(rec, task, done, id);
    NoAttempts(rec, id);
    StartOk(rec, id, ctx.stateDigest, now, done);
    ClaimSucceeds(rec, task, ref, ctx, now, id);
    ClaimKeeps(rec, task, ref, ctx, now, token, until);
    var r := StartStep(rec, id, ctx.stateDigest, now).value;
    StartedSteps(rec, r, done, id);
    hide RecOk, Joint, PrepareClaim, StartStep, StepsAre, KeysAllowed, ClaimableIds, ReadyIds, Unconditional;
  }

  lemma ReadyIsPending(rec: PlanRec, task: TaskRow, done: set<StepId>, id: StepId)
    requires Waiting(rec, task, done) && id in ReadyIds(rec.spec.steps, done)
    ensures id in rec.steps && rec.steps[id] == StepPending && id !in done && id in Ids(rec.spec.steps)
  {
    hide RecOk, Joint, Unconditional, KeysAllowed;
  }

  lemma StartedSteps(rec: PlanRec, r: PlanRec, done: set<StepId>, id: StepId)
    requires StepsAre(rec, done, None) && id in rec.steps && id !in done && r.spec == rec.spec
    requires r.steps == rec.steps[id := StepRunning] && r.attempts.Keys == rec.attempts.Keys
    ensures StepsAre(r, done, Some(id))
  {
  }

  lemma ClaimSucceeds(rec: PlanRec, task: TaskRow, ref: PlanRef, ctx: ClaimContext, now: int, id: StepId)
    requires Unconditional(rec.spec) && Joint(rec, Some(task)) && task.status == TQueued && Some(ref) == task.plan
    requires rec.state in {Approved, Running, Compensating} && SelectStep(rec, task, ctx, now) == Some(id)
    requires StartStep(rec, id, ctx.stateDigest, now).Ok?
    ensures PrepareClaim(rec, task, ref, ctx, now)
         == Ok(Some((StartStep(rec, id, ctx.stateDigest, now).value, id)))
  {
    hide PreflightOk, SelectStep, StartStep, ValidStructure, DigestOk, WellFormed, StepsOk, RequiredApproval, ShapeOk;
    LoadedWellFormed(rec);
    PreflightPasses(rec, now);
  }

  // ----- the finish of a round -----

  lemma EndStepOk(rec: PlanRec, id: StepId, digest: Option<Digest>, now: int, done: set<StepId>)
    requires id in rec.steps && rec.steps[id] == StepRunning && id !in done && DigestAccepted(digest)
    requires id in rec.attempts && KeysAllowed(rec.log, done + {id}, done, true)
    ensures var key := FinishSucceeded(id, rec.attempts[id]);
            && EndStep(rec, id, StepSucceeded, key, CheckpointSucceeded, digest, now).Ok?
            && var r := EndStep(rec, id, StepSucceeded, key, CheckpointSucceeded, digest, now).value;
               && r == rec.(steps := rec.steps[id := StepSucceeded], log := r.log, checkpoints := r.checkpoints)
               && KeysAllowed(r.log, done + {id}, done + {id}, true)
  {
    hide AppendStep, KeysAllowed, IsExtension, KeyUsed, IsSha256;
    var key := FinishSucceeded(id, rec.attempts[id]);
    KeyFree(rec.log, done + {id}, done, true, key);
    StepAppendOk(rec, id, StepRunning, StepSucceeded, key, now);
    KeysGrow(rec.log, AppendStep(rec, id, StepRunning, StepSucceeded, key, now).value.log,
             done + {id}, done, true, done + {id}, done + {id}, true);
  }

  lemma FinishedSteps(rec: PlanRec, r: PlanRec, done: set<StepId>, id: StepId)
    requires StepsAre(rec, done, Some(id)) && id in rec.steps && id !in done && r.spec == rec.spec
    requires r.steps == rec.steps[id := StepSucceeded] && r.attempts == rec.attempts
    ensures StepsAre(r, done + {id}, None)
    ensures StepsWhere(r.steps, {StepSucceeded}) == r.steps.Keys <==> done + {id} == Ids(rec.spec.steps)
  {
    assert StepsWhere(r.steps, {StepSucceeded}) == done + {id};
  }

  lemma SuccessAdvances(rec: PlanRec, task: TaskRow, done: set<StepId>, id: StepId, result: Option<string>,
                        digest: Option<Digest>, now: int)
    requires Busy(rec, task, done, id) && id in rec.attempts && id in rec.steps && DigestAccepted(digest)
    ensures FinishSuccess(rec, task, id, result, digest, now).Ok?
    ensures var (r, t, outcome) := FinishSuccess(rec, task, id, result, digest, now).value;
            && r.spec == rec.spec && KeysAllowed(r.log, done + {id}, done + {id}, true) == (done + {id} != Ids(rec.spec.steps))
            && StepsAre(r, done + {id}, None)
            && (if done + {id} == Ids(rec.spec.steps)
                then r.state == Succeeded && t.status == TSucceeded && t.result == result && outcome == FinishedSucceeded
                else r.state == Running && t.status == TQueued && outcome == PlanStepSucceeded(now))
  {
    assert rec.steps[id] == StepRunning by { hide RecOk, Joint, KeysAllowed, Unconditional; }
    hide RecOk, Joint, StepsAre, KeysAllowed, EndStep, AppendPlan, IsExtension, KeyUsed, Unconditional, StepsWhere, IsSha256;
    EndStepOk(rec, id, digest, now, done);
    var key := FinishSucceeded(id, rec.attempts[id]);
    var r := EndStep(rec, id, StepSucceeded, key, CheckpointSucceeded, digest, now).value;
    FinishedSteps(rec, r, done, id);
    if done + {id} == Ids(rec.spec.steps) {
      PlanCompletes(r, done + {id}, now);
    }
  }

  lemma PlanCompletes(r: PlanRec, done: set<StepId>, now: int)
    requires r.state == Running && StepsAre(r, done, None) && KeysAllowed(r.log, done, done, true)
    ensures AppendPlan(r, Running, Succeeded, FinishPlanSucceeded, now).Ok?
    ensures var f := AppendPlan(r, Running, Succeeded, FinishPlanSucceeded, now).value;
            && f.spec == r.spec && f.state == Succeeded && !KeysAllowed(f.log, done, done, true) && StepsAre(f, done, None)
  {
    hide StepsAre, KeysAllowed, AppendPlan, IsExtension, KeyUsed;
    KeyFree(r.log, done, done, true, FinishPlanSucceeded);
    PlanAppendOk(r, Running, Succeeded, FinishPlanSucceeded, now);
    var f := AppendPlan(r, Running, Succeeded, FinishPlanSucceeded, now).value;
    KeyOfEnd(r.log, f.log, done);
    SameStepsAre(r, f, done);
  }

  lemma SameStepsAre(r: PlanRec, f: PlanRec, done: set<StepId>)
    requires StepsAre(r, done, None) && f.steps == r.steps && f.attempts == r.attempts && f.spec == r.spec
    ensures StepsAre(f, done, None)
  {
  }

  lemma KeyOfEnd(log: seq<LogRow>, longer: seq<LogRow>, done: set<StepId>)
    requires |longer| == |log| + 1 && longer[|log|].key == FinishPlanSucceeded
    ensures !KeysAllowed(longer, done, done, true)
  {
    assert !KeyAllowed(longer[|log|].key, done, done, true);
  }

  /** Finishing the leased step in time, without an error, either completes the plan and the task, or
      puts the task back with one step more done. */
  lemma FinishAdvances(rec: PlanRec, task: TaskRow, done: set<StepId>, id: StepId, result: Option<string>, policy: Policy,
                       ctx: ClaimContext, now: int)
    requires Busy(rec, task, done, id) && DigestAccepted(ctx.stateDigest)
    ensures FinishPlanned(rec, task, result, false, policy, ctx, now).Ok?
    ensures var (r, t, outcome) := FinishPlanned(rec, task, result, false, policy, ctx, now).value;
            && r.spec == rec.spec
            && (if done + {id} == Ids(rec.spec.steps)
                then r.state == Succeeded && t.status == TSucceeded && t.result == result && outcome == FinishedSucceeded
                else Waiting(r, t, done + {id}) && outcome == PlanStepSucceeded(now))
  {
    var s :| s in rec.spec.steps && s.id == id;
    FoundById(rec.spec.steps, s);
    PostStepExecutable(rec, task, ctx, s, now);
    LoadedWellFormed(rec);
    BusyFacts(rec, task, done, id);
    FinishIsSuccess(rec, task, id, result, policy, ctx, now);
    SuccessAdvances(rec, task, done, id, result, ctx.stateDigest, now);
    FinishKeeps(rec, task, result, false, policy, ctx, now);
    hide RecOk, Joint, StepsAre, KeysAllowed, FinishSuccess, FinishPlanned, Unconditional;
  }

  lemma BusyFacts(rec: PlanRec, task: TaskRow, done: set<StepId>, id: StepId)
    requires Busy(rec, task, done, id)
    ensures id in rec.steps && id in rec.attempts && rec.steps[id] == StepRunning && !task.cancelRequested
    ensures task.plan == Some(PlanRef(rec.spec.planId, rec.spec.revision, rec.spec.digest)) && task.tenant == rec.spec.tenant
  {
    hide RecOk, KeysAllowed, Unconditional, StepsOk;
  }

  lemma FinishIsSuccess(rec: PlanRec, task: TaskRow, id: StepId, result: Option<string>, policy: Policy,
                        ctx: ClaimContext, now: int)
    requires task.plan == Some(PlanRef(rec.spec.planId, rec.spec.revision, rec.spec.digest)) && task.tenant == rec.spec.tenant
    requires ValidStructure(Loaded(rec)) && DigestOk(Loaded(rec))
    requires task.planStep == Some(id) && id in rec.steps && id in rec.attempts && rec.steps[id] == StepRunning
    requires FindStep(rec.spec.steps, id).Some? && !task.cancelRequested && task.status == TRunning
    requires PostStepOk(rec, task, id, ctx, now)
    ensures FinishPlanned(rec, task, result, false, policy, ctx, now) == FinishSuccess(rec, task, id, result, ctx.stateDigest, now)
  {
    hide ValidStructure, DigestOk, PostStepOk, FinishSuccess;
  }

  // ----- whole runs of one plan -----

  /** The facts a worker brings to one round: claim, then finish with a result. */
  datatype Round = Round(claimCtx: ClaimContext, claimAt: int, token: nat, until: int, result: Option<string>,
                         policy: Policy, finishCtx: ClaimContext, finishAt: int)

  predicate RoundOk(r: Round) {
    DigestAccepted(r.claimCtx.stateDigest) && DigestAccepted(r.finishCtx.stateDigest)
  }

  /** Claim and finish once; the claimed step is reported. `Err` when the claim finds no work. */
  ghost function PlayRound(rec: PlanRec, task: TaskRow, round: Round): Result<(PlanRec, TaskRow, StepId)> {
    var ref :- TaskReference(task);
    var claimed :- PrepareClaim(rec, task, ref, round.claimCtx, round.claimAt);
    if claimed.None? then Err(NotFound) else
      var (r, id) := claimed.value;
      var (f, t, _) :- FinishPlanned(r, Leased(task, Some(id), round.token, round.until), round.result, false,
                                     round.policy, round.finishCtx, round.finishAt);
      Ok((f, t, id))
  }

  ghost function Play(rec: PlanRec, task: TaskRow, rounds: seq<Round>): Result<(PlanRec, TaskRow, seq<StepId>)>
    decreases |rounds|
  {
    if rounds == [] then Ok((rec, task, [])) else
      var (r, t, id) :- PlayRound(rec, task, rounds[0]);
      var (f, u, rest) :- Play(r, t, rounds[1..]);
      Ok((f, u, [id] + rest))
  }

  lemma RoundAdvances(rec: PlanRec, task: TaskRow, round: Round, done: set<StepId>)
    requires Waiting(rec, task, done) && done != Ids(rec.spec.steps) && RoundOk(round)
    ensures ReadyIds(rec.spec.steps, done) != {} && PlayRound(rec, task, round).Ok?
    ensures var (r, t, id) := PlayRound(rec, task, round).value;
            && id == MinOf(ReadyIds(rec.spec.steps, done)) && r.spec == rec.spec
            && (if done + {id} == Ids(rec.spec.steps) then r.state == Succeeded && t.status == TSucceeded && t.result == round.result
                else Waiting(r, t, done + {id}))
  {
    hide Waiting, Busy, PrepareClaim, FinishPlanned, RecOk, Joint, ReadyIds, Ids, Acyclic, ReferencesKnown, UniqueIds;
    BoundRef(rec, task, done);
    ClaimAdvances(rec, task, task.plan.value, round.claimCtx, round.claimAt, done, round.token, round.until);
    var (r, id) := PrepareClaim(rec, task, task.plan.value, round.claimCtx, round.claimAt).value.value;
    FinishAdvances(r, Leased(task, Some(id), round.token, round.until), done, id, round.result, round.policy,
                   round.finishCtx, round.finishAt);
  }

  lemma BoundRef(rec: PlanRec, task: TaskRow, done: set<StepId>)
    requires Waiting(rec, task, done)
    ensures task.plan.Some?
    ensures Acyclic(rec.spec.steps) && ReferencesKnown(rec.spec.steps) && done <= Ids(rec.spec.steps) && UniqueIds(rec.spec.steps)
  {
  }

  lemma PlayOne(rec: PlanRec, task: TaskRow, rounds: seq<Round>, r: PlanRec, t: TaskRow, id: StepId)
    requires rounds != [] && PlayRound(rec, task, rounds[0]) == Ok((r, t, id)) && Play(r, t, rounds[1..]).Ok?
    ensures var (f, u, rest) := Play(r, t, rounds[1..]).value;
            Play(rec, task, rounds) == Ok((f, u, [id] + rest))
  {
    hide PlayRound;
  }

  lemma PlayNone(rec: PlanRec, task: TaskRow)
    ensures Play(rec, task, []) == Ok((rec, task, []))
  {
  }

  lemma OneFewer(ids: set<StepId>, done: set<StepId>, id: StepId)
    requires id in ids && id !in done
    ensures |ids - (done + {id})| == |ids - done| - 1
  {
    assert ids - done == (ids - (done + {id})) + {id};
  }

  /** Every round finds work, the claimed steps are the greedy order from `done`, and the plan and its
      task end succeeded with the last result. */
  ghost predicate RunsGreedily(rec: PlanRec, task: TaskRow, rounds: seq<Round>, done: set<StepId>)
    requires rounds != [] && Acyclic(rec.spec.steps) && ReferencesKnown(rec.spec.steps) && done <= Ids(rec.spec.steps)
  {
    Play(rec, task, rounds).Ok? &&
    var (r, t, order) := Play(rec, task, rounds).value;
    && order == Greedy(rec.spec.steps, done)
    && r.state == Succeeded && t.status == TSucceeded && t.result == rounds[|rounds| - 1].result
  }

  lemma LastRound(rec: PlanRec, task: TaskRow, rounds: seq<Round>, done: set<StepId>, r: PlanRec, t: TaskRow, id: StepId)
    requires |rounds| == 1 && Acyclic(rec.spec.steps) && ReferencesKnown(rec.spec.steps) && done <= Ids(rec.spec.steps)
    requires PlayRound(rec, task, rounds[0]) == Ok((r, t, id)) && done != Ids(rec.spec.steps)
    requires ReadyIds(rec.spec.steps, done) != {} && id == MinOf(ReadyIds(rec.spec.steps, done))
    requires done + {id} == Ids(rec.spec.steps) && r.state == Succeeded && t.status == TSucceeded && t.result == rounds[0].result
    ensures RunsGreedily(rec, task, rounds, done)
  {
    hide PlayRound, Acyclic, ReferencesKnown, ReadyIds, Ids;
    assert rounds[1..] == [];
    PlayNone(r, t);
    PlayOne(rec, task, rounds, r, t, id);
    GreedyOne(rec.spec.steps, done);
    GreedyEnd(rec.spec.steps, done + {id});
  }

  lemma FirstRound(rec: PlanRec, task: TaskRow, rounds: seq<Round>, done: set<StepId>, r: PlanRec, t: TaskRow, id: StepId)
    requires |rounds| > 1 && Acyclic(rec.spec.steps) && ReferencesKnown(rec.spec.steps) && done <= Ids(rec.spec.steps)
    requires PlayRound(rec, task, rounds[0]) == Ok((r, t, id)) && done != Ids(rec.spec.steps) && r.spec == rec.spec
    requires ReadyIds(rec.spec.steps, done) != {} && id == MinOf(ReadyIds(rec.spec.steps, done))
    requires done + {id} <= Ids(rec.spec.steps) && RunsGreedily(r, t, rounds[1..], done + {id})
    ensures RunsGreedily(rec, task, rounds, done)
  {
    hide PlayRound, Acyclic, ReferencesKnown, ReadyIds, Ids;
    PlayOne(rec, task, rounds, r, t, id);
    GreedyOne(rec.spec.steps, done);
    assert rounds[1..][|rounds[1..]| - 1] == rounds[|rounds| - 1];
  }

  lemma {:induction false} RunsToSuccess(rec: PlanRec, task: TaskRow, rounds: seq<Round>, done: set<StepId>)
    requires Waiting(rec, task, done) && done != Ids(rec.spec.steps)
    requires |rounds| == |Ids(rec.spec.steps) - done| && forall r :: r in rounds ==> RoundOk(r)
    ensures rounds != [] && Acyclic(rec.spec.steps) && ReferencesKnown(rec.spec.steps) && done <= Ids(rec.spec.steps)
    ensures RunsGreedily(rec, task, rounds, done)
    decreases |rounds|
  {
    hide Waiting, PlayRound, RunsGreedily, Acyclic, ReferencesKnown, ReadyIds, Ids, RoundOk, UniqueIds, Greedy;
    BoundRef(rec, task, done);
    var ids := Ids(rec.spec.steps);
    SomeLeft(ids, done, rounds);
    GreedyOne(rec.spec.steps, done);
    assert rounds[0] in rounds;
    RoundAdvances(rec, task, rounds[0], done);
    var (r, t, id) := PlayRound(rec, task, rounds[0]).value;
    OneFewer(ids, done, id);
    if done + {id} == ids {
      assert ids - (done + {id}) == {};
      LastRound(rec, task, rounds, done, r, t, id);
    } else {
      RunsToSuccess(r, t, rounds[1..], done + {id});
      FirstRound(rec, task, rounds, done, r, t, id);
    }
  }

  lemma SomeLeft(ids: set<StepId>, done: set<StepId>, rounds: seq<Round>)
    requires done <= ids && done != ids && |rounds| == |ids - done|
    ensures rounds != []
  {
    var left :| left in ids && left !in done;
    assert left in ids - done;
  }
}
