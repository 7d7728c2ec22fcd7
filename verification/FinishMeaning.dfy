/** What the end of a planned step does to the plan, its log and its task, said of the rows alone. */
module FinishMeaning {
  import opened Base
  import opened PlanCore
  import opened TransitionLog
  import opened PlanTransactions
  import opened Journal
  import opened PlanInvariants
  import opened PlanPreservation
  import opened LeaseFencing
  import opened Authority
  import opened RowConditions

  /** The log grew; its first new row ends the running step in the given state, and no other new row
      ends a step in success. The approvals, the attempts and the plan's specification are the same. */
  ghost predicate EndsStep(rec: PlanRec, r: PlanRec, id: StepId, to: StepState) {
    && r == rec.(state := r.state, steps := r.steps, log := r.log, checkpoints := r.checkpoints)
    && IsExtension(rec.log, r.log) && |rec.log| < |r.log|
    && r.log[|rec.log|].body.MovesStep(id, StepRunning, to)
    && forall k :: |rec.log| < k < |r.log| ==> !IsSuccess(r.log[k].body)
  }

  /** The task gave its lease back and has the status; result, next attempt and completion are as given. */
  predicate Returned(task: TaskRow, t: TaskRow, status: TaskStatus, result: Option<string>, next: int, completed: Option<int>) {
    t == task.(status := status, leaseUntil := None, leaseToken := None, planStep := None,
               result := result, nextAttemptAt := next, completedAt := completed)
  }

  /** The step was the last one: plan and task have succeeded. Otherwise the task waits for its next
      step, at once. */
  predicate Succeeds(rec: PlanRec, task: TaskRow, id: StepId, result: Option<string>, now: int, r: PlanRec, t: TaskRow,
                     outcome: FinishOutcome)
  {
    && r.steps == rec.steps[id := StepSucceeded]
    && if forall o :: o in rec.steps && o != id ==> rec.steps[o] == StepSucceeded then
         && r.state == Succeeded && Returned(task, t, TSucceeded, result, task.nextAttemptAt, Some(now))
         && outcome == FinishedSucceeded
       else
         && r.state == Running && Returned(task, t, TQueued, None, now, task.completedAt)
         && outcome == PlanStepSucceeded(now)
  }

  /** The step that waits for the compensation `id` of its effects. */
  predicate IsSource(rec: PlanRec, id: StepId, o: StepId) {
    o in rec.steps && rec.steps[o] == StepCompensating
    && exists s :: s in rec.spec.steps && s.id == o && s.compensation == Some(id)
  }

  /** The compensation is done: exactly the steps waiting for it are compensated. If no other step is
      under compensation the plan is compensated and the task has failed with the result; otherwise the
      task waits for its next step. */
  predicate CompensationEnds(rec: PlanRec, task: TaskRow, id: StepId, result: Option<string>, now: int, r: PlanRec, t: TaskRow,
                         outcome: FinishOutcome)
  {
    && r.steps == (map o | o in rec.steps ::
         if o == id then StepSucceeded else if IsSource(rec, id, o) then StepCompensated else rec.steps[o])
    && if forall o :: o in rec.steps && rec.steps[o] == StepCompensating ==> IsSource(rec, id, o) then
         && r.state == Compensated && Returned(task, t, TFailed, result, task.nextAttemptAt, Some(now))
         && outcome == FinishedCompensated
       else
         && r.state == Compensating && Returned(task, t, TQueued, None, now, task.completedAt)
         && outcome == PlanStepSucceeded(now)
  }

  /** 2 to the power of `n`. */
  function Doubled(n: nat): nat {
    if n == 0 then 1 else Doubled(n - 1) + Doubled(n - 1)
  }

  /** Base delay doubled with every earlier attempt, ten times at most, and never over the cap. */
  function Backoff(starts: nat, base: nat, cap: nat): nat {
    var delay := base * Doubled(if starts <= 1 then 0 else if starts <= 11 then starts - 1 else 10);
    if delay <= cap then delay else cap
  }

  predicate DelaysOk(policy: Policy) {
    0 <= policy.baseDelay <= I64_MAX && 0 <= policy.maxDelay <= I64_MAX
  }

  /** A retryable step with starts left waits again, after the backoff. */
  predicate Retries(rec: PlanRec, task: TaskRow, id: StepId, policy: Policy, now: int, r: PlanRec, t: TaskRow,
                    outcome: FinishOutcome)
  {
    && r.state == Running && r.steps == rec.steps[id := StepReady]
    && outcome.Requeued? && now <= outcome.nextAttemptAt
    && Returned(task, t, TQueued, None, outcome.nextAttemptAt, task.completedAt)
    && (DelaysOk(policy) ==>
          outcome.nextAttemptAt == now + Backoff(Starts(rec.log, id), policy.baseDelay, policy.maxDelay))
  }

  /** Otherwise the step stays failed and so do plan and task; while the plan compensates, plan and step
      become unknown. */
  predicate Fails(rec: PlanRec, task: TaskRow, id: StepId, now: int, r: PlanRec, t: TaskRow, outcome: FinishOutcome) {
    && outcome == FinishedFailed && Returned(task, t, TFailed, None, task.nextAttemptAt, Some(now))
    && if rec.state == Compensating then r.state == Unknown && r.steps == rec.steps[id := StepUnknown]
       else r.state == Failed && r.steps == rec.steps[id := StepFailed]
  }

  /** The step has starts left. */
  predicate HasStartsLeft(rec: PlanRec, id: StepId) {
    exists s :: s in rec.spec.steps && s.id == id && Starts(rec.log, id) < s.maxAttempts
  }

  /** The checkpoints a finish leaves: one for the step, and while the plan compensates one more, for the
      compensation or for the quarantine. */
  function Notes(rec: PlanRec, id: StepId, passed: bool, digest: Option<Digest>, now: int): seq<Checkpoint> {
    var n := |rec.checkpoints|;
    [Checkpoint(n + 1, Some(id), AfterStep, if passed then CheckpointSucceeded else CheckpointFailed, digest, now)]
    + if rec.state != Compensating then []
      else if passed then [Checkpoint(n + 2, Some(id), CompensationPhase, CheckpointSucceeded, None, now)]
      else [Checkpoint(n + 2, Some(id), Recovery, CheckpointUnknown, digest, now)]
  }

  /** The whole effect of a finish of an uncancelled task. */
  ghost predicate Finishes(rec: PlanRec, task: TaskRow, id: StepId, result: Option<string>, failed: bool, policy: Policy,
                           ctx: ClaimContext, now: int, r: PlanRec, t: TaskRow, outcome: FinishOutcome)
  {
    if !failed && Passes(rec, task, id, ctx, now) then
      && EndsStep(rec, r, id, StepSucceeded) && r.checkpoints == rec.checkpoints + Notes(rec, id, true, ctx.stateDigest, now)
      && if rec.state == Compensating then CompensationEnds(rec, task, id, result, now, r, t, outcome)
         else Succeeds(rec, task, id, result, now, r, t, outcome)
    else
      && EndsStep(rec, r, id, StepFailed) && r.checkpoints == rec.checkpoints + Notes(rec, id, false, ctx.stateDigest, now)
      && if rec.state == Running && policy.retryable && HasStartsLeft(rec, id)
         then Retries(rec, task, id, policy, now, r, t, outcome)
         else Fails(rec, task, id, now, r, t, outcome)
  }

  // ----- the first row -----

  lemma EndsFirst(rec: PlanRec, id: StepId, to: StepState, key: Key, status: CheckpointStatus, digest: Option<Digest>, now: int)
    requires RecOk(rec) && to in {StepSucceeded, StepFailed} && EndStep(rec, id, to, key, status, digest, now).Ok?
    ensures var r := EndStep(rec, id, to, key, status, digest, now).value;
            && Quiet(rec, r) && EndsStep(rec, r, id, to) && id in rec.steps
            && r == rec.(steps := rec.steps[id := to], log := r.log, checkpoints := r.checkpoints)
            && |r.log| == |rec.log| + 1 && r.log[|rec.log|].body.MovesStep(id, StepRunning, to)
            && r.checkpoints == rec.checkpoints + [Checkpoint(|rec.checkpoints| + 1, Some(id), AfterStep, status, digest, now)]
            && NextCheckpointSequence(r.checkpoints) == |rec.checkpoints| + 2
  {
    NextNumber(rec);
    EndNotes(rec, id, to, key, status, digest, now);
    hide RecOk, Quiet, EndStep;
    EndStepKeeps(rec, id, to, key, status, digest, now);
    EndStepGrows(rec, id, to, key, status, digest, now);
  }

  lemma EndNotes(rec: PlanRec, id: StepId, to: StepState, key: Key, status: CheckpointStatus, digest: Option<Digest>, now: int)
    requires EndStep(rec, id, to, key, status, digest, now).Ok?
    ensures EndStep(rec, id, to, key, status, digest, now).value.checkpoints == rec.checkpoints
            + [Checkpoint(NextCheckpointSequence(rec.checkpoints), Some(id), AfterStep, status, digest, now)]
  {
    hide IsSha256, KeyUsed;
  }

  /** A quarantine leaves one checkpoint. */
  lemma MarkNotes(rec: PlanRec, id: Option<StepId>, digest: Option<Digest>, now: int)
    requires MarkUnknown(rec, id, digest, now).Ok?
    ensures MarkUnknown(rec, id, digest, now).value.checkpoints == rec.checkpoints
            + [Checkpoint(NextCheckpointSequence(rec.checkpoints), id, Recovery, CheckpointUnknown, digest, now)]
  {
    hide IsSha256, KeyUsed, NextTransition;
  }

  lemma EndsLater(rec: PlanRec, r2: PlanRec, r: PlanRec, id: StepId, to: StepState)
    requires EndsStep(rec, r2, id, to) && IsExtension(r2.log, r.log) && NoSuccess(r2.log, r.log)
    requires r == r2.(state := r.state, steps := r.steps, log := r.log, checkpoints := r.checkpoints)
    ensures EndsStep(rec, r, id, to)
  {
    assert r.log[|rec.log|] == r2.log[|rec.log|];
    assert r.log[..|rec.log|] == r2.log[..|rec.log|];
    forall k | |rec.log| < k < |r.log| ensures !IsSuccess(r.log[k].body) {
      if k < |r2.log| { assert r.log[k] == r2.log[k]; }
    }
  }

  lemma PlanRowAdded(r2: PlanRec, a: PlanState, b: PlanState, key: Key, now: int)
    requires AppendPlan(r2, a, b, key, now).Ok?
    ensures var r := AppendPlan(r2, a, b, key, now).value;
            IsExtension(r2.log, r.log) && NoSuccess(r2.log, r.log) && r == r2.(state := b, log := r.log)
  {
  }

  lemma StepRowAdded(r2: PlanRec, id: StepId, a: StepState, b: StepState, key: Key, now: int)
    requires AppendStep(r2, id, a, b, key, now).Ok? && b != StepSucceeded
    ensures var r := AppendStep(r2, id, a, b, key, now).value;
            IsExtension(r2.log, r.log) && NoSuccess(r2.log, r.log) && id in r2.steps && r == r2.(steps := r2.steps[id := b], log := r.log)
  {
  }

  // ----- success -----

  lemma AllOthersSucceeded(rec: PlanRec, r2: PlanRec, id: StepId)
    requires id in rec.steps && r2.steps == rec.steps[id := StepSucceeded]
    ensures StepsWhere(r2.steps, {StepSucceeded}) == r2.steps.Keys
       <==> forall o :: o in rec.steps && o != id ==> rec.steps[o] == StepSucceeded
  {
    assert forall o :: o in r2.steps && r2.steps[o] == StepSucceeded ==> o in StepsWhere(r2.steps, {StepSucceeded});
    if StepsWhere(r2.steps, {StepSucceeded}) == r2.steps.Keys {
      AllWhere(r2.steps, StepSucceeded);
      forall o | o in rec.steps && o != id ensures rec.steps[o] == StepSucceeded { assert r2.steps[o] == rec.steps[o]; }
    }
  }

  lemma SuccessMeans(rec: PlanRec, r2: PlanRec, task: TaskRow, id: StepId, result: Option<string>, now: int)
    requires EndsStep(rec, r2, id, StepSucceeded) && id in rec.steps && rec.state == Running
    requires r2 == rec.(steps := rec.steps[id := StepSucceeded], log := r2.log, checkpoints := r2.checkpoints)
    requires AfterSuccess(r2, task, result, now).Ok?
    ensures var (r, t, outcome) := AfterSuccess(r2, task, result, now).value;
            && EndsStep(rec, r, id, StepSucceeded) && Succeeds(rec, task, id, result, now, r, t, outcome)
            && r.checkpoints == r2.checkpoints
  {
    AllOthersSucceeded(rec, r2, id);
    hide EndsStep, AppendPlan, IsExtension, NoSuccess, StepsWhere;
    if StepsWhere(r2.steps, {StepSucceeded}) == r2.steps.Keys {
      PlanRowAdded(r2, Running, Succeeded, FinishPlanSucceeded, now);
      EndsLater(rec, r2, AppendPlan(r2, Running, Succeeded, FinishPlanSucceeded, now).value, id, StepSucceeded);
    }
  }

  // ----- compensation -----

  lemma SourceMeans(rec: PlanRec, id: StepId, o: StepId)
    ensures o in CompensationSources(rec, id) <==> IsSource(rec, id, o)
  {
  }

  lemma SourcesMean(rec: PlanRec, r3: PlanRec, id: StepId)
    requires SourcesDone(rec, r3, id) && id in rec.steps && rec.steps[id] == StepRunning
    ensures r3.state == rec.state
    ensures r3.steps == (map o | o in rec.steps ::
              if o == id then StepSucceeded else if IsSource(rec, id, o) then StepCompensated else rec.steps[o])
    ensures StepsWhere(r3.steps, {StepCompensating}) == {}
       <==> forall o :: o in rec.steps && rec.steps[o] == StepCompensating ==> IsSource(rec, id, o)
  {
    hide Quiet, CompensationSources, IsSource;
    forall o ensures o in CompensationSources(rec, id) <==> IsSource(rec, id, o) { SourceMeans(rec, id, o); }
    forall o ensures o in StepsWhere(r3.steps, {StepCompensating})
                <==> o in rec.steps && rec.steps[o] == StepCompensating && !IsSource(rec, id, o) { }
  }

  lemma CompensationMeans(rec: PlanRec, r2: PlanRec, task: TaskRow, id: StepId, result: Option<string>, now: int)
    requires Finishing(rec, task, id) && rec.state == Compensating && EndsStep(rec, r2, id, StepSucceeded) && Quiet(rec, r2)
    requires r2 == rec.(steps := rec.steps[id := StepSucceeded], log := r2.log, checkpoints := r2.checkpoints)
    requires |r2.log| == |rec.log| + 1 && r2.log[|rec.log|].body.MovesStep(id, StepRunning, StepSucceeded)
    requires CompleteCompensation(r2, task, id, result, now).Ok?
    ensures var (r, t, outcome) := CompleteCompensation(r2, task, id, result, now).value;
            && EndsStep(rec, r, id, StepSucceeded) && CompensationEnds(rec, task, id, result, now, r, t, outcome)
            && r.checkpoints == r2.checkpoints
                 + [Checkpoint(NextCheckpointSequence(r2.checkpoints), Some(id), CompensationPhase, CheckpointSucceeded, None, now)]
  {
    hide RecOk, Quiet, Joint, EndsStep, AppendPlan, IsExtension, NoSuccess, BatchRule, CompensateSources, StepsWhere, IsSource, SourcesDone,
         ReferencesKnown, AfterCompensation, Grows, SameTerms;
    KnownReferences(rec);
    SourcesHaveEvidence(rec, r2, id);
    CompensateSourcesKeeps(rec, r2, id, now);
    var r3 := CompensateSources(r2, id, now).value;
    SourcesMean(rec, r3, id);
    SourcesGrow(r2, id, now);
    EndsLater(rec, r2, r3, id, StepSucceeded);
    CompensationCloses(rec, r3, task, id, result, now);
  }

  lemma KnownReferences(rec: PlanRec)
    requires RecOk(rec)
    ensures ReferencesKnown(rec.spec.steps)
  {
  }

  lemma SourcesGrow(r2: PlanRec, id: StepId, now: int)
    requires CompensateSources(r2, id, now).Ok?
    ensures var r3 := CompensateSources(r2, id, now).value;
            && IsExtension(r2.log, r3.log) && NoSuccess(r2.log, r3.log)
            && r3 == r2.(state := r3.state, steps := r3.steps, log := r3.log, checkpoints := r2.checkpoints
                 + [Checkpoint(NextCheckpointSequence(r2.checkpoints), Some(id), CompensationPhase, CheckpointSucceeded, None, now)])
  {
    SourcesAreCompensating(r2, id);
    SameLog(r2, r2, r2);
    hide MoveAll, CompensationSources, Grows, IsExtension, NoSuccess;
    MovesOnly(r2, Ascending(CompensationSources(r2, id)), r2.steps, StepCompensated, ByCompensation, now);
    BatchGrowsHere(r2, id, now);
    GrownLogs(r2, MoveAll(r2, Ascending(CompensationSources(r2, id)), r2.steps, StepCompensated, ByCompensation, now).value);
  }

  lemma GrownLogs(rec: PlanRec, r: PlanRec)
    requires Grows(rec, r)
    ensures IsExtension(rec.log, r.log) && NoSuccess(rec.log, r.log)
  {
  }

  lemma {:induction false} MovesOnly(rec: PlanRec, ids: seq<StepId>, from: map<StepId, StepState>, to: StepState, kind: MoveKind, now: int)
    requires (forall id :: id in ids ==> id in from) && MoveAll(rec, ids, from, to, kind, now).Ok?
    ensures var r := MoveAll(rec, ids, from, to, kind, now).value;
            r == rec.(steps := r.steps, log := r.log)
  {
    if ids != [] {
      MovesOnly(rec, ids[..|ids| - 1], from, to, kind, now);
    }
  }

  lemma BatchGrowsHere(r2: PlanRec, id: StepId, now: int)
    requires CompensateSources(r2, id, now).Ok?
    ensures Grows(r2, MoveAll(r2, Ascending(CompensationSources(r2, id)), r2.steps, StepCompensated, ByCompensation, now).value)
  {
    SourcesAreCompensating(r2, id);
    SameLog(r2, r2, r2);
    hide MoveAll, CompensationSources, Grows;
    BatchGrows(r2, r2, Ascending(CompensationSources(r2, id)), r2.steps, StepCompensated, ByCompensation, now);
  }

  lemma CompensationCloses(rec: PlanRec, r3: PlanRec, task: TaskRow, id: StepId, result: Option<string>, now: int)
    requires EndsStep(rec, r3, id, StepSucceeded) && r3.state == Compensating
    requires r3.steps == (map o | o in rec.steps ::
               if o == id then StepSucceeded else if IsSource(rec, id, o) then StepCompensated else rec.steps[o])
    requires StepsWhere(r3.steps, {StepCompensating}) == {}
        <==> forall o :: o in rec.steps && rec.steps[o] == StepCompensating ==> IsSource(rec, id, o)
    requires AfterCompensation(r3, task, result, now).Ok?
    ensures var (r, t, outcome) := AfterCompensation(r3, task, result, now).value;
            && EndsStep(rec, r, id, StepSucceeded) && CompensationEnds(rec, task, id, result, now, r, t, outcome)
            && r.checkpoints == r3.checkpoints
  {
    hide EndsStep, AppendPlan, IsExtension, NoSuccess, StepsWhere, IsSource;
    if StepsWhere(r3.steps, {StepCompensating}) == {} {
      PlanRowAdded(r3, Compensating, Compensated, CompensationPlan, now);
      EndsLater(rec, r3, AppendPlan(r3, Compensating, Compensated, CompensationPlan, now).value, id, StepSucceeded);
    }
  }

  // ----- failure -----

  lemma DoubledIsPower(n: nat)
    ensures Doubled(n) == Pow2(n)
  {
  }

  lemma BackoffMeans(starts: nat, policy: Policy)
    requires 1 <= starts
    ensures 0 <= RetryDelay(starts, policy.baseDelay, policy.maxDelay)
    ensures DelaysOk(policy) ==>
              RetryDelay(starts, policy.baseDelay, policy.maxDelay) == Backoff(starts, policy.baseDelay, policy.maxDelay)
  {
    if DelaysOk(policy) {
      RetryDelayExact(starts, policy.baseDelay, policy.maxDelay);
      DoubledIsPower(if starts - 1 < 10 then starts - 1 else 10);
    }
  }

  lemma StartsLeftMean(rec: PlanRec, id: StepId, s: PlanStep)
    requires UniqueIds(rec.spec.steps) && s in rec.spec.steps && s.id == id
    ensures HasStartsLeft(rec, id) <==> Starts(rec.log, id) < s.maxAttempts
  {
    if HasStartsLeft(rec, id) {
      var o :| o in rec.spec.steps && o.id == id && Starts(rec.log, id) < o.maxAttempts;
      SameIdSameStep(rec.spec.steps, s, o);
    }
  }

  lemma FailureMeans(rec: PlanRec, r2: PlanRec, task: TaskRow, id: StepId, starts: nat, retry: bool, policy: Policy,
                     digest: Option<Digest>, now: int)
    requires Finishing(rec, task, id) && EndsStep(rec, r2, id, StepFailed) && Quiet(rec, r2)
    requires r2 == rec.(steps := rec.steps[id := StepFailed], log := r2.log, checkpoints := r2.checkpoints)
    requires starts == Starts(rec.log, id) && 1 <= starts
    requires AfterFailure(r2, task, id, starts, retry, policy, digest, now).Ok?
    ensures var (r, t, outcome) := AfterFailure(r2, task, id, starts, retry, policy, digest, now).value;
            && EndsStep(rec, r, id, StepFailed)
            && r.checkpoints == r2.checkpoints + (if rec.state != Compensating then []
                 else [Checkpoint(NextCheckpointSequence(r2.checkpoints), Some(id), Recovery, CheckpointUnknown, digest, now)])
            && if rec.state == Running && retry then Retries(rec, task, id, policy, now, r, t, outcome)
               else Fails(rec, task, id, now, r, t, outcome)
  {
    hide RecOk, Joint, Quiet, EndsStep, AppendPlan, AppendStep, IsExtension, NoSuccess, MarkUnknown, RetryDelay, Starts, Backoff, DelaysOk;
    if rec.state == Compensating {
      SameRows(r2);
      MarkUnknownGrows(r2, r2, Some(id), digest, now);
      MarkUnknownKeeps(rec, r2, Some(id), digest, now);
      MarkNotes(r2, Some(id), digest, now);
      var r := MarkUnknown(r2, Some(id), digest, now).value;
      EndsLater(rec, r2, r, id, StepFailed);
      assert rec.steps[id := StepFailed][id := StepUnknown] == rec.steps[id := StepUnknown];
    } else if retry {
      BackoffMeans(starts, policy);
      StepRowAdded(r2, id, StepFailed, StepReady, RetryReady(id, starts), now);
      EndsLater(rec, r2, AppendStep(r2, id, StepFailed, StepReady, RetryReady(id, starts), now).value, id, StepFailed);
      assert rec.steps[id := StepFailed][id := StepReady] == rec.steps[id := StepReady];
    } else {
      PlanRowAdded(r2, Running, Failed, FinishPlanFailed, now);
      EndsLater(rec, r2, AppendPlan(r2, Running, Failed, FinishPlanFailed, now).value, id, StepFailed);
    }
  }

  lemma SameRows(rec: PlanRec)
    ensures Grows(rec, rec)
  {
  }

  /** A running step has been started. */
  lemma {:induction false} RunningWasStarted(ids: set<StepId>, log: seq<LogRow>, id: StepId)
    requires Replay(ids, log).Some? && id in Replay(ids, log).value.steps && Replay(ids, log).value.steps[id] == StepRunning
    ensures 1 <= Starts(log, id)
  {
    var n := |log| - 1;
    if log == [] {
    } else if !log[n].body.Touches(id) {
      RunningWasStarted(ids, log[..n], id);
    }
  }

  // ----- the finish -----

  /** A finish that goes through on an uncancelled task ends the leased step in success exactly when no
      failure was reported and every declared postcondition holds. */
  lemma FinishMeans(rec: PlanRec, task: TaskRow, result: Option<string>, failed: bool, policy: Policy, ctx: ClaimContext, now: int)
    requires RecOk(rec) && Joint(rec, Some(task)) && !task.cancelRequested
    requires FinishPlanned(rec, task, result, failed, policy, ctx, now).Ok?
    ensures task.planStep.Some?
    ensures var (r, t, outcome) := FinishPlanned(rec, task, result, failed, policy, ctx, now).value;
            Finishes(rec, task, task.planStep.value, result, failed, policy, ctx, now, r, t, outcome)
  {
    hide RecOk, PostStepOk, LoadPlan, FinishCancelled, FinishSuccess, FinishFailure, Passes, Finishes;
    var id := task.planStep.value;
    assert Finishing(rec, task, id);
    KnownStep(rec, id);
    PostStepMeans(rec, task, id, ctx, now);
    if !failed && PostStepOk(rec, task, id, ctx, now) {
      SucceededFinish(rec, task, id, result, failed, policy, ctx, now);
    } else {
      FailedFinish(rec, task, id, FindStep(rec.spec.steps, id).value, result, failed, policy, ctx, now);
    }
  }

  lemma KnownStep(rec: PlanRec, id: StepId)
    requires RecOk(rec) && id in rec.steps
    ensures id in Ids(rec.spec.steps) && UniqueIds(rec.spec.steps) && id in rec.attempts && rec.attempts[id] == Starts(rec.log, id)
    ensures rec.steps[id] == StepRunning ==> 1 <= Starts(rec.log, id)
  {
    StepKeys(rec);
    if rec.steps[id] == StepRunning {
      RunningWasStarted(Ids(rec.spec.steps), rec.log, id);
    }
  }

  lemma SucceededFinish(rec: PlanRec, task: TaskRow, id: StepId, result: Option<string>, failed: bool, policy: Policy,
                        ctx: ClaimContext, now: int)
    requires Finishing(rec, task, id) && FinishSuccess(rec, task, id, result, ctx.stateDigest, now).Ok?
    requires !failed && Passes(rec, task, id, ctx, now)
    ensures var (r, t, outcome) := FinishSuccess(rec, task, id, result, ctx.stateDigest, now).value;
            Finishes(rec, task, id, result, failed, policy, ctx, now, r, t, outcome)
  {
    hide RecOk, Joint, Quiet, EndsStep, EndStep, AfterSuccess, CompleteCompensation, Passes, Succeeds, CompensationEnds;
    var key := FinishSucceeded(id, rec.attempts[id]);
    EndsFirst(rec, id, StepSucceeded, key, CheckpointSucceeded, ctx.stateDigest, now);
    var r2 := EndStep(rec, id, StepSucceeded, key, CheckpointSucceeded, ctx.stateDigest, now).value;
    if rec.state == Compensating {
      CompensationMeans(rec, r2, task, id, result, now);
    } else {
      SuccessMeans(rec, r2, task, id, result, now);
    }
  }

  lemma FailedFinish(rec: PlanRec, task: TaskRow, id: StepId, s: PlanStep, result: Option<string>, failed: bool, policy: Policy,
                     ctx: ClaimContext, now: int)
    requires Finishing(rec, task, id) && s in rec.spec.steps && s.id == id
    requires FinishFailure(rec, task, id, s.maxAttempts, policy, ctx.stateDigest, now).Ok?
    requires failed || !Passes(rec, task, id, ctx, now)
    ensures var (r, t, outcome) := FinishFailure(rec, task, id, s.maxAttempts, policy, ctx.stateDigest, now).value;
            Finishes(rec, task, id, result, failed, policy, ctx, now, r, t, outcome)
  {
    KnownStep(rec, id);
    hide RecOk, Joint, Quiet, EndsStep, EndStep, AfterFailure, Passes, Retries, Fails, HasStartsLeft, UniqueIds, Finishes, Notes,
         NextCheckpointSequence, IsExtension, Starts;
    StartsLeftMean(rec, id, s);
    var starts := rec.attempts[id];
    EndsFirst(rec, id, StepFailed, FinishFailed(id, starts), CheckpointFailed, ctx.stateDigest, now);
    var r2 := EndStep(rec, id, StepFailed, FinishFailed(id, starts), CheckpointFailed, ctx.stateDigest, now).value;
    FailureMeans(rec, r2, task, id, starts, policy.retryable && starts < s.maxAttempts, policy, ctx.stateDigest, now);
    var (r, t, outcome) := FinishFailure(rec, task, id, s.maxAttempts, policy, ctx.stateDigest, now).value;
    FailureNotes(rec, r2, r, id, ctx.stateDigest, now);
    FoldFailure(rec, task, id, result, failed, policy, ctx, now, r, t, outcome);
  }

  lemma FailureNotes(rec: PlanRec, r2: PlanRec, r: PlanRec, id: StepId, digest: Option<Digest>, now: int)
    requires r2.checkpoints == rec.checkpoints + [Checkpoint(|rec.checkpoints| + 1, Some(id), AfterStep, CheckpointFailed, digest, now)]
    requires NextCheckpointSequence(r2.checkpoints) == |rec.checkpoints| + 2
    requires r.checkpoints == r2.checkpoints + (if rec.state != Compensating then []
               else [Checkpoint(NextCheckpointSequence(r2.checkpoints), Some(id), Recovery, CheckpointUnknown, digest, now)])
    ensures r.checkpoints == rec.checkpoints + Notes(rec, id, false, digest, now)
  {
  }

  lemma FoldFailure(rec: PlanRec, task: TaskRow, id: StepId, result: Option<string>, failed: bool, policy: Policy,
                    ctx: ClaimContext, now: int, r: PlanRec, t: TaskRow, outcome: FinishOutcome)
    requires failed || !Passes(rec, task, id, ctx, now)
    requires EndsStep(rec, r, id, StepFailed) && r.checkpoints == rec.checkpoints + Notes(rec, id, false, ctx.stateDigest, now)
    requires if rec.state == Running && policy.retryable && HasStartsLeft(rec, id)
             then Retries(rec, task, id, policy, now, r, t, outcome) else Fails(rec, task, id, now, r, t, outcome)
    ensures Finishes(rec, task, id, result, failed, policy, ctx, now, r, t, outcome)
  {
    hide EndsStep, Passes, Notes, Retries, Fails, HasStartsLeft;
  }

  // ----- a cancelled task -----

  /** Whatever the worker reports, a cancelled task ends cancelled, and its plan and step become unknown. */
  predicate Abandons(rec: PlanRec, task: TaskRow, id: StepId, digest: Option<Digest>, now: int, r: PlanRec, t: TaskRow,
                     outcome: FinishOutcome)
  {
    && r == rec.(state := Unknown, steps := r.steps, log := r.log, checkpoints := rec.checkpoints
         + [Checkpoint(|rec.checkpoints| + 1, Some(id), Recovery, CheckpointUnknown, digest, now)])
    && id in rec.steps && r.steps == rec.steps[id := StepUnknown]
    && t == task.(status := TCancelled, cancelRequested := true, leaseUntil := None, leaseToken := None, planStep := None,
                  completedAt := Some(now))
    && outcome == FinishedCancelled
  }

  lemma CancelledFinishMeans(rec: PlanRec, task: TaskRow, result: Option<string>, failed: bool, policy: Policy,
                             ctx: ClaimContext, now: int)
    requires RecOk(rec) && Joint(rec, Some(task)) && task.cancelRequested
    requires FinishPlanned(rec, task, result, failed, policy, ctx, now).Ok?
    ensures task.planStep.Some?
    ensures var (r, t, outcome) := FinishPlanned(rec, task, result, failed, policy, ctx, now).value;
            Abandons(rec, task, task.planStep.value, ctx.stateDigest, now, r, t, outcome)
  {
    hide RecOk, Joint, FinishPlanned, MarkUnknown, Quiet, WithUnknown, Abandons, NextCheckpointSequence;
    CancelledUnfolds(rec, task, result, failed, policy, ctx, now);
    var id := task.planStep.value;
    QuietStart(rec);
    NextNumber(rec);
    MarkUnknownKeeps(rec, rec, Some(id), ctx.stateDigest, now);
    MarkNotes(rec, Some(id), ctx.stateDigest, now);
    var (r, t, outcome) := FinishPlanned(rec, task, result, failed, policy, ctx, now).value;
    FoldAbandoned(rec, task, id, ctx.stateDigest, now, r, t, outcome);
  }

  lemma CancelledUnfolds(rec: PlanRec, task: TaskRow, result: Option<string>, failed: bool, policy: Policy,
                         ctx: ClaimContext, now: int)
    requires Joint(rec, Some(task)) && task.cancelRequested && FinishPlanned(rec, task, result, failed, policy, ctx, now).Ok?
    ensures task.planStep.Some? && task.planStep.value in rec.steps
    ensures rec.steps[task.planStep.value] == StepRunning && rec.state in {Running, CancelRequested, Compensating, Unknown}
    ensures var (r, t, outcome) := FinishPlanned(rec, task, result, failed, policy, ctx, now).value;
            && MarkUnknown(rec, Some(task.planStep.value), ctx.stateDigest, now) == Ok(r)
            && t == task.Release(TCancelled).(cancelRequested := true, completedAt := Some(now)) && outcome == FinishedCancelled
  {
    hide LoadPlan, PostStepOk, MarkUnknown, FinishSuccess, FinishFailure;
  }

  lemma FoldAbandoned(rec: PlanRec, task: TaskRow, id: StepId, digest: Option<Digest>, now: int, r: PlanRec, t: TaskRow,
                      outcome: FinishOutcome)
    requires id in rec.steps && r == rec.(state := Unknown, steps := WithUnknown(rec.steps, Some(id)), log := r.log, checkpoints := r.checkpoints)
    requires r.checkpoints == rec.checkpoints + [Checkpoint(|rec.checkpoints| + 1, Some(id), Recovery, CheckpointUnknown, digest, now)]
    requires t == task.Release(TCancelled).(cancelRequested := true, completedAt := Some(now)) && outcome == FinishedCancelled
    ensures Abandons(rec, task, id, digest, now, r, t, outcome)
  {
  }
}
