/** How long a lease lasts, and against whom, over whole runs. */
module Leases {
  import opened Base
  import opened PlanCore
  import opened TransitionLog
  import opened PlanTransactions
  import opened PlanPreservation
  import opened QueueModel
  import opened GovernedRuns
  import opened TaskFrames
  import opened LeaseFencing
  import opened ClaimMeaning

  // ----- the claim -----

  /** Event `n` is a claim that returned task `id`. */
  ghost predicate Claims(st: Store, e: Event, id: TaskId) {
    && e.op.OpClaim? && Governed(st, e)
    && var r := Claim(st, e.op.order, e.op.ctx, e.now, e.op.leaseFor);
       r.Ok? && r.value.1 == Some(id)
  }

  /** The task is leased under the token until the given instant. */
  predicate IsLeasedUntil(t: TaskRow, token: nat, until: int) {
    t.status == TRunning && !t.cancelRequested && t.leaseToken == Some(token) && t.leaseUntil == Some(until)
  }

  /** A claim leases the task it returns for exactly the time asked for, under a token never used
      before. */
  lemma ClaimLeases(stores: seq<Store>, events: seq<Event>, n: nat, id: TaskId)
    requires IsRun(stores, events) && n < |events| && n + 1 < |stores| && Claims(stores[n], events[n], id)
    ensures id in stores[n].tasks && Eligible(stores[n].tasks[id], events[n].now) && id in stores[n + 1].tasks
    ensures events[n].op.OpClaim? && events[n].op.leaseFor > 0
    ensures IsLeasedUntil(stores[n + 1].tasks[id], stores[n].nextToken, events[n].now + events[n].op.leaseFor)
    ensures forall t :: t in stores[n].tasks ==> stores[n].tasks[t].leaseToken != Some(stores[n].nextToken)
  {
    hide IsRun, Claims, StoreOk, Apply, Governed, IsLeasedUntil;
    RunStep(stores, events, n);
    ClaimLeasesOne(stores[n], events[n], id);
    TokenIsFresh(stores[n]);
  }

  lemma ClaimLeasesOne(st: Store, e: Event, id: TaskId)
    requires StoreOk(st) && Claims(st, e, id)
    ensures id in st.tasks && Eligible(st.tasks[id], e.now) && id in Apply(st, e).tasks
    ensures e.op.OpClaim? && e.op.leaseFor > 0
    ensures IsLeasedUntil(Apply(st, e).tasks[id], st.nextToken, e.now + e.op.leaseFor)
  {
    hide Claim, StoreOk, Idle, Apply, Eligible, IsLeasedUntil, Takes;
    ClaimMeans(st, e.op.order, e.op.ctx, e.now, e.op.leaseFor);
    ClaimApplied(st, e);
    TakenIsLeased(st, Apply(st, e), id, e.op.ctx, e.now, e.now + e.op.leaseFor);
  }

  lemma TokenIsFresh(st: Store)
    requires StoreOk(st)
    ensures forall t :: t in st.tasks ==> st.tasks[t].leaseToken != Some(st.nextToken)
  {
    hide PlanOk;
  }

  lemma ClaimApplied(st: Store, e: Event)
    requires Governed(st, e) && e.op.OpClaim?
    ensures var r := Claim(st, e.op.order, e.op.ctx, e.now, e.op.leaseFor);
            Apply(st, e) == if r.Ok? then r.value.0 else st
  {
    hide ClaimFrom;
  }

  lemma TakenIsLeased(st: Store, after: Store, id: TaskId, ctx: ClaimContext, now: int, until: int)
    requires id in st.tasks && Takes(st, after, id, ctx, now, until) && Eligible(st.tasks[id], now)
    ensures id in after.tasks && IsLeasedUntil(after.tasks[id], st.nextToken, until)
  {
  }

  // ----- a finish that is not refused for its lease -----

  predicate NotLost<T>(r: Result<T>) {
    r.Err? ==> r.error != LeaseLost
  }

  lemma AppendsNotLost(rec: PlanRec, a: PlanState, b: PlanState, key: Key, now: int)
    ensures NotLost(AppendPlan(rec, a, b, key, now))
  {
  }

  lemma StepsNotLost(rec: PlanRec, id: StepId, a: StepState, b: StepState, key: Key, now: int)
    ensures NotLost(AppendStep(rec, id, a, b, key, now))
  {
  }

  lemma {:induction false} BatchNotLost(rec: PlanRec, ids: seq<StepId>, from: map<StepId, StepState>, to: StepState, kind: MoveKind, now: int)
    requires forall id :: id in ids ==> id in from
    ensures NotLost(MoveAll(rec, ids, from, to, kind, now))
  {
    hide AppendStep;
    if ids != [] {
      var n := |ids| - 1;
      BatchNotLost(rec, ids[..n], from, to, kind, now);
      if MoveAll(rec, ids[..n], from, to, kind, now).Ok? {
        StepsNotLost(MoveAll(rec, ids[..n], from, to, kind, now).value, ids[n], from[ids[n]], to, KeyFor(kind, ids[n]), now);
      }
    }
  }

  lemma MarkNotLost(rec: PlanRec, id: Option<StepId>, digest: Option<Digest>, now: int)
    ensures NotLost(MarkUnknown(rec, id, digest, now))
  {
    hide AppendPlan, AppendStep, IsSha256;
    AppendsNotLost(rec, rec.state, Unknown, RecoveryPlanUnknown(now), now);
    forall r: PlanRec, i, a ensures NotLost(AppendStep(r, i, a, StepUnknown, RecoveryStepUnknown(i, now), now)) {
      StepsNotLost(r, i, a, StepUnknown, RecoveryStepUnknown(i, now), now);
    }
  }

  lemma EndNotLost(rec: PlanRec, id: StepId, to: StepState, key: Key, status: CheckpointStatus, digest: Option<Digest>, now: int)
    ensures NotLost(EndStep(rec, id, to, key, status, digest, now))
  {
    StepsNotLost(rec, id, StepRunning, to, key, now);
    hide AppendStep, IsSha256;
  }

  lemma CompensationNotLost(rec: PlanRec, task: TaskRow, target: StepId, result: Option<string>, now: int)
    ensures NotLost(CompleteCompensation(rec, task, target, result, now))
  {
    hide MoveAll, AppendPlan, StepsWhere, AddCheckpoint, CompensationSources;
    BatchNotLost(rec, Ascending(CompensationSources(rec, target)), rec.steps, StepCompensated, ByCompensation, now);
    if CompensateSources(rec, target, now).Ok? {
      AppendsNotLost(CompensateSources(rec, target, now).value, Compensating, Compensated, CompensationPlan, now);
    }
  }

  lemma SuccessNotLost(rec: PlanRec, task: TaskRow, id: StepId, result: Option<string>, digest: Option<Digest>, now: int)
    requires id in rec.attempts
    ensures NotLost(FinishSuccess(rec, task, id, result, digest, now))
  {
    hide EndStep, CompleteCompensation, AppendPlan, StepsWhere;
    var key := FinishSucceeded(id, rec.attempts[id]);
    EndNotLost(rec, id, StepSucceeded, key, CheckpointSucceeded, digest, now);
    var r := EndStep(rec, id, StepSucceeded, key, CheckpointSucceeded, digest, now);
    if r.Ok? {
      CompensationNotLost(r.value, task, id, result, now);
      AppendsNotLost(r.value, Running, Succeeded, FinishPlanSucceeded, now);
    }
  }

  lemma FailureNotLost(rec: PlanRec, task: TaskRow, id: StepId, max: nat, policy: Policy, digest: Option<Digest>, now: int)
    requires id in rec.attempts
    ensures NotLost(FinishFailure(rec, task, id, max, policy, digest, now))
  {
    hide EndStep, MarkUnknown, AppendPlan, AppendStep, RetryDelay;
    var attempts := rec.attempts[id];
    EndNotLost(rec, id, StepFailed, FinishFailed(id, attempts), CheckpointFailed, digest, now);
    var r := EndStep(rec, id, StepFailed, FinishFailed(id, attempts), CheckpointFailed, digest, now);
    if r.Ok? {
      MarkNotLost(r.value, Some(id), digest, now);
      StepsNotLost(r.value, id, StepFailed, StepReady, RetryReady(id, attempts), now);
      AppendsNotLost(r.value, Running, Failed, FinishPlanFailed, now);
    }
  }

  lemma PlannedNotLost(rec: PlanRec, task: TaskRow, result: Option<string>, failed: bool, policy: Policy, ctx: ClaimContext, now: int)
    ensures NotLost(FinishPlanned(rec, task, result, failed, policy, ctx, now))
  {
    hide PostStepOk, MarkUnknown, FinishSuccess, FinishFailure, ValidStructure, DigestOk;
    if task.planStep.Some? && task.planStep.value in rec.attempts {
      var id := task.planStep.value;
      MarkNotLost(rec, Some(id), ctx.stateDigest, now);
      SuccessNotLost(rec, task, id, result, ctx.stateDigest, now);
      if FindStep(rec.spec.steps, id).Some? {
        FailureNotLost(rec, task, id, FindStep(rec.spec.steps, id).value.maxAttempts, policy, ctx.stateDigest, now);
      }
    }
  }

  /** A finish of a leased task is refused for its lease exactly when the token is another one or the
      lease is over. */
  lemma LostIff(st: Store, id: TaskId, token: nat, until: int, given: nat, result: Option<string>, failed: bool,
                policy: Policy, ctx: ClaimContext, at: int)
    requires id in st.tasks && st.tasks[id].leaseToken == Some(token) && st.tasks[id].leaseUntil == Some(until)
    requires st.tasks[id].status.IsLeased()
    ensures Finish(st, id, st.tasks[id].tenant, given, result, failed, policy, ctx, at) == Err(LeaseLost)
       <==> given != token || until <= at
  {
    hide FinishPlanned, FinishDirect;
    if st.tasks[id].plan.Some? && st.tasks[id].plan.value.planId in st.plans {
      PlannedNotLost(st.plans[st.tasks[id].plan.value.planId], st.tasks[id], result, failed, policy, ctx, at);
    }
  }

  /** A recovery may list a leased task only once its lease is over; and then it does, unless it is full. */
  lemma ListedIff(st: Store, id: TaskId, until: int, order: seq<TaskId>, at: int)
    requires id in st.tasks && st.tasks[id].leaseUntil == Some(until) && st.tasks[id].status.IsLeased()
    requires IsRecoveryQuery(st, order, at)
    ensures at < until ==> id !in order
    ensures until <= at && |order| < 128 ==> id in order
  {
  }

  /** What the lease of a claimed task is worth at any instant, while no operation has touched the task:
      before its end the issued token finishes and no recovery takes the task, and from its end on it is
      the other way round. */
  lemma RunLease(stores: seq<Store>, events: seq<Event>, n: nat, m: nat, id: TaskId, given: nat, result: Option<string>,
                 failed: bool, policy: Policy, ctx: ClaimContext, order: seq<TaskId>, at: int)
    requires IsRun(stores, events) && n < m < |stores| && n < |events| && Claims(stores[n], events[n], id)
    requires id in stores[n + 1].tasks && id in stores[m].tasks && stores[m].tasks[id] == stores[n + 1].tasks[id]
    ensures var until := events[n].now + events[n].op.leaseFor;
            && (Finish(stores[m], id, stores[m].tasks[id].tenant, given, result, failed, policy, ctx, at) == Err(LeaseLost)
                <==> given != stores[n].nextToken || until <= at)
            && (IsRecoveryQuery(stores[m], order, at) ==>
                  && (at < until ==> id !in order)
                  && (until <= at && |order| < 128 ==> id in order))
  {
    hide IsRun, Claims, Finish, IsRecoveryQuery;
    ClaimLeases(stores, events, n, id);
    var until := events[n].now + events[n].op.leaseFor;
    LostIff(stores[m], id, stores[n].nextToken, until, given, result, failed, policy, ctx, at);
    if IsRecoveryQuery(stores[m], order, at) {
      ListedIff(stores[m], id, until, order, at);
    }
  }

  // ----- nobody else takes a leased task -----

  /** The operation is the holder's finish, a cancellation of the task, or a resolution of its plan. */
  predicate MayTouch(e: Event, id: TaskId, t: TaskRow) {
    match e.op
    case OpFinish(task, _, token, _, _, _, _) => task == id && t.leaseToken == Some(token)
    case OpCancel(task, _) => task == id
    case OpResolve(_, plan, _, _, _) => t.plan.Some? && t.plan.value.planId == plan
    case _ => false
  }

  /** Before the end of its lease any other operation leaves a leased task as it is. */
  lemma LeaseHolds(st: Store, e: Event, id: TaskId)
    requires StoreOk(st) && Governed(st, e) && id in st.tasks && st.tasks[id].status.IsLeased()
    requires st.tasks[id].leaseUntil.Some? && e.now < st.tasks[id].leaseUntil.value && !MayTouch(e, id, st.tasks[id])
    ensures id in Apply(st, e).tasks && Apply(st, e).tasks[id] == st.tasks[id]
  {
    hide StoreOk, Submit, ClaimFrom, Finish, RequestCancel, RecoverAll, ResolvePlan, Framed, SavePlan, ApprovePlanOp, ResumeWriteOp;
    if Attempt(st, e).Ok? {
      match e.op {
        case OpSave(_) => OthersLeaveTasks(st, e);
        case OpApprove(_, _, _) => OthersLeaveTasks(st, e);
        case OpResumeWrite(_, _) => OthersLeaveTasks(st, e);
        case OpSubmit(s, principal) => SubmitLeaves(st, s, principal, e.now, id);
        case OpClaim(order, ctx, leaseFor) => ClaimLeaves(st, order, ctx, e.now, e.now + leaseFor, id);
        case OpFinish(task, tenant, token, result, failed, policy, ctx) =>
          FinishFramed(st, task, tenant, token, result, failed, policy, ctx, e.now);
          FinishLeaves(st, e, id);
        case OpCancel(task, tenant) => CancelLeaves(st, task, tenant, e.now, id);
        case OpRecover(order) => RecoverFramed(st, order, e.now);
        case OpResolve(principal, p, decision, key, evidence) =>
          ResolveLeaves(st, principal, p, decision, key, evidence, e.now, id);
      }
    }
  }

  lemma OthersLeaveTasks(st: Store, e: Event)
    requires Governed(st, e) && Attempt(st, e).Ok? && (e.op.OpSave? || e.op.OpApprove? || e.op.OpResumeWrite?)
    ensures Apply(st, e).tasks == st.tasks
  {
    hide Approve, ResumeWrite, ValidStructure, NewPlan, FreshRec;
  }

  lemma SubmitLeaves(st: Store, s: Submission, principal: Principal, now: int, id: TaskId)
    requires Submit(st, s, principal, now).Ok? && id in st.tasks
    ensures var after := Submit(st, s, principal, now).value.0;
            id in after.tasks && after.tasks[id] == st.tasks[id]
  {
    SubmitShape(st, s, principal, now);
    hide Submit, Admit, WindowStart, SubmissionOk, TasksWithKey;
  }

  lemma {:induction false} ClaimLeaves(st: Store, order: seq<TaskId>, ctx: ClaimContext, now: int, until: int, id: TaskId)
    requires (forall t :: t in order ==> t in st.tasks && st.tasks[t].status == TQueued)
    requires ClaimFrom(st, order, ctx, now, until).Ok? && id in st.tasks && st.tasks[id].status.IsLeased()
    ensures var after := ClaimFrom(st, order, ctx, now, until).value.0;
            id in after.tasks && after.tasks[id] == st.tasks[id]
  {
    hide PrepareClaim;
    if order != [] {
      assert order[0] in order;
      assert forall t :: t in order[1..] ==> t in order;
      var task := st.tasks[order[0]];
      if task.plan.Some? && PrepareClaim(st.plans[task.plan.value.planId], task, task.plan.value,
                                         ctx.(granted := task.capabilities), now).value.None? {
        ClaimLeaves(st, order[1..], ctx, now, until, id);
      }
    }
  }

  lemma FinishLeaves(st: Store, e: Event, id: TaskId)
    requires StoreOk(st) && Governed(st, e) && e.op.OpFinish? && Attempt(st, e).Ok? && id in st.tasks && st.tasks[id].status.IsLeased()
    requires !MayTouch(e, id, st.tasks[id])
    ensures id in Apply(st, e).tasks && Apply(st, e).tasks[id] == st.tasks[id]
  {
    hide StoreOk, Finish, Framed;
    FinishFramed(st, e.op.task, e.op.tenant, e.op.token, e.op.result, e.op.failed, e.op.policy, e.op.ctx, e.now);
    FramedKeys(st, Apply(st, e));
  }

  lemma CancelLeaves(st: Store, task: TaskId, tenant: TenantId, now: int, id: TaskId)
    requires RequestCancel(st, task, tenant, now).Ok? && id in st.tasks && id != task
    ensures var after := RequestCancel(st, task, tenant, now).value;
            id in after.tasks && after.tasks[id] == st.tasks[id]
  {
    hide CancelPlanned, CancelledTask;
  }

  lemma ResolveLeaves(st: Store, principal: Principal, p: PlanId, decision: ResolutionDecision, key: Key, evidence: Option<Digest>,
                      now: int, id: TaskId)
    requires StoreOk(st) && ResolvePlan(st, principal, p, decision, key, evidence, now).Ok? && id in st.tasks
    requires st.tasks[id].plan.Some? ==> st.tasks[id].plan.value.planId != p
    ensures var after := ResolvePlan(st, principal, p, decision, key, evidence, now).value.0;
            id in after.tasks && after.tasks[id] == st.tasks[id]
  {
    hide StoreOk, Resolve;
    PlanFacts(st, p);
    var rec := st.plans[p];
    ResolvedTaskRow(rec, BoundTask(st, rec), principal, decision, key, evidence, now);
    var (_, t, _) := Resolve(rec, BoundTask(st, rec), principal, decision, key, evidence, now).value;
    if t.Some? {
      assert BoundTask(st, rec) == Some(st.tasks[rec.spec.taskId]);
    }
  }

  /** In every run, from a claim until the end of its lease, nothing but the holder's finish, a
      cancellation or an Administrator's resolution touches the task. */
  lemma {:induction false} RunLeaseIsExclusive(stores: seq<Store>, events: seq<Event>, n: nat, m: nat, id: TaskId)
    requires IsRun(stores, events) && n < m < |stores| && m <= |events| && Claims(stores[n], events[n], id) && id in stores[n + 1].tasks
    requires forall j :: n < j < m ==>
               && events[j].now < events[n].now + events[n].op.leaseFor
               && !MayTouch(events[j], id, stores[n + 1].tasks[id])
    ensures id in stores[m].tasks && stores[m].tasks[id] == stores[n + 1].tasks[id]
  {
    hide IsRun, Claims, Apply, Governed, StoreOk;
    if n + 1 < m {
      RunLeaseIsExclusive(stores, events, n, m - 1, id);
      ClaimLeases(stores, events, n, id);
      RunStep(stores, events, m - 1);
      LeaseHolds(stores[m - 1], events[m - 1], id);
    }
  }
}
