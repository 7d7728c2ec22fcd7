/** Starts and ends of steps over whole runs: what held when a step started, and what a worker reported
    when it ended. */
module StepRuns {
  import opened Base
  import opened PlanCore
  import opened TransitionLog
  import opened PlanTransactions
  import opened Journal
  import opened PlanInvariants
  import opened QueueModel
  import opened GovernedRuns
  import opened Authority
  import opened LeaseFencing
  import opened RunLaws
  import opened Approvals
  import opened Conditions
  import opened RowConditions
  import opened ClaimMeaning
  import opened FinishMeaning
  import opened Quotas
  import opened Leases

  // ----- starts -----

  /** The claim of task `t` started the step, which might start then. */
  ghost predicate StartedIn(st: Store, e: Event, p: PlanId, t: TaskId, id: StepId) {
    && p in st.plans && t in st.tasks && e.op.OpClaim?
    && st.tasks[t].plan.Some? && st.tasks[t].plan.value.planId == p
    && WithinLimits(st.plans[p].spec)
    && exists s :: s in st.plans[p].spec.steps && s.id == id && MayStart(st.plans[p], st.tasks[t], s, e.op.ctx, e.now)
  }

  lemma ClaimStarted(st: Store, e: Event, p: PlanId, id: StepId) returns (t: TaskId)
    requires StoreOk(st) && Governed(st, e) && e.op.OpClaim? && p in st.plans && p in Apply(st, e).plans
    requires id in st.plans[p].attempts && id in Apply(st, e).plans[p].attempts
    requires Apply(st, e).plans[p].attempts[id] != st.plans[p].attempts[id]
    ensures StartedIn(st, e, p, t, id)
  {
    hide StoreOk, Claim, Apply, Idle, Takes, Precedes, Eligible;
    ClaimApplied(st, e);
    ClaimMeans(st, e.op.order, e.op.ctx, e.now, e.op.leaseFor);
    t := Claim(st, e.op.order, e.op.ctx, e.now, e.op.leaseFor).value.1.value;
    TakenStarted(st, Apply(st, e), t, e.op.ctx, e.now, e.now + e.op.leaseFor, p, id);
  }

  lemma TakenStarted(st: Store, after: Store, t: TaskId, ctx: ClaimContext, now: int, until: int, p: PlanId, id: StepId)
    requires t in st.tasks && Takes(st, after, t, ctx, now, until) && p in st.plans && p in after.plans
    requires id in st.plans[p].attempts && id in after.plans[p].attempts && after.plans[p].attempts[id] != st.plans[p].attempts[id]
    ensures st.tasks[t].plan.Some? && st.tasks[t].plan.value.planId == p
    ensures WithinLimits(st.plans[p].spec)
    ensures exists s :: s in st.plans[p].spec.steps && s.id == id && MayStart(st.plans[p], st.tasks[t], s, ctx, now)
  {
    hide WithinLimits, MayStart, Approves, PlanNeedsSomebody;
  }

  /** Whenever a step has started, then at the claim that started it the plan was within the limits, its
      dependencies had succeeded, and each of its preconditions held of the rows and of the task. */
  lemma RunStartsMeet(stores: seq<Store>, events: seq<Event>, n: nat, p: PlanId, k: nat, id: StepId)
    returns (at: nat, t: TaskId)
    requires IsRun(stores, events) && n < |stores| && p in stores[n].plans && k < |stores[n].plans[p].log|
    requires stores[n].plans[p].log[k].body.MovesStep(id, StepReady, StepRunning)
    ensures at < n && at < |events| && p in stores[at].plans && p in stores[at + 1].plans
    ensures |stores[at].plans[p].log| <= k < |stores[at + 1].plans[p].log|
    ensures StartedIn(stores[at], events[at], p, t, id) && stores[at].plans[p].spec == stores[n].plans[p].spec
  {
    hide Apply, Governed, IsRun, Lawful, StartedIn, StoreOk;
    at := StartedByClaim(stores, events, n, p, k, id);
    PlanOfRun(stores, events, n, p);
    StartedIsStep(Ids(stores[n].plans[p].spec.steps), stores[n].plans[p].log, k, id);
    PlanOfRun(stores, events, at, p);
    PlanOfRun(stores, events, at + 1, p);
    AppendOnly(stores, events, at, at + 1, p);
    AppendOnly(stores, events, at + 1, n, p);
    assert stores[at + 1].plans[p].log[k] == stores[n].plans[p].log[k];
    StartsGrow(stores[at].plans[p].log, stores[at + 1].plans[p].log, k, id);
    RunKeeps(stores, events, at);
    t := ClaimStarted(stores[at], events[at], p, id);
  }

  /** In every run a step that needs a capability starts only for a task that holds it, and only a task
      submitted by an Administrator holds any. */
  lemma RunCapabilities(stores: seq<Store>, events: seq<Event>, n: nat, p: PlanId, k: nat, s: PlanStep, c: Capability)
    returns (at: nat, t: TaskId, i: nat)
    requires IsRun(stores, events) && n < |stores| && p in stores[n].plans && k < |stores[n].plans[p].log|
    requires s in stores[n].plans[p].spec.steps && CapabilityGranted(c) in s.preconditions
    requires stores[n].plans[p].log[k].body.MovesStep(s.id, StepReady, StepRunning)
    ensures i < at < n && at < |events| && events[at].op.OpClaim? && t in stores[at].tasks && c in stores[at].tasks[t].capabilities
    ensures stores[at].tasks[t].plan.Some? && stores[at].tasks[t].plan.value.planId == p
    ensures events[i].op.OpSubmit? && events[i].op.submission.taskId == t && events[i].op.principal.role == Administrator
  {
    hide IsRun, MayStart, WithinLimits, Lawful, Adds, SameIdentity;
    at, t := RunStartsMeet(stores, events, n, p, k, s.id);
    PlanOfRun(stores, events, n, p);
    var o :| o in stores[at].plans[p].spec.steps && o.id == s.id
      && MayStart(stores[at].plans[p], stores[at].tasks[t], o, events[at].op.ctx, events[at].now);
    SameIdSameStep(stores[n].plans[p].spec.steps, s, o);
    NeedsCapability(stores[at].plans[p], stores[at].tasks[t], s, events[at].op.ctx, events[at].now, c);
    var day;
    i, day := TaskOrigin(stores, events, at, t);
    OnlyAdministratorsHold(stores[i], events[i], stores[i + 1], t, day, stores[at].tasks[t], c);
  }

  lemma NeedsCapability(rec: PlanRec, task: TaskRow, s: PlanStep, ctx: ClaimContext, now: int, c: Capability)
    requires MayStart(rec, task, s, ctx, now) && CapabilityGranted(c) in s.preconditions
    ensures c in task.capabilities
  {
    hide Approves;
    assert Met(rec, task, None, CapabilityGranted(c), ctx, now);
  }

  lemma OnlyAdministratorsHold(st: Store, e: Event, after: Store, id: TaskId, day: int, t: TaskRow, c: Capability)
    requires Adds(st, e, after, id, day) && SameIdentity(after.tasks[id], t) && c in t.capabilities
    ensures e.op.OpSubmit? && e.op.submission.taskId == id && e.op.principal.role == Administrator
  {
    hide Acceptable, UnderQuota;
  }

  // ----- ends -----

  lemma {:induction false} FirstStart(log: seq<LogRow>, id: StepId) returns (k: nat)
    requires 1 <= Starts(log, id)
    ensures k < |log| && log[k].body.MovesStep(id, StepReady, StepRunning)
  {
    var n := |log| - 1;
    if log[n].body.MovesStep(id, StepReady, StepRunning) {
      k := n;
    } else {
      k := FirstStart(log[..n], id);
    }
  }

  /** A plan with a running step is within the limits: the claim looked. */
  lemma RunningIsWithinLimits(stores: seq<Store>, events: seq<Event>, n: nat, p: PlanId, id: StepId)
    requires IsRun(stores, events) && n < |stores| && p in stores[n].plans
    requires id in stores[n].plans[p].steps && stores[n].plans[p].steps[id] == StepRunning
    ensures WithinLimits(stores[n].plans[p].spec)
  {
    hide IsRun, Lawful, RecOk, Joint, StoreOk, MayStart, WithinLimits;
    RunKeeps(stores, events, n);
    PlanFacts(stores[n], p);
    KnownStep(stores[n].plans[p], id);
    var k := FirstStart(stores[n].plans[p].log, id);
    var at, t := RunStartsMeet(stores, events, n, p, k, id);
  }

  /** Every postcondition declared for the step holds of the rows at its end. */
  ghost predicate Postconditions(rec: PlanRec, task: TaskRow, id: StepId, ctx: ClaimContext, now: int) {
    forall s, c :: s in rec.spec.steps && s.id == id && c in s.postconditions ==> Met(rec, task, Some(id), c, ctx, now)
  }

  /** The finish of task `id` wrote plan `p`. */
  lemma WritingFinish(st: Store, e: Event, p: PlanId) returns (step: StepId, outcome: FinishOutcome)
    requires StoreOk(st) && Governed(st, e) && e.op.OpFinish? && p in st.plans && p in Apply(st, e).plans
    requires Apply(st, e).plans[p] != st.plans[p]
    ensures e.op.task in st.tasks && HoldsLease(st.tasks[e.op.task], e.op.token, e.now)
    ensures st.tasks[e.op.task].plan.Some? && st.tasks[e.op.task].plan.value.planId == p && st.tasks[e.op.task].planStep == Some(step)
    ensures e.op.task in Apply(st, e).tasks
    ensures FinishPlanned(st.plans[p], st.tasks[e.op.task], e.op.result, e.op.failed, e.op.policy, e.op.ctx, e.now)
         == Ok((Apply(st, e).plans[p], Apply(st, e).tasks[e.op.task], outcome))
  {
    hide StoreOk, FinishPlanned, Finish, HoldsLease, Apply;
    FinishApplied(st, e);
    outcome := FinishWrote(st, e.op.task, e.op.tenant, e.op.token, e.op.result, e.op.failed, e.op.policy, e.op.ctx, e.now, p);
    HasStep(st.plans[p], st.tasks[e.op.task], e.op.result, e.op.failed, e.op.policy, e.op.ctx, e.now);
    step := st.tasks[e.op.task].planStep.value;
  }

  lemma FinishWrote(st: Store, id: TaskId, tenant: TenantId, token: nat, result: Option<string>, failed: bool, policy: Policy,
                    ctx: ClaimContext, now: int, p: PlanId) returns (outcome: FinishOutcome)
    requires Finish(st, id, tenant, token, result, failed, policy, ctx, now).Ok? && p in st.plans
    requires var after := Finish(st, id, tenant, token, result, failed, policy, ctx, now).value.0;
             p in after.plans && after.plans[p] != st.plans[p]
    ensures var after := Finish(st, id, tenant, token, result, failed, policy, ctx, now).value.0;
            && id in st.tasks && HoldsLease(st.tasks[id], token, now) && id in after.tasks
            && st.tasks[id].plan.Some? && st.tasks[id].plan.value.planId == p
            && FinishPlanned(st.plans[p], st.tasks[id], result, failed, policy, ctx, now)
               == Ok((after.plans[p], after.tasks[id], outcome))
  {
    hide FinishPlanned, FinishDirect;
    outcome := Finish(st, id, tenant, token, result, failed, policy, ctx, now).value.1;
    var task := st.tasks[id];
    var q := task.plan.value.planId;
    var (r, t, _) := FinishPlanned(st.plans[q], task, result, failed, policy, ctx, now).value;
    assert q == p;
  }

  lemma HasStep(rec: PlanRec, task: TaskRow, result: Option<string>, failed: bool, policy: Policy, ctx: ClaimContext, now: int)
    requires FinishPlanned(rec, task, result, failed, policy, ctx, now).Ok?
    ensures task.planStep.Some? && task.planStep.value in rec.steps
    ensures rec.steps[task.planStep.value] in {StepRunning, StepCancelRequested}
  {
    hide LoadPlan, PostStepOk, FinishCancelled, FinishSuccess, FinishFailure;
  }

  /** In every run a finish that writes a plan was made under the current token before the end of its
      lease. Unless the task had been cancelled, the step ends in success exactly when no failure was
      reported and each of its postconditions holds, with all that follows for plan and task. */
  lemma RunFinish(stores: seq<Store>, events: seq<Event>, n: nat, p: PlanId) returns (step: StepId, outcome: FinishOutcome)
    requires IsRun(stores, events) && n < |events| && n + 1 < |stores| && events[n].op.OpFinish?
    requires p in stores[n].plans && p in stores[n + 1].plans && stores[n + 1].plans[p] != stores[n].plans[p]
    ensures var op := events[n].op;
            && op.task in stores[n].tasks && op.task in stores[n + 1].tasks
            && HoldsLease(stores[n].tasks[op.task], op.token, events[n].now)
            && stores[n].tasks[op.task].plan.Some? && stores[n].tasks[op.task].plan.value.planId == p
            && stores[n].tasks[op.task].planStep == Some(step)
            && (stores[n].tasks[op.task].cancelRequested ==>
                  && NoSuccess(stores[n].plans[p].log, stores[n + 1].plans[p].log)
                  && Abandons(stores[n].plans[p], stores[n].tasks[op.task], step, op.ctx.stateDigest, events[n].now,
                              stores[n + 1].plans[p], stores[n + 1].tasks[op.task], outcome))
            && (!stores[n].tasks[op.task].cancelRequested ==>
                  && (Passes(stores[n].plans[p], stores[n].tasks[op.task], step, op.ctx, events[n].now)
                      <==> Postconditions(stores[n].plans[p], stores[n].tasks[op.task], step, op.ctx, events[n].now))
                  && Finishes(stores[n].plans[p], stores[n].tasks[op.task], step, op.result, op.failed, op.policy, op.ctx,
                              events[n].now, stores[n + 1].plans[p], stores[n + 1].tasks[op.task], outcome))
  {
    hide IsRun, Apply, Governed, StoreOk, RecOk, Joint, FinishPlanned, Finishes, WithinLimits, HoldsLease, Met, NoSuccess, Abandons;
    RunStep(stores, events, n);
    var e := events[n];
    step, outcome := WritingFinish(stores[n], e, p);
    var rec, task := stores[n].plans[p], stores[n].tasks[e.op.task];
    TaskFacts(stores[n], e.op.task);
    if task.cancelRequested {
      CancelledLogsNoSuccess(rec, task, e.op.result, e.op.failed, e.op.policy, e.op.ctx, e.now);
      CancelledFinishMeans(rec, task, e.op.result, e.op.failed, e.op.policy, e.op.ctx, e.now);
    } else {
      FinishMeans(rec, task, e.op.result, e.op.failed, e.op.policy, e.op.ctx, e.now);
      HasStep(rec, task, e.op.result, e.op.failed, e.op.policy, e.op.ctx, e.now);
      LeasedRuns(rec, task, step);
      RunningIsWithinLimits(stores, events, n, p, step);
    }
  }

  lemma LeasedRuns(rec: PlanRec, task: TaskRow, id: StepId)
    requires Joint(rec, Some(task)) && task.planStep == Some(id) && id in rec.steps
    requires rec.steps[id] in {StepRunning, StepCancelRequested}
    ensures rec.steps[id] == StepRunning
  {
  }

  lemma CancelledLogsNoSuccess(rec: PlanRec, task: TaskRow, result: Option<string>, failed: bool, policy: Policy,
                               ctx: ClaimContext, now: int)
    requires FinishPlanned(rec, task, result, failed, policy, ctx, now).Ok? && task.cancelRequested
    ensures NoSuccess(rec.log, FinishPlanned(rec, task, result, failed, policy, ctx, now).value.0.log)
  {
    SameRows(rec);
    hide LoadPlan, PostStepOk, MarkUnknown, FinishSuccess, FinishFailure;
    MarkUnknownGrows(rec, rec, Some(task.planStep.value), ctx.stateDigest, now);
  }

  /** In every run each success of a step was reported, without a failure, by the worker that held the
      current lease of the plan's task for this step, when all postconditions of the step held. */
  lemma RunSuccessWasReported(stores: seq<Store>, events: seq<Event>, n: nat, p: PlanId, k: nat, id: StepId) returns (at: nat)
    requires IsRun(stores, events) && n < |stores| && p in stores[n].plans && k < |stores[n].plans[p].log|
    requires stores[n].plans[p].log[k].body.MovesStep(id, StepRunning, StepSucceeded)
    ensures at < n && at < |events| && events[at].op.OpFinish? && !events[at].op.failed
    ensures p in stores[at].plans && p in stores[at + 1].plans
    ensures |stores[at].plans[p].log| == k < |stores[at + 1].plans[p].log|
    ensures var op := events[at].op;
            && op.task in stores[at].tasks && HoldsLease(stores[at].tasks[op.task], op.token, events[at].now)
            && stores[at].tasks[op.task].plan.Some? && stores[at].tasks[op.task].plan.value.planId == p
            && stores[at].tasks[op.task].planStep == Some(id) && !stores[at].tasks[op.task].cancelRequested
            && Postconditions(stores[at].plans[p], stores[at].tasks[op.task], id, op.ctx, events[at].now)
  {
    hide Apply, Governed, IsRun, Postconditions, HoldsLease, Finishes, Passes, Abandons;
    at := WrittenAt(stores, events, n, p, k);
    assert IsSuccess(stores[at + 1].plans[p].log[k].body);
    if events[at].op.OpResolve? {
      ResolutionGrew(stores[at], events[at], p);
    } else {
      StepGrew(stores[at], events[at], p);
    }
    var step, outcome := RunFinish(stores, events, at, p);
    var op := events[at].op;
    SuccessIsFirst(stores[at].plans[p], stores[at].tasks[op.task], step, op.result, op.failed, op.policy, op.ctx, events[at].now,
                   stores[at + 1].plans[p], stores[at + 1].tasks[op.task], outcome, k, id);
  }

  lemma SuccessIsFirst(rec: PlanRec, task: TaskRow, step: StepId, result: Option<string>, failed: bool, policy: Policy,
                       ctx: ClaimContext, now: int, r: PlanRec, t: TaskRow, outcome: FinishOutcome, k: nat, id: StepId)
    requires Finishes(rec, task, step, result, failed, policy, ctx, now, r, t, outcome)
    requires |rec.log| <= k < |r.log| && r.log[k].body.MovesStep(id, StepRunning, StepSucceeded)
    ensures k == |rec.log| && id == step && !failed && Passes(rec, task, step, ctx, now)
  {
    hide Passes, Succeeds, CompensationEnds, Retries, Fails;
    assert IsSuccess(r.log[k].body);
  }
}
