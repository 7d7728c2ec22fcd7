/** Attempts of direct tasks over whole runs. */
module DirectAttempts {
  import opened Base
  import opened PlanCore
  import opened TransitionLog
  import opened PlanTransactions
  import opened QueueModel
  import opened GovernedRuns
  import opened TaskFrames
  import opened LeaseFencing

  /** An expired lease of the task was recovered and the task put back in the queue. */
  predicate Requeued(st: Store, e: Event, after: Store, t: TaskId) {
    e.op.OpRecover? && t in st.tasks && t in after.tasks
    && st.tasks[t].status != TQueued && after.tasks[t].status == TQueued
  }

  function Recoveries(stores: seq<Store>, events: seq<Event>, n: nat, t: TaskId): nat
    requires |stores| == |events| + 1 && n < |stores|
  {
    if n == 0 then 0 else
      Recoveries(stores, events, n - 1, t) + (if Requeued(stores[n - 1], events[n - 1], stores[n], t) then 1 else 0)
  }

  lemma RecoveriesStep(stores: seq<Store>, events: seq<Event>, n: nat, t: TaskId)
    requires |stores| == |events| + 1 && 0 < n < |stores|
    ensures Recoveries(stores, events, n, t)
         == Recoveries(stores, events, n - 1, t) + (if Requeued(stores[n - 1], events[n - 1], stores[n], t) then 1 else 0)
  {
  }

  /** Claims made, and the one a queued task is waiting for. */
  function Spent(t: TaskRow): nat {
    t.attempts + (if t.status == TQueued then 1 else 0)
  }

  /** Only a retry within the limit or a recovery puts a direct task back in the queue. */
  ghost predicate Returns(st: Store, e: Event, after: Store, t: TaskId)
    requires t in st.tasks && t in after.tasks
  {
    after.tasks[t].status == TQueued && st.tasks[t].status != TQueued ==>
      Requeued(st, e, after, t) || st.tasks[t].attempts < st.tasks[t].maxAttempts
  }

  lemma {:induction false} ClaimReturns(st: Store, order: seq<TaskId>, ctx: ClaimContext, now: int, until: int, t: TaskId)
    requires (forall o :: o in order ==> o in st.tasks) && ClaimFrom(st, order, ctx, now, until).Ok?
    requires t in st.tasks && st.tasks[t].status != TQueued
    ensures var after := ClaimFrom(st, order, ctx, now, until).value.0;
            t in after.tasks && after.tasks[t].status != TQueued
  {
    hide PrepareClaim;
    if order != [] {
      assert forall o :: o in order[1..] ==> o in order;
      var task := st.tasks[order[0]];
      if task.plan.Some? && task.plan.value.planId in st.plans
        && PrepareClaim(st.plans[task.plan.value.planId], task, task.plan.value, ctx.(granted := task.capabilities), now) == Ok(None)
      {
        ClaimReturns(st, order[1..], ctx, now, until, t);
      }
    }
  }

  lemma FinishReturns(st: Store, e: Event, t: TaskId)
    requires StoreOk(st) && Governed(st, e) && e.op.OpFinish? && Attempt(st, e).Ok?
    requires t in st.tasks && st.tasks[t].plan.None?
    ensures t in Apply(st, e).tasks && Returns(st, e, Apply(st, e), t)
  {
    hide StoreOk, FinishPlanned, RetryDelay, Finish, Framed;
    FinishFramed(st, e.op.task, e.op.tenant, e.op.token, e.op.result, e.op.failed, e.op.policy, e.op.ctx, e.now);
    FramedKeys(st, Apply(st, e));
    if t == e.op.task {
      FinishDirectReturns(st, e);
    }
  }

  lemma FinishDirectReturns(st: Store, e: Event)
    requires Governed(st, e) && e.op.OpFinish? && Attempt(st, e).Ok?
    requires e.op.task in st.tasks && st.tasks[e.op.task].plan.None? && e.op.task in Apply(st, e).tasks
    ensures Returns(st, e, Apply(st, e), e.op.task)
  {
    hide FinishPlanned, RetryDelay;
  }

  lemma ResolveReturns(st: Store, e: Event, t: TaskId)
    requires Governed(st, e) && e.op.OpResolve? && Attempt(st, e).Ok? && t in st.tasks && st.tasks[t].plan.None?
    ensures t in Apply(st, e).tasks && Apply(st, e).tasks[t] == st.tasks[t]
  {
    var rec := st.plans[e.op.plan];
    hide Resolve;
    assert t == rec.spec.taskId ==> BoundTask(st, rec) == None;
    ResolvedNothing(rec, e.op.principal, e.op.decision, e.op.key, e.op.evidence, e.now);
  }

  /** Without a bound task a resolution writes no task row. */
  lemma ResolvedNothing(rec: PlanRec, principal: Principal, decision: ResolutionDecision, key: Key,
                        evidence: Option<Digest>, now: int)
    ensures var r := Resolve(rec, None, principal, decision, key, evidence, now);
            r.Ok? ==> r.value.1 == None
  {
    hide ResolveWith, Loadable;
  }

  /** Operations that write no direct task row, or leave the queue alone. */
  lemma QuietReturns(st: Store, e: Event, t: TaskId)
    requires StoreOk(st) && Governed(st, e) && t in st.tasks && st.tasks[t].plan.None? && Attempt(st, e).Ok?
    requires e.op.OpSave? || e.op.OpApprove? || e.op.OpCancel? || e.op.OpResumeWrite?
    ensures t in Apply(st, e).tasks && Returns(st, e, Apply(st, e), t)
  {
    hide StoreOk, Approve, ResumeWrite, CancelPlanned, ValidStructure, NewPlan, FreshRec;
  }

  lemma SubmitReturns(st: Store, e: Event, t: TaskId)
    requires Governed(st, e) && e.op.OpSubmit? && Attempt(st, e).Ok? && t in st.tasks
    ensures t in Apply(st, e).tasks && Apply(st, e).tasks[t] == st.tasks[t]
  {
    SubmitShape(st, e.op.submission, e.op.principal, e.now);
    hide Submit, Admit, WindowStart, SubmissionOk, TasksWithKey;
  }

  lemma StepReturns(st: Store, e: Event, t: TaskId)
    requires StoreOk(st) && Governed(st, e) && t in st.tasks && st.tasks[t].plan.None?
    ensures t in Apply(st, e).tasks && Returns(st, e, Apply(st, e), t)
  {
    hide StoreOk, Submit, ClaimFrom, Finish, RequestCancel, ResolvePlan, Approve, ResumeWrite, RecoverAll, SavePlan, Framed;
    if Attempt(st, e).Ok? {
      match e.op {
        case OpSubmit(_, _) => SubmitReturns(st, e, t);
        case OpClaim(order, ctx, leaseFor) =>
          ClaimFramed(st, order, ctx, e.now, e.now + leaseFor);
          FramedKeys(st, Apply(st, e));
          if st.tasks[t].status != TQueued { ClaimReturns(st, order, ctx, e.now, e.now + leaseFor, t); }
        case OpFinish(_, _, _, _, _, _, _) => FinishReturns(st, e, t);
        case OpRecover(order) =>
          StepFramed(st, e);
          FramedKeys(st, Apply(st, e));
        case OpResolve(_, _, _, _, _) => ResolveReturns(st, e, t);
        case _ => QuietReturns(st, e, t);
      }
    }
  }

  /** A direct task is claimed at most `maxAttempts` times plus once per recovery of its lease; while it
      waits in the queue one claim of that allowance is unspent. */
  lemma {:induction false} DirectAttemptBound(stores: seq<Store>, events: seq<Event>, n: nat, t: TaskId)
    requires IsRun(stores, events) && n < |stores| && t in stores[n].tasks && stores[n].tasks[t].plan.None?
    ensures |stores| == |events| + 1
    ensures var task := stores[n].tasks[t];
            task.attempts <= Spent(task) <= task.maxAttempts + Recoveries(stores, events, n, t)
  {
    hide IsRun, StoreOk, Apply, Governed, Returns, TaskMoved, Requeued, Recoveries;
    RunLength(stores, events);
    if n == 0 {
      EmptyAtFirst(stores, events);
    } else {
      RecoveriesStep(stores, events, n, t);
      RunStep(stores, events, n - 1);
      var before, after := stores[n - 1], stores[n];
      if t in before.tasks {
        Moved(before, events[n - 1], t);
        DirectAttemptBound(stores, events, n - 1, t);
        StepReturns(before, events[n - 1], t);
        ReturnBound(before, events[n - 1], after, t, Recoveries(stores, events, n - 1, t));
      } else {
        BornQueued(before, events[n - 1], t);
      }
    }
  }

  lemma Moved(st: Store, e: Event, t: TaskId)
    requires StoreOk(st) && Governed(st, e) && t in st.tasks
    ensures t in Apply(st, e).tasks && TaskMoved(st.tasks[t], Apply(st, e).tasks[t], st.nextToken, Apply(st, e).nextToken)
    ensures Apply(st, e).tasks[t].plan == st.tasks[t].plan
  {
    StepFramed(st, e);
    hide StoreOk, Apply, Governed, Framed;
  }

  lemma EmptyAtFirst(stores: seq<Store>, events: seq<Event>)
    requires IsRun(stores, events)
    ensures stores[0].tasks == map[]
  {
    hide IsStep;
  }

  lemma ReturnBound(st: Store, e: Event, after: Store, t: TaskId, spare: nat)
    requires t in st.tasks && t in after.tasks && Returns(st, e, after, t)
    requires TaskMoved(st.tasks[t], after.tasks[t], st.nextToken, after.nextToken)
    requires Spent(st.tasks[t]) <= st.tasks[t].maxAttempts + spare
    ensures Spent(after.tasks[t]) <= after.tasks[t].maxAttempts + spare + (if Requeued(st, e, after, t) then 1 else 0)
  {
  }

  lemma BornQueued(st: Store, e: Event, t: TaskId)
    requires StoreOk(st) && Governed(st, e) && t !in st.tasks && t in Apply(st, e).tasks
    ensures Apply(st, e).tasks[t].attempts == 0 && 1 <= Apply(st, e).tasks[t].maxAttempts
  {
    hide StoreOk, Submit, Apply, Governed;
    if e.op.OpSubmit? {
      AppliedSubmission(st, e);
      NewIsQueued(st, e.op.submission, e.op.principal, e.now, t);
    } else {
      StepFramed(st, e);
    }
  }

  lemma NewIsQueued(st: Store, s: Submission, principal: Principal, now: int, t: TaskId)
    requires Submit(st, s, principal, now).Ok? && t !in st.tasks && t in Submit(st, s, principal, now).value.0.tasks
    ensures var row := Submit(st, s, principal, now).value.0.tasks[t];
            row.attempts == 0 && 1 <= row.maxAttempts
  {
    SubmitShape(st, s, principal, now);
    hide Submit, Admit, WindowStart, TasksWithKey;
  }
}
