/** What one governed step may do to task rows and counters. */
module TaskFrames {
  import opened Base
  import opened PlanCore
  import opened TransitionLog
  import opened PlanTransactions
  import opened PlanInvariants
  import opened QueueModel
  import opened GovernedRuns

  /** The row keeps its identity; its token is dropped, kept or freshly issued; a finished direct task
      is frozen; attempts are counted by claims alone. */
  predicate TaskMoved(a: TaskRow, b: TaskRow, next: nat, next2: nat) {
    && SameIdentity(a, b)
    && (b.leaseToken == None || b.leaseToken == a.leaseToken || (b.leaseToken == Some(next) && next < next2))
    && (a.plan.None? && a.status.IsTerminal() ==> b == a)
    && (b.attempts == a.attempts || (b.attempts == a.attempts + 1 && a.status == TQueued && b.status == TRunning))
  }

  predicate TasksMoved(st: Store, after: Store) {
    && st.nextToken <= after.nextToken
    && after.limits == st.limits && after.sessions == st.sessions
    && (forall t :: t in st.tasks ==> t in after.tasks && TaskMoved(st.tasks[t], after.tasks[t], st.nextToken, after.nextToken))
    && (forall t :: t in after.tasks && t !in st.tasks ==> after.tasks[t].leaseToken == None)
  }

  /** Everything but a submission also keeps the set of tasks and the counters. */
  predicate Framed(st: Store, after: Store) {
    TasksMoved(st, after) && after.tasks.Keys == st.tasks.Keys && after.windows == st.windows
  }

  lemma OneFramed(st: Store, after: Store, id: TaskId)
    requires id in st.tasks && after.tasks.Keys == st.tasks.Keys && after.windows == st.windows
    requires after.limits == st.limits && after.sessions == st.sessions && st.nextToken <= after.nextToken
    requires forall t :: t in st.tasks && t != id ==> after.tasks[t] == st.tasks[t]
    requires TaskMoved(st.tasks[id], after.tasks[id], st.nextToken, after.nextToken)
    ensures Framed(st, after)
  {
  }

  lemma NothingFramed(st: Store, after: Store)
    requires after.tasks == st.tasks && after.windows == st.windows && after.limits == st.limits
    requires after.sessions == st.sessions && after.nextToken == st.nextToken
    ensures Framed(st, after)
  {
  }

  lemma {:induction false} ClaimFramed(st: Store, order: seq<TaskId>, ctx: ClaimContext, now: int, until: int)
    requires forall t :: t in order ==> t in st.tasks && st.tasks[t].status == TQueued
    requires ClaimFrom(st, order, ctx, now, until).Ok?
    ensures Framed(st, ClaimFrom(st, order, ctx, now, until).value.0)
  {
    hide PrepareClaim, Framed;
    var after := ClaimFrom(st, order, ctx, now, until).value.0;
    if order == [] {
      NothingFramed(st, after);
    } else {
      var id := order[0];
      var task := st.tasks[id];
      assert id in order;
      assert forall t :: t in order[1..] ==> t in order;
      if task.plan.None? {
        OneFramed(st, after, id);
      } else {
        var p := task.plan.value.planId;
        if PrepareClaim(st.plans[p], task, task.plan.value, ctx.(granted := task.capabilities), now).value.None? {
          ClaimFramed(st, order[1..], ctx, now, until);
        } else {
          OneFramed(st, after, id);
        }
      }
    }
  }

  lemma FinishFramed(st: Store, id: TaskId, tenant: TenantId, token: nat, result: Option<string>, failed: bool,
                     policy: Policy, ctx: ClaimContext, now: int)
    requires StoreOk(st) && Finish(st, id, tenant, token, result, failed, policy, ctx, now).Ok?
    ensures var after := Finish(st, id, tenant, token, result, failed, policy, ctx, now).value.0;
            && Framed(st, after) && after.nextToken == st.nextToken
            && (after != st ==> HoldsLease(st.tasks[id], token, now) && after.tasks[id].leaseToken == None)
            && (forall t :: t in st.tasks && t != id ==> after.tasks[t] == st.tasks[t])
  {
    hide StoreOk, FinishPlanned, FinishDirect, Framed, RecOk, Joint;
    var after := Finish(st, id, tenant, token, result, failed, policy, ctx, now).value.0;
    var task := st.tasks[id];
    TaskFacts(st, id);
    if task.status.IsTerminal() {
      NothingFramed(st, after);
    } else if task.plan.Some? {
      FinishPlannedTask(st.plans[task.plan.value.planId], task, result, failed, policy, ctx, now);
      OneFramed(st, after, id);
    } else {
      DirectFinished(task, result, failed, policy, now);
      DirectAttempts(task, result, failed, policy, now);
      OneFramed(st, after, id);
    }
  }

  lemma DirectAttempts(task: TaskRow, result: Option<string>, failed: bool, policy: Policy, now: int)
    ensures FinishDirect(task, result, failed, policy, now).0.attempts == task.attempts
  {
    hide RetryDelay;
  }

  lemma CancelFramed(st: Store, id: TaskId, tenant: TenantId, now: int)
    requires RequestCancel(st, id, tenant, now).Ok?
    ensures Framed(st, RequestCancel(st, id, tenant, now).value)
  {
    hide CancelPlanned, Framed;
    var after := RequestCancel(st, id, tenant, now).value;
    if st.tasks[id].status.IsTerminal() {
      NothingFramed(st, after);
    } else {
      OneFramed(st, after, id);
    }
  }

  lemma RecoverOneFramed(st: Store, id: TaskId, now: int)
    requires id in st.tasks && st.tasks[id].status.IsLeased() && RecoverOne(st, id, now).Ok?
    ensures Framed(st, RecoverOne(st, id, now).value) && RecoverOne(st, id, now).value.nextToken == st.nextToken
    ensures forall t :: t in st.tasks && t != id ==> RecoverOne(st, id, now).value.tasks[t] == st.tasks[t]
  {
    hide RecoverExpired, Framed;
    if st.tasks[id].plan.Some? {
      RecoveredTask(st.plans[st.tasks[id].plan.value.planId], st.tasks[id], now);
    }
    OneFramed(st, RecoverOne(st, id, now).value, id);
  }

  lemma {:induction false} RecoverFramed(st: Store, order: seq<TaskId>, now: int)
    requires Distinct(order) && RecoverAll.requires(st, order, now)
    requires forall t :: t in order ==> t in st.tasks && st.tasks[t].status.IsLeased()
    requires RecoverAll(st, order, now).Ok?
    ensures Framed(st, RecoverAll(st, order, now).value) && RecoverAll(st, order, now).value.nextToken == st.nextToken
    ensures forall t :: t in st.tasks && t !in order ==> RecoverAll(st, order, now).value.tasks[t] == st.tasks[t]
  {
    if order == [] {
      NothingFramed(st, st);
    } else {
      hide RecoverOne, TasksMoved;
      var n := |order| - 1;
      assert order == order[..n] + [order[n]];
      RecoverFramed(st, order[..n], now);
      var mid := RecoverAll(st, order[..n], now).value;
      RecoverOneFramed(mid, order[n], now);
      FramedOn(st, mid, RecoverAll(st, order, now).value, order[n]);
    }
  }

  lemma FramedOn(st: Store, mid: Store, after: Store, id: TaskId)
    requires Framed(st, mid) && mid.nextToken == st.nextToken == after.nextToken && Framed(mid, after)
    requires id in st.tasks && mid.tasks[id] == st.tasks[id]
    requires forall t :: t in st.tasks && t != id ==> after.tasks[t] == mid.tasks[t]
    ensures Framed(st, after)
  {
  }

  lemma ResolveFramed(st: Store, principal: Principal, p: PlanId, decision: ResolutionDecision, key: Key,
                      evidence: Option<Digest>, now: int)
    requires StoreOk(st) && ResolvePlan(st, principal, p, decision, key, evidence, now).Ok?
    ensures Framed(st, ResolvePlan(st, principal, p, decision, key, evidence, now).value.0)
  {
    hide StoreOk, Resolve, Framed;
    var rec := st.plans[p];
    var after := ResolvePlan(st, principal, p, decision, key, evidence, now).value.0;
    ResolvedTaskRow(rec, BoundTask(st, rec), principal, decision, key, evidence, now);
    var (_, t, _) := Resolve(rec, BoundTask(st, rec), principal, decision, key, evidence, now).value;
    if t.None? {
      NothingFramed(st, after);
    } else {
      OneFramed(st, after, rec.spec.taskId);
    }
  }

  lemma SubmitFramed(st: Store, s: Submission, principal: Principal, now: int)
    requires Submit(st, s, principal, now).Ok?
    ensures TasksMoved(st, Submit(st, s, principal, now).value.0)
  {
    SubmitShape(st, s, principal, now);
    hide Submit, Admit, WindowStart, SubmissionOk, TasksWithKey;
  }

  /** A governed step moves task rows only as `TaskMoved` allows. */
  lemma StepFramed(st: Store, e: Event)
    requires StoreOk(st) && Governed(st, e)
    ensures TasksMoved(st, Apply(st, e))
    ensures !e.op.OpSubmit? ==> Framed(st, Apply(st, e))
  {
    hide StoreOk, Submit, ClaimFrom, Finish, RequestCancel, RecoverAll, ResolvePlan, Framed, TasksMoved,
         Approve, ResumeWrite, ValidStructure, NewPlan, FreshRec;
    if Attempt(st, e).Err? {
      NothingFramed(st, st);
    } else {
      match e.op {
        case OpSave(input) => NothingFramed(st, Apply(st, e));
        case OpApprove(principal, a, key) => NothingFramed(st, Apply(st, e));
        case OpSubmit(s, principal) => SubmitFramed(st, s, principal, e.now);
        case OpClaim(order, ctx, leaseFor) => ClaimFramed(st, order, ctx, e.now, e.now + leaseFor);
        case OpFinish(id, tenant, token, result, failed, policy, ctx) =>
          FinishFramed(st, id, tenant, token, result, failed, policy, ctx, e.now);
        case OpCancel(id, tenant) => CancelFramed(st, id, tenant, e.now);
        case OpRecover(order) => RecoverFramed(st, order, e.now);
        case OpResolve(principal, p, decision, key, evidence) => ResolveFramed(st, principal, p, decision, key, evidence, e.now);
        case OpResumeWrite(p, view) => NothingFramed(st, Apply(st, e));
      }
    }
    FramedMoves(st, Apply(st, e));
  }

  lemma FramedMoves(st: Store, after: Store)
    ensures Framed(st, after) ==> TasksMoved(st, after)
  {
  }
}
