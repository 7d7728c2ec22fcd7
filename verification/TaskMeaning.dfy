/** What finishing, cancelling and losing a lease does to a task, said of its row alone. */
module TaskMeaning {
  import opened Base
  import opened PlanCore
  import opened TransitionLog
  import opened PlanTransactions
  import opened PlanInvariants
  import opened PlanPreservation
  import opened QueueModel
  import opened GovernedRuns
  import opened CancelKeys
  import opened RowConditions
  import opened FinishMeaning

  // ----- finish of a direct task -----

  /** A direct task that was cancelled ends cancelled. A finish that allows another attempt queues it again
      while attempts are left, after the backoff, even when no failure was reported. Otherwise it ends as
      reported, with the result. */
  predicate DirectEnds(task: TaskRow, result: Option<string>, failed: bool, policy: Policy, now: int, t: TaskRow,
                       outcome: FinishOutcome)
  {
    if task.cancelRequested || task.status == TCancelRequested then
      && t == task.(status := TCancelled, cancelRequested := true, leaseUntil := None, leaseToken := None, completedAt := Some(now))
      && outcome == FinishedCancelled
    else if policy.retryable && task.attempts < task.maxAttempts then
      && outcome.Requeued? && now <= outcome.nextAttemptAt
      && (1 <= task.attempts && DelaysOk(policy) ==>
            outcome.nextAttemptAt == now + Backoff(task.attempts, policy.baseDelay, policy.maxDelay))
      && t == task.(status := TQueued, leaseUntil := None, leaseToken := None, result := None, nextAttemptAt := outcome.nextAttemptAt)
    else
      && outcome == (if failed then FinishedFailed else FinishedSucceeded)
      && t == task.(status := if failed then TFailed else TSucceeded, leaseUntil := None, leaseToken := None, result := result,
                    completedAt := Some(now))
  }

  lemma DirectFinishMeans(task: TaskRow, result: Option<string>, failed: bool, policy: Policy, now: int)
    ensures var (t, outcome) := FinishDirect(task, result, failed, policy, now);
            DirectEnds(task, result, failed, policy, now, t, outcome)
  {
    hide RetryDelay, Backoff, DelaysOk;
    DelayIsNotNegative(task.attempts, policy);
    if 1 <= task.attempts {
      BackoffMeans(task.attempts, policy);
    }
  }

  lemma DelayIsNotNegative(attempts: nat, policy: Policy)
    ensures 0 <= RetryDelay(attempts, policy.baseDelay, policy.maxDelay)
  {
    hide SaturatingMul, Pow2;
  }

  /** In every run a finish that changes a direct task held its current lease and ended it so. */
  lemma RunDirectFinish(stores: seq<Store>, events: seq<Event>, n: nat) returns (outcome: FinishOutcome)
    requires IsRun(stores, events) && n < |events| && n + 1 < |stores| && events[n].op.OpFinish?
    requires events[n].op.task in stores[n].tasks && stores[n].tasks[events[n].op.task].plan.None? && stores[n + 1] != stores[n]
    ensures var op := events[n].op;
            && HoldsLease(stores[n].tasks[op.task], op.token, events[n].now)
            && op.task in stores[n + 1].tasks
            && stores[n + 1] == stores[n].(tasks := stores[n].tasks[op.task := stores[n + 1].tasks[op.task]])
            && DirectEnds(stores[n].tasks[op.task], op.result, op.failed, op.policy, events[n].now, stores[n + 1].tasks[op.task], outcome)
  {
    hide IsRun, StoreOk, Apply, HoldsLease, FinishDirect, DirectEnds, Governed;
    RunStep(stores, events, n);
    var op := events[n].op;
    FinishGoesThrough(stores[n], events[n]);
    outcome := Finish(stores[n], op.task, op.tenant, op.token, op.result, op.failed, op.policy, op.ctx, events[n].now).value.1;
    DirectFinishMeans(stores[n].tasks[op.task], op.result, op.failed, op.policy, events[n].now);
  }

  lemma FinishGoesThrough(st: Store, e: Event)
    requires Governed(st, e) && e.op.OpFinish? && Apply(st, e) != st
    ensures var r := Finish(st, e.op.task, e.op.tenant, e.op.token, e.op.result, e.op.failed, e.op.policy, e.op.ctx, e.now);
            r.Ok? && Apply(st, e) == r.value.0
  {
    hide Finish;
  }

  /** A finish that is not the holder's: a task of another tenant is not found, an ended task answers how it
      ended, and without the current lease the work is refused; the store stays as it is. */
  lemma OtherFinishes(st: Store, id: TaskId, tenant: TenantId, token: nat, result: Option<string>, failed: bool, policy: Policy,
                      ctx: ClaimContext, now: int)
    ensures var r := Finish(st, id, tenant, token, result, failed, policy, ctx, now);
            && (id !in st.tasks || st.tasks[id].tenant != tenant ==> r == Err(NotFound))
            && (id in st.tasks && st.tasks[id].tenant == tenant ==>
                  var t := st.tasks[id];
                  && (t.status == TSucceeded ==> r == Ok((st, FinishedSucceeded)))
                  && (t.status == TFailed ==> r == Ok((st, FinishedFailed)))
                  && (t.status == TCancelled ==> r == Ok((st, FinishedCancelled)))
                  && (t.status !in {TSucceeded, TFailed, TCancelled} ==>
                        t.leaseToken != Some(token) || t.leaseUntil.None? || t.leaseUntil.value <= now ==> r == Err(LeaseLost)))
  {
    hide FinishPlanned, FinishDirect;
  }

  // ----- cancellation -----

  /** A waiting task ends at once; a leased one is told to stop, and keeps its lease. */
  predicate IsCancelledRow(task: TaskRow, t: TaskRow, now: int) {
    if task.status == TQueued
    then t == task.(status := TCancelled, cancelRequested := true, completedAt := Some(now))
    else t == task.(status := TCancelRequested, cancelRequested := true, completedAt := None)
  }

  /** Cancelling goes through for an ended or a direct task of the tenant always, for a planned one when
      its plan allows it; an ended task stays as it is. */
  lemma CancellationMeans(st: Store, id: TaskId, tenant: TenantId, now: int)
    requires StoreOk(st) && id in st.tasks && st.tasks[id].tenant == tenant
    ensures var task := st.tasks[id];
            var r := RequestCancel(st, id, tenant, now);
            && (task.status in {TSucceeded, TFailed, TCancelled} ==> r == Ok(st))
            && (task.status !in {TSucceeded, TFailed, TCancelled} && task.plan.None? ==>
                  r.Ok? && id in r.value.tasks && IsCancelledRow(task, r.value.tasks[id], now)
                  && r.value == st.(tasks := st.tasks[id := r.value.tasks[id]]))
            && (task.status !in {TSucceeded, TFailed, TCancelled} && task.plan.Some? ==>
                  var p := task.plan.value.planId;
                  && p in st.plans && (r.Ok? <==> CancelPlanned(st.plans[p], task, now).Ok?)
                  && (r.Ok? ==>
                        && id in r.value.tasks && p in r.value.plans && IsCancelledRow(task, r.value.tasks[id], now)
                        && r.value == st.(plans := st.plans[p := r.value.plans[p]], tasks := st.tasks[id := r.value.tasks[id]])
                        && PlanCancelled(st.plans[p], task, r.value.plans[p])))
  {
    hide StoreOk, CancelPlanned, PlanCancelled;
    var task := st.tasks[id];
    TaskFacts(st, id);
    if task.plan.Some? && RequestCancel(st, id, tenant, now).Ok? && !task.status.IsTerminal() {
      PlanCancelledMeans(st.plans[task.plan.value.planId], task, now);
    }
  }

  /** With a waiting task the plan ends and its waiting steps with it; with a running one a running plan is
      told to stop; nothing else moves. */
  predicate PlanCancelled(rec: PlanRec, task: TaskRow, r: PlanRec) {
    && r == rec.(state := r.state, steps := r.steps, log := r.log)
    && if task.status == TQueued then
         && r.state == (if rec.state in {Approved, Running, CancelRequested} then Cancelled else rec.state)
         && r.steps == map id | id in rec.steps ::
              if rec.steps[id] in {StepPending, StepReady, StepAwaitingApproval} then StepCancelled else rec.steps[id]
       else
         && r.state == (if task.status == TRunning && rec.state == Running then CancelRequested else rec.state)
         && r.steps == rec.steps
  }

  lemma PlanCancelledMeans(rec: PlanRec, task: TaskRow, now: int)
    requires CancelPlanned(rec, task, now).Ok?
    ensures PlanCancelled(rec, task, CancelPlanned(rec, task, now).value)
  {
    hide LoadPlan, CancelQueued, CancelKeysFree, KeyUsed;
    CancelSucceedsIff(rec, task, now);
    if task.status == TQueued {
      assert forall id :: id in WaitingSteps(rec) <==> id in rec.steps && rec.steps[id] in {StepPending, StepReady, StepAwaitingApproval};
    }
  }

  // ----- expiry -----

  /** A direct task whose lease is over waits again, at once; if it was cancelled it has ended. */
  predicate DirectExpires(task: TaskRow, t: TaskRow, now: int) {
    if task.cancelRequested
    then t == task.(status := TCancelled, leaseUntil := None, leaseToken := None, completedAt := Some(now))
    else t == task.(status := TQueued, leaseUntil := None, leaseToken := None)
  }

  /** A planned one has failed, or ended cancelled, and its plan and leased step are unknown: nobody knows
      how far the worker got. */
  predicate PlannedExpires(rec: PlanRec, task: TaskRow, now: int, r: PlanRec, t: TaskRow) {
    && t == task.(status := if task.cancelRequested then TCancelled else TFailed, leaseUntil := None, leaseToken := None,
                  planStep := None, completedAt := Some(now))
    && r == rec.(state := r.state, steps := r.steps, log := r.log, checkpoints := rec.checkpoints
         + [Checkpoint(|rec.checkpoints| + 1, task.planStep, Recovery, CheckpointUnknown, None, now)])
    && r.state == Unknown && task.planStep.Some? && r.steps == rec.steps[task.planStep.value := StepUnknown]
  }

  lemma ExpiryMeans(rec: PlanRec, task: TaskRow, now: int)
    requires RecOk(rec) && Joint(rec, Some(task)) && task.status.IsLeased() && RecoverExpired(rec, task, now).Ok?
    ensures var (r, t) := RecoverExpired(rec, task, now).value;
            PlannedExpires(rec, task, now, r, t)
  {
    QuietStart(rec);
    NextNumber(rec);
    hide RecOk, LoadPlan, MarkUnknown, Quiet;
    MarkUnknownKeeps(rec, rec, task.planStep, None, now);
    MarkNotes(rec, task.planStep, None, now);
  }

  /** What a recovery leaves of one listed task. */
  predicate Expires(st: Store, after: Store, id: TaskId, now: int)
    requires id in st.tasks
  {
    var task := st.tasks[id];
    && id in after.tasks
    && if task.plan.None? then DirectExpires(task, after.tasks[id], now)
       else
         var p := task.plan.value.planId;
         p in st.plans && p in after.plans && PlannedExpires(st.plans[p], task, now, after.plans[p], after.tasks[id])
  }

  lemma RecoverOneMeans(st: Store, id: TaskId, now: int)
    requires StoreOk(st) && id in st.tasks && st.tasks[id].status.IsLeased() && RecoverOne(st, id, now).Ok?
    ensures Expires(st, RecoverOne(st, id, now).value, id, now)
    ensures forall p :: p in st.plans && (st.tasks[id].plan.Some? ==> st.tasks[id].plan.value.planId != p) ==>
              p in RecoverOne(st, id, now).value.plans && RecoverOne(st, id, now).value.plans[p] == st.plans[p]
  {
    hide StoreOk, RecoverExpired, PlannedExpires, RecOk, Joint;
    TaskFacts(st, id);
    if st.tasks[id].plan.Some? {
      ExpiryMeans(st.plans[st.tasks[id].plan.value.planId], st.tasks[id], now);
    }
  }

  /** Two tasks of a governed store work on two plans. */
  lemma PlansDiffer(st: Store, a: TaskId, b: TaskId)
    requires StoreOk(st) && a in st.tasks && b in st.tasks && a != b && st.tasks[a].plan.Some? && st.tasks[b].plan.Some?
    ensures st.tasks[a].plan.value.planId != st.tasks[b].plan.value.planId
  {
    hide StoreOk, RecOk, Joint;
    TaskFacts(st, a);
    TaskFacts(st, b);
  }

  lemma {:induction false} RecoverAllMeans(st: Store, order: seq<TaskId>, now: int)
    requires StoreOk(st) && Distinct(order) && (forall t :: t in order ==> t in st.tasks && st.tasks[t].status.IsLeased())
    requires RecoverAll(st, order, now).Ok?
    ensures forall id :: id in order ==> Expires(st, RecoverAll(st, order, now).value, id, now)
    ensures forall id :: id in st.tasks && id !in order ==>
              var after := RecoverAll(st, order, now).value;
              && id in after.tasks && after.tasks[id] == st.tasks[id]
              && (st.tasks[id].plan.Some? ==>
                    var p := st.tasks[id].plan.value.planId;
                    p in st.plans && p in after.plans && after.plans[p] == st.plans[p])
  {
    hide StoreOk, RecoverOne, Expires, TaskOk;
    if order == [] {
      forall id | id in st.tasks && st.tasks[id].plan.Some? ensures st.tasks[id].plan.value.planId in st.plans { TaskFacts(st, id); }
    } else {
      var n := |order| - 1;
      var last := order[n];
      assert order == order[..n] + [last];
      RecoverAllMeans(st, order[..n], now);
      RecoverAllKeeps(st, order[..n], now);
      var mid := RecoverAll(st, order[..n], now).value;
      assert mid.tasks[last] == st.tasks[last];
      RecoverOneMeans(mid, last, now);
      RecoverOneKeeps(mid, last, now);
      var after := RecoverAll(st, order, now).value;
      forall id | id in st.tasks && id != last && st.tasks[id].plan.Some? && st.tasks[last].plan.Some?
        ensures st.tasks[id].plan.value.planId != st.tasks[last].plan.value.planId
      {
        PlansDiffer(st, id, last);
      }
      LastExpires(st, mid, after, last, now);
      forall id | id in order ensures Expires(st, after, id, now) {
        if id != last {
          assert id in order[..n];
          EarlierExpires(st, mid, after, id, last, now);
        }
      }
    }
  }

  lemma LastExpires(st: Store, mid: Store, after: Store, id: TaskId, now: int)
    requires id in st.tasks && id in mid.tasks && mid.tasks[id] == st.tasks[id] && Expires(mid, after, id, now)
    requires st.tasks[id].plan.Some? ==>
               var p := st.tasks[id].plan.value.planId;
               p in st.plans && p in mid.plans && mid.plans[p] == st.plans[p]
    ensures Expires(st, after, id, now)
  {
    hide DirectExpires, PlannedExpires;
  }

  lemma EarlierExpires(st: Store, mid: Store, after: Store, id: TaskId, last: TaskId, now: int)
    requires id in st.tasks && Expires(st, mid, id, now) && id in after.tasks && after.tasks[id] == mid.tasks[id]
    requires st.tasks[id].plan.Some? && st.tasks[id].plan.value.planId in mid.plans ==>
               var p := st.tasks[id].plan.value.planId;
               p in after.plans && after.plans[p] == mid.plans[p]
    ensures Expires(st, after, id, now)
  {
    hide DirectExpires, PlannedExpires;
  }

  /** In every run a recovery that goes through ends the lease of each listed task so. */
  lemma RunExpiry(stores: seq<Store>, events: seq<Event>, n: nat, id: TaskId)
    requires IsRun(stores, events) && n < |events| && n + 1 < |stores| && events[n].op.OpRecover?
    requires id in events[n].op.order && stores[n + 1] != stores[n]
    ensures id in stores[n].tasks && stores[n].tasks[id].status.IsLeased()
    ensures stores[n].tasks[id].leaseUntil.Some? && stores[n].tasks[id].leaseUntil.value <= events[n].now
    ensures Expires(stores[n], stores[n + 1], id, events[n].now)
  {
    hide IsRun, StoreOk, Apply, Expires, RecoverAll;
    RunStep(stores, events, n);
    RecoveryGoesThrough(stores[n], events[n]);
    RecoverAllMeans(stores[n], events[n].op.order, events[n].now);
  }

  lemma RecoveryGoesThrough(st: Store, e: Event)
    requires Governed(st, e) && e.op.OpRecover? && Apply(st, e) != st
    ensures RecoverAll(st, e.op.order, e.now).Ok? && Apply(st, e) == RecoverAll(st, e.op.order, e.now).value
  {
    hide RecoverAll;
  }
}
