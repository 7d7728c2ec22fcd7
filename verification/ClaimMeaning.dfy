/** What a claim takes, and what it leaves in the rows: which task, which step, until when. */
module ClaimMeaning {
  import opened Base
  import opened PlanCore
  import opened PlanTransactions
  import opened QueueModel
  import opened GovernedRuns
  import opened Conditions
  import opened RowConditions

  // ----- the queue -----

  /** The task may be claimed: it is queued, not cancelled, and its next attempt is due. */
  predicate Eligible(t: TaskRow, now: int) {
    t.status == TQueued && !t.cancelRequested && t.nextAttemptAt <= now
  }

  /** The first of two tasks goes before the second: by priority, then by age. */
  predicate Precedes(a: TaskRow, b: TaskRow) {
    a.priority > b.priority || (a.priority == b.priority && a.createdAt < b.createdAt)
  }

  /** The task's plan has no work now. */
  ghost predicate Idle(st: Store, id: TaskId, ctx: ClaimContext, now: int)
    requires id in st.tasks
  {
    var task := st.tasks[id];
    task.plan.Some? && task.plan.value.planId in st.plans && NoWork(st.plans[task.plan.value.planId], task, ctx, now)
  }

  /** The task runs under a fresh token until the given instant, its attempt counted. */
  predicate IsLeased(task: TaskRow, t: TaskRow, step: Option<StepId>, token: nat, until: int) {
    t == task.(status := TRunning, attempts := task.attempts + 1, leaseUntil := Some(until), leaseToken := Some(token),
               planStep := step)
  }

  /** Task `id` got the lease; if it is planned, the least step of its plan that may start has started. */
  ghost predicate Takes(st: Store, after: Store, id: TaskId, ctx: ClaimContext, now: int, until: int)
    requires id in st.tasks
  {
    var task := st.tasks[id];
    && id in after.tasks && after.tasks == st.tasks[id := after.tasks[id]] && after.nextToken == st.nextToken + 1
    && if task.plan.None? then IsLeased(task, after.tasks[id], None, st.nextToken, until) && after.plans == st.plans
       else
         var p := task.plan.value.planId;
         && p in st.plans && p in after.plans && after.plans == st.plans[p := after.plans[p]]
         && after.tasks[id].planStep.Some? && IsLeased(task, after.tasks[id], after.tasks[id].planStep, st.nextToken, until)
         && StartsLeast(st.plans[p], task, ctx, now, after.plans[p], after.tasks[id].planStep.value)
  }

  /** The granted capabilities are the task's own: what the caller passes for them is not looked at. */
  lemma GrantedAside(rec: PlanRec, task: TaskRow, ctx: ClaimContext, now: int, r: PlanRec, id: StepId)
    ensures NoWork(rec, task, ctx.(granted := task.capabilities), now) <==> NoWork(rec, task, ctx, now)
    ensures StartsLeast(rec, task, ctx.(granted := task.capabilities), now, r, id) <==> StartsLeast(rec, task, ctx, now, r, id)
  {
    hide AtWork, Approves, StepNeedsSomebody;
    var own := ctx.(granted := task.capabilities);
    forall s ensures MayStart(rec, task, s, own, now) <==> MayStart(rec, task, s, ctx, now) {
      forall c ensures Met(rec, task, None, c, own, now) <==> Met(rec, task, None, c, ctx, now) { }
    }
    hide MayStart;
  }

  lemma {:induction false} ClaimFromMeans(st: Store, order: seq<TaskId>, ctx: ClaimContext, now: int, until: int)
    requires StoreOk(st) && (forall t :: t in order ==> t in st.tasks) && ClaimFrom(st, order, ctx, now, until).Ok?
    ensures var (after, claimed) := ClaimFrom(st, order, ctx, now, until).value;
            match claimed
            case None => after == st && forall o :: o in order ==> Idle(st, o, ctx, now)
            case Some(id) =>
              exists k :: 0 <= k < |order| && order[k] == id && Takes(st, after, id, ctx, now, until)
                       && forall j :: 0 <= j < k ==> Idle(st, order[j], ctx, now)
  {
    hide StoreOk, PrepareClaim, NoWork, StartsLeast, Takes;
    if order != [] {
      assert order[0] in order;
      var task := st.tasks[order[0]];
      if task.plan.None? {
        DirectTakes(st, order[0], ctx, now, until);
      } else {
        var q := task.plan.value.planId;
        var own := ctx.(granted := task.capabilities);
        PlanFacts(st, q);
        PrepareClaimMeans(st.plans[q], task, task.plan.value, own, now);
        var claimed := PrepareClaim(st.plans[q], task, task.plan.value, own, now).value;
        if claimed.None? {
          assert forall t :: t in order[1..] ==> t in order;
          GrantedAside(st.plans[q], task, ctx, now, st.plans[q], 0);
          assert Idle(st, order[0], ctx, now);
          ClaimFromMeans(st, order[1..], ctx, now, until);
          Shift(st, order, ctx, now, until);
        } else {
          GrantedAside(st.plans[q], task, ctx, now, claimed.value.0, claimed.value.1);
          PlannedTakes(st, order[0], ctx, now, until, claimed.value.0, claimed.value.1);
        }
      }
    }
  }

  lemma Shift(st: Store, order: seq<TaskId>, ctx: ClaimContext, now: int, until: int)
    requires order != [] && (forall t :: t in order ==> t in st.tasks) && (forall t :: t in order[1..] ==> t in st.tasks)
    requires ClaimFrom(st, order[1..], ctx, now, until).Ok? && Idle(st, order[0], ctx, now)
    requires var (after, claimed) := ClaimFrom(st, order[1..], ctx, now, until).value;
             match claimed
             case None => after == st && forall o :: o in order[1..] ==> Idle(st, o, ctx, now)
             case Some(id) =>
               exists k :: 0 <= k < |order[1..]| && order[1..][k] == id && Takes(st, after, id, ctx, now, until)
                        && forall j :: 0 <= j < k ==> Idle(st, order[1..][j], ctx, now)
    ensures var (after, claimed) := ClaimFrom(st, order[1..], ctx, now, until).value;
            match claimed
            case None => after == st && forall o :: o in order ==> Idle(st, o, ctx, now)
            case Some(id) =>
              exists k :: 0 <= k < |order| && order[k] == id && Takes(st, after, id, ctx, now, until)
                       && forall j :: 0 <= j < k ==> Idle(st, order[j], ctx, now)
  {
    hide ClaimFrom, Idle, Takes;
    var (after, claimed) := ClaimFrom(st, order[1..], ctx, now, until).value;
    if claimed.Some? {
      var k :| 0 <= k < |order[1..]| && order[1..][k] == claimed.value && Takes(st, after, claimed.value, ctx, now, until)
        && forall j :: 0 <= j < k ==> Idle(st, order[1..][j], ctx, now);
      assert order[k + 1] == claimed.value;
      forall j | 0 <= j < k + 1 ensures Idle(st, order[j], ctx, now) {
        if j > 0 { assert order[j] == order[1..][j - 1]; }
      }
    }
  }

  lemma DirectTakes(st: Store, id: TaskId, ctx: ClaimContext, now: int, until: int)
    requires id in st.tasks && st.tasks[id].plan.None?
    ensures Takes(st, TakeLease(st, id, None, until), id, ctx, now, until)
  {
  }

  lemma PlannedTakes(st: Store, id: TaskId, ctx: ClaimContext, now: int, until: int, r: PlanRec, step: StepId)
    requires id in st.tasks && st.tasks[id].plan.Some? && st.tasks[id].plan.value.planId in st.plans
    requires StartsLeast(st.plans[st.tasks[id].plan.value.planId], st.tasks[id], ctx, now, r, step)
    ensures Takes(st, TakeLease(st.(plans := st.plans[st.tasks[id].plan.value.planId := r]), id, Some(step), until), id, ctx, now, until)
  {
    hide StartsLeast;
  }

  /** What a claim that goes through does. It takes an eligible task before which, by priority and age,
      only tasks without work come, and leases it for exactly the time asked for. Without a result
      nothing changes and every eligible task is without work, unless sixty-four of those come before it. */
  lemma ClaimMeans(st: Store, order: seq<TaskId>, ctx: ClaimContext, now: int, leaseFor: int)
    requires StoreOk(st) && IsClaimQuery(st, order, now) && Claim(st, order, ctx, now, leaseFor).Ok?
    ensures leaseFor > 0
    ensures var (after, claimed) := Claim(st, order, ctx, now, leaseFor).value;
            match claimed
            case None =>
              after == st && forall o :: o in st.tasks && Eligible(st.tasks[o], now) ==> Idle(st, o, ctx, now) || |order| == 64
            case Some(id) =>
              && id in st.tasks && Eligible(st.tasks[id], now)
              && (forall o :: o in st.tasks && Eligible(st.tasks[o], now) && Precedes(st.tasks[o], st.tasks[id]) ==> Idle(st, o, ctx, now))
              && Takes(st, after, id, ctx, now, now + leaseFor)
  {
    hide StoreOk, ClaimFrom, Idle, Takes;
    ClaimFromMeans(st, order, ctx, now, now + leaseFor);
    var (after, claimed) := Claim(st, order, ctx, now, leaseFor).value;
    if claimed.Some? {
      var k :| 0 <= k < |order| && order[k] == claimed.value && forall j :: 0 <= j < k ==> Idle(st, order[j], ctx, now);
      forall o | o in st.tasks && Eligible(st.tasks[o], now) && Precedes(st.tasks[o], st.tasks[order[k]]) ensures Idle(st, o, ctx, now) {
        assert o in order;
        var j :| 0 <= j < |order| && order[j] == o;
      }
    }
  }
}
