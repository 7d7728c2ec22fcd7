/** The queue store as an object (crates/shaka-queue/src/lib.rs and the public operations of
    plan_store.rs): every operation works on the tables in place, drops its writes when it fails, and is
    proved against the step of the same name that the run laws are about. */
module TaskQueue {
  import opened Base
  import opened PlanCore
  import opened PlanVerification
  import opened TransitionLog
  import opened PlanTransactions
  import opened PlanPreservation
  import opened PlanInvariants
  import opened PlanResolution
  import opened PlanStore
  import Q = QueueModel
  import opened QueueModel
  import GovernedRuns

  /** A transaction that fails leaves the store as it was. */
  ghost predicate Transacts(r: Result<()>, expected: Result<Store>, before: Store, after: Store) {
    match expected
    case Err(e) => r == Err(e) && after == before
    case Ok(st) => r == Ok(()) && after == st
  }

  /** Inside a transaction only the success says what the store contains. */
  ghost predicate Writes(r: Result<()>, expected: Result<Store>, after: Store) {
    match expected
    case Err(e) => r == Err(e)
    case Ok(st) => r == Ok(()) && after == st
  }

  lemma {:induction false} RecoverAllFails(st: Store, order: seq<TaskId>, now: int, n: nat)
    requires (forall t :: t in order ==> t in st.tasks) && n <= |order|
    requires (forall t :: t in order[..n] ==> t in st.tasks) && RecoverAll(st, order[..n], now).Err?
    ensures RecoverAll(st, order, now) == RecoverAll(st, order[..n], now)
  {
    hide RecoverOne;
    if n == |order| {
      assert order[..n] == order;
    } else {
      var front := order[..|order| - 1];
      assert front[..n] == order[..n];
      RecoverAllFails(st, front, now, n);
    }
  }

  lemma RecoverAllNone(st: Store, now: int)
    ensures RecoverAll(st, [], now) == Ok(st)
  {
  }

  lemma RecoverAllOne(st: Store, order: seq<TaskId>, now: int, n: nat, mid: Store)
    requires (forall t :: t in order ==> t in st.tasks) && n < |order|
    requires RecoverAll(st, order[..n], now) == Ok(mid)
    ensures order[n] in mid.tasks && RecoverAll(st, order[..n + 1], now) == RecoverOne(mid, order[n], now)
  {
    hide RecoverOne;
    assert order[..n + 1][..n] == order[..n];
  }

  class QueueStore {
    var plans: map<PlanId, PlanRec>
    var tasks: map<TaskId, TaskRow>
    var windows: map<(Scope, int), nat>
    var limits: map<TenantId, TenantLimits>
    var sessions: map<nat, Session>
    var nextToken: nat
    /** The stores the object went through, and the operations that succeeded in between. */
    ghost var stores: seq<Store>
    ghost var events: seq<Event>

    function View(): Store
      reads this
    {
      Store(plans, tasks, windows, limits, sessions, nextToken)
    }

    /** The object came to its contents by governed operations alone. */
    ghost predicate IsGoverned()
      reads this
    {
      stores != [] && IsRun(stores, events) && stores[|stores| - 1] == View()
    }

    ghost predicate Reached(st: Store)
      reads this`stores, this`events
    {
      stores != [] && IsRun(stores, events) && stores[|stores| - 1] == st
    }

    constructor (limits: map<TenantId, TenantLimits>, sessions: map<nat, Session>)
      ensures IsInitial(View()) && this.limits == limits && this.sessions == sessions && IsGoverned()
    {
      plans, tasks, windows, nextToken := map[], map[], map[], 0;
      this.limits, this.sessions := limits, sessions;
      stores, events := [Store(map[], map[], map[], limits, sessions, 0)], [];
    }

    ghost method Record(before: Store, e: Event)
      requires Governed(before, e) && Attempt(before, e) == Ok(View())
      modifies this`stores, this`events
      ensures View() == old(View()) && (old(Reached(before)) ==> IsGoverned())
    {
      if Reached(before) {
        ExtendRun(stores, events, e, View());
        stores, events := stores + [View()], events + [e];
      }
    }

    method Rollback(saved: Store)
      modifies this`plans, this`tasks, this`windows, this`limits, this`sessions, this`nextToken
      ensures View() == saved
    {
      plans, tasks, windows := saved.plans, saved.tasks, saved.windows;
      limits, sessions, nextToken := saved.limits, saved.sessions, saved.nextToken;
    }

    // ----- plans -----

    method SavePlan(input: PlanSpec, now: int) returns (r: Result<()>)
      modifies this
      ensures old(IsGoverned()) ==> IsGoverned()
      ensures Transacts(r, Q.SavePlan(old(View()), input, now), old(View()), View())
    {
      ghost var before := View();
      var p := NewPlan(input, now);
      hide ValidStructure, NewPlan, FreshRec;
      var structured := ValidateStructure(p);
      if !BudgetOk(p.budget) || !structured {
        return Err(CoreRejected);
      }
      if p.planId in plans {
        var existing := plans[p.planId].spec;
        if existing.tenant != p.tenant {
          return Err(UniqueViolation);
        }
        if existing.digest != p.digest {
          return Err(InvalidInput);
        }
        return Ok(());
      }
      plans := plans[p.planId := FreshRec(p)];
      Record(before, Event(OpSave(input), now));
      return Ok(());
    }

    method ApproveRows(principal: Principal, a: Approval, key: Key, now: int) returns (r: Result<()>)
      modifies this`plans
      ensures Transacts(r, ApprovePlanOp(old(View()), principal, a, key, now), old(View()), View())
    {
      hide Approve, ApprovalIdTaken;
      if a.planId !in plans {
        return Err(NotFound);
      }
      var tx := new PlanTx(plans[a.planId], None);
      var _ :- tx.Approve(principal, a, key, ApprovalIdTaken(View(), a.approvalId), now);
      plans := plans[a.planId := tx.Rec()];
      return Ok(());
    }

    method ApprovePlan(principal: Principal, a: Approval, key: Key, now: int) returns (r: Result<()>)
      modifies this
      ensures old(IsGoverned()) ==> IsGoverned()
      ensures Transacts(r, ApprovePlanOp(old(View()), principal, a, key, now), old(View()), View())
    {
      hide ApprovePlanOp, IsRun;
      ghost var before := View();
      r := ApproveRows(principal, a, key, now);
      if r.Ok? {
        Record(before, Event(OpApprove(principal, a, key), now));
      }
    }

    // ----- submission -----

    method AdmitPlan(s: Submission, principal: Principal, now: int) returns (r: Result<()>)
      modifies this`plans
      ensures Writes(r, AdmitIfPlanned(old(View()), s, principal, now), View())
    {
      hide Admit;
      if s.plan.None? {
        return Ok(());
      }
      var ref := s.plan.value;
      if ref.planId !in plans {
        return Err(NotFound);
      }
      var tx := new PlanTx(plans[ref.planId], None);
      var _ :- tx.Admit(principal, s.taskId, ref, now);
      plans := plans[ref.planId := tx.Rec()];
      return Ok(());
    }

    /** Both counters must have room. */
    method RateAllows(s: Submission, limit: nat, window: int) returns (ok: bool)
      ensures ok <==> Count(View(), TenantScope(s.tenant), window) < limit && Count(View(), OperatorScope(s.operator), window) < limit
    {
      var scopes := [TenantScope(s.tenant), OperatorScope(s.operator)];
      for i := 0 to |scopes|
        invariant forall j :: 0 <= j < i ==> Count(View(), scopes[j], window) < limit
      {
        if Count(View(), scopes[i], window) >= limit {
          assert scopes[i] == TenantScope(s.tenant) || scopes[i] == OperatorScope(s.operator);
          return false;
        }
      }
      assert scopes[0] == TenantScope(s.tenant) && scopes[1] == OperatorScope(s.operator);
      return true;
    }

    method BumpWindows(s: Submission, window: int)
      modifies this`windows
      ensures View() == Bump(Bump(old(View()), TenantScope(s.tenant), window), OperatorScope(s.operator), window)
    {
      var scopes := [TenantScope(s.tenant), OperatorScope(s.operator)];
      for i := 0 to |scopes|
        invariant View() == if i == 0 then old(View())
                            else if i == 1 then Bump(old(View()), scopes[0], window)
                            else Bump(Bump(old(View()), scopes[0], window), scopes[1], window)
      {
        windows := windows[(scopes[i], window) := Count(View(), scopes[i], window) + 1];
      }
    }

    method DailyCost(tenant: TenantId, since: int) returns (cost: nat)
      ensures cost == CostOf(View(), Ascending(TasksSince(View(), tenant, since)))
    {
      hide TasksSince, Ascending, CostOf;
      ghost var st := View();
      var ids := Ascending(TasksSince(View(), tenant, since));
      SinceExist(st, tenant, since);
      CostOfNone(st);
      cost := 0;
      for i := 0 to |ids|
        invariant cost == CostOf(st, ids[..i])
      {
        CostOfOne(st, ids, i);
        cost := SaturatingAdd(cost, tasks[ids[i]].budget.maxCostMicrounits);
      }
      assert ids[..|ids|] == ids;
    }

    method CheckQuota(s: Submission, l: TenantLimits, now: int) returns (ok: bool)
      ensures ok == WithinQuota(View(), s, l, now)
    {
      var day := DayStart(now);
      if |ActiveTasks(View(), s.tenant)| >= l.maxActiveTasks {
        return false;
      }
      if |TasksSince(View(), s.tenant, day)| >= l.maxDailyTasks {
        return false;
      }
      var cost := DailyCost(s.tenant, day);
      return SaturatingAdd(cost, s.budget.maxCostMicrounits) <= l.maxDailyCost;
    }

    /** The part of a submission after the idempotency lookup. */
    method CreateTask(s: Submission, principal: Principal, now: int) returns (r: Result<()>)
      requires s.tenant in limits
      modifies this`plans, this`tasks, this`windows
      ensures Writes(r, TaskCreated(old(View()), s, principal, now), View())
    {
      hide AdmitIfPlanned, WithinQuota, Bump, Count, WindowStart, NewTask;
      var l := limits[s.tenant];
      var window := WindowStart(now, l.windowSeconds);
      var allowed := RateAllows(s, l.requestsPerWindow, window);
      if !allowed {
        return Err(RateLimited(RetryAfter(now, l.windowSeconds)));
      }
      BumpWindows(s, window);
      var _ :- AdmitPlan(s, principal, now);
      var within := CheckQuota(s, l, now);
      if !within {
        return Err(QuotaExceeded);
      }
      if s.taskId in tasks {
        return Err(UniqueViolation);
      }
      tasks := tasks[s.taskId := NewTask(s, principal, now)];
      return Ok(());
    }

    method Submit(s: Submission, principal: Principal, now: int) returns (r: Result<(SubmitOutcome, TaskId)>)
      modifies this
      ensures old(IsGoverned()) ==> IsGoverned()
      ensures match Q.Submit(old(View()), s, principal, now)
              case Err(e) => r == Err(e) && View() == old(View())
              case Ok((st, outcome, id)) => r == Ok((outcome, id)) && View() == st
    {
      hide SubmissionOk, SubmissionError, TaskCreated, Q.Submit, TasksWithKey, IsRun;
      SubmitParts(View(), s, principal, now);
      if !SubmissionOk(View(), s, principal) {
        return Err(SubmissionError(View(), s, principal));
      }
      var same := TasksWithKey(View(), s.tenant, s.key);
      if same != {} {
        KeyedTasksExist(View(), s.tenant, s.key);
        var existing := MinOf(same);
        if tasks[existing].fingerprint == s.fingerprint && tasks[existing].plan == s.plan {
          return Ok((Existing, existing));
        }
        return Err(IdempotencyConflict);
      }
      var saved := View();
      TenantKnown(saved, s, principal);
      var created := CreateTask(s, principal, now);
      if created.Err? {
        Rollback(saved);
        return Err(created.error);
      }
      Record(saved, Event(OpSubmit(s, principal), now));
      return Ok((Created, s.taskId));
    }

    // ----- claim -----

    /** One candidate: it gets the lease unless its plan has no work now. */
    method TryClaim(id: TaskId, ctx: ClaimContext, now: int, until: int) returns (r: Result<bool>)
      requires id in tasks
      modifies this`plans, this`tasks, this`nextToken
      ensures match ClaimOne(old(View()), id, ctx, now, until)
              case Err(e) => r == Err(e) && View() == old(View())
              case Ok(None) => r == Ok(false) && View() == old(View())
              case Ok(Some(st)) => r == Ok(true) && View() == st
    {
      hide PrepareClaim;
      var task := tasks[id];
      var step: Option<StepId> := None;
      if task.plan.Some? {
        var p := task.plan.value.planId;
        if p !in plans {
          return Err(NotFound);
        }
        var tx := new PlanTx(plans[p], None);
        step :- tx.PrepareClaim(task, task.plan.value, ctx.(granted := task.capabilities), now);
        if step.None? {
          return Ok(false);
        }
        plans := plans[p := tx.Rec()];
      }
      tasks := tasks[id := Leased(task, step, nextToken, until)];
      nextToken := nextToken + 1;
      return Ok(true);
    }

    /** The candidate loop: `order` is what the claim query returned. */
    method ClaimNext(order: seq<TaskId>, ctx: ClaimContext, now: int, leaseFor: int) returns (r: Result<Option<TaskId>>)
      requires IsClaimQuery(View(), order, now)
      modifies this
      ensures old(IsGoverned()) ==> IsGoverned()
      ensures match Claim(old(View()), order, ctx, now, leaseFor)
              case Err(e) => r == Err(e) && View() == old(View())
              case Ok((st, claimed)) => r == Ok(claimed) && View() == st
      ensures r.Ok? && r.value.Some? ==>
        && leaseFor > 0 && r.value.value in tasks && tasks[r.value.value].status == TRunning
        && tasks[r.value.value].leaseUntil == Some(now + leaseFor) && tasks[r.value.value].leaseToken == Some(old(nextToken))
    {
      hide ClaimOne, ClaimFrom, Before, IsRun;
      if leaseFor <= 0 {
        return Err(InvalidInput);
      }
      ghost var before := View();
      var until := now + leaseFor;
      for i := 0 to |order|
        invariant View() == before && stores == old(stores) && events == old(events)
        invariant forall t :: t in order[i..] ==> t in before.tasks
        invariant ClaimFrom(before, order, ctx, now, until) == ClaimFrom(before, order[i..], ctx, now, until)
      {
        ClaimFromOne(before, order[i..], ctx, now, until);
        assert order[i..][1..] == order[i + 1..];
        var claimed :- TryClaim(order[i], ctx, now, until);
        if claimed {
          ClaimOneLeases(before, order[i], ctx, now, until);
          Record(before, Event(OpClaim(order, ctx, leaseFor), now));
          return Ok(Some(order[i]));
        }
      }
      assert order[|order|..] == [];
      ClaimFromNone(before, ctx, now, until);
      return Ok(None);
    }

    // ----- finish -----

    method FinishRows(id: TaskId, tenant: TenantId, token: nat, result: Option<string>, failed: bool, policy: Policy,
                      ctx: ClaimContext, now: int)
      returns (r: Result<FinishOutcome>)
      modifies this`tasks, this`plans
      ensures match Finish(old(View()), id, tenant, token, result, failed, policy, ctx, now)
              case Err(e) => r == Err(e) && View() == old(View())
              case Ok((st, outcome)) => r == Ok(outcome) && View() == st
    {
      hide FinishPlanned, FinishDirect;
      if id !in tasks || tasks[id].tenant != tenant {
        return Err(NotFound);
      }
      var task := tasks[id];
      if task.status.IsTerminal() {
        return Ok(TerminalOutcome(task.status));
      }
      if !HoldsLease(task, token, now) {
        return Err(LeaseLost);
      }
      if task.plan.Some? {
        var p := task.plan.value.planId;
        if p !in plans {
          return Err(NotFound);
        }
        var tx := new PlanTx(plans[p], Some(task));
        var outcome :- tx.Finish(result, failed, policy, ctx, now);
        plans, tasks := plans[p := tx.Rec()], tasks[id := tx.task.value];
        return Ok(outcome);
      }
      var row, outcome := FinishDirectTask(task, result, failed, policy, now);
      tasks := tasks[id := row];
      return Ok(outcome);
    }

    method FinishTask(id: TaskId, tenant: TenantId, token: nat, result: Option<string>, failed: bool, policy: Policy,
                      ctx: ClaimContext, now: int)
      returns (r: Result<FinishOutcome>)
      modifies this
      ensures old(IsGoverned()) ==> IsGoverned()
      ensures match Finish(old(View()), id, tenant, token, result, failed, policy, ctx, now)
              case Err(e) => r == Err(e) && View() == old(View())
              case Ok((st, outcome)) => r == Ok(outcome) && View() == st
    {
      hide Finish, IsRun;
      ghost var before := View();
      r := FinishRows(id, tenant, token, result, failed, policy, ctx, now);
      if r.Ok? {
        Record(before, Event(OpFinish(id, tenant, token, result, failed, policy, ctx), now));
      }
    }

    /** The three ways a direct task leaves its lease. */
    method FinishDirectTask(task: TaskRow, result: Option<string>, failed: bool, policy: Policy, now: int)
      returns (row: TaskRow, outcome: FinishOutcome)
      ensures (row, outcome) == FinishDirect(task, result, failed, policy, now)
    {
      hide RetryDelay;
      if task.cancelRequested || task.status == TCancelRequested {
        row := task.(status := TCancelled, cancelRequested := true, leaseUntil := None, leaseToken := None,
                     completedAt := Some(now));
        outcome := FinishedCancelled;
      } else if policy.retryable && task.attempts < task.maxAttempts {
        var at := now + RetryDelay(task.attempts, policy.baseDelay, policy.maxDelay);
        row := task.(status := TQueued, leaseUntil := None, leaseToken := None, nextAttemptAt := at, result := None);
        outcome := Requeued(at);
      } else {
        row := task.(status := if failed then TFailed else TSucceeded, leaseUntil := None, leaseToken := None,
                     result := result, completedAt := Some(now));
        outcome := if failed then FinishedFailed else FinishedSucceeded;
      }
    }

    // ----- cancellation -----

    method RequestCancel(id: TaskId, tenant: TenantId, now: int) returns (r: Result<()>)
      modifies this
      ensures old(IsGoverned()) ==> IsGoverned()
      ensures Transacts(r, Q.RequestCancel(old(View()), id, tenant, now), old(View()), View())
    {
      hide CancelPlanned, IsRun, CancelledTask, Apply;
      ghost var before := View();
      if id !in tasks || tasks[id].tenant != tenant {
        return Err(NotFound);
      }
      var task := tasks[id];
      if task.status.IsTerminal() {
        return Ok(());
      }
      if task.plan.Some? {
        var p := task.plan.value.planId;
        if p !in plans {
          return Err(NotFound);
        }
        var tx := new PlanTx(plans[p], Some(task));
        var _ :- tx.CancelTask(task, now);
        plans := plans[p := tx.Rec()];
      }
      tasks := tasks[id := CancelledTask(task, now)];
      Record(before, Event(OpCancel(id, tenant), now));
      return Ok(());
    }

    // ----- expired leases -----

    method RecoverTask(id: TaskId, now: int) returns (r: Result<()>)
      requires id in tasks
      modifies this`tasks, this`plans
      ensures Writes(r, RecoverOne(old(View()), id, now), View())
    {
      hide RecoverExpired;
      var task := tasks[id];
      if task.plan.None? {
        tasks := tasks[id := RecoverDirect(task, now)];
        return Ok(());
      }
      var p := task.plan.value.planId;
      if p !in plans {
        return Err(NotFound);
      }
      var tx := new PlanTx(plans[p], Some(task));
      var _ :- tx.RecoverExpired(now);
      plans, tasks := plans[p := tx.Rec()], tasks[id := tx.task.value];
      return Ok(());
    }

    /** `order` is what the recovery query returned; all of it is recovered, or nothing. */
    method RecoverExpiredLeases(order: seq<TaskId>, now: int) returns (r: Result<nat>)
      requires IsRecoveryQuery(View(), order, now)
      modifies this
      ensures old(IsGoverned()) ==> IsGoverned()
      ensures match RecoverAll(old(View()), order, now)
              case Err(e) => r == Err(e) && View() == old(View())
              case Ok(st) => r == Ok(|order|) && View() == st
    {
      hide RecoverAll, RecoverOne, IsRun, Apply, Expired;
      var saved := View();
      RecoverAllNone(saved, now);
      var recovered := 0;
      for i := 0 to |order|
        invariant stores == old(stores) && events == old(events)
        invariant recovered == i && RecoverAll(saved, order[..i], now) == Ok(View())
      {
        RecoverAllOne(saved, order, now, i, View());
        var one := RecoverTask(order[i], now);
        if one.Err? {
          RecoverAllFails(saved, order, now, i + 1);
          Rollback(saved);
          return Err(one.error);
        }
        recovered := recovered + 1;
      }
      assert order[..|order|] == order;
      Record(saved, Event(OpRecover(order), now));
      return Ok(recovered);
    }

    // ----- resolution, inspection, resumption -----

    method ResolveRows(principal: Principal, p: PlanId, decision: ResolutionDecision, key: Key,
                       evidence: Option<Digest>, now: int)
      returns (r: Result<ResolutionOutcome>)
      modifies this`tasks, this`plans
      ensures match ResolvePlan(old(View()), principal, p, decision, key, evidence, now)
              case Err(e) => r == Err(e) && View() == old(View())
              case Ok((st, outcome)) => r == Ok(outcome) && View() == st
    {
      hide Resolve;
      if p !in plans {
        return Err(NotFound);
      }
      var tx := new PlanTx(plans[p], BoundTask(View(), plans[p]));
      var outcome :- tx.Resolve(principal, decision, key, evidence, now);
      if tx.task.Some? {
        tasks := tasks[plans[p].spec.taskId := tx.task.value];
      }
      plans := plans[p := tx.Rec()];
      return Ok(outcome);
    }

    method ResolvePlanUnknown(principal: Principal, p: PlanId, decision: ResolutionDecision, key: Key,
                              evidence: Option<Digest>, now: int)
      returns (r: Result<ResolutionOutcome>)
      modifies this
      ensures old(IsGoverned()) ==> IsGoverned()
      ensures match ResolvePlan(old(View()), principal, p, decision, key, evidence, now)
              case Err(e) => r == Err(e) && View() == old(View())
              case Ok((st, outcome)) => r == Ok(outcome) && View() == st
    {
      hide ResolvePlan, IsRun;
      ghost var before := View();
      r := ResolveRows(principal, p, decision, key, evidence, now);
      if r.Ok? {
        Record(before, Event(OpResolve(principal, p, decision, key, evidence), now));
      }
    }

    method InspectPlan(tenant: TenantId, p: PlanId) returns (r: Result<Option<Issue>>)
      ensures r.Ok? <==> p in plans && Loadable(plans[p], tenant)
      ensures r.Ok? ==> r.value == Inspect(plans[p])
      ensures r.Ok? && IsGoverned() ==> r.value == None
    {
      hide Loadable, Inspect, IsRun;
      if p !in plans {
        return Err(NotFound);
      }
      var tx := new PlanTx(plans[p], None);
      var loadable := tx.CanLoad(tenant);
      if !loadable {
        return Err(LoadError(plans[p], tenant));
      }
      var issue := tx.Inspect();
      if IsGoverned() {
        GovernedRuns.AlwaysStable(stores, events, |stores| - 1, p);
      }
      return Ok(issue);
    }

    /** The read phase of `resume_plan`. */
    method ReadForResume(tenant: TenantId, p: PlanId) returns (r: Result<ResumeView>)
      ensures r.Ok? <==> p in plans && Loadable(plans[p], tenant)
      ensures r.Ok? ==> r.value == ResumeRead(plans[p])
      ensures r.Ok? && IsGoverned() && !plans[p].state.IsTerminal() ==> GovernedView(r.value)
    {
      hide Loadable, Inspect, ResumeRead, IsRun, RecOk, GovernedView, GovernedRuns.StoreOk;
      if p !in plans {
        return Err(NotFound);
      }
      var tx := new PlanTx(plans[p], None);
      var loadable := tx.CanLoad(tenant);
      if !loadable {
        return Err(LoadError(plans[p], tenant));
      }
      var view := tx.ResumeRead();
      if IsGoverned() && !plans[p].state.IsTerminal() {
        GovernedRuns.RunKeeps(stores, events, |stores| - 1);
        GovernedRuns.PlanFacts(View(), p);
        ResumeReadGoverned(plans[p]);
      }
      return Ok(view);
    }

    /** Its write phase, with a view that may be stale by now. */
    method WriteForResume(p: PlanId, view: ResumeView, now: int) returns (r: Result<()>)
      modifies this
      ensures Transacts(r, ResumeWriteOp(old(View()), p, view, now), old(View()), View())
      ensures old(IsGoverned()) && GovernedView(view) ==> IsGoverned()
    {
      hide ResumeWrite, GovernedView, IsRun;
      ghost var before := View();
      if p !in plans {
        return Err(NotFound);
      }
      var tx := new PlanTx(plans[p], None);
      var _ :- tx.ResumeWrite(view, now);
      plans := plans[p := tx.Rec()];
      if GovernedView(view) {
        Record(before, Event(OpResumeWrite(p, view), now));
      }
      return Ok(());
    }

    /** `resume_plan` when nothing comes between its phases: whatever the rows contain, the plan is not
        left live, and resuming it again changes nothing. */
    method ResumePlan(tenant: TenantId, p: PlanId, now: int) returns (r: Result<()>)
      modifies this
      ensures r.Err? ==> View() == old(View())
      ensures old(IsGoverned()) && p in old(plans) && !old(plans)[p].state.IsTerminal() ==> IsGoverned()
      ensures r.Ok? ==> p in old(plans) && ResumeTx(old(plans)[p], tenant, now).Ok?
      ensures r.Ok? ==> plans == old(plans)[p := ResumeTx(old(plans)[p], tenant, now).value]
      ensures r.Ok? ==> !LiveState(plans[p].state) && forall later :: ResumeTx(plans[p], tenant, later) == Ok(plans[p])
    {
      hide Loadable, ResumeRead, ResumeWrite, LiveState, Inspect, GovernedView, IsRun;
      var view :- ReadForResume(tenant, p);
      var before := plans[p];
      var _ :- WriteForResume(p, view, now);
      ResumeIdempotent(before, tenant, now, now);
      forall later ensures ResumeTx(plans[p], tenant, later) == Ok(plans[p]) {
        ResumeIdempotent(before, tenant, now, later);
      }
      return Ok(());
    }
  }

  // ----- how the recursive operations unfold -----

  /** What a submission with a new key writes. */
  ghost function TaskCreated(st: Store, s: Submission, principal: Principal, now: int): Result<Store>
    requires s.tenant in st.limits
  {
    var l := st.limits[s.tenant];
    var window := WindowStart(now, l.windowSeconds);
    if Count(st, TenantScope(s.tenant), window) >= l.requestsPerWindow
      || Count(st, OperatorScope(s.operator), window) >= l.requestsPerWindow
    then Err(RateLimited(RetryAfter(now, l.windowSeconds)))
    else
      var counted := Bump(Bump(st, TenantScope(s.tenant), window), OperatorScope(s.operator), window);
      var admitted :- AdmitIfPlanned(counted, s, principal, now);
      if !WithinQuota(admitted, s, l, now) then Err(QuotaExceeded)
      else if s.taskId in st.tasks then Err(UniqueViolation)
      else Ok(admitted.(tasks := admitted.tasks[s.taskId := NewTask(s, principal, now)]))
  }

  lemma ExtendRun(stores: seq<Store>, events: seq<Event>, e: Event, st: Store)
    requires IsRun(stores, events) && Governed(stores[|stores| - 1], e) && Attempt(stores[|stores| - 1], e) == Ok(st)
    ensures IsRun(stores + [st], events + [e])
  {
    hide Governed, Attempt;
    var longer, more := stores + [st], events + [e];
    forall i | 0 <= i < |more| ensures IsStep(longer[i], more[i], longer[i + 1]) {
      if i < |events| {
        assert IsStep(stores[i], events[i], stores[i + 1]);
      }
    }
  }

  lemma SinceExist(st: Store, tenant: TenantId, since: int)
    ensures forall id :: id in Ascending(TasksSince(st, tenant, since)) ==> id in st.tasks
  {
    hide Ascending;
  }

  lemma CostOfNone(st: Store)
    ensures CostOf(st, []) == 0
  {
  }

  lemma CostOfOne(st: Store, ids: seq<TaskId>, n: nat)
    requires (forall id :: id in ids ==> id in st.tasks) && n < |ids|
    ensures CostOf(st, ids[..n + 1]) == SaturatingAdd(CostOf(st, ids[..n]), st.tasks[ids[n]].budget.maxCostMicrounits)
  {
    assert ids[..n + 1][..n] == ids[..n];
  }

  lemma TenantKnown(st: Store, s: Submission, principal: Principal)
    requires SubmissionOk(st, s, principal)
    ensures s.tenant in st.limits
  {
  }

  lemma KeyedTasksExist(st: Store, tenant: TenantId, key: string)
    ensures forall t :: t in TasksWithKey(st, tenant, key) ==> t in st.tasks
  {
  }

  lemma SubmitParts(st: Store, s: Submission, principal: Principal, now: int)
    ensures !SubmissionOk(st, s, principal) ==> Submit(st, s, principal, now) == Err(SubmissionError(st, s, principal))
    ensures SubmissionOk(st, s, principal) ==>
      && s.tenant in st.limits
      && var same := TasksWithKey(st, s.tenant, s.key);
         && (forall t :: t in same ==> t in st.tasks)
         && Submit(st, s, principal, now) ==
            if same != {} then
              if st.tasks[MinOf(same)].fingerprint == s.fingerprint && st.tasks[MinOf(same)].plan == s.plan
              then Ok((st, Existing, MinOf(same))) else Err(IdempotencyConflict)
            else match TaskCreated(st, s, principal, now)
              case Err(e) => Err(e)
              case Ok(after) => Ok((after, Created, s.taskId))
  {
    hide AdmitIfPlanned, WithinQuota, Bump, Count, NewTask, RetryAfter, WindowStart, IsKey, SubmissionError;
  }

  lemma ClaimFromNone(st: Store, ctx: ClaimContext, now: int, until: int)
    ensures ClaimFrom(st, [], ctx, now, until) == Ok((st, None))
  {
  }

  /** What the claim does with one candidate; `None` when it passes on to the next. */
  ghost function ClaimOne(st: Store, id: TaskId, ctx: ClaimContext, now: int, until: int): Result<Option<Store>>
    requires id in st.tasks
  {
    var task := st.tasks[id];
    if task.plan.None? then Ok(Some(TakeLease(st, id, None, until)))
    else if task.plan.value.planId !in st.plans then Err(NotFound)
    else
      var p := task.plan.value.planId;
      match PrepareClaim(st.plans[p], task, task.plan.value, ctx.(granted := task.capabilities), now)
      case Err(e) => Err(e)
      case Ok(None) => Ok(None)
      case Ok(Some((r, step))) => Ok(Some(TakeLease(st.(plans := st.plans[p := r]), id, Some(step), until)))
  }

  lemma ClaimOneLeases(st: Store, id: TaskId, ctx: ClaimContext, now: int, until: int)
    requires id in st.tasks && ClaimOne(st, id, ctx, now, until).Ok? && ClaimOne(st, id, ctx, now, until).value.Some?
    ensures var after := ClaimOne(st, id, ctx, now, until).value.value;
            && id in after.tasks && after.tasks[id].status == TRunning
            && after.tasks[id].leaseUntil == Some(until) && after.tasks[id].leaseToken == Some(st.nextToken)
  {
    hide PrepareClaim;
  }

  lemma ClaimFromOne(st: Store, order: seq<TaskId>, ctx: ClaimContext, now: int, until: int)
    requires order != [] && forall t :: t in order ==> t in st.tasks
    ensures forall t :: t in order[1..] ==> t in st.tasks
    ensures ClaimFrom(st, order, ctx, now, until) ==
            match ClaimOne(st, order[0], ctx, now, until)
            case Err(e) => Err(e)
            case Ok(None) => ClaimFrom(st, order[1..], ctx, now, until)
            case Ok(Some(after)) => Ok((after, Some(order[0])))
  {
    hide PrepareClaim, TakeLease;
    assert forall t :: t in order[1..] ==> t in order;
  }
}
