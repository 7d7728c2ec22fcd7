/** The store invariant, kept by every governed step and so true throughout every governed run. */
module GovernedRuns {
  import opened Base
  import opened PlanCore
  import opened TransitionLog
  import opened PlanTransactions
  import opened Journal
  import opened PlanInvariants
  import opened PlanPreservation
  import opened PlanResolution
  import opened QueueModel

  ghost predicate PlanOk(st: Store, p: PlanId)
    requires p in st.plans
  {
    && st.plans[p].spec.planId == p
    && RecOk(st.plans[p])
    && Joint(st.plans[p], BoundTask(st, st.plans[p]))
  }

  predicate TaskRowOk(st: Store, t: TaskId)
    requires t in st.tasks
  {
    var row := st.tasks[t];
    && row.taskId == t && TaskOk(row)
    && (row.plan.Some? ==>
          row.plan.value.planId in st.plans && BoundTask(st, st.plans[row.plan.value.planId]) == Some(row))
  }

  /** Tokens come from a counter, and no two tasks hold the same one. */
  predicate TokensOk(tasks: map<TaskId, TaskRow>, next: nat) {
    && (forall t :: t in tasks && tasks[t].leaseToken.Some? ==> tasks[t].leaseToken.value < next)
    && (forall a, b :: a in tasks && b in tasks && a != b && tasks[a].leaseToken.Some? ==>
          tasks[a].leaseToken != tasks[b].leaseToken)
  }

  ghost predicate StoreOk(st: Store) {
    && (forall p :: p in st.plans ==> PlanOk(st, p))
    && (forall t :: t in st.tasks ==> TaskRowOk(st, t))
    && TokensOk(st.tasks, st.nextToken)
  }

  // ----- writing rows back -----

  lemma PutPlan(st: Store, p: PlanId, r: PlanRec)
    requires StoreOk(st) && p in st.plans && r.spec == st.plans[p].spec
    requires RecOk(r) && Joint(r, BoundTask(st, st.plans[p]))
    ensures StoreOk(st.(plans := st.plans[p := r]))
  {
    hide RecOk, Joint, TokensOk, TaskOk;
    var after := st.(plans := st.plans[p := r]);
    forall q | q in after.plans ensures PlanOk(after, q) {
      assert PlanOk(st, q);
      assert BoundTask(after, after.plans[q]) == BoundTask(st, st.plans[q]);
    }
    forall t | t in after.tasks ensures TaskRowOk(after, t) {
      assert TaskRowOk(st, t);
    }
  }

  /** Writing one task row leaves alone the plans it is not bound to. */
  lemma BoundElsewhere(st: Store, after: Store, id: TaskId, t: TaskRow, rec: PlanRec)
    requires after.tasks == st.tasks[id := t] && !Bound(rec, t)
    requires id in st.tasks ==> !Bound(rec, st.tasks[id])
    ensures BoundTask(after, rec) == BoundTask(st, rec)
  {
  }

  /** The other plans and tasks stay as they were when one plan and its task are written. */
  lemma OthersKept(st: Store, after: Store, id: TaskId, t: TaskRow, p: PlanId, r: PlanRec)
    requires StoreOk(st) && p in st.plans && r.spec == st.plans[p].spec
    requires t.plan.Some? && t.plan.value.planId == p
    requires id in st.tasks ==> st.tasks[id].plan.Some? && st.tasks[id].plan.value.planId == p
    requires after.plans == st.plans[p := r] && after.tasks == st.tasks[id := t]
    ensures forall q :: q in st.plans && q != p ==> PlanOk(after, q)
    ensures forall o :: o in st.tasks && o != id ==> TaskRowOk(after, o)
  {
    hide RecOk, Joint, TokensOk, TaskOk, Bound;
    forall q | q in st.plans && q != p ensures PlanOk(after, q) {
      assert PlanOk(st, q);
      NotBound(st.plans[q], t);
      if id in st.tasks { NotBound(st.plans[q], st.tasks[id]); }
      BoundElsewhere(st, after, id, t, st.plans[q]);
    }
    forall o | o in st.tasks && o != id ensures TaskRowOk(after, o) {
      assert TaskRowOk(st, o);
      if st.tasks[o].plan.Some? {
        var q := st.tasks[o].plan.value.planId;
        BoundRow(st, after, o, st.plans[q]);
        assert after.plans[q].spec == st.plans[q].spec;
        SameBinding(after, st.plans[q], after.plans[q]);
      }
    }
  }

  lemma NotBound(rec: PlanRec, t: TaskRow)
    requires t.plan.Some? && t.plan.value.planId != rec.spec.planId
    ensures !Bound(rec, t)
  {
  }

  lemma BoundRow(st: Store, after: Store, o: TaskId, rec: PlanRec)
    requires o in st.tasks && BoundTask(st, rec) == Some(st.tasks[o]) && st.tasks[o].taskId == o
    requires rec.spec.taskId in st.tasks ==> st.tasks[rec.spec.taskId].taskId == rec.spec.taskId
    requires o in after.tasks && after.tasks[o] == st.tasks[o]
    ensures BoundTask(after, rec) == Some(st.tasks[o])
  {
  }

  lemma SameBinding(st: Store, a: PlanRec, b: PlanRec)
    requires a.spec == b.spec
    ensures BoundTask(st, a) == BoundTask(st, b)
  {
  }

  /** Writing a task row that keeps its identity, and the plan it is bound to. */
  lemma PutPair(st: Store, after: Store, id: TaskId, t: TaskRow, p: PlanId, r: PlanRec)
    requires StoreOk(st) && id in st.tasks && p in st.plans && r.spec == st.plans[p].spec
    requires st.tasks[id].plan.Some? && st.tasks[id].plan.value.planId == p
    requires t.taskId == id && t.plan == st.tasks[id].plan && t.tenant == st.tasks[id].tenant && TaskOk(t)
    requires RecOk(r) && Joint(r, Some(t))
    requires after.plans == st.plans[p := r] && after.tasks == st.tasks[id := t]
    requires TokensOk(after.tasks, after.nextToken)
    ensures StoreOk(after)
  {
    hide RecOk, Joint, TokensOk, TaskOk, BoundTask, PlanOk, TaskRowOk;
    TaskOfPlan(st, id);
    OthersKept(st, after, id, t, p, r);
    PairWritten(after, id, t, p, r);
  }

  lemma TaskOfPlan(st: Store, id: TaskId)
    requires StoreOk(st) && id in st.tasks && st.tasks[id].plan.Some?
    ensures var p := st.tasks[id].plan.value.planId;
            && p in st.plans && st.plans[p].spec.taskId == id && st.plans[p].spec.planId == p
            && Bound(st.plans[p], st.tasks[id])
  {
    assert TaskRowOk(st, id);
    var p := st.tasks[id].plan.value.planId;
    assert PlanOk(st, p);
  }

  lemma PairWritten(after: Store, id: TaskId, t: TaskRow, p: PlanId, r: PlanRec)
    requires p in after.plans && after.plans[p] == r && id in after.tasks && after.tasks[id] == t
    requires t.taskId == id && TaskOk(t) && RecOk(r) && Joint(r, Some(t))
    requires r.spec.planId == p && r.spec.taskId == id && t.plan.Some? && t.plan.value.planId == p
    ensures PlanOk(after, p) && TaskRowOk(after, id)
  {
    assert Bound(r, t);
    hide RecOk, Joint, TokensOk, TaskOk, Bound;
  }

  lemma PutDirect(st: Store, after: Store, id: TaskId, t: TaskRow)
    requires StoreOk(st) && id in st.tasks && st.tasks[id].plan.None?
    requires t.taskId == id && t.plan.None? && TaskOk(t)
    requires after.plans == st.plans && after.tasks == st.tasks[id := t]
    requires TokensOk(after.tasks, after.nextToken)
    ensures StoreOk(after)
  {
    hide RecOk, Joint, TokensOk, TaskOk;
    forall q | q in after.plans ensures PlanOk(after, q) {
      assert PlanOk(st, q);
      assert BoundTask(after, after.plans[q]) == BoundTask(st, st.plans[q]);
    }
    forall o | o in after.tasks ensures TaskRowOk(after, o) {
      assert TaskRowOk(st, o);
    }
  }

  /** Keeping or giving back a token, or taking the next one. */
  lemma TokensKept(tasks: map<TaskId, TaskRow>, next: nat, id: TaskId, t: TaskRow)
    requires TokensOk(tasks, next) && id in tasks
    requires t.leaseToken == None || t.leaseToken == tasks[id].leaseToken
    ensures TokensOk(tasks[id := t], next)
  {
  }

  lemma TokenTaken(tasks: map<TaskId, TaskRow>, next: nat, id: TaskId, t: TaskRow)
    requires TokensOk(tasks, next) && id in tasks && t.leaseToken == Some(next)
    ensures TokensOk(tasks[id := t], next + 1)
  {
  }

  // ----- each operation -----

  lemma FreshOk(p: PlanSpec)
    requires ValidStructure(p) && DigestOk(p) && p.state == Draft
    ensures RecOk(FreshRec(p)) && Joint(FreshRec(p), None)
  {
    hide ValidStructure, DigestOk;
    var rec := FreshRec(p);
    assert rec.steps == Initial(Ids(p.steps)).steps;
    assert Replay(Ids(p.steps), rec.log) == Some(Initial(Ids(p.steps)));
  }

  lemma NewPlanOk(input: PlanSpec, now: int)
    ensures DigestOk(NewPlan(input, now))
  {
    var p := input.(revision := 1, digest := Text(""), state := Draft, createdAt := now);
    assert Canonical(NewPlan(input, now)) == Canonical(p);
  }

  lemma NewPlanIsDraft(input: PlanSpec, now: int)
    ensures NewPlan(input, now).state == Draft
    ensures FreshRec(NewPlan(input, now)).spec == NewPlan(input, now)
  {
  }

  lemma SaveKeeps(st: Store, input: PlanSpec, now: int)
    requires StoreOk(st) && SavePlan(st, input, now).Ok?
    ensures StoreOk(SavePlan(st, input, now).value)
  {
    var p := NewPlan(input, now);
    if p.planId !in st.plans {
      hide RecOk, Joint, StoreOk, NewPlan, ValidStructure, DigestOk, FreshRec;
      NewPlanOk(input, now);
      NewPlanIsDraft(input, now);
      FreshOk(p);
      AddPlan(st, p.planId, FreshRec(p));
    }
  }

  lemma AddPlan(st: Store, p: PlanId, rec: PlanRec)
    requires StoreOk(st) && p !in st.plans && rec.spec.planId == p && RecOk(rec) && Joint(rec, None)
    ensures StoreOk(st.(plans := st.plans[p := rec]))
  {
    hide RecOk, Joint, TokensOk, TaskOk;
    var after := st.(plans := st.plans[p := rec]);
    if rec.spec.taskId in st.tasks {
      assert TaskRowOk(st, rec.spec.taskId);
    }
    forall q | q in after.plans ensures PlanOk(after, q) {
      if q != p {
        assert PlanOk(st, q);
        assert BoundTask(after, after.plans[q]) == BoundTask(st, st.plans[q]);
      }
    }
    forall t | t in after.tasks ensures TaskRowOk(after, t) {
      assert TaskRowOk(st, t);
    }
  }

  lemma ApproveOpKeeps(st: Store, principal: Principal, a: Approval, key: Key, now: int)
    requires StoreOk(st) && ApprovePlanOp(st, principal, a, key, now).Ok?
    ensures StoreOk(ApprovePlanOp(st, principal, a, key, now).value)
  {
    hide RecOk, Joint, Approve, StoreOk;
    var p := a.planId;
    var taken := ApprovalIdTaken(st, a.approvalId);
    PlanFacts(st, p);
    ApproveKeeps(st.plans[p], BoundTask(st, st.plans[p]), principal, a, key, taken, now);
    PutPlan(st, p, Approve(st.plans[p], principal, a, key, taken, now).value.0);
  }

  lemma PlanFacts(st: Store, p: PlanId)
    requires StoreOk(st) && p in st.plans
    ensures RecOk(st.plans[p]) && Joint(st.plans[p], BoundTask(st, st.plans[p])) && st.plans[p].spec.planId == p
  {
    assert PlanOk(st, p);
  }

  lemma TaskFacts(st: Store, id: TaskId)
    requires StoreOk(st) && id in st.tasks
    ensures TaskOk(st.tasks[id]) && st.tasks[id].taskId == id
    ensures st.tasks[id].plan.Some? ==>
      var p := st.tasks[id].plan.value.planId;
      && p in st.plans && st.plans[p].spec.taskId == id && st.plans[p].spec.tenant == st.tasks[id].tenant
      && RecOk(st.plans[p]) && Joint(st.plans[p], Some(st.tasks[id]))
    ensures TokensOk(st.tasks, st.nextToken)
  {
    assert TaskRowOk(st, id);
    if st.tasks[id].plan.Some? {
      assert PlanOk(st, st.tasks[id].plan.value.planId);
    }
    hide RecOk, Joint, TokensOk;
  }

  lemma NewDirectTask(st: Store, after: Store, id: TaskId, t: TaskRow)
    requires StoreOk(st) && id !in st.tasks && t.taskId == id && t.plan.None? && TaskOk(t) && t.leaseToken.None?
    requires after.plans == st.plans && after.tasks == st.tasks[id := t] && after.nextToken == st.nextToken
    ensures StoreOk(after)
  {
    hide RecOk, Joint, TaskOk;
    forall q | q in after.plans ensures PlanOk(after, q) {
      assert PlanOk(st, q);
      assert BoundTask(after, after.plans[q]) == BoundTask(st, st.plans[q]);
    }
    forall o | o in after.tasks ensures TaskRowOk(after, o) {
      if o != id { assert TaskRowOk(st, o); }
    }
  }

  lemma NewPlannedTask(st: Store, after: Store, id: TaskId, t: TaskRow, p: PlanId, r: PlanRec)
    requires StoreOk(st) && id !in st.tasks && t.taskId == id && TaskOk(t) && t.leaseToken.None?
    requires p in st.plans && r.spec == st.plans[p].spec && t.plan.Some? && t.plan.value.planId == p
    requires RecOk(r) && Joint(r, Some(t))
    requires after.plans == st.plans[p := r] && after.tasks == st.tasks[id := t] && after.nextToken == st.nextToken
    ensures StoreOk(after)
  {
    hide RecOk, Joint, TokensOk, TaskOk, BoundTask, TaskRowOk;
    assert PlanOk(st, p);
    assert r.spec.taskId == id by { JointBinds(r, t); }
    OthersKept(st, after, id, t, p, r);
    PairWritten(after, id, t, p, r);
    TokenlessRow(st.tasks, st.nextToken, id, t);
  }

  lemma JointBinds(r: PlanRec, t: TaskRow)
    requires Joint(r, Some(t))
    ensures t.taskId == r.spec.taskId
  {
  }

  lemma TokenlessRow(tasks: map<TaskId, TaskRow>, next: nat, id: TaskId, t: TaskRow)
    requires TokensOk(tasks, next) && id !in tasks && t.leaseToken.None?
    ensures TokensOk(tasks[id := t], next)
  {
  }

  lemma CountersAside(st: Store, after: Store)
    requires StoreOk(st) && after == st.(windows := after.windows)
    ensures StoreOk(after)
  {
    hide RecOk, Joint, TaskOk, TokensOk;
    forall q | q in after.plans ensures PlanOk(after, q) {
      assert PlanOk(st, q);
      assert BoundTask(after, after.plans[q]) == BoundTask(st, st.plans[q]);
    }
    forall o | o in after.tasks ensures TaskRowOk(after, o) {
      assert TaskRowOk(st, o);
    }
  }

  lemma SubmitShape(st: Store, s: Submission, principal: Principal, now: int)
    requires Submit(st, s, principal, now).Ok?
    ensures var (after, outcome, id) := Submit(st, s, principal, now).value;
            && (outcome == Existing ==> after == st)
            && (outcome == Created ==>
                  && SubmissionOk(st, s, principal) && s.taskId !in st.tasks && id == s.taskId
                  && TasksWithKey(st, s.tenant, s.key) == {}
                  && var window := WindowStart(now, st.limits[s.tenant].windowSeconds);
                     var counted := Bump(Bump(st, TenantScope(s.tenant), window), OperatorScope(s.operator), window);
                     && Count(st, TenantScope(s.tenant), window) < st.limits[s.tenant].requestsPerWindow
                     && AdmitIfPlanned(counted, s, principal, now).Ok?
                     && var admitted := AdmitIfPlanned(counted, s, principal, now).value;
                        after == admitted.(tasks := admitted.tasks[s.taskId := NewTask(s, principal, now)]))
  {
    hide SubmissionOk, AdmitIfPlanned, WithinQuota, TasksWithKey, Bump, Count, NewTask, RetryAfter, WindowStart;
  }

  lemma AppliedSubmission(st: Store, e: Event)
    requires Governed(st, e) && e.op.OpSubmit?
    ensures var r := Submit(st, e.op.submission, e.op.principal, e.now);
            Attempt(st, e).Ok? == r.Ok? && Apply(st, e) == if r.Ok? then r.value.0 else st
  {
    hide Submit;
  }

  lemma SubmitKeeps(st: Store, s: Submission, principal: Principal, now: int)
    requires StoreOk(st) && Submit(st, s, principal, now).Ok?
    ensures StoreOk(Submit(st, s, principal, now).value.0)
  {
    SubmitShape(st, s, principal, now);
    var (after, outcome, id) := Submit(st, s, principal, now).value;
    if outcome == Created {
      var window := WindowStart(now, st.limits[s.tenant].windowSeconds);
      var counted := Bump(Bump(st, TenantScope(s.tenant), window), OperatorScope(s.operator), window);
      var t := NewTask(s, principal, now);
      hide RecOk, Joint, StoreOk, Submit, WindowStart, Admit;
      CountersAside(st, counted);
      if s.plan.None? {
        NewDirectTask(counted, after, s.taskId, t);
      } else {
        PlannedSubmitKeeps(counted, after, s, principal, now);
      }
    }
  }

  lemma PlannedSubmitKeeps(st: Store, after: Store, s: Submission, principal: Principal, now: int)
    requires StoreOk(st) && s.plan.Some? && s.taskId !in st.tasks && AdmitIfPlanned(st, s, principal, now).Ok?
    requires s.tenant == principal.tenant
    requires var admitted := AdmitIfPlanned(st, s, principal, now).value;
             after == admitted.(tasks := admitted.tasks[s.taskId := NewTask(s, principal, now)])
    ensures StoreOk(after)
  {
    hide RecOk, Joint, StoreOk, Admit;
    var p := s.plan.value.planId;
    PlanFacts(st, p);
    var rec := st.plans[p];
    AdmittedUnbound(st, rec, principal, s, now);
    AdmitKeeps(rec, principal, s.taskId, s.plan.value, now);
    var r := Admit(rec, principal, s.taskId, s.plan.value, now).value;
    JointAfterAdmission(rec, r, NewTask(s, principal, now));
    NewPlannedTask(st, after, s.taskId, NewTask(s, principal, now), p, r);
  }

  lemma AdmittedUnbound(st: Store, rec: PlanRec, principal: Principal, s: Submission, now: int)
    requires s.plan.Some? && s.taskId !in st.tasks && Admit(rec, principal, s.taskId, s.plan.value, now).Ok?
    ensures BoundTask(st, rec) == None
  {
    hide PreflightOk, ValidStructure, DigestOk;
  }

  lemma JointAfterAdmission(rec: PlanRec, r: PlanRec, t: TaskRow)
    requires Joint(rec, None) && r == rec.(state := Approved, log := r.log, checkpoints := r.checkpoints)
    requires TaskOk(t) && t.status == TQueued && t.planStep.None? && t.taskId == rec.spec.taskId && t.tenant == rec.spec.tenant
    requires t.plan == Some(PlanRef(rec.spec.planId, rec.spec.revision, rec.spec.digest))
    ensures Joint(r, Some(t))
  {
  }

  lemma {:induction false} ClaimFromKeeps(st: Store, order: seq<TaskId>, ctx: ClaimContext, now: int, until: int)
    requires StoreOk(st)
    requires forall t :: t in order ==> t in st.tasks && st.tasks[t].status == TQueued
    requires ClaimFrom(st, order, ctx, now, until).Ok?
    ensures StoreOk(ClaimFrom(st, order, ctx, now, until).value.0)
  {
    hide RecOk, Joint, StoreOk, PrepareClaim, TokensOk, TaskOk;
    if order != [] {
      var id := order[0];
      var task := st.tasks[id];
      assert id in order;
      TaskFacts(st, id);
      TokenTaken(st.tasks, st.nextToken, id, Leased(task, None, st.nextToken, until));
      if task.plan.None? {
        LeasedOk(task, None, st.nextToken, until);
        PutDirect(st, TakeLease(st, id, None, until), id, Leased(task, None, st.nextToken, until));
      } else {
        var p := task.plan.value.planId;
        var granted := ctx.(granted := task.capabilities);
        var claimed := PrepareClaim(st.plans[p], task, task.plan.value, granted, now).value;
        if claimed.None? {
          assert forall t :: t in order[1..] ==> t in order;
          ClaimFromKeeps(st, order[1..], ctx, now, until);
        } else {
          var (r, step) := claimed.value;
          var t := Leased(task, Some(step), st.nextToken, until);
          ClaimKeeps(st.plans[p], task, task.plan.value, granted, now, st.nextToken, until);
          LeasedOk(task, Some(step), st.nextToken, until);
          TokenTaken(st.tasks, st.nextToken, id, t);
          PutPair(st, TakeLease(st.(plans := st.plans[p := r]), id, Some(step), until), id, t, p, r);
        }
      }
    }
  }

  lemma LeasedOk(task: TaskRow, step: Option<StepId>, token: nat, until: int)
    requires TaskOk(task) && task.status == TQueued && (step.Some? <==> task.plan.Some?)
    ensures TaskOk(Leased(task, step, token, until))
  {
  }

  /** Rows that identify a task never change. */
  predicate SameIdentity(a: TaskRow, b: TaskRow) {
    a.taskId == b.taskId && a.tenant == b.tenant && a.operator == b.operator && a.key == b.key
    && a.fingerprint == b.fingerprint && a.plan == b.plan && a.createdAt == b.createdAt && a.budget == b.budget
    && a.maxAttempts == b.maxAttempts && a.priority == b.priority && a.capabilities == b.capabilities
  }

  lemma FinishPlannedTask(rec: PlanRec, task: TaskRow, result: Option<string>, failed: bool, policy: Policy,
                          ctx: ClaimContext, now: int)
    requires FinishPlanned(rec, task, result, failed, policy, ctx, now).Ok?
    ensures var (_, t, _) := FinishPlanned(rec, task, result, failed, policy, ctx, now).value;
            Released(task, t)
  {
    hide PostStepOk, LoadPlan, FinishCancelled, FinishSuccess, FinishFailure, Released;
    var id, digest := task.planStep.value, ctx.stateDigest;
    if task.cancelRequested || task.status == TCancelRequested {
      CancelledReleases(rec, task, id, digest, now);
    } else if !failed && PostStepOk(rec, task, id, ctx, now) {
      SuccessReleases(rec, task, id, result, digest, now);
    } else {
      FailureReleases(rec, task, id, FindStep(rec.spec.steps, id).value.maxAttempts, policy, digest, now);
    }
  }

  /** The task gave its token back and is otherwise the same task. */
  predicate Released(task: TaskRow, t: TaskRow) {
    SameIdentity(task, t) && t.leaseToken == None && t.attempts == task.attempts
  }

  lemma CancelledReleases(rec: PlanRec, task: TaskRow, id: StepId, digest: Option<Digest>, now: int)
    requires FinishCancelled(rec, task, id, digest, now).Ok?
    ensures Released(task, FinishCancelled(rec, task, id, digest, now).value.1)
  {
    hide MarkUnknown;
  }

  lemma SuccessReleases(rec: PlanRec, task: TaskRow, id: StepId, result: Option<string>, digest: Option<Digest>, now: int)
    requires id in rec.attempts && FinishSuccess(rec, task, id, result, digest, now).Ok?
    ensures Released(task, FinishSuccess(rec, task, id, result, digest, now).value.1)
  {
    hide EndStep, CompensateSources, AppendPlan, StepsWhere;
  }

  lemma FailureReleases(rec: PlanRec, task: TaskRow, id: StepId, max: nat, policy: Policy, digest: Option<Digest>, now: int)
    requires id in rec.attempts && FinishFailure(rec, task, id, max, policy, digest, now).Ok?
    ensures Released(task, FinishFailure(rec, task, id, max, policy, digest, now).value.1)
  {
    hide EndStep, MarkUnknown, AppendPlan, AppendStep, RetryDelay;
  }

  lemma FinishOpKeeps(st: Store, id: TaskId, tenant: TenantId, token: nat, result: Option<string>, failed: bool,
                      policy: Policy, ctx: ClaimContext, now: int)
    requires StoreOk(st) && Finish(st, id, tenant, token, result, failed, policy, ctx, now).Ok?
    ensures StoreOk(Finish(st, id, tenant, token, result, failed, policy, ctx, now).value.0)
  {
    hide RecOk, Joint, StoreOk, FinishPlanned, TokensOk, FinishDirect;
    var task := st.tasks[id];
    if !task.status.IsTerminal() {
      TaskFacts(st, id);
      var after := Finish(st, id, tenant, token, result, failed, policy, ctx, now).value.0;
      if task.plan.Some? {
        var p := task.plan.value.planId;
        var (r, t, _) := FinishPlanned(st.plans[p], task, result, failed, policy, ctx, now).value;
        FinishKeeps(st.plans[p], task, result, failed, policy, ctx, now);
        FinishPlannedTask(st.plans[p], task, result, failed, policy, ctx, now);
        JointTask(r, t);
        TokensKept(st.tasks, st.nextToken, id, t);
        PutPair(st, after, id, t, p, r);
      } else {
        DirectFinished(task, result, failed, policy, now);
        var (t, _) := FinishDirect(task, result, failed, policy, now);
        TokensKept(st.tasks, st.nextToken, id, t);
        PutDirect(st, after, id, t);
      }
    }
  }

  lemma JointTask(r: PlanRec, t: TaskRow)
    requires Joint(r, Some(t))
    ensures TaskOk(t)
  {
  }

  lemma DirectFinished(task: TaskRow, result: Option<string>, failed: bool, policy: Policy, now: int)
    requires TaskOk(task) && task.plan.None? && task.status.IsLeased()
    ensures var (t, _) := FinishDirect(task, result, failed, policy, now);
            TaskOk(t) && SameIdentity(task, t) && t.leaseToken == None
  {
    hide RetryDelay;
  }

  lemma CancelOpKeeps(st: Store, id: TaskId, tenant: TenantId, now: int)
    requires StoreOk(st) && RequestCancel(st, id, tenant, now).Ok?
    ensures StoreOk(RequestCancel(st, id, tenant, now).value)
  {
    hide RecOk, Joint, StoreOk, CancelPlanned, TokensOk;
    var task := st.tasks[id];
    if !task.status.IsTerminal() {
      TaskFacts(st, id);
      var t := CancelledTask(task, now);
      TokensKept(st.tasks, st.nextToken, id, t);
      if task.plan.Some? {
        var p := task.plan.value.planId;
        CancelKeeps(st.plans[p], task, now);
        PutPair(st, RequestCancel(st, id, tenant, now).value, id, t, p, CancelPlanned(st.plans[p], task, now).value);
      } else {
        PutDirect(st, RequestCancel(st, id, tenant, now).value, id, t);
      }
    }
  }

  lemma RecoverOneKeeps(st: Store, id: TaskId, now: int)
    requires StoreOk(st) && id in st.tasks && st.tasks[id].status.IsLeased() && RecoverOne(st, id, now).Ok?
    ensures StoreOk(RecoverOne(st, id, now).value)
    ensures forall o :: o in st.tasks && o != id ==> RecoverOne(st, id, now).value.tasks[o] == st.tasks[o]
  {
    hide RecOk, Joint, StoreOk, RecoverExpired, TokensOk;
    var task := st.tasks[id];
    TaskFacts(st, id);
    if task.plan.Some? {
      var p := task.plan.value.planId;
      var (r, t) := RecoverExpired(st.plans[p], task, now).value;
      RecoverExpiredKeeps(st.plans[p], task, now);
      RecoveredTask(st.plans[p], task, now);
      JointTask(r, t);
      TokensKept(st.tasks, st.nextToken, id, t);
      PutPair(st, RecoverOne(st, id, now).value, id, t, p, r);
    } else {
      TokensKept(st.tasks, st.nextToken, id, RecoverDirect(task, now));
      PutDirect(st, RecoverOne(st, id, now).value, id, RecoverDirect(task, now));
    }
  }

  lemma RecoveredTask(rec: PlanRec, task: TaskRow, now: int)
    requires RecoverExpired(rec, task, now).Ok?
    ensures var (_, t) := RecoverExpired(rec, task, now).value;
            SameIdentity(task, t) && t.leaseToken == None && t.attempts == task.attempts
  {
    hide LoadPlan, MarkUnknown;
  }

  lemma {:induction false} RecoverAllKeeps(st: Store, order: seq<TaskId>, now: int)
    requires StoreOk(st) && Distinct(order)
    requires forall t :: t in order ==> t in st.tasks && st.tasks[t].status.IsLeased()
    requires RecoverAll(st, order, now).Ok?
    ensures StoreOk(RecoverAll(st, order, now).value)
    ensures forall o :: o in st.tasks && o !in order ==> RecoverAll(st, order, now).value.tasks[o] == st.tasks[o]
  {
    hide StoreOk, RecoverOne, TaskOk;
    if order != [] {
      var n := |order| - 1;
      assert order == order[..n] + [order[n]];
      RecoverAllKeeps(st, order[..n], now);
      var mid := RecoverAll(st, order[..n], now).value;
      assert mid.tasks[order[n]] == st.tasks[order[n]];
      RecoverOneKeeps(mid, order[n], now);
    }
  }

  lemma ResolveOpKeeps(st: Store, principal: Principal, p: PlanId, decision: ResolutionDecision, key: Key,
                       evidence: Option<Digest>, now: int)
    requires StoreOk(st) && ResolvePlan(st, principal, p, decision, key, evidence, now).Ok?
    ensures StoreOk(ResolvePlan(st, principal, p, decision, key, evidence, now).value.0)
  {
    hide RecOk, Joint, StoreOk, Resolve, TokensOk;
    PlanFacts(st, p);
    var rec := st.plans[p];
    var task := BoundTask(st, rec);
    ResolveKeeps(rec, task, principal, decision, key, evidence, now);
    ResolvedTaskRow(rec, task, principal, decision, key, evidence, now);
    var (r, t, _) := Resolve(rec, task, principal, decision, key, evidence, now).value;
    if t.None? {
      PutPlan(st, p, r);
    } else {
      TaskFacts(st, rec.spec.taskId);
      JointTask(r, t.value);
      TokensKept(st.tasks, st.nextToken, rec.spec.taskId, t.value);
      PutPair(st, ResolvePlan(st, principal, p, decision, key, evidence, now).value.0, rec.spec.taskId, t.value, p, r);
    }
  }

  lemma ResolvedTaskRow(rec: PlanRec, task: Option<TaskRow>, principal: Principal, decision: ResolutionDecision,
                        key: Key, evidence: Option<Digest>, now: int)
    requires Resolve(rec, task, principal, decision, key, evidence, now).Ok?
    ensures var (_, t, _) := Resolve(rec, task, principal, decision, key, evidence, now).value;
            && (t.Some? <==> task.Some?)
            && (t.Some? ==>
                  && SameIdentity(task.value, t.value) && t.value.attempts == task.value.attempts
                  && (t.value.leaseToken == None || t.value.leaseToken == task.value.leaseToken))
  {
    hide Loadable, ResolveWith, KeyUsed, KeyUsedFor;
  }

  lemma ResumeOpKeeps(st: Store, p: PlanId, view: ResumeView, now: int)
    requires StoreOk(st) && GovernedView(view) && ResumeWriteOp(st, p, view, now).Ok?
    ensures StoreOk(ResumeWriteOp(st, p, view, now).value)
  {
    hide RecOk, Joint, StoreOk, ResumeWrite;
    PlanFacts(st, p);
    ResumeWriteKeeps(st.plans[p], BoundTask(st, st.plans[p]), view, now);
    PutPlan(st, p, ResumeWrite(st.plans[p], view, now).value);
  }

  /** Every governed step keeps the store invariant; a failing one changes nothing. */
  lemma StepKeeps(st: Store, e: Event)
    requires StoreOk(st) && Governed(st, e)
    ensures StoreOk(Apply(st, e))
  {
    hide StoreOk, SavePlan, ApprovePlanOp, Submit, ClaimFrom, Finish, RequestCancel, RecoverAll, ResolvePlan, ResumeWriteOp;
    if Attempt(st, e).Ok? {
      match e.op {
        case OpSave(input) => SaveKeeps(st, input, e.now);
        case OpApprove(principal, a, key) => ApproveOpKeeps(st, principal, a, key, e.now);
        case OpSubmit(s, principal) => SubmitKeeps(st, s, principal, e.now);
        case OpClaim(order, ctx, leaseFor) => ClaimFromKeeps(st, order, ctx, e.now, e.now + leaseFor);
        case OpFinish(id, tenant, token, result, failed, policy, ctx) =>
          FinishOpKeeps(st, id, tenant, token, result, failed, policy, ctx, e.now);
        case OpCancel(id, tenant) => CancelOpKeeps(st, id, tenant, e.now);
        case OpRecover(order) => RecoverAllKeeps(st, order, e.now);
        case OpResolve(principal, p, decision, key, evidence) => ResolveOpKeeps(st, principal, p, decision, key, evidence, e.now);
        case OpResumeWrite(p, view) => ResumeOpKeeps(st, p, view, e.now);
      }
    }
  }

  /** The invariant holds in every store of every governed run. */
  lemma {:induction false} RunKeeps(stores: seq<Store>, events: seq<Event>, i: nat)
    requires IsRun(stores, events) && i < |stores|
    ensures StoreOk(stores[i])
  {
    if i > 0 {
      RunKeeps(stores, events, i - 1);
      assert IsStep(stores[i - 1], events[i - 1], stores[i - 1 + 1]);
      StepKeeps(stores[i - 1], events[i - 1]);
    }
  }

  /** One step of a run, with the invariant on both sides. */
  lemma RunStep(stores: seq<Store>, events: seq<Event>, i: nat)
    requires IsRun(stores, events) && i < |events|
    ensures Governed(stores[i], events[i]) && stores[i + 1] == Apply(stores[i], events[i])
    ensures StoreOk(stores[i]) && StoreOk(stores[i + 1])
  {
    hide StoreOk, Apply;
    RunKeeps(stores, events, i);
    RunKeeps(stores, events, i + 1);
    assert IsStep(stores[i], events[i], stores[i + 1]);
  }

  /** Event sourcing never drifts: in every store of every governed run each plan inspects as stable,
      its snapshot is the fold of its log, and its log obeys every law. */
  lemma AlwaysStable(stores: seq<Store>, events: seq<Event>, i: nat, p: PlanId)
    requires IsRun(stores, events) && i < |stores| && p in stores[i].plans
    ensures Inspect(stores[i].plans[p]) == None
    ensures Journaled(stores[i].plans[p])
  {
    RunKeeps(stores, events, i);
    PlanFacts(stores[i], p);
    InspectStable(stores[i].plans[p]);
  }

  /** The joint state of a plan and its task, in every store of every governed run. */
  lemma AlwaysJoint(stores: seq<Store>, events: seq<Event>, i: nat, t: TaskId)
    requires IsRun(stores, events) && i < |stores| && t in stores[i].tasks && stores[i].tasks[t].plan.Some?
    ensures stores[i].tasks[t].plan.value.planId in stores[i].plans
    ensures var task := stores[i].tasks[t];
            var rec := stores[i].plans[task.plan.value.planId];
            && (task.status.IsLeased() ==>
                  && task.planStep.Some? && task.planStep.value in rec.steps
                  && rec.steps[task.planStep.value] in {StepRunning, StepUnknown})
            && (forall id :: id in rec.steps && rec.steps[id] == StepRunning ==>
                  task.status.IsLeased() && task.planStep == Some(id))
            && (task.status == TSucceeded <==> rec.state == Succeeded)
            && (rec.state == Succeeded ==> forall id :: id in rec.steps ==> rec.steps[id] == StepSucceeded)
            && (rec.state == CancelRequested ==> task.status == TCancelRequested)
            && (rec.state == Compensated ==> forall id :: id in rec.steps ==> rec.steps[id] != StepCompensating)
  {
    hide IsRun, StoreOk, RecOk;
    RunKeeps(stores, events, i);
    TaskFacts(stores[i], t);
  }
}
