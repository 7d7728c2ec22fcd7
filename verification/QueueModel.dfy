/** The queue store as a value, and its operations as atomic steps (crates/shaka-queue/src/lib.rs and
    the public operations of plan_store.rs). Every operation runs in one IMMEDIATE transaction, so a
    failing one leaves the store as it was. Instants are milliseconds. */
module QueueModel {
  import opened Base
  import opened PlanCore
  import opened TransitionLog
  import opened PlanTransactions
  import opened PlanInvariants
  import opened PlanPreservation
  import opened PlanResolution

  datatype TenantLimits = TenantLimits(
    maxActiveTasks: nat, maxDailyTasks: nat, maxDailyCost: nat, requestsPerWindow: nat, windowSeconds: nat)

  datatype Session = Session(tenant: TenantId, operator: OperatorId)

  datatype Scope = TenantScope(tenant: TenantId) | OperatorScope(operator: OperatorId)

  datatype Store = Store(
    plans: map<PlanId, PlanRec>, tasks: map<TaskId, TaskRow>, windows: map<(Scope, int), nat>,
    limits: map<TenantId, TenantLimits>, sessions: map<nat, Session>, nextToken: nat)

  // ----- saving a plan -----

  /** `PlanSpec::new`: first revision, draft, digest computed. */
  function NewPlan(input: PlanSpec, now: int): PlanSpec {
    var p := input.(revision := 1, digest := Text(""), state := Draft, createdAt := now);
    p.(digest := CalculateDigest(p))
  }

  function FreshRec(p: PlanSpec): PlanRec {
    PlanRec(p, p.state, map id | id in Ids(p.steps) :: StepPending, map id | id in Ids(p.steps) :: 0, [], [], [])
  }

  /** `PlanSpec::new` followed by `save_plan`. */
  ghost function SavePlan(st: Store, input: PlanSpec, now: int): Result<Store> {
    var p := NewPlan(input, now);
    if !BudgetOk(p.budget) || !ValidStructure(p) then Err(CoreRejected)
    else if p.planId in st.plans then
      var rec := st.plans[p.planId];
      if rec.spec.tenant != p.tenant then Err(UniqueViolation)
      else if rec.spec.digest != p.digest then Err(InvalidInput)
      else Ok(st)
    else Ok(st.(plans := st.plans[p.planId := FreshRec(p)]))
  }

  // ----- approval -----

  predicate ApprovalIdTaken(st: Store, id: nat) {
    exists p :: p in st.plans && exists i :: 0 <= i < |st.plans[p].approvals| && st.plans[p].approvals[i].approval.approvalId == id
  }

  ghost function ApprovePlanOp(st: Store, principal: Principal, a: Approval, key: Key, now: int): Result<Store> {
    if a.planId !in st.plans then Err(NotFound) else
      var (r, _) :- Approve(st.plans[a.planId], principal, a, key, ApprovalIdTaken(st, a.approvalId), now);
      Ok(st.(plans := st.plans[a.planId := r]))
  }

  // ----- admission -----

  datatype Submission = Submission(
    session: nat, taskId: TaskId, tenant: TenantId, operator: OperatorId, budget: Budget, key: string,
    fingerprint: string, priority: int, maxAttempts: nat, plan: Option<PlanRef>)

  /** The start, in seconds, of the fixed window containing an instant. */
  function WindowStart(now: int, windowSeconds: nat): int {
    var window := if windowSeconds == 0 then 1 else windowSeconds;
    var seconds := now / 1000;
    seconds - seconds % window
  }

  function DayStart(now: int): int {
    now - now % 86_400_000
  }

  function Count(st: Store, scope: Scope, window: int): nat {
    if (scope, window) in st.windows then st.windows[(scope, window)] else 0
  }

  function TasksWithKey(st: Store, tenant: TenantId, key: string): set<TaskId> {
    set t | t in st.tasks && st.tasks[t].tenant == tenant && st.tasks[t].key == key
  }

  function ActiveTasks(st: Store, tenant: TenantId): set<TaskId> {
    set t | t in st.tasks && st.tasks[t].tenant == tenant && !st.tasks[t].status.IsTerminal()
  }

  function TasksSince(st: Store, tenant: TenantId, since: int): set<TaskId> {
    set t | t in st.tasks && st.tasks[t].tenant == tenant && since <= st.tasks[t].createdAt
  }

  function CostOf(st: Store, ids: seq<TaskId>): nat
    requires forall id :: id in ids ==> id in st.tasks
  {
    if ids == [] then 0
    else SaturatingAdd(CostOf(st, ids[..|ids| - 1]), st.tasks[ids[|ids| - 1]].budget.maxCostMicrounits)
  }

  function RetryAfter(now: int, windowSeconds: nat): int {
    var left := (WindowStart(now, windowSeconds) * 1000 + windowSeconds * 1000 - now) / 1000;
    if left < 1 then 1 else left
  }

  function NewTask(s: Submission, principal: Principal, now: int): TaskRow {
    TaskRow(s.taskId, s.tenant, s.operator, s.key, s.fingerprint, s.budget, CapabilitiesFor(principal.role),
            TQueued, s.priority, 0, s.maxAttempts, now, false, None, None, None, now, None, s.plan, None)
  }

  /** Everything that is checked before the idempotency lookup. */
  predicate SubmissionOk(st: Store, s: Submission, principal: Principal) {
    && IsKey(s.key, 256) && IsKey(s.fingerprint, 128)
    && 1 <= s.maxAttempts <= 10 && BudgetOk(s.budget)
    && s.tenant == principal.tenant && s.operator == principal.operator
    && s.session in st.sessions && st.sessions[s.session] == Session(principal.tenant, principal.operator)
    && principal.tenant in st.limits
    && (s.plan.Some? ==> RefOk(s.plan.value))
  }

  /** Why a submission is refused before the idempotency lookup, in the order of the checks. */
  function SubmissionError(st: Store, s: Submission, principal: Principal): Error {
    if s.plan.Some? && !RefOk(s.plan.value) then InvalidInput
    else if !IsKey(s.key, 256) || !IsKey(s.fingerprint, 128) || !(1 <= s.maxAttempts <= 10) then InvalidInput
    else if !BudgetOk(s.budget) then CoreRejected
    else if s.tenant != principal.tenant || s.operator != principal.operator then Forbidden
    else if s.session !in st.sessions || st.sessions[s.session].tenant != principal.tenant then NotFound
    else if st.sessions[s.session].operator != principal.operator then Forbidden
    else NotFound
  }

  function Bump(st: Store, scope: Scope, window: int): Store {
    st.(windows := st.windows[(scope, window) := Count(st, scope, window) + 1])
  }

  ghost function AdmitIfPlanned(st: Store, s: Submission, principal: Principal, now: int): Result<Store> {
    if s.plan.None? then Ok(st)
    else if s.plan.value.planId !in st.plans then Err(NotFound)
    else
      var r :- Admit(st.plans[s.plan.value.planId], principal, s.taskId, s.plan.value, now);
      Ok(st.(plans := st.plans[s.plan.value.planId := r]))
  }

  predicate WithinQuota(st: Store, s: Submission, limits: TenantLimits, now: int) {
    && |ActiveTasks(st, s.tenant)| < limits.maxActiveTasks
    && |TasksSince(st, s.tenant, DayStart(now))| < limits.maxDailyTasks
    && SaturatingAdd(CostOf(st, Ascending(TasksSince(st, s.tenant, DayStart(now)))), s.budget.maxCostMicrounits)
         <= limits.maxDailyCost
  }

  datatype SubmitOutcome = Created | Existing

  /** `submit_task_governed_with_plan_and_provenance`. */
  ghost function Submit(st: Store, s: Submission, principal: Principal, now: int)
    : Result<(Store, SubmitOutcome, TaskId)>
  {
    if !SubmissionOk(st, s, principal) then Err(SubmissionError(st, s, principal)) else
      var limits := st.limits[s.tenant];
      var same := TasksWithKey(st, s.tenant, s.key);
      if same != {} then
        var existing := st.tasks[MinOf(same)];
        if existing.fingerprint == s.fingerprint && existing.plan == s.plan
        then Ok((st, Existing, MinOf(same))) else Err(IdempotencyConflict)
      else
        var window := WindowStart(now, limits.windowSeconds);
        if Count(st, TenantScope(s.tenant), window) >= limits.requestsPerWindow
          || Count(st, OperatorScope(s.operator), window) >= limits.requestsPerWindow
        then Err(RateLimited(RetryAfter(now, limits.windowSeconds)))
        else
          var counted := Bump(Bump(st, TenantScope(s.tenant), window), OperatorScope(s.operator), window);
          var admitted :- AdmitIfPlanned(counted, s, principal, now);
          if !WithinQuota(admitted, s, limits, now) then Err(QuotaExceeded)
          else if s.taskId in st.tasks then Err(UniqueViolation)
          else Ok((admitted.(tasks := admitted.tasks[s.taskId := NewTask(s, principal, now)]), Created, s.taskId))
  }

  // ----- claim -----

  predicate Claimable(t: TaskRow, now: int) {
    t.status == TQueued && !t.cancelRequested && t.nextAttemptAt <= now
  }

  /** `ORDER BY priority DESC, created_at ASC`. */
  predicate Before(a: TaskRow, b: TaskRow) {
    a.priority > b.priority || (a.priority == b.priority && a.createdAt <= b.createdAt)
  }

  /** A list SQLite may deliver for the claim query: eligible rows, ordered, cut off at the limit.
      Rows with equal priority and creation time may come in any order. */
  predicate IsClaimQuery(st: Store, order: seq<TaskId>, now: int) {
    && Distinct(order) && |order| <= 64
    && (forall t :: t in order ==> t in st.tasks && Claimable(st.tasks[t], now))
    && (forall i, j :: 0 <= i < j < |order| ==> Before(st.tasks[order[i]], st.tasks[order[j]]))
    && (forall t :: t in st.tasks && Claimable(st.tasks[t], now) && t !in order ==>
          |order| == 64 && forall o :: o in order ==> Before(st.tasks[o], st.tasks[t]))
  }

  function TakeLease(st: Store, id: TaskId, step: Option<StepId>, until: int): Store
    requires id in st.tasks
  {
    st.(tasks := st.tasks[id := Leased(st.tasks[id], step, st.nextToken, until)], nextToken := st.nextToken + 1)
  }

  /** The candidate loop of the claim: the first task that yields work gets the lease. */
  ghost function ClaimFrom(st: Store, order: seq<TaskId>, ctx: ClaimContext, now: int, until: int)
    : Result<(Store, Option<TaskId>)>
    requires forall t :: t in order ==> t in st.tasks
  {
    if order == [] then Ok((st, None)) else
      var id := order[0];
      var task := st.tasks[id];
      if task.plan.None? then Ok((TakeLease(st, id, None, until), Some(id)))
      else if task.plan.value.planId !in st.plans then Err(NotFound)
      else
        var p := task.plan.value.planId;
        var claimed :- PrepareClaim(st.plans[p], task, task.plan.value, ctx.(granted := task.capabilities), now);
        match claimed
        case None => ClaimFrom(st, order[1..], ctx, now, until)
        case Some((r, step)) => Ok((TakeLease(st.(plans := st.plans[p := r]), id, Some(step), until), Some(id)))
  }

  /** `claim_next_with_plan_context`. */
  ghost function Claim(st: Store, order: seq<TaskId>, ctx: ClaimContext, now: int, leaseFor: int)
    : Result<(Store, Option<TaskId>)>
    requires forall t :: t in order ==> t in st.tasks
  {
    if leaseFor <= 0 then Err(InvalidInput) else ClaimFrom(st, order, ctx, now, now + leaseFor)
  }

  // ----- finish -----

  predicate HoldsLease(t: TaskRow, token: nat, now: int) {
    t.leaseToken == Some(token) && t.leaseUntil.Some? && now < t.leaseUntil.value
  }

  function FinishDirect(t: TaskRow, result: Option<string>, failed: bool, policy: Policy, now: int)
    : (TaskRow, FinishOutcome)
  {
    if t.cancelRequested || t.status == TCancelRequested then
      (t.Release(TCancelled).(cancelRequested := true, completedAt := Some(now), planStep := t.planStep), FinishedCancelled)
    else if policy.retryable && t.attempts < t.maxAttempts then
      var at := now + RetryDelay(t.attempts, policy.baseDelay, policy.maxDelay);
      (t.Release(TQueued).(nextAttemptAt := at, result := None, planStep := t.planStep), Requeued(at))
    else
      (t.Release(if failed then TFailed else TSucceeded).(result := result, completedAt := Some(now), planStep := t.planStep),
       if failed then FinishedFailed else FinishedSucceeded)
  }

  function TerminalOutcome(status: TaskStatus): FinishOutcome {
    match status
    case TSucceeded => FinishedSucceeded
    case TCancelled => FinishedCancelled
    case _ => FinishedFailed
  }

  /** `finish_task_with_lease_token`. */
  ghost function Finish(st: Store, id: TaskId, tenant: TenantId, token: nat, result: Option<string>, failed: bool,
                        policy: Policy, ctx: ClaimContext, now: int): Result<(Store, FinishOutcome)>
  {
    if id !in st.tasks || st.tasks[id].tenant != tenant then Err(NotFound) else
      var task := st.tasks[id];
      if task.status.IsTerminal() then Ok((st, TerminalOutcome(task.status)))
      else if !HoldsLease(task, token, now) then Err(LeaseLost)
      else if task.plan.Some? then
        if task.plan.value.planId !in st.plans then Err(NotFound) else
          var p := task.plan.value.planId;
          var (r, t, outcome) :- FinishPlanned(st.plans[p], task, result, failed, policy, ctx, now);
          Ok((st.(plans := st.plans[p := r], tasks := st.tasks[id := t]), outcome))
      else
        var (t, outcome) := FinishDirect(task, result, failed, policy, now);
        Ok((st.(tasks := st.tasks[id := t]), outcome))
  }

  // ----- cancellation -----

  /** `request_cancel`. */
  ghost function RequestCancel(st: Store, id: TaskId, tenant: TenantId, now: int): Result<Store> {
    if id !in st.tasks || st.tasks[id].tenant != tenant then Err(NotFound) else
      var task := st.tasks[id];
      if task.status.IsTerminal() then Ok(st)
      else if task.plan.Some? then
        if task.plan.value.planId !in st.plans then Err(NotFound) else
          var p := task.plan.value.planId;
          var r :- CancelPlanned(st.plans[p], task, now);
          Ok(st.(plans := st.plans[p := r], tasks := st.tasks[id := CancelledTask(task, now)]))
      else Ok(st.(tasks := st.tasks[id := CancelledTask(task, now)]))
  }

  // ----- expired leases -----

  predicate Expired(t: TaskRow, now: int) {
    t.status.IsLeased() && t.leaseUntil.Some? && t.leaseUntil.value <= now
  }

  /** A list SQLite may deliver for the recovery query (its order column is not modelled). */
  predicate IsRecoveryQuery(st: Store, order: seq<TaskId>, now: int) {
    && Distinct(order) && |order| <= 128
    && (forall t :: t in order ==> t in st.tasks && Expired(st.tasks[t], now))
    && (forall t :: t in st.tasks && Expired(st.tasks[t], now) && t !in order ==> |order| == 128)
  }

  function RecoverDirect(t: TaskRow, now: int): TaskRow {
    if t.cancelRequested then t.Release(TCancelled).(planStep := t.planStep, completedAt := Some(now))
    else t.Release(TQueued).(planStep := t.planStep)
  }

  ghost function RecoverOne(st: Store, id: TaskId, now: int): Result<Store>
    requires id in st.tasks
  {
    var task := st.tasks[id];
    if task.plan.None? then Ok(st.(tasks := st.tasks[id := RecoverDirect(task, now)]))
    else if task.plan.value.planId !in st.plans then Err(NotFound)
    else
      var p := task.plan.value.planId;
      var (r, t) :- RecoverExpired(st.plans[p], task, now);
      Ok(st.(plans := st.plans[p := r], tasks := st.tasks[id := t]))
  }

  /** `recover_expired_leases`: all candidates or none. */
  ghost function RecoverAll(st: Store, order: seq<TaskId>, now: int): (r: Result<Store>)
    requires forall t :: t in order ==> t in st.tasks
    ensures r.Ok? ==> r.value.tasks.Keys == st.tasks.Keys
  {
    if order == [] then Ok(st) else
      var before :- RecoverAll(st, order[..|order| - 1], now);
      RecoverOne(before, order[|order| - 1], now)
  }

  // ----- resolution and resumption -----

  predicate Bound(rec: PlanRec, t: TaskRow) {
    t.plan.Some? && t.plan.value.planId == rec.spec.planId && t.plan.value.revision == rec.spec.revision
    && t.tenant == rec.spec.tenant
  }

  /** The task row the plan's statements address. */
  function BoundTask(st: Store, rec: PlanRec): Option<TaskRow> {
    if rec.spec.taskId in st.tasks && Bound(rec, st.tasks[rec.spec.taskId])
    then Some(st.tasks[rec.spec.taskId]) else None
  }

  /** `resolve_plan_unknown`. */
  ghost function ResolvePlan(st: Store, principal: Principal, p: PlanId, decision: ResolutionDecision, key: Key,
                             evidence: Option<Digest>, now: int): Result<(Store, ResolutionOutcome)>
  {
    if p !in st.plans then Err(NotFound) else
      var rec := st.plans[p];
      var (r, t, outcome) :- Resolve(rec, BoundTask(st, rec), principal, decision, key, evidence, now);
      var updated := st.(plans := st.plans[p := r]);
      Ok((if t.None? then updated else updated.(tasks := st.tasks[rec.spec.taskId := t.value]), outcome))
  }

  /** The write phase of `resume_plan`. */
  function ResumeWriteOp(st: Store, p: PlanId, view: ResumeView, now: int): Result<Store> {
    if p !in st.plans then Err(NotFound) else
      var r :- ResumeWrite(st.plans[p], view, now);
      Ok(st.(plans := st.plans[p := r]))
  }

  // ----- runs -----

  datatype Op =
    | OpSave(input: PlanSpec)
    | OpApprove(principal: Principal, approval: Approval, key: Key)
    | OpSubmit(submission: Submission, principal: Principal)
    | OpClaim(order: seq<TaskId>, ctx: ClaimContext, leaseFor: int)
    | OpFinish(task: TaskId, tenant: TenantId, token: nat, result: Option<string>, failed: bool, policy: Policy,
               ctx: ClaimContext)
    | OpCancel(task: TaskId, tenant: TenantId)
    | OpRecover(order: seq<TaskId>)
    | OpResolve(principal: Principal, plan: PlanId, decision: ResolutionDecision, key: Key, evidence: Option<Digest>)
    | OpResumeWrite(plan: PlanId, view: ResumeView)

  datatype Event = Event(op: Op, now: int)

  /** What a governed step may be: the queries return what SQLite may deliver, and a resumer writes
      with a view of the kind its read phase finds on a plan that is not terminal. */
  predicate Governed(st: Store, e: Event) {
    match e.op
    case OpClaim(order, _, _) => IsClaimQuery(st, order, e.now)
    case OpRecover(order) => IsRecoveryQuery(st, order, e.now)
    case OpResumeWrite(_, view) => GovernedView(view)
    case _ => true
  }

  ghost function Attempt(st: Store, e: Event): Result<Store>
    requires Governed(st, e)
  {
    match e.op
    case OpSave(input) => SavePlan(st, input, e.now)
    case OpApprove(principal, a, key) => ApprovePlanOp(st, principal, a, key, e.now)
    case OpSubmit(s, principal) => var (r, _, _) :- Submit(st, s, principal, e.now); Ok(r)
    case OpClaim(order, ctx, leaseFor) => var (r, _) :- Claim(st, order, ctx, e.now, leaseFor); Ok(r)
    case OpFinish(id, tenant, token, result, failed, policy, ctx) =>
      var (r, _) :- Finish(st, id, tenant, token, result, failed, policy, ctx, e.now); Ok(r)
    case OpCancel(id, tenant) => RequestCancel(st, id, tenant, e.now)
    case OpRecover(order) => RecoverAll(st, order, e.now)
    case OpResolve(principal, p, decision, key, evidence) =>
      var (r, _) :- ResolvePlan(st, principal, p, decision, key, evidence, e.now); Ok(r)
    case OpResumeWrite(p, view) => ResumeWriteOp(st, p, view, e.now)
  }

  /** A transaction that fails changes nothing. */
  ghost function Apply(st: Store, e: Event): Store
    requires Governed(st, e)
  {
    var r := Attempt(st, e);
    if r.Ok? then r.value else st
  }

  /** A run is the sequence of stores it goes through, with the operation between each two. */
  ghost predicate IsRun(stores: seq<Store>, events: seq<Event>) {
    && |stores| == |events| + 1
    && IsInitial(stores[0])
    && forall i :: 0 <= i < |events| ==> IsStep(stores[i], events[i], stores[i + 1])
  }

  ghost predicate IsStep(before: Store, e: Event, after: Store) {
    Governed(before, e) && after == Apply(before, e)
  }

  /** No plans, tasks or counters yet; sessions and limits are whatever the operator set up. */
  predicate IsInitial(st: Store) {
    st.plans == map[] && st.tasks == map[] && st.windows == map[]
  }
}
