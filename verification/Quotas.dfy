/** What the quotas promise over whole runs, counted on the tasks themselves. */
module Quotas {
  import opened Base
  import opened PlanCore
  import opened TransitionLog
  import opened PlanTransactions
  import opened PlanPreservation
  import opened QueueModel
  import opened GovernedRuns
  import opened TaskFrames
  import opened LeaseFencing
  import opened Admission

  const DAY: int := 86_400_000

  /** The tenant's tasks that have not ended. */
  function Unfinished(st: Store, tenant: TenantId): set<TaskId> {
    set t | t in st.tasks && st.tasks[t].tenant == tenant
         && st.tasks[t].status != TSucceeded && st.tasks[t].status != TFailed && st.tasks[t].status != TCancelled
  }

  /** The tenant's tasks created between two instants, and from one on. */
  function CreatedBetween(st: Store, tenant: TenantId, start: int, end: int): set<TaskId> {
    set t | t in st.tasks && st.tasks[t].tenant == tenant && start <= st.tasks[t].createdAt < end
  }

  function CreatedFrom(st: Store, tenant: TenantId, start: int): set<TaskId> {
    set t | t in st.tasks && st.tasks[t].tenant == tenant && start <= st.tasks[t].createdAt
  }

  /** What the budgets of the tasks allow to be spent, added up. */
  function TotalCost(st: Store, ids: set<TaskId>): nat
    requires ids <= st.tasks.Keys
  {
    if ids == {} then 0 else
      var m := MinOf(ids);
      st.tasks[m].budget.maxCostMicrounits + TotalCost(st, ids - {m})
  }

  /** Sums are kept in 64 bits and stay at the greatest number there. */
  function Capped(n: nat): nat {
    if n <= 0xFFFF_FFFF_FFFF_FFFF then n else 0xFFFF_FFFF_FFFF_FFFF
  }

  /** One more task with this budget stays within the tenant's limits. */
  predicate UnderQuota(st: Store, tenant: TenantId, cost: nat, limits: TenantLimits, day: int) {
    && |Unfinished(st, tenant)| < limits.maxActiveTasks
    && |CreatedFrom(st, tenant, day)| < limits.maxDailyTasks
    && Capped(TotalCost(st, CreatedFrom(st, tenant, day)) + cost) <= limits.maxDailyCost
  }

  /** `day` is the start of the day of `now`. */
  predicate IsDayOf(day: int, now: int) {
    day % DAY == 0 && day <= now < day + DAY
  }

  lemma OneDay(day: int, now: int)
    requires IsDayOf(day, now)
    ensures DayStart(now) == day
  {
  }

  // ----- the sum -----

  function Sum(st: Store, ids: seq<TaskId>): nat
    requires forall id :: id in ids ==> id in st.tasks
  {
    if ids == [] then 0 else Sum(st, ids[..|ids| - 1]) + st.tasks[ids[|ids| - 1]].budget.maxCostMicrounits
  }

  lemma {:induction false} CostIsCappedSum(st: Store, ids: seq<TaskId>)
    requires forall id :: id in ids ==> id in st.tasks
    ensures CostOf(st, ids) == Capped(Sum(st, ids))
  {
    if ids != [] {
      CostIsCappedSum(st, ids[..|ids| - 1]);
    }
  }

  lemma {:induction false} SumFromFront(st: Store, id: TaskId, ids: seq<TaskId>)
    requires id in st.tasks && forall t :: t in ids ==> t in st.tasks
    ensures forall t :: t in [id] + ids ==> t in st.tasks
    ensures Sum(st, [id] + ids) == st.tasks[id].budget.maxCostMicrounits + Sum(st, ids)
  {
    var all := [id] + ids;
    if ids == [] {
      assert all[..0] == [];
    } else {
      SumFromFront(st, id, ids[..|ids| - 1]);
      assert all[..|all| - 1] == [id] + ids[..|ids| - 1];
    }
  }

  lemma {:induction false} AscendingSum(st: Store, ids: set<TaskId>)
    requires ids <= st.tasks.Keys
    ensures Sum(st, Ascending(ids)) == TotalCost(st, ids)
  {
    if ids != {} {
      var m := MinOf(ids);
      AscendingSum(st, ids - {m});
      SumFromFront(st, m, Ascending(ids - {m}));
    }
  }

  /** Which task is taken first does not matter. */
  lemma {:induction false} TotalWith(st: Store, ids: set<TaskId>, id: TaskId)
    requires ids <= st.tasks.Keys && id in st.tasks && id !in ids
    ensures TotalCost(st, ids + {id}) == TotalCost(st, ids) + st.tasks[id].budget.maxCostMicrounits
    decreases |ids|
  {
    var m := MinOf(ids + {id});
    if m == id {
      assert ids + {id} - {m} == ids;
    } else {
      TotalWith(st, ids - {m}, id);
      assert ids + {id} - {m} == (ids - {m}) + {id};
      assert MinOf(ids) == m;
    }
  }

  lemma {:induction false} TotalSubset(st: Store, part: set<TaskId>, ids: set<TaskId>)
    requires part <= ids <= st.tasks.Keys
    ensures TotalCost(st, part) <= TotalCost(st, ids)
    decreases |ids - part|
  {
    if ids - part == {} {
      assert part == ids;
    } else {
      var x :| x in ids - part;
      TotalWith(st, part, x);
      assert |ids - (part + {x})| < |ids - part| by { assert ids - (part + {x}) == (ids - part) - {x}; }
      TotalSubset(st, part + {x}, ids);
    }
  }

  lemma {:induction false} SameTotal(st: Store, after: Store, ids: set<TaskId>)
    requires ids <= st.tasks.Keys && ids <= after.tasks.Keys
    requires forall t :: t in ids ==> after.tasks[t].budget == st.tasks[t].budget
    ensures TotalCost(after, ids) == TotalCost(st, ids)
  {
    if ids != {} {
      SameTotal(st, after, ids - {MinOf(ids)});
    }
  }

  // ----- the check -----

  lemma SameSets(st: Store, tenant: TenantId, day: int)
    ensures Unfinished(st, tenant) == ActiveTasks(st, tenant)
    ensures CreatedFrom(st, tenant, day) == TasksSince(st, tenant, day)
  {
  }

  lemma QuotaMeans(st: Store, s: Submission, limits: TenantLimits, now: int, day: int)
    requires IsDayOf(day, now)
    ensures WithinQuota(st, s, limits, now) <==> UnderQuota(st, s.tenant, s.budget.maxCostMicrounits, limits, day)
  {
    OneDay(day, now);
    SameSets(st, s.tenant, day);
    var today := CreatedFrom(st, s.tenant, day);
    CostIsCappedSum(st, Ascending(today));
    AscendingSum(st, today);
    hide Unfinished, ActiveTasks, CreatedFrom, TasksSince, CostOf, TotalCost, DayStart;
  }

  /** Everything a request must satisfy on its own. */
  predicate Acceptable(st: Store, s: Submission, principal: Principal) {
    && |s.key| <= 256 && (exists i :: 0 <= i < |s.key| && !IsBlank(s.key[i]))
    && |s.fingerprint| <= 128 && (exists i :: 0 <= i < |s.fingerprint| && !IsBlank(s.fingerprint[i]))
    && 1 <= s.maxAttempts <= 10
    && 1 <= s.budget.maxSteps <= 256 && s.budget.maxToolCalls <= 512
    && 1 <= s.budget.maxElapsedMs <= 300_000 && s.budget.maxCostMicrounits <= 10_000_000
    && s.tenant == principal.tenant && s.operator == principal.operator
    && s.session in st.sessions && st.sessions[s.session].tenant == s.tenant && st.sessions[s.session].operator == s.operator
    && s.tenant in st.limits
    && (s.plan.Some? ==> s.plan.value.revision > 0 && IsSha256(s.plan.value.digest))
  }

  lemma RequestMeans(st: Store, s: Submission, principal: Principal)
    ensures SubmissionOk(st, s, principal) <==> Acceptable(st, s, principal)
  {
    hide IsBlank, IsSha256;
    if SubmissionOk(st, s, principal) {
      assert st.sessions[s.session] == Session(principal.tenant, principal.operator);
    }
  }

  /** No window is full. */
  predicate RateOpen(st: Store, s: Submission, now: int)
    requires s.tenant in st.limits
  {
    var limits := st.limits[s.tenant];
    var window := WindowStart(now, limits.windowSeconds);
    && Count(st, TenantScope(s.tenant), window) < limits.requestsPerWindow
    && Count(st, OperatorScope(s.operator), window) < limits.requestsPerWindow
  }

  // ----- when to come back -----

  lemma WindowMeans(t: int, seconds: nat)
    requires seconds > 0
    ensures WindowStart(t, seconds) % seconds == 0
    ensures WindowStart(t, seconds) * 1000 <= t < (WindowStart(t, seconds) + seconds) * 1000
  {
    Quotient(t / 1000, seconds);
    MultipleRest(t / 1000 / seconds, seconds);
  }

  lemma MultipleRest(q: int, n: nat)
    requires n > 0
    ensures q * n % n == 0
  {
    UniqueRest(q * n, q, 0, n);
  }

  lemma UniqueRest(a: int, q: int, r: int, n: nat)
    requires n > 0 && a == q * n + r && 0 <= r < n
    ensures a % n == r
  {
    QuotientStep(a / n, a % n, q, r, n);
  }

  lemma MultiplesApart(a: int, b: int, n: nat)
    requires n > 0 && a % n == 0 && b % n == 0 && b < a
    ensures b + n <= a
  {
    Quotient(a, n);
    Quotient(b, n);
    if a / n <= b / n {
      Scale(a / n, b / n, n);
    } else {
      Scale(b / n + 1, a / n, n);
      assert (b / n + 1) * n == b / n * n + n;
    }
  }

  /** What is left of the window, in milliseconds. */
  function LeftOfWindow(now: int, seconds: nat): int {
    (WindowStart(now, seconds) + seconds) * 1000 - now
  }

  /** The advised pause is cut to whole seconds: after it the window is over exactly when that cut nothing
      off, or less than a second was left. */
  lemma RetryAfterIff(now: int, seconds: nat)
    requires seconds > 0
    ensures RetryAfter(now, seconds) >= 1
    ensures WindowStart(now + RetryAfter(now, seconds) * 1000, seconds) > WindowStart(now, seconds)
       <==> LeftOfWindow(now, seconds) % 1000 == 0 || LeftOfWindow(now, seconds) < 1000
  {
    var later := now + RetryAfter(now, seconds) * 1000;
    WindowMeans(now, seconds);
    WindowMeans(later, seconds);
    var start, end := WindowStart(now, seconds), WindowStart(later, seconds);
    hide WindowStart;
    if start < end {
      MultiplesApart(end, start, seconds);
    }
  }

  /** Half a second into a window of two seconds the advised pause is one second. */
  lemma RetryAfterTooShort()
    ensures RetryAfter(500, 2) == 1 && WindowStart(500 + 1000, 2) == WindowStart(500, 2)
  {
  }

  // ----- submissions -----

  /** When a direct submission under a fresh key and identifier creates its task, and when a quota is what
      refuses it. */
  lemma DirectSubmissionMeans(st: Store, s: Submission, principal: Principal, now: int, day: int)
    requires IsDayOf(day, now) && s.plan.None?
    requires forall t :: t in st.tasks && st.tasks[t].tenant == s.tenant ==> st.tasks[t].key != s.key
    ensures var r := Submit(st, s, principal, now);
            var open := Acceptable(st, s, principal) && RateOpen(st, s, now);
            && (r == Err(QuotaExceeded) <==>
                  open && !UnderQuota(st, s.tenant, s.budget.maxCostMicrounits, st.limits[s.tenant], day))
            && (r.Ok? <==>
                  open && UnderQuota(st, s.tenant, s.budget.maxCostMicrounits, st.limits[s.tenant], day) && s.taskId !in st.tasks)
            && (r.Ok? ==> r.value.1 == Created)
  {
    RequestMeans(st, s, principal);
    hide SubmissionOk, Acceptable, UnderQuota, WithinQuota, Count, NewTask, RetryAfter, WindowStart;
    assert TasksWithKey(st, s.tenant, s.key) == {};
    if Acceptable(st, s, principal) {
      AcceptableTenant(st, s, principal);
      var window := WindowStart(now, st.limits[s.tenant].windowSeconds);
      var counted := Bump(Bump(st, TenantScope(s.tenant), window), OperatorScope(s.operator), window);
      QuotaMeans(counted, s, st.limits[s.tenant], now, day);
      SameQuota(st, counted, s.tenant, s.budget.maxCostMicrounits, st.limits[s.tenant], day);
    } else {
      ErrorIsNoQuota(st, s, principal);
    }
    hide Bump, TasksWithKey, SubmissionError;
  }

  lemma AcceptableTenant(st: Store, s: Submission, principal: Principal)
    requires Acceptable(st, s, principal)
    ensures s.tenant in st.limits
  {
  }

  lemma ErrorIsNoQuota(st: Store, s: Submission, principal: Principal)
    ensures SubmissionError(st, s, principal) != QuotaExceeded
  {
    hide BudgetOk, IsKey, RefOk;
  }

  /** The quotas look at the task rows alone. */
  lemma SameQuota(st: Store, after: Store, tenant: TenantId, cost: nat, limits: TenantLimits, day: int)
    requires after.tasks == st.tasks
    ensures UnderQuota(st, tenant, cost, limits, day) <==> UnderQuota(after, tenant, cost, limits, day)
  {
    assert Unfinished(st, tenant) == Unfinished(after, tenant);
    assert CreatedFrom(st, tenant, day) == CreatedFrom(after, tenant, day);
    SameTotal(st, after, CreatedFrom(st, tenant, day));
  }

  // ----- over runs -----

  /** The new row is what was asked for, waiting, with the capabilities of its submitter's role: an
      Administrator has them all, anybody else none. */
  predicate IsNewRow(t: TaskRow, s: Submission, principal: Principal, now: int) {
    && t.taskId == s.taskId && t.tenant == s.tenant && t.operator == s.operator && t.key == s.key
    && t.fingerprint == s.fingerprint && t.budget == s.budget && t.plan == s.plan && t.priority == s.priority
    && t.maxAttempts == s.maxAttempts && t.createdAt == now && t.nextAttemptAt == now
    && t.status == TQueued && t.attempts == 0 && !t.cancelRequested
    && t.leaseUntil == None && t.leaseToken == None && t.planStep == None && t.result == None && t.completedAt == None
    && (principal.role == Administrator ==> forall c: Capability :: c in t.capabilities)
    && (principal.role != Administrator ==> t.capabilities == [])
  }

  /** The event adds exactly this task. */
  predicate Adds(st: Store, e: Event, after: Store, id: TaskId, day: int) {
    && e.op.OpSubmit? && e.op.submission.taskId == id && id !in st.tasks && id in after.tasks
    && after.tasks == st.tasks[id := after.tasks[id]]
    && Acceptable(st, e.op.submission, e.op.principal)
    && IsNewRow(after.tasks[id], e.op.submission, e.op.principal, e.now)
    && UnderQuota(st, e.op.submission.tenant, e.op.submission.budget.maxCostMicrounits,
                  st.limits[e.op.submission.tenant], day)
  }

  lemma NewRowMeans(s: Submission, principal: Principal, now: int)
    ensures IsNewRow(NewTask(s, principal, now), s, principal, now)
  {
    forall c: Capability | principal.role == Administrator ensures c in CapabilitiesFor(principal.role) {
      match c {
        case Network =>
        case FilesystemRead =>
        case FilesystemWrite =>
        case CodeExecution =>
        case ExternalMessaging =>
        case MemoryWrite =>
      }
    }
  }

  /** Only a submission adds a task, and only within the quotas of its tenant. */
  lemma AddedWithinQuota(st: Store, e: Event, id: TaskId, day: int)
    requires StoreOk(st) && Governed(st, e) && IsDayOf(day, e.now)
    requires id !in st.tasks && id in Apply(st, e).tasks
    ensures Adds(st, e, Apply(st, e), id, day)
  {
    hide StoreOk, Submit, Apply, Governed, Framed, UnderQuota, Acceptable, IsNewRow;
    if e.op.OpSubmit? {
      AppliedSubmission(st, e);
      CreatedWithinQuota(st, e.op.submission, e.op.principal, e.now, id, day);
    } else {
      StepFramed(st, e);
      FramedKeys(st, Apply(st, e));
    }
  }

  lemma CreatedWithinQuota(st: Store, s: Submission, principal: Principal, now: int, id: TaskId, day: int)
    requires IsDayOf(day, now) && Submit(st, s, principal, now).Ok?
    requires id !in st.tasks && id in Submit(st, s, principal, now).value.0.tasks
    ensures var after := Submit(st, s, principal, now).value.0;
            && s.taskId == id && after.tasks == st.tasks[id := after.tasks[id]]
            && Acceptable(st, s, principal) && IsNewRow(after.tasks[id], s, principal, now)
            && s.tenant in st.limits
            && UnderQuota(st, s.tenant, s.budget.maxCostMicrounits, st.limits[s.tenant], day)
  {
    SubmitShape(st, s, principal, now);
    RequestMeans(st, s, principal);
    NewRowMeans(s, principal, now);
    var window := WindowStart(now, st.limits[s.tenant].windowSeconds);
    var counted := Bump(Bump(st, TenantScope(s.tenant), window), OperatorScope(s.operator), window);
    AdmissionAside(counted, s, principal, now);
    AcceptableTenant(st, s, principal);
    WasWithin(st, s, principal, now);
    var admitted := AdmitIfPlanned(counted, s, principal, now).value;
    QuotaMeans(admitted, s, st.limits[s.tenant], now, day);
    SameQuota(st, admitted, s.tenant, s.budget.maxCostMicrounits, st.limits[s.tenant], day);
    hide Submit, AdmitIfPlanned, WindowStart, SubmissionOk, Acceptable, IsNewRow, NewTask, UnderQuota, WithinQuota, Count, TasksWithKey;
  }

  lemma AdmissionAside(st: Store, s: Submission, principal: Principal, now: int)
    requires AdmitIfPlanned(st, s, principal, now).Ok?
    ensures AdmitIfPlanned(st, s, principal, now).value.tasks == st.tasks
  {
    hide Admit;
  }

  lemma WasWithin(st: Store, s: Submission, principal: Principal, now: int)
    requires Submit(st, s, principal, now).Ok? && Submit(st, s, principal, now).value.1 == Created && s.tenant in st.limits
    ensures var window := WindowStart(now, st.limits[s.tenant].windowSeconds);
            var counted := Bump(Bump(st, TenantScope(s.tenant), window), OperatorScope(s.operator), window);
            && AdmitIfPlanned(counted, s, principal, now).Ok?
            && WithinQuota(AdmitIfPlanned(counted, s, principal, now).value, s, st.limits[s.tenant], now)
  {
    hide SubmissionOk, AdmitIfPlanned, WithinQuota, TasksWithKey, Bump, Count, NewTask, RetryAfter, WindowStart;
  }

  /** In every run, whenever a task appears, a submission within its tenant's quotas put it there. */
  lemma RunQuotas(stores: seq<Store>, events: seq<Event>, n: nat, id: TaskId, day: int)
    requires IsRun(stores, events) && n < |events| && n + 1 < |stores| && IsDayOf(day, events[n].now)
    requires id !in stores[n].tasks && id in stores[n + 1].tasks
    ensures Adds(stores[n], events[n], stores[n + 1], id, day)
  {
    hide StoreOk, Apply, Governed, IsRun, Adds;
    RunStep(stores, events, n);
    AddedWithinQuota(stores[n], events[n], id, day);
  }

  lemma DayExists(now: int) returns (day: int)
    ensures IsDayOf(day, now)
  {
    day := now - now % DAY;
  }

  /** Every task of a run was put there by one submission, and keeps what that asked for. */
  lemma {:induction false} TaskOrigin(stores: seq<Store>, events: seq<Event>, n: nat, id: TaskId) returns (i: nat, day: int)
    requires IsRun(stores, events) && n < |stores| && id in stores[n].tasks
    ensures i < n && i < |events| && IsDayOf(day, events[i].now) && i + 1 < |stores|
    ensures Adds(stores[i], events[i], stores[i + 1], id, day) && SameIdentity(stores[i + 1].tasks[id], stores[n].tasks[id])
  {
    hide StoreOk, Apply, IsRun, Adds, SameIdentity;
    RunLength(stores, events);
    NoneAtFirst(stores, events);
    i := n - 1;
    day := DayExists(events[i].now);
    if id in stores[i].tasks {
      i, day := TaskOrigin(stores, events, i, id);
      AddsIt(stores[i], events[i], stores[i + 1], id, day);
    } else {
      RunQuotas(stores, events, i, id, day);
    }
    AddsIt(stores[i], events[i], stores[i + 1], id, day);
    TasksStay(stores, events, i + 1, n, id);
  }

  lemma AddsIt(st: Store, e: Event, after: Store, id: TaskId, day: int)
    requires Adds(st, e, after, id, day)
    ensures id in after.tasks
  {
  }

  lemma NoneAtFirst(stores: seq<Store>, events: seq<Event>)
    requires IsRun(stores, events)
    ensures stores[0].tasks == map[]
  {
    hide IsStep;
  }

  // ----- whole days -----

  /** The tenant's tasks of the day are within its daily limits. */
  predicate DayWithin(st: Store, tenant: TenantId, day: int) {
    tenant in st.limits ==>
      && |CreatedBetween(st, tenant, day, day + DAY)| <= st.limits[tenant].maxDailyTasks
      && (CreatedBetween(st, tenant, day, day + DAY) != {} ==>
            Capped(TotalCost(st, CreatedBetween(st, tenant, day, day + DAY))) <= st.limits[tenant].maxDailyCost)
  }

  lemma SameDay(st: Store, after: Store, tenant: TenantId, day: int)
    requires Framed(st, after)
    ensures DayWithin(after, tenant, day) <==> DayWithin(st, tenant, day)
  {
    FramedIdentity(st, after);
    hide Framed;
    assert CreatedBetween(after, tenant, day, day + DAY) == CreatedBetween(st, tenant, day, day + DAY);
    SameTotal(st, after, CreatedBetween(st, tenant, day, day + DAY));
  }

  lemma AddedToDay(st: Store, e: Event, after: Store, id: TaskId, today: int, tenant: TenantId, day: int)
    requires Adds(st, e, after, id, today) && IsDayOf(today, e.now) && after.limits == st.limits
    requires day % DAY == 0 && DayWithin(st, tenant, day)
    ensures DayWithin(after, tenant, day)
  {
    var before := CreatedBetween(st, tenant, day, day + DAY);
    var s := e.op.submission;
    hide Acceptable, UnderQuota, CreatedBetween, TotalCost, Capped, DayWithin;
    if s.tenant == tenant && day <= e.now < day + DAY {
      assert today == day by { OneDay(day, e.now); OneDay(today, e.now); }
      OneMoreToday(st, after, id, tenant, day);
      UnderDaily(st, after, id, tenant, st.limits[tenant], day);
    } else {
      NotThatDay(st, after, id, tenant, day);
      UnchangedDay(st, after, tenant, day);
    }
  }

  lemma OneMoreToday(st: Store, after: Store, id: TaskId, tenant: TenantId, day: int)
    requires id !in st.tasks && id in after.tasks && after.tasks == st.tasks[id := after.tasks[id]]
    requires after.tasks[id].tenant == tenant && day <= after.tasks[id].createdAt < day + DAY
    ensures CreatedBetween(after, tenant, day, day + DAY) == CreatedBetween(st, tenant, day, day + DAY) + {id}
    ensures id !in CreatedBetween(st, tenant, day, day + DAY)
  {
  }

  lemma NotThatDay(st: Store, after: Store, id: TaskId, tenant: TenantId, day: int)
    requires id !in st.tasks && id in after.tasks && after.tasks == st.tasks[id := after.tasks[id]]
    requires !(after.tasks[id].tenant == tenant && day <= after.tasks[id].createdAt < day + DAY)
    ensures CreatedBetween(after, tenant, day, day + DAY) == CreatedBetween(st, tenant, day, day + DAY)
    ensures forall t :: t in st.tasks ==> after.tasks[t] == st.tasks[t]
  {
  }

  lemma UnchangedDay(st: Store, after: Store, tenant: TenantId, day: int)
    requires DayWithin(st, tenant, day) && after.limits == st.limits
    requires CreatedBetween(after, tenant, day, day + DAY) == CreatedBetween(st, tenant, day, day + DAY)
    requires forall t :: t in st.tasks ==> t in after.tasks && after.tasks[t].budget == st.tasks[t].budget
    ensures DayWithin(after, tenant, day)
  {
    CreatedExist(st, tenant, day);
    hide CreatedBetween, TotalCost, Capped;
    SameTotal(st, after, CreatedBetween(st, tenant, day, day + DAY));
  }

  lemma CreatedExist(st: Store, tenant: TenantId, day: int)
    ensures CreatedBetween(st, tenant, day, day + DAY) <= CreatedFrom(st, tenant, day) <= st.tasks.Keys
  {
  }

  /** The quota that let the task in is counted on at least the tasks of its day. */
  lemma UnderDaily(st: Store, after: Store, id: TaskId, tenant: TenantId, limits: TenantLimits, day: int)
    requires id !in st.tasks && id in after.tasks && after.tasks == st.tasks[id := after.tasks[id]]
    requires after.limits == st.limits && (tenant in st.limits ==> st.limits[tenant] == limits)
    requires UnderQuota(st, tenant, after.tasks[id].budget.maxCostMicrounits, limits, day)
    requires CreatedBetween(after, tenant, day, day + DAY) == CreatedBetween(st, tenant, day, day + DAY) + {id}
    requires id !in CreatedBetween(st, tenant, day, day + DAY)
    ensures DayWithin(after, tenant, day)
  {
    CreatedExist(st, tenant, day);
    hide CreatedBetween, CreatedFrom, TotalCost, Unfinished;
    var before := CreatedBetween(st, tenant, day, day + DAY);
    SubsetSize(before, CreatedFrom(st, tenant, day));
    TotalSubset(st, before, CreatedFrom(st, tenant, day));
    SameTotal(st, after, before);
    TotalWith(after, before, id);
  }

  lemma DayStep(st: Store, e: Event, tenant: TenantId, day: int)
    requires StoreOk(st) && Governed(st, e) && day % DAY == 0 && DayWithin(st, tenant, day)
    ensures DayWithin(Apply(st, e), tenant, day)
  {
    hide StoreOk, Apply, Governed, DayWithin, Framed, Adds, Submit;
    StepFramed(st, e);
    if e.op.OpSubmit? {
      AppliedSubmission(st, e);
      LimitsStay(st, Apply(st, e));
      var today := DayExists(e.now);
      if Apply(st, e).tasks.Keys <= st.tasks.Keys {
        NothingAdded(st, e);
      } else {
        var id :| id in Apply(st, e).tasks && id !in st.tasks;
        AddedWithinQuota(st, e, id, today);
        AddedToDay(st, e, Apply(st, e), id, today, tenant, day);
      }
    } else {
      SameDay(st, Apply(st, e), tenant, day);
    }
  }

  lemma LimitsStay(st: Store, after: Store)
    requires TasksMoved(st, after)
    ensures after.limits == st.limits
  {
  }

  lemma NothingAdded(st: Store, e: Event)
    requires Governed(st, e) && e.op.OpSubmit? && Apply(st, e).tasks.Keys <= st.tasks.Keys
    ensures Apply(st, e) == st
  {
    AppliedSubmission(st, e);
    if Attempt(st, e).Ok? {
      SubmitShape(st, e.op.submission, e.op.principal, e.now);
    }
    hide Submit, Admit, WindowStart, TasksWithKey, SubmissionOk;
  }

  lemma EmptyDay(st: Store, tenant: TenantId, day: int)
    requires st.tasks == map[]
    ensures DayWithin(st, tenant, day)
  {
    assert CreatedBetween(st, tenant, day, day + DAY) == {};
  }

  /** In every run and for every day a tenant's tasks of that day are at most as many as its daily limit,
      and what their budgets allow adds up to at most its daily cost. */
  lemma {:induction false} RunDailyBound(stores: seq<Store>, events: seq<Event>, n: nat, tenant: TenantId, day: int)
    requires IsRun(stores, events) && n < |stores| && day % DAY == 0
    ensures DayWithin(stores[n], tenant, day)
  {
    hide StoreOk, Apply, IsRun, Governed, DayWithin;
    if n == 0 {
      NoneAtFirst(stores, events);
      EmptyDay(stores[0], tenant, day);
    } else {
      RunLength(stores, events);
      RunDailyBound(stores, events, n - 1, tenant, day);
      RunStep(stores, events, n - 1);
      DayStep(stores[n - 1], events[n - 1], tenant, day);
    }
  }

  // ----- active tasks -----

  /** Tasks that ended stay ended. */
  predicate EndsStay(st: Store, after: Store) {
    forall t :: t in st.tasks && st.tasks[t].status.IsTerminal() ==> t in after.tasks && after.tasks[t].status.IsTerminal()
  }

  /** At most one task changes. */
  predicate OthersSame(st: Store, after: Store, id: TaskId) {
    after.tasks.Keys == st.tasks.Keys && forall t :: t in st.tasks && t != id ==> after.tasks[t] == st.tasks[t]
  }

  lemma FinishLeavesEnded(st: Store, id: TaskId, tenant: TenantId, token: nat, result: Option<string>, failed: bool,
                          policy: Policy, ctx: ClaimContext, now: int)
    requires Finish(st, id, tenant, token, result, failed, policy, ctx, now).Ok?
    ensures EndsStay(st, Finish(st, id, tenant, token, result, failed, policy, ctx, now).value.0)
  {
    hide FinishPlanned, FinishDirect, HoldsLease;
  }

  lemma CancelLeavesEnded(st: Store, id: TaskId, tenant: TenantId, now: int)
    requires RequestCancel(st, id, tenant, now).Ok?
    ensures EndsStay(st, RequestCancel(st, id, tenant, now).value)
  {
    hide CancelPlanned, CancelledTask;
  }

  lemma {:induction false} ClaimLeavesEnded(st: Store, order: seq<TaskId>, ctx: ClaimContext, now: int, until: int)
    requires (forall t :: t in order ==> t in st.tasks && st.tasks[t].status == TQueued)
    requires ClaimFrom(st, order, ctx, now, until).Ok?
    ensures EndsStay(st, ClaimFrom(st, order, ctx, now, until).value.0)
  {
    hide PrepareClaim;
    if order != [] {
      assert order[0] in order;
      assert forall t :: t in order[1..] ==> t in order;
      var task := st.tasks[order[0]];
      if task.plan.Some? && PrepareClaim(st.plans[task.plan.value.planId], task, task.plan.value,
                                         ctx.(granted := task.capabilities), now).value.None? {
        ClaimLeavesEnded(st, order[1..], ctx, now, until);
      }
    }
  }

  lemma RecoveryLeavesEnded(st: Store, e: Event)
    requires StoreOk(st) && Governed(st, e) && e.op.OpRecover? && Attempt(st, e).Ok?
    ensures EndsStay(st, Apply(st, e))
  {
    hide StoreOk, RecoverAll, Framed;
    RecoverFramed(st, e.op.order, e.now);
  }

  lemma OtherLeavesEnded(st: Store, e: Event)
    requires Governed(st, e) && Attempt(st, e).Ok? && (e.op.OpSave? || e.op.OpApprove? || e.op.OpResumeWrite?)
    ensures EndsStay(st, Apply(st, e))
  {
    hide Approve, ResumeWrite, ValidStructure, NewPlan, FreshRec;
  }

  lemma ResolutionMovesOne(st: Store, e: Event) returns (id: TaskId)
    requires Governed(st, e) && e.op.OpResolve?
    ensures OthersSame(st, Apply(st, e), id)
  {
    hide ResolvePlan, OthersSame;
    id := 0;
    if Attempt(st, e).Ok? {
      ResolvedPlanExists(st, e);
      id := st.plans[e.op.plan].spec.taskId;
      ResolvedOne(st, e.op.principal, e.op.plan, e.op.decision, e.op.key, e.op.evidence, e.now);
    } else {
      SameTasks(st, Apply(st, e), 0);
    }
  }

  lemma ResolvedPlanExists(st: Store, e: Event)
    requires Governed(st, e) && e.op.OpResolve? && Attempt(st, e).Ok?
    ensures e.op.plan in st.plans
  {
    hide Resolve;
  }

  lemma ResolvedOne(st: Store, principal: Principal, p: PlanId, decision: ResolutionDecision, key: Key, evidence: Option<Digest>,
                    now: int)
    requires ResolvePlan(st, principal, p, decision, key, evidence, now).Ok?
    ensures OthersSame(st, ResolvePlan(st, principal, p, decision, key, evidence, now).value.0, st.plans[p].spec.taskId)
  {
    hide Resolve, OthersSame;
    var rec := st.plans[p];
    var after := ResolvePlan(st, principal, p, decision, key, evidence, now).value.0;
    ResolvedTaskRow(rec, BoundTask(st, rec), principal, decision, key, evidence, now);
    var (_, t, _) := Resolve(rec, BoundTask(st, rec), principal, decision, key, evidence, now).value;
    if t.None? {
      SameTasks(st, after, rec.spec.taskId);
    } else {
      OneMoved(st, after, rec.spec.taskId, t.value);
    }
  }

  lemma SameTasks(st: Store, after: Store, id: TaskId)
    requires after.tasks == st.tasks
    ensures OthersSame(st, after, id)
  {
  }

  lemma OneMoved(st: Store, after: Store, id: TaskId, t: TaskRow)
    requires id in st.tasks && after.tasks == st.tasks[id := t]
    ensures OthersSame(st, after, id)
  {
  }

  /** Only submissions and resolutions make a tenant's unfinished tasks more, and by one at a time. */
  lemma ActiveStep(st: Store, e: Event, tenant: TenantId)
    requires StoreOk(st) && Governed(st, e) && tenant in st.limits
    ensures var after := Apply(st, e);
            && after.limits == st.limits
            && (!e.op.OpSubmit? && !e.op.OpResolve? ==> |Unfinished(after, tenant)| <= |Unfinished(st, tenant)|)
            && (e.op.OpResolve? ==> |Unfinished(after, tenant)| <= |Unfinished(st, tenant)| + 1)
            && (e.op.OpSubmit? && Unfinished(after, tenant) != Unfinished(st, tenant) ==>
                  |Unfinished(after, tenant)| <= st.limits[tenant].maxActiveTasks)
  {
    hide StoreOk, Submit, ClaimFrom, Finish, RequestCancel, RecoverAll, ResolvePlan, Framed, EndsStay, OthersSame, Unfinished,
         Apply, TasksMoved, Governed;
    StepFramed(st, e);
    LimitsStay(st, Apply(st, e));
    if e.op.OpSubmit? {
      SubmissionActive(st, e, tenant);
    } else if e.op.OpResolve? {
      FramedKeys(st, Apply(st, e));
      FramedIdentity(st, Apply(st, e));
      var id := ResolutionMovesOne(st, e);
      OneMoreUnfinished(st, Apply(st, e), id, tenant);
    } else {
      FramedIdentity(st, Apply(st, e));
      LeavesEnded(st, e);
      NoMoreUnfinished(st, Apply(st, e), tenant);
    }
  }

  lemma LeavesEnded(st: Store, e: Event)
    requires StoreOk(st) && Governed(st, e) && !e.op.OpSubmit? && !e.op.OpResolve?
    ensures EndsStay(st, Apply(st, e))
  {
    hide StoreOk, ClaimFrom, Finish, RequestCancel, RecoverAll, SavePlan, ApprovePlanOp, ResumeWriteOp;
    if Attempt(st, e).Ok? {
      match e.op {
        case OpClaim(order, ctx, leaseFor) => ClaimLeavesEnded(st, order, ctx, e.now, e.now + leaseFor);
        case OpFinish(id, tenant, token, result, failed, policy, ctx) =>
          FinishLeavesEnded(st, id, tenant, token, result, failed, policy, ctx, e.now);
        case OpCancel(id, tenant) => CancelLeavesEnded(st, id, tenant, e.now);
        case OpRecover(_) => RecoveryLeavesEnded(st, e);
        case _ => OtherLeavesEnded(st, e);
      }
    }
  }

  lemma NoMoreUnfinished(st: Store, after: Store, tenant: TenantId)
    requires EndsStay(st, after) && after.tasks.Keys == st.tasks.Keys
    requires forall t :: t in st.tasks ==> SameIdentity(st.tasks[t], after.tasks[t])
    ensures |Unfinished(after, tenant)| <= |Unfinished(st, tenant)|
  {
    assert Unfinished(after, tenant) <= Unfinished(st, tenant);
    SubsetSize(Unfinished(after, tenant), Unfinished(st, tenant));
  }

  lemma OneMoreUnfinished(st: Store, after: Store, id: TaskId, tenant: TenantId)
    requires OthersSame(st, after, id)
    ensures |Unfinished(after, tenant)| <= |Unfinished(st, tenant)| + 1
  {
    assert Unfinished(after, tenant) <= Unfinished(st, tenant) + {id};
    SubsetSize(Unfinished(after, tenant), Unfinished(st, tenant) + {id});
  }

  lemma SubmissionActive(st: Store, e: Event, tenant: TenantId)
    requires StoreOk(st) && Governed(st, e) && e.op.OpSubmit? && tenant in st.limits
    ensures var after := Apply(st, e);
            Unfinished(after, tenant) != Unfinished(st, tenant) ==> |Unfinished(after, tenant)| <= st.limits[tenant].maxActiveTasks
  {
    hide StoreOk, Apply, Governed, Unfinished, Adds;
    if Apply(st, e).tasks.Keys <= st.tasks.Keys {
      NothingAdded(st, e);
    } else {
      var id :| id in Apply(st, e).tasks && id !in st.tasks;
      var today := DayExists(e.now);
      AddedWithinQuota(st, e, id, today);
      AddedActive(st, e, Apply(st, e), id, today, tenant);
    }
  }

  lemma AddedActive(st: Store, e: Event, after: Store, id: TaskId, day: int, tenant: TenantId)
    requires Adds(st, e, after, id, day) && tenant in st.limits
    ensures Unfinished(after, tenant) != Unfinished(st, tenant) ==> |Unfinished(after, tenant)| <= st.limits[tenant].maxActiveTasks
  {
    hide Acceptable, CreatedFrom, TotalCost;
    if e.op.submission.tenant == tenant {
      assert Unfinished(after, tenant) == Unfinished(st, tenant) + {id};
    } else {
      assert Unfinished(after, tenant) == Unfinished(st, tenant);
    }
  }

  function Resolutions(events: seq<Event>): nat {
    if events == [] then 0 else Resolutions(events[..|events| - 1]) + (if events[|events| - 1].op.OpResolve? then 1 else 0)
  }

  /** In every run a tenant's unfinished tasks are at most its limit, and one more for each resolution: a
      resolution takes an ended task back without asking the quota. */
  lemma {:induction false} RunActiveBound(stores: seq<Store>, events: seq<Event>, n: nat, tenant: TenantId)
    requires IsRun(stores, events) && n < |stores| && n <= |events| && tenant in stores[n].limits
    ensures |Unfinished(stores[n], tenant)| <= stores[n].limits[tenant].maxActiveTasks + Resolutions(events[..n])
  {
    hide StoreOk, Apply, IsRun, Governed, Unfinished;
    if n == 0 {
      NoneAtFirst(stores, events);
      NoneUnfinished(stores[0], tenant);
    } else {
      RunStep(stores, events, n - 1);
      StepFramed(stores[n - 1], events[n - 1]);
      LimitsStay(stores[n - 1], stores[n]);
      RunActiveBound(stores, events, n - 1, tenant);
      ActiveStep(stores[n - 1], events[n - 1], tenant);
      assert events[..n][..n - 1] == events[..n - 1];
    }
  }

  lemma NoneUnfinished(st: Store, tenant: TenantId)
    requires st.tasks == map[]
    ensures |Unfinished(st, tenant)| == 0
  {
    assert Unfinished(st, tenant) == {};
  }
}
