/** Admission accounting: idempotency keys and fixed-window counters over whole runs. */
module Admission {
  import opened Base
  import opened PlanCore
  import opened PlanTransactions
  import opened QueueModel
  import opened GovernedRuns
  import opened TaskFrames
  import opened LeaseFencing

  predicate InScope(t: TaskRow, scope: Scope) {
    match scope
    case TenantScope(tenant) => t.tenant == tenant
    case OperatorScope(operator) => t.operator == operator
  }

  /** The window a task was counted in, under its tenant's limits. */
  function WindowOf(limits: map<TenantId, TenantLimits>, t: TaskRow): int {
    WindowStart(t.createdAt, if t.tenant in limits then limits[t.tenant].windowSeconds else 1)
  }

  function CountedTasks(st: Store, scope: Scope, window: int): set<TaskId> {
    set t | t in st.tasks && InScope(st.tasks[t], scope) && WindowOf(st.limits, st.tasks[t]) == window
  }

  /** Counters count: one per task created in the window, for tenants and operators alike; and no
      tenant exceeds its limit. */
  ghost predicate CountersOk(st: Store) {
    && (forall scope, window :: Count(st, scope, window) == |CountedTasks(st, scope, window)|)
    && (forall tenant, window :: tenant in st.limits ==>
          Count(st, TenantScope(tenant), window) <= st.limits[tenant].requestsPerWindow)
    && (forall t :: t in st.tasks ==> st.tasks[t].tenant in st.limits)
  }

  /** A tenant's idempotency key names one task. */
  predicate KeysUnique(st: Store) {
    forall a, b ::
      (a in st.tasks && b in st.tasks && st.tasks[a].tenant == st.tasks[b].tenant && st.tasks[a].key == st.tasks[b].key)
      ==> a == b
  }

  lemma FramedCounters(st: Store, after: Store)
    requires Framed(st, after) && CountersOk(st) && KeysUnique(st)
    ensures CountersOk(after) && KeysUnique(after)
  {
    FramedIdentity(st, after);
    hide Framed;
    forall scope, window ensures Count(after, scope, window) == |CountedTasks(after, scope, window)| {
      assert CountedTasks(after, scope, window) == CountedTasks(st, scope, window);
      assert Count(after, scope, window) == Count(st, scope, window);
    }
    forall tenant, window | tenant in after.limits
      ensures Count(after, TenantScope(tenant), window) <= after.limits[tenant].requestsPerWindow
    {
      assert Count(after, TenantScope(tenant), window) == Count(st, TenantScope(tenant), window);
    }
  }

  lemma FramedIdentity(st: Store, after: Store)
    requires Framed(st, after)
    ensures after.tasks.Keys == st.tasks.Keys && after.windows == st.windows && after.limits == st.limits
    ensures forall t :: t in st.tasks ==> SameIdentity(st.tasks[t], after.tasks[t])
  {
  }

  /** The store after an accepted submission: one task more, both counters one up. */
  ghost predicate Accepted(st: Store, after: Store, s: Submission, t: TaskRow, window: int) {
    && s.taskId !in st.tasks && after.tasks == st.tasks[s.taskId := t]
    && after.limits == st.limits && s.tenant in st.limits
    && after.windows == Bump(Bump(st, TenantScope(s.tenant), window), OperatorScope(s.operator), window).windows
    && t.tenant == s.tenant && t.operator == s.operator && t.key == s.key
    && WindowOf(st.limits, t) == window
    && Count(st, TenantScope(s.tenant), window) < st.limits[s.tenant].requestsPerWindow
    && TasksWithKey(st, s.tenant, s.key) == {}
  }

  lemma SubmitAccepts(st: Store, s: Submission, principal: Principal, now: int)
    requires Submit(st, s, principal, now).Ok? && Submit(st, s, principal, now).value.1 == Created
    ensures s.tenant in st.limits
    ensures Accepted(st, Submit(st, s, principal, now).value.0, s, NewTask(s, principal, now),
                     WindowStart(now, st.limits[s.tenant].windowSeconds))
  {
    SubmitShape(st, s, principal, now);
    hide Submit, Admit, WindowStart, TasksWithKey, Count;
  }

  lemma AcceptedCounter(st: Store, after: Store, s: Submission, t: TaskRow, window: int, scope: Scope, w: int)
    requires Accepted(st, after, s, t, window)
    ensures Count(after, scope, w) == Count(st, scope, w) + (if InScope(t, scope) && w == window then 1 else 0)
  {
    hide WindowOf, TasksWithKey;
  }

  lemma AcceptedCount(st: Store, after: Store, s: Submission, t: TaskRow, window: int, scope: Scope, w: int)
    requires Accepted(st, after, s, t, window)
    ensures |CountedTasks(after, scope, w)| == |CountedTasks(st, scope, w)| + (if InScope(t, scope) && w == window then 1 else 0)
  {
    AcceptedRow(st, after, s, t, window);
    hide Accepted, CountedTasks;
    CountedWithOne(st, after, s.taskId, t, scope, w);
    if InScope(t, scope) && w == window {
      assert s.taskId !in CountedTasks(st, scope, w) by { OnlyTasksCounted(st, scope, w); }
    }
  }

  lemma AcceptedRow(st: Store, after: Store, s: Submission, t: TaskRow, window: int)
    requires Accepted(st, after, s, t, window)
    ensures s.taskId !in st.tasks && after.tasks == st.tasks[s.taskId := t] && after.limits == st.limits
    ensures WindowOf(st.limits, t) == window
  {
  }

  lemma OnlyTasksCounted(st: Store, scope: Scope, w: int)
    ensures CountedTasks(st, scope, w) <= st.tasks.Keys
  {
  }

  lemma CountedWithOne(st: Store, after: Store, id: TaskId, t: TaskRow, scope: Scope, w: int)
    requires id !in st.tasks && after.tasks == st.tasks[id := t] && after.limits == st.limits
    ensures CountedTasks(after, scope, w)
         == CountedTasks(st, scope, w) + (if InScope(t, scope) && WindowOf(st.limits, t) == w then {id} else {})
  {
    hide InScope, WindowOf;
  }

  lemma AcceptedKeeps(st: Store, after: Store, s: Submission, t: TaskRow, window: int)
    requires Accepted(st, after, s, t, window) && CountersOk(st) && KeysUnique(st)
    ensures CountersOk(after) && KeysUnique(after)
  {
    forall scope, w ensures Count(after, scope, w) == |CountedTasks(after, scope, w)| {
      AcceptedCounter(st, after, s, t, window, scope, w);
      AcceptedCount(st, after, s, t, window, scope, w);
    }
    forall tenant, w | tenant in after.limits
      ensures Count(after, TenantScope(tenant), w) <= after.limits[tenant].requestsPerWindow
    {
      AcceptedCounter(st, after, s, t, window, TenantScope(tenant), w);
    }
    forall a | a in st.tasks && st.tasks[a].tenant == s.tenant ensures st.tasks[a].key != s.key {
      assert a !in TasksWithKey(st, s.tenant, s.key);
    }
    hide Count, CountedTasks, WindowOf, TasksWithKey, Bump;
  }

  lemma StepCounts(st: Store, e: Event)
    requires StoreOk(st) && Governed(st, e) && CountersOk(st) && KeysUnique(st)
    ensures CountersOk(Apply(st, e)) && KeysUnique(Apply(st, e))
  {
    hide StoreOk, CountersOk, KeysUnique, Submit, Framed, Accepted, WindowStart, TasksMoved;
    if e.op.OpSubmit? {
      if Attempt(st, e).Ok? {
        var s, principal := e.op.submission, e.op.principal;
        SubmitShape(st, s, principal, e.now);
        if Submit(st, s, principal, e.now).value.1 == Created {
          SubmitAccepts(st, s, principal, e.now);
          AcceptedKeeps(st, Apply(st, e), s, NewTask(s, principal, e.now), WindowStart(e.now, st.limits[s.tenant].windowSeconds));
        }
      }
    } else {
      StepFramed(st, e);
      FramedCounters(st, Apply(st, e));
    }
  }

  /** In every store of every governed run the counters are exact and within the limits, and keys are
      unique per tenant. */
  lemma {:induction false} AlwaysCounted(stores: seq<Store>, events: seq<Event>, i: nat)
    requires IsRun(stores, events) && i < |stores|
    ensures CountersOk(stores[i]) && KeysUnique(stores[i])
  {
    hide StoreOk, Apply, IsStep, CountersOk, KeysUnique;
    if i == 0 {
      InitialCounts(stores[0]);
    } else {
      hide IsRun;
      RunLength(stores, events);
      AlwaysCounted(stores, events, i - 1);
      RunStep(stores, events, i - 1);
      StepCounts(stores[i - 1], events[i - 1]);
    }
  }

  lemma InitialCounts(st: Store)
    requires IsInitial(st)
    ensures CountersOk(st) && KeysUnique(st)
  {
    forall scope, window ensures Count(st, scope, window) == |CountedTasks(st, scope, window)| {
      assert CountedTasks(st, scope, window) == {};
    }
  }

  /** A replayed submission changes nothing and names the task the key was first used for. */
  lemma ReplayChangesNothing(st: Store, s: Submission, principal: Principal, now: int)
    requires Submit(st, s, principal, now).Ok? && Submit(st, s, principal, now).value.1 == Existing
    ensures var (after, _, id) := Submit(st, s, principal, now).value;
            && after == st && id in st.tasks && st.tasks[id].tenant == s.tenant && st.tasks[id].key == s.key
            && st.tasks[id].fingerprint == s.fingerprint && st.tasks[id].plan == s.plan
  {
    assert MinOf(TasksWithKey(st, s.tenant, s.key)) in TasksWithKey(st, s.tenant, s.key);
    hide SubmissionOk, AdmitIfPlanned, WithinQuota, Bump, Count, NewTask, RetryAfter, WindowStart;
  }

  /** Tasks are never removed and keep their key, so a tenant's key names one task for the whole run. */
  lemma {:induction false} TasksStay(stores: seq<Store>, events: seq<Event>, i: nat, j: nat, t: TaskId)
    requires IsRun(stores, events) && i <= j < |stores| && t in stores[i].tasks
    ensures t in stores[j].tasks && SameIdentity(stores[i].tasks[t], stores[j].tasks[t])
  {
    hide StoreOk, Apply, IsRun;
    if i < j {
      RunLength(stores, events);
      TasksStay(stores, events, i, j - 1, t);
      RunStep(stores, events, j - 1);
      StepFramed(stores[j - 1], events[j - 1]);
      assert TaskMoved(stores[j - 1].tasks[t], stores[j].tasks[t], stores[j - 1].nextToken, stores[j].nextToken);
    }
  }

  lemma OneTaskPerKey(stores: seq<Store>, events: seq<Event>, i: nat, j: nat, a: TaskId, b: TaskId)
    requires IsRun(stores, events) && i <= j < |stores| && a in stores[i].tasks && b in stores[j].tasks
    requires stores[i].tasks[a].tenant == stores[j].tasks[b].tenant && stores[i].tasks[a].key == stores[j].tasks[b].key
    ensures a == b
  {
    TasksStay(stores, events, i, j, a);
    AlwaysCounted(stores, events, j);
    hide IsRun, CountersOk;
  }

  /** Once a tenant's key has been accepted, every later submission under it, by whomever and at
      whatever time, leaves the store alone: it is answered with the first task exactly when it passes
      the checks on the request and asks for the same thing. */
  lemma RunReplay(stores: seq<Store>, events: seq<Event>, i: nat, n: nat)
    requires IsRun(stores, events) && i < n < |events| && |stores| == |events| + 1
    requires events[i].op.OpSubmit? && Attempt(stores[i], events[i]).Ok? && events[n].op.OpSubmit?
    requires events[n].op.submission.tenant == events[i].op.submission.tenant
    requires events[n].op.submission.key == events[i].op.submission.key
    ensures stores[n + 1] == stores[n]
    ensures var first := Submit(stores[i], events[i].op.submission, events[i].op.principal, events[i].now);
            var s, principal := events[n].op.submission, events[n].op.principal;
            var again := Submit(stores[n], s, principal, events[n].now);
            && (again.Ok? <==>
                  && SubmissionOk(stores[n], s, principal)
                  && s.fingerprint == events[i].op.submission.fingerprint && s.plan == events[i].op.submission.plan)
            && (again.Ok? ==> again.value == (stores[n], Existing, first.value.2))
  {
    hide IsRun, CountersOk, StoreOk, Submit, Apply;
    var s := events[i].op.submission;
    RunStep(stores, events, i);
    RunStep(stores, events, n);
    FirstTask(stores[i], s, events[i].op.principal, events[i].now);
    var id := Submit(stores[i], s, events[i].op.principal, events[i].now).value.2;
    AppliedSubmission(stores[i], events[i]);
    TasksStay(stores, events, i + 1, n, id);
    AlwaysCounted(stores, events, n);
    KeyIsTaken(stores[n], events[n].op.submission, events[n].op.principal, events[n].now, id);
    AppliedSubmission(stores[n], events[n]);
  }

  /** The task an accepted submission names holds the key and what was asked for. */
  lemma FirstTask(st: Store, s: Submission, principal: Principal, now: int)
    requires Submit(st, s, principal, now).Ok?
    ensures var (after, _, id) := Submit(st, s, principal, now).value;
            && id in after.tasks && after.tasks[id].tenant == s.tenant && after.tasks[id].key == s.key
            && after.tasks[id].fingerprint == s.fingerprint && after.tasks[id].plan == s.plan
  {
    SubmitShape(st, s, principal, now);
    var (after, outcome, id) := Submit(st, s, principal, now).value;
    if outcome == Existing {
      ReplayChangesNothing(st, s, principal, now);
    }
    hide Submit, Admit, WindowStart, SubmissionOk, TasksWithKey;
  }

  /** While one task holds the key, a submission under it finds that task. */
  lemma KeyIsTaken(st: Store, s: Submission, principal: Principal, now: int, id: TaskId)
    requires KeysUnique(st) && id in st.tasks && st.tasks[id].tenant == s.tenant && st.tasks[id].key == s.key
    ensures var r := Submit(st, s, principal, now);
            && (r.Ok? <==> SubmissionOk(st, s, principal) && st.tasks[id].fingerprint == s.fingerprint && st.tasks[id].plan == s.plan)
            && (r.Ok? ==> r.value == (st, Existing, id))
  {
    assert TasksWithKey(st, s.tenant, s.key) == {id};
    hide AdmitIfPlanned, WithinQuota, Bump, Count, NewTask, RetryAfter, WindowStart, IsKey, BudgetOk;
  }

  // ----- sliding intervals -----

  /** The tenant's tasks created in an interval as long as one window. */
  function CreatedWithin(st: Store, tenant: TenantId, start: int, seconds: nat): set<TaskId> {
    set t | t in st.tasks && st.tasks[t].tenant == tenant && start <= st.tasks[t].createdAt < start + seconds * 1000
  }

  /** An interval of window length meets at most two windows. */
  lemma TwoWindows(start: int, at: int, seconds: nat)
    requires seconds > 0 && start <= at < start + seconds * 1000
    ensures WindowStart(at, seconds) in {WindowStart(start, seconds), WindowStart(start, seconds) + seconds}
  {
    var a, b := start / 1000, at / 1000;
    assert a <= b <= a + seconds;
    QuotientStep(a / seconds, a % seconds, b / seconds, b % seconds, seconds);
    Quotient(a, seconds);
    Quotient(b, seconds);
  }

  lemma Quotient(a: int, n: nat)
    requires n > 0
    ensures a - a % n == a / n * n
  {
  }

  /** Numbers at most `n` apart have quotients by `n` at most one apart. */
  lemma QuotientStep(qa: int, ra: int, qb: int, rb: int, n: nat)
    requires 0 <= ra < n && 0 <= rb < n
    requires qa * n + ra <= qb * n + rb <= qa * n + ra + n
    ensures qb * n == qa * n || qb * n == qa * n + n
  {
    Distribute(qa, qb, n);
    SmallMultiple(qb - qa, n);
  }

  lemma Distribute(a: int, b: int, n: int)
    ensures b * n == a * n + (b - a) * n
  {
  }

  lemma SmallMultiple(d: int, n: int)
    requires 0 < n && -n < d * n < 2 * n
    ensures d * n == 0 || d * n == n
  {
    if d >= 2 { Scale(2, d, n); }
    if d <= -1 { Scale(d, -1, n); }
    assert d == 0 || d == 1;
  }

  lemma Scale(x: int, y: int, n: nat)
    requires x <= y
    ensures x * n <= y * n
  {
  }

  /** Whatever interval of window length one looks at, a tenant created at most twice its limit in it. */
  lemma IntervalBound(stores: seq<Store>, events: seq<Event>, i: nat, tenant: TenantId, start: int)
    requires IsRun(stores, events) && i < |stores| && tenant in stores[i].limits
    requires stores[i].limits[tenant].windowSeconds > 0
    ensures var limits := stores[i].limits[tenant];
            |CreatedWithin(stores[i], tenant, start, limits.windowSeconds)| <= 2 * limits.requestsPerWindow
  {
    var st := stores[i];
    AlwaysCounted(stores, events, i);
    var seconds := st.limits[tenant].windowSeconds;
    var first := WindowStart(start, seconds);
    var scope := TenantScope(tenant);
    var covered := CountedTasks(st, scope, first) + CountedTasks(st, scope, first + seconds);
    var created := CreatedWithin(st, tenant, start, seconds);
    CreatedCovered(st, tenant, start);
    hide IsRun;
    assert Count(st, scope, first) == |CountedTasks(st, scope, first)|;
    assert Count(st, scope, first + seconds) == |CountedTasks(st, scope, first + seconds)|;
    hide CountedTasks, CreatedWithin, WindowStart;
    SubsetSize(created, covered);
  }

  lemma CreatedCovered(st: Store, tenant: TenantId, start: int)
    requires tenant in st.limits && st.limits[tenant].windowSeconds > 0
    ensures var seconds := st.limits[tenant].windowSeconds;
            var first := WindowStart(start, seconds);
            CreatedWithin(st, tenant, start, seconds)
              <= CountedTasks(st, TenantScope(tenant), first) + CountedTasks(st, TenantScope(tenant), first + seconds)
  {
    var seconds := st.limits[tenant].windowSeconds;
    forall t | t in CreatedWithin(st, tenant, start, seconds)
      ensures WindowOf(st.limits, st.tasks[t]) in {WindowStart(start, seconds), WindowStart(start, seconds) + seconds}
    {
      TwoWindows(start, st.tasks[t].createdAt, seconds);
    }
    hide WindowStart;
  }

  lemma {:induction false} SubsetSize<T>(a: set<T>, b: set<T>)
    requires a <= b
    ensures |a| <= |b|
  {
    if a != {} {
      var x :| x in a;
      SubsetSize(a - {x}, b - {x});
    }
  }
}
