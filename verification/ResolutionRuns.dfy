/** Resolutions over whole runs. */
module ResolutionRuns {
  import opened Base
  import opened PlanCore
  import opened TransitionLog
  import opened PlanTransactions
  import opened PlanInvariants
  import opened QueueModel
  import opened GovernedRuns
  import opened ResolutionMeaning

  /** The resolution of plan `p` did what its decision says to the plan and to its task, and nothing else. */
  ghost predicate ResolvedIn(st: Store, e: Event, after: Store) {
    && e.op.OpResolve? && e.op.plan in st.plans && e.op.plan in after.plans
    && var rec := st.plans[e.op.plan];
       var id := rec.spec.taskId;
       && rec.state == Unknown && !KeyUsed(rec.log, e.op.key) && id in st.tasks && id in after.tasks
       && MayDecide(rec, e.op.principal, e.op.decision, e.op.evidence) && MayResolve(rec, e.op.decision, e.op.key)
       && Resolved(rec, after.plans[e.op.plan], e.op.decision)
       && TaskResolved(st.tasks[id], after.tasks[id], e.op.decision, e.now)
       && after == st.(plans := st.plans[e.op.plan := after.plans[e.op.plan]], tasks := st.tasks[id := after.tasks[id]])
  }

  lemma ResolveOnlyUnknown(rec: PlanRec, task: Option<TaskRow>, principal: Principal, decision: ResolutionDecision, key: Key,
                           evidence: Option<Digest>, now: int)
    requires Resolve(rec, task, principal, decision, key, evidence, now).Ok?
    requires Resolve(rec, task, principal, decision, key, evidence, now).value.0 != rec
          || Resolve(rec, task, principal, decision, key, evidence, now).value.1 != task
    ensures rec.state == Unknown && !KeyUsed(rec.log, key) && task.Some?
  {
    hide Loadable, ResolveWith, KeyUsed, KeyUsedFor, AddCheckpoint, ResolvedTask;
  }

  lemma ResolvePlanMeans(st: Store, e: Event)
    requires StoreOk(st) && e.op.OpResolve?
    requires var r := ResolvePlan(st, e.op.principal, e.op.plan, e.op.decision, e.op.key, e.op.evidence, e.now);
             r.Ok? && r.value.0 != st
    ensures ResolvedIn(st, e, ResolvePlan(st, e.op.principal, e.op.plan, e.op.decision, e.op.key, e.op.evidence, e.now).value.0)
  {
    hide StoreOk, Resolve, RecOk, Joint, KeyUsed, MayDecide, MayResolve, Resolved, TaskResolved;
    var p := e.op.plan;
    PlanFacts(st, p);
    var rec := st.plans[p];
    var task := BoundTask(st, rec);
    var (r, t, _) := Resolve(rec, task, e.op.principal, e.op.decision, e.op.key, e.op.evidence, e.now).value;
    if r == rec && t == task {
      NothingWritten(st, p, task);
    } else {
      ResolveOnlyUnknown(rec, task, e.op.principal, e.op.decision, e.op.key, e.op.evidence, e.now);
      ResolutionMeans(rec, task.value, e.op.principal, e.op.decision, e.op.key, e.op.evidence, e.now);
    }
  }

  lemma NothingWritten(st: Store, p: PlanId, task: Option<TaskRow>)
    requires p in st.plans && task == BoundTask(st, st.plans[p])
    ensures st.(plans := st.plans[p := st.plans[p]]) == st
    ensures task.Some? ==> st.tasks[st.plans[p].spec.taskId := task.value] == st.tasks
  {
    assert st.plans[p := st.plans[p]] == st.plans;
  }

  /** In every run a resolution that changes anything was an Administrator's, on a plan that was unknown, and
      did exactly what its decision says. */
  lemma RunResolution(stores: seq<Store>, events: seq<Event>, n: nat)
    requires IsRun(stores, events) && n < |events| && n + 1 < |stores| && events[n].op.OpResolve? && stores[n + 1] != stores[n]
    ensures ResolvedIn(stores[n], events[n], stores[n + 1])
  {
    hide IsRun, StoreOk, Apply, ResolvedIn, ResolvePlan;
    RunStep(stores, events, n);
    ResolutionApplied(stores[n], events[n]);
    ResolvePlanMeans(stores[n], events[n]);
  }

  lemma ResolutionApplied(st: Store, e: Event)
    requires Governed(st, e) && e.op.OpResolve? && Apply(st, e) != st
    ensures var r := ResolvePlan(st, e.op.principal, e.op.plan, e.op.decision, e.op.key, e.op.evidence, e.now);
            r.Ok? && Apply(st, e) == r.value.0
  {
    hide ResolvePlan;
  }
}
