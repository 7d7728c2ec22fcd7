/** Separation of duties over whole runs: every start of a step goes back to an approval that somebody
    else gave earlier in the run. */
module Approvals {
  import opened PlanCore
  import opened TransitionLog
  import opened PlanTransactions
  import opened Journal
  import opened LogLaws
  import opened QueueModel
  import opened Authority
  import opened RunLaws

  // ----- starts are written by claims -----

  lemma {:induction false} StartsGrow(log: seq<LogRow>, longer: seq<LogRow>, k: nat, id: StepId)
    requires IsExtension(log, longer) && |log| <= k < |longer| && longer[k].body.MovesStep(id, StepReady, StepRunning)
    ensures Starts(log, id) < Starts(longer, id)
  {
    var n := |longer| - 1;
    if k == n {
      StartsMonotone(log, longer[..n], id);
    } else {
      StartsGrow(log, longer[..n], k, id);
    }
  }

  lemma {:induction false} StartsMonotone(log: seq<LogRow>, longer: seq<LogRow>, id: StepId)
    requires IsExtension(log, longer)
    ensures Starts(log, id) <= Starts(longer, id)
  {
    if |log| < |longer| {
      StartsMonotone(log, longer[..|longer| - 1], id);
    } else {
      assert longer == log;
    }
  }

  lemma StartedIsStep(ids: set<StepId>, log: seq<LogRow>, k: nat, id: StepId)
    requires Replay(ids, log).Some? && k < |log| && log[k].body.MovesStep(id, StepReady, StepRunning)
    ensures id in ids
  {
    StepAt(ids, log, k);
    ReplayKeys(ids, log[..k]);
  }

  /** Only a claim starts a step: any other operation leaves the attempts, and these are the starts. */
  lemma StartedByClaim(stores: seq<Store>, events: seq<Event>, n: nat, p: PlanId, k: nat, id: StepId) returns (at: nat)
    requires IsRun(stores, events) && n < |stores| && p in stores[n].plans && k < |stores[n].plans[p].log|
    requires stores[n].plans[p].log[k].body.MovesStep(id, StepReady, StepRunning)
    ensures at < n && at < |events| && events[at].op.OpClaim?
    ensures Governed(stores[at], events[at]) && stores[at + 1] == Apply(stores[at], events[at])
    ensures p in stores[at].plans && p in stores[at + 1].plans
    ensures |stores[at].plans[p].log| <= k < |stores[at + 1].plans[p].log|
    ensures stores[at].plans[p].spec == stores[n].plans[p].spec
  {
    hide Apply, Governed, IsRun, Lawful;
    at := WrittenAt(stores, events, n, p, k);
    PlanOfRun(stores, events, n, p);
    StartedIsStep(Ids(stores[n].plans[p].spec.steps), stores[n].plans[p].log, k, id);
    PlanOfRun(stores, events, at, p);
    PlanOfRun(stores, events, at + 1, p);
    AppendOnly(stores, events, at, at + 1, p);
    StartsGrow(stores[at].plans[p].log, stores[at + 1].plans[p].log, k, id);
    if events[at].op.OpResolve? {
      ResolutionGrew(stores[at], events[at], p);
    } else {
      StepGrew(stores[at], events[at], p);
    }
  }

  // ----- claims are approved -----

  /** A stored approval that counts towards the plan at the given time. */
  ghost predicate HoldsApproval(rec: PlanRec, now: int) {
    exists a :: a in LoadApprovals(rec.approvals) && Covers(a, rec.spec, now)
  }

  /** A claim changes a plan only if the approvals it requires are there. */
  lemma {:induction false} ClaimFromApproved(st: Store, order: seq<TaskId>, ctx: ClaimContext, now: int, until: int, p: PlanId)
    requires p in st.plans && (forall t :: t in order ==> t in st.tasks)
    requires ClaimFrom(st, order, ctx, now, until).Ok? && p in ClaimFrom(st, order, ctx, now, until).value.0.plans
    requires ClaimFrom(st, order, ctx, now, until).value.0.plans[p] != st.plans[p]
    requires RequiredApproval(st.plans[p].spec) != NoApproval
    ensures HoldsApproval(st.plans[p], now)
  {
    hide PrepareClaim, RequiredApproval, Covers, LoadApprovals, HoldsApproval;
    var task := st.tasks[order[0]];
    var q := task.plan.value.planId;
    var granted := ctx.(granted := task.capabilities);
    if PrepareClaim(st.plans[q], task, task.plan.value, granted, now).value.None? {
      assert forall t :: t in order[1..] ==> t in order;
      ClaimFromApproved(st, order[1..], ctx, now, until, p);
    } else {
      OneApproved(st.plans[p], task, task.plan.value, granted, now);
    }
  }

  lemma OneApproved(rec: PlanRec, task: TaskRow, ref: PlanRef, ctx: ClaimContext, now: int)
    requires PrepareClaim(rec, task, ref, ctx, now).Ok? && PrepareClaim(rec, task, ref, ctx, now).value.Some?
    requires RequiredApproval(rec.spec) != NoApproval
    ensures HoldsApproval(rec, now)
  {
    hide PrepareClaim, RequiredApproval, Covers, LoadApprovals;
    ClaimsAreApproved(rec, task, ref, ctx, now);
  }

  lemma ClaimOpApproved(st: Store, e: Event, p: PlanId)
    requires Governed(st, e) && e.op.OpClaim? && p in st.plans && p in Apply(st, e).plans
    requires Apply(st, e).plans[p] != st.plans[p] && RequiredApproval(st.plans[p].spec) != NoApproval
    ensures HoldsApproval(st.plans[p], e.now)
  {
    hide ClaimFrom, RequiredApproval, HoldsApproval;
    ClaimFromApproved(st, e.op.order, e.op.ctx, e.now, e.now + e.op.leaseFor, p);
  }

  lemma {:induction false} LoadedAt(stored: seq<StoredApproval>, a: Approval) returns (k: nat)
    requires a in LoadApprovals(stored)
    ensures k < |stored| && stored[k].approval == a
  {
    k := |stored| - 1;
    if stored[k].approval != a {
      k := LoadedAt(stored[..k], a);
    }
  }

  // ----- separation of duties -----

  /** The event gives an approval that counts towards the plan until after `now`, by a principal who
      may approve plans and is not the plan's operator. */
  predicate GivesApproval(e: Event, p: PlanSpec, now: int) {
    && e.op.OpApprove? && Covers(e.op.approval, p, now)
    && e.op.principal.Allows(ApprovePlan) && e.op.principal.operator == e.op.approval.approver
    && e.op.principal.operator != p.operator
    && (RequiredApproval(p) == ByAdministrator ==> e.op.principal.role == Administrator)
  }

  /** No step of a plan that requires approval ever starts, by whatever path, without an approval given
      earlier in the run by another principal than the plan's operator, in a sufficient role, and
      unexpired at the claim that started the step. */
  lemma RunStartsAreApproved(stores: seq<Store>, events: seq<Event>, n: nat, p: PlanId, k: nat, id: StepId)
    returns (i: nat, at: nat)
    requires IsRun(stores, events) && n < |stores| && p in stores[n].plans && k < |stores[n].plans[p].log|
    requires stores[n].plans[p].log[k].body.MovesStep(id, StepReady, StepRunning)
    requires RequiredApproval(stores[n].plans[p].spec) != NoApproval
    ensures i < at < n && at < |events| && p in stores[at].plans && p in stores[at + 1].plans
    ensures events[at].op.OpClaim? && |stores[at].plans[p].log| <= k < |stores[at + 1].plans[p].log|
    ensures GivesApproval(events[i], stores[n].plans[p].spec, events[at].now)
  {
    hide Apply, Governed, IsRun, RequiredApproval, LoadApprovals;
    at := StartedByClaim(stores, events, n, p, k, id);
    var rec := stores[at].plans[p];
    ClaimOpApproved(stores[at], events[at], p);
    var a :| a in LoadApprovals(rec.approvals) && Covers(a, rec.spec, events[at].now);
    var m := LoadedAt(rec.approvals, a);
    i := ApprovalsAreGiven(stores, events, at, p, m);
  }
}
