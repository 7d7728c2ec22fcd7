/** The laws of a log, for every plan in every store of every governed run. */
module RunLaws {
  import opened Base
  import opened PlanCore
  import opened TransitionLog
  import opened PlanTransactions
  import opened Journal
  import opened LogLaws
  import opened PlanVerification
  import opened PlanInvariants
  import opened QueueModel
  import opened GovernedRuns
  import opened Authority

  /** What a run guarantees about the rows of one of its plans. */
  lemma PlanOfRun(stores: seq<Store>, events: seq<Event>, n: nat, p: PlanId)
    requires IsRun(stores, events) && n < |stores| && p in stores[n].plans
    ensures var rec := stores[n].plans[p];
            && Lawful(rec.spec.steps, rec.log) && Replay(Ids(rec.spec.steps), rec.log).Some?
            && UniqueIds(rec.spec.steps) && (forall s :: s in rec.spec.steps ==> 1 <= s.maxAttempts)
            && rec.attempts.Keys == Ids(rec.spec.steps)
            && (forall id :: id in rec.attempts ==> rec.attempts[id] == Starts(rec.log, id))
  {
    RunKeeps(stores, events, n);
    PlanFacts(stores[n], p);
    StepsMayStart(stores[n].plans[p]);
  }

  lemma StepsMayStart(rec: PlanRec)
    requires RecOk(rec)
    ensures UniqueIds(rec.spec.steps) && forall s :: s in rec.spec.steps ==> 1 <= s.maxAttempts
    ensures Lawful(rec.spec.steps, rec.log) && Replay(Ids(rec.spec.steps), rec.log).Some?
  {
    forall s | s in rec.spec.steps ensures 1 <= s.maxAttempts {
      assert ValidStep(s);
    }
  }

  /** No step ever starts before all of its dependencies have run to success. */
  lemma RunDependencySafety(stores: seq<Store>, events: seq<Event>, n: nat, p: PlanId, i: nat, s: PlanStep, d: StepId)
    requires IsRun(stores, events) && n < |stores| && p in stores[n].plans
    requires i < |stores[n].plans[p].log| && s in stores[n].plans[p].spec.steps && d in s.dependsOn
    requires stores[n].plans[p].log[i].body.MovesStep(s.id, StepReady, StepRunning)
    ensures exists j :: 0 <= j < i && stores[n].plans[p].log[j].body.MovesStep(d, StepRunning, StepSucceeded)
  {
    PlanOfRun(stores, events, n, p);
    DependencySafety(stores[n].plans[p].spec.steps, stores[n].plans[p].log, i, s, d);
  }

  /** No blind retry: between the event that made a plan unknown and the next start of any step lies an
      event that an Administrator's resolution of this plan wrote, at an earlier step of the run. */
  lemma RunNoBlindRetry(stores: seq<Store>, events: seq<Event>, n: nat, p: PlanId, i: nat, k: nat, id: StepId)
    returns (j: nat, at: nat)
    requires IsRun(stores, events) && n < |stores| && p in stores[n].plans
    requires i < k < |stores[n].plans[p].log|
    requires stores[n].plans[p].log[i].body.entity == PlanEntity && stores[n].plans[p].log[i].body.toState == PlanIs(Unknown)
    requires stores[n].plans[p].log[k].body.MovesStep(id, StepReady, StepRunning)
    ensures i < j < k && IsResolution(stores[n].plans[p].log[j].body)
    ensures at < n && at < |events| && IsAdminResolution(events[at], p)
    ensures p in stores[at].plans && p in stores[at + 1].plans
    ensures |stores[at].plans[p].log| <= j < |stores[at + 1].plans[p].log|
  {
    PlanOfRun(stores, events, n, p);
    var log := stores[n].plans[p].log;
    NoBlindRetry(stores[n].plans[p].spec.steps, log, i, k, id);
    j :| i < j < k && IsResolution(log[j].body);
    at := OnlyAdministratorsResolve(stores, events, n, p, j);
  }

  /** Compensation: the declared target ran to success after the source last moved to compensating. */
  lemma RunCompensation(stores: seq<Store>, events: seq<Event>, n: nat, p: PlanId, i: nat, source: StepId)
    returns (m: nat, j: nat, target: StepId)
    requires IsRun(stores, events) && n < |stores| && p in stores[n].plans && i < |stores[n].plans[p].log|
    requires stores[n].plans[p].log[i].body.MovesStep(source, StepCompensating, StepCompensated)
    ensures m < j < i && Compensates(stores[n].plans[p].spec.steps, target, source)
    ensures exists from :: from != StepCompensating && stores[n].plans[p].log[m].body.MovesStep(source, from, StepCompensating)
    ensures stores[n].plans[p].log[j].body.MovesStep(target, StepRunning, StepSucceeded)
    ensures forall k :: m < k < i ==> !stores[n].plans[p].log[k].body.Touches(source)
  {
    PlanOfRun(stores, events, n, p);
    m, j, target := CompensationOrder(stores[n].plans[p].spec.steps, stores[n].plans[p].log, i, source);
  }

  /** While a plan compensates, only declared compensations of steps under compensation start. */
  lemma RunOnlyCompensations(stores: seq<Store>, events: seq<Event>, n: nat, p: PlanId, i: nat, id: StepId)
    requires IsRun(stores, events) && n < |stores| && p in stores[n].plans && i < |stores[n].plans[p].log|
    requires stores[n].plans[p].log[i].body.MovesStep(id, StepReady, StepRunning)
    ensures var rec := stores[n].plans[p];
            && Replay(Ids(rec.spec.steps), rec.log).Some?
            && var before := StateAt(Ids(rec.spec.steps), rec.log, i);
               before.plan == Compensating ==>
                 exists source ::
                   Compensates(rec.spec.steps, id, source) && source in before.steps && before.steps[source] == StepCompensating
  {
    PlanOfRun(stores, events, n, p);
    var rec := stores[n].plans[p];
    if StateAt(Ids(rec.spec.steps), rec.log, i).plan == Compensating {
      OnlyCompensationsStart(rec.spec.steps, rec.log, i, id);
    }
  }

  /** A plan is quarantined at most once per resolution, whatever interleaving of expiries, cancelled
      steps and racing resumers took place; the resolution was an Administrator's. */
  lemma RunOneRecoveryPerResolution(stores: seq<Store>, events: seq<Event>, n: nat, p: PlanId, i: nat, k: nat)
    returns (j: nat, at: nat)
    requires IsRun(stores, events) && n < |stores| && p in stores[n].plans
    requires i < k < |stores[n].plans[p].log|
    requires stores[n].plans[p].log[i].body.entity == PlanEntity && stores[n].plans[p].log[i].body.toState == PlanIs(Unknown)
    requires stores[n].plans[p].log[k].body.entity == PlanEntity && stores[n].plans[p].log[k].body.toState == PlanIs(Unknown)
    ensures i < j < k && IsResolution(stores[n].plans[p].log[j].body)
    ensures at < n && at < |events| && IsAdminResolution(events[at], p)
  {
    PlanOfRun(stores, events, n, p);
    OneRecoveryPerResolution(Ids(stores[n].plans[p].spec.steps), stores[n].plans[p].log, i, k);
    j :| i < j < k && IsResolution(stores[n].plans[p].log[j].body);
    at := OnlyAdministratorsResolve(stores, events, n, p, j);
  }

  /** A plan that has ended stays as it ended: its later events are about steps, and none of them is a
      start. */
  lemma RunEndings(stores: seq<Store>, events: seq<Event>, n: nat, p: PlanId, i: nat, k: nat)
    requires IsRun(stores, events) && n < |stores| && p in stores[n].plans
    requires i < k < |stores[n].plans[p].log|
    requires var t := stores[n].plans[p].log[i].body;
             t.entity == PlanEntity && t.toState.PlanIs? && t.toState.plan.IsTerminal()
    ensures stores[n].plans[p].log[k].body.entity == StepEntity && !IsStart(stores[n].plans[p].log[k].body)
  {
    PlanOfRun(stores, events, n, p);
    NothingStartsAfterTheEnd(stores[n].plans[p].spec.steps, stores[n].plans[p].log, i, k);
  }

  /** No step of a plan that requires approval is ever claimed without one: somebody other than the
      plan's operator, in a sufficient role, approved this very plan as a whole, and the approval is
      neither revoked nor expired at the time of the claim. */
  lemma ClaimsAreApproved(rec: PlanRec, task: TaskRow, ref: PlanRef, ctx: ClaimContext, now: int)
    requires PrepareClaim(rec, task, ref, ctx, now).Ok? && PrepareClaim(rec, task, ref, ctx, now).value.Some?
    requires RequiredApproval(rec.spec) != NoApproval
    ensures exists a :: a in LoadApprovals(rec.approvals) && Covers(a, rec.spec, now)
  {
    hide SelectStep, StartStep, LoadPlan, WellFormed, DigestOk, ApprovalValidFor, RequiredApproval;
    assert PreflightOk(rec, now);
    var plan := Loaded(rec);
    assert RequiredApproval(plan) == RequiredApproval(rec.spec) by { SameRequirements(rec); }
    var a :| a in LoadApprovals(rec.approvals) && ApprovalValidFor(a, plan, None, now);
    ValidApprovalCovers(rec, a, now);
  }

  predicate Covers(a: Approval, p: PlanSpec, now: int) {
    && a.decision == ApprovedDecision && !a.revoked && now < a.expiresAt
    && a.approver != p.operator && a.tenant == p.tenant
    && a.planId == p.planId && a.planDigest == p.digest && a.revision == p.revision && a.stepId.None?
    && (RequiredApproval(p) == ByAdministrator ==> a.approverRole == Administrator)
    && a.approverRole != Operator
  }

  lemma SameRequirements(rec: PlanRec)
    ensures RequiredApproval(Loaded(rec)) == RequiredApproval(rec.spec)
  {
  }

  lemma ValidApprovalCovers(rec: PlanRec, a: Approval, now: int)
    requires ApprovalValidFor(a, Loaded(rec), None, now) && RequiredApproval(rec.spec) != NoApproval
    ensures Covers(a, rec.spec, now)
  {
    SameRequirements(rec);
  }

  /** The attempt counter of a step is its number of starts, bounded by its limit plus the resolutions
      that made it ready again; and so for the plan as a whole. */
  lemma RunAttempts(stores: seq<Store>, events: seq<Event>, n: nat, p: PlanId, s: PlanStep)
    requires IsRun(stores, events) && n < |stores| && p in stores[n].plans && s in stores[n].plans[p].spec.steps
    ensures var rec := stores[n].plans[p];
            && s.id in rec.attempts && rec.attempts[s.id] <= s.maxAttempts + Resets(rec.log, s.id)
            && AllStarts(rec.log) <= Allowance(rec.log, rec.spec.steps)
            && ((forall o :: o in rec.spec.steps ==> Resets(rec.log, o.id) == 0) ==>
                  AllStarts(rec.log) <= SumOfLimits(rec.spec.steps))
  {
    PlanOfRun(stores, events, n, p);
    AttemptBound(stores[n].plans[p].spec.steps, stores[n].plans[p].log, s);
    ClaimsBounded(stores[n].plans[p].spec.steps, stores[n].plans[p].log);
  }

  /** Two histories of a plan, from whatever runs, that end in the same hash are the same history. */
  lemma RunCommitment(stores: seq<Store>, events: seq<Event>, n: nat, others: seq<Store>, happened: seq<Event>, m: nat, p: PlanId)
    requires IsRun(stores, events) && n < |stores| && p in stores[n].plans
    requires IsRun(others, happened) && m < |others| && p in others[m].plans
    requires LastHash(stores[n].plans[p].log) == LastHash(others[m].plans[p].log)
    ensures stores[n].plans[p].log == others[m].plans[p].log
  {
    AlwaysStable(stores, events, n, p);
    AlwaysStable(others, happened, m, p);
    ChainCommitment(stores[n].plans[p].log, others[m].plans[p].log);
  }
}
