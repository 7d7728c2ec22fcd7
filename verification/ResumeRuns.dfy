/** Resumers that race, over whole runs: what a resume write may see, and that it happens once. */
module ResumeRuns {
  import opened Base
  import opened PlanCore
  import opened TransitionLog
  import opened PlanTransactions
  import opened Journal
  import opened PlanResolution
  import opened QueueModel
  import opened GovernedRuns
  import opened Authority

  // ----- a quarantine lasts until an Administrator resolves it -----

  /** A log that grows without leaving an unknown state leaves an unknown plan unknown. */
  lemma {:induction false} UnknownStays(ids: set<StepId>, log: seq<LogRow>, longer: seq<LogRow>)
    requires IsExtension(log, longer) && Replay(ids, log).Some? && Replay(ids, longer).Some?
    requires Replay(ids, log).value.plan == Unknown
    requires forall k :: |log| <= k < |longer| ==> !LeavesUnknown(longer[k].body)
    ensures Replay(ids, longer).value.plan == Unknown
  {
    if |log| < |longer| {
      UnknownStays(ids, log, longer[..|longer| - 1]);
    } else {
      assert longer == log;
    }
  }

  lemma UnknownPlanStays(rec: PlanRec, r: PlanRec)
    requires Journaled(rec) && Journaled(r) && LogGrows(rec, r) && rec.state == Unknown
    ensures r.state == Unknown
  {
    UnknownStays(Ids(rec.spec.steps), rec.log, r.log);
  }

  lemma {:induction false} StaysUnknown(stores: seq<Store>, events: seq<Event>, i: nat, n: nat, p: PlanId)
    requires IsRun(stores, events) && i <= n < |stores| && p in stores[i].plans && stores[i].plans[p].state == Unknown
    requires forall j :: i <= j < n && j < |events| ==> !IsAdminResolution(events[j], p)
    ensures p in stores[n].plans && stores[n].plans[p].state == Unknown
  {
    hide Apply, Governed, IsRun, Journaled, LogGrows;
    if i < n {
      StaysUnknown(stores, events, i, n - 1, p);
      RunSteps(stores, events, n - 1);
      if events[n - 1].op.OpResolve? {
        ResolutionGrew(stores[n - 1], events[n - 1], p);
      } else {
        StepGrew(stores[n - 1], events[n - 1], p);
        AlwaysStable(stores, events, n - 1, p);
        AlwaysStable(stores, events, n, p);
        UnknownPlanStays(stores[n - 1].plans[p], stores[n].plans[p]);
      }
    }
  }

  // ----- a write happens only on a fresh view -----

  lemma ResumeOpWrites(st: Store, e: Event)
    requires Governed(st, e) && e.op.OpResumeWrite? && Apply(st, e) != st
    ensures e.op.plan in st.plans && ResumeWrite(st.plans[e.op.plan], e.op.view, e.now).Ok?
    ensures ResumeWrite(st.plans[e.op.plan], e.op.view, e.now).value != st.plans[e.op.plan]
    ensures Apply(st, e) == st.(plans := st.plans[e.op.plan := ResumeWrite(st.plans[e.op.plan], e.op.view, e.now).value])
    ensures GovernedView(e.op.view)
  {
    hide ResumeWrite;
  }

  /** The view is the one a read at this moment returns, when the plan inspects as stable. */
  lemma WritersViewIsFresh(rec: PlanRec, view: ResumeView, now: int)
    requires GovernedView(view) && Inspect(rec) == None
    requires ResumeWrite(rec, view, now).Ok? && ResumeWrite(rec, view, now).value != rec
    ensures view == ResumeRead(rec) && view.verdict == FoundActive && rec.state != Unknown
  {
    if view.verdict == FoundActive && rec.state != Unknown
      && (view.state != rec.state || view.active != ActiveSteps(rec.steps)) {
      StaleViewRejected(rec, view, now);
    }
    hide Inspect, InsertRecovery;
  }

  /** A resumer changes the store only with exactly the view that a read at the moment of its write
      would return; it then quarantines the plan and every active step of it, and nothing else. */
  lemma RunResumeWritesFresh(stores: seq<Store>, events: seq<Event>, n: nat)
    requires IsRun(stores, events) && n < |events| && n + 1 < |stores|
    requires events[n].op.OpResumeWrite? && stores[n + 1] != stores[n]
    ensures var p := events[n].op.plan;
            && p in stores[n].plans && events[n].op.view == ResumeRead(stores[n].plans[p])
            && stores[n].plans[p].state != Unknown
            && p in stores[n + 1].plans && stores[n + 1].plans[p].state == Unknown
            && stores[n + 1].plans[p].steps == Quarantined(stores[n].plans[p].steps)
            && stores[n + 1] == stores[n].(plans := stores[n].plans[p := stores[n + 1].plans[p]])
  {
    RunSteps(stores, events, n);
    ResumeOpWrites(stores[n], events[n]);
    hide Apply, Governed, IsRun, ResumeWrite, ResumeRead, Inspect, Journaled, Quarantined;
    var p := events[n].op.plan;
    AlwaysStable(stores, events, n, p);
    WritersViewIsFresh(stores[n].plans[p], events[n].op.view, events[n].now);
    QuarantineIsWritten(stores[n].plans[p], events[n].op.view, events[n].now);
  }

  lemma QuarantineIsWritten(rec: PlanRec, view: ResumeView, now: int)
    requires view.verdict == FoundActive && rec.state != Unknown && ResumeWrite(rec, view, now).Ok?
    ensures var r := ResumeWrite(rec, view, now).value;
            r.state == Unknown && r.steps == Quarantined(rec.steps)
  {
    RecoverUnfolds(rec, view, now);
    RecoverySteps(rec, now);
    hide InsertRecovery;
  }

  /** Resumers may race as they like: once one of them has written, every later resume write of the
      plan changes nothing, whatever it saw, until an Administrator has resolved the plan. */
  lemma RunResumesOnce(stores: seq<Store>, events: seq<Event>, i: nat, n: nat)
    requires IsRun(stores, events) && i < n < |events| && n + 1 < |stores|
    requires events[i].op.OpResumeWrite? && stores[i + 1] != stores[i]
    requires events[n].op.OpResumeWrite? && events[n].op.plan == events[i].op.plan
    requires forall j :: i < j < n ==> !IsAdminResolution(events[j], events[i].op.plan)
    ensures var p := events[i].op.plan;
            stores[n + 1] == stores[n] && p in stores[n].plans && stores[n].plans[p].state == Unknown
  {
    hide Apply, Governed, IsRun, ResumeRead, Quarantined;
    var p := events[i].op.plan;
    RunResumeWritesFresh(stores, events, i);
    StaysUnknown(stores, events, i + 1, n, p);
    if stores[n + 1] != stores[n] {
      RunResumeWritesFresh(stores, events, n);
    }
  }
}
