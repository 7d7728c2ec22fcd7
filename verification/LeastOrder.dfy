/** The order in which a plan's steps start, read off its log. */
module LeastOrder {
  import opened Base
  import opened PlanCore
  import opened TransitionLog
  import opened PlanTransactions
  import opened Journal
  import opened LogLaws
  import opened PlanInvariants
  import opened Schedule
  import opened QueueModel
  import opened GovernedRuns
  import opened RunLaws

  /** The identifiers of the steps, in the order of their starts. */
  function StartOrder(log: seq<LogRow>): seq<StepId> {
    if log == [] then [] else
      var t := log[|log| - 1].body;
      StartOrder(log[..|log| - 1]) + (if IsStart(t) && t.entityId.Some? then [t.entityId.value] else [])
  }

  /** Steps wait, run and succeed, and the plan does not turn to compensation: nothing has failed, been
      cancelled or been quarantined. */
  predicate IsSmooth(t: Transition) {
    match t.toState
    case StepIs(b) => b in {StepReady, StepRunning, StepSucceeded}
    case PlanIs(b) => b != Compensating
  }

  /** The steps that have started are those that run or have succeeded. */
  ghost predicate StartedAre(r: Reduced, order: seq<StepId>) {
    && r.plan != Compensating
    && (forall id :: id in r.steps ==> r.steps[id] in {StepPending, StepReady, StepRunning, StepSucceeded})
    && (forall id :: id in order <==> id in r.steps && r.steps[id] in {StepRunning, StepSucceeded})
  }

  // ----- prefixes of the greedy order -----

  lemma {:induction false} GreedySplit(steps: seq<PlanStep>, done: set<StepId>, order: seq<StepId>)
    requires Acyclic(steps) && ReferencesKnown(steps) && done <= Ids(steps) && order <= Greedy(steps, done)
    ensures done + ToSet(order) <= Ids(steps)
    ensures Greedy(steps, done) == order + Greedy(steps, done + ToSet(order))
    decreases |order|
  {
    hide Greedy, Acyclic, ReferencesKnown, ReadyIds, Ids;
    if order == [] {
      assert done + ToSet(order) == done;
    } else {
      NotYetAll(steps, done);
      GreedyOne(steps, done);
      var next := MinOf(ReadyIds(steps, done));
      assert Greedy(steps, done)[1..] == Greedy(steps, done + {next});
      assert order[0] == Greedy(steps, done)[0] == next;
      GreedySplit(steps, done + {next}, order[1..]);
      assert order == [next] + order[1..];
      assert done + ToSet(order) == done + {next} + ToSet(order[1..]);
    }
  }

  lemma NotYetAll(steps: seq<PlanStep>, done: set<StepId>)
    requires Acyclic(steps) && ReferencesKnown(steps) && done <= Ids(steps)
    ensures done == Ids(steps) ==> Greedy(steps, done) == []
  {
  }

  lemma GreedyGoesOn(steps: seq<PlanStep>, order: seq<StepId>, id: StepId)
    requires Acyclic(steps) && ReferencesKnown(steps) && order <= Greedy(steps, {})
    requires ReadyIds(steps, ToSet(order)) != {} && id == MinOf(ReadyIds(steps, ToSet(order)))
    ensures order + [id] <= Greedy(steps, {})
  {
    GreedySplit(steps, {}, order);
    assert {} + ToSet(order) == ToSet(order);
    assert ToSet(order) != Ids(steps);
    assert Greedy(steps, ToSet(order))[0] == id;
  }

  // ----- one event -----

  /** With every started step succeeded, the steps that wait freely are the ready ones. */
  lemma FreelyWaitingAreReady(steps: seq<PlanStep>, r: Reduced, order: seq<StepId>, s: PlanStep)
    requires StartedAre(r, order) && r.steps.Keys == Ids(steps) && s in steps && IsFree(s)
    requires forall id :: id in r.steps ==> r.steps[id] != StepRunning
    ensures WaitsFreely(r, s) <==> s.id !in ToSet(order) && forall d :: d in s.dependsOn ==> d in ToSet(order)
  {
    assert s.id in Ids(steps);
    hide IsFree;
  }

  lemma StartIsLeast(steps: seq<PlanStep>, r: Reduced, order: seq<StepId>, id: StepId)
    requires StartedAre(r, order) && r.steps.Keys == Ids(steps) && (forall s :: s in steps ==> IsFree(s))
    requires StartRule(steps, r, id) && id in r.steps && r.steps[id] == StepReady
    ensures ReadyIds(steps, ToSet(order)) != {} && id == MinOf(ReadyIds(steps, ToSet(order)))
  {
    hide StartedAre, WaitsFreely, IsFree, Compensates;
    assert r.plan == Running by { PlanRuns(r, order); }
    forall s | s in steps
      ensures WaitsFreely(r, s) <==> s.id !in ToSet(order) && forall d :: d in s.dependsOn ==> d in ToSet(order)
    {
      FreelyWaitingAreReady(steps, r, order, s);
    }
    var s :| s in steps && s.id == id;
    assert WaitsFreely(r, s) by { StarterWaits(steps, r, s); }
    hide StartRule;
    assert id in ReadyIds(steps, ToSet(order));
    forall x | x in ReadyIds(steps, ToSet(order)) ensures id <= x {
      var o :| o in steps && o.id == x && o.id !in ToSet(order) && forall d :: d in o.dependsOn ==> d in ToSet(order);
      assert WaitsFreely(r, o);
      NotOvertaken(steps, r, id, o);
    }
  }

  lemma NotOvertaken(steps: seq<PlanStep>, r: Reduced, id: StepId, o: PlanStep)
    requires StartRule(steps, r, id) && r.plan == Running && o in steps && WaitsFreely(r, o)
    ensures id <= o.id
  {
  }

  lemma PlanRuns(r: Reduced, order: seq<StepId>)
    requires StartedAre(r, order)
    ensures r.plan != Compensating
  {
  }

  lemma StarterWaits(steps: seq<PlanStep>, r: Reduced, s: PlanStep)
    requires StartRule(steps, r, s.id) && s in steps && IsFree(s) && s.id in r.steps && r.steps[s.id] == StepReady
    ensures WaitsFreely(r, s)
  {
    hide IsFree;
  }

  lemma StartedGrow(before: Reduced, t: Transition, after: Reduced, order: seq<StepId>)
    requires StartedAre(before, order) && ApplyTransition(before, t) == Some(after) && IsSmooth(t)
    ensures IsStart(t) ==> t.entityId.Some? && StartedAre(after, order + [t.entityId.value])
    ensures !IsStart(t) ==> StartedAre(after, order)
  {
    if t.toState.StepIs? {
      assert t.entityId.Some? && t.entityId.value in before.steps;
    }
  }

  lemma StartRuleOf(steps: seq<PlanStep>, before: Reduced, log: seq<LogRow>, t: Transition, after: Reduced)
    requires EventRule(steps, before, log, t) && ApplyTransition(before, t) == Some(after) && IsStart(t)
    ensures t.entityId.Some? && t.entityId.value in before.steps && before.steps[t.entityId.value] == StepReady
    ensures StartRule(steps, before, t.entityId.value)
  {
  }

  /** As long as nothing fails, the steps of a plan that only dependencies hold back start in the least
      topological order, all of them by the time the plan succeeds. */
  lemma {:induction false} StartsAreGreedy(steps: seq<PlanStep>, log: seq<LogRow>)
    requires UniqueIds(steps) && Acyclic(steps) && ReferencesKnown(steps) && (forall s :: s in steps ==> IsFree(s))
    requires Lawful(steps, log) && Replay(Ids(steps), log).Some?
    requires forall i :: 0 <= i < |log| ==> IsSmooth(log[i].body)
    ensures StartedAre(Replay(Ids(steps), log).value, StartOrder(log))
    ensures StartOrder(log) <= Greedy(steps, {})
  {
    hide StartedAre, IsFree, IsSmooth, EventRule, StartRule, ApplyTransition, Lawful, Greedy, Acyclic, ReferencesKnown, UniqueIds;
    if log == [] {
      NothingStarted(Ids(steps));
    } else {
      var n := |log| - 1;
      LawAt(steps, log, n);
      StepAt(Ids(steps), log, n);
      assert log[..|log|] == log;
      assert forall i :: 0 <= i < n ==> log[..n][i] == log[i];
      StartsAreGreedy(steps, log[..n]);
      var before, after, t := Replay(Ids(steps), log[..n]).value, Replay(Ids(steps), log).value, log[n].body;
      StartedGrow(before, t, after, StartOrder(log[..n]));
      StartOrderSteps(log);
      if IsStart(t) {
        StartRuleOf(steps, before, log[..n], t, after);
        ReplayKeys(Ids(steps), log[..n]);
        StartIsLeast(steps, before, StartOrder(log[..n]), t.entityId.value);
        GreedyGoesOn(steps, StartOrder(log[..n]), t.entityId.value);
      }
    }
  }

  lemma StartOrderSteps(log: seq<LogRow>)
    requires log != []
    ensures var n := |log| - 1;
            var t := log[n].body;
            StartOrder(log) == if IsStart(t) && t.entityId.Some? then StartOrder(log[..n]) + [t.entityId.value] else StartOrder(log[..n])
  {
  }

  lemma NothingStarted(ids: set<StepId>)
    ensures Replay(ids, []).Some? && StartedAre(Replay(ids, []).value, StartOrder([]))
  {
  }

  lemma AllStarted(steps: seq<PlanStep>, r: Reduced, order: seq<StepId>)
    requires Acyclic(steps) && ReferencesKnown(steps) && order <= Greedy(steps, {}) && StartedAre(r, order)
    requires r.steps.Keys == Ids(steps) && forall id :: id in r.steps ==> r.steps[id] == StepSucceeded
    ensures order == Greedy(steps, {})
  {
    GreedySplit(steps, {}, order);
    assert forall id :: id in Ids(steps) ==> id in r.steps;
    assert ToSet(order) == Ids(steps);
    assert {} + ToSet(order) == ToSet(order);
  }

  // ----- over runs -----

  /** In every run, while nothing of the plan has failed, been cancelled or been quarantined, the steps
      of a plan without preconditions or approvals have started in the order of the lexicographically
      least topological order of their dependencies; all of it once the plan has succeeded. */
  lemma RunFollowsLeastOrder(stores: seq<Store>, events: seq<Event>, n: nat, p: PlanId)
    requires IsRun(stores, events) && n < |stores| && p in stores[n].plans
    requires forall s :: s in stores[n].plans[p].spec.steps ==> IsFree(s)
    requires forall i :: 0 <= i < |stores[n].plans[p].log| ==> IsSmooth(stores[n].plans[p].log[i].body)
    ensures var rec := stores[n].plans[p];
            && Acyclic(rec.spec.steps) && ReferencesKnown(rec.spec.steps)
            && StartOrder(rec.log) <= Greedy(rec.spec.steps, {})
            && (rec.state == Succeeded ==> StartOrder(rec.log) == Greedy(rec.spec.steps, {}))
            && (forall other :: Topological(rec.spec.steps, other) ==> LexLeq(Greedy(rec.spec.steps, {}), other))
  {
    hide IsRun, IsFree, IsSmooth, StoreOk, Acyclic, ReferencesKnown, UniqueIds, Lawful, Greedy, Topological, LexLeq, StartedAre;
    var rec := stores[n].plans[p];
    PlanOfRun(stores, events, n, p);
    RunKeeps(stores, events, n);
    PlanFacts(stores[n], p);
    GraphOk(rec);
    StartsAreGreedy(rec.spec.steps, rec.log);
    if rec.state == Succeeded {
      EndedAll(rec, BoundTask(stores[n], rec));
      AllStarted(rec.spec.steps, Reduced(rec.state, rec.steps), StartOrder(rec.log));
    }
    forall other | Topological(rec.spec.steps, other) ensures LexLeq(Greedy(rec.spec.steps, {}), other) {
      GreedyIsLeastTopological(rec.spec.steps, other);
    }
  }

  lemma GraphOk(rec: PlanRec)
    requires RecOk(rec)
    ensures Acyclic(rec.spec.steps) && ReferencesKnown(rec.spec.steps)
    ensures Replay(Ids(rec.spec.steps), rec.log) == Some(Reduced(rec.state, rec.steps))
  {
  }

  lemma EndedAll(rec: PlanRec, task: Option<TaskRow>)
    requires RecOk(rec) && Joint(rec, task) && rec.state == Succeeded
    ensures rec.steps.Keys == Ids(rec.spec.steps) && forall id :: id in rec.steps ==> rec.steps[id] == StepSucceeded
  {
    StepKeys(rec);
  }
}
