/** Cancelling writes under fixed keys, so what the log already holds decides whether it can. */
module CancelKeys {
  import opened Base
  import opened PlanCore
  import opened TransitionLog
  import opened PlanTransactions

  /** The steps a cancellation cancels. */
  function WaitingSteps(rec: PlanRec): set<StepId> {
    StepsWhere(rec.steps, {StepPending, StepReady, StepAwaitingApproval})
  }

  /** No row of the log took a key that cancelling the queued task needs. */
  predicate CancelKeysFree(rec: PlanRec) {
    && (rec.state in {Approved, Running} ==> !KeyUsed(rec.log, CancelPlanRequested))
    && (rec.state in {Approved, Running, CancelRequested} ==> !KeyUsed(rec.log, CancelPlanCompleted))
    && forall id :: id in WaitingSteps(rec) ==> !KeyUsed(rec.log, CancelStep(id))
  }

  // ----- appends and their keys -----

  lemma PlanAppendIff(rec: PlanRec, a: PlanState, b: PlanState, key: Key, now: int)
    requires rec.state == a && a.CanMoveTo(b)
    ensures AppendPlan(rec, a, b, key, now).Ok? <==> !KeyUsed(rec.log, key)
    ensures AppendPlan(rec, a, b, key, now).Err? ==> AppendPlan(rec, a, b, key, now) == Err(UniqueViolation)
    ensures AppendPlan(rec, a, b, key, now).Ok? ==>
      var r := AppendPlan(rec, a, b, key, now).value;
      r == rec.(state := b, log := r.log) && forall k :: KeyUsed(r.log, k) <==> KeyUsed(rec.log, k) || k == key
  {
    if AppendPlan(rec, a, b, key, now).Ok? {
      LastKey(rec.log, AppendPlan(rec, a, b, key, now).value.log, key);
    }
    hide KeyUsed;
  }

  lemma StepAppendIff(rec: PlanRec, id: StepId, a: StepState, b: StepState, key: Key, now: int)
    requires id in rec.steps && rec.steps[id] == a && a.CanMoveTo(b)
    ensures AppendStep(rec, id, a, b, key, now).Ok? <==> !KeyUsed(rec.log, key)
    ensures AppendStep(rec, id, a, b, key, now).Err? ==> AppendStep(rec, id, a, b, key, now) == Err(UniqueViolation)
    ensures AppendStep(rec, id, a, b, key, now).Ok? ==>
      var r := AppendStep(rec, id, a, b, key, now).value;
      && r == rec.(steps := rec.steps[id := b], log := r.log)
      && forall k :: KeyUsed(r.log, k) <==> KeyUsed(rec.log, k) || k == key
  {
    if AppendStep(rec, id, a, b, key, now).Ok? {
      LastKey(rec.log, AppendStep(rec, id, a, b, key, now).value.log, key);
    }
    hide KeyUsed;
  }

  lemma LastKey(log: seq<LogRow>, longer: seq<LogRow>, key: Key)
    requires |longer| == |log| + 1 && longer[..|log|] == log && longer[|log|].key == key
    ensures forall k :: KeyUsed(longer, k) <==> KeyUsed(log, k) || k == key
  {
    forall k ensures KeyUsed(longer, k) <==> KeyUsed(log, k) || k == key {
      if KeyUsed(log, k) {
        var i :| 0 <= i < |log| && log[i].key == k;
        assert longer[i] == log[i];
      }
      if KeyUsed(longer, k) {
        var i :| 0 <= i < |longer| && longer[i].key == k;
        assert i < |log| ==> longer[i] == log[i];
      }
    }
  }

  /** The listed steps can move, and under keys of their own. */
  ghost predicate Movable(rec: PlanRec, ids: seq<StepId>, from: map<StepId, StepState>, to: StepState, kind: MoveKind) {
    && Distinct(ids)
    && (forall id :: id in ids ==> id in from && id in rec.steps && rec.steps[id] == from[id] && from[id].CanMoveTo(to))
    && (forall i, j :: 0 <= i < j < |ids| ==> KeyFor(kind, ids[i]) != KeyFor(kind, ids[j]))
  }

  lemma MovablePrefix(rec: PlanRec, ids: seq<StepId>, from: map<StepId, StepState>, to: StepState, kind: MoveKind)
    requires Movable(rec, ids, from, to, kind) && ids != []
    ensures var n := |ids| - 1;
            && Movable(rec, ids[..n], from, to, kind) && ids[n] !in ids[..n]
            && ids[n] in from && ids[n] in rec.steps && rec.steps[ids[n]] == from[ids[n]] && from[ids[n]].CanMoveTo(to)
            && (forall id :: id in ids ==> id in from)
            && forall id :: id in ids[..n] ==> KeyFor(kind, id) != KeyFor(kind, ids[n])
  {
    hide KeyFor;
  }

  /** A batch goes through exactly when the key of each of its steps is free. */
  lemma {:induction false} MoveAllIff(rec: PlanRec, ids: seq<StepId>, from: map<StepId, StepState>, to: StepState,
                                      kind: MoveKind, now: int)
    requires Movable(rec, ids, from, to, kind)
    ensures MoveAll(rec, ids, from, to, kind, now).Ok? <==> forall id :: id in ids ==> !KeyUsed(rec.log, KeyFor(kind, id))
    ensures MoveAll(rec, ids, from, to, kind, now).Err? ==> MoveAll(rec, ids, from, to, kind, now) == Err(UniqueViolation)
    ensures MoveAll(rec, ids, from, to, kind, now).Ok? ==>
      var r := MoveAll(rec, ids, from, to, kind, now).value;
      && r == rec.(steps := r.steps, log := r.log) && r.steps.Keys == rec.steps.Keys
      && (forall id :: id in rec.steps ==> r.steps[id] == if id in ids then to else rec.steps[id])
      && forall k :: KeyUsed(r.log, k) <==> KeyUsed(rec.log, k) || exists id :: id in ids && k == KeyFor(kind, id)
  {
    hide AppendStep, KeyUsed, KeyFor, Movable;
    if ids != [] {
      var n := |ids| - 1;
      var last := ids[n];
      assert ids == ids[..n] + [last];
      MovablePrefix(rec, ids, from, to, kind);
      MoveAllIff(rec, ids[..n], from, to, kind, now);
      if MoveAll(rec, ids[..n], from, to, kind, now).Ok? {
        var r := MoveAll(rec, ids[..n], from, to, kind, now).value;
        StepAppendIff(r, last, from[last], to, KeyFor(kind, last), now);
      }
    }
  }

  lemma WaitingAreMovable(rec: PlanRec, ids: seq<StepId>)
    requires ids == Ascending(WaitingSteps(rec))
    ensures Movable(rec, ids, rec.steps, StepCancelled, ByCancel)
    ensures forall id :: id in ids ==> id in rec.steps
    ensures forall id :: id in ids <==> id in WaitingSteps(rec)
  {
    hide Ascending;
    assert forall i, j :: 0 <= i < j < |ids| ==> ids[i] < ids[j];
    assert forall id :: id in ids <==> id in WaitingSteps(rec);
  }

  // ----- cancelling a queued task -----

  lemma CancelWaitingIff(rec: PlanRec, now: int)
    ensures CancelWaiting(rec, now).Ok? <==> forall id :: id in WaitingSteps(rec) ==> !KeyUsed(rec.log, CancelStep(id))
    ensures CancelWaiting(rec, now).Err? ==> CancelWaiting(rec, now) == Err(UniqueViolation)
    ensures CancelWaiting(rec, now).Ok? ==>
      var r := CancelWaiting(rec, now).value;
      && r == rec.(steps := r.steps, log := r.log) && r.steps.Keys == rec.steps.Keys
      && (forall id :: id in rec.steps ==> r.steps[id] == if id in WaitingSteps(rec) then StepCancelled else rec.steps[id])
      && forall k :: KeyUsed(r.log, k) <==> KeyUsed(rec.log, k) || exists id :: id in WaitingSteps(rec) && k == CancelStep(id)
  {
    hide MoveAll, KeyUsed, StepsWhere, Ascending, Movable;
    var ids := Ascending(WaitingSteps(rec));
    WaitingAreMovable(rec, ids);
    MoveAllIff(rec, ids, rec.steps, StepCancelled, ByCancel, now);
    assert forall id :: KeyFor(ByCancel, id) == CancelStep(id);
    assert CancelWaiting(rec, now) == MoveAll(rec, ids, rec.steps, StepCancelled, ByCancel, now);
  }

  /** The rows after a cancellation of the queued task. */
  ghost predicate IsCancelled(rec: PlanRec, r: PlanRec) {
    && r == rec.(state := r.state, steps := r.steps, log := r.log) && r.steps.Keys == rec.steps.Keys
    && r.state == (if rec.state in {Approved, Running, CancelRequested} then Cancelled else rec.state)
    && forall id :: id in rec.steps ==> r.steps[id] == if id in WaitingSteps(rec) then StepCancelled else rec.steps[id]
  }

  lemma CancelQueuedIff(rec: PlanRec, now: int)
    ensures CancelQueued(rec, now).Ok? <==> CancelKeysFree(rec)
    ensures CancelQueued(rec, now).Err? ==> CancelQueued(rec, now) == Err(UniqueViolation)
    ensures CancelQueued(rec, now).Ok? ==> IsCancelled(rec, CancelQueued(rec, now).value)
  {
    hide AppendPlan, CancelWaiting, KeyUsed, StepsWhere;
    var r1 := rec;
    if rec.state in {Approved, Running} {
      PlanAppendIff(rec, rec.state, CancelRequested, CancelPlanRequested, now);
      if AppendPlan(rec, rec.state, CancelRequested, CancelPlanRequested, now).Ok? {
        r1 := AppendPlan(rec, rec.state, CancelRequested, CancelPlanRequested, now).value;
        CancelFrom(r1, now);
      }
    } else {
      CancelFrom(r1, now);
    }
  }

  /** The part after the request. */
  lemma CancelFrom(r1: PlanRec, now: int)
    ensures CancelWaiting(r1, now).Ok? <==> forall id :: id in WaitingSteps(r1) ==> !KeyUsed(r1.log, CancelStep(id))
    ensures CancelWaiting(r1, now).Err? ==> CancelWaiting(r1, now) == Err(UniqueViolation)
    ensures CancelWaiting(r1, now).Ok? ==>
      var r2 := CancelWaiting(r1, now).value;
      && r2 == r1.(steps := r2.steps, log := r2.log) && r2.steps.Keys == r1.steps.Keys
      && (forall id :: id in r1.steps ==> r2.steps[id] == if id in WaitingSteps(r1) then StepCancelled else r1.steps[id])
      && (r1.state == CancelRequested ==>
            var last := AppendPlan(r2, CancelRequested, Cancelled, CancelPlanCompleted, now);
            && (last.Ok? <==> !KeyUsed(r1.log, CancelPlanCompleted))
            && (last.Err? ==> last == Err(UniqueViolation))
            && (last.Ok? ==> last.value == r2.(state := Cancelled, log := last.value.log)))
  {
    hide AppendPlan, CancelWaiting, KeyUsed, StepsWhere;
    CancelWaitingIff(r1, now);
    if CancelWaiting(r1, now).Ok? && r1.state == CancelRequested {
      PlanAppendIff(CancelWaiting(r1, now).value, CancelRequested, Cancelled, CancelPlanCompleted, now);
    }
  }

  /** Exactly when a cancellation of a planned task goes through. */
  lemma CancelSucceedsIff(rec: PlanRec, task: TaskRow, now: int)
    ensures CancelPlanned(rec, task, now).Ok? <==>
            && task.plan.Some? && LoadPlan(rec, task.tenant, task.plan.value).Ok?
            && rec.state !in {Unknown, Compensating}
            && (task.status == TQueued ==> CancelKeysFree(rec))
            && (task.status == TRunning && rec.state == Running ==> !KeyUsed(rec.log, CancelPlanRequested))
    ensures CancelPlanned(rec, task, now).Ok? && task.status == TQueued ==> IsCancelled(rec, CancelPlanned(rec, task, now).value)
    ensures (task.plan.Some? && LoadPlan(rec, task.tenant, task.plan.value).Ok? && rec.state !in {Unknown, Compensating}
             && CancelPlanned(rec, task, now).Err?) ==> CancelPlanned(rec, task, now) == Err(UniqueViolation)
  {
    hide LoadPlan, AppendPlan, CancelQueued, KeyUsed, CancelKeysFree, IsCancelled;
    CancelQueuedIff(rec, now);
    if rec.state == Running {
      PlanAppendIff(rec, Running, CancelRequested, CancelPlanRequested, now);
    }
  }

  // ----- a resolution that takes the key of a cancellation -----

  lemma UnknownAreMovable(rec: PlanRec, key: Key, ids: seq<StepId>)
    requires ids == Ascending(StepsWhere(rec.steps, {StepUnknown}))
    ensures Movable(rec, ids, rec.steps, StepReady, ByResolution(key))
    ensures forall id :: id in ids <==> id in StepsWhere(rec.steps, {StepUnknown})
  {
    hide Ascending;
    assert forall i, j :: 0 <= i < j < |ids| ==> ids[i] < ids[j];
    assert forall id :: id in ids <==> id in StepsWhere(rec.steps, {StepUnknown});
  }

  /** Resuming under the key "cancel" writes the cancellation key of every step it readies, so the plan's
      queued task cannot be cancelled as long as such a step waits. */
  lemma ResumeTakesCancelKey(rec: PlanRec, id: StepId, now: int, task: TaskRow, later: int)
    requires ResolveResume(rec, Free("cancel"), now).Ok? && id in rec.steps && rec.steps[id] == StepUnknown
    requires task.status == TQueued && task.plan.Some?
    ensures var r := ResolveResume(rec, Free("cancel"), now).value;
            && KeyUsed(r.log, CancelStep(id)) && r.state == Running && id in r.steps && r.steps[id] == StepReady
            && (LoadPlan(r, task.tenant, task.plan.value).Ok? ==> CancelPlanned(r, task, later) == Err(UniqueViolation))
  {
    hide LoadPlan, MoveAll, KeyUsed, AppendPlan, Ascending, Movable, CancelPlanned;
    var ids := Ascending(StepsWhere(rec.steps, {StepUnknown}));
    UnknownAreMovable(rec, Free("cancel"), ids);
    MoveAllIff(rec, ids, rec.steps, StepReady, ByResolution(Free("cancel")), now);
    var m := MoveAll(rec, ids, rec.steps, StepReady, ByResolution(Free("cancel")), now).value;
    assert id in ids && KeyFor(ByResolution(Free("cancel")), id) == CancelStep(id);
    ResumeEnds(m, now);
    var r := ResolveResume(rec, Free("cancel"), now).value;
    assert id in WaitingSteps(r);
    CancelSucceedsIff(r, task, later);
  }

  lemma ResumeEnds(m: PlanRec, now: int)
    requires AppendPlan(m, Unknown, Running, Free("cancel"), now).Ok?
    ensures var r := AppendPlan(m, Unknown, Running, Free("cancel"), now).value;
            r == m.(state := Running, log := r.log) && forall k :: KeyUsed(m.log, k) ==> KeyUsed(r.log, k)
  {
    assert m.state == Unknown;
    PlanAppendIff(m, Unknown, Running, Free("cancel"), now);
    hide KeyUsed, AppendPlan;
  }
}
