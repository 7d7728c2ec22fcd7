/** What the log of a governed plan always satisfies, and what each way of appending to it keeps. */
module Journal {
  import opened Base
  import opened PlanCore
  import opened TransitionLog
  import opened PlanTransactions

  // ----- the rules every logged event obeys, relative to the log before it -----

  ghost predicate Compensates(steps: seq<PlanStep>, target: StepId, source: StepId) {
    exists s :: s in steps && s.id == source && s.compensation == Some(target)
  }

  /** Nothing but its dependencies holds the step back. */
  predicate IsFree(s: PlanStep) {
    s.preconditions == [] && s.RequiredApproval() == NoApproval
  }

  /** A step without conditions or approvals that waits with its dependencies succeeded. */
  ghost predicate WaitsFreely(before: Reduced, o: PlanStep) {
    && IsFree(o) && o.id in before.steps && before.steps[o.id] in {StepPending, StepReady}
    && forall d :: d in o.dependsOn ==> d in before.steps && before.steps[d] == StepSucceeded
  }

  /** A step may start: no other step runs, its dependencies have succeeded, the plan is running or
      compensating; in the first case it overtakes no step with a smaller identifier that waits freely,
      in the second some step under compensation declares it as its compensation. */
  ghost predicate StartRule(steps: seq<PlanStep>, before: Reduced, id: StepId) {
    && (before.plan == Running || before.plan == Compensating)
    && (forall s, d :: s in steps && s.id == id && d in s.dependsOn ==>
          d in before.steps && before.steps[d] == StepSucceeded)
    && (forall o :: o in before.steps ==> before.steps[o] != StepRunning)
    && (before.plan == Running ==> forall o :: o in steps && WaitsFreely(before, o) ==> id <= o.id)
    && (before.plan == Compensating ==>
          exists source :: Compensates(steps, id, source)
                        && source in before.steps && before.steps[source] == StepCompensating)
  }

  /** Since the source last changed state, its declared compensation ran to success. */
  ghost predicate CompensationEvidence(steps: seq<PlanStep>, log: seq<LogRow>, source: StepId) {
    exists target: StepId, j: nat :: EvidenceAt(steps, log, source, target, j)
  }

  ghost predicate EvidenceAt(steps: seq<PlanStep>, log: seq<LogRow>, source: StepId, target: StepId, j: nat) {
    && j < |log| && Compensates(steps, target, source)
    && log[j].body.MovesStep(target, StepRunning, StepSucceeded)
    && forall k :: j <= k < |log| ==> !log[k].body.Touches(source)
  }

  function Starts(log: seq<LogRow>, id: StepId): nat {
    if log == [] then 0 else
      Starts(log[..|log| - 1], id)
      + (if log[|log| - 1].body.MovesStep(id, StepReady, StepRunning) then 1 else 0)
  }

  /** How often a human resolution made an unknown step ready again. */
  function Resets(log: seq<LogRow>, id: StepId): nat {
    if log == [] then 0 else
      Resets(log[..|log| - 1], id)
      + (if log[|log| - 1].body.MovesStep(id, StepUnknown, StepReady) then 1 else 0)
  }

  ghost predicate RetryRule(steps: seq<PlanStep>, log: seq<LogRow>, id: StepId) {
    forall s :: s in steps && s.id == id ==> Starts(log, id) < s.maxAttempts
  }

  ghost predicate StepRule(steps: seq<PlanStep>, before: Reduced, log: seq<LogRow>, id: StepId, a: StepState, b: StepState) {
    && (b == StepRunning ==> StartRule(steps, before, id))
    && (b == StepCompensated ==> CompensationEvidence(steps, log, id))
    && (b == StepReady && a == StepFailed ==> RetryRule(steps, log, id))
  }

  /** The keys under which a plan is proposed, validated and approved. */
  predicate IsAdmissionKey(key: Key) {
    match key
    case AdmissionProposed => true
    case AdmissionValidated => true
    case AdmissionApproved => true
    case ApprovalProposed(_) => true
    case ApprovalValidated(_) => true
    case ApprovalApproved(_) => true
    case _ => false
  }

  ghost predicate PlanRule(before: Reduced, b: PlanState, key: Key) {
    && (b in {Proposed, Validated, AwaitingApproval, Approved} ==> IsAdmissionKey(key))
    && (b == Succeeded ==> forall id :: id in before.steps ==> before.steps[id] == StepSucceeded)
    && (b == Compensated ==> forall id :: id in before.steps ==> before.steps[id] != StepCompensating)
  }

  ghost predicate EventRule(steps: seq<PlanStep>, before: Reduced, log: seq<LogRow>, t: Transition) {
    match (t.toState, t.fromState)
    case (StepIs(b), StepIs(a)) => t.entityId.Some? ==> StepRule(steps, before, log, t.entityId.value, a, b)
    case (PlanIs(b), _) => PlanRule(before, b, t.key)
    case _ => true
  }

  /** Every event was allowed by the log before it. */
  ghost predicate Lawful(steps: seq<PlanStep>, log: seq<LogRow>) {
    log != [] ==>
      var n := |log| - 1;
      && Lawful(steps, log[..n])
      && Replay(Ids(steps), log[..n]).Some?
      && EventRule(steps, Replay(Ids(steps), log[..n]).value, log[..n], log[n].body)
  }

  /** The log is a lawful chain and the snapshot rows are its fold. */
  ghost predicate Journaled(rec: PlanRec) {
    && ChainOk(rec.log) && ColumnsOk(rec.log)
    && Replay(Ids(rec.spec.steps), rec.log) == Some(Reduced(rec.state, rec.steps))
    && Lawful(rec.spec.steps, rec.log)
  }

  ghost predicate IsExtension(log: seq<LogRow>, longer: seq<LogRow>) {
    |log| <= |longer| && longer[..|log|] == log
  }

  // ----- appending one row -----

  lemma ChainAppend(rec: PlanRec, t: Transition)
    requires ChainOk(rec.log) && ColumnsOk(rec.log)
    requires t.sequence == NextSequence(rec.log) && t.previousHash == LastHash(rec.log) && t.HashOk()
    ensures var longer := rec.log + [LogRow(t.sequence, t.key, t.eventHash, t)];
            ChainOk(longer) && ColumnsOk(longer)
  {
    var longer := rec.log + [LogRow(t.sequence, t.key, t.eventHash, t)];
    forall i | 0 <= i < |longer| ensures LinkOk(longer, i) {
      if i < |rec.log| {
        assert LinkOk(rec.log, i);
      } else if i > 0 {
        assert LinkOk(rec.log, i - 1);
      }
    }
  }

  lemma CountAppend(log: seq<LogRow>, row: LogRow, id: StepId)
    ensures Starts(log + [row], id) == Starts(log, id) + (if row.body.MovesStep(id, StepReady, StepRunning) then 1 else 0)
    ensures Resets(log + [row], id) == Resets(log, id) + (if row.body.MovesStep(id, StepUnknown, StepReady) then 1 else 0)
  {
    assert (log + [row])[..|log + [row]| - 1] == log;
  }

  /** The effect of one successful insertion on the journal. */
  lemma InsertKeeps(rec: PlanRec, t: Transition, after: Reduced)
    requires Journaled(rec)
    requires t.sequence == NextSequence(rec.log) && t.previousHash == LastHash(rec.log) && t.HashOk()
    requires ApplyTransition(Reduced(rec.state, rec.steps), t) == Some(after)
    requires EventRule(rec.spec.steps, Reduced(rec.state, rec.steps), rec.log, t)
    ensures var longer := rec.log + [LogRow(t.sequence, t.key, t.eventHash, t)];
            Journaled(rec.(log := longer, state := after.plan, steps := after.steps))
  {
    var row := LogRow(t.sequence, t.key, t.eventHash, t);
    var longer := rec.log + [row];
    ChainAppend(rec, t);
    ReplayAppend(Ids(rec.spec.steps), rec.log, row);
    assert longer[..|longer| - 1] == rec.log;
    assert Lawful(rec.spec.steps, longer);
  }

  /** What a successful append yields: one more row, and one state changed. */
  lemma AppendPlanKeeps(rec: PlanRec, a: PlanState, b: PlanState, key: Key, now: int)
    requires Journaled(rec) && AppendPlan(rec, a, b, key, now).Ok?
    requires PlanRule(Reduced(rec.state, rec.steps), b, key)
    ensures var r := AppendPlan(rec, a, b, key, now).value;
            && Journaled(r) && r == rec.(state := b, log := r.log)
            && rec.state == a && a.CanMoveTo(b)
            && |r.log| == |rec.log| + 1 && IsExtension(rec.log, r.log)
            && r.log[|rec.log|].body.MovesPlan(a, b) && r.log[|rec.log|].key == key
            && (forall id :: Starts(r.log, id) == Starts(rec.log, id))
  {
    var t := NextTransition(rec, PlanEntity, None, PlanIs(a), PlanIs(b), key, now);
    InsertKeeps(rec, t, Reduced(b, rec.steps));
    forall id ensures Starts(rec.log + [LogRow(t.sequence, t.key, t.eventHash, t)], id) == Starts(rec.log, id) {
      CountAppend(rec.log, LogRow(t.sequence, t.key, t.eventHash, t), id);
    }
  }

  lemma AppendStepKeeps(rec: PlanRec, id: StepId, a: StepState, b: StepState, key: Key, now: int)
    requires Journaled(rec) && AppendStep(rec, id, a, b, key, now).Ok?
    requires StepRule(rec.spec.steps, Reduced(rec.state, rec.steps), rec.log, id, a, b)
    ensures var r := AppendStep(rec, id, a, b, key, now).value;
            && Journaled(r) && r == rec.(steps := rec.steps[id := b], log := r.log)
            && id in rec.steps && rec.steps[id] == a && a.CanMoveTo(b)
            && |r.log| == |rec.log| + 1 && IsExtension(rec.log, r.log)
            && r.log[|rec.log|].body.MovesStep(id, a, b) && r.log[|rec.log|].key == key
            && (forall j :: Starts(r.log, j) == Starts(rec.log, j) + (if j == id && a == StepReady && b == StepRunning then 1 else 0))
  {
    var t := NextTransition(rec, StepEntity, Some(id), StepIs(a), StepIs(b), key, now);
    InsertKeeps(rec, t, Reduced(rec.state, rec.steps[id := b]));
    var row := LogRow(t.sequence, t.key, t.eventHash, t);
    forall j ensures Starts(rec.log + [row], j)
                  == Starts(rec.log, j) + (if j == id && a == StepReady && b == StepRunning then 1 else 0)
    {
      CountAppend(rec.log, row, j);
    }
  }

  // ----- appending a batch -----

  /** The new rows move steps among `ids` only. */
  ghost predicate OnlyTouches(log: seq<LogRow>, longer: seq<LogRow>, ids: seq<StepId>) {
    && IsExtension(log, longer)
    && forall k :: |log| <= k < |longer| ==> RowTouches(longer[k], ids)
  }

  ghost predicate RowTouches(row: LogRow, ids: seq<StepId>) {
    row.body.entity == StepEntity && row.body.entityId.Some? && row.body.entityId.value in ids
  }

  lemma OnlyTouchesOneMore(log: seq<LogRow>, mid: seq<LogRow>, longer: seq<LogRow>, ids: seq<StepId>, last: StepId)
    requires OnlyTouches(log, mid, ids)
    requires |longer| == |mid| + 1 && IsExtension(mid, longer)
    requires longer[|mid|].body.Touches(last)
    ensures OnlyTouches(log, longer, ids + [last])
  {
    assert longer[..|log|] == mid[..|log|];
    forall k | |log| <= k < |longer| ensures RowTouches(longer[k], ids + [last]) {
      if k < |mid| {
        assert longer[k] == mid[k];
        assert RowTouches(mid[k], ids);
      }
    }
  }

  lemma NothingTouched(log: seq<LogRow>, ids: seq<StepId>)
    ensures OnlyTouches(log, log, ids)
  {
  }

  lemma EvidenceSurvives(steps: seq<PlanStep>, log: seq<LogRow>, longer: seq<LogRow>, ids: seq<StepId>, source: StepId)
    requires CompensationEvidence(steps, log, source) && OnlyTouches(log, longer, ids) && source !in ids
    ensures CompensationEvidence(steps, longer, source)
  {
    var target: StepId, j: nat :| EvidenceAt(steps, log, source, target, j);
    assert longer[j] == log[j];
    forall k | j <= k < |longer| ensures !longer[k].body.Touches(source) {
      if k < |log| {
        assert longer[k] == log[k];
      } else {
        assert RowTouches(longer[k], ids);
      }
    }
    assert EvidenceAt(steps, longer, source, target, j);
  }

  ghost predicate BatchRule(rec: PlanRec, ids: seq<StepId>, from: map<StepId, StepState>, to: StepState) {
    && (forall id :: id in ids ==> id in from)
    && to != StepRunning
    && (to == StepReady ==> forall id :: id in ids ==> from[id] == StepUnknown)
    && (to == StepCompensated ==>
          Distinct(ids) && forall id :: id in ids ==> CompensationEvidence(rec.spec.steps, rec.log, id))
  }

  lemma BatchPrefix(rec: PlanRec, ids: seq<StepId>, from: map<StepId, StepState>, to: StepState)
    requires BatchRule(rec, ids, from, to) && ids != []
    ensures BatchRule(rec, ids[..|ids| - 1], from, to)
    ensures ids[|ids| - 1] in from
    ensures to == StepCompensated ==> ids[|ids| - 1] !in ids[..|ids| - 1]
  {
  }

  lemma BatchStepRule(rec: PlanRec, ids: seq<StepId>, from: map<StepId, StepState>, to: StepState, r: PlanRec)
    requires BatchRule(rec, ids, from, to) && ids != []
    requires r.spec == rec.spec && OnlyTouches(rec.log, r.log, ids[..|ids| - 1])
    ensures StepRule(r.spec.steps, Reduced(r.state, r.steps), r.log, ids[|ids| - 1], from[ids[|ids| - 1]], to)
  {
    var last := ids[|ids| - 1];
    assert last in ids;
    if to == StepCompensated {
      EvidenceSurvives(rec.spec.steps, rec.log, r.log, ids[..|ids| - 1], last);
    }
  }

  /** What a successful batch yields: exactly the listed steps moved. */
  ghost predicate BatchMoved(rec: PlanRec, r: PlanRec, ids: seq<StepId>, to: StepState) {
    && r == rec.(steps := r.steps, log := r.log)
    && r.steps.Keys == rec.steps.Keys
    && (forall id :: id in rec.steps ==> r.steps[id] == if id in ids then to else rec.steps[id])
    && (forall id :: Starts(r.log, id) == Starts(rec.log, id))
  }

  lemma BatchMovedOneMore(rec: PlanRec, mid: PlanRec, r: PlanRec, ids: seq<StepId>, last: StepId, to: StepState)
    requires BatchMoved(rec, mid, ids, to)
    requires last in mid.steps && r == mid.(steps := mid.steps[last := to], log := r.log)
    requires forall id :: Starts(r.log, id) == Starts(mid.log, id)
    ensures BatchMoved(rec, r, ids + [last], to)
  {
    hide Starts;
  }

  lemma {:induction false} MoveAllKeeps(rec: PlanRec, ids: seq<StepId>, from: map<StepId, StepState>, to: StepState,
                                        kind: MoveKind, now: int)
    requires Journaled(rec) && BatchRule(rec, ids, from, to)
    requires MoveAll(rec, ids, from, to, kind, now).Ok?
    ensures var r := MoveAll(rec, ids, from, to, kind, now).value;
            Journaled(r) && BatchMoved(rec, r, ids, to) && OnlyTouches(rec.log, r.log, ids)
  {
    hide Journaled, CompensationEvidence, AppendStep, OnlyTouches, Starts, StepRule, BatchRule, BatchMoved, KeyFor;
    RuleNamesStates(rec, ids, from, to);
    if ids == [] {
      NothingTouched(rec.log, ids);
      NothingMoved(rec, to);
    } else {
      var n := |ids| - 1;
      var last := ids[n];
      assert ids == ids[..n] + [last];
      BatchPrefix(rec, ids, from, to);
      MoveAllKeeps(rec, ids[..n], from, to, kind, now);
      var r := MoveAll(rec, ids[..n], from, to, kind, now).value;
      assert r.spec == rec.spec by { SameSpec(rec, r, ids[..n], to); }
      BatchStepRule(rec, ids, from, to, r);
      AppendStepKeeps(r, last, from[last], to, KeyFor(kind, last), now);
      var f := AppendStep(r, last, from[last], to, KeyFor(kind, last), now).value;
      OnlyTouchesOneMore(rec.log, r.log, f.log, ids[..n], last);
      BatchMovedOneMore(rec, r, f, ids[..n], last, to);
    }
  }

  lemma RuleNamesStates(rec: PlanRec, ids: seq<StepId>, from: map<StepId, StepState>, to: StepState)
    requires BatchRule(rec, ids, from, to)
    ensures to != StepRunning && forall id :: id in ids ==> id in from
  {
  }

  lemma NothingMoved(rec: PlanRec, to: StepState)
    ensures BatchMoved(rec, rec, [], to)
  {
  }

  lemma SameSpec(rec: PlanRec, r: PlanRec, ids: seq<StepId>, to: StepState)
    requires BatchMoved(rec, r, ids, to)
    ensures r.spec == rec.spec
  {
  }
}
