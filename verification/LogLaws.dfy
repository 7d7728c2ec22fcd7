/** What a lawful log says about whole runs: each statement is about event positions alone. */
module LogLaws {
  import opened Base
  import opened PlanCore
  import opened TransitionLog
  import opened Journal

  /** The law at position `n` of a lawful log. */
  lemma {:induction false} LawAt(steps: seq<PlanStep>, log: seq<LogRow>, n: nat)
    requires Lawful(steps, log) && n < |log|
    ensures Lawful(steps, log[..n]) && Replay(Ids(steps), log[..n]).Some?
    ensures EventRule(steps, Replay(Ids(steps), log[..n]).value, log[..n], log[n].body)
  {
    var last := |log| - 1;
    if n < last {
      LawAt(steps, log[..last], n);
      assert log[..last][..n] == log[..n];
    }
  }

  /** Each prefix of a replayable log steps to the next one through one transition. */
  lemma StepAt(ids: set<StepId>, log: seq<LogRow>, n: nat)
    requires Replay(ids, log).Some? && n < |log|
    ensures Replay(ids, log[..n]).Some? && Replay(ids, log[..n + 1]).Some?
    ensures Replay(ids, log[..n + 1]) == ApplyTransition(Replay(ids, log[..n]).value, log[n].body)
  {
    ReplayPrefix(ids, log, n);
    ReplayPrefix(ids, log, n + 1);
    assert log[..n + 1][..n] == log[..n];
  }

  /** A step that is neither pending nor ready was brought to its state by its last event. */
  lemma {:induction false} LastMove(ids: set<StepId>, log: seq<LogRow>, id: StepId) returns (m: nat, from: StepState)
    requires Replay(ids, log).Some? && id in Replay(ids, log).value.steps
    requires Replay(ids, log).value.steps[id] != StepPending
    ensures m < |log| && from.CanMoveTo(Replay(ids, log).value.steps[id])
    ensures log[m].body.MovesStep(id, from, Replay(ids, log).value.steps[id])
    ensures forall k :: m < k < |log| ==> !log[k].body.Touches(id)
  {
    if log == [] {
      assert false;
    } else {
      var n := |log| - 1;
      if log[n].body.Touches(id) {
        m, from := n, log[n].body.fromState.step;
      } else {
        m, from := LastMove(ids, log[..n], id);
      }
    }
  }

  /** Dependency safety: whatever retries, recoveries, resumptions and compensations happened, a step
      starts only after each of its dependencies ran to success. */
  lemma DependencySafety(steps: seq<PlanStep>, log: seq<LogRow>, i: nat, s: PlanStep, d: StepId)
    requires Lawful(steps, log) && i < |log|
    requires s in steps && log[i].body.MovesStep(s.id, StepReady, StepRunning) && d in s.dependsOn
    ensures exists j :: 0 <= j < i && log[j].body.MovesStep(d, StepRunning, StepSucceeded)
  {
    LawAt(steps, log, i);
    var m, from := LastMove(Ids(steps), log[..i], d);
    assert from == StepRunning;
    assert log[..i][m] == log[m];
  }

  // ----- no blind retry -----

  predicate IsResolution(t: Transition) {
    t.MovesPlan(Unknown, Running) || t.MovesPlan(Unknown, Compensating)
  }

  lemma {:induction false} QuarantineHolds(ids: set<StepId>, log: seq<LogRow>, i: nat, k: nat)
    requires Replay(ids, log).Some? && i < k <= |log|
    requires log[i].body.toState == PlanIs(Unknown) && log[i].body.entity == PlanEntity
    requires forall j :: i < j < k ==> !IsResolution(log[j].body)
    ensures StateAt(ids, log, k).plan in {Unknown, Failed, Cancelled}
    decreases k
  {
    hide Replay, ApplyTransition, IsResolution;
    StepAt(ids, log, k - 1);
    var before, t, after := StateAt(ids, log, k - 1), log[k - 1].body, StateAt(ids, log, k);
    if k - 1 > i {
      QuarantineHolds(ids, log, i, k - 1);
      QuarantineMoves(before, t, after);
    } else {
      PlanEventMoves(before, t, after);
    }
  }

  lemma QuarantineMoves(before: Reduced, t: Transition, after: Reduced)
    requires ApplyTransition(before, t) == Some(after) && before.plan in {Unknown, Failed, Cancelled} && !IsResolution(t)
    ensures after.plan in {Unknown, Failed, Cancelled}
  {
  }

  lemma PlanEventMoves(before: Reduced, t: Transition, after: Reduced)
    requires ApplyTransition(before, t) == Some(after) && t.entity == PlanEntity
    ensures t.toState == PlanIs(after.plan)
  {
  }

  /** Once a plan is unknown no step of it starts before a resolution to running or compensating. */
  lemma NoBlindRetry(steps: seq<PlanStep>, log: seq<LogRow>, i: nat, k: nat, id: StepId)
    requires Lawful(steps, log) && Replay(Ids(steps), log).Some? && i < k < |log|
    requires log[i].body.entity == PlanEntity && log[i].body.toState == PlanIs(Unknown)
    requires log[k].body.MovesStep(id, StepReady, StepRunning)
    ensures exists j :: i < j < k && IsResolution(log[j].body)
  {
    LawAt(steps, log, k);
    if forall j :: i < j < k ==> !IsResolution(log[j].body) {
      QuarantineHolds(Ids(steps), log, i, k);
    }
  }

  /** A plan becomes unknown at most once per resolution: however many recoveries, expiries and
      resumers there are, two recovery batches have a resolution to running or compensating between
      them. */
  lemma OneRecoveryPerResolution(ids: set<StepId>, log: seq<LogRow>, i: nat, k: nat)
    requires Replay(ids, log).Some? && i < k < |log|
    requires log[i].body.entity == PlanEntity && log[i].body.toState == PlanIs(Unknown)
    requires log[k].body.entity == PlanEntity && log[k].body.toState == PlanIs(Unknown)
    ensures exists j :: i < j < k && IsResolution(log[j].body)
  {
    StepAt(ids, log, k);
    if forall j :: i < j < k ==> !IsResolution(log[j].body) {
      QuarantineHolds(ids, log, i, k);
    }
  }

  // ----- compensation -----

  /** A step is compensated only after its declared compensation ran to success, later than the
      step's last move to compensating. */
  lemma CompensationOrder(steps: seq<PlanStep>, log: seq<LogRow>, i: nat, source: StepId)
    returns (m: nat, j: nat, target: StepId)
    requires Lawful(steps, log) && Replay(Ids(steps), log).Some? && i < |log|
    requires log[i].body.MovesStep(source, StepCompensating, StepCompensated)
    ensures m < j < i && Compensates(steps, target, source)
    ensures exists from :: from != StepCompensating && log[m].body.MovesStep(source, from, StepCompensating)
    ensures log[j].body.MovesStep(target, StepRunning, StepSucceeded)
    ensures forall k :: m < k < i ==> !log[k].body.Touches(source)
  {
    LawAt(steps, log, i);
    var before := log[..i];
    target, j :| EvidenceAt(steps, before, source, target, j);
    StepAt(Ids(steps), log, i);
    var from;
    m, from := LastMove(Ids(steps), before, source);
    assert before[m] == log[m] && before[j] == log[j];
    assert before[m].body.Touches(source);
    forall k | m < k < i ensures !log[k].body.Touches(source) {
      assert before[k] == log[k];
    }
  }

  /** While the plan compensates, only declared compensations of steps under compensation start. */
  lemma OnlyCompensationsStart(steps: seq<PlanStep>, log: seq<LogRow>, i: nat, id: StepId)
    requires Lawful(steps, log) && Replay(Ids(steps), log).Some? && i < |log|
    requires log[i].body.MovesStep(id, StepReady, StepRunning)
    requires StateAt(Ids(steps), log, i).plan == Compensating
    ensures exists source :: (
      && Compensates(steps, id, source) && source in StateAt(Ids(steps), log, i).steps
      && StateAt(Ids(steps), log, i).steps[source] == StepCompensating)
  {
    LawAt(steps, log, i);
  }

  /** The plan ends compensated with no step left under compensation, and succeeds only with all steps
      succeeded. */
  lemma PlanEndings(steps: seq<PlanStep>, log: seq<LogRow>, i: nat, id: StepId)
    requires Lawful(steps, log) && Replay(Ids(steps), log).Some? && i < |log| && log[i].body.entity == PlanEntity
    requires id in Ids(steps)
    ensures id in StateAt(Ids(steps), log, i).steps
    ensures log[i].body.toState == PlanIs(Compensated) ==> StateAt(Ids(steps), log, i).steps[id] != StepCompensating
    ensures log[i].body.toState == PlanIs(Succeeded) ==> StateAt(Ids(steps), log, i).steps[id] == StepSucceeded
  {
    LawAt(steps, log, i);
    ReplayKeys(Ids(steps), log[..i]);
  }

  lemma {:induction false} EndedStays(ids: set<StepId>, log: seq<LogRow>, i: nat, k: nat)
    requires Replay(ids, log).Some? && i < k <= |log|
    requires log[i].body.entity == PlanEntity && log[i].body.toState.PlanIs? && log[i].body.toState.plan.IsTerminal()
    ensures PlanIs(StateAt(ids, log, k).plan) == log[i].body.toState
    decreases k
  {
    hide Replay, ApplyTransition;
    StepAt(ids, log, k - 1);
    var before, t, after := StateAt(ids, log, k - 1), log[k - 1].body, StateAt(ids, log, k);
    if k - 1 > i {
      EndedStays(ids, log, i, k - 1);
      EndedMoves(before, t, after);
    } else {
      PlanEventMoves(before, t, after);
    }
  }

  lemma EndedMoves(before: Reduced, t: Transition, after: Reduced)
    requires ApplyTransition(before, t) == Some(after) && before.plan.IsTerminal()
    ensures after.plan == before.plan
  {
  }

  /** A plan that has ended stays as it ended: no later event moves it, and no step of it starts. */
  lemma NothingStartsAfterTheEnd(steps: seq<PlanStep>, log: seq<LogRow>, i: nat, k: nat)
    requires Lawful(steps, log) && Replay(Ids(steps), log).Some? && i < k < |log|
    requires log[i].body.entity == PlanEntity && log[i].body.toState.PlanIs? && log[i].body.toState.plan.IsTerminal()
    ensures log[k].body.entity == StepEntity && !IsStart(log[k].body)
  {
    EndedStays(Ids(steps), log, i, k);
    StepAt(Ids(steps), log, k);
    LawAt(steps, log, k);
  }

  // ----- attempts -----

  predicate MayStart(s: StepState) {
    s == StepPending || s == StepReady || s == StepAwaitingApproval
  }

  /** A step starts at most `maxAttempts` times plus once per resolution that made it ready again;
      while it may still start, one start of that allowance is unspent. */
  lemma {:induction false} AttemptBound(steps: seq<PlanStep>, log: seq<LogRow>, s: PlanStep)
    requires Lawful(steps, log) && Replay(Ids(steps), log).Some?
    requires s in steps && 1 <= s.maxAttempts
    ensures s.id in Replay(Ids(steps), log).value.steps
    ensures Starts(log, s.id) + (if MayStart(Replay(Ids(steps), log).value.steps[s.id]) then 1 else 0)
         <= s.maxAttempts + Resets(log, s.id)
  {
    ReplayKeys(Ids(steps), log);
    if log != [] {
      var n := |log| - 1;
      AttemptBound(steps, log[..n], s);
      LawAt(steps, log, n);
      var t := log[n].body;
      if t.Touches(s.id) {
        assert t.fromState.StepIs? && t.toState.StepIs?;
      }
    }
  }

  /** Without a resolution a step starts at most `maxAttempts` times. */
  lemma AttemptsWithoutResolution(steps: seq<PlanStep>, log: seq<LogRow>, s: PlanStep)
    requires Lawful(steps, log) && Replay(Ids(steps), log).Some? && s in steps && 1 <= s.maxAttempts
    requires forall i :: 0 <= i < |log| ==> !log[i].body.MovesStep(s.id, StepUnknown, StepReady)
    ensures Starts(log, s.id) <= s.maxAttempts
  {
    AttemptBound(steps, log, s);
    NoResets(log, s.id);
  }

  lemma {:induction false} NoResets(log: seq<LogRow>, id: StepId)
    requires forall i :: 0 <= i < |log| ==> !log[i].body.MovesStep(id, StepUnknown, StepReady)
    ensures Resets(log, id) == 0
  {
    if log != [] {
      NoResets(log[..|log| - 1], id);
    }
  }

  // ----- attempts of the whole plan -----

  predicate IsStart(t: Transition) {
    t.entity == StepEntity && t.fromState == StepIs(StepReady) && t.toState == StepIs(StepRunning)
  }

  function AllStarts(log: seq<LogRow>): nat {
    if log == [] then 0 else AllStarts(log[..|log| - 1]) + (if IsStart(log[|log| - 1].body) then 1 else 0)
  }

  function SumStarts(log: seq<LogRow>, steps: seq<PlanStep>): nat {
    if steps == [] then 0 else SumStarts(log, steps[..|steps| - 1]) + Starts(log, steps[|steps| - 1].id)
  }

  /** What the attempt limits and the resolutions so far allow. */
  function Allowance(log: seq<LogRow>, steps: seq<PlanStep>): nat {
    if steps == [] then 0 else
      var last := steps[|steps| - 1];
      Allowance(log, steps[..|steps| - 1]) + last.maxAttempts + Resets(log, last.id)
  }

  function SumOfLimits(steps: seq<PlanStep>): nat {
    if steps == [] then 0 else SumOfLimits(steps[..|steps| - 1]) + steps[|steps| - 1].maxAttempts
  }

  lemma {:induction false} SumUnchanged(log: seq<LogRow>, row: LogRow, steps: seq<PlanStep>)
    requires forall s :: s in steps ==> !row.body.MovesStep(s.id, StepReady, StepRunning)
    ensures SumStarts(log + [row], steps) == SumStarts(log, steps)
  {
    if steps != [] {
      SumUnchanged(log, row, steps[..|steps| - 1]);
      CountAppend(log, row, steps[|steps| - 1].id);
    }
  }

  /** One more start of a step raises the sum by one: no other step has its identifier. */
  lemma {:induction false} SumGrows(log: seq<LogRow>, row: LogRow, steps: seq<PlanStep>, id: StepId)
    requires UniqueIds(steps) && id in Ids(steps) && row.body.MovesStep(id, StepReady, StepRunning)
    ensures SumStarts(log + [row], steps) == SumStarts(log, steps) + 1
  {
    var n := |steps| - 1;
    CountAppend(log, row, steps[n].id);
    if steps[n].id == id {
      SumUnchanged(log, row, steps[..n]);
    } else {
      SumGrows(log, row, steps[..n], id);
    }
  }

  lemma {:induction false} StartsAreAccounted(steps: seq<PlanStep>, log: seq<LogRow>)
    requires UniqueIds(steps) && Replay(Ids(steps), log).Some?
    ensures AllStarts(log) == SumStarts(log, steps)
  {
    if log == [] {
      NoStarts(steps);
    } else {
      var n := |log| - 1;
      assert log == log[..n] + [log[n]];
      StartsAreAccounted(steps, log[..n]);
      ReplayKeys(Ids(steps), log[..n]);
      if IsStart(log[n].body) {
        SumGrows(log[..n], log[n], steps, log[n].body.entityId.value);
      } else {
        SumUnchanged(log[..n], log[n], steps);
      }
    }
  }

  lemma {:induction false} NoStarts(steps: seq<PlanStep>)
    ensures SumStarts([], steps) == 0
  {
    if steps != [] {
      NoStarts(steps[..|steps| - 1]);
    }
  }

  lemma {:induction false} SumBound(all: seq<PlanStep>, log: seq<LogRow>, n: nat)
    requires Lawful(all, log) && Replay(Ids(all), log).Some? && n <= |all|
    requires forall s :: s in all ==> 1 <= s.maxAttempts
    ensures SumStarts(log, all[..n]) <= Allowance(log, all[..n])
  {
    if n > 0 {
      SumBound(all, log, n - 1);
      AttemptBound(all, log, all[n - 1]);
      assert all[..n][..n - 1] == all[..n - 1];
    }
  }

  /** All claims of a plan together: no more starts than the sum of the attempt limits, plus one per
      step a resolution made ready again. */
  lemma ClaimsBounded(steps: seq<PlanStep>, log: seq<LogRow>)
    requires UniqueIds(steps) && Lawful(steps, log) && Replay(Ids(steps), log).Some?
    requires forall s :: s in steps ==> 1 <= s.maxAttempts
    ensures AllStarts(log) <= Allowance(log, steps)
    ensures (forall s :: s in steps ==> Resets(log, s.id) == 0) ==> Allowance(log, steps) == SumOfLimits(steps)
  {
    StartsAreAccounted(steps, log);
    SumBound(steps, log, |steps|);
    assert steps[..|steps|] == steps;
    if forall s :: s in steps ==> Resets(log, s.id) == 0 {
      WithoutResets(log, steps);
    }
  }

  lemma {:induction false} WithoutResets(log: seq<LogRow>, steps: seq<PlanStep>)
    requires forall s :: s in steps ==> Resets(log, s.id) == 0
    ensures Allowance(log, steps) == SumOfLimits(steps)
  {
    if steps != [] {
      WithoutResets(log, steps[..|steps| - 1]);
    }
  }
}
