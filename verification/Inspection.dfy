/** What an inspection finds, said of the history itself; and what a resumption makes of what it finds. */
module Inspection {
  import opened Base
  import opened PlanCore
  import opened TransitionLog
  import opened PlanTransactions
  import opened Journal
  import opened PlanInvariants
  import opened PlanResolution
  import opened ResumeLimits

  /** The row carries the next number, points at the row before it, and hashes to what it says. */
  predicate Linked(log: seq<LogRow>, i: nat)
    requires i < |log|
  {
    var t := log[i].body;
    && t.sequence == i + 1
    && t.previousHash == (if i == 0 then None else Some(log[i - 1].body.eventHash))
    && t.eventHash == HashOf(Material(t.planId, t.revision, t.sequence, t.entity, t.entityId, t.fromState, t.toState, t.key,
                                      t.previousHash, t.createdAt))
  }

  /** The event leads from one state of plan and steps to the next, by a move the tables allow. */
  predicate MovesTo(a: Reduced, t: Transition, b: Reduced) {
    || (t.entity == PlanEntity && t.fromState == PlanIs(a.plan) && t.toState == PlanIs(b.plan)
        && a.plan.CanMoveTo(b.plan) && b.steps == a.steps)
    || (t.entity == StepEntity && t.entityId.Some? && t.entityId.value in a.steps && t.entityId.value in b.steps
        && t.fromState == StepIs(a.steps[t.entityId.value]) && t.toState == StepIs(b.steps[t.entityId.value])
        && a.steps[t.entityId.value].CanMoveTo(b.steps[t.entityId.value])
        && b == a.(steps := a.steps[t.entityId.value := b.steps[t.entityId.value]]))
  }

  /** The states the events go through, from a draft with all steps pending. */
  predicate IsHistory(ids: set<StepId>, log: seq<LogRow>, states: seq<Reduced>) {
    && |states| == |log| + 1
    && states[0].plan == Draft && states[0].steps == (map id | id in ids :: StepPending)
    && forall i :: 0 <= i < |log| ==> MovesTo(states[i], log[i].body, states[i + 1])
  }

  /** The first `n` rows are linked and have a history. */
  ghost predicate Sound(ids: set<StepId>, log: seq<LogRow>, n: nat)
    requires n <= |log|
  {
    && (forall i :: 0 <= i < n ==> Linked(log, i))
    && exists states :: IsHistory(ids, log[..n], states)
  }

  lemma MoveMeans(a: Reduced, t: Transition, b: Reduced)
    ensures ApplyTransition(a, t) == Some(b) <==> MovesTo(a, t, b)
  {
  }

  lemma LinkMeans(log: seq<LogRow>, i: nat)
    requires i < |log|
    ensures LinkOk(log, i) <==> Linked(log, i)
  {
  }

  /** The fold of a log is the last state of its history. */
  lemma {:induction false} HistoryIsReplay(ids: set<StepId>, log: seq<LogRow>, states: seq<Reduced>)
    requires IsHistory(ids, log, states)
    ensures Replay(ids, log) == Some(states[|log|])
  {
    if log == [] {
      assert states[0] == Initial(ids);
    } else {
      var n := |log| - 1;
      HistoryPrefix(ids, log, states);
      assert MovesTo(states[n], log[n].body, states[n + 1]) && states[..n + 1][n] == states[n];
      HistoryIsReplay(ids, log[..n], states[..n + 1]);
      MoveMeans(states[n], log[n].body, states[n + 1]);
    }
  }

  lemma HistoryPrefix(ids: set<StepId>, log: seq<LogRow>, states: seq<Reduced>)
    requires IsHistory(ids, log, states) && log != []
    ensures IsHistory(ids, log[..|log| - 1], states[..|log|])
  {
    hide MovesTo;
  }

  lemma {:induction false} ReplayHasHistory(ids: set<StepId>, log: seq<LogRow>) returns (states: seq<Reduced>)
    requires Replay(ids, log).Some?
    ensures IsHistory(ids, log, states)
  {
    if log == [] {
      states := [Initial(ids)];
    } else {
      var n := |log| - 1;
      states := ReplayHasHistory(ids, log[..n]);
      HistoryIsReplay(ids, log[..n], states);
      MoveMeans(states[n], log[n].body, Replay(ids, log).value);
      HistoryAppend(ids, log, states, Replay(ids, log).value);
      states := states + [Replay(ids, log).value];
    }
  }

  lemma HistoryAppend(ids: set<StepId>, log: seq<LogRow>, states: seq<Reduced>, last: Reduced)
    requires log != [] && IsHistory(ids, log[..|log| - 1], states) && MovesTo(states[|log| - 1], log[|log| - 1].body, last)
    ensures IsHistory(ids, log, states + [last])
  {
    hide MovesTo;
    var n := |log| - 1;
    var all := states + [last];
    forall i | 0 <= i < |log| ensures MovesTo(all[i], log[i].body, all[i + 1]) {
      if i < n { assert log[..n][i] == log[i]; }
    }
  }

  lemma SoundMeans(ids: set<StepId>, log: seq<LogRow>)
    ensures Sound(ids, log, |log|) <==> ChainOk(log) && Replay(ids, log).Some?
  {
    hide IsHistory;
    assert log[..|log|] == log;
    forall i | 0 <= i < |log| ensures LinkOk(log, i) <==> Linked(log, i) { LinkMeans(log, i); }
    if Replay(ids, log).Some? {
      var states := ReplayHasHistory(ids, log);
    }
    if states :| IsHistory(ids, log, states) {
      HistoryIsReplay(ids, log, states);
    }
  }

  lemma SoundPrefix(ids: set<StepId>, log: seq<LogRow>, n: nat)
    requires n <= |log|
    ensures Sound(ids, log, n) <==> Sound(ids, log[..n], n)
  {
    assert log[..n][..n] == log[..n];
    forall i | 0 <= i < n ensures Linked(log, i) <==> Linked(log[..n], i) { }
  }

  /** The first row at which a replay breaks off tells which issue it reports. */
  lemma {:induction false} BrokenMeans(ids: set<StepId>, log: seq<LogRow>)
    ensures FoldLog(ids, log) == Broken(ChainInvalid) <==>
              exists i :: 0 <= i < |log| && Sound(ids, log, i) && !Linked(log, i)
    ensures FoldLog(ids, log).Folded? <==> Sound(ids, log, |log|)
    ensures FoldLog(ids, log) != Broken(CheckpointSequenceInvalid)
  {
    hide Sound, Linked, LinkOk, ApplyTransition;
    FoldIsReplay(ids, log);
    SoundMeans(ids, log);
    if log != [] {
      var n := |log| - 1;
      BrokenMeans(ids, log[..n]);
      LinkMeans(log, n);
      SoundPrefix(ids, log, n);
      forall i | 0 <= i < n ensures Sound(ids, log, i) <==> Sound(ids, log[..n], i) { SoundTwice(ids, log, n, i); }
      forall i | 0 <= i < n ensures Linked(log, i) <==> Linked(log[..n], i) { SameLink(log, n, i); }
      forall i | 0 <= i < n && Sound(ids, log, n) ensures Linked(log, i) { SoundLinks(ids, log, n, i); }
    }
  }

  lemma SoundTwice(ids: set<StepId>, log: seq<LogRow>, n: nat, i: nat)
    requires i <= n <= |log|
    ensures Sound(ids, log, i) <==> Sound(ids, log[..n], i)
  {
    assert log[..n][..i] == log[..i];
    forall j | 0 <= j < i ensures Linked(log, j) <==> Linked(log[..n], j) { }
  }

  lemma SameLink(log: seq<LogRow>, n: nat, i: nat)
    requires i < n <= |log|
    ensures Linked(log, i) <==> Linked(log[..n], i)
  {
  }

  lemma SoundLinks(ids: set<StepId>, log: seq<LogRow>, n: nat, i: nat)
    requires i < n <= |log| && Sound(ids, log, n)
    ensures Linked(log, i)
  {
  }

  /** The snapshot is where the history ends. */
  ghost predicate SnapshotAgrees(rec: PlanRec) {
    exists states ::
      IsHistory(Ids(rec.spec.steps), rec.log, states) && states[|states| - 1] == Reduced(rec.state, rec.steps)
  }

  predicate CheckpointsNumbered(rec: PlanRec) {
    forall i :: 0 <= i < |rec.checkpoints| ==> rec.checkpoints[i].sequence == i + 1
  }

  lemma AgreementMeans(rec: PlanRec)
    ensures SnapshotAgrees(rec) <==> Replay(Ids(rec.spec.steps), rec.log) == Some(Reduced(rec.state, rec.steps))
  {
    var ids := Ids(rec.spec.steps);
    if Replay(ids, rec.log).Some? {
      var states := ReplayHasHistory(ids, rec.log);
      HistoryIsReplay(ids, rec.log, states);
    }
    if SnapshotAgrees(rec) {
      var states :| IsHistory(ids, rec.log, states) && states[|states| - 1] == Reduced(rec.state, rec.steps);
      HistoryIsReplay(ids, rec.log, states);
    }
  }

  /** Inspection, for any rows whatever: it reports no issue exactly when the chain is linked, the events
      have a history from the draft that ends in the snapshot, and the checkpoints are numbered; a broken
      chain exactly when the first bad row is not linked; bad checkpoints exactly when all else agrees; and
      divergence in all other cases. */
  lemma InspectionMeans(rec: PlanRec)
    ensures var ids, n := Ids(rec.spec.steps), |rec.log|;
            && (Inspect(rec) == None <==> Sound(ids, rec.log, n) && SnapshotAgrees(rec) && CheckpointsNumbered(rec))
            && (Inspect(rec) == Some(ChainInvalid) <==> exists i :: 0 <= i < n && Sound(ids, rec.log, i) && !Linked(rec.log, i))
            && (Inspect(rec) == Some(CheckpointSequenceInvalid) <==>
                  Sound(ids, rec.log, n) && SnapshotAgrees(rec) && !CheckpointsNumbered(rec))
  {
    hide Sound, Linked, FoldLog, SnapshotAgrees;
    BrokenMeans(Ids(rec.spec.steps), rec.log);
    FoldIsReplay(Ids(rec.spec.steps), rec.log);
    AgreementMeans(rec);
    hide Replay;
  }

  // ----- resumption -----

  /** The step crossed an effect boundary that nobody closed. */
  predicate IsOpen(state: StepState) {
    state == StepRunning || state == StepCancelRequested || state == StepCompensating
  }

  predicate HoldsOpen(rec: PlanRec) {
    exists id :: id in rec.steps && IsOpen(rec.steps[id])
  }

  /** Plan and open steps are unknown, everything else but log and checkpoints is as it was. */
  predicate IsQuarantined(rec: PlanRec, r: PlanRec) {
    && r == rec.(state := Unknown, steps := r.steps, log := r.log, checkpoints := r.checkpoints)
    && r.steps == map id | id in rec.steps :: if IsOpen(rec.steps[id]) then StepUnknown else rec.steps[id]
  }

  lemma OpenMeans(rec: PlanRec)
    ensures ActiveSteps(rec.steps) != map[] <==> HoldsOpen(rec)
    ensures Quarantined(rec.steps) == map id | id in rec.steps :: if IsOpen(rec.steps[id]) then StepUnknown else rec.steps[id]
  {
    if HoldsOpen(rec) {
      var id :| id in rec.steps && IsOpen(rec.steps[id]);
      assert id in ActiveSteps(rec.steps);
    }
    if ActiveSteps(rec.steps) != map[] {
      var id :| id in ActiveSteps(rec.steps);
      assert IsOpen(rec.steps[id]);
    }
  }

  /** A resumption that goes through, from any rows whatever. Rows with an issue are quarantined in place,
      without a row in the log. Rows without one are left alone when the plan is unknown already, or neither
      at work nor holding an open step; otherwise they are quarantined, and the log grows by the plan's move
      to unknown first. */
  lemma ResumptionMeans(rec: PlanRec, tenant: TenantId, now: int)
    requires ResumeTx(rec, tenant, now).Ok?
    ensures var r := ResumeTx(rec, tenant, now).value;
            if Inspect(rec) != None then IsQuarantined(rec, r) && r.log == rec.log
            else if rec.state == Unknown
              || (rec.state != Running && rec.state != CancelRequested && rec.state != Compensating && !HoldsOpen(rec)) then r == rec
            else
              && IsQuarantined(rec, r) && IsExtension(rec.log, r.log) && |rec.log| < |r.log|
              && r.log[|rec.log|].body.MovesPlan(rec.state, Unknown)
              && |r.checkpoints| == |rec.checkpoints| + 1
  {
    hide Inspect, InsertRecovery, Loadable, ActiveSteps, Quarantined, HoldsOpen, IsExtension;
    OpenMeans(rec);
    var view := ResumeRead(rec);
    if view.verdict == FoundActive && rec.state != Unknown {
      RecoverUnfolds(rec, view, now);
      RecoverySteps(rec, now);
      FirstRecoveryRow(rec, ActiveSteps(rec.steps), now);
    }
  }
}
