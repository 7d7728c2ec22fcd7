/** When resumption keeps log and snapshot in agreement, and when it does not. */
module ResumeLimits {
  import opened Base
  import opened PlanCore
  import opened TransitionLog
  import opened PlanTransactions
  import opened Journal
  import opened PlanInvariants
  import opened PlanResolution
  import opened Authority
  import PlanStore

  /** The first row of a recovery leaves the plan's state for unknown, whatever the table says. */
  lemma FirstRecoveryRow(rec: PlanRec, active: map<StepId, StepState>, now: int)
    requires active == ActiveSteps(rec.steps) && InsertRecovery(rec, rec.state, active, now).Ok?
    ensures var r := InsertRecovery(rec, rec.state, active, now).value;
            && IsExtension(rec.log, r.log) && |rec.log| < |r.log|
            && r.log[|rec.log|].body.MovesPlan(rec.state, Unknown)
  {
    hide InsertRow, InsertStepRecoveries, ActiveSteps, Ascending, Grows, IsExtension, NextTransition;
    var t := NextTransition(rec, PlanEntity, None, PlanIs(rec.state), PlanIs(Unknown), RecoveryPlan(NextSequence(rec.log)), now);
    RowInserted(rec, rec.state, now);
    var r1 := InsertRow(rec, t).value;
    ActiveIsNotUnknown(rec.steps);
    NothingGrows(r1);
    StepRecoveriesGrow(r1, r1, Ascending(active.Keys), active, now);
    StillFirst(rec, r1, InsertRecovery(rec, rec.state, active, now).value);
  }

  lemma RowInserted(rec: PlanRec, from: PlanState, now: int)
    requires InsertRow(rec, NextTransition(rec, PlanEntity, None, PlanIs(from), PlanIs(Unknown), RecoveryPlan(NextSequence(rec.log)), now)).Ok?
    ensures var r := InsertRow(rec, NextTransition(rec, PlanEntity, None, PlanIs(from), PlanIs(Unknown),
                                                   RecoveryPlan(NextSequence(rec.log)), now)).value;
            && IsExtension(rec.log, r.log) && |r.log| == |rec.log| + 1
            && r.log[|rec.log|].body.MovesPlan(from, Unknown)
  {
  }

  lemma NothingGrows(rec: PlanRec)
    ensures Grows(rec, rec)
  {
  }

  lemma StillFirst(rec: PlanRec, r1: PlanRec, r: PlanRec)
    requires IsExtension(rec.log, r1.log) && |r1.log| == |rec.log| + 1 && Grows(r1, r)
    ensures IsExtension(rec.log, r.log) && |rec.log| < |r.log| && r.log[|rec.log|] == r1.log[|rec.log|]
  {
    assert r.log[..|r1.log|] == r1.log;
    assert r.log[..|rec.log|] == r1.log[..|rec.log|];
  }

  lemma JournalFolds(rec: PlanRec)
    requires Journaled(rec)
    ensures FoldLog(Ids(rec.spec.steps), rec.log) == Folded(Reduced(rec.state, rec.steps))
  {
    FoldIsReplay(Ids(rec.spec.steps), rec.log);
    hide FoldLog, Replay, Lawful, ChainOk, ColumnsOk;
  }

  /** A log that continues with an event out of an ended plan no longer folds. */
  lemma EndedLogBreaks(rec: PlanRec, log: seq<LogRow>)
    requires Journaled(rec) && rec.state.IsTerminal() && IsExtension(rec.log, log) && |rec.log| < |log|
    requires log[|rec.log|].body.MovesPlan(rec.state, Unknown)
    ensures FoldLog(Ids(rec.spec.steps), log).Broken?
  {
    hide Journaled, FoldLog, LinkOk, Ids;
    var ids, n := Ids(rec.spec.steps), |rec.log|;
    JournalFolds(rec);
    PlanStore.FoldOne(ids, log, n, Reduced(rec.state, rec.steps));
    PlanStore.BrokenStays(ids, log, n + 1);
  }

  /** `append_recovery_transitions_tx` does not consult the transition table: resuming a consistent plan
      leaves it consistent exactly when the plan has not ended or holds no active step. */
  lemma ResumeAgreesIff(rec: PlanRec, task: Option<TaskRow>, now: int)
    requires RecOk(rec) && Joint(rec, task) && ResumeWrite(rec, ResumeRead(rec), now).Ok?
    ensures Inspect(ResumeWrite(rec, ResumeRead(rec), now).value) == None
       <==> !rec.state.IsTerminal() || ActiveSteps(rec.steps) == map[]
  {
    hide FoldLog, ActiveSteps, RecOk, Joint, Inspect, InsertRecovery, Journaled;
    InspectStable(rec);
    var view := ResumeRead(rec);
    var r := ResumeWrite(rec, view, now).value;
    if !rec.state.IsTerminal() {
      ResumeReadGoverned(rec);
      ResumeWriteKeeps(rec, task, view, now);
      InspectStable(r);
    } else if ActiveSteps(rec.steps) != map[] {
      RecoverUnfolds(rec, view, now);
      RecoverySteps(rec, now);
      FirstRecoveryRow(rec, view.active, now);
      RecJournaled(rec);
      EndedLogBreaks(rec, r.log);
      BrokenInspects(r);
    }
  }

  lemma RecJournaled(rec: PlanRec)
    requires RecOk(rec)
    ensures Journaled(rec)
  {
  }

  lemma BrokenInspects(rec: PlanRec)
    requires FoldLog(Ids(rec.spec.steps), rec.log).Broken?
    ensures Inspect(rec).Some?
  {
  }
}
