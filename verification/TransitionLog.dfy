/** The hash-chained transition log and its reducer (crates/shaka-queue/src/plan_store.rs). */
module TransitionLog {
  import opened Base
  import opened PlanCore

  datatype Entity = PlanEntity | StepEntity

  datatype EntityState = PlanIs(plan: PlanState) | StepIs(step: StepState)

  /** Idempotency keys, one constructor per format string of the source. Callers may pass any key,
      including one of the engine's own formats. */
  datatype Key =
    | Free(text: string)
    | AdmissionProposed | AdmissionValidated | AdmissionApproved
    | ApprovalProposed(approvalId: nat) | ApprovalValidated(approvalId: nat)
    | ApprovalApproved(approvalId: nat) | ApprovalRejected(approvalId: nat)
    | ClaimPlan(step: StepId) | ClaimReady(step: StepId, attempt: nat) | ClaimRunning(step: StepId, attempt: nat)
    | FinishSucceeded(step: StepId, attempt: nat) | FinishFailed(step: StepId, attempt: nat)
    | RetryReady(step: StepId, attempt: nat) | FinishPlanSucceeded | FinishPlanFailed
    | CompensationSource(step: StepId) | CompensationPlan
    | CancelPlanRequested | CancelPlanCompleted | CancelStep(step: StepId)
    | RecoveryPlanUnknown(now: int) | RecoveryStepUnknown(step: StepId, now: int)
    | RecoveryPlan(sequence: nat) | RecoveryStep(step: StepId, sequence: nat)
    | SubStep(base: Key, step: StepId) | SubSource(base: Key, step: StepId) | SubTarget(base: Key, step: StepId)

  /** `"{key}:step:{id}"`; the text "cancel" yields the same string as the engine's own key. */
  function StepKey(base: Key, step: StepId): Key {
    if base == Free("cancel") then CancelStep(step) else SubStep(base, step)
  }

  /** `"{key}:source:{id}"`, with the analogous coincidence for "compensation". */
  function SourceKey(base: Key, step: StepId): Key {
    if base == Free("compensation") then CompensationSource(step) else SubSource(base, step)
  }

  function TargetKey(base: Key, step: StepId): Key {
    SubTarget(base, step)
  }

  /** SHA-256 as an injective constructor over the hashed material; `HashText` is any other string. */
  datatype Hash = HashOf(material: Material) | HashText(text: string)

  datatype Material = Material(
    planId: PlanId, revision: nat, sequence: nat, entity: Entity, entityId: Option<StepId>,
    fromState: EntityState, toState: EntityState, key: Key, previousHash: Option<Hash>, createdAt: int)

  datatype Transition = Transition(
    planId: PlanId, revision: nat, sequence: nat, entity: Entity, entityId: Option<StepId>,
    fromState: EntityState, toState: EntityState, key: Key, previousHash: Option<Hash>,
    eventHash: Hash, createdAt: int)
  {
    function CalculateHash(): Hash {
      HashOf(Material(planId, revision, sequence, entity, entityId, fromState, toState, key,
                      previousHash, createdAt))
    }
    predicate HashOk() {
      eventHash == CalculateHash()
    }
    predicate MovesStep(id: StepId, a: StepState, b: StepState) {
      entity == StepEntity && entityId == Some(id) && fromState == StepIs(a) && toState == StepIs(b)
    }
    predicate MovesPlan(a: PlanState, b: PlanState) {
      entity == PlanEntity && fromState == PlanIs(a) && toState == PlanIs(b)
    }
    predicate Touches(id: StepId) {
      entity == StepEntity && entityId == Some(id)
    }
  }

  /** A row of `plan_transitions`: the indexed columns beside the serialised transition. */
  datatype LogRow = LogRow(sequence: nat, key: Key, eventHash: Hash, body: Transition)

  function NextSequence(log: seq<LogRow>): nat {
    if log == [] then 1 else log[|log| - 1].sequence + 1
  }

  function LastHash(log: seq<LogRow>): Option<Hash> {
    if log == [] then None else Some(log[|log| - 1].eventHash)
  }

  predicate KeyUsed(log: seq<LogRow>, key: Key) {
    exists i :: 0 <= i < |log| && log[i].key == key
  }

  // ----- the chain -----

  /** The hash the row at position `i` must point back to. */
  function PreviousHash(log: seq<LogRow>, i: nat): Option<Hash>
    requires i <= |log|
  {
    if i == 0 then None else Some(log[i - 1].body.eventHash)
  }

  predicate LinkOk(log: seq<LogRow>, i: nat)
    requires i < |log|
  {
    log[i].body.sequence == i + 1 && log[i].body.previousHash == PreviousHash(log, i) && log[i].body.HashOk()
  }

  predicate ChainOk(log: seq<LogRow>) {
    forall i :: 0 <= i < |log| ==> LinkOk(log, i)
  }

  /** The indexed columns repeat the serialised transition. */
  predicate ColumnsOk(log: seq<LogRow>) {
    forall i :: 0 <= i < |log| ==>
      && log[i].sequence == log[i].body.sequence
      && log[i].key == log[i].body.key
      && log[i].eventHash == log[i].body.eventHash
  }

  /** A chain is committed to by its last hash: equal final hashes mean equal histories. */
  lemma {:induction false} ChainCommitment(a: seq<LogRow>, b: seq<LogRow>)
    requires ChainOk(a) && ChainOk(b) && ColumnsOk(a) && ColumnsOk(b)
    requires LastHash(a) == LastHash(b)
    ensures a == b
  {
    if a == [] || b == [] {
      assert a == [] && b == [];
    } else {
      var m, n := |a| - 1, |b| - 1;
      assert LinkOk(a, m);
      assert LinkOk(b, n);
      assert a[m].body == b[n].body;
      assert m == n;
      ChainPrefix(a, m);
      ChainPrefix(b, n);
      ChainCommitment(a[..m], b[..n]);
      assert a == a[..m] + [a[m]] && b == b[..n] + [b[n]];
    }
  }

  lemma ChainPrefix(log: seq<LogRow>, n: nat)
    requires ChainOk(log) && ColumnsOk(log) && n <= |log|
    ensures ChainOk(log[..n]) && ColumnsOk(log[..n])
  {
    forall i | 0 <= i < n
      ensures LinkOk(log[..n], i)
    {
      assert LinkOk(log, i);
    }
  }

  /** No later row reuses an event hash: the sequence number is part of what is hashed. */
  lemma HashesDistinct(log: seq<LogRow>, i: nat, j: nat)
    requires ChainOk(log) && i < j < |log|
    ensures log[i].body.eventHash != log[j].body.eventHash
  {
    assert LinkOk(log, i) && LinkOk(log, j);
  }

  // ----- the reducer -----

  datatype Reduced = Reduced(plan: PlanState, steps: map<StepId, StepState>)

  /** `apply_transition_state`. */
  function ApplyTransition(r: Reduced, t: Transition): Option<Reduced> {
    match (t.entity, t.fromState, t.toState)
    case (PlanEntity, PlanIs(a), PlanIs(b)) =>
      if r.plan == a && a.CanMoveTo(b) then Some(r.(plan := b)) else None
    case (StepEntity, StepIs(a), StepIs(b)) =>
      if t.entityId.Some? && t.entityId.value in r.steps && r.steps[t.entityId.value] == a && a.CanMoveTo(b)
      then Some(r.(steps := r.steps[t.entityId.value := b]))
      else None
    case _ => None
  }

  function Initial(ids: set<StepId>): Reduced {
    Reduced(Draft, map id | id in ids :: StepPending)
  }

  /** The fold of the log from Draft and all-pending steps. */
  function Replay(ids: set<StepId>, log: seq<LogRow>): Option<Reduced> {
    if log == [] then Some(Initial(ids)) else
      var before := Replay(ids, log[..|log| - 1]);
      if before.None? then None else ApplyTransition(before.value, log[|log| - 1].body)
  }

  lemma ReplayAppend(ids: set<StepId>, log: seq<LogRow>, row: LogRow)
    requires Replay(ids, log).Some?
    ensures Replay(ids, log + [row]) == ApplyTransition(Replay(ids, log).value, row.body)
  {
    assert (log + [row])[..|log + [row]| - 1] == log;
  }

  lemma {:induction false} ReplayPrefix(ids: set<StepId>, log: seq<LogRow>, n: nat)
    requires Replay(ids, log).Some? && n <= |log|
    ensures Replay(ids, log[..n]).Some?
  {
    if n < |log| {
      ReplayPrefix(ids, log[..|log| - 1], n);
      assert log[..|log| - 1][..n] == log[..n];
    } else {
      assert log[..n] == log;
    }
  }

  /** The state the replay has reached before event `n`. */
  function StateAt(ids: set<StepId>, log: seq<LogRow>, n: nat): Reduced
    requires Replay(ids, log).Some? && n <= |log|
  {
    ReplayPrefix(ids, log, n);
    Replay(ids, log[..n]).value
  }

  lemma {:induction false} ReplayKeys(ids: set<StepId>, log: seq<LogRow>)
    requires Replay(ids, log).Some?
    ensures Replay(ids, log).value.steps.Keys == ids
  {
    if log != [] {
      ReplayKeys(ids, log[..|log| - 1]);
    }
  }

  // ----- checkpoints -----

  datatype CheckpointPhase = Preflight | ApprovalPhase | Resolution | BeforeStep | AfterStep | CompensationPhase | Recovery

  datatype CheckpointStatus = CheckpointPending | CheckpointSucceeded | CheckpointFailed | CheckpointUnknown

  datatype Checkpoint = Checkpoint(
    sequence: nat, stepId: Option<StepId>, phase: CheckpointPhase, status: CheckpointStatus,
    stateDigest: Option<Digest>, createdAt: int)

  predicate CheckpointsOk(c: seq<Checkpoint>) {
    forall i :: 0 <= i < |c| ==> c[i].sequence == i + 1
  }
}
