/** The agent's run loop and tool gate (crates/shaka-orchestrator/src/lib.rs) under an arbitrary model.
    Cancellation, clock readings, answers and tool outcomes are whatever the `World` says. */
module AgentLoop {
  import opened Base
  import opened PlanCore

  datatype SideEffect = ReadOnly | ExternalEffect | Mutation

  datatype ToolDefinition = ToolDefinition(name: string, required: seq<Capability>, sideEffect: SideEffect)

  /** `conforms` is the verdict of the JSON schema validator on the arguments. */
  datatype ToolCall = ToolCall(toolName: string, arguments: string, conforms: bool)

  datatype Envelope = Envelope(budget: Budget, capabilities: seq<Capability>, dryRun: bool)

  datatype Answer = Answer(content: string, calls: seq<ToolCall>, cost: nat)

  datatype ModelRace = ModelCancelled | ModelFailed | ModelTimedOut | ModelAnswered(answer: Answer)

  datatype ToolRace = ToolCancelled(started: bool) | ToolTimedOut | ToolReturned(success: bool)

  datatype World = World(cancelled: nat -> bool, elapsedMs: nat -> nat, model: nat -> ModelRace, tool: nat -> ToolRace)

  datatype ToolResult = ToolResult(toolName: string, success: bool)

  datatype Outcome =
    | Completed(content: string, success: bool)
    | BudgetInvalid | RunCancelled | DeadlineExceeded | ModelError
    | OverSteps | OverCost | OverToolCalls

  // ----- the gate in front of every tool -----

  datatype Verdict = ToolNotFound | PlanActionDenied | CapabilityDenied | SchemaViolation | Simulated | Execute

  predicate ScopeAllows(scope: Option<PlanAction>, definition: ToolDefinition) {
    scope.Some? ==> scope.value.ExecuteTool? && scope.value.toolName == definition.name
  }

  function Gate(registry: map<string, ToolDefinition>, env: Envelope, scope: Option<PlanAction>, call: ToolCall): Verdict {
    if call.toolName !in registry then ToolNotFound else
      var definition := registry[call.toolName];
      if !ScopeAllows(scope, definition) then PlanActionDenied
      else if exists c :: c in definition.required && c !in env.capabilities then CapabilityDenied
      else if !call.conforms then SchemaViolation
      else if env.dryRun && definition.sideEffect != ReadOnly then Simulated
      else Execute
  }

  /** What it takes for a tool to run for real. */
  predicate MayRun(registry: map<string, ToolDefinition>, env: Envelope, scope: Option<PlanAction>, call: ToolCall) {
    && call.toolName in registry && call.conforms
    && (env.dryRun ==> registry[call.toolName].sideEffect == ReadOnly)
    && (forall c :: c in registry[call.toolName].required ==> c in env.capabilities)
    && (scope.Some? ==> scope.value == ExecuteTool(registry[call.toolName].name))
  }

  lemma GateExecutes(registry: map<string, ToolDefinition>, env: Envelope, scope: Option<PlanAction>, call: ToolCall)
    ensures Gate(registry, env, scope, call) == Execute <==> MayRun(registry, env, scope, call)
  {
  }

  /** What it takes for a call to be answered without running: it would change something in a dry run. */
  predicate MaySimulate(registry: map<string, ToolDefinition>, env: Envelope, scope: Option<PlanAction>, call: ToolCall) {
    && call.toolName in registry && call.conforms
    && env.dryRun && registry[call.toolName].sideEffect != ReadOnly
    && (forall c :: c in registry[call.toolName].required ==> c in env.capabilities)
    && (scope.Some? ==> scope.value == ExecuteTool(registry[call.toolName].name))
  }

  lemma GateSimulates(registry: map<string, ToolDefinition>, env: Envelope, scope: Option<PlanAction>, call: ToolCall)
    ensures Gate(registry, env, scope, call) == Simulated <==> MaySimulate(registry, env, scope, call)
  {
  }

  /** The call succeeded: it came back in time, and either ran well or was only simulated. */
  predicate WentWell(registry: map<string, ToolDefinition>, env: Envelope, scope: Option<PlanAction>, call: ToolCall, race: ToolRace) {
    race.ToolReturned? && ((MayRun(registry, env, scope, call) && race.success) || MaySimulate(registry, env, scope, call))
  }

  // ----- what the world may interrupt -----

  /** No cancellation and no deadline was seen at the observations after the first and up to the last. */
  predicate Calm(env: Envelope, world: World, first: nat, last: nat) {
    forall t :: first < t <= last ==> !world.cancelled(t) && world.elapsedMs(t) < env.budget.maxElapsedMs
  }

  lemma CalmYet(env: Envelope, world: World, t: nat)
    ensures Calm(env, world, t, t)
  {
  }

  lemma CalmOn(env: Envelope, world: World, first: nat, mid: nat, last: nat)
    requires Calm(env, world, first, mid) && Calm(env, world, mid, last)
    ensures Calm(env, world, first, last)
  {
    forall t | first < t <= last ensures !world.cancelled(t) && world.elapsedMs(t) < env.budget.maxElapsedMs {
      if t > mid { assert mid < t; }
    }
  }

  /** Why an observation ends the run. */
  predicate EndsAt(env: Envelope, world: World, t: nat, outcome: Outcome) {
    && (outcome == RunCancelled ==> world.cancelled(t) || world.model(t).ModelCancelled? || world.tool(t).ToolCancelled?)
    && (outcome == DeadlineExceeded ==> env.budget.maxElapsedMs <= world.elapsedMs(t) || world.model(t).ModelTimedOut?)
    && (outcome == ModelError ==> world.model(t).ModelFailed?)
  }

  // ----- what the answers propose and cost -----

  function CostOf(answers: seq<Answer>): nat {
    if answers == [] then 0 else CostOf(answers[..|answers| - 1]) + answers[|answers| - 1].cost
  }

  function AllCalls(answers: seq<Answer>): seq<ToolCall> {
    if answers == [] then [] else AllCalls(answers[..|answers| - 1]) + answers[|answers| - 1].calls
  }

  lemma NothingYet()
    ensures CostOf([]) == 0 && AllCalls([]) == []
  {
  }

  lemma OneMoreAnswer(answers: seq<Answer>, last: Answer)
    ensures CostOf(answers + [last]) == CostOf(answers) + last.cost
    ensures AllCalls(answers + [last]) == AllCalls(answers) + last.calls
    ensures (answers + [last])[..|answers + [last]| - 1] == answers
  {
    assert (answers + [last])[..|answers|] == answers;
  }

  /** The calls that pass the gate, in order. */
  function Permitted(registry: map<string, ToolDefinition>, env: Envelope, scope: Option<PlanAction>, calls: seq<ToolCall>)
    : (r: seq<ToolCall>)
    ensures |r| <= |calls| && forall e :: e in r ==> e in calls && MayRun(registry, env, scope, e)
  {
    if calls == [] then [] else
      Permitted(registry, env, scope, calls[..|calls| - 1])
      + (if MayRun(registry, env, scope, calls[|calls| - 1]) then [calls[|calls| - 1]] else [])
  }

  const U32_MAX: nat := 0xFFFF_FFFF

  function SaturatingAdd32(a: nat, b: nat): nat {
    if a + b > U32_MAX then U32_MAX else a + b
  }

  // ----- the runtime -----

  class AgentRuntime {
    const registry: map<string, ToolDefinition>
    /** Observations of the world so far. */
    var tick: nat
    /** Model calls begun, answers taken, results recorded, tools that really ran. */
    var modelCalls: nat
    var answers: seq<Answer>
    var results: seq<ToolResult>
    var executed: seq<ToolCall>
    /** The observations at which the answers and the results came. */
    ghost var askedAt: seq<nat>
    ghost var ranAt: seq<nat>

    constructor (registry: map<string, ToolDefinition>)
      ensures this.registry == registry && modelCalls == 0 && answers == [] && results == [] && executed == []
      ensures askedAt == [] && ranAt == []
    {
      this.registry := registry;
      tick, modelCalls, answers, results, executed := 0, 0, [], [], [];
      askedAt, ranAt := [], [];
    }

    /** The first `n` calls left a result each, a success exactly when the call succeeded, and of the first
        `m` exactly the permitted ones ran. */
    ghost predicate Handled(env: Envelope, scope: Option<PlanAction>, world: World, calls: seq<ToolCall>, n: nat, m: nat)
      reads this`results, this`ranAt, this`executed
    {
      && n <= m <= |calls| && |results| == n && |ranAt| == n
      && (forall i :: 0 <= i < n ==>
            results[i] == ToolResult(calls[i].toolName, WentWell(registry, env, scope, calls[i], world.tool(ranAt[i]))))
      && executed == Permitted(registry, env, scope, calls[..m])
    }

    /** Every result stands for a call, in order; perhaps one more call has started. */
    ghost predicate InOrder(env: Envelope, scope: Option<PlanAction>, world: World, calls: seq<ToolCall>)
      reads this`results, this`ranAt, this`executed
    {
      || Handled(env, scope, world, calls, |results|, |results|)
      || Handled(env, scope, world, calls, |results|, |results| + 1)
    }

    /** The answers are those the model gave, one for each call begun but perhaps the last. */
    ghost predicate Answered(world: World)
      reads this`answers, this`askedAt
    {
      && |askedAt| == |answers|
      && forall i :: 0 <= i < |answers| ==> world.model(askedAt[i]) == ModelAnswered(answers[i])
    }

    /** One proposed call; `Some` when the run ends here, perhaps after the call has started. */
    method CallTool(env: Envelope, scope: Option<PlanAction>, world: World, ghost calls: seq<ToolCall>, ghost n: nat,
                    call: ToolCall)
      returns (stop: Option<Outcome>)
      requires Handled(env, scope, world, calls, n, n) && n < |calls| && calls[n] == call
      modifies this`tick, this`results, this`executed, this`ranAt
      ensures tick == old(tick) + 1
      ensures stop.Some? ==> stop.value in {RunCancelled, DeadlineExceeded} && EndsAt(env, world, tick, stop.value)
      ensures stop.None? ==> Calm(env, world, old(tick), tick) && !world.tool(tick).ToolCancelled?
      ensures stop.Some? ==> Handled(env, scope, world, calls, n, n) || Handled(env, scope, world, calls, n, n + 1)
      ensures stop.None? ==> Handled(env, scope, world, calls, n + 1, n + 1)
    {
      tick := tick + 1;
      if env.budget.maxElapsedMs <= world.elapsedMs(tick) {
        return Some(DeadlineExceeded);
      }
      if world.cancelled(tick) {
        return Some(RunCancelled);
      }
      var verdict := Gate(registry, env, scope, call);
      GateExecutes(registry, env, scope, call);
      GateSimulates(registry, env, scope, call);
      hide Gate, MayRun, MaySimulate;
      assert calls[..n + 1][..n] == calls[..n];
      var race := world.tool(tick);
      if verdict == Execute && (race.ToolCancelled? ==> race.started) {
        executed := executed + [call];
      }
      var success;
      match race {
        case ToolCancelled(_) => return Some(RunCancelled);
        case ToolTimedOut => success := false;
        case ToolReturned(ok) => success := if verdict == Execute then ok else verdict == Simulated;
      }
      results := results + [ToolResult(call.toolName, success)];
      ranAt := ranAt + [tick];
      return None;
    }

    /** The calls of one answer, in order. */
    method CallTools(env: Envelope, scope: Option<PlanAction>, world: World, ghost earlier: seq<ToolCall>, calls: seq<ToolCall>)
      returns (stop: Option<Outcome>)
      requires Handled(env, scope, world, earlier, |earlier|, |earlier|)
      modifies this`tick, this`results, this`executed, this`ranAt
      ensures old(tick) <= tick
      ensures stop.Some? ==>
        && stop.value in {RunCancelled, DeadlineExceeded} && EndsAt(env, world, tick, stop.value)
        && old(tick) < tick && Calm(env, world, old(tick), tick - 1)
      ensures stop.None? ==> Calm(env, world, old(tick), tick)
      ensures InOrder(env, scope, world, earlier + calls)
      ensures stop.None? ==> Handled(env, scope, world, earlier + calls, |earlier + calls|, |earlier + calls|)
    {
      hide MayRun, Permitted, WentWell, EndsAt;
      ghost var first := tick;
      ghost var all := earlier + calls;
      assert all[..|earlier|] == earlier && earlier[..|earlier|] == earlier;
      for i := 0 to |calls|
        invariant Handled(env, scope, world, all, |earlier| + i, |earlier| + i)
        invariant first <= tick && Calm(env, world, first, tick)
      {
        ghost var before := tick;
        stop := CallTool(env, scope, world, all, |earlier| + i, calls[i]);
        if stop.Some? {
          return;
        }
        CalmOn(env, world, first, before, tick);
      }
      stop := None;
    }

    /** Cancellation, budget and deadline are looked at before each model call; an answer is taken. */
    method AskModel(env: Envelope, world: World, stepCount: nat) returns (stop: Option<Outcome>, answer: Answer)
      requires modelCalls == stepCount <= env.budget.maxSteps && Answered(world)
      modifies this`tick, this`modelCalls, this`answers, this`askedAt
      ensures tick == old(tick) + 1 && Answered(world)
      ensures stop.Some? ==>
        && stop.value in {RunCancelled, OverSteps, DeadlineExceeded, ModelError} && EndsAt(env, world, tick, stop.value)
        && answers == old(answers)
      ensures stop == Some(OverSteps) ==> stepCount == env.budget.maxSteps && !world.cancelled(tick)
      ensures stop.None? ==>
        && Calm(env, world, old(tick), tick) && modelCalls == stepCount + 1
        && answers == old(answers) + [answer] && CostOf(answers) == CostOf(old(answers)) + answer.cost
        && AllCalls(answers) == AllCalls(old(answers)) + answer.calls
      ensures stepCount <= modelCalls <= stepCount + 1 && modelCalls <= env.budget.maxSteps
    {
      hide CostOf, AllCalls;
      answer := Answer("", [], 0);
      tick := tick + 1;
      if world.cancelled(tick) {
        return Some(RunCancelled), answer;
      }
      if stepCount >= env.budget.maxSteps {
        return Some(OverSteps), answer;
      }
      if env.budget.maxElapsedMs <= world.elapsedMs(tick) {
        return Some(DeadlineExceeded), answer;
      }
      modelCalls := modelCalls + 1;
      match world.model(tick) {
        case ModelCancelled => return Some(RunCancelled), answer;
        case ModelFailed => return Some(ModelError), answer;
        case ModelTimedOut => return Some(DeadlineExceeded), answer;
        case ModelAnswered(a) =>
          OneMoreAnswer(answers, a);
          answers, askedAt := answers + [a], askedAt + [tick];
          return None, a;
      }
    }

    /** The run is between two rounds: all answers asked for calls, and all of these were handled. */
    ghost predicate BetweenRounds(env: Envelope, scope: Option<PlanAction>, world: World)
      reads this
    {
      && Answered(world) && modelCalls == |answers| <= env.budget.maxSteps
      && CostOf(answers) <= env.budget.maxCostMicrounits && |AllCalls(answers)| <= env.budget.maxToolCalls
      && Handled(env, scope, world, AllCalls(answers), |AllCalls(answers)|, |AllCalls(answers)|)
      && forall i :: 0 <= i < |answers| ==> answers[i].calls != []
    }

    /** What the run's outcome says, after observations from `first` on. */
    ghost predicate Explains(env: Envelope, scope: Option<PlanAction>, world: World, first: nat, outcome: Outcome)
      reads this
    {
      match outcome
      case BudgetInvalid => !BudgetOk(env.budget)
      case RunCancelled => first < tick && Calm(env, world, first, tick - 1) && EndsAt(env, world, tick, RunCancelled)
      case DeadlineExceeded => first < tick && Calm(env, world, first, tick - 1) && EndsAt(env, world, tick, DeadlineExceeded)
      case ModelError => first < tick && Calm(env, world, first, tick - 1) && EndsAt(env, world, tick, ModelError)
      case OverSteps =>
        && first < tick && Calm(env, world, first, tick - 1) && !world.cancelled(tick)
        && |answers| == env.budget.maxSteps && |results| == |AllCalls(answers)|
      case OverCost =>
        && Calm(env, world, first, tick) && answers != []
        && CostOf(answers[..|answers| - 1]) <= env.budget.maxCostMicrounits < CostOf(answers)
      case OverToolCalls =>
        && Calm(env, world, first, tick) && answers != []
        && |AllCalls(answers[..|answers| - 1])| <= env.budget.maxToolCalls < |AllCalls(answers)|
        && |results| == |AllCalls(answers[..|answers| - 1])|
        && executed == Permitted(registry, env, scope, AllCalls(answers[..|answers| - 1]))
      case Completed(content, success) =>
        && Calm(env, world, first, tick) && answers != [] && answers[|answers| - 1].calls == []
        && content == answers[|answers| - 1].content
        && CostOf(answers) <= env.budget.maxCostMicrounits && |results| == |AllCalls(answers)|
        && (success <==> forall r :: r in results ==> r.success)
    }

    /** What every outcome leaves behind. */
    ghost predicate Leaves(env: Envelope, scope: Option<PlanAction>, world: World)
      reads this
    {
      && Answered(world) && modelCalls <= env.budget.maxSteps && |answers| <= modelCalls <= |answers| + 1
      && |executed| <= env.budget.maxToolCalls && |results| <= env.budget.maxToolCalls
      && InOrder(env, scope, world, AllCalls(answers))
      && forall i :: 0 <= i < |answers| - 1 ==> answers[i].calls != []
    }

    /** The last answer asks for calls that are not handled yet. */
    ghost predicate Asked(env: Envelope, scope: Option<PlanAction>, world: World, earlier: seq<ToolCall>, answer: Answer)
      reads this
    {
      && Answered(world) && modelCalls == |answers| <= env.budget.maxSteps
      && CostOf(answers) <= env.budget.maxCostMicrounits && |earlier| <= env.budget.maxToolCalls
      && answers != [] && answers[|answers| - 1] == answer && AllCalls(answers[..|answers| - 1]) == earlier
      && AllCalls(answers) == earlier + answer.calls
      && Handled(env, scope, world, earlier, |earlier|, |earlier|)
      && forall i :: 0 <= i < |answers| ==> answers[i].calls != []
    }

    lemma HandledLonger(env: Envelope, scope: Option<PlanAction>, world: World, calls: seq<ToolCall>, more: seq<ToolCall>)
      requires Handled(env, scope, world, calls, |calls|, |calls|)
      ensures Handled(env, scope, world, calls + more, |calls|, |calls|)
    {
      assert calls[..|calls|] == calls && (calls + more)[..|calls|] == calls;
      hide Permitted, WentWell;
    }

    /** The first half of a round: a model call, and its cost. */
    method Ask(env: Envelope, scope: Option<PlanAction>, world: World, ghost first: nat, stepCount: nat, totalCost: nat)
      returns (stop: Option<Outcome>, cost: nat, answer: Answer)
      requires BudgetOk(env.budget) && BetweenRounds(env, scope, world) && first <= tick && Calm(env, world, first, tick)
      requires stepCount == modelCalls && totalCost == CostOf(answers)
      modifies this`tick, this`modelCalls, this`answers, this`askedAt
      ensures stop.Some? ==>
        stop.value != BudgetInvalid && Leaves(env, scope, world) && Explains(env, scope, world, first, stop.value)
      ensures stop.None? ==>
        && Asked(env, scope, world, old(AllCalls(answers)), answer) && modelCalls == stepCount + 1
        && first <= tick && Calm(env, world, first, tick) && cost == CostOf(answers)
    {
      hide MayRun, MaySimulate, Gate, CostOf, AllCalls, Permitted, WentWell, EndsAt, Calm;
      ghost var before, taken, earlier := tick, answers, AllCalls(answers);
      stop, answer := AskModel(env, world, stepCount);
      cost := totalCost;
      if stop.Some? {
        return;
      }
      assert answers[..|answers| - 1] == taken;
      CalmOn(env, world, first, before, tick);
      HandledLonger(env, scope, world, earlier, answer.calls);
      cost := SaturatingAdd(cost, answer.cost);
      if cost > env.budget.maxCostMicrounits {
        stop := Some(OverCost);
      } else if answer.calls == [] {
        assert earlier + answer.calls == earlier;
        stop := Some(Completed(answer.content, forall r :: r in results ==> r.success));
      }
    }

    /** The second half: the calls the answer asks for, unless they are too many. */
    method Act(env: Envelope, scope: Option<PlanAction>, world: World, ghost first: nat, ghost earlier: seq<ToolCall>,
               answer: Answer, toolCallCount: nat)
      returns (stop: Option<Outcome>, calls: nat)
      requires BudgetOk(env.budget) && Asked(env, scope, world, earlier, answer)
      requires first <= tick && Calm(env, world, first, tick) && toolCallCount == |earlier|
      modifies this`tick, this`results, this`executed, this`ranAt
      ensures stop.Some? ==>
        stop.value != BudgetInvalid && Leaves(env, scope, world) && Explains(env, scope, world, first, stop.value)
      ensures stop.None? ==>
        && BetweenRounds(env, scope, world) && first <= tick && Calm(env, world, first, tick) && calls == |AllCalls(answers)|
    {
      hide MayRun, MaySimulate, Gate, CostOf, AllCalls, Permitted, WentWell, EndsAt, Calm;
      ghost var before := tick;
      HandledLonger(env, scope, world, earlier, answer.calls);
      assert earlier[..|earlier|] == earlier;
      calls := SaturatingAdd32(toolCallCount, |answer.calls|);
      if calls > env.budget.maxToolCalls {
        stop := Some(OverToolCalls);
        return;
      }
      stop := CallTools(env, scope, world, earlier, answer.calls);
      if stop.Some? {
        CalmOn(env, world, first, before, tick - 1);
      } else {
        CalmOn(env, world, first, before, tick);
      }
    }

    /** `run_with_cancellation_and_scope`. Whatever the model proposes: at most `maxSteps` model calls,
        at most `maxToolCalls` tools run, each of them permitted by the gate (so none with a side
        effect in a dry run), in the order proposed, and none of a batch that exceeds the budget. Nothing
        happens after the first observation of a cancellation or of the deadline. */
    method Run(env: Envelope, scope: Option<PlanAction>, world: World) returns (outcome: Outcome)
      requires modelCalls == 0 && answers == [] && results == [] && executed == [] && askedAt == [] && ranAt == []
      modifies this
      ensures Leaves(env, scope, world)
      ensures outcome == BudgetInvalid <==> !BudgetOk(env.budget)
      ensures Explains(env, scope, world, old(tick), outcome)
    {
      hide MayRun, CostOf, AllCalls, Permitted, WentWell, EndsAt, Calm;
      ghost var first := tick;
      CalmYet(env, world, tick);
      NothingYet();
      EmptyPermitted(env, scope);
      assert Handled(env, scope, world, AllCalls(answers), 0, 0);
      if !BudgetOk(env.budget) {
        return BudgetInvalid;
      }
      var stepCount, toolCallCount, totalCost := 0, 0, 0;
      while true
        invariant BetweenRounds(env, scope, world) && first <= tick && Calm(env, world, first, tick)
        invariant stepCount == modelCalls && totalCost == CostOf(answers) && toolCallCount == |AllCalls(answers)|
        decreases env.budget.maxSteps - stepCount
      {
        ghost var earlier := AllCalls(answers);
        var stop, answer;
        stop, totalCost, answer := Ask(env, scope, world, first, stepCount, totalCost);
        if stop.Some? {
          return stop.value;
        }
        stop, toolCallCount := Act(env, scope, world, first, earlier, answer, toolCallCount);
        if stop.Some? {
          return stop.value;
        }
        stepCount := stepCount + 1;
      }
    }

    lemma EmptyPermitted(env: Envelope, scope: Option<PlanAction>)
      ensures Permitted(registry, env, scope, []) == []
    {
    }
  }
}
