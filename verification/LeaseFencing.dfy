/** Fencing: a lease token commits at most one finish, and only while it is the task's own. */
module LeaseFencing {
  import opened Base
  import opened PlanCore
  import opened PlanTransactions
  import opened QueueModel
  import opened GovernedRuns
  import opened TaskFrames

  /** Issued once, held by no task any more. */
  predicate TokenDead(st: Store, token: nat) {
    token < st.nextToken && forall t :: t in st.tasks ==> st.tasks[t].leaseToken != Some(token)
  }

  /** A finish writes only for the current token of the task, strictly before the lease ends. Any other
      finish — stale token, expired lease, finished task — leaves the whole store as it was. */
  lemma FinishFenced(st: Store, e: Event)
    requires StoreOk(st) && Governed(st, e) && e.op.OpFinish? && Apply(st, e) != st
    ensures e.op.task in st.tasks && HoldsLease(st.tasks[e.op.task], e.op.token, e.now)
    ensures st.tasks[e.op.task].status.IsLeased()
    ensures TokenDead(Apply(st, e), e.op.token)
  {
    hide StoreOk, Finish, Framed;
    FinishApplied(st, e);
    hide Apply;
    FinishFramed(st, e.op.task, e.op.tenant, e.op.token, e.op.result, e.op.failed, e.op.policy, e.op.ctx, e.now);
    FinishedTaskExists(st, e);
    TaskFacts(st, e.op.task);
    FramedKeys(st, Apply(st, e));
  }

  lemma FinishApplied(st: Store, e: Event)
    requires Governed(st, e) && e.op.OpFinish? && Apply(st, e) != st
    ensures var r := Finish(st, e.op.task, e.op.tenant, e.op.token, e.op.result, e.op.failed, e.op.policy, e.op.ctx, e.now);
            Attempt(st, e).Ok? && r.Ok? && Apply(st, e) == r.value.0
  {
    hide Finish;
  }

  lemma FramedKeys(st: Store, after: Store)
    requires Framed(st, after)
    ensures after.tasks.Keys == st.tasks.Keys
  {
  }

  lemma FinishedTaskExists(st: Store, e: Event)
    requires Governed(st, e) && e.op.OpFinish? && Attempt(st, e).Ok?
    ensures e.op.task in st.tasks
  {
    hide FinishPlanned, FinishDirect;
  }

  /** A dead token stays dead. */
  lemma DeadStaysDead(st: Store, e: Event, token: nat)
    requires StoreOk(st) && Governed(st, e) && TokenDead(st, token)
    ensures TokenDead(Apply(st, e), token)
  {
    StepFramed(st, e);
    hide StoreOk, Apply, Governed, SameIdentity;
    var after := Apply(st, e);
    forall t | t in after.tasks ensures after.tasks[t].leaseToken != Some(token) {
      if t in st.tasks {
        assert TaskMoved(st.tasks[t], after.tasks[t], st.nextToken, after.nextToken);
      }
    }
  }

  lemma RunLength(stores: seq<Store>, events: seq<Event>)
    requires IsRun(stores, events)
    ensures |stores| == |events| + 1
  {
    hide IsStep;
  }

  lemma {:induction false} DeadForever(stores: seq<Store>, events: seq<Event>, i: nat, j: nat, token: nat)
    requires IsRun(stores, events) && i <= j < |stores| && TokenDead(stores[i], token)
    ensures TokenDead(stores[j], token)
  {
    hide StoreOk, Apply, TokenDead, IsRun;
    if i < j {
      RunLength(stores, events);
      DeadForever(stores, events, i, j - 1, token);
      RunStep(stores, events, j - 1);
      DeadStaysDead(stores[j - 1], events[j - 1], token);
    }
  }

  /** Under any interleaving, each token commits at most one finish in the whole run. */
  lemma OneFinishPerToken(stores: seq<Store>, events: seq<Event>, i: nat, j: nat)
    requires IsRun(stores, events) && i < j < |events|
    requires events[i].op.OpFinish? && events[j].op.OpFinish? && events[i].op.token == events[j].op.token
    requires stores[i + 1] != stores[i]
    ensures stores[j + 1] == stores[j]
  {
    hide StoreOk, Apply, TokenDead, IsRun;
    RunLength(stores, events);
    RunStep(stores, events, i);
    RunStep(stores, events, j);
    FinishFenced(stores[i], events[i]);
    DeadForever(stores, events, i + 1, j, events[i].op.token);
    if stores[j + 1] != stores[j] {
      FinishFenced(stores[j], events[j]);
      DeadIsNotHeld(stores[j], events[j].op.token, events[j].op.task);
    }
  }

  lemma DeadIsNotHeld(st: Store, token: nat, id: TaskId)
    requires TokenDead(st, token) && id in st.tasks
    ensures st.tasks[id].leaseToken != Some(token)
  {
  }

  /** A token is held exactly while the task is running or has a cancellation pending, by one task. */
  lemma HeldWhileLeased(stores: seq<Store>, events: seq<Event>, i: nat, a: TaskId, b: TaskId)
    requires IsRun(stores, events) && i < |stores| && a in stores[i].tasks && b in stores[i].tasks
    ensures stores[i].tasks[a].leaseToken.Some? <==> stores[i].tasks[a].status in {TRunning, TCancelRequested}
    ensures stores[i].tasks[a].leaseToken.Some? && stores[i].tasks[a].leaseToken == stores[i].tasks[b].leaseToken ==> a == b
  {
    RunKeeps(stores, events, i);
    TaskFacts(stores[i], a);
  }

  /** A finished direct task never changes again. */
  lemma {:induction false} DirectTasksStayFinished(stores: seq<Store>, events: seq<Event>, i: nat, j: nat, t: TaskId)
    requires IsRun(stores, events) && i <= j < |stores| && t in stores[i].tasks
    requires stores[i].tasks[t].plan.None? && stores[i].tasks[t].status.IsTerminal()
    ensures t in stores[j].tasks && stores[j].tasks[t] == stores[i].tasks[t]
  {
    hide StoreOk, Apply, SameIdentity, IsRun;
    if i < j {
      RunLength(stores, events);
      DirectTasksStayFinished(stores, events, i, j - 1, t);
      RunStep(stores, events, j - 1);
      StepFramed(stores[j - 1], events[j - 1]);
      assert TaskMoved(stores[j - 1].tasks[t], stores[j].tasks[t], stores[j - 1].nextToken, stores[j].nextToken);
    }
  }

  // ----- retry delays -----

  lemma Pow2Positive(n: nat)
    ensures Pow2(n) >= 1
  {
  }

  /** For a base delay and a cap that are not negative, saturation never shows: the delay is exactly
      min(base * 2^min(attempts - 1, 10), cap). */
  lemma RetryDelayExact(attempts: nat, base: int, max: int)
    requires 1 <= attempts && 0 <= base <= I64_MAX && 0 <= max <= I64_MAX
    ensures var exponent := if attempts - 1 < 10 then attempts - 1 else 10;
            RetryDelay(attempts, base, max) == if base * Pow2(exponent) < max then base * Pow2(exponent) else max
  {
    var exponent := if attempts - 1 < 10 then attempts - 1 else 10;
    Pow2Positive(exponent);
    NonNegativeProduct(base, Pow2(exponent));
  }

  lemma NonNegativeProduct(a: int, b: int)
    requires 0 <= a && 0 <= b
    ensures 0 <= a * b
  {
  }
}
