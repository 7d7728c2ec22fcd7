/** The order in which a plan runs: the claim follows the lexicographically least topological order of
    the dependencies, and never stalls on an acyclic plan. */
module Schedule {
  import opened Base
  import opened PlanCore
  import opened PlanGraph

  function ReadyIds(steps: seq<PlanStep>, done: set<StepId>): set<StepId> {
    set s | s in steps && s.id !in done && (forall d :: d in s.dependsOn ==> d in done) :: s.id
  }

  // ----- an unfinished acyclic plan always has a ready step -----

  /** A step outside `done` that is not ready depends on another one outside `done`. */
  lemma BlockedByUndone(steps: seq<PlanStep>, done: set<StepId>, id: StepId) returns (d: StepId)
    requires ReferencesKnown(steps) && ReadyIds(steps, done) == {} && id in Ids(steps) && id !in done
    ensures DependsOn(steps, id, d) && d in Ids(steps) && d !in done
  {
    var s :| s in steps && s.id == id;
    assert (forall d :: d in s.dependsOn ==> d in done) ==> s.id in ReadyIds(steps, done);
    d :| d in s.dependsOn && d !in done;
  }

  lemma {:induction false} LongPath(steps: seq<PlanStep>, done: set<StepId>, start: StepId, n: nat) returns (path: seq<StepId>)
    requires ReferencesKnown(steps) && ReadyIds(steps, done) == {} && start in Ids(steps) && start !in done
    ensures |path| == n + 1 && IsPath(steps, path)
    ensures forall x :: x in path ==> x in Ids(steps) - done
  {
    if n == 0 {
      path := [start];
    } else {
      var shorter := LongPath(steps, done, start, n - 1);
      var last := shorter[|shorter| - 1];
      assert last in shorter;
      var d := BlockedByUndone(steps, done, last);
      ExtendPath(steps, shorter, d);
      path := shorter + [d];
    }
  }

  lemma SomeStepReady(steps: seq<PlanStep>, done: set<StepId>)
    requires Acyclic(steps) && ReferencesKnown(steps) && !(Ids(steps) <= done)
    ensures ReadyIds(steps, done) != {}
  {
    if ReadyIds(steps, done) == {} {
      var start :| start in Ids(steps) && start !in done;
      var undone := Ids(steps) - done;
      var path := LongPath(steps, done, start, |undone|);
      if Distinct(path) {
        DistinctLength(path, undone);
      }
      var i, j :| 0 <= i < j < |path| && path[i] == path[j];
      ShortenPath(steps, path[..j + 1], i);
      assert IsCycle(steps, path[..j + 1][i..]);
    }
  }

  // ----- the greedy order -----

  ghost function Greedy(steps: seq<PlanStep>, done: set<StepId>): (order: seq<StepId>)
    requires Acyclic(steps) && ReferencesKnown(steps) && done <= Ids(steps)
    decreases Ids(steps) - done
  {
    if done == Ids(steps) then [] else
      SomeStepReady(steps, done);
      var next := MinOf(ReadyIds(steps, done));
      [next] + Greedy(steps, done + {next})
  }

  lemma GreedyOne(steps: seq<PlanStep>, done: set<StepId>)
    requires Acyclic(steps) && ReferencesKnown(steps) && done <= Ids(steps) && done != Ids(steps)
    ensures ReadyIds(steps, done) != {}
    ensures var next := MinOf(ReadyIds(steps, done));
            && next in Ids(steps) && next !in done
            && Greedy(steps, done) == [next] + Greedy(steps, done + {next})
  {
    SomeStepReady(steps, done);
    hide Acyclic, ReferencesKnown;
  }

  lemma GreedyEnd(steps: seq<PlanStep>, done: set<StepId>)
    requires Acyclic(steps) && ReferencesKnown(steps) && done == Ids(steps)
    ensures Greedy(steps, done) == []
  {
  }

  /** `order` completes `done`: every remaining step once, each after its dependencies. */
  ghost predicate Completes(steps: seq<PlanStep>, done: set<StepId>, order: seq<StepId>)
    decreases |order|
  {
    if order == [] then Ids(steps) <= done
    else order[0] in ReadyIds(steps, done) && Completes(steps, done + {order[0]}, order[1..])
  }

  lemma {:induction false} GreedyCompletes(steps: seq<PlanStep>, done: set<StepId>)
    requires Acyclic(steps) && ReferencesKnown(steps) && done <= Ids(steps)
    ensures Completes(steps, done, Greedy(steps, done))
    ensures |Greedy(steps, done)| == |Ids(steps) - done|
    decreases Ids(steps) - done
  {
    if done != Ids(steps) {
      SomeStepReady(steps, done);
      var next := MinOf(ReadyIds(steps, done));
      assert Ids(steps) - done == (Ids(steps) - (done + {next})) + {next};
      GreedyCompletes(steps, done + {next});
      assert ([next] + Greedy(steps, done + {next}))[1..] == Greedy(steps, done + {next});
    } else {
      assert Ids(steps) - done == {};
    }
  }

  predicate LexLeq(a: seq<nat>, b: seq<nat>) {
    if a == [] then true
    else if b == [] then false
    else a[0] < b[0] || (a[0] == b[0] && LexLeq(a[1..], b[1..]))
  }

  /** No topological order is lexicographically smaller than the greedy one. */
  lemma {:induction false} GreedyIsLeast(steps: seq<PlanStep>, done: set<StepId>, order: seq<StepId>)
    requires Acyclic(steps) && ReferencesKnown(steps) && done <= Ids(steps)
    requires Completes(steps, done, order)
    ensures LexLeq(Greedy(steps, done), order)
    decreases |order|
  {
    if done != Ids(steps) {
      SomeStepReady(steps, done);
      var next := MinOf(ReadyIds(steps, done));
      assert order != [] && next <= order[0];
      if next == order[0] {
        GreedyIsLeast(steps, done + {next}, order[1..]);
        assert ([next] + Greedy(steps, done + {next}))[1..] == Greedy(steps, done + {next});
      }
    }
  }

  /** The declarative reading of `Completes` from nothing: a topological order of all steps. */
  ghost predicate Topological(steps: seq<PlanStep>, order: seq<StepId>) {
    && Distinct(order) && (forall id :: id in order <==> id in Ids(steps))
    && DependenciesFirst(steps, order)
  }

  lemma {:induction false} TopologicalCompletes(steps: seq<PlanStep>, order: seq<StepId>, k: nat)
    requires UniqueIds(steps) && Topological(steps, order) && k <= |order|
    ensures Completes(steps, ToSet(order[..k]), order[k..])
    decreases |order| - k
  {
    var done := ToSet(order[..k]);
    if k == |order| {
      assert order[..k] == order;
      forall id | id in Ids(steps) ensures id in done {
        assert id in order[..k];
      }
    } else {
      var id := order[k];
      assert id in order;
      var s :| s in steps && s.id == id;
      assert DependenciesWithin(steps, order[k], order[..k]);
      assert id !in order[..k];
      assert s.id in ReadyIds(steps, done);
      TopologicalCompletes(steps, order, k + 1);
      assert order[..k + 1] == order[..k] + [id];
      assert ToSet(order[..k + 1]) == done + {id};
      assert order[k..][1..] == order[k + 1..];
    }
  }

  lemma {:induction false} CompletesIsTopological(steps: seq<PlanStep>, prefix: seq<StepId>, order: seq<StepId>)
    requires UniqueIds(steps) && Distinct(prefix) && (forall id :: id in prefix ==> id in Ids(steps))
    requires DependenciesFirst(steps, prefix) && Completes(steps, ToSet(prefix), order)
    ensures Topological(steps, prefix + order)
    decreases |order|
  {
    if order == [] {
      assert prefix + order == prefix;
      assert forall id :: id in Ids(steps) ==> id in ToSet(prefix);
    } else {
      var id := order[0];
      var s :| s in steps && s.id == id && s.id !in ToSet(prefix) && (forall d :: d in s.dependsOn ==> d in ToSet(prefix));
      ExtendOrder(steps, prefix, s);
      assert ToSet(prefix + [id]) == ToSet(prefix) + {id};
      CompletesIsTopological(steps, prefix + [id], order[1..]);
      assert prefix + [id] + order[1..] == prefix + order;
    }
  }

  /** The greedy order is a topological order, and the lexicographically least one. */
  lemma GreedyIsLeastTopological(steps: seq<PlanStep>, other: seq<StepId>)
    requires UniqueIds(steps) && Acyclic(steps) && ReferencesKnown(steps) && Topological(steps, other)
    ensures Topological(steps, Greedy(steps, {})) && LexLeq(Greedy(steps, {}), other)
  {
    GreedyCompletes(steps, {});
    assert ToSet<StepId>([]) == {};
    CompletesIsTopological(steps, [], Greedy(steps, {}));
    assert [] + Greedy(steps, {}) == Greedy(steps, {});
    TopologicalCompletes(steps, other, 0);
    assert other[..0] == [] && other[0..] == other;
    GreedyIsLeast(steps, {}, other);
  }
}
