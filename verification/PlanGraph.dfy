/** `ensure_acyclic` (crates/shaka-core/src/lib.rs): depth-first search over the dependency graph,
    decided against the declarative `Acyclic`. */
module PlanGraph {
  import opened Base
  import opened PlanCore

  ghost predicate DependenciesKnown(steps: seq<PlanStep>) {
    forall s :: s in steps ==> forall d :: d in s.dependsOn ==> d in Ids(steps)
  }

  /** Every listed step comes after all of its dependencies. */
  ghost predicate DependenciesFirst(steps: seq<PlanStep>, order: seq<StepId>) {
    forall i :: 0 <= i < |order| ==> DependenciesWithin(steps, order[i], order[..i])
  }

  ghost predicate DependenciesWithin(steps: seq<PlanStep>, id: StepId, earlier: seq<StepId>) {
    forall s, d :: s in steps && s.id == id && d in s.dependsOn ==> d in earlier
  }

  lemma ExtendOrder(steps: seq<PlanStep>, order: seq<StepId>, step: PlanStep)
    requires UniqueIds(steps) && step in steps && DependenciesFirst(steps, order)
    requires forall d :: d in step.dependsOn ==> d in order
    ensures DependenciesFirst(steps, order + [step.id])
  {
    var longer := order + [step.id];
    forall i | 0 <= i < |longer| ensures DependenciesWithin(steps, longer[i], longer[..i]) {
      if i < |order| {
        assert longer[..i] == order[..i];
        assert DependenciesWithin(steps, order[i], order[..i]);
      } else {
        assert longer[..i] == order;
      }
    }
  }

  lemma IndexedEdge(steps: seq<PlanStep>, byId: map<StepId, PlanStep>, id: StepId, d: StepId)
    requires Indexed(steps, byId) && id in byId && d in byId[id].dependsOn
    ensures DependsOn(steps, id, d)
  {
  }

  lemma ExtendPath(steps: seq<PlanStep>, path: seq<StepId>, id: StepId)
    requires IsPath(steps, path) && (path != [] ==> DependsOn(steps, path[|path| - 1], id))
    ensures IsPath(steps, path + [id])
  {
    var longer := path + [id];
    forall i | 0 <= i < |longer| - 1 ensures DependsOn(steps, longer[i], longer[i + 1]) {
      if i < |path| - 1 {
        assert DependsOn(steps, path[i], path[i + 1]);
      }
    }
  }

  lemma ShortenPath(steps: seq<PlanStep>, path: seq<StepId>, from: nat)
    requires IsPath(steps, path) && from <= |path|
    ensures IsPath(steps, path[from..])
  {
    var tail := path[from..];
    forall i | 0 <= i < |tail| - 1 ensures DependsOn(steps, tail[i], tail[i + 1]) {
      assert DependsOn(steps, path[from + i], path[(from + i) + 1]);
    }
  }

  /** Meeting a step that is still being visited closes a cycle. */
  lemma RevisitIsCycle(steps: seq<PlanStep>, stack: seq<StepId>, id: StepId)
    requires IsPath(steps, stack) && id in stack && DependsOn(steps, stack[|stack| - 1], id)
    ensures !Acyclic(steps)
  {
    var k :| 0 <= k < |stack| && stack[k] == id;
    ShortenPath(steps, stack, k);
    ExtendPath(steps, stack[k..], id);
    assert IsCycle(steps, stack[k..] + [id]);
  }

  ghost function Position(order: seq<StepId>, id: StepId): (p: nat)
    requires id in order
    ensures p < |order| && order[p] == id && id !in order[..p]
  {
    if order[0] == id then 0 else 1 + Position(order[1..], id)
  }

  /** Along a path, positions in a dependencies-first order strictly fall. */
  lemma {:induction false} PathDescends(steps: seq<PlanStep>, order: seq<StepId>, path: seq<StepId>, k: nat)
    requires DependenciesFirst(steps, order) && IsPath(steps, path) && k < |path|
    requires path[0] in order
    ensures path[k] in order && Position(order, path[k]) <= Position(order, path[0]) - k
  {
    if k > 0 {
      PathDescends(steps, order, path, k - 1);
      var p := Position(order, path[k - 1]);
      assert DependsOn(steps, path[k - 1], path[(k - 1) + 1]);
      assert DependenciesWithin(steps, order[p], order[..p]);
      FirstPosition(order, path[k], p);
    }
  }

  lemma FirstPosition(order: seq<StepId>, id: StepId, p: nat)
    requires p <= |order| && id in order[..p]
    ensures id in order && Position(order, id) < p
  {
    var q :| 0 <= q < p && order[q] == id;
    var first := Position(order, id);
    forall j | 0 <= j < first ensures order[j] != id {
      assert order[..first][j] == order[j];
    }
  }

  lemma OrderedIsAcyclic(steps: seq<PlanStep>, order: seq<StepId>)
    requires DependenciesFirst(steps, order)
    requires forall id :: id in Ids(steps) ==> id in order
    ensures Acyclic(steps)
  {
    forall path ensures !IsCycle(steps, path) {
      if IsCycle(steps, path) {
        assert DependsOn(steps, path[0], path[0 + 1]);
        assert path[0] in Ids(steps);
        PathDescends(steps, order, path, |path| - 1);
      }
    }
  }

  lemma VisitedDependenciesKnown(steps: seq<PlanStep>, order: seq<StepId>)
    requires DependenciesFirst(steps, order)
    requires forall id :: id in order <==> id in Ids(steps)
    ensures DependenciesKnown(steps)
  {
    forall s, d | s in steps && d in s.dependsOn ensures d in Ids(steps) {
      assert s.id in order;
      var k :| 0 <= k < |order| && order[k] == s.id;
      assert DependenciesWithin(steps, order[k], order[..k]);
      assert d in order[..k];
    }
  }

  ghost predicate Indexed(steps: seq<PlanStep>, byId: map<StepId, PlanStep>) {
    && UniqueIds(steps) && byId.Keys == Ids(steps)
    && forall id :: id in byId ==> byId[id] in steps && byId[id].id == id
  }

  /** The visited steps stand in an order with dependencies first. */
  ghost predicate IsDone(steps: seq<PlanStep>, order: seq<StepId>, visited: set<StepId>) {
    DependenciesFirst(steps, order) && forall x :: x in visited <==> x in order
  }

  lemma DoneToo(steps: seq<PlanStep>, byId: map<StepId, PlanStep>, order: seq<StepId>, visited: set<StepId>, id: StepId)
    requires Indexed(steps, byId) && id in byId && IsDone(steps, order, visited)
    requires forall d :: d in byId[id].dependsOn ==> d in visited
    ensures IsDone(steps, order + [id], visited + {id})
  {
    ExtendOrder(steps, order, byId[id]);
  }

  lemma UnknownDependency(steps: seq<PlanStep>, byId: map<StepId, PlanStep>, from: StepId, id: StepId)
    requires Indexed(steps, byId) && DependsOn(steps, from, id) && id !in byId
    ensures !DependenciesKnown(steps)
  {
  }

  class DepthFirstSearch {
    ghost const steps: seq<PlanStep>
    const byId: map<StepId, PlanStep>
    var visiting: set<StepId>
    var visited: set<StepId>
    ghost var stack: seq<StepId>
    ghost var order: seq<StepId>

    ghost predicate Valid()
      reads this
    {
      && Indexed(steps, byId)
      && (forall x :: x in visiting <==> x in stack) && IsPath(steps, stack)
      && IsDone(steps, order, visited) && visited <= byId.Keys
    }

    constructor (steps: seq<PlanStep>, byId: map<StepId, PlanStep>)
      requires Indexed(steps, byId)
      ensures Valid() && this.steps == steps && this.byId == byId
      ensures visiting == {} && stack == [] && visited == {}
    {
      this.steps, this.byId := steps, byId;
      visiting, visited, stack, order := {}, {}, [], [];
    }

    method Visit(id: StepId) returns (acyclic: bool)
      requires Valid()
      requires stack != [] ==> DependsOn(steps, stack[|stack| - 1], id)
      modifies this
      ensures Valid() && visiting == old(visiting) && stack == old(stack)
      ensures old(visited) <= visited
      ensures acyclic ==> id in visited
      ensures !acyclic && id in byId ==> !(Acyclic(steps) && DependenciesKnown(steps))
      decreases byId.Keys - visiting
    {
      hide Acyclic, DependenciesKnown, IsPath, DependsOn, IsDone, Indexed;
      if id in visited {
        return true;
      }
      if id in visiting {
        RevisitIsCycle(steps, stack, id);
        return false;
      }
      ghost var entered := visiting;
      ExtendPath(steps, stack, id);
      visiting := visiting + {id};
      stack := stack + [id];
      acyclic := false;
      if id in byId {
        var step := byId[id];
        acyclic := true;
        var i := 0;
        while i < |step.dependsOn| && acyclic
          invariant 0 <= i <= |step.dependsOn|
          invariant Valid() && visiting == entered + {id} && stack == old(stack) + [id]
          invariant old(visited) <= visited
          invariant acyclic ==> forall d :: d in step.dependsOn[..i] ==> d in visited
          invariant !acyclic ==> !(Acyclic(steps) && DependenciesKnown(steps))
        {
          IndexedEdge(steps, byId, id, step.dependsOn[i]);
          acyclic := Visit(step.dependsOn[i]);
          if step.dependsOn[i] !in byId {
            UnknownDependency(steps, byId, id, step.dependsOn[i]);
          }
          i := i + 1;
        }
      }
      visiting := visiting - {id};
      stack := stack[..|stack| - 1];
      assert stack == old(stack);
      if acyclic {
        DoneToo(steps, byId, order, visited, id);
        visited := visited + {id};
        order := order + [id];
      }
    }

    method VisitAll() returns (ok: bool)
      requires Valid() && stack == [] && visited == {}
      modifies this
      ensures Valid()
      ensures ok ==> visited == byId.Keys
      ensures !ok ==> !(Acyclic(steps) && DependenciesKnown(steps))
    {
      hide Acyclic, DependenciesKnown, IsPath, DependsOn, IsDone, Indexed;
      var ids := Ascending(byId.Keys);
      ok := true;
      var i := 0;
      while i < |ids| && ok
        invariant 0 <= i <= |ids| && Valid() && stack == []
        invariant ok ==> forall j :: 0 <= j < i ==> ids[j] in visited
        invariant !ok ==> !(Acyclic(steps) && DependenciesKnown(steps))
      {
        ok := Visit(ids[i]);
        i := i + 1;
      }
    }
  }

  method IndexById(steps: seq<PlanStep>) returns (byId: map<StepId, PlanStep>)
    ensures byId.Keys == Ids(steps)
    ensures forall id :: id in byId ==> byId[id] in steps && byId[id].id == id
  {
    byId := map[];
    for i := 0 to |steps|
      invariant forall id :: id in byId ==> byId[id] in steps && byId[id].id == id
      invariant forall j :: 0 <= j < i ==> steps[j].id in byId
    {
      byId := byId[steps[i].id := steps[i]];
    }
  }

  /** Ok exactly when every dependency is a known step and the graph has no cycle. */
  method EnsureAcyclic(steps: seq<PlanStep>) returns (ok: bool)
    requires UniqueIds(steps)
    ensures ok <==> Acyclic(steps) && DependenciesKnown(steps)
  {
    var byId := IndexById(steps);
    var search := new DepthFirstSearch(steps, byId);
    ok := search.VisitAll();
    if ok {
      OrderedIsAcyclic(steps, search.order);
      VisitedDependenciesKnown(steps, search.order);
    }
  }
}
