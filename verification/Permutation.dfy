/** The order in which a plan lists its steps is immaterial: to its digest, its validity, its
    executability and the step a claim selects. */
module Permutation {
  import opened Base
  import opened PlanCore
  import opened PlanVerification
  import opened PlanTransactions

  /** The same plan with its steps listed in another order. */
  predicate Permuted(a: PlanSpec, b: PlanSpec) {
    b == a.(steps := b.steps) && multiset(a.steps) == multiset(b.steps)
  }

  /** Steps that share an identifier are the same step. */
  predicate Consistent(steps: seq<PlanStep>) {
    forall s, t :: s in steps && t in steps && s.id == t.id ==> s == t
  }

  lemma SameMembers(a: seq<PlanStep>, b: seq<PlanStep>)
    requires multiset(a) == multiset(b)
    ensures forall s :: s in a <==> s in b
    ensures |a| == |b|
  {
    forall s ensures s in a <==> s in b {
      assert s in a <==> s in multiset(a);
      assert s in b <==> s in multiset(b);
    }
    assert |multiset(a)| == |a| && |multiset(b)| == |b|;
  }

  // ----- sorting -----

  predicate SortedById(s: seq<PlanStep>) {
    forall i, j :: 0 <= i < j < |s| ==> s[i].id <= s[j].id
  }

  lemma {:induction false} InsertSorts(x: PlanStep, s: seq<PlanStep>)
    requires SortedById(s)
    ensures SortedById(InsertById(x, s)) && multiset(InsertById(x, s)) == multiset(s) + multiset{x}
  {
    if s != [] && s[0].id < x.id {
      InsertSorts(x, s[1..]);
      PrefixedSorted(x, s, InsertById(x, s[1..]));
    }
  }

  lemma PrefixedSorted(x: PlanStep, s: seq<PlanStep>, rest: seq<PlanStep>)
    requires s != [] && SortedById(s) && SortedById(rest) && s[0].id < x.id
    requires multiset(rest) == multiset(s[1..]) + multiset{x}
    ensures SortedById([s[0]] + rest) && multiset([s[0]] + rest) == multiset(s) + multiset{x}
  {
    assert s == [s[0]] + s[1..];
    forall k | 0 <= k < |rest| ensures s[0].id <= rest[k].id {
      assert rest[k] in multiset(rest);
      assert rest[k] in s[1..] || rest[k] == x;
    }
  }

  lemma {:induction false} SortSorts(s: seq<PlanStep>)
    ensures SortedById(SortById(s)) && multiset(SortById(s)) == multiset(s)
  {
    if s != [] {
      SortSorts(s[1..]);
      InsertSorts(s[0], SortById(s[1..]));
      assert s == [s[0]] + s[1..];
    }
  }

  lemma {:induction false} SortedUnique(a: seq<PlanStep>, b: seq<PlanStep>)
    requires SortedById(a) && SortedById(b) && multiset(a) == multiset(b) && Consistent(a)
    ensures a == b
  {
    SameMembers(a, b);
    if a != [] {
      SameHead(a, b);
      WithoutHead(a);
      WithoutHead(b);
      hide SortedById, Consistent;
      SortedUnique(a[1..], b[1..]);
    }
  }

  lemma SameHead(a: seq<PlanStep>, b: seq<PlanStep>)
    requires SortedById(a) && SortedById(b) && Consistent(a) && |a| == |b| > 0
    requires forall s :: s in a <==> s in b
    ensures a[0] == b[0] && SortedById(a[1..]) && SortedById(b[1..]) && Consistent(a[1..])
  {
    assert a[0] in b && b[0] in a;
  }

  lemma WithoutHead(a: seq<PlanStep>)
    requires a != []
    ensures multiset(a[1..]) == multiset(a) - multiset{a[0]} && a == [a[0]] + a[1..]
  {
    assert a == [a[0]] + a[1..];
  }

  /** Sorting undoes any reordering of consistent steps. */
  lemma SortForgetsOrder(a: seq<PlanStep>, b: seq<PlanStep>)
    requires multiset(a) == multiset(b) && Consistent(a)
    ensures SortById(a) == SortById(b)
  {
    SortSorts(a);
    SortSorts(b);
    SameMembers(a, SortById(a));
    SortedUnique(SortById(a), SortById(b));
  }

  // ----- the digest -----

  function WithId(s: seq<PlanStep>, id: StepId): seq<PlanStep> {
    if s == [] then [] else (if s[0].id == id then [s[0]] else []) + WithId(s[1..], id)
  }

  lemma {:induction false} InsertIsStable(x: PlanStep, s: seq<PlanStep>, id: StepId)
    ensures WithId(InsertById(x, s), id) == (if x.id == id then [x] else []) + WithId(s, id)
  {
    hide WithId;
    if s == [] || x.id <= s[0].id {
      WithIdOfHead(x, s, id);
    } else {
      assert s == [s[0]] + s[1..];
      WithIdOfHead(s[0], s[1..], id);
      InsertIsStable(x, s[1..], id);
      WithIdOfHead(s[0], InsertById(x, s[1..]), id);
    }
  }

  lemma WithIdOfHead(x: PlanStep, s: seq<PlanStep>, id: StepId)
    ensures WithId([x] + s, id) == (if x.id == id then [x] else []) + WithId(s, id)
  {
    assert ([x] + s)[1..] == s;
  }

  lemma {:induction false} SortIsStable(s: seq<PlanStep>, id: StepId)
    ensures WithId(SortById(s), id) == WithId(s, id)
  {
    if s != [] {
      SortIsStable(s[1..], id);
      InsertIsStable(s[0], SortById(s[1..]), id);
    }
  }

  lemma {:induction false} WithIdOfSum(a: seq<PlanStep>, b: seq<PlanStep>, id: StepId)
    ensures WithId(a + b, id) == WithId(a, id) + WithId(b, id)
  {
    if a == [] {
      assert a + b == b;
    } else {
      hide WithId;
      WithIdOfSum(a[1..], b, id);
      assert a == [a[0]] + a[1..] && a + b == [a[0]] + (a[1..] + b);
      WithIdOfHead(a[0], a[1..], id);
      WithIdOfHead(a[0], a[1..] + b, id);
    }
  }

  /** Exchanging two different steps with one identifier shows through the (stable) sort. */
  lemma ExchangeShows(steps: seq<PlanStep>, i: nat, j: nat)
    requires i < j < |steps| && steps[i].id == steps[j].id && steps[i] != steps[j]
    ensures SortById(steps[i := steps[j]][j := steps[i]]) != SortById(steps)
  {
    var id := steps[i].id;
    var other := steps[i := steps[j]][j := steps[i]];
    var front, back, back2 := steps[..i], steps[i + 1..], other[i + 1..];
    assert steps == front + ([steps[i]] + back);
    assert other == front + ([steps[j]] + back2);
    WithIdOfSum(front, [steps[i]] + back, id);
    WithIdOfSum(front, [steps[j]] + back2, id);
    assert WithId([steps[i]] + back, id)[0] == steps[i];
    assert WithId([steps[j]] + back2, id)[0] == steps[j];
    assert WithId(steps, id)[|WithId(front, id)|] == steps[i];
    assert WithId(other, id)[|WithId(front, id)|] == steps[j];
    SortIsStable(steps, id);
    SortIsStable(other, id);
  }

  lemma Exchange(steps: seq<PlanStep>, i: nat, j: nat)
    requires i < j < |steps|
    ensures multiset(steps[i := steps[j]][j := steps[i]]) == multiset(steps)
  {
  }

  /** The digest ignores the order of the steps exactly when steps that share an identifier are equal;
      in particular for every plan with unique identifiers. */
  lemma DigestIgnoresOrder(a: PlanSpec)
    ensures (forall b :: Permuted(a, b) ==> CalculateDigest(b) == CalculateDigest(a)) <==> Consistent(a.steps)
  {
    hide SortById;
    if Consistent(a.steps) {
      forall b | Permuted(a, b) ensures CalculateDigest(b) == CalculateDigest(a) {
        SortForgetsOrder(a.steps, b.steps);
      }
    } else {
      var i, j := Clash(a.steps);
      hide Consistent;
      var b := a.(steps := a.steps[i := a.steps[j]][j := a.steps[i]]);
      Exchange(a.steps, i, j);
      ExchangeShows(a.steps, i, j);
      assert Permuted(a, b) && Canonical(b).steps != Canonical(a).steps;
    }
  }

  lemma Clash(steps: seq<PlanStep>) returns (i: nat, j: nat)
    requires !Consistent(steps)
    ensures i < j < |steps| && steps[i].id == steps[j].id && steps[i] != steps[j]
  {
    var s, t :| s in steps && t in steps && s.id == t.id && s != t;
    var m :| 0 <= m < |steps| && steps[m] == s;
    var n :| 0 <= n < |steps| && steps[n] == t;
    i, j := if m < n then m else n, if m < n then n else m;
  }

  /** The digest commits to everything but the order of the steps, the state and the creation time. */
  lemma DigestCommits(a: PlanSpec, b: PlanSpec)
    requires CalculateDigest(a) == CalculateDigest(b)
    ensures multiset(a.steps) == multiset(b.steps)
    ensures a == b.(steps := a.steps, digest := a.digest, state := a.state, createdAt := a.createdAt)
  {
    SortSorts(a.steps);
    SortSorts(b.steps);
    assert Canonical(a) == Canonical(b);
    assert a == Canonical(a).(steps := a.steps, digest := a.digest, state := a.state, createdAt := a.createdAt);
    assert b == Canonical(b).(steps := b.steps, digest := b.digest, state := b.state, createdAt := b.createdAt);
  }

  // ----- structural validity -----

  lemma {:induction false} UniqueIffCounted(steps: seq<PlanStep>)
    ensures |Ids(steps)| <= |steps|
    ensures UniqueIds(steps) <==> |Ids(steps)| == |steps|
  {
    if steps != [] {
      var n := |steps| - 1;
      var front := steps[..n];
      UniqueIffCounted(front);
      assert Ids(steps) == Ids(front) + {steps[n].id};
      if UniqueIds(steps) {
        assert UniqueIds(front) && steps[n].id !in Ids(front);
      } else if |Ids(steps)| == |steps| {
        assert steps[n].id !in Ids(front) && UniqueIds(front);
        forall i, j | 0 <= i < j < |steps| ensures steps[i].id != steps[j].id {
          if j == n {
            assert front[i] in front;
          } else {
            assert front[i].id != front[j].id;
          }
        }
      }
    }
  }

  lemma UniqueIsConsistent(steps: seq<PlanStep>)
    requires UniqueIds(steps)
    ensures Consistent(steps)
  {
  }

  lemma SameEdges(a: seq<PlanStep>, b: seq<PlanStep>)
    requires forall s :: s in a <==> s in b
    ensures Acyclic(a) ==> Acyclic(b)
  {
    forall x, y ensures DependsOn(a, x, y) <==> DependsOn(b, x, y) {
    }
    if Acyclic(a) {
      forall path ensures !IsCycle(b, path) {
        assert !IsCycle(a, path);
        assert forall i :: 0 <= i < |path| - 1 ==> (DependsOn(a, path[i], path[i + 1]) <==> DependsOn(b, path[i], path[i + 1]));
      }
    }
  }

  lemma ValidityOneWay(a: PlanSpec, b: PlanSpec)
    requires Permuted(a, b) && ValidStructure(a)
    ensures ValidStructure(b)
  {
    SameMembers(a.steps, b.steps);
    UniqueIffCounted(a.steps);
    UniqueIffCounted(b.steps);
    assert Ids(a.steps) == Ids(b.steps);
    SameEdges(a.steps, b.steps);
    hide Acyclic, UniqueIds, ValidStep;
  }

  lemma ValidityIgnoresOrder(a: PlanSpec, b: PlanSpec)
    requires Permuted(a, b)
    ensures ValidStructure(a) <==> ValidStructure(b)
  {
    hide ValidStructure;
    if ValidStructure(a) { ValidityOneWay(a, b); }
    if ValidStructure(b) { ValidityOneWay(b, a); }
  }

  // ----- executability -----

  lemma FoundByIdentity(a: seq<PlanStep>, b: seq<PlanStep>, id: StepId)
    requires UniqueIds(a) && UniqueIds(b) && forall s :: s in a <==> s in b
    ensures FindStep(a, id) == FindStep(b, id)
  {
    var x, y := FindStep(a, id), FindStep(b, id);
    if x.Some? {
      assert x.value in b;
      assert y.Some?;
      SameIdSameStep(b, x.value, y.value);
    }
  }

  lemma {:induction false} StrictestRank(steps: seq<PlanStep>)
    ensures forall s :: s in steps ==> s.RequiredApproval().Rank() <= RequiredOfSteps(steps).Rank()
    ensures RequiredOfSteps(steps) == NoApproval || exists s :: s in steps && s.RequiredApproval() == RequiredOfSteps(steps)
  {
    if steps != [] {
      StrictestRank(steps[1..]);
      assert steps == [steps[0]] + steps[1..];
      if RequiredOfSteps(steps) != NoApproval && RequiredOfSteps(steps) == RequiredOfSteps(steps[1..]) {
        var s :| s in steps[1..] && s.RequiredApproval() == RequiredOfSteps(steps[1..]);
        assert s in steps;
      }
    }
  }

  lemma SameRequirement(a: seq<PlanStep>, b: seq<PlanStep>)
    requires forall s :: s in a <==> s in b
    ensures RequiredOfSteps(a) == RequiredOfSteps(b)
  {
    StrictestRank(a);
    StrictestRank(b);
    assert RequiredOfSteps(a).Rank() <= RequiredOfSteps(b).Rank();
    assert RequiredOfSteps(b).Rank() <= RequiredOfSteps(a).Rank();
  }

  /** Everything the verifier looks up in the plan is the same. */
  ghost predicate SameLookups(a: PlanSpec, b: PlanSpec) {
    && b == a.(steps := b.steps) && (forall s :: s in a.steps <==> s in b.steps) && |a.steps| == |b.steps|
    && (forall id :: FindStep(a.steps, id) == FindStep(b.steps, id))
    && RequiredApproval(a) == RequiredApproval(b)
    && (DigestOk(a) <==> DigestOk(b))
  }

  lemma PermutedLookups(a: PlanSpec, b: PlanSpec)
    requires Permuted(a, b) && UniqueIds(a.steps)
    ensures SameLookups(a, b)
  {
    SameMembers(a.steps, b.steps);
    UniqueIffCounted(a.steps);
    UniqueIffCounted(b.steps);
    assert Ids(a.steps) == Ids(b.steps);
    UniqueIsConsistent(a.steps);
    SortForgetsOrder(a.steps, b.steps);
    SameRequirement(a.steps, b.steps);
    hide UniqueIds;
    forall id ensures FindStep(a.steps, id) == FindStep(b.steps, id) {
      FoundByIdentity(a.steps, b.steps, id);
    }
  }

  lemma SameApproval(a: PlanSpec, b: PlanSpec, scope: Option<StepId>, ctx: Context)
    requires SameLookups(a, b)
    ensures HasApproval(a, scope, ctx) <==> HasApproval(b, scope, ctx)
  {
    hide RequiredApproval, DigestOk, FindStep;
    forall p ensures ApprovalValidFor(p, a, scope, ctx.now) <==> ApprovalValidFor(p, b, scope, ctx.now) {
    }
  }

  lemma SameEvaluation(a: PlanSpec, b: PlanSpec, conditions: seq<Condition>, ctx: Context)
    requires SameLookups(a, b)
    ensures ConditionsMet(a, conditions, ctx) <==> ConditionsMet(b, conditions, ctx)
  {
    forall c ensures Evaluate(a, c, ctx) == Evaluate(b, c, ctx) {
      if c.ApprovalExists? {
        SameApproval(a, b, c.scope, ctx);
      }
    }
    hide Evaluate, SameLookups;
  }

  lemma SameShape(limits: Limits, a: PlanSpec, b: PlanSpec, s: PlanStep)
    requires SameLookups(a, b)
    ensures ShapeOk(limits, a, s) <==> ShapeOk(limits, b, s)
  {
    hide FindStep, RequiredApproval, DigestOk;
    forall c ensures ReferenceResolves(a, c) <==> ReferenceResolves(b, c) {
    }
  }

  lemma SamePhase(a: PlanSpec, b: PlanSpec, ctx: Context)
    requires SameLookups(a, b)
    ensures PhaseMet(a, ctx) <==> PhaseMet(b, ctx)
  {
    SameApproval(a, b, None, ctx);
    if ctx.targetStep.Some? {
      SameApproval(a, b, ctx.targetStep, ctx);
      var found := FindStep(a.steps, ctx.targetStep.value);
      if found.Some? {
        SameEvaluation(a, b, found.value.preconditions, ctx);
        SameEvaluation(a, b, found.value.postconditions, ctx);
      }
    }
    hide HasApproval, ConditionsMet, RequiredApproval, DigestOk, FindStep;
  }

  lemma ExecutabilityIgnoresOrder(limits: Limits, a: PlanSpec, b: PlanSpec, ctx: Context)
    requires Permuted(a, b)
    ensures Executable(limits, a, ctx) <==> Executable(limits, b, ctx)
  {
    ValidityIgnoresOrder(a, b);
    if ValidStructure(a) {
      PermutedLookups(a, b);
      SamePhase(a, b, ctx);
      forall s ensures ShapeOk(limits, a, s) <==> ShapeOk(limits, b, s) {
        SameShape(limits, a, b, s);
      }
    }
    hide ValidStructure, PhaseMet, ShapeOk, DigestOk, RequiredApproval, FindStep, Permuted;
  }

  // ----- selection -----

  /** The same rows, over a plan that lists its steps in another order. */
  lemma SelectionIgnoresOrder(rec: PlanRec, b: PlanSpec, task: TaskRow, ctx: ClaimContext, now: int)
    requires Permuted(rec.spec, b)
    ensures SelectStep(rec.(spec := b), task, ctx, now) == SelectStep(rec, task, ctx, now)
  {
    SameMembers(rec.spec.steps, b.steps);
    var other := rec.(spec := b);
    assert Permuted(Loaded(rec), Loaded(other));
    SameTargets(rec, other);
    hide Permuted, Executable, CompensationTargets;
    forall s ensures Claimable(rec, task, ctx, s, now) <==> Claimable(other, task, ctx, s, now) {
      ExecutabilityIgnoresOrder(DEFAULT_LIMITS, Loaded(rec), Loaded(other), StepReadyContext(rec, task, ctx, s.id, now));
    }
    hide Claimable;
    assert ClaimableIds(rec, task, ctx, now) == ClaimableIds(other, task, ctx, now);
  }

  lemma SameTargets(rec: PlanRec, other: PlanRec)
    requires other == rec.(spec := other.spec) && forall s :: s in rec.spec.steps <==> s in other.spec.steps
    ensures CompensationTargets(rec) == CompensationTargets(other)
  {
  }
}
