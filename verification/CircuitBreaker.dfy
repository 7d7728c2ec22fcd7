/** The circuit breaker (crates/shaka-queue/src/lib.rs) against the history of what was asked of it and
    what was recorded. */
module CircuitBreaker {
  import opened Base

  const U32_MAX: nat := 0xFFFF_FFFF

  datatype Config = Config(failureThreshold: nat, openFor: int) {
    predicate Ok() { failureThreshold <= U32_MAX }

    /** A threshold of zero still lets a fresh or recovered circuit be closed until its first failure. */
    function Limit(): nat { if failureThreshold == 0 then 1 else failureThreshold }
  }

  datatype CircuitState = Closed | Open | HalfOpen

  datatype Snapshot = Snapshot(state: CircuitState, failureCount: nat, openedAt: Option<int>, nextProbeAt: Option<int>)

  datatype Event = Asked(at: int) | SuccessRecorded | FailureRecorded(at: int)

  // ----- the history alone -----

  function FailuresSinceSuccess(h: seq<Event>): nat {
    if h == [] then 0
    else match h[|h| - 1]
      case SuccessRecorded => 0
      case FailureRecorded(_) => FailuresSinceSuccess(h[..|h| - 1]) + 1
      case Asked(_) => FailuresSinceSuccess(h[..|h| - 1])
  }

  function LastFailure(h: seq<Event>): Option<int> {
    if h == [] then None
    else if h[|h| - 1].FailureRecorded? then Some(h[|h| - 1].at)
    else LastFailure(h[..|h| - 1])
  }

  /** So many failures have followed the last success that the circuit is no longer closed. */
  predicate Tripped(c: Config, h: seq<Event>) {
    FailuresSinceSuccess(h) >= c.Limit()
  }

  /** The pause after the last failure is over. */
  predicate Due(c: Config, h: seq<Event>, at: int) {
    LastFailure(h).Some? && LastFailure(h).value + c.openFor <= at
  }

  /** Since the last recorded outcome, a call was let through on a tripped circuit. */
  predicate Probed(c: Config, h: seq<Event>) {
    h != [] && h[|h| - 1].Asked? &&
    var before := h[..|h| - 1];
    Probed(c, before) || (Tripped(c, before) && Due(c, before, h[|h| - 1].at))
  }

  /** When a call may start, said of the history. */
  predicate MayStart(c: Config, h: seq<Event>, at: int) {
    !Tripped(c, h) || (!Probed(c, h) && Due(c, h, at))
  }

  /** The snapshot that a history must have led to. */
  ghost predicate Reflects(c: Config, h: seq<Event>, s: Snapshot) {
    && (s.state == Closed <==> !Tripped(c, h))
    && (s.state == HalfOpen <==> Tripped(c, h) && Probed(c, h))
    && s.failureCount == (if FailuresSinceSuccess(h) < U32_MAX then FailuresSinceSuccess(h) else U32_MAX)
    && (s.state == Open ==> LastFailure(h).Some?)
    && (s.state == Open ==> s.openedAt == LastFailure(h))
    && (s.state == Open ==> s.nextProbeAt == Some(LastFailure(h).value + c.openFor))
    && (s.state != Open ==> s.nextProbeAt == None)
    && (s.state == Closed ==> s.openedAt == None)
  }

  lemma FailureAppended(c: Config, h: seq<Event>, at: int)
    ensures var more := h + [FailureRecorded(at)];
            && FailuresSinceSuccess(more) == FailuresSinceSuccess(h) + 1
            && LastFailure(more) == Some(at) && !Probed(c, more)
  {
    assert (h + [FailureRecorded(at)])[..|h|] == h;
  }

  class Breaker {
    const config: Config
    var snapshot: Snapshot
    ghost var history: seq<Event>

    ghost predicate Valid()
      reads this
    {
      config.Ok() && Reflects(config, history, snapshot)
    }

    constructor (config: Config)
      requires config.Ok()
      ensures Valid() && this.config == config && history == []
    {
      this.config := config;
      snapshot := Snapshot(Closed, 0, None, None);
      history := [];
    }

    method Allow(now: int) returns (allowed: bool)
      requires Valid()
      modifies this
      ensures Valid() && history == old(history) + [Asked(now)]
      ensures allowed == MayStart(config, old(history), now)
    {
      match snapshot.state {
        case Closed => allowed := true;
        case Open =>
          if snapshot.nextProbeAt.Some? && now >= snapshot.nextProbeAt.value {
            snapshot := snapshot.(state := HalfOpen, nextProbeAt := None);
            allowed := true;
          } else {
            allowed := false;
          }
        case HalfOpen => allowed := false;
      }
      history := history + [Asked(now)];
      assert history[..|history| - 1] == old(history);
    }

    method RecordSuccess()
      requires Valid()
      modifies this
      ensures Valid() && history == old(history) + [SuccessRecorded]
    {
      snapshot := snapshot.(state := Closed, failureCount := 0, openedAt := None, nextProbeAt := None);
      history := history + [SuccessRecorded];
      assert history[..|history| - 1] == old(history);
    }

    method RecordFailure(now: int)
      requires Valid()
      modifies this
      ensures Valid() && history == old(history) + [FailureRecorded(now)]
    {
      hide FailuresSinceSuccess, LastFailure, Probed;
      FailureAppended(config, history, now);
      var count := if snapshot.failureCount < U32_MAX then snapshot.failureCount + 1 else U32_MAX;
      snapshot := snapshot.(failureCount := count);
      if snapshot.state == HalfOpen || count >= config.failureThreshold {
        snapshot := snapshot.(state := Open, openedAt := Some(now), nextProbeAt := Some(now + config.openFor));
      }
      history := history + [FailureRecorded(now)];
    }
  }

  // ----- what the definition of MayStart means for whole histories -----

  /** Without a recorded outcome in between, nothing about the failures changes. */
  lemma {:induction false} AskingChangesNoFailures(c: Config, h: seq<Event>, i: nat, j: nat)
    requires i <= j <= |h| && forall k :: i <= k < j ==> h[k].Asked?
    ensures FailuresSinceSuccess(h[..j]) == FailuresSinceSuccess(h[..i])
    ensures LastFailure(h[..j]) == LastFailure(h[..i])
    ensures Probed(c, h[..i]) ==> Probed(c, h[..j])
    decreases j
  {
    if i < j {
      AskingChangesNoFailures(c, h, i, j - 1);
      assert h[..j][..j - 1] == h[..j - 1];
    }
  }

  /** Between two consecutive outcomes at most one call passes a circuit that is not closed. */
  lemma OneProbeBetweenOutcomes(c: Config, h: seq<Event>, i: nat, j: nat)
    requires i < j < |h| && forall k :: i <= k <= j ==> h[k].Asked?
    requires Tripped(c, h[..i]) && MayStart(c, h[..i], h[i].at)
    ensures Tripped(c, h[..j]) && !MayStart(c, h[..j], h[j].at)
  {
    assert h[..i + 1][..i] == h[..i];
    assert Probed(c, h[..i + 1]);
    AskingChangesNoFailures(c, h, i, j);
    AskingChangesNoFailures(c, h, i + 1, j);
  }

  /** A call passing a circuit that is not closed comes no earlier than the pause after the last
      failure. */
  lemma ProbeWaitsForThePause(c: Config, h: seq<Event>, at: int) returns (m: nat)
    requires Tripped(c, h) && MayStart(c, h, at)
    ensures m < |h| && h[m].FailureRecorded? && h[m].at + c.openFor <= at
    ensures forall k :: m < k < |h| ==> h[k].Asked?
  {
    m := FailuresSinceLast(c, h);
  }

  /** A tripped circuit has a last failure, and no success after it. */
  lemma {:induction false} FailuresSinceLast(c: Config, h: seq<Event>) returns (m: nat)
    requires Tripped(c, h)
    ensures m < |h| && h[m].FailureRecorded? && LastFailure(h) == Some(h[m].at)
    ensures forall k :: m < k < |h| ==> h[k].Asked?
  {
    if h == [] || h[|h| - 1].SuccessRecorded? {
      assert false;
    } else if h[|h| - 1].FailureRecorded? {
      m := |h| - 1;
    } else {
      m := FailuresSinceLast(c, h[..|h| - 1]);
    }
  }

  /** A threshold of at least one is met exactly: the circuit is closed iff fewer failures than the
      threshold followed the last success. With threshold zero that reading fails on the empty
      history. */
  lemma ThresholdMeaning(c: Config)
    ensures (forall h: seq<Event> :: Tripped(c, h) <==> FailuresSinceSuccess(h) >= c.failureThreshold)
       <==> c.failureThreshold >= 1
  {
    if c.failureThreshold == 0 {
      assert FailuresSinceSuccess([]) == 0;
      assert !Tripped(c, []);
    }
  }
}
