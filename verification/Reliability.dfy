/**
 The circuit breaker and the bounded retry of src/zediot_ha_hub_connector/reliability.py.
 Each method is one critical section of the breaker's lock; the caller passes the clock reading.
 */
module Reliability {
  import opened Wrappers

  datatype Mode = Closed | Open | HalfOpen

  datatype Breaker = Breaker(mode: Mode, failures: nat, openedAt: Option<int>, generation: nat)

  datatype Permit = Permit(generation: nat, halfOpenProbe: bool)

  datatype Policy = Policy(threshold: int, recovery: int)

  const INITIAL := Breaker(Closed, 0, None, 0)

  function Allow(p: Policy, b: Breaker, now: int): (Breaker, Option<Permit>) {
    if b.mode == Closed then (b, Some(Permit(b.generation, false)))
    else if b.mode == HalfOpen || b.openedAt.None? then (b, None)
    else if now - b.openedAt.value < p.recovery then (b, None)
    else (b.(mode := HalfOpen), Some(Permit(b.generation, true)))
  }

  function Observe(b: Breaker): Permit {
    Permit(b.generation, b.mode == HalfOpen)
  }

  function Succeed(b: Breaker, permit: Permit): (Breaker, bool) {
    if permit.generation != b.generation then (b, false)
    else (b.(mode := Closed, failures := 0, openedAt := None), true)
  }

  function Fail(p: Policy, b: Breaker, now: int): Breaker {
    var c := b.(generation := b.generation + 1, failures := b.failures + 1);
    if c.mode == HalfOpen || c.failures >= p.threshold then c.(mode := Open, openedAt := Some(now)) else c
  }

  class CircuitBreaker {
    const policy: Policy
    var mode: Mode
    var failureCount: nat
    var openedAt: Option<int>
    var generation: nat

    function State(): Breaker reads this { Breaker(mode, failureCount, openedAt, generation) }

    constructor (policy: Policy)
      ensures State() == INITIAL && this.policy == policy
    {
      this.policy := policy;
      mode, failureCount, openedAt, generation := Closed, 0, None, 0;
    }

    method TryAllow(now: int) returns (permit: Option<Permit>)
      modifies this
      ensures (State(), permit) == Allow(policy, old(State()), now)
      ensures permit.Some? <==>
        old(mode) == Closed || (old(mode) == Open && old(openedAt).Some? && now >= old(openedAt).value + policy.recovery)
      ensures permit.Some? ==> permit.value.generation == generation && (permit.value.halfOpenProbe <==> old(mode) == Open)
      ensures mode == (if old(mode) == Open && permit.Some? then HalfOpen else old(mode))
      ensures failureCount == old(failureCount) && generation == old(generation) && openedAt == old(openedAt)
    {
      if mode == Closed { return Some(Permit(generation, false)); }
      if mode == HalfOpen || openedAt.None? { return None; }
      if now - openedAt.value < policy.recovery { return None; }
      mode := HalfOpen;
      return Some(Permit(generation, true));
    }

    /** The permit lets a success close the breaker for as long as no failure comes in between. */
    method ObserveNow() returns (permit: Permit)
      ensures permit == Observe(State())
      ensures Succeed(State(), permit) == (Breaker(Closed, 0, None, generation), true)
      ensures forall now :: !Succeed(Fail(policy, State(), now), permit).1
      ensures permit.halfOpenProbe ==> forall now :: Allow(policy, State(), now).1.None?
    {
      permit := Permit(generation, mode == HalfOpen);
    }

    method Success(permit: Permit) returns (applied: bool)
      modifies this
      ensures (State(), applied) == Succeed(old(State()), permit)
    {
      if permit.generation != generation { return false; }
      mode, failureCount, openedAt := Closed, 0, None;
      return true;
    }

    method Failure(now: int)
      modifies this
      ensures State() == Fail(policy, old(State()), now)
    {
      generation := generation + 1;
      failureCount := failureCount + 1;
      if mode == HalfOpen || failureCount >= policy.threshold {
        mode, openedAt := Open, Some(now);
      }
    }
  }

  // ---------- the breaker against its own call history ----------

  /** A call by any thread; `SuccessCall(i)` redeems the permit issued by the i-th call. */
  datatype Call = AllowCall(now: int) | ObserveCall | SuccessCall(issued: nat) | FailureCall(now: int)

  function Replay(p: Policy, calls: seq<Call>): Breaker
    decreases |calls|
  {
    if calls == [] then INITIAL
    else
      var before := calls[..|calls| - 1];
      var b := Replay(p, before);
      match calls[|calls| - 1]
      case AllowCall(now) => Allow(p, b, now).0
      case ObserveCall => b
      case FailureCall(now) => Fail(p, b, now)
      case SuccessCall(i) =>
        if i >= |before| then b
        else Succeed(b, Permit(Replay(p, before[..i]).generation, false)).0
  }

  function CountFailures(calls: seq<Call>): nat {
    if calls == [] then 0
    else CountFailures(calls[..|calls| - 1]) + if calls[|calls| - 1].FailureCall? then 1 else 0
  }

  predicate NoFailureFrom(calls: seq<Call>, i: nat) {
    forall k :: i <= k < |calls| ==> !calls[k].FailureCall?
  }

  /** Failures since the last success whose permit was not overtaken by a failure. */
  function FailuresSinceSuccess(calls: seq<Call>): nat {
    if calls == [] then 0
    else
      var before := calls[..|calls| - 1];
      match calls[|calls| - 1]
      case FailureCall(_) => FailuresSinceSuccess(before) + 1
      case SuccessCall(i) => if i < |before| && NoFailureFrom(before, i) then 0 else FailuresSinceSuccess(before)
      case _ => FailuresSinceSuccess(before)
  }

  lemma {:induction false} EqualCountsMeanNoFailure(calls: seq<Call>, i: nat)
    requires i <= |calls|
    ensures CountFailures(calls[..i]) <= CountFailures(calls)
    ensures CountFailures(calls[..i]) == CountFailures(calls) <==> NoFailureFrom(calls, i)
    decreases |calls|
  {
    if i == |calls| {
      assert calls[..i] == calls;
    } else {
      var before := calls[..|calls| - 1];
      EqualCountsMeanNoFailure(before, i);
      assert before[..i] == calls[..i];
      assert forall k :: i <= k < |before| ==> before[k] == calls[k];
    }
  }

  /** The breaker's counters and mode are functions of the history alone. */
  lemma {:induction false} BreakerRefinesHistory(p: Policy, calls: seq<Call>)
    ensures var b := Replay(p, calls);
      && b.generation == CountFailures(calls)
      && b.failures == FailuresSinceSuccess(calls)
      && (p.threshold >= 1 ==> (b.mode == Closed <==> FailuresSinceSuccess(calls) < p.threshold))
      && (b.mode != Closed ==> b.openedAt.Some?)
    decreases |calls|
  {
    if calls != [] {
      var before := calls[..|calls| - 1];
      BreakerRefinesHistory(p, before);
      match calls[|calls| - 1]
      case SuccessCall(i) =>
        if i < |before| {
          BreakerRefinesHistory(p, before[..i]);
          EqualCountsMeanNoFailure(before, i);
        }
      case _ =>
    }
  }

  /** A success takes effect exactly when no failure was recorded after its permit was issued. */
  lemma SuccessAppliesIffNotOvertaken(p: Policy, calls: seq<Call>, issued: nat, probe: bool)
    requires issued <= |calls|
    ensures Succeed(Replay(p, calls), Permit(Replay(p, calls[..issued]).generation, probe)).1
            <==> NoFailureFrom(calls, issued)
  {
    BreakerRefinesHistory(p, calls);
    BreakerRefinesHistory(p, calls[..issued]);
    EqualCountsMeanNoFailure(calls, issued);
  }

  /** The i-th call was an `allow` that handed out a half-open probe. */
  predicate IssuedProbe(p: Policy, calls: seq<Call>, i: nat) {
    && i < |calls|
    && calls[i].AllowCall?
    && var permit := Allow(p, Replay(p, calls[..i]), calls[i].now).1;
       permit.Some? && permit.value.halfOpenProbe
  }

  /** Without a failure, a half-open or closed breaker never goes (back) to open. */
  lemma {:induction false} OnlyFailuresOpen(p: Policy, calls: seq<Call>, i: nat)
    requires i <= |calls| && Replay(p, calls[..i]).mode != Open && NoFailureFrom(calls, i)
    ensures Replay(p, calls).mode != Open
    decreases |calls|
  {
    if i == |calls| {
      assert calls[..i] == calls;
    } else {
      var before := calls[..|calls| - 1];
      assert before[..i] == calls[..i];
      OnlyFailuresOpen(p, before, i);
    }
  }

  /** A second probe needs a failure after the first: never two probes in one half-open period. */
  lemma AtMostOneProbePerPeriod(p: Policy, calls: seq<Call>, i: nat, j: nat)
    requires i < j && IssuedProbe(p, calls, i) && IssuedProbe(p, calls, j)
    ensures exists k :: i < k < j && calls[k].FailureCall?
  {
    if forall k :: i < k < j ==> !calls[k].FailureCall? {
      assert calls[..i + 1][..i] == calls[..i];
      assert calls[..j][..i + 1] == calls[..i + 1];
      OnlyFailuresOpen(p, calls[..j], i + 1);
    }
  }

  /** The clock reading of the latest failure. */
  function LastFailure(calls: seq<Call>): Option<int> {
    if calls == [] then None
    else
      match calls[|calls| - 1]
      case FailureCall(now) => Some(now)
      case _ => LastFailure(calls[..|calls| - 1])
  }

  /**
   While the breaker is open, a probe is handed out exactly when the recovery interval has passed since the
   latest failure.
   */
  lemma {:induction false} ProbeWaitsForRecovery(p: Policy, calls: seq<Call>, now: int)
    ensures var b := Replay(p, calls);
      && (b.mode != Closed ==> LastFailure(calls).Some? && b.openedAt == LastFailure(calls))
      && (b.mode == Open ==> (Allow(p, b, now).1.Some? <==> now >= LastFailure(calls).value + p.recovery))
    decreases |calls|
  {
    if calls != [] {
      var before := calls[..|calls| - 1];
      ProbeWaitsForRecovery(p, before, now);
      OpenMeansThreshold(p, before);
    }
  }

  /** A breaker that is not closed has counted enough failures, so every further one renews its opening time. */
  lemma {:induction false} OpenMeansThreshold(p: Policy, calls: seq<Call>)
    ensures Replay(p, calls).mode != Closed ==> Replay(p, calls).failures >= p.threshold
    decreases |calls|
  {
    if calls != [] { OpenMeansThreshold(p, calls[..|calls| - 1]); }
  }

  /** Reachable breakers block uploads at every future time if and only if a probe is still out. */
  lemma BlockedForeverIffHalfOpen(p: Policy, calls: seq<Call>, since: int)
    ensures var b := Replay(p, calls);
      (forall now :: now >= since ==> Allow(p, b, now).1.None?) <==> b.mode == HalfOpen
  {
    BreakerRefinesHistory(p, calls);
    var b := Replay(p, calls);
    if b.mode == Open {
      var soon := b.openedAt.value + p.recovery;
      var now := if soon >= since then soon else since;
      assert Allow(p, b, now).1.Some?;
    } else if b.mode == Closed {
      assert Allow(p, b, since).1.Some?;
    }
  }

  // ---------- bounded retry ----------

  /** What one call of the operation does. */
  datatype Try<T> = Returns(value: T) | Raises(retryable: bool)

  datatype RetryExit<T> = Value(value: T) | GaveUp | BadBound

  /** Runs the operation until it returns, raises something final, or the bound is reached. */
  method RetryBounded<T>(script: nat -> Try<T>, maxAttempts: int) returns (exit: RetryExit<T>, calls: nat)
    ensures maxAttempts < 1 ==> exit == BadBound && calls == 0
    ensures maxAttempts >= 1 ==>
      && 1 <= calls <= maxAttempts
      && (forall k: nat :: k < calls - 1 ==> script(k) == Raises(true))
      && (exit.Value? <==> script(calls - 1).Returns?)
      && (exit.Value? ==> exit.value == script(calls - 1).value)
      && (script(calls - 1) == Raises(true) ==> calls == maxAttempts)
  {
    if maxAttempts < 1 { return BadBound, 0; }
    calls := 0;
    while true
      invariant 0 <= calls < maxAttempts
      invariant forall k: nat :: k < calls ==> script(k) == Raises(true)
      decreases maxAttempts - calls
    {
      var outcome := script(calls);
      calls := calls + 1;
      if outcome.Returns? { return Value(outcome.value), calls; }
      if calls == maxAttempts || !outcome.retryable { return GaveUp, calls; }
    }
  }
}
