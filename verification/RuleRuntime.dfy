/** Executing one matching rule package: `_execute` and `_dispatch_actions` of rule_runtime.py. */
module RuleRuntime {
  import opened Wrappers
  import opened RuleConditions
  import opened RuleStore

  datatype Action = Action(
    actionType: string, capability: string, template: string, domain: string, service: string,
    entityId: string, value: bool, reviewed: bool, riskClass: string)

  /** What a call of Home Assistant does. */
  datatype ServiceOutcome = Succeeds(requestId: string) | TimesOut | Fails

  datatype ServiceCall = ServiceCall(domain: string, service: string, entityId: string)

  datatype ActionResult = Succeeded(index: nat, requestId: string) | Failed(index: nat, reason: string)

  datatype Verdict = Hit | Skipped | EvaluationError(reason: Reason)

  datatype Exit = Existing | Executed(verdict: Verdict, results: seq<ActionResult>) | ReservationMissing

  predicate StartsWith(s: string, prefix: string) { prefix <= s }

  /** `_validate_action` */
  predicate Allowed(a: Action) {
    && a.actionType == "device_command"
    && a.capability == "light.power"
    && a.template == "set_light_power"
    && a.domain == "light"
    && a.service == (if a.value then "turn_on" else "turn_off")
    && StartsWith(a.entityId, "light.")
    && a.reviewed && a.riskClass == "non_destructive"
  }

  /** The calls an action list makes: one for each allowed action, in order. */
  function CallsOf(actions: seq<Action>): seq<ServiceCall> {
    if actions == [] then []
    else
      var last := actions[|actions| - 1];
      CallsOf(actions[..|actions| - 1]) + if Allowed(last) then [ServiceCall("light", last.service, last.entityId)] else []
  }

  function ResultOf(a: Action, index: nat, outcome: ServiceOutcome): ActionResult {
    if !Allowed(a) then Failed(index, "ha_service_call_failed")
    else
      match outcome
      case Succeeds(id) => Succeeded(index, id)
      case TimesOut => Failed(index, "ha_service_timeout")
      case Fails => Failed(index, "ha_service_call_failed")
  }

  /**
   One action is called exactly when it asks for the switching of a light that its value demands and has been
   reviewed as harmless; it succeeds exactly when it is called and the call does.
   */
  lemma OneActionMeans(a: Action, index: nat, outcome: ServiceOutcome)
    ensures var service := if a.value then "turn_on" else "turn_off";
      var permitted := a.actionType == "device_command" && a.capability == "light.power" && a.template == "set_light_power"
        && a.domain == "light" && a.service == service && "light." <= a.entityId
        && a.reviewed && a.riskClass == "non_destructive";
      && CallsOf([a]) == (if permitted then [ServiceCall("light", service, a.entityId)] else [])
      && (forall id :: ResultOf(a, index, outcome) == Succeeded(index, id) <==> permitted && outcome == Succeeds(id))
      && (ResultOf(a, index, outcome) == Failed(index, "ha_service_timeout") <==> permitted && outcome == TimesOut)
      && (ResultOf(a, index, outcome) == Failed(index, "ha_service_call_failed") <==> !permitted || outcome == Fails)
  {
    assert [a][..0] == [] && CallsOf([]) == [];
    assert "ha_service_timeout"[3] == "ha_service_call_failed"[3] && "ha_service_timeout"[11] != "ha_service_call_failed"[11];
  }

  /** The calls of a list are those of its actions, in order: none stops or changes another. */
  lemma {:induction false} CallsConcatenate(a: seq<Action>, b: seq<Action>)
    ensures CallsOf(a + b) == CallsOf(a) + CallsOf(b)
    decreases |b|
  {
    if b == [] {
      assert a + b == a;
    } else {
      assert (a + b)[..|a + b| - 1] == a + b[..|b| - 1];
      CallsConcatenate(a, b[..|b| - 1]);
    }
  }

  /** Whatever a package asks for, only reviewed power switching of lights reaches Home Assistant. */
  lemma {:induction false} OnlyLightsAreSwitched(actions: seq<Action>, c: ServiceCall)
    requires c in CallsOf(actions)
    ensures c.domain == "light" && (c.service == "turn_on" || c.service == "turn_off") && StartsWith(c.entityId, "light.")
    ensures exists a :: a in actions && Allowed(a) && a.entityId == c.entityId && a.service == c.service
    ensures |CallsOf(actions)| <= |actions|
  {
    CallsAreFew(actions);
    var front, last := actions[..|actions| - 1], actions[|actions| - 1];
    if c in CallsOf(front) { OnlyLightsAreSwitched(front, c); }
  }

  lemma {:induction false} CallsAreFew(actions: seq<Action>)
    ensures |CallsOf(actions)| <= |actions|
  {
    if actions != [] { CallsAreFew(actions[..|actions| - 1]); }
  }

  function Evaluate(condition: map<string, Json>, context: Json): Verdict {
    match EvaluateCondition(condition, context)
    case Ok(e) => if e.value == Bool(true) then Hit else Skipped
    case Err(reason) => EvaluationError(reason)
  }

  /** The clock readings of one execution: reserve, its prune, finalize, its prune. */
  datatype Times = Times(reserve: int, reservePrune: int, finalize: int, finalizePrune: int)

  class HomeAssistantLocalRuleRuntime {
    const store: LocalRuleStore
    var calls: seq<ServiceCall>   // every call made to Home Assistant

    constructor (store: LocalRuleStore)
      ensures this.store == store && calls == []
    {
      this.store := store;
      calls := [];
    }

    /** A failing action never stops the ones after it. */
    method DispatchActions(actions: seq<Action>, outcome: nat -> ServiceOutcome) returns (results: seq<ActionResult>)
      modifies this`calls
      ensures calls == old(calls) + CallsOf(actions)
      ensures |results| == |actions|
      ensures forall i :: 0 <= i < |actions| ==> results[i] == ResultOf(actions[i], i, outcome(i))
    {
      results := [];
      for i := 0 to |actions|
        invariant calls == old(calls) + CallsOf(actions[..i])
        invariant |results| == i && forall k :: 0 <= k < i ==> results[k] == ResultOf(actions[k], k, outcome(k))
      {
        assert actions[..i + 1][..i] == actions[..i];
        if Allowed(actions[i]) { calls := calls + [ServiceCall("light", actions[i].service, actions[i].entityId)]; }
        results := results + [ResultOf(actions[i], i, outcome(i))];
      }
      assert actions[..|actions|] == actions;
    }

    method Execute(key: string, condition: map<string, Json>, context: Json, actions: seq<Action>,
                   outcome: nat -> ServiceOutcome, times: Times) returns (exit: Exit)
      modifies this`calls, store`rows
      ensures key in old(store.rows) ==> exit == Existing && calls == old(calls) && store.rows == old(store.rows)
      ensures key !in old(store.rows) ==>
        var evaluated := EvaluateCondition(condition, context);
        && exit != Existing
        && calls == old(calls) + (if evaluated.Ok? && evaluated.value.value == Bool(true) then CallsOf(actions) else [])
      ensures key !in old(store.rows) && store.maxRows >= 1 && Newer(old(store.rows), times.reserve) ==>
        && exit.Executed?
        && key in store.rows && store.rows[key] == Execution(true, Pending, times.reserve, times.finalize)
      ensures exit.Executed? && exit.verdict == Hit ==>
        |exit.results| == |actions| && forall i :: 0 <= i < |actions| ==> exit.results[i] == ResultOf(actions[i], i, outcome(i))
      ensures exit.Executed? && exit.verdict != Hit ==> exit.results == []
      ensures exit.Executed? && EvaluateCondition(condition, context).Ok? ==>
        exit.verdict == if EvaluateCondition(condition, context).value.value == Bool(true) then Hit else Skipped
      ensures exit.Executed? && EvaluateCondition(condition, context).Err? ==>
        exit.verdict == EvaluationError(EvaluateCondition(condition, context).error)
    {
      var verdict := Evaluate(condition, context);
      var created := store.ReserveExecution(key, times.reserve, times.reservePrune);
      if !created { return Existing; }
      var results := [];
      if verdict == Hit { results := DispatchActions(actions, outcome); }
      var found := store.FinalizeExecution(key, times.finalize, times.finalizePrune);
      return if found then Executed(verdict, results) else ReservationMissing;
    }
  }
}
