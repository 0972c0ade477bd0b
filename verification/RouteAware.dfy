/** Route health as an input to the recovery estimate (app/services/route_aware_probability.py). */
module RouteAware {
  import opened Domain
  import opened Numbers
  import opened Ranking
  import opened StableSort
  import opened Text

  datatype RouteState = HealthyRoute | OperationalRoute | DegradedRoute | CriticalRoute

  // The first of the three keys that says something.
  function RouteToken(status: string, state: string, summary: string): string {
    Strip(Upper(if status != "" then status else if state != "" then state else summary))
  }

  /** resolve_route_state; absent keys are empty strings, and no route health at all is three of them. */
  function ResolveRouteState(status: string, state: string, summary: string): RouteState {
    var token := RouteToken(status, state, summary);
    if token == "HEALTHY" then HealthyRoute
    else if token == "OPERATIONAL" then OperationalRoute
    else if token == "DEGRADED" then DegradedRoute
    else if token == "CRITICAL" then CriticalRoute
    else if Contains(token, "CRITICAL") then CriticalRoute
    else if Contains(token, "DEGRADED") then DegradedRoute
    else OperationalRoute
  }

  function RouteDiscount(state: RouteState, a: RecoveryAction): real {
    if !IsRetry(a) then 1.0
    else match state
      case HealthyRoute => 1.0
      case OperationalRoute => 1.0
      case DegradedRoute => 0.55
      case CriticalRoute => 0.15
  }

  /** RouteAwareProbabilityProvider.estimate around an inner estimate. */
  function Estimate(inner: RecoveryAction -> real, adjusted: bool, state: RouteState, a: RecoveryAction): real {
    var p := Clamp01(inner(a));
    if !adjusted then p else Clamp01(p * RouteDiscount(state, a))
  }

  function Wrapped(c: Context, adjusted: bool, state: RouteState): Context {
    c.(estimate := (a: RecoveryAction) => Estimate(c.estimate, adjusted, state, a))
  }

  // `c'` estimates retries no higher than `c` and everything else the same.
  ghost predicate Demotes(c: Context, c': Context) {
    && c' == c.(estimate := c'.estimate)
    && forall a :: if IsRetry(a) then Clamp01(c'.estimate(a)) <= Clamp01(c.estimate(a))
                   else Clamp01(c'.estimate(a)) == Clamp01(c.estimate(a))
  }

  lemma ScaleWithin(p: real, d: real)
    requires 0.0 <= p <= 1.0 && 0.0 <= d <= 1.0
    ensures 0.0 <= p * d <= p
  {
    assert p * d >= 0.0;
    assert p * (1.0 - d) >= 0.0;
  }

  lemma WrappingDemotes(c: Context, adjusted: bool, state: RouteState)
    ensures Demotes(c, Wrapped(c, adjusted, state))
  {
    var c' := Wrapped(c, adjusted, state);
    forall a ensures if IsRetry(a) then Clamp01(c'.estimate(a)) <= Clamp01(c.estimate(a))
                     else Clamp01(c'.estimate(a)) == Clamp01(c.estimate(a))
    {
      ScaleWithin(Clamp01(c.estimate(a)), RouteDiscount(state, a));
    }
  }

  /** What a route leaves of a retry: a certain one is worth 0.55 on a degraded and 0.15 on a critical route, any
      other its share of that; no other action, no other route and no unadjusted estimate is discounted. */
  lemma WhatRoutesLeave(inner: RecoveryAction -> real, state: RouteState, a: RecoveryAction)
    requires 0.0 <= inner(a) <= 1.0
    ensures Estimate(inner, false, state, a) == inner(a)
    ensures Estimate(inner, true, state, a) == inner(a) * Estimate(_ => 1.0, true, state, a)
    ensures Estimate(_ => 1.0, true, state, a) ==
            if a != RETRY_NOW && a != RETRY_LATER then 1.0
            else if state == DegradedRoute then 0.55 else if state == CriticalRoute then 0.15 else 1.0
  {
    ScaleWithin(inner(a), RouteDiscount(state, a));
    ScaleWithin(1.0, RouteDiscount(state, a));
  }

  lemma NetGrows(p: real, p': real, amount: real, cost: real, risk: real, round: real -> real)
    requires Monotone(round) && Clamp01(p) <= Clamp01(p')
    ensures ExpectedNetRecovery(p, amount, cost, risk, round) <= ExpectedNetRecovery(p', amount, cost, risk, round)
  {
    var q, q', amt := Clamp01(p), Clamp01(p'), AtLeast0(amount);
    assert q * amt <= q' * amt by { assert (q' - q) * amt >= 0.0; }
  }

  lemma DemotedValues(c: Context, c': Context, keep: RecoveryAction, retry: RecoveryAction)
    requires Monotone(c.round) && Demotes(c, c') && !IsRetry(keep) && IsRetry(retry)
    ensures Enr(c', keep) == Enr(c, keep) && Enr(c', retry) <= Enr(c, retry)
  {
    assert Clamp01(c'.estimate(keep)) == Clamp01(c.estimate(keep));
    assert Clamp01(c'.estimate(retry)) <= Clamp01(c.estimate(retry));
    NetGrows(c'.estimate(keep), c.estimate(keep), c.amount, c.cost, c.risk, c.round);
    NetGrows(c.estimate(keep), c'.estimate(keep), c.amount, c.cost, c.risk, c.round);
    NetGrows(c'.estimate(retry), c.estimate(retry), c.amount, c.cost, c.risk, c.round);
  }

  lemma KeysCompare(key: Keys, key': Keys, keep: RecoveryAction, retry: RecoveryAction)
    requires key'.value(keep) == key.value(keep) && key'.value(retry) <= key.value(retry)
    requires key'.tier(keep) == key.tier(keep) && key'.tier(retry) == key.tier(retry)
    ensures Less(key, keep, retry) ==> Less(key', keep, retry)
    ensures Tied(key, keep, retry) ==> Less(key', keep, retry) || Tied(key', keep, retry)
  {
  }

  lemma DemotedKeys(c: Context, c': Context, keep: RecoveryAction, retry: RecoveryAction)
    requires Monotone(c.round) && Demotes(c, c') && !IsRetry(keep) && IsRetry(retry)
    ensures Less(KeysOf(c), keep, retry) ==> Less(KeysOf(c'), keep, retry)
    ensures Tied(KeysOf(c), keep, retry) ==> Less(KeysOf(c'), keep, retry) || Tied(KeysOf(c'), keep, retry)
  {
    DemotedValues(c, c', keep, retry);
    KeysCompare(KeysOf(c), KeysOf(c'), keep, retry);
  }

  /** Discounting retries never lets one overtake an action of another kind that was ranked ahead of it,
      for any candidates, estimates, costs and route state. */
  lemma RetriesNeverOvertake(c: Context, c': Context, candidates: seq<RecoveryAction>, i: nat, j: nat)
    requires Monotone(c.round) && Demotes(c, c') && Distinct(candidates)
    requires i < |candidates| && j < |candidates| && !IsRetry(candidates[i]) && IsRetry(candidates[j])
    requires Before(Rank(c, candidates), candidates[i], candidates[j])
    ensures Before(Rank(c', candidates), candidates[i], candidates[j])
  {
    SortOrder(KeysOf(c), candidates, i, j);
    SortOrder(KeysOf(c'), candidates, i, j);
    DemotedKeys(c, c', candidates[i], candidates[j]);
  }

  /** On a route that is not unhealthy, or without the adjustment, wrapping changes no ranking at all. */
  lemma HealthyRoutesAreNeutral(c: Context, adjusted: bool, state: RouteState, candidates: seq<RecoveryAction>)
    requires adjusted ==> state == HealthyRoute || state == OperationalRoute
    ensures Rank(Wrapped(c, adjusted, state), candidates) == Rank(c, candidates)
  {
    var c' := Wrapped(c, adjusted, state);
    forall a ensures Enr(c', a) == Enr(c, a) {
      assert Clamp01(c'.estimate(a)) == Clamp01(c.estimate(a));
    }
    SortByKeys(KeysOf(c'), KeysOf(c), candidates);
  }

  lemma {:induction false} NotContained(s: string, word: string)
    requires word != "" && forall i | 0 <= i <= |s| - |word| :: s[i] != word[0]
    ensures !Contains(s, word)
  {
    if |word| <= |s| {
      assert s[0] != word[0];
      NotContained(s[1..], word);
    }
  }

  lemma NoOutageNamed()
    ensures !Contains("HEALTHY", "CRITICAL") && !Contains("HEALTHY", "DEGRADED")
    ensures !Contains("OPERATIONAL", "CRITICAL") && !Contains("OPERATIONAL", "DEGRADED")
    ensures !Contains("DEGRADED", "CRITICAL")
  {
    NotContained("OPERATIONAL", "CRITICAL");
    NotContained("OPERATIONAL", "DEGRADED");
    NotContained("DEGRADED", "CRITICAL");
  }

  // Anything that names an outage is read as one; CRITICAL wins over DEGRADED.
  lemma OutagesAreNamed(status: string, state: string, summary: string)
    ensures var token, r := RouteToken(status, state, summary), ResolveRouteState(status, state, summary);
      && (r == CriticalRoute || r == DegradedRoute <==> Contains(token, "CRITICAL") || Contains(token, "DEGRADED"))
      && (r == CriticalRoute <==> Contains(token, "CRITICAL"))
  {
    NoOutageNamed();
  }

  /** The first key that says something decides, and the others are not read. */
  lemma FirstKeyDecides(status: string, state: string, summary: string)
    ensures status != "" ==> ResolveRouteState(status, state, summary) == ResolveRouteState(status, "", "")
    ensures status == "" && state != "" ==> ResolveRouteState(status, state, summary) == ResolveRouteState("", state, "")
    ensures status == "" && state == "" && summary == "" ==> ResolveRouteState(status, state, summary) == OperationalRoute
    ensures ResolveRouteState(status, "", "") == ResolveRouteState("", status, "") == ResolveRouteState("", "", status)
  {
    assert Upper("") == "";
  }

  /** The wrapper as it is called, on the route health the context carries: no retry overtakes another kind of
      action ranked ahead of it, and where the health names no outage the ranking is as it was. */
  lemma WrappedRetriesNeverOvertake(c: Context, adjusted: bool, status: string, state: string, summary: string,
                                    candidates: seq<RecoveryAction>, i: nat, j: nat)
    requires Monotone(c.round) && Distinct(candidates)
    requires i < |candidates| && j < |candidates| && !IsRetry(candidates[i]) && IsRetry(candidates[j])
    requires Before(Rank(c, candidates), candidates[i], candidates[j])
    ensures var token, c' := RouteToken(status, state, summary), Wrapped(c, adjusted, ResolveRouteState(status, state, summary));
      && Before(Rank(c', candidates), candidates[i], candidates[j])
      && (!Contains(token, "CRITICAL") && !Contains(token, "DEGRADED") ==> Rank(c', candidates) == Rank(c, candidates))
  {
    var route := ResolveRouteState(status, state, summary);
    OutagesAreNamed(status, state, summary);
    WrappingDemotes(c, adjusted, route);
    RetriesNeverOvertake(c, Wrapped(c, adjusted, route), candidates, i, j);
    if !(route == CriticalRoute || route == DegradedRoute) {
      HealthyRoutesAreNeutral(c, adjusted, route, candidates);
    }
  }
}
