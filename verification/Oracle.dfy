/** The benchmark's oracle and its scoring of strategies (scripts/run_judge_benchmark.py:502-664). */
module Oracle {
  import opened Domain
  import Policy

  // The public facts of a case, the hidden truth it is scored against, and the cost settings.
  datatype Case = Case(amount: real, domain: RecoveryDomain, category: FailureCategory, health: Option<RouteStatus>)

  datatype Truth = Truth(conversion: RecoveryAction -> real, roll: real, hardFraud: bool, systemic: bool)

  datatype Costs = Costs(operation: real, risk: real, highRisk: real, round: real -> real)

  const ACTIONS := [STOP_RECOVERY, RETRY_NOW, RETRY_LATER, GENERATE_PAYMENT_LINK, SEND_REMINDER,
                    REQUEST_PAYMENT_METHOD_UPDATE, ESCALATE_TO_HUMAN]

  /** The rounding to two digits: it keeps order and zero, and amounts that are already rounded have rounded
      differences. */
  ghost predicate IsRounding(round: real -> real) {
    && (forall x, y | x <= y :: round(x) <= round(y))
    && round(0.0) == 0.0
    && (forall x, y :: round(round(x) - round(y)) == round(x) - round(y))
  }

  predicate Admissible(c: Case, a: RecoveryAction) {
    && Policy.Evaluate(a, c.domain, c.category, c.health).0 != REJECTED
    && !(c.domain == EMPLOYEE && a == GENERATE_PAYMENT_LINK)
  }

  predicate Recovers(t: Truth, a: RecoveryAction) { t.conversion(a) > 0.0 && t.roll <= t.conversion(a) }

  function CostOf(k: Costs, a: RecoveryAction): real { if a != STOP_RECOVERY then k.operation else 0.0 }

  // What the oracle charges for the risk of an action.
  function OracleRisk(k: Costs, t: Truth, a: RecoveryAction): real {
    if t.hardFraud && IsRetry(a) then k.highRisk
    else if t.systemic && a == RETRY_NOW then k.highRisk
    else if a != STOP_RECOVERY then k.risk
    else 0.0
  }

  // What a strategy is charged for it: with a fraud block nothing but retries.
  function StrategyRisk(k: Costs, t: Truth, a: RecoveryAction): real {
    if t.hardFraud then (if IsRetry(a) then k.highRisk else 0.0)
    else if t.systemic && a == RETRY_NOW then k.highRisk
    else if a != STOP_RECOVERY then k.risk
    else 0.0
  }

  function OracleNet(c: Case, t: Truth, k: Costs, a: RecoveryAction): real {
    k.round((if Recovers(t, a) then c.amount else 0.0) - CostOf(k, a) - OracleRisk(k, t, a))
  }

  function StrategyNet(c: Case, t: Truth, k: Costs, a: RecoveryAction): real {
    var converts := Recovers(t, a) && !(c.domain == EMPLOYEE && a == GENERATE_PAYMENT_LINK);
    k.round((if converts then c.amount else 0.0) - CostOf(k, a) - StrategyRisk(k, t, a))
  }

  // The best net value over the first `n` actions, starting from stopping with nothing.
  function BestTo(c: Case, t: Truth, k: Costs, n: nat): real
    requires n <= |ACTIONS|
  {
    if n == 0 then 0.0
    else
      var best, a := BestTo(c, t, k, n - 1), ACTIONS[n - 1];
      if Admissible(c, a) && OracleNet(c, t, k, a) > best then OracleNet(c, t, k, a) else best
  }

  function OracleValue(c: Case, t: Truth, k: Costs): real { BestTo(c, t, k, |ACTIONS|) }

  datatype OracleInfo = OracleInfo(action: RecoveryAction, net: real, recovered: bool, gross: real)

  /** compute_oracle_for_case: the loop finds the best net value. Its action is admissible and earns that
      value with the gross amount reported, unless nothing beats doing nothing at all. */
  method ComputeOracle(c: Case, t: Truth, k: Costs) returns (o: OracleInfo)
    ensures o.net == OracleValue(c, t, k)
    ensures o == OracleInfo(STOP_RECOVERY, 0.0, false, 0.0)
            || (o.action in ACTIONS && Admissible(c, o.action) && o.net == OracleNet(c, t, k, o.action)
                && o.recovered == Recovers(t, o.action) && o.gross == if o.recovered then c.amount else 0.0)
  {
    o := OracleInfo(STOP_RECOVERY, 0.0, false, 0.0);
    var i := 0;
    while i < |ACTIONS|
      invariant 0 <= i <= |ACTIONS| && o.net == BestTo(c, t, k, i)
      invariant o == OracleInfo(STOP_RECOVERY, 0.0, false, 0.0)
                || (o.action in ACTIONS && Admissible(c, o.action) && o.net == OracleNet(c, t, k, o.action)
                    && o.recovered == Recovers(t, o.action) && o.gross == if o.recovered then c.amount else 0.0)
    {
      var a := ACTIONS[i];
      if Admissible(c, a) {
        var recovered := Recovers(t, a);
        var gross := if recovered then c.amount else 0.0;
        var net := k.round(gross - CostOf(k, a) - OracleRisk(k, t, a));
        if net > o.net || (net == o.net && a == STOP_RECOVERY) {
          o := OracleInfo(a, net, recovered, gross);
        }
      }
      i := i + 1;
    }
  }

  function Max(x: real, y: real): real { if x >= y then x else y }

  function Regret(c: Case, t: Truth, k: Costs, a: RecoveryAction): real {
    k.round(Max(0.0, OracleValue(c, t, k) - StrategyNet(c, t, k, a)))
  }

  /** The scoring of one decision. */
  method EvaluateStrategyOutcome(c: Case, t: Truth, k: Costs, a: RecoveryAction, o: OracleInfo)
    returns (net: real, regret: real)
    requires o.net == OracleValue(c, t, k)
    ensures net == StrategyNet(c, t, k, a) && regret == Regret(c, t, k, a)
  {
    var recovered := Recovers(t, a);
    if c.domain == EMPLOYEE && a == GENERATE_PAYMENT_LINK {
      recovered := false;
    }
    var amount := if recovered then c.amount else 0.0;
    var cost := if a != STOP_RECOVERY then k.operation else 0.0;
    var risk;
    if t.hardFraud {
      risk := if IsRetry(a) then k.highRisk else 0.0;
    } else if t.systemic && a == RETRY_NOW {
      risk := k.highRisk;
    } else if a != STOP_RECOVERY {
      risk := k.risk;
    } else {
      risk := 0.0;
    }
    net := k.round(amount - cost - risk);
    regret := k.round(Max(0.0, o.net - net));
  }

  lemma {:induction false} BestIsUpperBound(c: Case, t: Truth, k: Costs, n: nat, i: nat)
    requires i < n <= |ACTIONS| && Admissible(c, ACTIONS[i])
    ensures OracleNet(c, t, k, ACTIONS[i]) <= BestTo(c, t, k, n)
  {
    if i < n - 1 { BestIsUpperBound(c, t, k, n - 1, i); }
  }

  lemma {:induction false} BestIsNotNegative(c: Case, t: Truth, k: Costs, n: nat)
    requires n <= |ACTIONS|
    ensures BestTo(c, t, k, n) >= 0.0
    ensures BestTo(c, t, k, n) == 0.0 || exists i :: 0 <= i < n && Admissible(c, ACTIONS[i]) && BestTo(c, t, k, n) == OracleNet(c, t, k, ACTIONS[i])
  {
    if n > 0 {
      BestIsNotNegative(c, t, k, n - 1);
    }
  }

  /** The oracle's value is the best an admissible action can earn, or nothing: a least upper bound. */
  lemma OracleIsBest(c: Case, t: Truth, k: Costs, a: RecoveryAction)
    requires a in ACTIONS && Admissible(c, a)
    ensures 0.0 <= OracleValue(c, t, k) && OracleNet(c, t, k, a) <= OracleValue(c, t, k)
  {
    var i :| 0 <= i < |ACTIONS| && ACTIONS[i] == a;
    BestIsUpperBound(c, t, k, |ACTIONS|, i);
    BestIsNotNegative(c, t, k, |ACTIONS|);
  }

  ghost predicate Exact(round: real -> real) { forall x :: round(x) == x }

  /** What a strategy is paid and charged, cost by cost, without rounding: the amount exactly when the truth
      converts, payroll links excepted; the operation for everything but stopping; the high risk for retries on
      fraud and, otherwise, for an immediate retry in a systemic outage; and the ordinary risk for all other
      actions but stopping, fraud excepted. */
  lemma StrategyIsCharged(c: Case, t: Truth, k: Costs, a: RecoveryAction, more: real)
    requires Exact(k.round)
    ensures StrategyNet(c, t, k.(operation := 0.0, risk := 0.0, highRisk := 0.0), a)
            == if t.conversion(a) > 0.0 && t.roll <= t.conversion(a) && (c.domain == EMPLOYEE ==> a != GENERATE_PAYMENT_LINK)
               then c.amount else 0.0
    ensures StrategyNet(c, t, k.(operation := k.operation + more), a)
            == StrategyNet(c, t, k, a) - if a == STOP_RECOVERY then 0.0 else more
    ensures StrategyNet(c, t, k.(highRisk := k.highRisk + more), a)
            == StrategyNet(c, t, k, a)
               - if (t.hardFraud && (a == RETRY_NOW || a == RETRY_LATER)) || (!t.hardFraud && t.systemic && a == RETRY_NOW)
                 then more else 0.0
    ensures StrategyNet(c, t, k.(risk := k.risk + more), a)
            == StrategyNet(c, t, k, a)
               - if t.hardFraud || a == STOP_RECOVERY || (t.systemic && a == RETRY_NOW) then 0.0 else more
  {
  }

  /** The oracle's actions are paid and charged alike, except that payroll links are not excepted (they are not
      admissible) and that fraud does not waive the ordinary risk. */
  lemma OracleIsCharged(c: Case, t: Truth, k: Costs, a: RecoveryAction, more: real)
    requires Exact(k.round)
    ensures OracleNet(c, t, k.(operation := 0.0, risk := 0.0, highRisk := 0.0), a)
            == if t.conversion(a) > 0.0 && t.roll <= t.conversion(a) then c.amount else 0.0
    ensures OracleNet(c, t, k.(operation := k.operation + more), a)
            == OracleNet(c, t, k, a) - if a == STOP_RECOVERY then 0.0 else more
    ensures OracleNet(c, t, k.(highRisk := k.highRisk + more), a)
            == OracleNet(c, t, k, a)
               - if (t.hardFraud && (a == RETRY_NOW || a == RETRY_LATER)) || (t.systemic && a == RETRY_NOW) then more else 0.0
    ensures OracleNet(c, t, k.(risk := k.risk + more), a)
            == OracleNet(c, t, k, a)
               - if a == STOP_RECOVERY || (t.hardFraud && a == RETRY_LATER) || ((t.hardFraud || t.systemic) && a == RETRY_NOW)
                 then 0.0 else more
  {
  }

  /** The oracle considers every action but waiting, and admits those that the gate does not reject: what needs
      review counts as admissible. */
  lemma OracleConsiders(c: Case, a: RecoveryAction)
    ensures a in ACTIONS <==> a != WAIT
    ensures !Admissible(c, a) <==>
              || ((a == RETRY_NOW || a == RETRY_LATER) && c.category == NON_RETRIABLE)
              || (a == GENERATE_PAYMENT_LINK && c.domain == EMPLOYEE)
              || (a == RETRY_NOW && c.domain != B2B && (c.health == Some(DEGRADED) || c.health == Some(CRITICAL)))
  {
    Policy.RejectedIff(a, c.domain, c.category, c.health);
    assert ACTIONS[0] == STOP_RECOVERY && ACTIONS[1] == RETRY_NOW && ACTIONS[2] == RETRY_LATER
        && ACTIONS[3] == GENERATE_PAYMENT_LINK && ACTIONS[4] == SEND_REMINDER
        && ACTIONS[5] == REQUEST_PAYMENT_METHOD_UPDATE && ACTIONS[6] == ESCALATE_TO_HUMAN;
  }

  // Where the oracle's value comes from.
  lemma OracleIsEarned(c: Case, t: Truth, k: Costs)
    ensures OracleValue(c, t, k) == 0.0
            || exists a :: a in ACTIONS && Admissible(c, a) && OracleValue(c, t, k) == OracleNet(c, t, k, a)
  {
    BestIsNotNegative(c, t, k, |ACTIONS|);
    if OracleValue(c, t, k) != 0.0 {
      var i :| 0 <= i < |ACTIONS| && Admissible(c, ACTIONS[i]) && OracleValue(c, t, k) == OracleNet(c, t, k, ACTIONS[i]);
      assert ACTIONS[i] in ACTIONS;
    }
  }

  lemma OracleIsRounded(c: Case, t: Truth, k: Costs) returns (x: real)
    requires k.round(0.0) == 0.0
    ensures OracleValue(c, t, k) == k.round(x)
  {
    OracleIsEarned(c, t, k);
    if OracleValue(c, t, k) == 0.0 {
      x := 0.0;
    } else {
      var a :| a in ACTIONS && Admissible(c, a) && OracleValue(c, t, k) == OracleNet(c, t, k, a);
      x := (if Recovers(t, a) then c.amount else 0.0) - CostOf(k, a) - OracleRisk(k, t, a);
    }
  }

  lemma StrategyIsRounded(c: Case, t: Truth, k: Costs, a: RecoveryAction) returns (x: real)
    ensures StrategyNet(c, t, k, a) == k.round(x)
  {
    var converts := Recovers(t, a) && !(c.domain == EMPLOYEE && a == GENERATE_PAYMENT_LINK);
    x := (if converts then c.amount else 0.0) - CostOf(k, a) - StrategyRisk(k, t, a);
  }

  // The case's account balances: what the oracle earns is what the strategy earned plus its regret.
  predicate Balances(c: Case, t: Truth, k: Costs, a: RecoveryAction) {
    OracleValue(c, t, k) == StrategyNet(c, t, k, a) + Regret(c, t, k, a)
  }

  lemma RoundedDifference(round: real -> real, x: real, y: real, best: real, net: real)
    requires IsRounding(round) && best == round(x) && net == round(y)
    ensures best == net + round(Max(0.0, best - net)) <==> net <= best
  {
    assert round(round(x) - round(y)) == round(x) - round(y);
  }

  /** The account balances exactly when the strategy does not beat the oracle. */
  lemma BalancesIffNotBeaten(c: Case, t: Truth, k: Costs, a: RecoveryAction)
    requires IsRounding(k.round)
    ensures Balances(c, t, k, a) <==> StrategyNet(c, t, k, a) <= OracleValue(c, t, k)
  {
    var x := OracleIsRounded(c, t, k);
    var y := StrategyIsRounded(c, t, k, a);
    RoundedDifference(k.round, x, y, OracleValue(c, t, k), StrategyNet(c, t, k, a));
  }

  /** Outside fraud blocks an admissible listed action never beats the oracle, so the clamp at zero never
      acts and the account balances. */
  lemma AdmissibleActionsBalance(c: Case, t: Truth, k: Costs, a: RecoveryAction)
    requires IsRounding(k.round) && !t.hardFraud && a in ACTIONS && Admissible(c, a)
    ensures StrategyNet(c, t, k, a) == OracleNet(c, t, k, a) <= OracleValue(c, t, k)
    ensures Balances(c, t, k, a)
  {
    OracleIsBest(c, t, k, a);
    BalancesIffNotBeaten(c, t, k, a);
  }

  /* ---- A cohort ---- */

  datatype Decision = Decision(kase: Case, truth: Truth, action: RecoveryAction)

  function TotalOracle(cohort: seq<Decision>, k: Costs): real {
    if cohort == [] then 0.0
    else OracleValue(cohort[0].kase, cohort[0].truth, k) + TotalOracle(cohort[1..], k)
  }

  function TotalStrategy(cohort: seq<Decision>, k: Costs): real {
    if cohort == [] then 0.0
    else StrategyNet(cohort[0].kase, cohort[0].truth, k, cohort[0].action) + TotalStrategy(cohort[1..], k)
  }

  function TotalRegret(cohort: seq<Decision>, k: Costs): real {
    if cohort == [] then 0.0
    else Regret(cohort[0].kase, cohort[0].truth, k, cohort[0].action) + TotalRegret(cohort[1..], k)
  }

  /** Over any cohort without fraud blocks and with admissible listed actions, total oracle value is total
      strategy value plus total regret. */
  lemma {:induction false} CohortBalances(cohort: seq<Decision>, k: Costs)
    requires IsRounding(k.round)
    requires forall i | 0 <= i < |cohort| ::
               !cohort[i].truth.hardFraud && cohort[i].action in ACTIONS && Admissible(cohort[i].kase, cohort[i].action)
    ensures TotalOracle(cohort, k) == TotalStrategy(cohort, k) + TotalRegret(cohort, k)
  {
    if cohort != [] {
      AdmissibleActionsBalance(cohort[0].kase, cohort[0].truth, k, cohort[0].action);
      CohortBalances(cohort[1..], k);
    }
  }

  /* ---- Fraud blocks ---- */

  lemma IdentityIsRounding(round: real -> real)
    requires forall x :: round(x) == x
    ensures IsRounding(round)
  {
  }

  // A fraud block that only `a` gets through.
  function OnlyThrough(a: RecoveryAction): Truth {
    Truth((b: RecoveryAction) => if b == a then 1.0 else 0.0, 0.5, true, false)
  }

  /** Why fraud blocks must be left out. The two functions charge their risk differently: with exact
      amounts and non-negative costs, the account balances under every fraud truth if and only if the
      action is a retry or a stop, the ordinary risk penalty is zero, or the amount does not exceed the
      cost of acting. */
  lemma FraudBalancesIff(c: Case, k: Costs, a: RecoveryAction)
    requires forall x :: k.round(x) == x
    requires k.operation >= 0.0 && k.risk >= 0.0 && k.highRisk >= 0.0 && c.amount >= 0.0
    requires a in ACTIONS && Admissible(c, a)
    ensures (forall t: Truth | t.hardFraud :: Balances(c, t, k, a))
            <==> a == STOP_RECOVERY || IsRetry(a) || k.risk == 0.0 || c.amount <= k.operation
  {
    IdentityIsRounding(k.round);
    if a == STOP_RECOVERY || IsRetry(a) || k.risk == 0.0 || c.amount <= k.operation {
      forall t: Truth | t.hardFraud ensures Balances(c, t, k, a) {
        FraudBalances(c, t, k, a);
      }
    } else {
      FraudBeatsOracle(c, k, a);
    }
  }

  lemma FraudBalances(c: Case, t: Truth, k: Costs, a: RecoveryAction)
    requires IsRounding(k.round) && (forall x :: k.round(x) == x) && t.hardFraud
    requires k.operation >= 0.0 && k.risk >= 0.0 && c.amount >= 0.0
    requires a in ACTIONS && Admissible(c, a)
    requires a == STOP_RECOVERY || IsRetry(a) || k.risk == 0.0 || c.amount <= k.operation
    ensures Balances(c, t, k, a)
  {
    OracleIsBest(c, t, k, a);
    BalancesIffNotBeaten(c, t, k, a);
  }

  // With a truth that only `a` gets through, everything else earns nothing.
  lemma OthersEarnNothing(c: Case, k: Costs, a: RecoveryAction, b: RecoveryAction)
    requires (forall x :: k.round(x) == x) && k.operation >= 0.0 && k.risk >= 0.0 && k.highRisk >= 0.0 && b != a
    ensures OracleNet(c, OnlyThrough(a), k, b) <= 0.0
  {
    assert !Recovers(OnlyThrough(a), b);
  }

  lemma OnlyOneEarns(c: Case, k: Costs, a: RecoveryAction)
    requires (forall x :: k.round(x) == x) && a != STOP_RECOVERY && !IsRetry(a) && Admissible(c, a)
    ensures OracleNet(c, OnlyThrough(a), k, a) == c.amount - k.operation - k.risk
    ensures StrategyNet(c, OnlyThrough(a), k, a) == c.amount - k.operation
  {
    assert Recovers(OnlyThrough(a), a);
  }

  lemma FraudBeatsOracle(c: Case, k: Costs, a: RecoveryAction)
    requires forall x :: k.round(x) == x
    requires k.operation >= 0.0 && k.risk > 0.0 && k.highRisk >= 0.0 && c.amount > k.operation
    requires a in ACTIONS && Admissible(c, a) && a != STOP_RECOVERY && !IsRetry(a)
    ensures OnlyThrough(a).hardFraud && !Balances(c, OnlyThrough(a), k, a)
  {
    var t := OnlyThrough(a);
    IdentityIsRounding(k.round);
    OracleIsEarned(c, t, k);
    OnlyOneEarns(c, k, a);
    forall b | b in ACTIONS ensures OracleNet(c, t, k, b) < c.amount - k.operation {
      if b != a { OthersEarnNothing(c, k, a, b); }
    }
    BalancesIffNotBeaten(c, t, k, a);
  }
}
