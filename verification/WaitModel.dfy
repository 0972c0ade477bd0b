/** The finite-horizon WAIT decision (app/services/wait_ev.py), with exact reals in place of floats. */
module WaitModel {
  import opened Domain
  import opened CorridorChain
  import opened Numbers
  import opened Text

  const INTERVAL_MINUTES := 30.0
  const MAX_WAIT_STEPS := 4

  datatype WaitDecisionModel = WaitDecisionModel(
    amountAtRisk: real,
    baseProbability: real,
    state: ObservableState,
    delayCost: real,
    waitingCost: real,
    horizon: int)

  // The readiness of the model's corridor over time.
  function Curve(s: ObservableState): nat -> real { (k: nat) => Env(s, k) }

  function Uplift(env: nat -> real, k: nat): real {
    if env(k) > env(0) then env(k) - env(0) else 0.0
  }

  function Share(part: real, whole: real): real { part * whole }

  function RecoveryProbabilityAfterWait(m: WaitDecisionModel, env: nat -> real, k: nat): real {
    var base := Clamp01(m.baseProbability);
    Clamp01(base + Share(Uplift(env, k), 1.0 - base))
  }

  function IntervalCost(m: WaitDecisionModel): real {
    (m.delayCost + m.waitingCost) * INTERVAL_MINUTES
  }

  function ActNowEV(m: WaitDecisionModel): real {
    m.amountAtRisk * Clamp01(m.baseProbability)
  }

  function WaitEV(m: WaitDecisionModel, env: nat -> real, steps: nat): real {
    if steps == 0 then ActNowEV(m)
    else m.amountAtRisk * RecoveryProbabilityAfterWait(m, env, steps) - IntervalCost(m) * steps as real
  }

  function Horizon(m: WaitDecisionModel): nat { if m.horizon < 0 then 0 else m.horizon }

  /** `steps` is the least maximiser of the expected value over the horizon. */
  ghost predicate LeastArgmax(m: WaitDecisionModel, env: nat -> real, steps: nat) {
    && steps <= Horizon(m)
    && (forall k: nat | k <= Horizon(m) :: WaitEV(m, env, k) <= WaitEV(m, env, steps))
    && (forall k: nat | k < steps :: WaitEV(m, env, k) < WaitEV(m, env, steps))
  }

  ghost predicate IsOptimal(m: WaitDecisionModel, steps: nat) {
    LeastArgmax(m, Curve(m.state), steps)
  }

  /** WaitDecisionModel.optimal: the loop returns the least maximiser and its value. */
  method Optimal(m: WaitDecisionModel) returns (steps: nat, ev: real)
    ensures IsOptimal(m, steps) && ev == WaitEV(m, Curve(m.state), steps)
  {
    steps, ev := Search(m, Curve(m.state));
  }

  method Search(m: WaitDecisionModel, env: nat -> real) returns (steps: nat, ev: real)
    ensures LeastArgmax(m, env, steps) && ev == WaitEV(m, env, steps)
  {
    steps, ev := 0, ActNowEV(m);
    var k := 1;
    while k < Horizon(m) + 1
      invariant 1 <= k <= Horizon(m) + 1
      invariant steps < k && ev == WaitEV(m, env, steps)
      invariant forall j: nat | j < k :: WaitEV(m, env, j) <= ev
      invariant forall j: nat | j < steps :: WaitEV(m, env, j) < ev
    {
      var candidate := WaitEV(m, env, k);
      if candidate > ev {
        steps, ev := k, candidate;
      }
      k := k + 1;
    }
  }

  /* ---- Facts about any readiness curve within the unit interval ---- */

  ghost predicate IsReadiness(env: nat -> real) {
    forall k: nat :: 0.0 <= env(k) <= 1.0
  }

  lemma CurveIsReadiness(s: ObservableState)
    ensures IsReadiness(Curve(s))
  {
    forall k: nat ensures 0.0 <= Curve(s)(k) <= 1.0 {
      ReadinessOverTime(s, k);
    }
  }

  lemma ShareFits(part: real, whole: real)
    requires 0.0 <= whole && 0.0 <= part <= 1.0
    ensures 0.0 <= Share(part, whole) <= whole
  {
    var rest := 1.0 - part;
    assert part * whole >= 0.0 && rest * whole >= 0.0;
    assert rest * whole == whole - part * whole;
  }

  lemma Raised(base: real, rise: real)
    requires 0.0 <= base && 0.0 <= rise <= 1.0 - base
    ensures base <= Clamp01(base + rise) == base + rise <= 1.0
  {
  }

  lemma Lifted(base: real, uplift: real)
    requires 0.0 <= base <= 1.0 && 0.0 <= uplift <= 1.0
    ensures base <= Clamp01(base + Share(uplift, 1.0 - base)) <= 1.0
    ensures Clamp01(base + Share(uplift, 1.0 - base)) == base + Share(uplift, 1.0 - base)
  {
    ShareFits(uplift, 1.0 - base);
    Raised(base, Share(uplift, 1.0 - base));
  }

  /** Waiting lifts the probability by a share of what is missing: never below the base, never above 1,
      and the outer clamp never acts. */
  lemma WaitingNeverOverpromises(m: WaitDecisionModel, env: nat -> real, k: nat)
    requires IsReadiness(env)
    ensures var base := Clamp01(m.baseProbability);
      base <= RecoveryProbabilityAfterWait(m, env, k) <= 1.0
      && RecoveryProbabilityAfterWait(m, env, k) == base + Share(Uplift(env, k), 1.0 - base)
  {
    assert 0.0 <= env(k) <= 1.0 && 0.0 <= env(0) <= 1.0;
    Lifted(Clamp01(m.baseProbability), Uplift(env, k));
  }

  // What is at stake in waiting: the amount times the residual failure risk.
  function Stake(m: WaitDecisionModel): real {
    m.amountAtRisk * (1.0 - Clamp01(m.baseProbability))
  }

  lemma Distribute(amount: real, base: real, uplift: real)
    ensures amount * (base + Share(uplift, 1.0 - base)) == amount * base + amount * (1.0 - base) * uplift
  {
  }

  // The part of the value that depends on how long one waits.
  function Net(stake: real, cost: real, uplift: real, steps: real): real { stake * uplift - cost * steps }

  lemma EVForm(m: WaitDecisionModel, env: nat -> real, k: nat)
    requires IsReadiness(env)
    ensures WaitEV(m, env, k) == ActNowEV(m) + Net(Stake(m), IntervalCost(m), Uplift(env, k), k as real)
  {
    WaitingNeverOverpromises(m, env, k);
    Distribute(m.amountAtRisk, Clamp01(m.baseProbability), Uplift(env, k));
  }

  lemma Compare(m: WaitDecisionModel, env: nat -> real, k: nat, k': nat)
    requires IsReadiness(env)
    ensures WaitEV(m, env, k) < WaitEV(m, env, k') <==>
            Net(Stake(m), IntervalCost(m), Uplift(env, k), k as real)
            < Net(Stake(m), IntervalCost(m), Uplift(env, k'), k' as real)
  {
    EVForm(m, env, k);
    EVForm(m, env, k');
  }

  // If waiting from `k'` to `k` pays for one stake and cost, it pays for a larger stake and a smaller cost.
  lemma Exchange(stake: real, stake': real, cost: real, cost': real, u: real, u': real, k: real, k': real)
    requires 0.0 <= stake <= stake' && 0.0 <= cost' <= cost && k > k'
    requires Net(stake, cost, u', k') < Net(stake, cost, u, k)
    ensures Net(stake', cost', u', k') < Net(stake', cost', u, k)
  {
    var rise, gap := u - u', k - k';
    assert stake * rise > cost * gap;
    assert cost * gap >= cost' * gap >= 0.0;
    assert rise > 0.0;
    assert stake' * rise >= stake * rise;
  }

  lemma MoreStakeWaitsLonger(m: WaitDecisionModel, m': WaitDecisionModel, env: nat -> real, steps: nat, steps': nat)
    requires IsReadiness(env) && m'.horizon == m.horizon
    requires 0.0 <= Stake(m) <= Stake(m') && 0.0 <= IntervalCost(m') <= IntervalCost(m)
    requires LeastArgmax(m, env, steps) && LeastArgmax(m', env, steps')
    ensures steps <= steps'
  {
    if steps' < steps {
      assert WaitEV(m, env, steps') < WaitEV(m, env, steps);
      assert WaitEV(m', env, steps) <= WaitEV(m', env, steps');
      Compare(m, env, steps', steps);
      Compare(m', env, steps', steps);
      Exchange(Stake(m), Stake(m'), IntervalCost(m), IntervalCost(m'), Uplift(env, steps), Uplift(env, steps'),
               steps as real, steps' as real);
    }
  }

  lemma ProductGrows(a: real, b: real, c: real, d: real)
    requires 0.0 <= a <= b && 0.0 <= c <= d
    ensures 0.0 <= a * c <= b * d
  {
    assert a * c <= b * c;
    assert b * c <= b * d;
  }

  /** Comparative statics of the optimal wait, in every state and for every horizon: it does not fall
      when the amount rises, when the base probability falls or when an interval gets cheaper. */
  lemma OptimalWaitIsMonotone(m: WaitDecisionModel, m': WaitDecisionModel, steps: nat, steps': nat)
    requires m'.state == m.state && m'.horizon == m.horizon
    requires 0.0 <= m.amountAtRisk <= m'.amountAtRisk && m'.baseProbability <= m.baseProbability
    requires 0.0 <= m'.delayCost + m'.waitingCost <= m.delayCost + m.waitingCost
    requires IsOptimal(m, steps) && IsOptimal(m', steps')
    ensures steps <= steps'
  {
    ProductGrows(m.amountAtRisk, m'.amountAtRisk, 1.0 - Clamp01(m.baseProbability), 1.0 - Clamp01(m'.baseProbability));
    CurveIsReadiness(m.state);
    MoreStakeWaitsLonger(m, m', Curve(m.state), steps, steps');
  }

  /** A curve that never rises above its start is never waited for. */
  lemma FlatNeverWaits(m: WaitDecisionModel, env: nat -> real, steps: nat)
    requires IsReadiness(env) && env(steps) <= env(0) && IntervalCost(m) >= 0.0 && LeastArgmax(m, env, steps)
    ensures steps == 0
  {
    Compare(m, env, 0, steps);
    assert Uplift(env, steps) == 0.0 == Uplift(env, 0);
    assert IntervalCost(m) * steps as real >= 0.0;
  }

  lemma HealthyIsFlat(k: nat)
    ensures Curve(Healthy)(k) == 0.95
  {
    ReadinessOverTime(Healthy, k);
  }

  /** A healthy corridor is never waited for. */
  lemma HealthyNeverWaits(m: WaitDecisionModel, steps: nat)
    requires m.state == Healthy && 0.0 <= m.delayCost + m.waitingCost && IsOptimal(m, steps)
    ensures steps == 0
  {
    CurveIsReadiness(Healthy);
    HealthyIsFlat(steps);
    HealthyIsFlat(0);
    FlatNeverWaits(m, Curve(Healthy), steps);
  }

  ghost predicate SlopeWithin(env: nat -> real, first: real) {
    forall j: nat, k: nat | k == j + 1 :: env(j) <= env(k) <= env(j) + first
  }

  function Line(start: real, slope: real, k: nat): real { start + k as real * slope }

  lemma {:induction false} SlopeBound(env: nat -> real, first: real, k: nat)
    requires SlopeWithin(env, first)
    ensures env(0) <= env(k) <= Line(env(0), first, k)
  {
    if k > 0 {
      SlopeBound(env, first, k - 1);
      assert env(k - 1) <= env(k) <= env(k - 1) + first;
    }
  }

  lemma GainsScale(stake: real, cost: real, first: real, uplift: real, k: real)
    requires uplift <= k * first && k >= 1.0 && stake >= 0.0 && stake * first <= cost
    ensures Net(stake, cost, uplift, k) <= 0.0
  {
    assert stake * uplift <= stake * (k * first);
    assert stake * (k * first) == k * (stake * first);
    assert k * (stake * first) <= k * cost;
  }

  // The gain of one interval on a stake beats its cost.
  predicate Pays(stake: real, first: real, cost: real) { stake * first > cost }

  lemma NetOfOne(stake: real, cost: real, first: real)
    ensures Net(stake, cost, first, 1.0) > 0.0 <==> Pays(stake, first, cost)
    ensures Net(stake, cost, 0.0, 0.0) == 0.0
  {
  }

  lemma NetOfMany(stake: real, cost: real, first: real, uplift: real, k: nat)
    requires stake >= 0.0 && k >= 1 && uplift <= Line(0.0, first, k) && !Pays(stake, first, cost)
    ensures Net(stake, cost, uplift, k as real) <= 0.0
  {
    GainsScale(stake, cost, first, uplift, k as real);
  }

  lemma FirstCompares(m: WaitDecisionModel, env: nat -> real, first: real)
    requires IsReadiness(env) && first >= 0.0 && env(1) == env(0) + first
    ensures WaitEV(m, env, 0) < WaitEV(m, env, 1) <==> Pays(Stake(m), first, IntervalCost(m))
  {
    NetOfOne(Stake(m), IntervalCost(m), first);
    assert Uplift(env, 1) == first && Uplift(env, 0) == 0.0;
    Compare(m, env, 0, 1);
  }

  lemma NoneCompares(m: WaitDecisionModel, env: nat -> real, first: real, k: nat)
    requires IsReadiness(env) && first >= 0.0 && k >= 1 && env(0) <= env(k) <= Line(env(0), first, k)
    requires Stake(m) >= 0.0 && !Pays(Stake(m), first, IntervalCost(m))
    ensures WaitEV(m, env, k) <= WaitEV(m, env, 0)
  {
    NetOfOne(Stake(m), IntervalCost(m), first);
    assert Uplift(env, k) == env(k) - env(0) && Uplift(env, 0) == 0.0;
    NetOfMany(Stake(m), IntervalCost(m), first, Uplift(env, k), k);
    Compare(m, env, 0, k);
  }

  lemma WaitsIffFirstPays(m: WaitDecisionModel, env: nat -> real, first: real, steps: nat)
    requires IsReadiness(env) && first >= 0.0 && env(1) == env(0) + first
    requires env(0) <= env(steps) <= Line(env(0), first, steps)
    requires Stake(m) >= 0.0 && m.horizon >= 1 && LeastArgmax(m, env, steps)
    ensures steps > 0 <==> Pays(Stake(m), first, IntervalCost(m))
  {
    FirstCompares(m, env, first);
    assert WaitEV(m, env, 1) <= WaitEV(m, env, steps);
    assert steps > 0 ==> WaitEV(m, env, 0) < WaitEV(m, env, steps);
    if steps > 0 && !Pays(Stake(m), first, IntervalCost(m)) {
      NoneCompares(m, env, first, steps);
    }
  }

  lemma CurveSlope(s: ObservableState)
    requires s == Degraded || s == Critical
    ensures SlopeWithin(Curve(s), FirstIntervalGain(s))
    ensures Curve(s)(1) == Curve(s)(0) + FirstIntervalGain(s)
  {
    forall j: nat, k: nat | k == j + 1 ensures Curve(s)(j) <= Curve(s)(k) <= Curve(s)(j) + FirstIntervalGain(s) {
      StepAtMost(s, j);
    }
    FirstIntervalReadiness(s);
  }

  lemma CurveFacts(s: ObservableState, first: real, k: nat)
    requires (s == Degraded && first == 0.06) || (s == Critical && first == 0.165)
    ensures IsReadiness(Curve(s)) && first >= 0.0
    ensures Curve(s)(0) <= Curve(s)(k) <= Line(Curve(s)(0), first, k)
    ensures Curve(s)(1) == Curve(s)(0) + first
  {
    CurveIsReadiness(s);
    CurveSlope(s);
    SlopeBound(Curve(s), first, k);
  }

  lemma StakeNotNegative(m: WaitDecisionModel)
    requires m.amountAtRisk >= 0.0
    ensures Stake(m) >= 0.0
  {
  }

  /** For a degraded or critical corridor the whole optimisation comes down to the first interval: the
      model waits exactly when the gain of one interval on the stake beats its cost. */
  lemma WaitsIffFirstIntervalPays(m: WaitDecisionModel, steps: nat, first: real)
    requires (m.state == Degraded && first == 0.06) || (m.state == Critical && first == 0.165)
    requires m.amountAtRisk >= 0.0 && m.horizon >= 1 && IsOptimal(m, steps)
    ensures steps > 0 <==> Pays(Stake(m), first, IntervalCost(m))
  {
    CurveFacts(m.state, first, steps);
    StakeNotNegative(m);
    WaitsIffFirstPays(m, Curve(m.state), first, steps);
  }

  // A gain of `u` by interval `k` is at most its share of a gain of `u'` by interval `h`.
  predicate BelowChord(u: real, u': real, k: nat, h: nat) { h as real * u <= k as real * u' }

  ghost predicate LateGainsMost(env: nat -> real, h: nat) {
    forall k: nat | k <= h :: BelowChord(Uplift(env, k), Uplift(env, h), k, h)
  }

  lemma ChordNet(stake: real, cost: real, u: real, u': real, k: real, h: real)
    requires stake >= 0.0 && h * u <= k * u'
    ensures h * Net(stake, cost, u, k) <= k * Net(stake, cost, u', h)
  {
    assert (k * u' - h * u) * stake >= 0.0;
    assert h * Net(stake, cost, u, k) == stake * (h * u) - cost * (k * h);
    assert k * Net(stake, cost, u', h) == stake * (k * u') - cost * (k * h);
  }

  lemma ShareOfEnd(net: real, end: real, k: real, h: real)
    requires 0.0 <= k < h && h * net <= k * end
    ensures end <= 0.0 ==> net <= 0.0
    ensures end > 0.0 ==> net < end
  {
    assert end <= 0.0 ==> k * end <= 0.0;
    if end > 0.0 {
      SignOf(end, h - k);
      assert (h - k) * end == h * end - k * end;
      assert h * (end - net) > 0.0;
    }
    SignOf(-net, h);
    SignOf(end - net, h);
  }

  lemma EndsDecide(m: WaitDecisionModel, env: nat -> real, k: nat, h: nat)
    requires IsReadiness(env) && k < h && BelowChord(Uplift(env, k), Uplift(env, h), k, h) && Stake(m) >= 0.0
    ensures WaitEV(m, env, h) > WaitEV(m, env, 0) ==> WaitEV(m, env, k) < WaitEV(m, env, h)
    ensures WaitEV(m, env, h) <= WaitEV(m, env, 0) ==> WaitEV(m, env, k) <= WaitEV(m, env, 0)
  {
    var stake, cost := Stake(m), IntervalCost(m);
    ChordNet(stake, cost, Uplift(env, k), Uplift(env, h), k as real, h as real);
    ShareOfEnd(Net(stake, cost, Uplift(env, k), k as real), Net(stake, cost, Uplift(env, h), h as real), k as real, h as real);
    StartIsNothing(m, env);
    EVForm(m, env, k);
    EVForm(m, env, h);
  }

  lemma StartIsNothing(m: WaitDecisionModel, env: nat -> real)
    requires IsReadiness(env)
    ensures WaitEV(m, env, 0) == ActNowEV(m)
  {
  }

  function WholeCost(m: WaitDecisionModel): real { IntervalCost(m) * Horizon(m) as real }

  lemma WholeWaitPays(m: WaitDecisionModel, env: nat -> real, gain: real)
    requires IsReadiness(env) && Uplift(env, Horizon(m)) == gain
    ensures WaitEV(m, env, Horizon(m)) > WaitEV(m, env, 0) <==> Pays(Stake(m), gain, WholeCost(m))
  {
    EVForm(m, env, Horizon(m));
    StartIsNothing(m, env);
  }

  /** Where later intervals gain more than earlier ones, waiting is all or nothing: any shorter wait is beaten
      by the whole horizon or by acting now. */
  lemma AllOrNothing(m: WaitDecisionModel, env: nat -> real, steps: nat)
    requires IsReadiness(env) && LateGainsMost(env, Horizon(m)) && Stake(m) >= 0.0 && LeastArgmax(m, env, steps)
    ensures steps == if WaitEV(m, env, Horizon(m)) > WaitEV(m, env, 0) then Horizon(m) else 0
  {
    var h := Horizon(m);
    assert WaitEV(m, env, h) <= WaitEV(m, env, steps);
    assert steps > 0 ==> WaitEV(m, env, 0) < WaitEV(m, env, steps);
    if steps < h {
      assert BelowChord(Uplift(env, steps), Uplift(env, h), steps, h);
      EndsDecide(m, env, steps, h);
    }
  }

  // How much more ready a customer-pending or expiring corridor is after `k` intervals.
  function LateUplift(s: ObservableState, k: nat): real {
    if s == CustomerActionPending then
      (if k == 1 then 0.02 else if k == 2 then 0.048 else if k == 3 then 0.0821 else if k == 4 then 0.11991 else 0.0)
    else
      (if k == 2 then 0.0075 else if k == 3 then 0.09475 else if k == 4 then 0.18225 else 0.0)
  }

  lemma LateTable(s: ObservableState, k: nat)
    requires (s == CustomerActionPending || s == Expiring) && k <= MAX_WAIT_STEPS
    ensures LateUplift(s, k) ==
            if LateReadiness(s, k) > READINESS.At(s) then LateReadiness(s, k) - READINESS.At(s) else 0.0
  {
    assert k == 0 || k == 1 || k == 2 || k == 3 || k == 4;
  }

  lemma LateCurve(s: ObservableState, k: nat)
    requires (s == CustomerActionPending || s == Expiring) && k <= MAX_WAIT_STEPS
    ensures Uplift(Curve(s), k) == LateUplift(s, k)
  {
    StartReadiness(s);
    LateReadinessIs(s, k);
    LateTable(s, k);
  }

  lemma LateChord(s: ObservableState, k: nat, h: nat)
    requires (s == CustomerActionPending || s == Expiring) && k <= h <= MAX_WAIT_STEPS
    ensures BelowChord(LateUplift(s, k), LateUplift(s, h), k, h)
  {
    assert k == 0 || k == 1 || k == 2 || k == 3 || k == 4;
    assert h == 0 || h == 1 || h == 2 || h == 3 || h == 4;
  }

  lemma LateCurveGains(s: ObservableState, h: nat)
    requires (s == CustomerActionPending || s == Expiring) && h <= MAX_WAIT_STEPS
    ensures LateGainsMost(Curve(s), h)
  {
    forall k: nat | k <= h ensures BelowChord(Uplift(Curve(s), k), Uplift(Curve(s), h), k, h) {
      LateCurve(s, k);
      LateCurve(s, h);
      LateChord(s, k, h);
    }
  }

  lemma WaitsToTheEnd(m: WaitDecisionModel, env: nat -> real, gain: real, steps: nat)
    requires IsReadiness(env) && LateGainsMost(env, Horizon(m)) && Uplift(env, Horizon(m)) == gain
    requires Stake(m) >= 0.0 && LeastArgmax(m, env, steps)
    ensures steps == if Pays(Stake(m), gain, WholeCost(m)) then Horizon(m) else 0
  {
    AllOrNothing(m, env, steps);
    WholeWaitPays(m, env, gain);
  }

  /** For a customer-pending or expiring corridor it is all or nothing within the fixed horizon: the model
      waits as long as it may, exactly when the gain of the whole wait on the stake beats its cost, and
      otherwise not at all. */
  lemma LateCorridorsWaitToTheEnd(m: WaitDecisionModel, steps: nat)
    requires m.state == CustomerActionPending || m.state == Expiring
    requires m.amountAtRisk >= 0.0 && m.horizon <= MAX_WAIT_STEPS && IsOptimal(m, steps)
    ensures steps == if Pays(Stake(m), LateUplift(m.state, Horizon(m)), WholeCost(m)) then Horizon(m) else 0
  {
    CurveIsReadiness(m.state);
    StakeNotNegative(m);
    LateCurveGains(m.state, Horizon(m));
    LateCurve(m.state, Horizon(m));
    WaitsToTheEnd(m, Curve(m.state), LateUplift(m.state, Horizon(m)), steps);
  }

  /** At the recommendation's own horizon: four intervals or none. */
  lemma LateRecommendation(m: WaitDecisionModel, steps: nat)
    requires (m.state == CustomerActionPending || m.state == Expiring) && m.horizon == MAX_WAIT_STEPS
    requires m.amountAtRisk >= 0.0 && IsOptimal(m, steps)
    ensures steps == if Pays(Stake(m), if m.state == Expiring then 0.18225 else 0.11991, 4.0 * IntervalCost(m)) then 4 else 0
  {
    LateCorridorsWaitToTheEnd(m, steps);
  }

  /* ---- Route health to state ---- */

  function ParseState(s: string): Option<ObservableState> {
    if s == "HEALTHY" then Some(Healthy)
    else if s == "DEGRADED" then Some(Degraded)
    else if s == "CRITICAL" then Some(Critical)
    else if s == "CUSTOMER_ACTION_PENDING" then Some(CustomerActionPending)
    else if s == "EXPIRING" then Some(Expiring)
    else None
  }

  /** _state_from_route_health over the two keys it looks at. */
  function StateFromRouteHealth(state: Option<string>, status: Option<string>): ObservableState {
    var name := if state.Some? && state.value != "" then state else status;
    if name.None? then Degraded
    else if ParseState(Upper(name.value)).Some? then ParseState(Upper(name.value)).value
    else Degraded
  }

  /** The route analyser's OPERATIONAL is read as Degraded, as is every name outside the five. */
  lemma OperationalIsDegraded(state: Option<string>)
    requires state.None? || state.value == ""
    ensures StateFromRouteHealth(state, Some("OPERATIONAL")) == Degraded
    ensures StateFromRouteHealth(Some("OPERATIONAL"), state) == Degraded
  {
    assert Upper("OPERATIONAL")[0] == 'O';
  }

  /** The five names are read in any case, the state before the status, and no name at all as Degraded. */
  lemma StatesByName(status: Option<string>)
    ensures StateFromRouteHealth(None, None) == StateFromRouteHealth(Some(""), None) == Degraded
    ensures StateFromRouteHealth(Some("HEALTHY"), status) == Healthy && StateFromRouteHealth(Some("DEGRADED"), status) == Degraded
    ensures StateFromRouteHealth(Some("CRITICAL"), status) == Critical
    ensures StateFromRouteHealth(Some("CUSTOMER_ACTION_PENDING"), status) == CustomerActionPending
    ensures StateFromRouteHealth(Some("EXPIRING"), status) == Expiring
    ensures status.Some? && status.value != "" ==>
              StateFromRouteHealth(None, status) == StateFromRouteHealth(Some(""), status)
              == StateFromRouteHealth(status, None) == StateFromRouteHealth(Some(Upper(status.value)), None)
  {
    UpperNames();
    if status.Some? && status.value != "" {
      UpperIsIdempotent(status.value);
      assert |Upper(status.value)| == |status.value|;
      assert |Upper("")| == 0;
    }
    assert Upper("") == "" && ParseState("") == None;
  }

  lemma UpperNames()
    ensures Upper("HEALTHY") == "HEALTHY" && Upper("DEGRADED") == "DEGRADED" && Upper("CRITICAL") == "CRITICAL"
    ensures Upper("CUSTOMER_ACTION_PENDING") == "CUSTOMER_ACTION_PENDING" && Upper("EXPIRING") == "EXPIRING"
    ensures ParseState("CRITICAL") == Some(Critical) && ParseState("EXPIRING") == Some(Expiring)
  {
    assert "CRITICAL"[0] != "DEGRADED"[0];
  }

  lemma DefaultCosts(m: WaitDecisionModel)
    requires m.delayCost == 0.01 && m.waitingCost == 0.005
    ensures IntervalCost(m) == 0.45
  {
  }

  lemma Threshold(stake: real)
    ensures Pays(stake, 0.06, 0.45) <==> stake > 7.5
  {
  }

  /** So a route that is called operational is waited for as soon as more than 7.50 is at stake, with the
      default costs and any horizon. */
  lemma OperationalRoutesMayWait(m: WaitDecisionModel, steps: nat)
    requires m.state == StateFromRouteHealth(None, Some("OPERATIONAL"))
    requires m.delayCost == 0.01 && m.waitingCost == 0.005 && m.horizon >= 1
    requires m.amountAtRisk >= 0.0 && IsOptimal(m, steps)
    ensures steps > 0 <==> Stake(m) > 7.5
  {
    OperationalIsDegraded(None);
    WaitsIffFirstIntervalPays(m, steps, 0.06);
    DefaultCosts(m);
    Threshold(Stake(m));
  }

  /** evaluate_wait_recommendation: the optimal wait for the corridor the route health names, within the
      fixed horizon. */
  method EvaluateWaitRecommendation(amount: real, probability: real, state: Option<string>, status: Option<string>,
                                    delayCost: real, waitingCost: real)
    returns (wait: bool, steps: nat, ev: real)
    ensures var m := WaitDecisionModel(amount, probability, StateFromRouteHealth(state, status), delayCost, waitingCost,
                                       MAX_WAIT_STEPS);
      IsOptimal(m, steps) && ev == WaitEV(m, Curve(m.state), steps)
    ensures wait == (steps > 0) && steps <= MAX_WAIT_STEPS
  {
    var m := WaitDecisionModel(amount, probability, StateFromRouteHealth(state, status), delayCost, waitingCost,
                               MAX_WAIT_STEPS);
    steps, ev := Optimal(m);
    wait := steps > 0;
  }
}
