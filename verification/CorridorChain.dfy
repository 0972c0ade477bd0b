/** The corridor chain (app/services/temporal_state.py) and its propagation loop
    (app/services/wait_ev.py), with exact reals in place of floats. */
module CorridorChain {

  datatype ObservableState = Healthy | Degraded | Critical | CustomerActionPending | Expiring

  /* ---- Vectors over the five states ---- */

  datatype Vec = Vec(h: real, d: real, c: real, p: real, x: real) {
    function At(s: ObservableState): real {
      match s
      case Healthy => h
      case Degraded => d
      case Critical => c
      case CustomerActionPending => p
      case Expiring => x
    }
  }

  function Add(v: Vec, w: Vec): Vec { Vec(v.h + w.h, v.d + w.d, v.c + w.c, v.p + w.p, v.x + w.x) }

  function Scale(r: real, v: Vec): Vec { Vec(r * v.h, r * v.d, r * v.c, r * v.p, r * v.x) }

  function Dot(v: Vec, w: Vec): real {
    v.h * w.h + v.d * w.d + v.c * w.c + v.p * w.p + v.x * w.x
  }

  function Get(m: map<ObservableState, real>, s: ObservableState): real {
    if s in m then m[s] else 0.0
  }

  /* ---- The frozen tables ---- */

  // state_transition_probabilities
  function Transitions(s: ObservableState): map<ObservableState, real> {
    match s
    case Healthy => map[Healthy := 1.0]
    case Degraded => map[Healthy := 0.2, Degraded := 0.7, Critical := 0.1]
    case Critical => map[Healthy := 0.1, Degraded := 0.3, Critical := 0.6]
    case CustomerActionPending => map[CustomerActionPending := 0.8, Degraded := 0.2]
    case Expiring => map[Expiring := 0.5, Critical := 0.5]
  }

  // STATE_BASE_RECOVERY_PROB
  const READINESS := Vec(0.95, 0.5, 0.2, 0.4, 0.3)

  // The table as a matrix: row `s` holds where one interval takes a unit of mass from `s`.
  function Row(s: ObservableState): Vec {
    match s
    case Healthy => Vec(1.0, 0.0, 0.0, 0.0, 0.0)
    case Degraded => Vec(0.2, 0.7, 0.1, 0.0, 0.0)
    case Critical => Vec(0.1, 0.3, 0.6, 0.0, 0.0)
    case CustomerActionPending => Vec(0.0, 0.2, 0.0, 0.8, 0.0)
    case Expiring => Vec(0.0, 0.0, 0.5, 0.0, 0.5)
  }

  lemma RowsAreTheTable(s: ObservableState, t: ObservableState)
    ensures Get(Transitions(s), t) == Row(s).At(t)
  {
  }

  /** One interval of the chain, applied to a distribution. */
  function Push(v: Vec): Vec {
    Vec(v.h + 0.2 * v.d + 0.1 * v.c, 0.7 * v.d + 0.3 * v.c + 0.2 * v.p,
        0.1 * v.d + 0.6 * v.c + 0.5 * v.x, 0.8 * v.p, 0.5 * v.x)
  }

  /** One interval of the chain, applied to a value per state: the expected value after one interval. */
  function Back(v: Vec): Vec {
    Vec(v.h, 0.2 * v.h + 0.7 * v.d + 0.1 * v.c, 0.1 * v.h + 0.3 * v.d + 0.6 * v.c,
        0.8 * v.p + 0.2 * v.d, 0.5 * v.x + 0.5 * v.c)
  }

  /** Both are the table's matrix: pushing adds up what each state sends out, pulling averages over
      where each state goes. */
  lemma StepsAreTheTable(v: Vec, s: ObservableState)
    ensures Push(v) == Add(Scale(v.h, Row(Healthy)),
                         Add(Scale(v.d, Row(Degraded)),
                           Add(Scale(v.c, Row(Critical)),
                             Add(Scale(v.p, Row(CustomerActionPending)), Scale(v.x, Row(Expiring))))))
    ensures Back(v).At(s) == Dot(Row(s), v)
  {
  }

  function Unit(s: ObservableState): Vec {
    Vec(if s == Healthy then 1.0 else 0.0, if s == Degraded then 1.0 else 0.0, if s == Critical then 1.0 else 0.0,
        if s == CustomerActionPending then 1.0 else 0.0, if s == Expiring then 1.0 else 0.0)
  }

  function Distribution(s: ObservableState, k: nat): Vec {
    if k == 0 then Unit(s) else Push(Distribution(s, k - 1))
  }

  /** Expected readiness after `k` intervals, by pushing the distribution forward. */
  function Env(s: ObservableState, k: nat): real {
    ExpectedReadiness(Distribution(s, k))
  }

  function ExpectedReadiness(v: Vec): real {
    0.95 * v.h + 0.5 * v.d + 0.2 * v.c + 0.4 * v.p + 0.3 * v.x
  }

  lemma ReadinessIsDot(v: Vec)
    ensures ExpectedReadiness(v) == Dot(v, READINESS)
  {
  }

  /** The same by iterating the value vector backward. */
  function Value(k: nat): Vec {
    if k == 0 then READINESS else Back(Value(k - 1))
  }

  /* ---- The propagation loop ---- */

  // The dictionary `m` represents the vector `v`.
  predicate Represents(m: map<ObservableState, real>, v: Vec) {
    forall s :: Get(m, s) == v.At(s)
  }

  function Drop(v: Vec, s: ObservableState): Vec {
    match s
    case Healthy => v.(h := 0.0)
    case Degraded => v.(d := 0.0)
    case Critical => v.(c := 0.0)
    case CustomerActionPending => v.(p := 0.0)
    case Expiring => v.(x := 0.0)
  }

  // The part of a distribution that is still to be taken from the dictionary.
  predicate Rest(dist: map<ObservableState, real>, todo: set<ObservableState>, v: Vec) {
    forall s :: v.At(s) == if s in todo then Get(dist, s) else 0.0
  }

  lemma DropRest(dist: map<ObservableState, real>, todo: set<ObservableState>, v: Vec, s: ObservableState)
    requires Rest(dist, todo, v)
    ensures Rest(dist, todo - {s}, Drop(v, s))
  {
  }

  lemma NoRest(dist: map<ObservableState, real>, v: Vec)
    requires Rest(dist, {}, v)
    ensures v == NOTHING
  {
    assert v.At(Healthy) == 0.0 && v.At(Degraded) == 0.0 && v.At(Critical) == 0.0
        && v.At(CustomerActionPending) == 0.0 && v.At(Expiring) == 0.0;
  }

  lemma TakeDot(v: Vec, w: Vec, s: ObservableState)
    ensures Dot(v, w) == v.At(s) * w.At(s) + Dot(Drop(v, s), w)
  {
  }

  lemma ScaleRow(r: real, s: ObservableState)
    ensures Scale(r, Row(s)) ==
      match s
      case Healthy => Vec(r, 0.0, 0.0, 0.0, 0.0)
      case Degraded => Vec(0.2 * r, 0.7 * r, 0.1 * r, 0.0, 0.0)
      case Critical => Vec(0.1 * r, 0.3 * r, 0.6 * r, 0.0, 0.0)
      case CustomerActionPending => Vec(0.0, 0.2 * r, 0.0, 0.8 * r, 0.0)
      case Expiring => Vec(0.0, 0.0, 0.5 * r, 0.0, 0.5 * r)
  {
  }

  lemma TakePush(v: Vec, s: ObservableState)
    ensures Push(v) == Add(Scale(v.At(s), Row(s)), Push(Drop(v, s)))
  {
    ScaleRow(v.At(s), s);
  }

  lemma AddAssociates(u: Vec, v: Vec, w: Vec)
    ensures Add(Add(u, v), w) == Add(u, Add(v, w))
  {
  }

  // Adds the outflow of one source state to the new dictionary, its entries taken in any order.
  method Spread(entries: map<ObservableState, real>, mass: real, before: map<ObservableState, real>)
    returns (after: map<ObservableState, real>)
    ensures forall s :: Get(after, s) == Get(before, s) + mass * Get(entries, s)
  {
    after := before;
    var todo := entries.Keys;
    while todo != {}
      invariant todo <= entries.Keys
      invariant forall s :: Get(after, s) == Get(before, s) + if s in todo then 0.0 else mass * Get(entries, s)
      decreases |todo|
    {
      var dst :| dst in todo;
      after := after[dst := Get(after, dst) + mass * entries[dst]];
      todo := todo - {dst};
    }
  }

  lemma AddScaleAt(v: Vec, mass: real, w: Vec, s: ObservableState)
    ensures Add(v, Scale(mass, w)).At(s) == v.At(s) + mass * w.At(s)
  {
  }

  lemma Spreads(before: map<ObservableState, real>, after: map<ObservableState, real>, acc: Vec, mass: real, w: Vec)
    requires Represents(before, acc)
    requires forall s :: Get(after, s) == Get(before, s) + mass * w.At(s)
    ensures Represents(after, Add(acc, Scale(mass, w)))
  {
    forall s ensures Get(after, s) == Add(acc, Scale(mass, w)).At(s) {
      AddScaleAt(acc, mass, w, s);
      assert Get(before, s) == acc.At(s);
    }
  }

  // The outflow of one source state.
  method SpreadSource(src: ObservableState, mass: real, before: map<ObservableState, real>, ghost acc: Vec)
    returns (next: map<ObservableState, real>)
    requires Represents(before, acc)
    ensures Represents(next, Add(acc, Scale(mass, Row(src))))
  {
    next := Spread(Transitions(src), mass, before);
    forall s ensures Get(next, s) == Get(before, s) + mass * Row(src).At(s) {
      RowsAreTheTable(src, s);
    }
    Spreads(before, next, acc, mass, Row(src));
  }

  lemma Accounted(acc: Vec, rest: Vec, src: ObservableState, all: Vec)
    requires Add(acc, Push(rest)) == all
    ensures Add(Add(acc, Scale(rest.At(src), Row(src))), Push(Drop(rest, src))) == all
  {
    TakePush(rest, src);
    AddAssociates(acc, Scale(rest.At(src), Row(src)), Push(Drop(rest, src)));
  }

  const NOTHING := Vec(0.0, 0.0, 0.0, 0.0, 0.0)

  lemma AddNothing(v: Vec)
    ensures Add(NOTHING, v) == v == Add(v, NOTHING)
  {
  }

  lemma PushNothing()
    ensures Push(NOTHING) == NOTHING
  {
  }

  lemma AllRest(dist: map<ObservableState, real>, v: Vec)
    requires Represents(dist, v)
    ensures Rest(dist, dist.Keys, v)
  {
  }

  // One interval over a dictionary.
  method PropagateOnce(dist: map<ObservableState, real>, ghost v: Vec) returns (next: map<ObservableState, real>)
    requires Represents(dist, v)
    ensures Represents(next, Push(v))
  {
    next := map[];
    var todo := dist.Keys;
    ghost var acc, rest, all := NOTHING, v, Push(v);
    AddNothing(all);
    AllRest(dist, v);
    while todo != {}
      invariant todo <= dist.Keys
      invariant Represents(next, acc) && Rest(dist, todo, rest)
      invariant Add(acc, Push(rest)) == all
      decreases |todo|
    {
      var src :| src in todo;
      assert dist[src] == rest.At(src);
      Accounted(acc, rest, src, all);
      DropRest(dist, todo, rest, src);
      next := SpreadSource(src, dist[src], next, acc);
      acc, rest := Add(acc, Scale(rest.At(src), Row(src))), Drop(rest, src);
      todo := todo - {src};
    }
    NoRest(dist, rest);
    PushNothing();
    AddNothing(acc);
  }

  // The final sum over a dictionary.
  method Expectation(dist: map<ObservableState, real>, w: Vec, ghost v: Vec) returns (r: real)
    requires Represents(dist, v)
    ensures r == Dot(v, w)
  {
    r := 0.0;
    var todo := dist.Keys;
    ghost var rest := v;
    while todo != {}
      invariant todo <= dist.Keys
      invariant Rest(dist, todo, rest) && r + Dot(rest, w) == Dot(v, w)
      decreases |todo|
    {
      var s :| s in todo;
      assert dist[s] == rest.At(s);
      TakeDot(rest, w, s);
      DropRest(dist, todo, rest, s);
      r := r + dist[s] * w.At(s);
      rest := Drop(rest, s);
      todo := todo - {s};
    }
    NoRest(dist, rest);
  }

  /** WaitDecisionModel.env_recovery_probability: the dictionary loop computes the expected readiness,
      whatever order the dictionaries yield their entries in. */
  method EnvRecoveryProbability(state: ObservableState, steps: int) returns (r: real)
    ensures r == Env(state, if steps < 0 then 0 else steps)
  {
    var dist := map[state := 1.0];
    var rounds: nat := if steps < 0 then 0 else steps;
    var i := 0;
    while i < rounds
      invariant 0 <= i <= rounds
      invariant Represents(dist, Distribution(state, i))
    {
      dist := PropagateOnce(dist, Distribution(state, i));
      i := i + 1;
    }
    r := Expectation(dist, READINESS, Distribution(state, i));
    ReadinessIsDot(Distribution(state, i));
  }

  /* ---- Facts about the chain ---- */

  predicate IsDistribution(v: Vec) {
    v.h + v.d + v.c + v.p + v.x == 1.0 && v.h >= 0.0 && v.d >= 0.0 && v.c >= 0.0 && v.p >= 0.0 && v.x >= 0.0
  }

  /** No mass is lost or made, and no state gets a negative share. */
  lemma {:induction false} MassIsOne(s: ObservableState, k: nat)
    ensures IsDistribution(Distribution(s, k))
  {
    if k > 0 {
      MassIsOne(s, k - 1);
    }
  }

  /** Pushing the distribution and pulling the values are adjoint. */
  lemma Adjoint(v: Vec, w: Vec)
    ensures Dot(Push(v), w) == Dot(v, Back(w))
  {
  }

  lemma {:induction false} ForwardIsBackwardFrom(s: ObservableState, k: nat, j: nat)
    ensures Dot(Distribution(s, k), Value(j)) == Dot(Unit(s), Value(k + j))
  {
    if k > 0 {
      Adjoint(Distribution(s, k - 1), Value(j));
      assert Back(Value(j)) == Value(j + 1);
      ForwardIsBackwardFrom(s, k - 1, j + 1);
    }
  }

  lemma UnitPicks(s: ObservableState, w: Vec)
    ensures Dot(Unit(s), w) == w.At(s)
  {
  }

  /** The propagated distribution and the backward value iteration give the same readiness. */
  lemma ForwardIsBackward(s: ObservableState, k: nat)
    ensures Env(s, k) == Value(k).At(s)
  {
    ReadinessIsDot(Distribution(s, k));
    ForwardIsBackwardFrom(s, k, 0);
    UnitPicks(s, Value(k));
  }

  predicate Between(v: Vec, lo: real, hi: real) {
    lo <= v.h <= hi && lo <= v.d <= hi && lo <= v.c <= hi && lo <= v.p <= hi && lo <= v.x <= hi
  }

  lemma {:induction false} ValuesBounded(k: nat)
    ensures Between(Value(k), 0.2, 0.95) && Value(k).h == 0.95
  {
    if k > 0 {
      ValuesBounded(k - 1);
    }
  }

  // What the interval after `k` adds to each value.
  function Gain(k: nat): Vec {
    if k == 0 then Vec(0.0, 0.06, 0.165, 0.02, -0.05) else Back(Gain(k - 1))
  }

  lemma FirstGain()
    ensures Back(READINESS) == Add(READINESS, Gain(0))
  {
  }

  lemma BackAdds(v: Vec, w: Vec)
    ensures Back(Add(v, w)) == Add(Back(v), Back(w))
  {
  }

  lemma {:induction false} GainIsDifference(k: nat)
    ensures Value(k + 1) == Add(Value(k), Gain(k))
  {
    if k == 0 {
      FirstGain();
      assert Value(1) == Back(Value(0));
    } else {
      GainIsDifference(k - 1);
      BackAdds(Value(k - 1), Gain(k - 1));
    }
  }

  predicate SmallGains(g: Vec) {
    g.h == 0.0 && 0.0 <= g.d <= 0.06 && 0.0 <= g.c <= 0.165 && 0.0 <= g.p
  }

  lemma {:induction false} GainBounds(k: nat)
    ensures SmallGains(Gain(k)) && (k >= 1 ==> Gain(k).x >= 0.0) && (k == 0 ==> Gain(k).x < 0.0)
  {
    if k > 0 {
      GainBounds(k - 1);
      assert k == 1 ==> Gain(k - 1) == Gain(0);
    }
  }

  lemma StepGain(s: ObservableState, k: nat)
    ensures Env(s, k + 1) == Env(s, k) + Gain(k).At(s)
  {
    ForwardIsBackward(s, k);
    ForwardIsBackward(s, k + 1);
    GainIsDifference(k);
  }

  lemma AtMember(v: Vec, s: ObservableState)
    ensures v.At(s) == (match s case Healthy => v.h case Degraded => v.d case Critical => v.c
                        case CustomerActionPending => v.p case Expiring => v.x)
  {
  }

  lemma ValueAt(k: nat, s: ObservableState)
    ensures 0.2 <= Value(k).At(s) <= 0.95 && (s == Healthy ==> Value(k).At(s) == 0.95)
  {
    ValuesBounded(k);
    AtMember(Value(k), s);
  }

  lemma GainAt(k: nat, s: ObservableState)
    ensures s != Expiring ==> Gain(k).At(s) >= 0.0
    ensures s == Expiring ==> (Gain(k).At(s) >= 0.0 <==> k >= 1)
    ensures s == Degraded || s == Critical ==> Gain(k).At(s) <= FirstIntervalGain(s)
  {
    GainBounds(k);
    AtMember(Gain(k), s);
  }

  // For a degraded or critical corridor the first interval gains the most.
  function FirstIntervalGain(s: ObservableState): real { if s == Degraded then 0.06 else 0.165 }

  /** Readiness stays within [0.2, 0.95]; waiting leaves a healthy corridor where it is, never hurts a
      degraded, critical or customer-pending one, and hurts an expiring one in the first interval only. */
  lemma ReadinessOverTime(s: ObservableState, k: nat)
    ensures 0.2 <= Env(s, k) <= 0.95
    ensures s == Healthy ==> Env(s, k) == 0.95
    ensures s != Expiring ==> Env(s, k) <= Env(s, k + 1)
    ensures s == Expiring ==> (Env(s, k) <= Env(s, k + 1) <==> k >= 1)
  {
    ForwardIsBackward(s, k);
    StepGain(s, k);
    ValueAt(k, s);
    GainAt(k, s);
  }

  lemma FirstGainAt(s: ObservableState)
    requires s == Degraded || s == Critical
    ensures Gain(0).At(s) == FirstIntervalGain(s)
  {
  }

  /** For a degraded or critical corridor no interval gains more than the first. */
  lemma StepAtMost(s: ObservableState, k: nat)
    requires s == Degraded || s == Critical
    ensures Env(s, k) <= Env(s, k + 1) <= Env(s, k) + FirstIntervalGain(s)
  {
    StepGain(s, k);
    GainAt(k, s);
  }

  lemma FirstIntervalReadiness(s: ObservableState)
    requires s == Degraded || s == Critical
    ensures Env(s, 1) == Env(s, 0) + FirstIntervalGain(s)
  {
    StepGain(s, 0);
    FirstGainAt(s);
  }

  // What interval `k` adds for a customer-pending and for an expiring corridor, and what it adds up to.
  function LateGain(s: ObservableState, k: nat): real {
    if s == CustomerActionPending then
      (if k == 0 then 0.02 else if k == 1 then 0.028 else if k == 2 then 0.0341 else 0.03781)
    else
      (if k == 0 then -0.05 else if k == 1 then 0.0575 else if k == 2 then 0.08725 else 0.0875)
  }

  function LateReadiness(s: ObservableState, k: nat): real {
    if s == CustomerActionPending then
      (if k == 0 then 0.4 else if k == 1 then 0.42 else if k == 2 then 0.448 else if k == 3 then 0.4821 else 0.51991)
    else
      (if k == 0 then 0.3 else if k == 1 then 0.25 else if k == 2 then 0.3075 else if k == 3 then 0.39475 else 0.48225)
  }

  lemma GainTable()
    ensures Gain(1) == Vec(0.0, 0.0585, 0.117, 0.028, 0.0575)
    ensures Gain(2) == Vec(0.0, 0.05265, 0.08775, 0.0341, 0.08725)
    ensures Gain(3) == Vec(0.0, 0.04563, 0.068445, 0.03781, 0.0875)
  {
    assert Gain(1) == Back(Gain(0));
    assert Gain(2) == Back(Gain(1));
    assert Gain(3) == Back(Gain(2));
  }

  lemma LateGains(s: ObservableState, k: nat)
    requires (s == CustomerActionPending || s == Expiring) && k < 4
    ensures Gain(k).At(s) == LateGain(s, k)
  {
    GainTable();
    assert k == 0 || k == 1 || k == 2 || k == 3;
    AtMember(Gain(k), s);
  }

  lemma LateReadinessAdds(s: ObservableState, k: nat)
    requires (s == CustomerActionPending || s == Expiring) && k < 4
    ensures LateReadiness(s, k + 1) == LateReadiness(s, k) + LateGain(s, k)
  {
    assert k == 0 || k == 1 || k == 2 || k == 3;
  }

  lemma StartReadiness(s: ObservableState)
    ensures Env(s, 0) == READINESS.At(s)
  {
    ForwardIsBackward(s, 0);
  }

  /** The readiness of a customer-pending or expiring corridor over the first four intervals. */
  lemma {:induction false} LateReadinessIs(s: ObservableState, k: nat)
    requires (s == CustomerActionPending || s == Expiring) && k <= 4
    ensures Env(s, k) == LateReadiness(s, k)
  {
    if k == 0 {
      StartReadiness(s);
    } else {
      LateReadinessIs(s, k - 1);
      StepGain(s, k - 1);
      LateGains(s, k - 1);
      LateReadinessAdds(s, k - 1);
    }
  }
}
