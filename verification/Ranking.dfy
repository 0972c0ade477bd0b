/** Ranking of candidate actions by expected net recovery (app/services/economic_optimizer.py). Floats
    are reals and the rounding to four digits is any function that keeps order. */
module Ranking {
  import opened Domain
  import opened Numbers
  import opened StableSort

  /** What the ranking reads besides the candidates: amount and costs, the baseline action of the
      context, the provider's estimate per action, and the rounding. */
  datatype Context = Context(
    amount: real,
    cost: real,
    risk: real,
    baseline: Option<RecoveryAction>,
    estimate: RecoveryAction -> real,
    round: real -> real)

  ghost predicate Monotone(round: real -> real) {
    forall x, y | x <= y :: round(x) <= round(y)
  }

  /** compute_expected_net_recovery. */
  function ExpectedNetRecovery(probability: real, amount: real, cost: real, risk: real, round: real -> real): real {
    round(Clamp01(probability) * AtLeast0(amount) - AtLeast0(cost) - AtLeast0(risk))
  }

  function Enr(c: Context, a: RecoveryAction): real {
    ExpectedNetRecovery(c.estimate(a), c.amount, c.cost, c.risk, c.round)
  }

  // _TIE_BREAK_TIERS, with the baseline action first.
  function Tier(c: Context, a: RecoveryAction): nat {
    if c.baseline == Some(a) then 0
    else match a
      case GENERATE_PAYMENT_LINK => 1
      case REQUEST_PAYMENT_METHOD_UPDATE => 2
      case SEND_REMINDER => 3
      case RETRY_LATER => 4
      case WAIT => 5
      case RETRY_NOW => 5
      case ESCALATE_TO_HUMAN => 6
      case STOP_RECOVERY => 7
  }

  // The sort key is (-ENR, tier).
  function KeysOf(c: Context): Keys {
    Keys((a: RecoveryAction) => Enr(c, a), (a: RecoveryAction) => Tier(c, a))
  }

  /** Keys collide for one pair of actions only. */
  lemma TiesAreWaitAndRetryNow(c: Context, a: RecoveryAction, b: RecoveryAction)
    requires a != b
    ensures Tied(KeysOf(c), a, b) <==>
            {a, b} == {WAIT, RETRY_NOW} && Enr(c, WAIT) == Enr(c, RETRY_NOW)
            && c.baseline != Some(WAIT) && c.baseline != Some(RETRY_NOW)
  {
    TierCollision(c, a, b);
    assert {a, b} == {WAIT, RETRY_NOW} ==> a in {WAIT, RETRY_NOW} && b in {WAIT, RETRY_NOW};
  }

  lemma TierCollision(c: Context, a: RecoveryAction, b: RecoveryAction)
    requires a != b
    ensures Tier(c, a) == Tier(c, b) ==>
              ((a == WAIT && b == RETRY_NOW) || (a == RETRY_NOW && b == WAIT))
              && c.baseline != Some(WAIT) && c.baseline != Some(RETRY_NOW)
    ensures (a == WAIT && b == RETRY_NOW) || (a == RETRY_NOW && b == WAIT) ==>
              (Tier(c, a) == Tier(c, b) <==> c.baseline != Some(WAIT) && c.baseline != Some(RETRY_NOW))
  {
  }

  /** The ranking: the stable sort of the candidates by their keys. */
  function Rank(c: Context, candidates: seq<RecoveryAction>): seq<RecoveryAction> {
    Sort(KeysOf(c), candidates)
  }

  datatype Ranked = Ranked(action: RecoveryAction, probability: real, enr: real)

  function ItemFor(c: Context, a: RecoveryAction): Ranked { Ranked(a, c.estimate(a), Enr(c, a)) }

  function Items(c: Context, actions: seq<RecoveryAction>): seq<Ranked> {
    seq(|actions|, i requires 0 <= i < |actions| => ItemFor(c, actions[i]))
  }

  /** rank_candidates: one item per candidate, in the order of the sort. */
  method RankCandidates(c: Context, candidates: seq<RecoveryAction>) returns (ranked: seq<Ranked>)
    ensures ranked == Items(c, Rank(c, candidates))
  {
    var sorted := SortActions(KeysOf(c), candidates);
    ranked := [];
    var i := 0;
    while i < |sorted|
      invariant 0 <= i <= |sorted|
      invariant ranked == Items(c, sorted[..i])
    {
      ranked := ranked + [ItemFor(c, sorted[i])];
      i := i + 1;
    }
    assert sorted[..i] == sorted;
  }

  /* ---- What the ranking prefers ---- */

  predicate Listed(candidates: seq<RecoveryAction>, a: RecoveryAction, b: RecoveryAction) {
    Distinct(candidates) && a in candidates && b in candidates && a != b
  }

  lemma SmallerKeyFirst(c: Context, candidates: seq<RecoveryAction>, a: RecoveryAction, b: RecoveryAction)
    requires Listed(candidates, a, b) && Less(KeysOf(c), a, b)
    ensures Before(Rank(c, candidates), a, b)
  {
    var i :| 0 <= i < |candidates| && candidates[i] == a;
    var j :| 0 <= j < |candidates| && candidates[j] == b;
    SortOrder(KeysOf(c), candidates, i, j);
  }

  /** The higher expected net recovery goes first, whatever else is known of the two candidates. */
  lemma HigherValueFirst(c: Context, candidates: seq<RecoveryAction>, a: RecoveryAction, b: RecoveryAction)
    requires Listed(candidates, a, b) && Enr(c, a) > Enr(c, b)
    ensures Before(Rank(c, candidates), a, b)
  {
    SmallerKeyFirst(c, candidates, a, b);
  }

  /** Among equals the baseline action goes first. */
  lemma BaselineFirstAmongEquals(c: Context, candidates: seq<RecoveryAction>, a: RecoveryAction, b: RecoveryAction)
    requires Listed(candidates, a, b) && Enr(c, a) == Enr(c, b) && c.baseline == Some(a)
    ensures Before(Rank(c, candidates), a, b)
  {
    SmallerKeyFirst(c, candidates, a, b);
  }

  // The order among equals: what customers act on, what waits, a human, and stopping last of all.
  const PREFERENCE: seq<set<RecoveryAction>> :=
    [{GENERATE_PAYMENT_LINK}, {REQUEST_PAYMENT_METHOD_UPDATE}, {SEND_REMINDER}, {RETRY_LATER}, {WAIT, RETRY_NOW},
     {ESCALATE_TO_HUMAN}, {STOP_RECOVERY}]

  /** Among equals that are not the baseline the documented preference decides, for every pair of actions. */
  lemma EqualsByPreference(c: Context, candidates: seq<RecoveryAction>, a: RecoveryAction, b: RecoveryAction, k: nat, l: nat)
    requires Listed(candidates, a, b) && Enr(c, a) == Enr(c, b)
    requires c.baseline != Some(a) && c.baseline != Some(b)
    requires k < l < |PREFERENCE| && a in PREFERENCE[k] && b in PREFERENCE[l]
    ensures Before(Rank(c, candidates), a, b)
  {
    assert Tier(c, a) == k + 1 && Tier(c, b) == l + 1;
    SmallerKeyFirst(c, candidates, a, b);
  }

  ghost predicate Exact(round: real -> real) { forall x :: round(x) == x }

  /** The value is the expected gross less both charges: it runs linearly from nothing at all, when failure is
      certain, to the whole amount, when success is; each charge lowers it by just what it is; and negative
      amounts and charges count as none. */
  lemma ValueIsGrossLessCharges(p: real, amount: real, cost: real, risk: real, more: real, round: real -> real)
    requires Exact(round) && 0.0 <= p <= 1.0 && amount >= 0.0 && cost >= 0.0 && risk >= 0.0 && more >= 0.0
    ensures ExpectedNetRecovery(1.0, amount, 0.0, 0.0, round) == amount
    ensures ExpectedNetRecovery(0.0, amount, 0.0, 0.0, round) == 0.0
    ensures ExpectedNetRecovery(p, amount, 0.0, 0.0, round) == p * amount
    ensures ExpectedNetRecovery(p, amount, cost, risk, round) == ExpectedNetRecovery(p, amount, 0.0, 0.0, round) - cost - risk
    ensures ExpectedNetRecovery(p + 1.0, amount, -cost, -risk, round) == amount
    ensures ExpectedNetRecovery(-p, -amount, -cost, -risk, round) == 0.0
  {
  }

  /** Both charges are the same for every candidate, so without rounding they never change the order. */
  lemma ChargesNeverReorder(c: Context, cost: real, risk: real, candidates: seq<RecoveryAction>)
    requires Exact(c.round)
    ensures Rank(c.(cost := cost, risk := risk), candidates) == Rank(c, candidates)
  {
    var c' := c.(cost := cost, risk := risk);
    forall a, b ensures Less(KeysOf(c'), a, b) <==> Less(KeysOf(c), a, b) {
      assert Tier(c', a) == Tier(c, a) && Tier(c', b) == Tier(c, b);
      SameShift(c, cost, risk, a, b);
    }
    SortByKeys(KeysOf(c'), KeysOf(c), candidates);
  }

  lemma SameShift(c: Context, cost: real, risk: real, a: RecoveryAction, b: RecoveryAction)
    requires Exact(c.round)
    ensures Enr(c.(cost := cost, risk := risk), a) - Enr(c.(cost := cost, risk := risk), b) == Enr(c, a) - Enr(c, b)
  {
  }

  /* ---- Order neutrality ---- */

  predicate HasTie(c: Context, s: seq<RecoveryAction>) {
    WAIT in s && RETRY_NOW in s && Enr(c, WAIT) == Enr(c, RETRY_NOW)
    && c.baseline != Some(WAIT) && c.baseline != Some(RETRY_NOW)
  }

  lemma TieOrNot(c: Context, s: seq<RecoveryAction>)
    ensures NoTies(KeysOf(c), s) <==> !HasTie(c, s)
  {
    forall a, b | a in s && b in s && a != b && Tied(KeysOf(c), a, b) ensures HasTie(c, s) {
      TiesAreWaitAndRetryNow(c, a, b);
      assert WAIT in {a, b} && RETRY_NOW in {a, b};
    }
    TiesAreWaitAndRetryNow(c, WAIT, RETRY_NOW);
  }

  /** Order neutrality, exactly: the ranking of distinct candidates depends on their set alone, whatever
      the AI proposes first, if and only if WAIT and RETRY_NOW do not tie in it. */
  lemma OrderNeutralIffNoTie(c: Context, s: seq<RecoveryAction>)
    requires Distinct(s)
    ensures (forall t | multiset(t) == multiset(s) :: Rank(c, t) == Rank(c, s)) <==> !HasTie(c, s)
  {
    TieOrNot(c, s);
    if HasTie(c, s) {
      var i :| 0 <= i < |s| && s[i] == WAIT;
      var j :| 0 <= j < |s| && s[j] == RETRY_NOW;
      TiesAreWaitAndRetryNow(c, WAIT, RETRY_NOW);
      var t := SensitiveToTies(KeysOf(c), s, if i < j then i else j, if i < j then j else i);
      assert multiset(t) == multiset(s) && Rank(c, t) != Rank(c, s);
    } else {
      forall t | multiset(t) == multiset(s) ensures Rank(c, t) == Rank(c, s) {
        NeutralWithoutTies(KeysOf(c), s, t);
      }
    }
  }
}
