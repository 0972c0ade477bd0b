/** From an AI proposal to the selected action: candidate generation (app/services/candidate_generator.py),
    probability estimates (app/services/probability_provider.py), ranking and the policy loop
    (app/services/decision_engine.py:143-217). */
module DecisionPipeline {
  import opened Domain
  import opened Numbers
  import opened Ranking
  import opened StableSort
  import Policy

  /* ---- Candidate generation ---- */

  const MAX_CANDIDATES := 5

  datatype Proposal = Proposal(recommended: Option<RecoveryAction>, candidates: seq<RecoveryAction>)

  // The facts of the case that generation, ranking and policy share.
  datatype Facts = Facts(domain: RecoveryDomain, category: FailureCategory, retryability: Option<Retryability>,
                         health: Option<RouteStatus>, baseline: Option<RecoveryAction>)

  predicate Eligible(f: Facts, a: RecoveryAction) {
    Policy.IsEligible(a, f.domain, Some(f.category), f.health)
  }

  function BaselineOf(f: Facts): RecoveryAction {
    if f.baseline.Some? then f.baseline.value else Policy.DecideBaseline(f.domain, Some(f.category), f.retryability)
  }

  const POOL := [GENERATE_PAYMENT_LINK, SEND_REMINDER, REQUEST_PAYMENT_METHOD_UPDATE, RETRY_LATER, STOP_RECOVERY]

  function FromAI(ai: Option<Proposal>): seq<RecoveryAction> {
    if ai.None? then []
    else (if ai.value.recommended.Some? then [ai.value.recommended.value] else []) + ai.value.candidates
  }

  function Raw(f: Facts, ai: Option<Proposal>): seq<RecoveryAction> {
    FromAI(ai) + [BaselineOf(f)] + POOL
  }

  /** The eligible actions of `raw`, each at its first occurrence. */
  function EligibleOnce(f: Facts, raw: seq<RecoveryAction>): seq<RecoveryAction> {
    if raw == [] then []
    else
      var before, a := EligibleOnce(f, raw[..|raw| - 1]), raw[|raw| - 1];
      if Eligible(f, a) && a !in before then before + [a] else before
  }

  function FirstFive(s: seq<RecoveryAction>): seq<RecoveryAction> {
    if |s| <= MAX_CANDIDATES then s else s[..MAX_CANDIDATES]
  }

  function Candidates(f: Facts, ai: Option<Proposal>): seq<RecoveryAction> {
    FirstFive(EligibleOnce(f, Raw(f, ai)))
  }

  lemma {:induction false} EligibleOnceIs(f: Facts, raw: seq<RecoveryAction>)
    ensures Distinct(EligibleOnce(f, raw))
    ensures forall a :: a in EligibleOnce(f, raw) <==> a in raw && Eligible(f, a)
  {
    if raw != [] {
      EligibleOnceIs(f, raw[..|raw| - 1]);
      assert raw == raw[..|raw| - 1] + [raw[|raw| - 1]];
    }
  }

  lemma {:induction false} EligibleOnceExtends(f: Facts, raw: seq<RecoveryAction>, more: seq<RecoveryAction>)
    ensures EligibleOnce(f, raw) <= EligibleOnce(f, raw + more)
  {
    if more == [] {
      assert raw + more == raw;
    } else {
      EligibleOnceExtends(f, raw, more[..|more| - 1]);
      assert (raw + more)[..|raw + more| - 1] == raw + more[..|more| - 1];
    }
  }

  lemma FirstFiveIsPrefix(s: seq<RecoveryAction>, t: seq<RecoveryAction>)
    requires s <= t && (|s| == MAX_CANDIDATES || s == t)
    requires |s| <= MAX_CANDIDATES
    ensures FirstFive(t) == s
  {
  }

  // The collecting loop.
  method CollectEligible(f: Facts, raw: seq<RecoveryAction>) returns (out: seq<RecoveryAction>)
    ensures out == FirstFive(EligibleOnce(f, raw))
  {
    var seen: set<RecoveryAction> := {};
    out := [];
    var i := 0;
    while i < |raw| && |out| < MAX_CANDIDATES
      invariant 0 <= i <= |raw| && |out| <= MAX_CANDIDATES
      invariant out == EligibleOnce(f, raw[..i])
      invariant forall a :: a in seen <==> a in out
    {
      assert raw[..i + 1][..i] == raw[..i];
      if raw[i] !in seen && Eligible(f, raw[i]) {
        seen := seen + {raw[i]};
        out := out + [raw[i]];
      }
      i := i + 1;
    }
    EligibleOnceExtends(f, raw[..i], raw[i..]);
    assert raw[..i] + raw[i..] == raw;
    assert i == |raw| ==> raw[..i] == raw;
    FirstFiveIsPrefix(out, EligibleOnce(f, raw));
  }

  /** generate_candidates: the first five distinct eligible actions; the fallback for an empty list is
      never needed. */
  method GenerateCandidates(f: Facts, ai: Option<Proposal>) returns (out: seq<RecoveryAction>)
    ensures out == Candidates(f, ai)
    ensures out != []
  {
    var raw: seq<RecoveryAction> := [];
    if ai.Some? && ai.value.recommended.Some? {
      raw := raw + [ai.value.recommended.value];
    }
    if ai.Some? {
      raw := raw + ai.value.candidates;
    }
    var baseline := f.baseline;
    if baseline.None? {
      baseline := Some(Policy.DecideBaseline(f.domain, Some(f.category), f.retryability));
    }
    raw := raw + [baseline.value];
    raw := raw + POOL;
    assert raw == Raw(f, ai);
    out := CollectEligible(f, raw);
    StopIsEligible(f, ai);
  }

  lemma StopIsEligible(f: Facts, ai: Option<Proposal>)
    ensures STOP_RECOVERY in EligibleOnce(f, Raw(f, ai))
  {
    EligibleOnceIs(f, Raw(f, ai));
    assert POOL[4] == STOP_RECOVERY;
  }

  lemma CandidatesAre(f: Facts, ai: Option<Proposal>)
    ensures Distinct(Candidates(f, ai)) && 1 <= |Candidates(f, ai)| <= MAX_CANDIDATES
    ensures forall a | a in Candidates(f, ai) :: Eligible(f, a)
  {
    EligibleOnceIs(f, Raw(f, ai));
    StopIsEligible(f, ai);
  }

  /** The AI can keep the baseline off the list in one way only: an ineligible baseline is never on it, and
      an eligible one is missing exactly when the AI itself proposes five other eligible actions before
      naming it. */
  lemma BaselineIsCandidateIff(f: Facts, ai: Option<Proposal>)
    ensures var own := EligibleOnce(f, FromAI(ai));
      BaselineOf(f) in Candidates(f, ai) <==>
        Eligible(f, BaselineOf(f)) && (|own| < MAX_CANDIDATES || BaselineOf(f) in FirstFive(own))
  {
    var own, b := EligibleOnce(f, FromAI(ai)), BaselineOf(f);
    var upTo := FromAI(ai) + [b];
    assert upTo[..|upTo| - 1] == FromAI(ai);
    EligibleOnceIs(f, upTo);
    EligibleOnceIs(f, Raw(f, ai));
    EligibleOnceExtends(f, FromAI(ai), [b]);
    EligibleOnceExtends(f, upTo, POOL);
    assert upTo + POOL == Raw(f, ai);
    if |own| >= MAX_CANDIDATES {
      PrefixesShareFirstFive(own, EligibleOnce(f, Raw(f, ai)));
      EligibleOnceIs(f, FromAI(ai));
    } else {
      PrefixIsAmongFirstFive(EligibleOnce(f, upTo), EligibleOnce(f, Raw(f, ai)), b);
    }
  }

  /** An eligible recommendation is the first candidate. */
  lemma RecommendedFirst(f: Facts, ai: Option<Proposal>)
    requires ai.Some? && ai.value.recommended.Some? && Eligible(f, ai.value.recommended.value)
    ensures Candidates(f, ai)[..1] == [ai.value.recommended.value]
  {
    FirstOfRaw(f, ai.value.recommended.value, ai.value.candidates + [BaselineOf(f)] + POOL);
    assert [ai.value.recommended.value] + (ai.value.candidates + [BaselineOf(f)] + POOL) == Raw(f, ai);
  }

  lemma FirstOfRaw(f: Facts, a: RecoveryAction, more: seq<RecoveryAction>)
    requires Eligible(f, a)
    ensures EligibleOnce(f, [a] + more) != [] && EligibleOnce(f, [a] + more)[0] == a
  {
    assert [a][..0] == [];
    assert EligibleOnce(f, [a]) == [a];
    EligibleOnceExtends(f, [a], more);
  }

  // What everybody is offered: a link, a reminder, another payment method, a later retry, and stopping.
  predicate InPool(a: RecoveryAction) {
    a == GENERATE_PAYMENT_LINK || a == SEND_REMINDER || a == REQUEST_PAYMENT_METHOD_UPDATE || a == RETRY_LATER
    || a == STOP_RECOVERY
  }

  // `after` is `before` with `x` at the end, if `x` is eligible and not yet listed.
  ghost predicate Takes(f: Facts, before: seq<RecoveryAction>, after: seq<RecoveryAction>, x: RecoveryAction) {
    && before <= after && |after| == |before| + (if Eligible(f, x) && x !in before then 1 else 0)
    && forall a :: a in after <==> a in before || (a == x && Eligible(f, x))
  }

  lemma OnceMore(f: Facts, raw: seq<RecoveryAction>, more: seq<RecoveryAction>, x: RecoveryAction)
    requires more == raw + [x]
    ensures Takes(f, EligibleOnce(f, raw), EligibleOnce(f, more), x)
  {
    assert more[..|raw|] == raw;
  }

  // Four steps from the list that holds at most the baseline.
  lemma FourMore(f: Facts, b: RecoveryAction, p0: seq<RecoveryAction>, p1: seq<RecoveryAction>, p2: seq<RecoveryAction>,
                 p3: seq<RecoveryAction>, p4: seq<RecoveryAction>)
    requires p0 == if Eligible(f, b) then [b] else []
    requires Takes(f, p0, p1, GENERATE_PAYMENT_LINK) && Takes(f, p1, p2, SEND_REMINDER)
    requires Takes(f, p2, p3, REQUEST_PAYMENT_METHOD_UPDATE) && Takes(f, p3, p4, RETRY_LATER)
    ensures |p4| <= 5
    ensures |p4| == 5 && STOP_RECOVERY !in p4 <==>
              !InPool(b) && Eligible(f, b) && Eligible(f, GENERATE_PAYMENT_LINK) && Eligible(f, RETRY_LATER)
    ensures forall a :: a in p4 <==> Eligible(f, a) && (a == b || (InPool(a) && a != STOP_RECOVERY))
  {
  }

  lemma PoolIs(b: RecoveryAction)
    ensures [b] + POOL == [b] + [GENERATE_PAYMENT_LINK] + [SEND_REMINDER] + [REQUEST_PAYMENT_METHOD_UPDATE] + [RETRY_LATER]
                          + [STOP_RECOVERY]
  {
  }

  lemma OnceAlone(f: Facts, b: RecoveryAction)
    ensures EligibleOnce(f, [b]) == if Eligible(f, b) then [b] else []
  {
    assert [b][..0] == [];
  }

  // The list without a proposal up to its last step.
  lemma PoolSteps(f: Facts, b: RecoveryAction) returns (p4: seq<RecoveryAction>)
    ensures Takes(f, p4, EligibleOnce(f, [b] + POOL), STOP_RECOVERY)
    ensures |p4| <= 5
    ensures |p4| == 5 && STOP_RECOVERY !in p4 <==>
              !InPool(b) && Eligible(f, b) && Eligible(f, GENERATE_PAYMENT_LINK) && Eligible(f, RETRY_LATER)
    ensures forall a :: a in p4 <==> Eligible(f, a) && (a == b || (InPool(a) && a != STOP_RECOVERY))
  {
    var r0 := [b];
    var r1 := r0 + [GENERATE_PAYMENT_LINK];
    var r2 := r1 + [SEND_REMINDER];
    var r3 := r2 + [REQUEST_PAYMENT_METHOD_UPDATE];
    var r4 := r3 + [RETRY_LATER];
    p4 := EligibleOnce(f, r4);
    OnceAlone(f, b);
    OnceMore(f, r0, r1, GENERATE_PAYMENT_LINK);
    OnceMore(f, r1, r2, SEND_REMINDER);
    OnceMore(f, r2, r3, REQUEST_PAYMENT_METHOD_UPDATE);
    OnceMore(f, r3, r4, RETRY_LATER);
    FourMore(f, b, EligibleOnce(f, r0), EligibleOnce(f, r1), EligibleOnce(f, r2), EligibleOnce(f, r3), p4);
    PoolIs(b);
    OnceMore(f, r4, [b] + POOL, STOP_RECOVERY);
  }

  /** Without a proposal the candidates are the eligible ones of the baseline and the pool, the baseline first;
      only stopping can be crowded out, by an eligible baseline outside the pool beside four eligible others. */
  lemma WithoutProposal(f: Facts, a: RecoveryAction)
    ensures Eligible(f, BaselineOf(f)) ==> Candidates(f, None)[..1] == [BaselineOf(f)]
    ensures a in Candidates(f, None) <==>
              && Eligible(f, a) && (a == BaselineOf(f) || InPool(a))
              && (a == STOP_RECOVERY ==> InPool(BaselineOf(f)) || !Eligible(f, BaselineOf(f))
                                         || !Eligible(f, GENERATE_PAYMENT_LINK) || !Eligible(f, RETRY_LATER))
  {
    var b := BaselineOf(f);
    assert Raw(f, None) == [b] + POOL;
    if Eligible(f, b) { FirstOfRaw(f, b, POOL); }
    var p4 := PoolSteps(f, b);
    FirstFiveOf(p4, EligibleOnce(f, [b] + POOL));
  }

  lemma FirstFiveOf(s: seq<RecoveryAction>, t: seq<RecoveryAction>)
    requires s <= t && |s| <= 5 && |t| <= |s| + 1
    ensures FirstFive(t) == if |s| == 5 then s else t
  {
  }

  lemma PrefixesShareFirstFive(s: seq<RecoveryAction>, t: seq<RecoveryAction>)
    requires s <= t && |s| >= MAX_CANDIDATES
    ensures FirstFive(s) == FirstFive(t)
    ensures forall a | a in FirstFive(t) :: a in s
  {
  }

  lemma PrefixIsAmongFirstFive(s: seq<RecoveryAction>, t: seq<RecoveryAction>, a: RecoveryAction)
    requires s <= t && |s| <= MAX_CANDIDATES
    ensures a in s ==> a in FirstFive(t)
    ensures a in FirstFive(t) ==> a in t
  {
    if a in s {
      var k :| 0 <= k < |s| && s[k] == a;
      assert FirstFive(t)[k] == a;
    }
  }

  /* ---- The policy loop ---- */

  datatype Selection = Selection(action: RecoveryAction, status: PolicyStatus, autonomy: AutonomyLevel)

  /** The loop over the ranking: the first candidate the policy does not reject, or a safe stop. */
  method SelectCandidate(f: Facts, ranked: seq<RecoveryAction>) returns (s: Selection, fallback: bool)
    ensures fallback <==> forall a | a in ranked :: Policy.Evaluate(a, f.domain, f.category, f.health).0 == REJECTED
    ensures fallback ==> s == Selection(STOP_RECOVERY, APPROVED, FULL_AUTO)
    ensures !fallback ==> exists i ::
              && 0 <= i < |ranked| && s.action == ranked[i]
              && (s.status, s.autonomy) == Policy.Evaluate(ranked[i], f.domain, f.category, f.health)
              && s.status != REJECTED
              && forall j | 0 <= j < i :: Policy.Evaluate(ranked[j], f.domain, f.category, f.health).0 == REJECTED
  {
    var i := 0;
    while i < |ranked|
      invariant 0 <= i <= |ranked|
      invariant forall j | 0 <= j < i :: Policy.Evaluate(ranked[j], f.domain, f.category, f.health).0 == REJECTED
    {
      var (status, autonomy) := Policy.Evaluate(ranked[i], f.domain, f.category, f.health);
      if status == APPROVED || status == NEEDS_REVIEW {
        return Selection(ranked[i], status, autonomy), false;
      }
      i := i + 1;
    }
    return Selection(STOP_RECOVERY, APPROVED, FULL_AUTO), true;
  }

  lemma CandidateIsNotRejected(f: Facts, ai: Option<Proposal>, a: RecoveryAction)
    requires a in Candidates(f, ai)
    ensures Policy.Evaluate(a, f.domain, f.category, f.health).0 != REJECTED
  {
    CandidatesAre(f, ai);
    Policy.EligibilityVersusPolicy(a, f.domain, f.category, f.health);
  }

  lemma RankHas(c: Context, candidates: seq<RecoveryAction>, a: RecoveryAction)
    ensures a in Rank(c, candidates) <==> a in candidates
    ensures |Rank(c, candidates)| == |candidates|
  {
    SortPermutes(KeysOf(c), candidates);
    assert a in multiset(Rank(c, candidates)) <==> a in multiset(candidates);
    assert |multiset(Rank(c, candidates))| == |Rank(c, candidates)|;
  }

  /** The gate never has to intervene: for every proposal and every context, no generated candidate is
      rejected, so the head of the ranking is what is selected and the fallback is out of reach. */
  lemma GateNeverRejectsCandidates(f: Facts, ai: Option<Proposal>, c: Context)
    ensures Rank(c, Candidates(f, ai)) != []
    ensures forall a | a in Rank(c, Candidates(f, ai)) :: Policy.Evaluate(a, f.domain, f.category, f.health).0 != REJECTED
  {
    var candidates := Candidates(f, ai);
    CandidatesAre(f, ai);
    RankHas(c, candidates, STOP_RECOVERY);
    forall a | a in Rank(c, candidates)
      ensures Policy.Evaluate(a, f.domain, f.category, f.health).0 != REJECTED
    {
      RankHas(c, candidates, a);
      CandidateIsNotRejected(f, ai, a);
    }
  }

  lemma HeadIsBest(c: Context, candidates: seq<RecoveryAction>, a: RecoveryAction)
    requires Distinct(candidates) && a in candidates
    ensures Rank(c, candidates) != [] && Rank(c, candidates)[0] in candidates
    ensures Enr(c, a) <= Enr(c, Rank(c, candidates)[0])
    ensures a != Rank(c, candidates)[0] ==> !Before(Rank(c, candidates), a, Rank(c, candidates)[0])
  {
    var out := Rank(c, candidates);
    RankHas(c, candidates, a);
    RankHas(c, candidates, out[0]);
    SortPermutes(KeysOf(c), candidates);
    DistinctByMultiset(candidates, out);
    if a != out[0] && Enr(c, a) > Enr(c, out[0]) { HigherValueFirst(c, candidates, a, out[0]); }
  }

  /** Stopping is the last resort: it heads the ranking exactly when it is a candidate and every other one is
      worth less, or no more when stopping is the baseline itself. */
  lemma StopIsTheLastResort(c: Context, candidates: seq<RecoveryAction>)
    requires Distinct(candidates) && candidates != []
    ensures Rank(c, candidates) != []
    ensures Rank(c, candidates)[0] == STOP_RECOVERY <==>
              && STOP_RECOVERY in candidates
              && forall a | a in candidates && a != STOP_RECOVERY ::
                   Enr(c, a) < Enr(c, STOP_RECOVERY) || (c.baseline == Some(STOP_RECOVERY) && Enr(c, a) == Enr(c, STOP_RECOVERY))
  {
    var out := Rank(c, candidates);
    HeadIsBest(c, candidates, candidates[0]);
    if out[0] == STOP_RECOVERY {
      forall a | a in candidates && a != STOP_RECOVERY
        ensures Enr(c, a) < Enr(c, STOP_RECOVERY) || (c.baseline == Some(STOP_RECOVERY) && Enr(c, a) == Enr(c, STOP_RECOVERY))
      {
        HeadIsBest(c, candidates, a);
        if Enr(c, a) == Enr(c, STOP_RECOVERY) && c.baseline != Some(STOP_RECOVERY) { OthersBeforeStop(c, candidates, a); }
      }
    } else if STOP_RECOVERY in candidates {
      HeadIsBest(c, candidates, STOP_RECOVERY);
      if Enr(c, out[0]) == Enr(c, STOP_RECOVERY) && c.baseline == Some(STOP_RECOVERY) {
        BaselineFirstAmongEquals(c, candidates, STOP_RECOVERY, out[0]);
      }
    }
  }

  lemma OthersBeforeStop(c: Context, candidates: seq<RecoveryAction>, a: RecoveryAction)
    requires Listed(candidates, a, STOP_RECOVERY) && Enr(c, a) == Enr(c, STOP_RECOVERY) && c.baseline != Some(STOP_RECOVERY)
    ensures Before(Rank(c, candidates), a, STOP_RECOVERY)
  {
    if c.baseline == Some(a) {
      BaselineFirstAmongEquals(c, candidates, a, STOP_RECOVERY);
    } else {
      var k := match a
        case GENERATE_PAYMENT_LINK => 0
        case REQUEST_PAYMENT_METHOD_UPDATE => 1
        case SEND_REMINDER => 2
        case RETRY_LATER => 3
        case WAIT => 4
        case RETRY_NOW => 4
        case _ => 5;
      EqualsByPreference(c, candidates, a, STOP_RECOVERY, k, 6);
    }
  }

  /** The decision of one cycle: generate, rank, gate. */
  method Decide(f: Facts, ai: Option<Proposal>, c: Context) returns (s: Selection)
    ensures Rank(c, Candidates(f, ai)) != [] && s.action == Rank(c, Candidates(f, ai))[0]
    ensures (s.status, s.autonomy) == Policy.Evaluate(s.action, f.domain, f.category, f.health)
    ensures s.status != REJECTED
    ensures s.action in Candidates(f, ai) && forall a | a in Candidates(f, ai) :: Enr(c, a) <= Enr(c, s.action)
    ensures s.action == STOP_RECOVERY && c.baseline != Some(STOP_RECOVERY) ==>
              forall a | a in Candidates(f, ai) && a != STOP_RECOVERY :: Enr(c, a) < Enr(c, STOP_RECOVERY)
  {
    var candidates := GenerateCandidates(f, ai);
    var ranked := RankCandidates(c, candidates);
    var actions := seq(|ranked|, i requires 0 <= i < |ranked| => ranked[i].action);
    assert actions == Rank(c, candidates);
    GateNeverRejectsCandidates(f, ai, c);
    var fallback;
    s, fallback := SelectCandidate(f, actions);
    assert actions[0] in actions;
    HeadWins(c, f, ai);
  }

  lemma HeadWins(c: Context, f: Facts, ai: Option<Proposal>)
    ensures var candidates := Candidates(f, ai); var out := Rank(c, candidates);
      && out != [] && out[0] in candidates
      && (forall a | a in candidates :: Enr(c, a) <= Enr(c, out[0]))
      && (out[0] == STOP_RECOVERY && c.baseline != Some(STOP_RECOVERY) ==>
            forall a | a in candidates && a != STOP_RECOVERY :: Enr(c, a) < Enr(c, STOP_RECOVERY))
  {
    CandidatesAre(f, ai);
    StopIsTheLastResort(c, Candidates(f, ai));
    forall a | a in Candidates(f, ai) ensures Enr(c, a) <= Enr(c, Rank(c, Candidates(f, ai))[0]) {
      HeadIsBest(c, Candidates(f, ai), a);
    }
    HeadIsBest(c, Candidates(f, ai), Candidates(f, ai)[0]);
  }

  /* ---- Probability estimates ---- */

  const MIN_HISTORICAL_MATCHES := 5

  // A retrieved case: the names of its action and of its outcome, upper-cased.
  datatype Historical = Historical(action: string, outcome: string)

  function Name(a: RecoveryAction): string {
    match a
    case RETRY_NOW => "RETRY_NOW"
    case RETRY_LATER => "RETRY_LATER"
    case REQUEST_PAYMENT_METHOD_UPDATE => "REQUEST_PAYMENT_METHOD_UPDATE"
    case GENERATE_PAYMENT_LINK => "GENERATE_PAYMENT_LINK"
    case SEND_REMINDER => "SEND_REMINDER"
    case ESCALATE_TO_HUMAN => "ESCALATE_TO_HUMAN"
    case WAIT => "WAIT"
    case STOP_RECOVERY => "STOP_RECOVERY"
  }

  predicate IsSuccess(outcome: string) {
    outcome == "RECOVERED" || outcome == "SUCCESS" || outcome == "PAID"
  }

  function Matches(cases: seq<Historical>, a: RecoveryAction): nat {
    if cases == [] then 0
    else Matches(cases[..|cases| - 1], a) + if cases[|cases| - 1].action == Name(a) then 1 else 0
  }

  function Successes(cases: seq<Historical>, a: RecoveryAction): (n: nat)
    ensures n <= Matches(cases, a)
  {
    if cases == [] then 0
    else
      var last := cases[|cases| - 1];
      Successes(cases[..|cases| - 1], a) + if last.action == Name(a) && IsSuccess(last.outcome) then 1 else 0
  }

  /** One retrieved case more counts for the action it names, and as a success if its outcome says recovered,
      success or paid. */
  lemma OneMoreCase(cases: seq<Historical>, h: Historical, a: RecoveryAction)
    ensures Matches(cases + [h], a) == Matches(cases, a) + (if h.action == Name(a) then 1 else 0)
    ensures Successes(cases + [h], a) == Successes(cases, a)
              + (if h.action == Name(a) && (h.outcome == "RECOVERED" || h.outcome == "SUCCESS" || h.outcome == "PAID") then 1 else 0)
  {
    assert (cases + [h])[..|cases|] == cases;
  }

  datatype Provenance = EmpiricalHistory | DeterministicPrior

  // The counting loop.
  method CountMatches(cases: seq<Historical>, a: RecoveryAction) returns (total: nat, successes: nat)
    ensures total == Matches(cases, a) && successes == Successes(cases, a)
  {
    total, successes := 0, 0;
    var i := 0;
    while i < |cases|
      invariant 0 <= i <= |cases|
      invariant total == Matches(cases[..i], a) && successes == Successes(cases[..i], a)
    {
      assert cases[..i + 1][..i] == cases[..i];
      if cases[i].action == Name(a) {
        total := total + 1;
        if IsSuccess(cases[i].outcome) {
          successes := successes + 1;
        }
      }
      i := i + 1;
    }
    assert cases[..i] == cases;
  }

  /** ProbabilityProvider.estimate: the success rate of at least five matches, the prior otherwise. */
  method Estimate(cases: seq<Historical>, a: RecoveryAction, prior: real) returns (p: real, provenance: Provenance)
    ensures p == EstimateOf(cases, prior)(a)
    ensures provenance == EmpiricalHistory <==> Matches(cases, a) >= 5
    ensures provenance == EmpiricalHistory ==> p == Rate(Successes(cases, a), Matches(cases, a))
    ensures 0.0 <= p <= 1.0
  {
    var total, successes := CountMatches(cases, a);
    if total < MIN_HISTORICAL_MATCHES {
      return Clamp01(prior), DeterministicPrior;
    }
    p, provenance := Clamp01(Rate(successes, total)), EmpiricalHistory;
  }

  function Rate(s: nat, n: nat): (r: real)
    requires s <= n && n > 0
    ensures 0.0 <= r <= 1.0 && r * n as real == s as real
  {
    RateFits(s as real, n as real);
    s as real / n as real
  }

  lemma RateFits(s: real, n: real)
    requires 0.0 <= s <= n && n > 0.0
    ensures 0.0 <= s / n <= 1.0 && s / n * n == s
  {
  }

  lemma NamesDiffer(a: RecoveryAction, b: RecoveryAction)
    requires a != b
    ensures Name(a) != Name(b)
  {
    var x, y := Name(a), Name(b);
    assert |x| != |y| || x[0] != y[0] || x[|x| - 1] != y[|y| - 1];
  }

  lemma {:induction false} MatchesShare(cases: seq<Historical>, a: RecoveryAction, b: RecoveryAction)
    requires a != b
    ensures Matches(cases, a) + Matches(cases, b) <= |cases|
  {
    if cases != [] {
      MatchesShare(cases[..|cases| - 1], a, b);
      NamesDiffer(a, b);
    }
  }

  /** With fewer than ten retrieved cases, in particular with the five that are retrieved, at most one
      action leaves the prior. */
  lemma AtMostOneLeavesThePrior(cases: seq<Historical>, a: RecoveryAction, b: RecoveryAction)
    requires |cases| < 2 * MIN_HISTORICAL_MATCHES
    requires Matches(cases, a) >= MIN_HISTORICAL_MATCHES && Matches(cases, b) >= MIN_HISTORICAL_MATCHES
    ensures a == b
  {
    if a != b { MatchesShare(cases, a, b); }
  }

  // What `Estimate` computes, as a function of the action.
  function EstimateOf(cases: seq<Historical>, prior: real): RecoveryAction -> real {
    (a: RecoveryAction) =>
      if Matches(cases, a) >= MIN_HISTORICAL_MATCHES then
        Clamp01(Rate(Successes(cases, a), Matches(cases, a)))
      else Clamp01(prior)
  }

  /* ---- The AI cannot steer ---- */

  lemma BaselineWinsTies(c: Context, candidates: seq<RecoveryAction>, b: RecoveryAction)
    requires Distinct(candidates) && b in candidates && c.baseline == Some(b)
    requires forall a | a in candidates :: Enr(c, a) == Enr(c, b)
    ensures Rank(c, candidates) != [] && Rank(c, candidates)[0] == b
  {
    var out := Rank(c, candidates);
    SortPermutes(KeysOf(c), candidates);
    SortIsSorted(KeysOf(c), candidates);
    assert b in multiset(out);
    var k :| 0 <= k < |out| && out[k] == b;
    RankHas(c, candidates, out[0]);
    assert Enr(c, out[0]) == Enr(c, b);
    assert k > 0 ==> !Less(KeysOf(c), out[k], out[0]);
  }

  /** Whatever the AI proposes, as long as no action has five matches in the retrieved history and the
      baseline is among the candidates, the selected action is the baseline. */
  lemma NoSteeringWithoutHistory(f: Facts, ai: Option<Proposal>, c: Context, cases: seq<Historical>, prior: real)
    requires c.estimate == EstimateOf(cases, prior) && c.baseline == Some(BaselineOf(f))
    requires forall a :: Matches(cases, a) < MIN_HISTORICAL_MATCHES
    requires BaselineOf(f) in Candidates(f, ai)
    ensures Rank(c, Candidates(f, ai)) != [] && Rank(c, Candidates(f, ai))[0] == BaselineOf(f)
  {
    CandidatesAre(f, ai);
    forall a ensures Enr(c, a) == Enr(c, BaselineOf(f)) {
      assert c.estimate(a) == Clamp01(prior) == c.estimate(BaselineOf(f));
    }
    BaselineWinsTies(c, Candidates(f, ai), BaselineOf(f));
  }
}
