/** The safety gate (app/services/policy.py), the candidate eligibility rules
    (app/services/candidate_generator.py) and the deterministic baseline
    (app/services/baseline.py), and how the first two relate. */
module Policy {
  import opened Domain

  /** PolicyEngine.evaluate: the early returns in their source order. */
  function Evaluate(action: RecoveryAction, domain: RecoveryDomain, category: FailureCategory,
                    health: Option<RouteStatus>): (r: (PolicyStatus, AutonomyLevel))
  {
    if category == NON_RETRIABLE && IsRetry(action) then (REJECTED, SUGGESTION_ONLY)
    else if domain == B2B && IsRetry(action) then (NEEDS_REVIEW, HUMAN_APPROVAL)
    else if domain == EMPLOYEE && action == GENERATE_PAYMENT_LINK then (REJECTED, SUGGESTION_ONLY)
    else if Unhealthy(health) && action == RETRY_NOW then (REJECTED, SUGGESTION_ONLY)
    else (APPROVED, FULL_AUTO)
  }

  /** CandidateGenerator.is_eligible. */
  predicate IsEligible(action: RecoveryAction, domain: RecoveryDomain, category: Option<FailureCategory>,
                       health: Option<RouteStatus>)
  {
    && !(category == Some(NON_RETRIABLE) && IsRetry(action))
    && !(domain == EMPLOYEE && action == GENERATE_PAYMENT_LINK)
    && !(Unhealthy(health) && action == RETRY_NOW)
  }

  /** DeterministicBaseline.decide. */
  function DecideBaseline(domain: RecoveryDomain, category: Option<FailureCategory>,
                          retryability: Option<Retryability>): RecoveryAction
  {
    if category == Some(TRANSIENT_TECHNICAL) && retryability == Some(LATER_RETRY_POSSIBLE) then RETRY_LATER
    else if category == Some(TRANSIENT_TECHNICAL) && retryability == Some(IMMEDIATE_RETRY_POSSIBLE) then RETRY_NOW
    else if domain == B2B && category == Some(UNKNOWN_CATEGORY) then ESCALATE_TO_HUMAN
    else if category == Some(NON_RETRIABLE) || retryability == Some(BLOCKED) then STOP_RECOVERY
    else if category == Some(CUSTOMER_ACTION_REQUIRED) then GENERATE_PAYMENT_LINK
    else if category == Some(PAYMENT_METHOD_PROBLEM) then REQUEST_PAYMENT_METHOD_UPDATE
    else if category == Some(UNKNOWN_CATEGORY) then ESCALATE_TO_HUMAN
    else STOP_RECOVERY
  }

  /** The gate and the generator agree: what the generator admits is never rejected, and the
      converse fails for one family only, an immediate business-to-business retry on an unhealthy
      route outside the non-retriable category (it is sent to review instead). */
  lemma EligibilityVersusPolicy(action: RecoveryAction, domain: RecoveryDomain, category: FailureCategory,
                                health: Option<RouteStatus>)
    ensures IsEligible(action, domain, Some(category), health)
            ==> Evaluate(action, domain, category, health).0 != REJECTED
    ensures (Evaluate(action, domain, category, health).0 != REJECTED
             ==> IsEligible(action, domain, Some(category), health))
            <==> !(domain == B2B && action == RETRY_NOW && Unhealthy(health) && category != NON_RETRIABLE)
  {
  }

  /** Forgetting the route health can turn a rejection into an approval but never the reverse. */
  lemma HealthOnlyRestricts(action: RecoveryAction, domain: RecoveryDomain, category: FailureCategory,
                            health: Option<RouteStatus>)
    requires Evaluate(action, domain, category, health).0 == APPROVED
    ensures Evaluate(action, domain, category, None) == (APPROVED, FULL_AUTO)
    ensures Evaluate(action, domain, category, health) == (APPROVED, FULL_AUTO)
  {
  }

  /** A payment link is approved exactly outside payroll, whatever the category and the route. */
  lemma LinkApprovedIffNotPayroll(domain: RecoveryDomain, category: FailureCategory, health: Option<RouteStatus>)
    ensures Evaluate(GENERATE_PAYMENT_LINK, domain, category, health).0 == APPROVED <==> domain != EMPLOYEE
  {
  }

  /** The verdict and the autonomy level say the same thing, and the middle verdict is for business-to-business
      retries only. */
  lemma AutonomyFollowsVerdict(action: RecoveryAction, domain: RecoveryDomain, category: FailureCategory,
                               health: Option<RouteStatus>)
    ensures var (status, autonomy) := Evaluate(action, domain, category, health);
      && (status == APPROVED <==> autonomy == FULL_AUTO)
      && (status == NEEDS_REVIEW <==> autonomy == HUMAN_APPROVAL)
      && (status == REJECTED <==> autonomy == SUGGESTION_ONLY)
      && (status == NEEDS_REVIEW <==> domain == B2B && IsRetry(action) && category != NON_RETRIABLE)
  {
  }

  /** What the gate rejects, and nothing else: retries of non-retriable failures, payroll payment links, and
      immediate retries on a degraded or critical route, unless they are business-to-business retries, which go
      to review. */
  lemma RejectedIff(action: RecoveryAction, domain: RecoveryDomain, category: FailureCategory, health: Option<RouteStatus>)
    ensures Evaluate(action, domain, category, health).0 == REJECTED <==>
              || ((action == RETRY_NOW || action == RETRY_LATER) && category == NON_RETRIABLE)
              || (action == GENERATE_PAYMENT_LINK && domain == EMPLOYEE)
              || (action == RETRY_NOW && domain != B2B && (health == Some(DEGRADED) || health == Some(CRITICAL)))
  {
  }

  /** The baseline, action by action. A transient failure is retried as its retryability says; otherwise a
      blocked one stops, except that an unknown business-to-business failure goes to a human; a customer's
      failure gets a link, a payment method's an update, an unknown one a human; and everything else stops. */
  lemma BaselineByAction(domain: RecoveryDomain, category: FailureCategory, retryability: Option<Retryability>)
    ensures var b := DecideBaseline(domain, Some(category), retryability);
      && (b == RETRY_NOW <==> category == TRANSIENT_TECHNICAL && retryability == Some(IMMEDIATE_RETRY_POSSIBLE))
      && (b == RETRY_LATER <==> category == TRANSIENT_TECHNICAL && retryability == Some(LATER_RETRY_POSSIBLE))
      && (b == GENERATE_PAYMENT_LINK <==> category == CUSTOMER_ACTION_REQUIRED && retryability != Some(BLOCKED))
      && (b == REQUEST_PAYMENT_METHOD_UPDATE <==> category == PAYMENT_METHOD_PROBLEM && retryability != Some(BLOCKED))
      && (b == ESCALATE_TO_HUMAN <==> category == UNKNOWN_CATEGORY && (domain == B2B || retryability != Some(BLOCKED)))
      && b != WAIT && b != SEND_REMINDER
  {
  }

  /** The deterministic baseline is eligible except in two situations: a payment link for a payroll case, and
      an immediate retry on an unhealthy route. */
  lemma BaselineEligibleIff(domain: RecoveryDomain, category: FailureCategory, retryability: Option<Retryability>,
                            health: Option<RouteStatus>)
    ensures IsEligible(DecideBaseline(domain, Some(category), retryability), domain, Some(category), health) <==>
              && !(domain == EMPLOYEE && category == CUSTOMER_ACTION_REQUIRED && retryability != Some(BLOCKED))
              && !(Unhealthy(health) && category == TRANSIENT_TECHNICAL && retryability == Some(IMMEDIATE_RETRY_POSSIBLE))
  {
  }
}
