/** Enumerations shared by every service of the recovery engine. */
module Domain {

  datatype Option<+T> = None | Some(value: T)

  datatype RecoveryAction =
    | RETRY_NOW
    | RETRY_LATER
    | REQUEST_PAYMENT_METHOD_UPDATE
    | GENERATE_PAYMENT_LINK
    | SEND_REMINDER
    | ESCALATE_TO_HUMAN
    | WAIT
    | STOP_RECOVERY

  datatype PolicyStatus = APPROVED | REJECTED | NEEDS_REVIEW

  datatype AutonomyLevel = FULL_AUTO | HUMAN_APPROVAL | SUGGESTION_ONLY

  datatype RecoveryDomain = B2C | B2B | EMPLOYEE | PLATFORM | PARTNER

  datatype FailureCategory =
    | TRANSIENT_TECHNICAL
    | CUSTOMER_ACTION_REQUIRED
    | PAYMENT_METHOD_PROBLEM
    | PROVIDER_DEGRADATION
    | MERCHANT_CONFIGURATION
    | RISK_OR_FRAUD
    | NON_RETRIABLE
    | UNKNOWN_CATEGORY

  datatype Retryability =
    | IMMEDIATE_RETRY_POSSIBLE
    | LATER_RETRY_POSSIBLE
    | REQUIRES_NEW_METHOD
    | BLOCKED

  // The status token of a payment corridor as the route analyser reports it.
  datatype RouteStatus = OPERATIONAL | DEGRADED | CRITICAL

  predicate IsRetry(action: RecoveryAction) {
    action == RETRY_NOW || action == RETRY_LATER
  }

  predicate Unhealthy(health: Option<RouteStatus>) {
    health == Some(DEGRADED) || health == Some(CRITICAL)
  }
}
