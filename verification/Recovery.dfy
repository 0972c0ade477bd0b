/** Recovery outcomes and incremental measurements (app/services/recovery.py). */
module Recovery {
  import opened Domain
  import Policy

  datatype ProviderStatus = PROVIDER_SUCCEEDED | PROVIDER_FAILED | PROVIDER_UNKNOWN

  datatype OutcomeStatus = RECOVERED | PARTIALLY_RECOVERED | NO_RECOVERY | FAILED | UNKNOWN

  datatype RecoverySource = ACTION_ATTRIBUTED | ORGANIC_RECOVERY | UNKNOWN_ATTRIBUTION

  // What proves that money arrived: a paid webhook, or a link-creation call that the provider
  // answered with a paid status.
  datatype Evidence = Webhook(event: nat) | Dispatch(action: nat, attempt: nat)

  // The action an outcome is filed under; `None` in the outcome row stands for no action at all.
  datatype ActionRef = ActionRef(id: nat, createdAt: int)

  // `evidence` names the confirmation the outcome was recorded for; the source keeps only the
  // provider's resource id.
  datatype Outcome = Outcome(
    caseId: nat,
    tenant: nat,
    action: Option<ActionRef>,
    status: OutcomeStatus,
    amount: int,
    recoveredAt: Option<int>,
    source: RecoverySource,
    window: int,
    evidence: Evidence)

  datatype Variant = TREATMENT | CONTROL

  datatype Measurement = Measurement(
    estimatedControl: int,
    treatment: int,
    control: int,
    incremental: int,
    variant: Variant,
    window: int)

  datatype Recorded = Recorded(outcome: Outcome, measurement: Option<Measurement>)

  // What record_outcome reads from its arguments and from the attribution setting.
  datatype Receipt = Receipt(
    caseId: nat,
    tenant: nat,
    caseAmount: int,
    status: ProviderStatus,
    metadataAmount: Option<int>,
    amountOverride: Option<int>,
    at: int,
    window: int,
    evidence: Evidence)

  // What create_measurement reads besides the outcome: the case facts of its context, the tenant's
  // active experiment with its allocation percentage, and the stable hash bucket in 1..100.
  datatype MeasureContext = MeasureContext(
    caseAmount: int,
    domain: RecoveryDomain,
    category: Option<FailureCategory>,
    retryability: Option<Retryability>,
    allocation: Option<int>,
    bucket: int,
    window: int)

  predicate Recovers(status: OutcomeStatus) {
    status == RECOVERED || status == PARTIALLY_RECOVERED
  }

  function RecoveredAmount(r: Receipt): int {
    if r.amountOverride.Some? then r.amountOverride.value
    else if r.status == PROVIDER_SUCCEEDED then
      (if r.metadataAmount.Some? then r.metadataAmount.value else r.caseAmount)
    else 0
  }

  function StatusOf(r: Receipt): OutcomeStatus {
    if r.status == PROVIDER_SUCCEEDED then
      if r.caseAmount > 0 && RecoveredAmount(r) < r.caseAmount then PARTIALLY_RECOVERED
      else if RecoveredAmount(r) == 0 && r.caseAmount > 0 then NO_RECOVERY
      else RECOVERED
    else if r.status == PROVIDER_FAILED then FAILED
    else UNKNOWN
  }

  function SourceOf(r: Receipt, action: Option<ActionRef>): RecoverySource {
    if !Recovers(StatusOf(r)) then UNKNOWN_ATTRIBUTION
    else if action.None? then ORGANIC_RECOVERY
    else if r.at < action.value.createdAt then ORGANIC_RECOVERY
    else if r.at - action.value.createdAt > r.window then UNKNOWN_ATTRIBUTION
    else ACTION_ATTRIBUTED
  }

  /** The outcome row that record_outcome inserts when none exists for the action. Its status is
      recovered exactly for a successful provider answer, so NO_RECOVERY is never used; attribution to
      the action means exactly that the action was created no later than the recovery and at most one
      window before it. */
  function NewOutcome(r: Receipt, action: Option<ActionRef>): (o: Outcome)
    ensures Recovers(o.status) <==> r.status == PROVIDER_SUCCEEDED
    ensures o.status != NO_RECOVERY
    ensures o.status == FAILED <==> r.status == PROVIDER_FAILED
    ensures r.amountOverride.None? && !Recovers(o.status) ==> o.amount == 0
    ensures o.window == r.window && o.caseId == r.caseId && o.tenant == r.tenant && o.action == action
    ensures o.status == PARTIALLY_RECOVERED <==>
            r.status == PROVIDER_SUCCEEDED && 0 < r.caseAmount && o.amount < r.caseAmount
    ensures o.recoveredAt == Some(r.at) <==> Recovers(o.status)
    ensures o.source == ACTION_ATTRIBUTED <==>
            Recovers(o.status) && action.Some?
            && action.value.createdAt <= r.at <= action.value.createdAt + r.window
    ensures o.source == ORGANIC_RECOVERY <==>
            Recovers(o.status) && (action.None? || r.at < action.value.createdAt)
  {
    Outcome(r.caseId, r.tenant, action, StatusOf(r), RecoveredAmount(r),
            if Recovers(StatusOf(r)) then Some(r.at) else None, SourceOf(r, action), r.window, r.evidence)
  }

  /** record_outcome: the first outcome filed for an action wins. */
  function FirstOutcome(existing: Option<Recorded>, r: Receipt, action: Option<ActionRef>): Recorded {
    if existing.Some? then existing.value else Recorded(NewOutcome(r, action), None)
  }

  function TruncateToZero(n: int, d: int): int
    requires d > 0
  {
    if n >= 0 then n / d else -((-n) / d)
  }

  // The baseline stops, which the estimate books as recovering nothing.
  predicate BaselineStops(c: MeasureContext) {
    var category := if c.category.Some? then c.category.value else UNKNOWN_CATEGORY;
    var retryability := if c.retryability.Some? then c.retryability.value else BLOCKED;
    Policy.DecideBaseline(c.domain, Some(category), Some(retryability)) == STOP_RECOVERY
  }

  /** Where the baseline stops. A case without a retryability on file counts as blocked, and one without a
      category as unknown; a blocked case stops unless it is an unknown business-to-business one, and any other
      stops for want of a category the baseline acts on. */
  lemma BaselineStopsIff(c: MeasureContext)
    ensures BaselineStops(c) <==>
      if c.retryability.None? || c.retryability.value == BLOCKED then
        !(c.domain == B2B && (c.category.None? || c.category.value == UNKNOWN_CATEGORY))
      else
        c.category.Some? &&
        match c.category.value
        case PROVIDER_DEGRADATION => true
        case MERCHANT_CONFIGURATION => true
        case RISK_OR_FRAUD => true
        case NON_RETRIABLE => true
        case TRANSIENT_TECHNICAL => c.retryability.value == REQUIRES_NEW_METHOD
        case _ => false
  {
  }

  /** BaselineService.get_deterministic_baseline: five per cent of the amount in major units (the
      recovered amounts it is later compared with are in minor units). */
  function EstimatedControl(c: MeasureContext): int {
    if BaselineStops(c) then 0 else TruncateToZero(c.caseAmount, 2000)
  }

  /** The estimate is nothing where the baseline stops, and otherwise a hundredth of the five per cent it is
      documented as: the amount it is taken of is in major units, while the recoveries it is subtracted from
      are in minor ones. It is rounded towards zero. */
  lemma EstimateIsAHundredthOfFivePercent(c: MeasureContext)
    ensures BaselineStops(c) ==> EstimatedControl(c) == 0
    ensures !BaselineStops(c) && 0 <= c.caseAmount ==>
              100 * EstimatedControl(c) <= c.caseAmount / 20 < 100 * (EstimatedControl(c) + 1)
    ensures EstimatedControl(c.(caseAmount := -c.caseAmount)) == -EstimatedControl(c)
  {
    var n := if c.caseAmount >= 0 then c.caseAmount else -c.caseAmount;
    assert n == 2000 * (n / 2000) + n % 2000;
    assert n / 20 == 100 * (n / 2000) + n % 2000 / 20;
  }

  /** A case is held out of treatment by an active experiment whose allocation its bucket exceeds, and never
      when its category is unsafe. */
  predicate HeldOut(category: Option<FailureCategory>, allocation: Option<int>, bucket: int) {
    && allocation.Some? && bucket > allocation.value
    && category != Some(NON_RETRIABLE) && category != Some(RISK_OR_FRAUD)
  }

  /** assign_experiment: unsafe categories are never held out. */
  function AssignVariant(c: MeasureContext): Variant {
    if c.category == Some(NON_RETRIABLE) || c.category == Some(RISK_OR_FRAUD) then TREATMENT
    else if c.allocation.None? then TREATMENT
    else if c.bucket <= c.allocation.value then TREATMENT
    else CONTROL
  }

  function Max(a: int, b: int): int { if a >= b then a else b }

  /** The measurement row of an outcome. Every unit recovered is booked once, as treatment or as
      control. The incremental estimate is never negative, and it stays within the treatment recovery
      exactly when neither the recovered amount nor the estimate is negative (a held-out case claims no
      increment at all). */
  function NewMeasurement(o: Outcome, c: MeasureContext): (m: Measurement)
    ensures m.treatment + m.control == o.amount
    ensures 0 <= m.incremental
    ensures m.incremental <= m.treatment <==>
            m.variant == CONTROL || (0 <= o.amount && 0 <= m.estimatedControl)
    ensures m.variant == CONTROL ==> m.treatment == 0 && m.incremental == 0
    ensures 0 <= c.caseAmount ==> 0 <= m.estimatedControl && 2000 * m.estimatedControl <= c.caseAmount
    ensures m.variant == CONTROL <==> HeldOut(c.category, c.allocation, c.bucket)
    ensures m.variant == TREATMENT ==>
              m.control == 0 && m.incremental == if o.amount > m.estimatedControl then o.amount - m.estimatedControl else 0
    ensures m.window == c.window
  {
    var est := EstimatedControl(c);
    if AssignVariant(c) == CONTROL then Measurement(est, 0, o.amount, 0, CONTROL, c.window)
    else Measurement(est, o.amount, 0, Max(0, o.amount - est), TREATMENT, c.window)
  }

  /** Raising the allocation of an experiment only ever moves cases into treatment. */
  lemma AllocationIsMonotone(c: MeasureContext, more: int)
    requires c.allocation.Some? && c.allocation.value <= more
    ensures AssignVariant(c) == TREATMENT ==> AssignVariant(c.(allocation := Some(more))) == TREATMENT
    ensures AssignVariant(c) == CONTROL && AssignVariant(c.(allocation := Some(more))) == TREATMENT <==>
              c.allocation.value < c.bucket <= more && c.category != Some(NON_RETRIABLE) && c.category != Some(RISK_OR_FRAUD)
  {
  }

  /** create_measurement: idempotent per outcome. */
  function FirstMeasurement(rec: Recorded, c: MeasureContext): Recorded {
    if rec.measurement.Some? then rec else rec.(measurement := Some(NewMeasurement(rec.outcome, c)))
  }

  datatype OutcomeKey = ByAction(action: nat) | ByEvent(event: nat)

  /** The outcome and measurement tables one session writes to. An outcome without an action is filed
      under the webhook event that reported it, since each such call inserts a new row. */
  class Ledger {
    var recorded: map<OutcomeKey, Recorded>

    constructor ()
      ensures recorded == map[]
    {
      recorded := map[];
    }

    /** RecoveryService.record_outcome, branch by branch. */
    method RecordOutcome(key: OutcomeKey, r: Receipt, action: Option<ActionRef>) returns (rec: Recorded)
      requires action.Some? ==> key == ByAction(action.value.id)
      requires action.None? ==> key.ByEvent? && key !in recorded
      modifies this
      ensures rec == FirstOutcome(
                if key in old(recorded) then Some(old(recorded)[key]) else None, r, action)
      ensures recorded == old(recorded)[key := rec]
    {
      if action.Some? && key in recorded {
        return recorded[key];
      }
      var amount: int;
      if r.amountOverride.Some? {
        amount := r.amountOverride.value;
      } else if r.status == PROVIDER_SUCCEEDED {
        if r.metadataAmount.Some? {
          amount := r.metadataAmount.value;
        } else {
          amount := r.caseAmount;
        }
      } else {
        amount := 0;
      }
      var status: OutcomeStatus;
      if r.status == PROVIDER_SUCCEEDED {
        if r.caseAmount > 0 && amount < r.caseAmount {
          status := PARTIALLY_RECOVERED;
        } else if amount == 0 && r.caseAmount > 0 {
          status := NO_RECOVERY;
        } else {
          status := RECOVERED;
        }
      } else if r.status == PROVIDER_FAILED {
        status := FAILED;
      } else {
        status := UNKNOWN;
      }
      var recoveredAt: Option<int> := None;
      if status == RECOVERED || status == PARTIALLY_RECOVERED {
        recoveredAt := Some(r.at);
      }
      var source := UNKNOWN_ATTRIBUTION;
      if status == RECOVERED || status == PARTIALLY_RECOVERED {
        if action.None? {
          source := ORGANIC_RECOVERY;
        } else if r.at < action.value.createdAt {
          source := ORGANIC_RECOVERY;
        } else {
          var elapsed := r.at - action.value.createdAt;
          if elapsed > r.window {
            source := UNKNOWN_ATTRIBUTION;
          } else {
            source := ACTION_ATTRIBUTED;
          }
        }
      }
      rec := Recorded(
        Outcome(r.caseId, r.tenant, action, status, amount, recoveredAt, source, r.window, r.evidence), None);
      recorded := recorded[key := rec];
    }

    /** RecoveryService.create_measurement with its experiment assignment inlined. */
    method CreateMeasurement(key: OutcomeKey, c: MeasureContext) returns (m: Measurement)
      requires key in recorded
      modifies this
      ensures recorded == old(recorded)[key := FirstMeasurement(old(recorded)[key], c)]
        ensures recorded[key].measurement == Some(m)
      ensures old(recorded)[key].measurement.None? ==>
                (m.variant == CONTROL <==> HeldOut(c.category, c.allocation, c.bucket))
                && (m.variant == TREATMENT ==> m.treatment == old(recorded)[key].outcome.amount)
    {
      var rec := recorded[key];
      if rec.measurement.Some? {
        return rec.measurement.value;
      }
      var estimated := EstimatedControl(c);
      var variant := AssignVariant(c);
      var treatment, control, incremental := 0, 0, 0;
      if variant == CONTROL {
        control := rec.outcome.amount;
      } else {
        treatment := rec.outcome.amount;
        incremental := Max(0, treatment - estimated);
      }
      m := Measurement(estimated, treatment, control, incremental, variant, c.window);
      recorded := recorded[key := rec.(measurement := Some(m))];
    }
  }
}
