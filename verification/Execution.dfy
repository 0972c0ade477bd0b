/** One execution of an outbox row, as a function of the rows it reads: the lease claim
    (app/services/outbox.py), the preflight gate and the outcome handling
    (app/services/execution_worker.py), the reconciliation of ambiguous answers
    (app/services/reconciliation.py) and the case state machine (app/domain/state_machine.py). */
module Execution {
  import opened Domain
  import Policy
  import Recovery

  datatype CaseStatus = OPEN | RISK_ASSESSED | PENDING_APPROVAL | RECOVERED | FAILED | CLOSED

  datatype Stage = NO_STAGE | WAITING_FOR_PAYMENT | STAGE_RECOVERED

  // `amount` is 0 when the source has none. `stage` and `linkUrl` are the parts of the free-form
  // case context that are read back. `recoveredBy` is a history field: the confirmation that moved
  // the case to RECOVERED.
  datatype Case = Case(
    tenant: nat,
    domain: RecoveryDomain,
    status: CaseStatus,
    version: nat,
    amount: int,
    stage: Stage,
    linkUrl: bool,
    recoveredBy: Option<Recovery.Evidence>)

  datatype Decision = Decision(caseId: nat, tenant: nat, proposed: RecoveryAction, policy: PolicyStatus,
                               autonomy: AutonomyLevel)

  datatype ActionStatus =
    PROPOSED | AUTHORIZED | QUEUED | EXECUTING | SUCCEEDED | FAILED | UNKNOWN | CANCELLED | SUPERSEDED

  datatype Action = Action(caseId: nat, tenant: nat, decisionId: nat, kind: RecoveryAction,
                           status: ActionStatus, createdAt: int)

  datatype OutboxStatus = PENDING | CLAIMED | COMPLETED | FAILED | DEAD_LETTERED

  datatype Outbox = Outbox(
    status: OutboxStatus,
    amount: int,
    attemptCount: nat,
    maxRetries: nat,
    claimedBy: Option<nat>,
    claimedAt: Option<int>,
    leaseExpiresAt: Option<int>,
    dispatchedAt: Option<int>)

  datatype AttemptStatus = EXECUTING | SUCCEEDED | FAILED | UNKNOWN

  // `providerStatus` and `paidAmount` are the parts of a successful answer's metadata that are read back.
  datatype Attempt = Attempt(status: AttemptStatus, requestId: Option<string>, providerStatus: string,
                             paidAmount: Option<int>, finishedAt: Option<int>)

  // Everything filed under one action id: the action, its only outbox row, its attempts by number,
  // and its first outcome. `raises` is a history counter: claimed executions that ended in an
  // exception.
  datatype Row = Row(action: Action, outbox: Outbox, attempts: map<nat, Attempt>,
                     recorded: Option<Recovery.Recorded>, raises: nat)

  const MAX_RETRIES := 3

  /* ---- Case state machine ---- */

  predicate Terminal(s: CaseStatus) {
    s == CaseStatus.RECOVERED || s == CaseStatus.FAILED || s == CaseStatus.CLOSED
  }

  function AllowedTransitions(s: CaseStatus): set<CaseStatus> {
    match s
    case OPEN => {RISK_ASSESSED, CaseStatus.RECOVERED, CLOSED}
    case RISK_ASSESSED => {PENDING_APPROVAL, CaseStatus.RECOVERED, CaseStatus.FAILED, CLOSED}
    case PENDING_APPROVAL => {CaseStatus.RECOVERED, CaseStatus.FAILED, CLOSED}
    case _ => {}
  }

  /** CaseStateMachine.transition_to; `None` is the raised StateTransitionError. */
  function TransitionTo(c: Case, target: CaseStatus, expected: Option<nat>): Option<Case> {
    if expected.Some? && expected.value != c.version then None
    else if target !in AllowedTransitions(c.status) then None
    else Some(c.(status := target, version := c.version + 1))
  }

  // How far a status is along the lifecycle.
  function Rank(s: CaseStatus): nat {
    match s
    case OPEN => 0
    case RISK_ASSESSED => 1
    case PENDING_APPROVAL => 2
    case _ => 3
  }

  /** Every accepted transition moves forward, bumps the version once and changes nothing else; a
      terminal status accepts none. Exactly the forward moves are accepted, except that an open case must be
      assessed before it can await approval or fail; so RECOVERED is reachable from every non-terminal
      status. */
  lemma TransitionsMoveForward(c: Case, target: CaseStatus, expected: Option<nat>)
    ensures var t := TransitionTo(c, target, expected);
      && (t.Some? <==> (expected.None? || expected.value == c.version) && Rank(c.status) < Rank(target)
                       && !(c.status == OPEN && (target == PENDING_APPROVAL || target == CaseStatus.FAILED)))
      && (t.Some? ==> t.value == c.(status := target, version := c.version + 1))
      && (Terminal(c.status) ==> t.None?)
    ensures TransitionTo(c, CaseStatus.RECOVERED, None).Some? <==> !Terminal(c.status)
  {
  }

  /* ---- Claiming ---- */

  /** The filter of the claim query: pending, or claimed with an expired lease, and budget left. */
  predicate Claimable(ob: Outbox, now: int) {
    && (ob.status == PENDING
        || (ob.status == CLAIMED && ob.leaseExpiresAt.Some? && ob.leaseExpiresAt.value < now))
    && ob.attemptCount < ob.maxRetries
  }

  function ClaimRow(ob: Outbox, worker: nat, now: int, lease: int): Outbox {
    ob.(status := CLAIMED, claimedBy := Some(worker), claimedAt := Some(now),
        leaseExpiresAt := Some(now + lease), attemptCount := ob.attemptCount + 1)
  }

  /* ---- Preflight ---- */

  predicate Executable(s: ActionStatus) {
    s == AUTHORIZED || s == QUEUED || s == ActionStatus.EXECUTING
  }

  predicate Finished(s: AttemptStatus) {
    s != AttemptStatus.EXECUTING
  }

  predicate HasSucceeded(attempts: map<nat, Attempt>) {
    exists n | n in attempts :: attempts[n].status == AttemptStatus.SUCCEEDED
  }

  // The rows and settings an execution reads beside its own action.
  datatype Facts = Facts(
    kase: Option<Case>,
    decision: Option<Decision>,
    tenant: Option<nat>,
    category: Option<FailureCategory>,
    enabled: bool,
    adapter: bool,
    now: int,
    window: int)

  // `check` is the number of the check that decided, 0 when all passed.
  datatype Verdict = Verdict(ok: bool, check: int, status: ActionStatus)

  function Category(f: Facts): FailureCategory {
    if f.category.Some? then f.category.value else UNKNOWN_CATEGORY
  }

  /** ExecutionPreflightValidator.validate for an action that was found. */
  function Validate(row: Row, f: Facts): Verdict {
    var act, ob := row.action, row.outbox;
    if f.kase.None? then Verdict(false, 2, CANCELLED)
    else if f.decision.None? then Verdict(false, 3, CANCELLED)
    else if f.tenant.None? then Verdict(false, 4, CANCELLED)
    else if !(act.tenant == f.kase.value.tenant == f.decision.value.tenant == f.tenant.value) then
      Verdict(false, 5, CANCELLED)
    else if Terminal(f.kase.value.status) then Verdict(false, 6, SUPERSEDED)
    else if !Executable(act.status) then Verdict(false, 7, SUPERSEDED)
    else if f.decision.value.policy != APPROVED then Verdict(false, 8, CANCELLED)
    else if f.decision.value.autonomy == SUGGESTION_ONLY then Verdict(false, 9, CANCELLED)
    else if Policy.Evaluate(act.kind, f.kase.value.domain, Category(f), None).0 != APPROVED then
      Verdict(false, 10, CANCELLED)
    else if ob.attemptCount > ob.maxRetries then Verdict(false, 11, ActionStatus.FAILED)
    else if Category(f) == NON_RETRIABLE && IsRetry(act.kind) then Verdict(false, 12, CANCELLED)
    else if act.status == ActionStatus.SUCCEEDED then Verdict(false, 13, ActionStatus.SUCCEEDED)
    else if !f.enabled then Verdict(false, 14, CANCELLED)
    else if HasSucceeded(row.attempts) then Verdict(false, 15, ActionStatus.SUCCEEDED)
    else if act.kind != GENERATE_PAYMENT_LINK then Verdict(false, 16, CANCELLED)
    else if !f.adapter then Verdict(false, 16, CANCELLED)
    else Verdict(true, 0, act.status)
  }

  /* ---- Dispatch and outcome handling ---- */

  datatype RetrySafety = SAFE_TO_RETRY | NOT_RETRIABLE | UNKNOWN_RETRY_RISK

  datatype LinkResult = LinkResult(
    status: Recovery.ProviderStatus,
    requestId: Option<string>,
    providerStatus: string,
    retrySafety: RetrySafety,
    metadataAmount: Option<int>,
    hasUrl: bool)

  datatype Reply = Raises | Replies(result: LinkResult)

  datatype FetchReply = FetchRaises | Fetched(status: Recovery.ProviderStatus)

  datatype MeasureInput = MeasureInput(retryability: Option<Retryability>, allocation: Option<int>, bucket: int)

  // What the outside world answers during one execution. `saved` and `measure` say whether the
  // bookkeeping calls, whose exceptions are swallowed, went through.
  datatype Env = Env(reply: Reply, fetch: FetchReply, saved: bool, measure: Option<MeasureInput>)

  // `called`: create_payment_link was invoked. `raised`: the execution ended in an exception.
  datatype Processed = Processed(row: Row, kase: Option<Case>, called: bool, raised: bool)

  predicate IsPaid(providerStatus: string) {
    providerStatus == "paid" || providerStatus == "captured"
  }

  function Raised(row: Row): Row {
    row.(raises := row.raises + if row.outbox.attemptCount >= 1 then 1 else 0)
  }

  function DispatchReceipt(id: nat, row: Row, c: Case, f: Facts, r: LinkResult): Recovery.Receipt {
    Recovery.Receipt(row.action.caseId, row.action.tenant, c.amount, r.status, r.metadataAmount, None,
                     f.now, f.window, Recovery.Dispatch(id, row.outbox.attemptCount))
  }

  function Ref(id: nat, act: Action): Option<Recovery.ActionRef> {
    Some(Recovery.ActionRef(id, act.createdAt))
  }

  /** record_outcome for the action of this row. */
  function Recorded(id: nat, row: Row, receipt: Recovery.Receipt): Option<Recovery.Recorded> {
    Some(Recovery.FirstOutcome(row.recorded, receipt, Ref(id, row.action)))
  }

  function MeasureContextOf(c: Case, f: Facts, m: MeasureInput): Recovery.MeasureContext {
    Recovery.MeasureContext(c.amount, c.domain, f.category, m.retryability, m.allocation, m.bucket, f.window)
  }

  function OnSuccess(id: nat, row: Row, c: Case, f: Facts, env: Env, r: LinkResult): Processed {
    var n := row.outbox.attemptCount;
    var done := row.(
      attempts := row.attempts[n := Attempt(AttemptStatus.SUCCEEDED, r.requestId, r.providerStatus, r.metadataAmount, Some(f.now))],
      action := row.action.(status := ActionStatus.SUCCEEDED),
      outbox := row.outbox.(status := COMPLETED, dispatchedAt := Some(f.now)));
    if IsPaid(r.providerStatus) then
      var c' := TransitionTo(c, CaseStatus.RECOVERED, None);
      var c2 := if c'.Some? then c'.value.(recoveredBy := Some(Recovery.Dispatch(id, n))) else c;
      var rec := Recorded(id, row, DispatchReceipt(id, row, c, f, r));
      var rec2 :=
        if !env.saved then row.recorded
        else if env.measure.None? then rec
        else Some(Recovery.FirstMeasurement(rec.value, MeasureContextOf(c, f, env.measure.value)));
      Processed(done.(recorded := rec2), Some(c2), true, false)
    else
      Processed(done, Some(c.(stage := WAITING_FOR_PAYMENT, linkUrl := c.linkUrl || r.hasUrl)), true, false)
  }

  function OnFailure(id: nat, row: Row, c: Case, f: Facts, env: Env, r: LinkResult): Processed {
    var ob := row.outbox;
    var spent := ob.attemptCount >= ob.maxRetries;
    var ob' := if r.retrySafety == NOT_RETRIABLE || spent then
                 ob.(status := if spent then DEAD_LETTERED else OutboxStatus.FAILED)
               else ob;
    var rec := if env.saved then Recorded(id, row, DispatchReceipt(id, row, c, f, r)) else row.recorded;
    Processed(
      row.(attempts := row.attempts[ob.attemptCount := Attempt(AttemptStatus.FAILED, r.requestId, "", None, Some(f.now))],
           action := row.action.(status := ActionStatus.FAILED), outbox := ob', recorded := rec),
      Some(c), true, false)
  }

  /** ReconciliationService.reconcile_action for a payment link; the flag is a raised exception. */
  function Reconcile(row: Row, n: nat, fetch: FetchReply, now: int): (Row, bool)
    requires n in row.attempts
  {
    var att := row.attempts[n];
    if att.requestId.None? || att.requestId.value == "" then (row, false)
    else if fetch.FetchRaises? then (row, true)
    else if fetch.status == Recovery.PROVIDER_SUCCEEDED then
      (row.(attempts := row.attempts[n := att.(status := AttemptStatus.SUCCEEDED, finishedAt := Some(now))],
            action := row.action.(status := ActionStatus.SUCCEEDED),
            outbox := row.outbox.(status := COMPLETED, dispatchedAt := Some(now))), false)
    else if fetch.status == Recovery.PROVIDER_FAILED then
      (row.(attempts := row.attempts[n := att.(status := AttemptStatus.FAILED, finishedAt := Some(now))],
            action := row.action.(status := ActionStatus.FAILED),
            outbox := row.outbox.(status := OutboxStatus.FAILED)), false)
    else (row, false)
  }

  function OnUnknown(id: nat, row: Row, c: Case, f: Facts, env: Env, r: LinkResult): Processed {
    var n := row.outbox.attemptCount;
    var rec := if env.saved then Recorded(id, row, DispatchReceipt(id, row, c, f, r)) else row.recorded;
    var unknown := row.(
      attempts := row.attempts[n := Attempt(AttemptStatus.UNKNOWN, r.requestId, "", None, Some(f.now))],
      action := row.action.(status := ActionStatus.UNKNOWN), recorded := rec);
    var (after, raised) := Reconcile(unknown, n, env.fetch, f.now);
    Processed(if raised then Raised(after) else after, Some(c), true, raised)
  }

  /** ExecutionWorker.process_outbox_item for an action that was found. */
  function Process(id: nat, row: Row, f: Facts, env: Env): Processed {
    var v := Validate(row, f);
    if !v.ok then
      Processed(
        row.(action := row.action.(status := v.status),
             outbox := row.outbox.(
               status := if v.status == ActionStatus.SUCCEEDED then COMPLETED else OutboxStatus.FAILED)),
        f.kase, false, false)
    else
      var started := row.(
        attempts := row.attempts[row.outbox.attemptCount := Attempt(AttemptStatus.EXECUTING, None, "", None, None)],
        action := row.action.(status := ActionStatus.EXECUTING));
      if row.outbox.amount <= 0 then Processed(Raised(started), f.kase, false, true)
      else if env.reply.Raises? then Processed(Raised(started), f.kase, true, true)
      else
        var r := env.reply.result;
        match r.status
        case PROVIDER_SUCCEEDED => OnSuccess(id, started, f.kase.value, f, env, r)
        case PROVIDER_FAILED => OnFailure(id, started, f.kase.value, f, env, r)
        case PROVIDER_UNKNOWN => OnUnknown(id, started, f.kase.value, f, env, r)
  }

  /* ---- The idempotency key ---- */

  datatype Key = Key(prefix: string, action: nat)

  /** The business identity sent with every creation call of an action. */
  function IdempotencyKey(id: nat): Key { Key("ariv:action:", id) }
}
