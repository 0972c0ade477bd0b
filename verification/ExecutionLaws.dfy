/** What one execution of a row guarantees, for every row and every answer of the outside world. */
module ExecutionLaws {
  import opened Domain
  import opened Execution
  import Policy
  import Recovery

  predicate Open(row: Row) {
    row.outbox.status == PENDING || row.outbox.status == CLAIMED
  }

  /** Attempt numbers stay within the claim count; a finished attempt is the last one, so there is at
      most one, and it ends the executable life of its action. The outbox row is COMPLETED exactly when an
      attempt succeeded. */
  ghost predicate AttemptsOk(row: Row) {
    && (forall n | n in row.attempts ::
          && n <= row.outbox.attemptCount
          && (Finished(row.attempts[n].status) ==>
                !Executable(row.action.status) && forall m | m in row.attempts :: m <= n))
    && (row.outbox.status == COMPLETED <==> HasSucceeded(row.attempts))
  }

  /** Bookkeeping of claims against raised executions, for a row no transaction holds. */
  predicate BudgetOk(row: Row) {
    var ob := row.outbox;
    && ob.maxRetries == MAX_RETRIES
    && row.raises <= ob.attemptCount <= MAX_RETRIES
    && (ob.status == PENDING ==> ob.attemptCount == 0)
    && (ob.status == CLAIMED ==> ob.attemptCount >= 1 && ob.leaseExpiresAt.Some?)
    && (Open(row) ==> ob.attemptCount <= row.raises + 1)
    && (Open(row) && Executable(row.action.status) ==> ob.attemptCount == row.raises)
    && ob.attemptCount <= row.raises + 2
  }

  /** The same for a row that was claimed and is not yet executed. */
  predicate ClaimedOk(row: Row) {
    var ob := row.outbox;
    && ob.maxRetries == MAX_RETRIES
    && ob.status == CLAIMED && ob.leaseExpiresAt.Some?
    && row.raises < ob.attemptCount <= MAX_RETRIES
    && ob.attemptCount <= row.raises + 2
    && (Executable(row.action.status) ==> ob.attemptCount == row.raises + 1)
  }

  /** A row that process_outbox_item may be called on: freshly created, or freshly claimed. */
  ghost predicate Ready(row: Row) {
    && AttemptsOk(row)
    && row.outbox.attemptCount !in row.attempts
    && (ClaimedOk(row)
        || (BudgetOk(row) && row.outbox.status == PENDING && row.raises == 0 && row.attempts == map[]))
  }

  /** Claiming an unlocked claimable row makes it ready and uses up one unit of its budget. */
  lemma ClaimMakesReady(row: Row, worker: nat, now: int, lease: int)
    requires AttemptsOk(row) && BudgetOk(row) && Claimable(row.outbox, now)
    ensures var claimed := row.(outbox := ClaimRow(row.outbox, worker, now, lease));
      && Ready(claimed) && ClaimedOk(claimed)
      && claimed.outbox.claimedBy == Some(worker) && claimed.outbox.claimedAt == Some(now)
      && MAX_RETRIES - claimed.outbox.attemptCount < MAX_RETRIES - row.outbox.attemptCount
  {
    var claimed := row.(outbox := ClaimRow(row.outbox, worker, now, lease));
    forall n | n in claimed.attempts
      ensures n < claimed.outbox.attemptCount
    {
      assert n in row.attempts;
    }
  }

  // The ways in which one execution can change its row: it stops at the gate and closes, or it starts
  // one attempt under the current claim count, which stays unfinished only if it raised.
  ghost predicate Shape(row: Row, p: Processed) {
    var n := row.outbox.attemptCount;
    && p.row.action == row.action.(status := p.row.action.status)
    && p.row.outbox == row.outbox.(status := p.row.outbox.status, dispatchedAt := p.row.outbox.dispatchedAt)
    && p.row.raises == row.raises + (if p.raised && n >= 1 then 1 else 0)
    && (p.row.attempts == row.attempts
        || (n in p.row.attempts && Executable(row.action.status)
            && p.row.attempts == row.attempts[n := p.row.attempts[n]]
            && (Executable(p.row.action.status) <==> !Finished(p.row.attempts[n].status))))
    && (p.row.attempts == row.attempts ==>
          !Executable(p.row.action.status) && p.row.outbox.status == OutboxStatus.FAILED && !p.raised)
    && (n in p.row.attempts ==>
          (p.row.outbox.status == COMPLETED <==> p.row.attempts[n].status == AttemptStatus.SUCCEEDED))
    && (Executable(p.row.action.status) ==> p.raised && Executable(row.action.status))
    && (Open(p.row) ==> p.row.outbox.status == row.outbox.status)
    && (row.recorded.Some? ==> p.row.recorded.Some? && p.row.recorded.value.outcome == row.recorded.value.outcome)
  }

  function Started(row: Row): Row {
    row.(attempts := row.attempts[row.outbox.attemptCount := Attempt(AttemptStatus.EXECUTING, None, "", None, None)],
         action := row.action.(status := ActionStatus.EXECUTING))
  }

  lemma {:induction false} SuccessShape(id: nat, row: Row, c: Case, f: Facts, env: Env, r: LinkResult)
    requires row.outbox.attemptCount !in row.attempts && Executable(row.action.status) && Open(row)
    ensures Shape(row, OnSuccess(id, Started(row), c, f, env, r))
  {
    var p, n := OnSuccess(id, Started(row), c, f, env, r), row.outbox.attemptCount;
    assert p.row.attempts == row.attempts[n := p.row.attempts[n]];
  }

  lemma {:induction false} FailureShape(id: nat, row: Row, c: Case, f: Facts, env: Env, r: LinkResult)
    requires row.outbox.attemptCount !in row.attempts && Executable(row.action.status) && Open(row)
    ensures Shape(row, OnFailure(id, Started(row), c, f, env, r))
  {
    var p, n := OnFailure(id, Started(row), c, f, env, r), row.outbox.attemptCount;
    assert p.row.attempts == row.attempts[n := p.row.attempts[n]];
  }

  lemma {:induction false} UnknownShape(id: nat, row: Row, c: Case, f: Facts, env: Env, r: LinkResult)
    requires row.outbox.attemptCount !in row.attempts && Executable(row.action.status) && Open(row)
    ensures Shape(row, OnUnknown(id, Started(row), c, f, env, r))
  {
    var p, n := OnUnknown(id, Started(row), c, f, env, r), row.outbox.attemptCount;
    assert p.row.attempts == row.attempts[n := p.row.attempts[n]];
  }

  lemma {:induction false} RefusedShape(id: nat, row: Row, f: Facts, env: Env)
    requires Ready(row) && !Validate(row, f).ok
    ensures Shape(row, Process(id, row, f, env))
  {
    assert Executable(row.action.status) ==> !HasSucceeded(row.attempts);
  }

  lemma {:induction false} ProcessShape(id: nat, row: Row, f: Facts, env: Env)
    requires Ready(row)
    ensures Shape(row, Process(id, row, f, env))
  {
    if !Validate(row, f).ok {
      RefusedShape(id, row, f, env);
    } else if row.outbox.amount > 0 && env.reply.Replies? {
      var c, r := f.kase.value, env.reply.result;
      match r.status
      case PROVIDER_SUCCEEDED => SuccessShape(id, row, c, f, env, r);
      case PROVIDER_FAILED => FailureShape(id, row, c, f, env, r);
      case PROVIDER_UNKNOWN => UnknownShape(id, row, c, f, env, r);
    } else {
      assert Process(id, row, f, env).row == Raised(Started(row));
    }
  }

  lemma {:induction false} ShapeCompletes(row: Row, p: Processed)
    requires Ready(row) && Shape(row, p)
    ensures p.row.outbox.status == COMPLETED <==> HasSucceeded(p.row.attempts)
  {
    assert !HasSucceeded(row.attempts);
    if row.outbox.attemptCount !in p.row.attempts { assert p.row.attempts == row.attempts; }
  }

  lemma {:induction false} ShapeKeepsBooks(row: Row, p: Processed)
    requires Ready(row) && Shape(row, p)
    ensures BudgetOk(p.row) && AttemptsOk(p.row)
    ensures forall n | n in row.attempts :: n in p.row.attempts && p.row.attempts[n] == row.attempts[n]
    ensures forall n | n in p.row.attempts :: n in row.attempts || n == row.outbox.attemptCount
  {
    ShapeCompletes(row, p);
  }

  /** Executing a ready row keeps the books. The action's identity, the earlier attempts and an existing
      outcome are untouched; exactly one attempt may be added, under a number not used before; an
      action leaves the executable statuses for good, staying in them only when the execution raised. */
  lemma {:induction false} ProcessKeepsBooks(id: nat, row: Row, f: Facts, env: Env)
    requires Ready(row)
    ensures var p := Process(id, row, f, env);
      && AttemptsOk(p.row) && BudgetOk(p.row)
      && p.row.action == row.action.(status := p.row.action.status)
      && p.row.outbox.attemptCount == row.outbox.attemptCount
      && (forall n | n in row.attempts :: n in p.row.attempts && p.row.attempts[n] == row.attempts[n])
      && (forall n | n in p.row.attempts :: n in row.attempts || n == row.outbox.attemptCount)
      && (Executable(p.row.action.status) ==> Executable(row.action.status) && p.raised)
      && (row.recorded.Some? ==> p.row.recorded.Some? && p.row.recorded.value.outcome == row.recorded.value.outcome)
  {
    ProcessShape(id, row, f, env);
    ShapeKeepsBooks(row, Process(id, row, f, env));
  }

  /** When a claimed row is executed without an exception, at most two more claims can follow a raised
      one: a row left open has an action that is no longer executable, and the next execution of such a
      row always closes it without calling the provider. */
  lemma {:induction false} OpenAfterAnswerCloses(id: nat, row: Row, f: Facts, env: Env, worker: nat, now: int, lease: int,
                                                 g: Facts, env2: Env)
    requires Ready(row)
    requires var p := Process(id, row, f, env); !p.raised && Open(p.row)
    ensures var p := Process(id, row, f, env);
      var again := Process(id, p.row.(outbox := ClaimRow(p.row.outbox, worker, now, lease)), g, env2);
      && !Executable(p.row.action.status)
      && !again.called && !again.raised
      && again.row.outbox.status == OutboxStatus.FAILED && again.row.attempts == p.row.attempts
  {
    ProcessKeepsBooks(id, row, f, env);
  }

  // The facts under which a creation call is legitimate.
  predicate Authorized(id: nat, row: Row, f: Facts) {
    && f.kase.Some? && f.decision.Some? && f.tenant.Some?
    && row.action.tenant == f.kase.value.tenant == f.decision.value.tenant == f.tenant.value
    && f.decision.value.policy == APPROVED
    && f.decision.value.autonomy != SUGGESTION_ONLY
    && !Terminal(f.kase.value.status)
    && Executable(row.action.status)
    && f.enabled
    && row.action.kind == GENERATE_PAYMENT_LINK
    && Policy.Evaluate(GENERATE_PAYMENT_LINK, f.kase.value.domain, Category(f), None).0 == APPROVED
    && f.kase.value.domain != EMPLOYEE
    && !HasSucceeded(row.attempts)
  }

  /** The provider is called exactly when the gate is open and the amount is positive. */
  lemma CalledIffAuthorized(id: nat, row: Row, f: Facts, env: Env)
    requires row.outbox.attemptCount <= row.outbox.maxRetries
    ensures Process(id, row, f, env).called <==>
              Authorized(id, row, f) && f.adapter && row.outbox.amount > 0
  {
    Policy.LinkApprovedIffNotPayroll(if f.kase.Some? then f.kase.value.domain else B2C, Category(f), None);
  }

  // Case, decision, tenant and action are there and belong together.
  predicate OneTenant(row: Row, f: Facts) {
    && f.kase.Some? && f.decision.Some? && f.tenant.Some?
    && row.action.tenant == f.kase.value.tenant == f.decision.value.tenant == f.tenant.value
  }

  /** What becomes of a row that is refused. An execution neither calls nor raises exactly when the full
      authorization or the adapter is missing; it then leaves the outbox row FAILED, never COMPLETED, and
      everything but the two statuses as it was. The action is SUPERSEDED when its case or the action itself
      is past execution, and CANCELLED in every other case. */
  lemma {:induction false} RefusalFailsTheRow(id: nat, row: Row, f: Facts, env: Env)
    requires Ready(row)
    ensures var p := Process(id, row, f, env);
      && (!p.called && !p.raised <==> !(Authorized(id, row, f) && f.adapter))
      && (!p.called && !p.raised ==>
            && p.kase == f.kase
            && p.row == row.(action := row.action.(status := p.row.action.status),
                             outbox := row.outbox.(status := OutboxStatus.FAILED))
            && p.row.action.status ==
                 if OneTenant(row, f) && (Terminal(f.kase.value.status)
                                          || row.action.status !in {AUTHORIZED, QUEUED, ActionStatus.EXECUTING}) then SUPERSEDED
                 else CANCELLED)
  {
    CalledIffAuthorized(id, row, f, env);
    assert Executable(row.action.status) ==> !HasSucceeded(row.attempts);
    Policy.LinkApprovedIffNotPayroll(if f.kase.Some? then f.kase.value.domain else B2C, Category(f), None);
  }

  /** A case that was never classified is gated as one of an unknown category. */
  lemma UnclassifiedIsUnknown(row: Row, f: Facts)
    requires f.category.None?
    ensures Validate(row, f) == Validate(row, f.(category := Some(UNKNOWN_CATEGORY)))
  {
  }

  /** What an execution does to the case: it can only be moved to RECOVERED, on a paid answer whose
      attempt is on file, or marked as waiting for the payment of its link. */
  lemma {:induction false} ProcessAndCase(id: nat, row: Row, f: Facts, env: Env)
    requires f.kase.Some? && Ready(row)
    ensures var p := Process(id, row, f, env);
      && p.kase.Some?
      && var c, c' := f.kase.value, p.kase.value;
      && c' == c.(status := c'.status, version := c'.version, stage := c'.stage, linkUrl := c'.linkUrl,
                  recoveredBy := c'.recoveredBy)
      && (c'.status != c.status ==>
            && c'.status == CaseStatus.RECOVERED && c'.version == c.version + 1
            && c'.recoveredBy == Some(Recovery.Dispatch(id, row.outbox.attemptCount))
            && row.outbox.attemptCount in p.row.attempts
            && p.row.attempts[row.outbox.attemptCount].status == AttemptStatus.SUCCEEDED
            && IsPaid(p.row.attempts[row.outbox.attemptCount].providerStatus))
      && (c'.status == c.status ==> c'.recoveredBy == c.recoveredBy)
  {
  }

  // The provider said yes, directly or when asked again about an unclear answer.
  predicate SaidYes(env: Env) {
    env.reply.Replies? &&
    match env.reply.result.status
    case PROVIDER_SUCCEEDED => true
    case PROVIDER_FAILED => false
    case PROVIDER_UNKNOWN =>
      env.reply.result.requestId.Some? && env.reply.result.requestId.value != ""
      && env.fetch == Fetched(Recovery.PROVIDER_SUCCEEDED)
  }

  predicate SaidNo(env: Env) {
    env.reply.Replies? &&
    match env.reply.result.status
    case PROVIDER_SUCCEEDED => false
    case PROVIDER_FAILED => true
    case PROVIDER_UNKNOWN =>
      env.reply.result.requestId.Some? && env.reply.result.requestId.value != ""
      && env.fetch == Fetched(Recovery.PROVIDER_FAILED)
  }

  // A first answer of failure that leaves the row open: not declared final, and budget left.
  predicate MayRetry(row: Row, env: Env) {
    env.reply.Replies? && env.reply.result.status == Recovery.PROVIDER_FAILED
    && env.reply.result.retrySafety != NOT_RETRIABLE && row.outbox.attemptCount < row.outbox.maxRetries
  }

  /** What becomes of a row once its call is made, whatever the provider does: the action succeeds exactly
      on a yes, and the row is then COMPLETED; it fails exactly on a no; only a refused call with no budget
      left is dead-lettered; and the row stays open exactly when the call raised, was refused with a retry
      allowed, or remained unclear. */
  lemma {:induction false} WhatACallDecides(id: nat, row: Row, f: Facts, env: Env)
    requires Authorized(id, row, f) && f.adapter && row.outbox.amount > 0 && Open(row)
    requires row.outbox.attemptCount <= row.outbox.maxRetries
    ensures var p := Process(id, row, f, env);
      && p.called
      && (p.row.action.status == ActionStatus.SUCCEEDED <==> SaidYes(env))
      && (p.row.action.status == ActionStatus.FAILED <==> SaidNo(env))
      && (p.row.outbox.status == COMPLETED <==> SaidYes(env))
      && (p.row.outbox.status == DEAD_LETTERED <==>
            SaidNo(env) && env.reply.result.status == Recovery.PROVIDER_FAILED
            && row.outbox.attemptCount >= row.outbox.maxRetries)
      && (Open(p.row) <==> MayRetry(row, env) || !(SaidYes(env) || SaidNo(env)))
      && (p.raised <==> env.reply.Raises? || (!SaidYes(env) && !SaidNo(env) && env.fetch.FetchRaises?
                                              && env.reply.result.requestId.Some? && env.reply.result.requestId.value != ""))
  {
    CalledIffAuthorized(id, row, f, env);
  }

  // The provider reported at once that the link is paid, or that it exists.
  predicate ReportedPaid(env: Env) {
    env.reply.Replies? && env.reply.result.status == Recovery.PROVIDER_SUCCEEDED
    && (env.reply.result.providerStatus == "paid" || env.reply.result.providerStatus == "captured")
  }

  predicate ReportedOpen(env: Env) {
    env.reply.Replies? && env.reply.result.status == Recovery.PROVIDER_SUCCEEDED
    && env.reply.result.providerStatus != "paid" && env.reply.result.providerStatus != "captured"
  }

  // One attempt is added, and it says what the provider said.
  predicate AttemptFits(row: Row, f: Facts, env: Env, after: Row) {
    var n := row.outbox.attemptCount;
    && n in after.attempts && after.attempts == row.attempts[n := after.attempts[n]]
    && var att := after.attempts[n];
    && (att.status == AttemptStatus.EXECUTING <==> env.reply.Raises?)
    && (att.status == AttemptStatus.SUCCEEDED <==> SaidYes(env)) && (att.status == AttemptStatus.FAILED <==> SaidNo(env))
    && att.finishedAt == (if env.reply.Raises? then None else Some(f.now))
    && att.requestId == (if env.reply.Raises? then None else env.reply.result.requestId)
    && (ReportedPaid(env) || ReportedOpen(env) ==>
          att.providerStatus == env.reply.result.providerStatus && att.paidAmount == env.reply.result.metadataAmount)
    && after.outbox.dispatchedAt == (if SaidYes(env) then Some(f.now) else row.outbox.dispatchedAt)
  }

  lemma SuccessFits(id: nat, row: Row, c: Case, f: Facts, env: Env)
    requires env.reply.Replies? && env.reply.result.status == Recovery.PROVIDER_SUCCEEDED
    ensures AttemptFits(row, f, env, OnSuccess(id, Started(row), c, f, env, env.reply.result).row)
  {
  }

  lemma FailureFits(id: nat, row: Row, c: Case, f: Facts, env: Env)
    requires env.reply.Replies? && env.reply.result.status == Recovery.PROVIDER_FAILED
    ensures AttemptFits(row, f, env, OnFailure(id, Started(row), c, f, env, env.reply.result).row)
  {
  }

  lemma UnknownFits(id: nat, row: Row, c: Case, f: Facts, env: Env)
    requires env.reply.Replies? && env.reply.result.status == Recovery.PROVIDER_UNKNOWN
    ensures AttemptFits(row, f, env, OnUnknown(id, Started(row), c, f, env, env.reply.result).row)
  {
  }

  /** What a call leaves on file: one attempt under the claim count, unfinished exactly when nobody answered
      and otherwise with the answer's request id, the time, and a status that follows the last word of the
      provider; and the dispatch time exactly on a yes. */
  lemma {:induction false} WhatACallRecords(id: nat, row: Row, f: Facts, env: Env)
    requires Authorized(id, row, f) && f.adapter && row.outbox.amount > 0 && row.outbox.attemptCount <= row.outbox.maxRetries
    ensures AttemptFits(row, f, env, Process(id, row, f, env).row)
  {
    CalledIffAuthorized(id, row, f, env);
    if env.reply.Replies? {
      match env.reply.result.status
      case PROVIDER_SUCCEEDED => SuccessFits(id, row, f.kase.value, f, env);
      case PROVIDER_FAILED => FailureFits(id, row, f.kase.value, f, env);
      case PROVIDER_UNKNOWN => UnknownFits(id, row, f.kase.value, f, env);
    } else {
      assert Process(id, row, f, env).row == Raised(Started(row));
    }
  }

  /** What a call does to its case: RECOVERED exactly when the provider reported the link paid or captured at
      once; a stage of waiting, and a url, exactly when it reported an open link, or an open link with one. */
  lemma {:induction false} CaseAfterACall(id: nat, row: Row, f: Facts, env: Env)
    requires Authorized(id, row, f) && f.adapter && row.outbox.amount > 0 && row.outbox.attemptCount <= row.outbox.maxRetries
    ensures var c, c' := f.kase.value, Process(id, row, f, env).kase;
      && c'.Some?
      && (c'.value.status == CaseStatus.RECOVERED <==> ReportedPaid(env))
      && (c'.value.status != CaseStatus.RECOVERED ==> c'.value.status == c.status && c'.value.version == c.version)
      && (c'.value.stage == WAITING_FOR_PAYMENT <==> c.stage == WAITING_FOR_PAYMENT || ReportedOpen(env))
      && (c'.value.linkUrl <==> c.linkUrl || (ReportedOpen(env) && env.reply.result.hasUrl))
  {
    CalledIffAuthorized(id, row, f, env);
    TransitionsMoveForward(f.kase.value, CaseStatus.RECOVERED, None);
  }

  /** Which calls file an outcome, and which one: every answered call whose bookkeeping goes through, except an
      open link, unless an outcome is on file already. It recovers exactly when the link was reported paid and
      books nothing otherwise; a measurement comes with a paid one only. */
  lemma {:induction false} WhatACallFiles(id: nat, row: Row, f: Facts, env: Env)
    requires Authorized(id, row, f) && f.adapter && row.outbox.amount > 0 && row.outbox.attemptCount <= row.outbox.maxRetries
    requires row.recorded.None?
    ensures var p := Process(id, row, f, env);
      && (p.row.recorded.Some? <==> env.reply.Replies? && env.saved && !ReportedOpen(env))
      && (p.row.recorded.Some? ==>
            var rec := p.row.recorded.value;
            && (Recovery.Recovers(rec.outcome.status) <==> ReportedPaid(env))
            && (rec.outcome.status == Recovery.FAILED <==> env.reply.result.status == Recovery.PROVIDER_FAILED)
            && (rec.outcome.status == Recovery.UNKNOWN <==> env.reply.result.status == Recovery.PROVIDER_UNKNOWN)
            && rec.outcome.amount == (if !ReportedPaid(env) then 0
                                      else if env.reply.result.metadataAmount.Some? then env.reply.result.metadataAmount.value
                                      else f.kase.value.amount)
            && rec.outcome.window == f.window
            && (rec.measurement.Some? <==> ReportedPaid(env) && env.measure.Some?)
            && (rec.measurement.Some? ==>
                  rec.measurement.value == Recovery.NewMeasurement(rec.outcome, Recovery.MeasureContext(
                    f.kase.value.amount, f.kase.value.domain, f.category, env.measure.value.retryability,
                    env.measure.value.allocation, env.measure.value.bucket, f.window))))
  {
    CalledIffAuthorized(id, row, f, env);
  }

  predicate PaidBy(row: Row, n: nat) {
    n in row.attempts && row.attempts[n].status == AttemptStatus.SUCCEEDED && IsPaid(row.attempts[n].providerStatus)
  }

  /** An outcome that an execution files says recovered only on a paid answer, filed under the attempt
      that received it, for the amount the answer stated (or the whole case when it stated none). */
  lemma {:induction false} ProcessFilesTruth(id: nat, row: Row, f: Facts, env: Env)
    requires f.kase.Some? && Ready(row) && row.recorded.None?
    ensures var p := Process(id, row, f, env);
      p.row.recorded.Some? ==>
        var o, n := p.row.recorded.value.outcome, row.outbox.attemptCount;
        && o.caseId == row.action.caseId && o.tenant == row.action.tenant
        && o.action == Ref(id, row.action) && o.window == f.window
        && (!Recovery.Recovers(o.status) ==> o.amount == 0)
        && (Recovery.Recovers(o.status) ==>
              && o.evidence == Recovery.Dispatch(id, n)
              && PaidBy(p.row, n)
              && o.amount == (if p.row.attempts[n].paidAmount.Some? then p.row.attempts[n].paidAmount.value
                              else f.kase.value.amount)
              && o.recoveredAt == Some(f.now))
        && (o.source == Recovery.ACTION_ATTRIBUTED ==>
              Recovery.Recovers(o.status) && row.action.createdAt <= f.now <= row.action.createdAt + f.window)
        && (o.source == Recovery.ORGANIC_RECOVERY ==> f.now < row.action.createdAt)
  {
  }

  // What the measurement of a recorded outcome must satisfy.
  predicate MeasuredOk(rec: Recovery.Recorded) {
    rec.measurement.Some? ==>
      var m := rec.measurement.value;
      m.treatment + m.control == rec.outcome.amount && 0 <= m.incremental
      && (m.variant == Recovery.CONTROL ==> m.treatment == 0 && m.incremental == 0)
      && (m.variant == Recovery.TREATMENT ==> m.control == 0)
      && (0 <= rec.outcome.amount && 0 <= m.estimatedControl ==> m.incremental <= m.treatment)
  }

  lemma {:induction false} ProcessMeasures(id: nat, row: Row, f: Facts, env: Env)
    requires Ready(row) && (row.recorded.Some? ==> MeasuredOk(row.recorded.value))
    ensures var p := Process(id, row, f, env);
      && (p.row.recorded.Some? ==> MeasuredOk(p.row.recorded.value))
      && (row.recorded.Some? && row.recorded.value.measurement.Some? ==> p.row.recorded == row.recorded)
  {
  }
}
