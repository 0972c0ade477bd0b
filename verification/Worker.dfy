/** The executor in its own form: row objects whose fields are assigned step by step
    (app/services/execution_worker.py, app/services/outbox.py, app/services/reconciliation.py,
    app/domain/state_machine.py). Every method is proved against the functions of `Execution`. */
module Worker {
  import opened Domain
  import opened Execution
  import Policy
  import Recovery

  class CaseRow {
    const tenant: nat
    const domain: RecoveryDomain
    const amount: int
    var status: CaseStatus
    var version: nat
    var stage: Stage
    var linkUrl: bool
    ghost var recoveredBy: Option<Recovery.Evidence>

    ghost function Value(): Case
      reads this
    {
      Case(tenant, domain, status, version, amount, stage, linkUrl, recoveredBy)
    }

    constructor (tenant: nat, domain: RecoveryDomain, amount: int)
      ensures Value() == Case(tenant, domain, OPEN, 1, amount, NO_STAGE, false, None)
    {
      this.tenant, this.domain, this.amount := tenant, domain, amount;
      status, version, stage, linkUrl, recoveredBy := OPEN, 1, NO_STAGE, false, None;
    }

    /** CaseStateMachine.transition_to; `ok` is false where the source raises. */
    method TransitionTo(target: CaseStatus, expected: Option<nat>) returns (ok: bool)
      modifies this
      ensures ok == Execution.TransitionTo(old(Value()), target, expected).Some?
      ensures Value() == if ok then Execution.TransitionTo(old(Value()), target, expected).value else old(Value())
    {
      if expected.Some? && version != expected.value {
        return false;
      }
      if target !in AllowedTransitions(status) {
        return false;
      }
      status := target;
      version := version + 1;
      return true;
    }

    // Moves the case to RECOVERED where the transition table allows it, and notes the proof.
    method RecoverBy(proof: Recovery.Evidence)
      modifies this
      ensures var moved := Execution.TransitionTo(old(Value()), CaseStatus.RECOVERED, None);
        Value() == if moved.Some? then moved.value.(recoveredBy := Some(proof)) else old(Value())
    {
      var moved := TransitionTo(CaseStatus.RECOVERED, None);
      if moved {
        recoveredBy := Some(proof);
      }
    }

    method AwaitPayment(hasUrl: bool)
      modifies this
      ensures Value() == old(Value()).(stage := WAITING_FOR_PAYMENT, linkUrl := old(linkUrl) || hasUrl)
    {
      stage := WAITING_FOR_PAYMENT;
      if hasUrl {
        linkUrl := true;
      }
    }
  }

  class ActionRow {
    const id: nat
    const caseId: nat
    const tenant: nat
    const decisionId: nat
    const kind: RecoveryAction
    const createdAt: int
    var status: ActionStatus

    function Value(): Action
      reads this
    {
      Action(caseId, tenant, decisionId, kind, status, createdAt)
    }

    constructor (id: nat, caseId: nat, tenant: nat, decisionId: nat, kind: RecoveryAction, createdAt: int)
      ensures this.id == id && Value() == Action(caseId, tenant, decisionId, kind, AUTHORIZED, createdAt)
    {
      this.id, this.caseId, this.tenant, this.decisionId := id, caseId, tenant, decisionId;
      this.kind, this.createdAt, status := kind, createdAt, AUTHORIZED;
    }
  }

  class OutboxRow {
    const amount: int
    const maxRetries: nat
    var status: OutboxStatus
    var attemptCount: nat
    var claimedBy: Option<nat>
    var claimedAt: Option<int>
    var leaseExpiresAt: Option<int>
    var dispatchedAt: Option<int>

    function Value(): Outbox
      reads this
    {
      Outbox(status, amount, attemptCount, maxRetries, claimedBy, claimedAt, leaseExpiresAt, dispatchedAt)
    }

    constructor (amount: int)
      ensures Value() == Outbox(PENDING, amount, 0, MAX_RETRIES, None, None, None, None)
    {
      this.amount, maxRetries := amount, MAX_RETRIES;
      status, attemptCount := PENDING, 0;
      claimedBy, claimedAt, leaseExpiresAt, dispatchedAt := None, None, None, None;
    }

    method Complete(now: int)
      modifies this
      ensures Value() == old(Value()).(status := COMPLETED, dispatchedAt := Some(now))
    {
      status := COMPLETED;
      dispatchedAt := Some(now);
    }
  }

  class AttemptRow {
    var status: AttemptStatus
    var requestId: Option<string>
    var providerStatus: string
    var paidAmount: Option<int>
    var finishedAt: Option<int>

    function Value(): Attempt
      reads this
    {
      Attempt(status, requestId, providerStatus, paidAmount, finishedAt)
    }

    constructor ()
      ensures Value() == Attempt(AttemptStatus.EXECUTING, None, "", None, None)
    {
      status, requestId, providerStatus, paidAmount, finishedAt := AttemptStatus.EXECUTING, None, "", None, None;
    }
  }

  /** OutboxService.create_authorized_action: an authorized action with its pending outbox row. */
  method CreateAuthorizedAction(id: nat, caseId: nat, tenant: nat, decisionId: nat, kind: RecoveryAction,
                                amount: int, now: int)
    returns (action: ActionRow, outbox: OutboxRow)
    ensures fresh(action) && fresh(outbox) && action.id == id
    ensures action.Value() == Action(caseId, tenant, decisionId, kind, AUTHORIZED, now)
    ensures outbox.Value() == Outbox(PENDING, amount, 0, MAX_RETRIES, None, None, None, None)
  {
    action := new ActionRow(id, caseId, tenant, decisionId, kind, now);
    outbox := new OutboxRow(amount);
  }

  function Values(rows: seq<OutboxRow>): (vs: seq<Outbox>)
    reads rows
    ensures |vs| == |rows|
    ensures forall i | 0 <= i < |rows| :: vs[i] == rows[i].Value()
  {
    seq(|rows|, i requires 0 <= i < |rows| reads rows => rows[i].Value())
  }

  predicate Eligible(rows: seq<Outbox>, locked: set<nat>, now: int, i: nat)
    requires i < |rows|
  {
    i !in locked && Claimable(rows[i], now)
  }

  // How many of the first `k` rows the claim query matches.
  ghost function Matching(rows: seq<Outbox>, locked: set<nat>, now: int, k: nat): nat
    requires k <= |rows|
  {
    if k == 0 then 0
    else Matching(rows, locked, now, k - 1) + if Eligible(rows, locked, now, k - 1) then 1 else 0
  }

  // Row `i` is selected: it matches and fewer than `batch` matching rows are older.
  ghost predicate Selected(rows: seq<Outbox>, locked: set<nat>, now: int, batch: nat, i: nat)
    requires i < |rows|
  {
    Eligible(rows, locked, now, i) && Matching(rows, locked, now, i) < batch
  }

  /** The claim query: the oldest `batch` claimable rows, in creation order. `locked` are the rows other
      transactions hold, which the query skips. */
  method SelectClaimable(rows: seq<Outbox>, locked: set<nat>, batch: nat, now: int)
    returns (picked: seq<nat>)
    ensures forall j | 0 <= j < |picked| :: picked[j] < |rows|
    ensures forall j, k :: 0 <= j < k < |picked| ==> picked[j] < picked[k]
    ensures |picked| <= batch
    ensures forall i: nat | i < |rows| :: i in picked <==> Selected(rows, locked, now, batch, i)
    ensures forall i: nat | i < |rows| && i in picked :: i !in locked && Claimable(rows[i], now)
    ensures |picked| < batch ==> forall i: nat | i < |rows| && i !in locked && Claimable(rows[i], now) :: i in picked
  {
    picked := [];
    var i := 0;
    while i < |rows| && |picked| < batch
      invariant 0 <= i <= |rows|
      invariant |picked| == Matching(rows, locked, now, i) <= batch
      invariant forall j | 0 <= j < |picked| :: picked[j] < i
      invariant forall j, k :: 0 <= j < k < |picked| ==> picked[j] < picked[k]
      invariant forall k: nat | k < i :: k in picked <==> Selected(rows, locked, now, batch, k)
    {
      if Eligible(rows, locked, now, i) {
        picked := picked + [i];
      }
      i := i + 1;
    }
    if |picked| >= batch {
      forall k: nat | i <= k < |rows| ensures !Selected(rows, locked, now, batch, k) && k !in picked {
        MatchingGrows(rows, locked, now, i, k);
      }
    } else {
      forall k: nat | k < |rows| && Eligible(rows, locked, now, k) ensures k in picked {
        MatchingGrows(rows, locked, now, k, i);
      }
    }
    assert forall k: nat | k < |rows| && k in picked :: Eligible(rows, locked, now, k);
  }

  /** The oldest go first: no claimable row that is free is passed over for a younger one. */
  lemma OldestFirst(rows: seq<Outbox>, locked: set<nat>, now: int, batch: nat, i: nat, j: nat)
    requires i < j < |rows| && i !in locked && Claimable(rows[i], now) && Selected(rows, locked, now, batch, j)
    ensures Selected(rows, locked, now, batch, i)
  {
    MatchingGrows(rows, locked, now, i, j);
  }

  /** OutboxService.claim_pending_items over the rows in creation order. A row is claimed exactly when
      it is unlocked, claimable and fewer than `batch` such rows precede it; no other row changes. */
  method ClaimPendingItems(rows: seq<OutboxRow>, locked: set<nat>, worker: nat, batch: nat, now: int, lease: int)
    returns (picked: seq<nat>)
    requires forall i, j :: 0 <= i < j < |rows| ==> rows[i] != rows[j]
    modifies rows
    ensures |picked| <= batch
    ensures var before := old(Values(rows));
      forall i: nat | i < |rows| ::
        && (i in picked <==> Selected(before, locked, now, batch, i))
        && rows[i].Value() == if i in picked then ClaimRow(before[i], worker, now, lease) else before[i]
  {
    ghost var before := Values(rows);
    picked := SelectClaimable(Values(rows), locked, batch, now);
    var j := 0;
    while j < |picked|
      invariant 0 <= j <= |picked|
      invariant forall k: nat | k < |rows| ::
                  rows[k].Value() == if k in picked[..j] then ClaimRow(before[k], worker, now, lease) else before[k]
    {
      assert picked[j] in picked && picked[j] !in picked[..j];
      var item := rows[picked[j]];
      item.status := CLAIMED;
      item.claimedBy := Some(worker);
      item.claimedAt := Some(now);
      item.leaseExpiresAt := Some(now + lease);
      item.attemptCount := item.attemptCount + 1;
      assert picked[..j + 1] == picked[..j] + [picked[j]];
      j := j + 1;
    }
    assert picked[..j] == picked;
  }

  lemma {:induction false} MatchingGrows(rows: seq<Outbox>, locked: set<nat>, now: int, i: nat, k: nat)
    requires i <= k <= |rows|
    ensures Matching(rows, locked, now, i) <= Matching(rows, locked, now, k)
    decreases k - i
  {
    if i < k {
      MatchingGrows(rows, locked, now, i, k - 1);
    }
  }

  /** ReconciliationService.reconcile_action for a payment link, on the rows that make up `row`; `raised` is
      a raised exception. */
  method ReconcileAction(action: ActionRow, attempt: AttemptRow, outbox: OutboxRow, ghost row: Row, fetch: FetchReply,
                         now: int)
    returns (raised: bool)
    requires row.action == action.Value() && row.outbox == outbox.Value()
    requires outbox.attemptCount in row.attempts && row.attempts[outbox.attemptCount] == attempt.Value()
    modifies action, attempt, outbox
    ensures var (after, r) := Reconcile(row, old(outbox.attemptCount), fetch, now);
      && raised == r && action.Value() == after.action && outbox.Value() == after.outbox
      && row.attempts[old(outbox.attemptCount) := attempt.Value()] == after.attempts
  {
    raised := false;
    if attempt.requestId.None? || attempt.requestId.value == "" {
      return;
    }
    if fetch.FetchRaises? {
      return true;
    }
    if fetch.status == Recovery.PROVIDER_SUCCEEDED {
      attempt.status := AttemptStatus.SUCCEEDED;
      attempt.finishedAt := Some(now);
      action.status := ActionStatus.SUCCEEDED;
      outbox.Complete(now);
    } else if fetch.status == Recovery.PROVIDER_FAILED {
      attempt.status := AttemptStatus.FAILED;
      attempt.finishedAt := Some(now);
      action.status := ActionStatus.FAILED;
      outbox.status := OutboxStatus.FAILED;
    }
  }

  // The rows of one execution, as the value `Process` works on.
  ghost function RowOf(action: ActionRow, outbox: OutboxRow, attempts: map<nat, Attempt>,
                       ledger: Recovery.Ledger, raises: nat): Row
    reads action, outbox, ledger
  {
    var key := Recovery.ByAction(action.id);
    Row(action.Value(), outbox.Value(), attempts,
        if key in ledger.recorded then Some(ledger.recorded[key]) else None, raises)
  }

  // The facts of one execution, with the case read from its row.
  ghost function FactsOf(kase: CaseRow?, decision: Option<Decision>, tenant: Option<nat>,
                         category: Option<FailureCategory>, enabled: bool, adapter: bool, now: int, window: int): Facts
    reads kase
  {
    Facts(if kase == null then None else Some(kase.Value()), decision, tenant, category, enabled, adapter, now, window)
  }

  // The row objects hold what `p` says, with `attempt` stored under number `n`.
  ghost predicate Holds(p: Processed, action: ActionRow, outbox: OutboxRow, kase: CaseRow?, n: nat,
                        attempt: AttemptRow, attempts: map<nat, Attempt>)
    reads action, outbox, kase, attempt
  {
    && action.Value() == p.row.action
    && outbox.Value() == p.row.outbox
    && (kase != null ==> Some(kase.Value()) == p.kase)
    && attempts[n := attempt.Value()] == p.row.attempts
  }

  ghost predicate Filed(p: Processed, id: nat, before: map<Recovery.OutcomeKey, Recovery.Recorded>,
                        ledger: Recovery.Ledger)
    reads ledger
  {
    ledger.recorded == if p.row.recorded.Some? then before[Recovery.ByAction(id) := p.row.recorded.value] else before
  }

  /** The SUCCEEDED branch: paid answers recover the case, others leave it waiting for payment. */
  method HandleSuccess(action: ActionRow, outbox: OutboxRow, kase: CaseRow, attempt: AttemptRow, ledger: Recovery.Ledger,
                       ghost attempts: map<nat, Attempt>, ghost raises: nat, category: Option<FailureCategory>,
                       ghost f: Facts, now: int, window: int, env: Env, result: LinkResult)
    requires f.category == category && f.now == now && f.window == window
    requires result.status == Recovery.PROVIDER_SUCCEEDED
    requires attempt.finishedAt == Some(now) && attempt.requestId == result.requestId
    modifies action, outbox, kase, attempt, ledger
    ensures var p := OnSuccess(action.id, old(RowOf(action, outbox, attempts, ledger, raises)), old(kase.Value()), f, env, result);
      && Holds(p, action, outbox, kase, old(outbox.attemptCount), attempt, attempts)
      && Filed(p, action.id, old(ledger.recorded), ledger)
  {
    ghost var row := RowOf(action, outbox, attempts, ledger, raises);
    attempt.status := AttemptStatus.SUCCEEDED;
    attempt.providerStatus := result.providerStatus;
    attempt.paidAmount := result.metadataAmount;
    action.status := ActionStatus.SUCCEEDED;
    outbox.Complete(now);
    if IsPaid(result.providerStatus) {
      kase.RecoverBy(Recovery.Dispatch(action.id, outbox.attemptCount));
      FilePaid(action, outbox, kase, ledger, row, f, category, now, window, env, result);
    } else {
      kase.AwaitPayment(result.hasUrl);
    }
  }

  // The record_outcome call shared by the three branches, skipped when its exception is swallowed.
  method FileOutcome(saved: bool, action: ActionRow, outbox: OutboxRow, kase: CaseRow, ledger: Recovery.Ledger,
                     ghost row: Row, ghost f: Facts, now: int, window: int, result: LinkResult)
    requires f.now == now && f.window == window
    requires row.action.(status := action.status) == action.Value() && row.outbox.attemptCount == outbox.attemptCount
    requires row.recorded == RowOf(action, outbox, map[], ledger, 0).recorded
    modifies ledger
    ensures ledger.recorded ==
            if saved then old(ledger.recorded)[Recovery.ByAction(action.id) :=
              Recorded(action.id, row, DispatchReceipt(action.id, row, kase.Value(), f, result)).value]
            else old(ledger.recorded)
  {
    if saved {
      var rec := ledger.RecordOutcome(
        Recovery.ByAction(action.id),
        Recovery.Receipt(action.caseId, action.tenant, kase.amount, result.status, result.metadataAmount, None,
                         now, window, Recovery.Dispatch(action.id, outbox.attemptCount)),
        Some(Recovery.ActionRef(action.id, action.createdAt)));
    }
  }

  // The outcome of a paid answer and, unless it fails, its measurement.
  method FilePaid(action: ActionRow, outbox: OutboxRow, kase: CaseRow, ledger: Recovery.Ledger, ghost row: Row,
                  ghost f: Facts, category: Option<FailureCategory>, now: int, window: int, env: Env, result: LinkResult)
    requires f.category == category && f.now == now && f.window == window
    requires row.action.(status := action.status) == action.Value() && row.outbox.attemptCount == outbox.attemptCount
    requires row.recorded == RowOf(action, outbox, map[], ledger, 0).recorded
    modifies ledger
    ensures var rec := Recorded(action.id, row, DispatchReceipt(action.id, row, kase.Value(), f, result)).value;
      ledger.recorded ==
        if !env.saved then old(ledger.recorded)
        else old(ledger.recorded)[Recovery.ByAction(action.id) :=
               if env.measure.None? then rec
               else Recovery.FirstMeasurement(rec, MeasureContextOf(kase.Value(), f, env.measure.value))]
  {
    FileOutcome(env.saved, action, outbox, kase, ledger, row, f, now, window, result);
    if env.saved && env.measure.Some? {
      var m := ledger.CreateMeasurement(Recovery.ByAction(action.id),
        Recovery.MeasureContext(kase.amount, kase.domain, category, env.measure.value.retryability,
                                env.measure.value.allocation, env.measure.value.bucket, window));
    }
  }

  /** The FAILED branch: the outbox row closes only when the failure is final or the budget is spent. */
  method HandleFailure(action: ActionRow, outbox: OutboxRow, kase: CaseRow, attempt: AttemptRow, ledger: Recovery.Ledger,
                       ghost attempts: map<nat, Attempt>, ghost raises: nat, ghost f: Facts,
                       now: int, window: int, env: Env, result: LinkResult)
    requires f.now == now && f.window == window
    requires result.status == Recovery.PROVIDER_FAILED
    requires attempt.finishedAt == Some(now) && attempt.requestId == result.requestId && attempt.providerStatus == "" && attempt.paidAmount == None
    modifies action, outbox, attempt, ledger
    ensures var p := OnFailure(action.id, old(RowOf(action, outbox, attempts, ledger, raises)), kase.Value(), f, env, result);
      && Holds(p, action, outbox, kase, old(outbox.attemptCount), attempt, attempts)
      && Filed(p, action.id, old(ledger.recorded), ledger)
  {
    ghost var row := RowOf(action, outbox, attempts, ledger, raises);
    attempt.status := AttemptStatus.FAILED;
    action.status := ActionStatus.FAILED;
    if result.retrySafety == NOT_RETRIABLE || outbox.attemptCount >= outbox.maxRetries {
      outbox.status := if outbox.attemptCount >= outbox.maxRetries then DEAD_LETTERED else OutboxStatus.FAILED;
    }
    FileOutcome(env.saved, action, outbox, kase, ledger, row, f, now, window, result);
  }

  /** The UNKNOWN branch: record, then reconcile against the provider's read API. */
  method HandleUnknown(action: ActionRow, outbox: OutboxRow, kase: CaseRow, attempt: AttemptRow, ledger: Recovery.Ledger,
                       ghost attempts: map<nat, Attempt>, ghost raises: nat, ghost f: Facts,
                       now: int, window: int, env: Env, result: LinkResult)
    returns (raised: bool)
    requires f.now == now && f.window == window
    requires result.status == Recovery.PROVIDER_UNKNOWN
    requires attempt.finishedAt == Some(now) && attempt.requestId == result.requestId && attempt.providerStatus == "" && attempt.paidAmount == None
    modifies action, outbox, attempt, ledger
    ensures var p := OnUnknown(action.id, old(RowOf(action, outbox, attempts, ledger, raises)), kase.Value(), f, env, result);
      && raised == p.raised
      && Holds(p, action, outbox, kase, old(outbox.attemptCount), attempt, attempts)
      && Filed(p, action.id, old(ledger.recorded), ledger)
  {
    ghost var row := RowOf(action, outbox, attempts, ledger, raises);
    attempt.status := AttemptStatus.UNKNOWN;
    action.status := ActionStatus.UNKNOWN;
    FileOutcome(env.saved, action, outbox, kase, ledger, row, f, now, window, result);
    ghost var unknown := RowOf(action, outbox, attempts[outbox.attemptCount := attempt.Value()], ledger, raises);
    raised := ReconcileAction(action, attempt, outbox, unknown, env.fetch, now);
    assert unknown.attempts[old(outbox.attemptCount) := attempt.Value()]
        == attempts[old(outbox.attemptCount) := attempt.Value()];
  }

  // What `Process` does with an answered call, on the started row.
  ghost function Answered(id: nat, started: Row, c: Case, f: Facts, env: Env): Processed
    requires env.reply.Replies?
  {
    var r := env.reply.result;
    match r.status
    case PROVIDER_SUCCEEDED => OnSuccess(id, started, c, f, env, r)
    case PROVIDER_FAILED => OnFailure(id, started, c, f, env, r)
    case PROVIDER_UNKNOWN => OnUnknown(id, started, c, f, env, r)
  }

  /** Step 5 of process_outbox_item: dispatch on the provider's status. */
  method HandleOutcome(action: ActionRow, outbox: OutboxRow, kase: CaseRow, attempt: AttemptRow, ledger: Recovery.Ledger,
                       ghost stored: map<nat, Attempt>, ghost raises: nat, category: Option<FailureCategory>,
                       ghost f: Facts, now: int, window: int, env: Env)
    returns (raised: bool)
    requires env.reply.Replies? && f.category == category && f.now == now && f.window == window
    requires attempt.Value() == Attempt(AttemptStatus.EXECUTING, None, "", None, None)
    modifies action, outbox, kase, attempt, ledger
    ensures var p := Answered(action.id, old(RowOf(action, outbox, stored, ledger, raises)), old(kase.Value()), f, env);
      && raised == p.raised && p.called
      && Holds(p, action, outbox, kase, old(outbox.attemptCount), attempt, stored)
      && Filed(p, action.id, old(ledger.recorded), ledger)
  {
    raised := false;
    var result := env.reply.result;
    attempt.finishedAt := Some(now);
    attempt.requestId := result.requestId;
    if result.status == Recovery.PROVIDER_SUCCEEDED {
      HandleSuccess(action, outbox, kase, attempt, ledger, stored, raises, category, f, now, window, env, result);
    } else if result.status == Recovery.PROVIDER_FAILED {
      HandleFailure(action, outbox, kase, attempt, ledger, stored, raises, f, now, window, env, result);
    } else {
      raised := HandleUnknown(action, outbox, kase, attempt, ledger, stored, raises, f, now, window, env, result);
    }
  }

  /** ExecutionWorker.process_outbox_item: preflight, attempt, dispatch, three-way outcome handling.
      `attempts` are the attempts already stored for the action; a new one is returned in `attempt`. */
  method ProcessOutboxItem(outbox: OutboxRow, action: ActionRow?, kase: CaseRow?, ghost raises: nat,
                           decision: Option<Decision>, tenant: Option<nat>, category: Option<FailureCategory>,
                           attempts: map<nat, Attempt>, ledger: Recovery.Ledger,
                           enabled: bool, adapter: bool, now: int, window: int, env: Env)
    returns (attempt: AttemptRow?, called: bool, raised: bool)
    modifies outbox, action, kase, ledger
    ensures action == null ==>
      && outbox.Value() == old(outbox.Value()).(status := OutboxStatus.FAILED)
      && (kase != null ==> kase.Value() == old(kase.Value()))
      && ledger.recorded == old(ledger.recorded) && attempt == null && !called && !raised
    ensures action != null ==>
      var p := Process(action.id, old(RowOf(action, outbox, attempts, ledger, raises)),
                       old(FactsOf(kase, decision, tenant, category, enabled, adapter, now, window)), env);
      && called == p.called && raised == p.raised
      && action.Value() == p.row.action && outbox.Value() == p.row.outbox
      && (kase != null ==> Some(kase.Value()) == p.kase)
      && (attempt == null ==> p.row.attempts == attempts)
      && (attempt != null ==> fresh(attempt) && Holds(p, action, outbox, kase, old(outbox.attemptCount), attempt, attempts))
      && Filed(p, action.id, old(ledger.recorded), ledger)
  {
    attempt, called, raised := null, false, false;
    if action == null {
      outbox.status := OutboxStatus.FAILED;
      return;
    }
    var v := Preflight(outbox, action, kase, decision, tenant, category, attempts, enabled, adapter);
    ghost var before := RowOf(action, outbox, attempts, ledger, raises);
    ghost var f := FactsOf(kase, decision, tenant, category, enabled, adapter, now, window);
    assert v == Validate(before, f);
    if !v.ok {
      action.status := v.status;
      outbox.status := if v.status == ActionStatus.SUCCEEDED then COMPLETED else OutboxStatus.FAILED;
      return;
    }
    attempt := new AttemptRow();
    action.status := ActionStatus.EXECUTING;
    if outbox.amount <= 0 {
      raised := true;  // the request model rejects a non-positive amount
      return;
    }
    called := true;
    if env.reply.Raises? {
      raised := true;
      return;
    }
    ghost var n := outbox.attemptCount;
    ghost var stored := attempts[n := attempt.Value()];
    raised := HandleOutcome(action, outbox, kase, attempt, ledger, stored, raises, category, f, now, window, env);
    assert stored[n := attempt.Value()] == attempts[n := attempt.Value()];
  }

  /** ExecutionPreflightValidator.validate: the numbered checks as early returns. */
  method Preflight(outbox: OutboxRow, action: ActionRow, kase: CaseRow?, decision: Option<Decision>,
                   tenant: Option<nat>, category: Option<FailureCategory>, attempts: map<nat, Attempt>,
                   enabled: bool, adapter: bool)
    returns (v: Verdict)
    ensures forall f: Facts, row: Row |
              && f.kase == (if kase == null then None else Some(kase.Value())) && f.decision == decision
              && f.tenant == tenant && f.category == category && f.enabled == enabled && f.adapter == adapter
              && row.action == action.Value() && row.outbox == outbox.Value() && row.attempts == attempts ::
              v == Validate(row, f)
  {
    if kase == null { return Verdict(false, 2, CANCELLED); }
    if decision.None? { return Verdict(false, 3, CANCELLED); }
    if tenant.None? { return Verdict(false, 4, CANCELLED); }
    if !(action.tenant == kase.tenant == decision.value.tenant == tenant.value) {
      return Verdict(false, 5, CANCELLED);
    }
    if Terminal(kase.status) { return Verdict(false, 6, SUPERSEDED); }
    if !Executable(action.status) { return Verdict(false, 7, SUPERSEDED); }
    if decision.value.policy != APPROVED { return Verdict(false, 8, CANCELLED); }
    if decision.value.autonomy != FULL_AUTO && decision.value.autonomy != HUMAN_APPROVAL {
      return Verdict(false, 9, CANCELLED);
    }
    var current := if category.Some? then category.value else UNKNOWN_CATEGORY;
    var (status, _) := Policy.Evaluate(action.kind, kase.domain, current, None);
    if status != APPROVED { return Verdict(false, 10, CANCELLED); }
    if outbox.attemptCount > outbox.maxRetries { return Verdict(false, 11, ActionStatus.FAILED); }
    if current == NON_RETRIABLE && IsRetry(action.kind) { return Verdict(false, 12, CANCELLED); }
    if action.status == ActionStatus.SUCCEEDED { return Verdict(false, 13, ActionStatus.SUCCEEDED); }
    if !enabled { return Verdict(false, 14, CANCELLED); }
    if HasSucceeded(attempts) { return Verdict(false, 15, ActionStatus.SUCCEEDED); }
    if action.kind != GENERATE_PAYMENT_LINK { return Verdict(false, 16, CANCELLED); }
    if !adapter { return Verdict(false, 16, CANCELLED); }
    return Verdict(true, 0, action.status);
  }
}
