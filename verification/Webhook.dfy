/** The tail of the paid-webhook handler in its own form (app/services/ingestion.py): it assigns the
    fields of the case and action it found and files the outcome, and is proved against `Ingestion`. */
module Webhook {
  import opened Domain
  import opened Execution
  import Ingestion
  import Recovery
  import Worker

  /** Mark the action paid and move the case; a refused transition is swallowed. */
  method MarkPaid(event: nat, kase: Worker.CaseRow, action: Worker.ActionRow?)
    modifies kase, action
    ensures kase.Value() == Ingestion.CaseAfter(old(kase.Value()), event)
    ensures action != null ==> action.Value() == old(action.Value()).(status := ActionStatus.SUCCEEDED)
  {
    if action != null && action.status != ActionStatus.SUCCEEDED {
      action.status := ActionStatus.SUCCEEDED;
    }
    if kase.status != CaseStatus.RECOVERED {
      kase.RecoverBy(Recovery.Webhook(event));
      kase.stage := STAGE_RECOVERED;
    }
  }

  function RefOf(action: Worker.ActionRow?): Option<Recovery.ActionRef> {
    if action == null then None else Some(Recovery.ActionRef(action.id, action.createdAt))
  }

  function KeyOf(event: nat, action: Worker.ActionRow?): Recovery.OutcomeKey {
    if action == null then Recovery.ByEvent(event) else Recovery.ByAction(action.id)
  }

  /** File the outcome and, unless that call fails, its measurement. */
  method FilePayment(event: nat, payload: Ingestion.Payload, kase: Worker.CaseRow, caseId: nat, tenant: nat,
                     action: Worker.ActionRow?, ledger: Recovery.Ledger, category: Option<FailureCategory>,
                     now: int, window: int, measure: Option<MeasureInput>)
    requires action == null ==> Recovery.ByEvent(event) !in ledger.recorded
    modifies ledger
    ensures var key := KeyOf(event, action);
      var before := if key in old(ledger.recorded) then Some(old(ledger.recorded)[key]) else None;
      ledger.recorded == old(ledger.recorded)[key :=
        Ingestion.RecordedAfter(before, payload, event, caseId, tenant, kase.Value(), RefOf(action), category, now, window,
                                measure)]
  {
    var key := KeyOf(event, action);
    var stated := if payload.amount > 0 then Some(payload.amount) else None;
    var receipt := Recovery.Receipt(caseId, tenant, kase.amount, Recovery.PROVIDER_SUCCEEDED, payload.metadataAmount, stated,
                                    now, window, Recovery.Webhook(event));
    assert receipt == Ingestion.Receipt(payload, event, caseId, tenant, kase.Value(), now, window);
    var rec := ledger.RecordOutcome(key, receipt, RefOf(action));
    if measure.Some? {
      var m := ledger.CreateMeasurement(key,
        Recovery.MeasureContext(kase.amount, kase.domain, category, measure.value.retryability, measure.value.allocation,
                                measure.value.bucket, window));
    }
  }

  // The books only look at the parts of the case that a payment does not change.
  lemma SameBooks(existing: Option<Recovery.Recorded>, payload: Ingestion.Payload, event: nat, caseId: nat, tenant: nat,
                  c: Case, action: Option<Recovery.ActionRef>, category: Option<FailureCategory>,
                  now: int, window: int, measure: Option<MeasureInput>)
    ensures Ingestion.RecordedAfter(existing, payload, event, caseId, tenant, Ingestion.CaseAfter(c, event), action, category,
                                    now, window, measure)
         == Ingestion.RecordedAfter(existing, payload, event, caseId, tenant, c, action, category, now, window, measure)
  {
  }

  /** Everything _handle_payment_success_event writes for a confirmed payment of a known case. */
  method CreditPayment(event: nat, payload: Ingestion.Payload, kase: Worker.CaseRow, caseId: nat, tenant: nat,
                       action: Worker.ActionRow?, ledger: Recovery.Ledger, category: Option<FailureCategory>,
                       now: int, window: int, measure: Option<MeasureInput>)
    requires action == null ==> Recovery.ByEvent(event) !in ledger.recorded
    modifies kase, action, ledger
    ensures kase.Value() == Ingestion.CaseAfter(old(kase.Value()), event)
    ensures action != null ==> action.Value() == old(action.Value()).(status := ActionStatus.SUCCEEDED)
    ensures var key := KeyOf(event, action);
      var before := if key in old(ledger.recorded) then Some(old(ledger.recorded)[key]) else None;
      ledger.recorded == old(ledger.recorded)[key :=
        Ingestion.RecordedAfter(before, payload, event, caseId, tenant, old(kase.Value()), RefOf(action), category, now,
                                window, measure)]
  {
    ghost var c := kase.Value();
    ghost var key := KeyOf(event, action);
    ghost var before := if key in ledger.recorded then Some(ledger.recorded[key]) else None;
    MarkPaid(event, kase, action);
    FilePayment(event, payload, kase, caseId, tenant, action, ledger, category, now, window, measure);
    SameBooks(before, payload, event, caseId, tenant, c, RefOf(action), category, now, window, measure);
  }
}
