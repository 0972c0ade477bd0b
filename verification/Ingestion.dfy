/** The paid-webhook handler (app/services/ingestion.py): which payload confirms a payment, which case
    and action it is credited to, and what it writes. */
module Ingestion {
  import opened Domain
  import opened Execution
  import opened Text
  import Recovery

  // The parts of a provider event that the handler reads. `amount` is the first usable amount of the
  // entities (0 when there is none) and `metadataAmount` the one of the merged entities.
  datatype Payload = Payload(
    eventType: string,
    paymentStatus: string,
    linkStatus: string,
    orderStatus: string,
    noteCase: Option<nat>,
    noteAction: Option<nat>,
    resourceId: Option<string>,
    amount: int,
    metadataAmount: Option<int>)

  predicate IsSuccessEvent(eventType: string) {
    eventType == "payment_link.paid" || eventType == "payment.captured" || eventType == "order.paid"
  }

  /** _is_confirmed_payment_event. */
  predicate IsConfirmed(p: Payload) {
    var payment, link, order := Lower(p.paymentStatus), Lower(p.linkStatus), Lower(p.orderStatus);
    if p.eventType == "payment_link.paid" then link == "paid" || payment == "captured"
    else if p.eventType == "payment.captured" then payment == "captured"
    else if p.eventType == "order.paid" then order == "paid" || payment == "captured"
    else false
  }

  /** A payload that says it was paid, by the status of the entity that counts for its type: a link and an
      order by their own "paid", each of them and a plain payment by the payment's "captured". */
  predicate SaysPaid(p: Payload) {
    || (p.eventType == "payment_link.paid" && (Spells(p.linkStatus, "paid") || Spells(p.paymentStatus, "captured")))
    || (p.eventType == "payment.captured" && Spells(p.paymentStatus, "captured"))
    || (p.eventType == "order.paid" && (Spells(p.orderStatus, "paid") || Spells(p.paymentStatus, "captured")))
  }

  /** The handler is convinced by exactly those payloads; the event's name alone confirms nothing. */
  lemma ConfirmedIffSaysPaid(p: Payload)
    ensures IsConfirmed(p) <==> SaysPaid(p)
  {
    LowerSpells(p.paymentStatus, "captured");
    LowerSpells(p.linkStatus, "paid");
    LowerSpells(p.orderStatus, "paid");
    assert "payment_link.paid"[7] != "payment.captured"[7] && "order.paid"[0] != "payment.captured"[0];
  }

  function Truthy(s: Option<string>): bool { s.Some? && s.value != "" }

  // The two queries the correlation falls back on: an attempt with the payload's resource id, and the
  // latest action of a case.
  datatype Lookup = Lookup(byResource: Option<nat>, latest: Option<nat>)

  datatype Target = Ignored | Credit(kase: Option<nat>, action: Option<nat>)

  function OwnCase(cases: map<nat, Case>, c: Option<nat>, tenant: nat): Option<nat> {
    if c.Some? && c.value in cases && cases[c.value].tenant == tenant then c else None
  }

  function OwnAction(rows: map<nat, Row>, a: Option<nat>, tenant: nat): Option<nat> {
    if a.Some? && a.value in rows && rows[a.value].action.tenant == tenant then a else None
  }

  function CaseOfAction(cases: map<nat, Case>, rows: map<nat, Row>, a: nat, tenant: nat): Option<nat>
    requires a in rows
  {
    OwnCase(cases, Some(rows[a].action.caseId), tenant)
  }

  /** Correlation, in the handler's order: the notes, then the resource id, then the case of the action,
      then the latest action of the case; references into another tenant are dropped on the way, and an
      inconsistent pair is ignored. */
  function Correlate(cases: map<nat, Case>, rows: map<nat, Row>, p: Payload, tenant: nat, look: Lookup): Target {
    var kase := OwnCase(cases, p.noteCase, tenant);
    var noted := OwnAction(rows, p.noteAction, tenant);
    var action := if noted.None? && Truthy(p.resourceId) then OwnAction(rows, look.byResource, tenant) else noted;
    var kase2 := if action.Some? && kase.None? then CaseOfAction(cases, rows, action.value, tenant) else kase;
    var action2 := if kase2.Some? && action.None? && look.latest.Some? && look.latest.value in rows then look.latest
                   else action;
    if kase2.None? && action2.None? then Ignored
    else if kase2.Some? && action2.Some? && rows[action2.value].action.caseId != kase2.value then Ignored
    else Credit(kase2, action2)
  }

  function Receipt(p: Payload, event: nat, caseId: nat, tenant: nat, c: Case, now: int, window: int): Recovery.Receipt {
    Recovery.Receipt(caseId, tenant, c.amount, Recovery.PROVIDER_SUCCEEDED, p.metadataAmount,
                     if p.amount > 0 then Some(p.amount) else None, now, window, Recovery.Webhook(event))
  }

  /** What the payload states was paid: the entity amount when positive, else the metadata amount, else
      the whole case. */
  function StatedAmount(p: Payload, caseAmount: int): int {
    if p.amount > 0 then p.amount
    else if p.metadataAmount.Some? then p.metadataAmount.value
    else caseAmount
  }

  /** The case after a confirmed payment; a refused transition is swallowed. */
  function CaseAfter(c: Case, event: nat): Case {
    if c.status == CaseStatus.RECOVERED then c
    else
      var moved := TransitionTo(c, CaseStatus.RECOVERED, None);
      (if moved.Some? then moved.value.(recoveredBy := Some(Recovery.Webhook(event))) else c)
        .(stage := STAGE_RECOVERED)
  }

  /** The outcome filed for a confirmed payment, and its measurement unless that call fails. */
  function RecordedAfter(existing: Option<Recovery.Recorded>, p: Payload, event: nat, caseId: nat, tenant: nat,
                         c: Case, action: Option<Recovery.ActionRef>, category: Option<FailureCategory>,
                         now: int, window: int, measure: Option<MeasureInput>): Recovery.Recorded
  {
    var rec := Recovery.FirstOutcome(existing, Receipt(p, event, caseId, tenant, c, now, window), action);
    if measure.None? then rec
    else Recovery.FirstMeasurement(rec, Recovery.MeasureContext(
           c.amount, c.domain, category, measure.value.retryability, measure.value.allocation,
           measure.value.bucket, window))
  }

  function RowAfter(row: Row, rec: Option<Recovery.Recorded>): Row {
    row.(action := row.action.(status := ActionStatus.SUCCEEDED), recorded := rec)
  }

  /** Tenant isolation of the webhook: whatever the payload refers to and whatever the fallback queries
      return, only rows of the event's own tenant are credited, and the case and the action credited
      together belong to each other. */
  lemma CorrelationIsIsolated(cases: map<nat, Case>, rows: map<nat, Row>, p: Payload, tenant: nat, look: Lookup)
    requires forall a | a in rows :: rows[a].action.caseId in cases
                                     && cases[rows[a].action.caseId].tenant == rows[a].action.tenant
    ensures var t := Correlate(cases, rows, p, tenant, look);
      t.Credit? ==>
        && t.kase.Some? && t.kase.value in cases && cases[t.kase.value].tenant == tenant
        && (t.action.Some? ==>
              && t.action.value in rows && rows[t.action.value].action.tenant == tenant
              && rows[t.action.value].action.caseId == t.kase.value)
  {
    forall a | a in rows && rows[a].action.tenant == tenant
      ensures CaseOfAction(cases, rows, a, tenant).Some?
    {
    }
  }

  /** References in the payload's own notes win over every fallback: a consistent pair of the event's tenant
      is credited as it stands, and an inconsistent one is ignored rather than repaired. */
  lemma NotesDecide(cases: map<nat, Case>, rows: map<nat, Row>, p: Payload, tenant: nat, look: Lookup, c: nat, a: nat)
    requires p.noteCase == Some(c) && c in cases && cases[c].tenant == tenant
    requires p.noteAction == Some(a) && a in rows && rows[a].action.tenant == tenant
    ensures Correlate(cases, rows, p, tenant, look)
            == if rows[a].action.caseId == c then Credit(Some(c), Some(a)) else Ignored
  {
  }

  // Where the action comes from when the notes name none of the tenant's: an attempt with the resource id.
  predicate FoundByResource(rows: map<nat, Row>, p: Payload, tenant: nat, look: Lookup) {
    p.resourceId.Some? && p.resourceId.value != ""
    && look.byResource.Some? && look.byResource.value in rows && rows[look.byResource.value].action.tenant == tenant
  }

  predicate NotesCase(cases: map<nat, Case>, p: Payload, tenant: nat) {
    p.noteCase.Some? && p.noteCase.value in cases && cases[p.noteCase.value].tenant == tenant
  }

  predicate NotesAction(rows: map<nat, Row>, p: Payload, tenant: nat) {
    p.noteAction.Some? && p.noteAction.value in rows && rows[p.noteAction.value].action.tenant == tenant
  }

  /** The fallbacks, in order. An action noted, or else one found by the resource id, brings its own case when
      the notes name none, and must agree with the one they name; a case noted without either brings the
      latest action on file; and a payload that names nothing of the tenant is ignored. References to others'
      rows count as absent, and a blank resource id finds nothing. */
  lemma FallbacksInOrder(cases: map<nat, Case>, rows: map<nat, Row>, p: Payload, tenant: nat, look: Lookup)
    requires forall a | a in rows :: rows[a].action.caseId in cases
                                     && cases[rows[a].action.caseId].tenant == rows[a].action.tenant
    ensures var t := Correlate(cases, rows, p, tenant, look);
      if NotesAction(rows, p, tenant) || FoundByResource(rows, p, tenant, look) then
        var a := if NotesAction(rows, p, tenant) then p.noteAction.value else look.byResource.value;
        t == if NotesCase(cases, p, tenant) && p.noteCase.value != rows[a].action.caseId then Ignored
             else Credit(Some(rows[a].action.caseId), Some(a))
      else if !NotesCase(cases, p, tenant) then t == Ignored
      else if look.latest.None? || look.latest.value !in rows then t == Credit(p.noteCase, None)
      else t == if rows[look.latest.value].action.caseId == p.noteCase.value then Credit(p.noteCase, look.latest)
                else Ignored
  {
  }

  /** What a payment does to its case: RECOVERED and so marked unless its life had ended before; one version
      more when it moves; and nothing else, its history aside. A case already RECOVERED is left as it is. */
  lemma CaseAfterAPayment(c: Case, event: nat)
    ensures var c' := CaseAfter(c, event);
      && c'.tenant == c.tenant && c'.domain == c.domain && c'.amount == c.amount && c'.linkUrl == c.linkUrl
      && c'.status == (if Terminal(c.status) then c.status else CaseStatus.RECOVERED)
      && c'.version == c.version + (if Terminal(c.status) then 0 else 1)
      && c'.stage == (if c.status == CaseStatus.RECOVERED then c.stage else STAGE_RECOVERED)
      && c'.recoveredBy == (if Terminal(c.status) then c.recoveredBy else Some(Recovery.Webhook(event)))
  {
    TransitionsMoveForward(c, CaseStatus.RECOVERED, None);
  }

  /** The outcome filed for a payment that had none before is recovered, for the stated amount, under
      this event; an outcome that already exists stands. */
  lemma WebhookFilesTruth(existing: Option<Recovery.Recorded>, p: Payload, event: nat, caseId: nat, tenant: nat,
                          c: Case, action: Option<Recovery.ActionRef>, category: Option<FailureCategory>,
                          now: int, window: int, measure: Option<MeasureInput>)
    ensures var rec := RecordedAfter(existing, p, event, caseId, tenant, c, action, category, now, window, measure);
      && (existing.Some? ==> rec.outcome == existing.value.outcome)
      && (existing.None? ==>
            && Recovery.Recovers(rec.outcome.status)
            && rec.outcome.caseId == caseId && rec.outcome.tenant == tenant && rec.outcome.action == action
            && rec.outcome.amount == StatedAmount(p, c.amount)
            && rec.outcome.amount == (if p.amount > 0 then p.amount else if p.metadataAmount.Some? then p.metadataAmount.value
                                      else c.amount)
            && rec.outcome.window == window
            && rec.outcome.evidence == Recovery.Webhook(event)
            && rec.outcome.recoveredAt == Some(now)
            && (rec.outcome.status == Recovery.PARTIALLY_RECOVERED <==>
                  0 < c.amount && StatedAmount(p, c.amount) < c.amount)
            && (rec.outcome.source == Recovery.ORGANIC_RECOVERY <==>
                  action.None? || now < action.value.createdAt)
            && (rec.outcome.source == Recovery.ACTION_ATTRIBUTED <==>
                  action.Some? && action.value.createdAt <= now <= action.value.createdAt + window))
      && (rec.measurement.Some? <==> measure.Some? || (existing.Some? && existing.value.measurement.Some?))
      && (existing.Some? && existing.value.measurement.Some? ==> rec == existing.value)
      && (measure.Some? && (existing.Some? ==> existing.value.measurement.None?) ==>
            rec.measurement.value == Recovery.NewMeasurement(rec.outcome, Recovery.MeasureContext(
              c.amount, c.domain, category, measure.value.retryability, measure.value.allocation, measure.value.bucket, window)))
  {
  }
}
