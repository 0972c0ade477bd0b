/** A paid webhook keeps the invariant: it credits one case of its own tenant, and at most one action of
    that case. */
module ProtocolWebhook {
  import opened Domain
  import opened Execution
  import opened ExecutionLaws
  import opened Protocol
  import opened ProtocolInvariant
  import opened ProtocolSteps
  import opened ProtocolLocal
  import Ingestion
  import Recovery

  // Event `e`, confirmed and not yet processed, credits case `c` of its tenant.
  predicate CreditsCase(s: State, e: nat, c: nat) {
    && e in s.events && !s.events[e].processed && s.events[e].tenant.Some? && Ingestion.IsConfirmed(s.events[e].payload)
    && c in s.cases && s.cases[c].tenant == s.events[e].tenant.value
  }

  lemma MarkGrows(s: State, s': State, e: nat, credits: Option<Recovery.OutcomeKey>)
    requires e in s.events && !s.events[e].processed && s' == Mark(s, e, credits)
    ensures Grows(s, s')
  {
  }

  lemma RecordedAfterMeasured(existing: Option<Recovery.Recorded>, p: Ingestion.Payload, event: nat, caseId: nat, tenant: nat,
                              c: Case, action: Option<Recovery.ActionRef>, category: Option<FailureCategory>,
                              now: int, window: int, measure: Option<MeasureInput>)
    requires existing.Some? ==> MeasuredOk(existing.value)
    ensures MeasuredOk(Ingestion.RecordedAfter(existing, p, event, caseId, tenant, c, action, category, now, window, measure))
  {
  }

  lemma CreditedCase(s: State, events': map<nat, Event>, rows': map<nat, Row>, e: nat, c: nat)
    requires CreditsCase(s, e, c) && CaseOk(s.events, s.rows, c, s.cases[c])
    requires e in events' && events'[e] == s.events[e].(processed := true, credits := events'[e].credits)
    requires forall f | f in s.events && f != e :: f in events' && events'[f] == s.events[f]
    requires forall a | a in s.rows :: a in rows' && RowGrows(s.rows[a], rows'[a])
    ensures CaseGrows(s.cases[c], Ingestion.CaseAfter(s.cases[c], e))
    ensures CaseOk(events', rows', c, Ingestion.CaseAfter(s.cases[c], e))
  {
    CaseUnderRows(s.events, s.rows, rows', c, s.cases[c]);
  }

  // An outcome filed by event `e` is in order wherever `e` is on file with its credit.
  lemma FiledOutcome(cases: map<nat, Case>, events: map<nat, Event>, e: nat, key: Recovery.OutcomeKey, c: nat, kase: Case,
                     action: Option<Recovery.ActionRef>, category: Option<FailureCategory>, now: int, window: int,
                     measure: Option<MeasureInput>, attempts: map<nat, Attempt>)
    requires c in cases && cases[c].tenant == kase.tenant && cases[c].amount == kase.amount
    requires WebhookProof(events, e, kase.tenant) && events[e].credits == Some(key)
    requires action.Some? ==> action.value.createdAt <= now
    ensures var rec := Ingestion.RecordedAfter(None, events[e].payload, e, c, kase.tenant, kase, action, category, now,
                                               window, measure);
      && OutcomeOk(cases, events, key, rec.outcome, attempts) && MeasuredOk(rec)
      && rec.outcome.caseId == c && rec.outcome.action == action
  {
    Ingestion.WebhookFilesTruth(None, events[e].payload, e, c, kase.tenant, kase, action, category, now, window, measure);
    RecordedAfterMeasured(None, events[e].payload, e, c, kase.tenant, kase, action, category, now, window, measure);
  }

  /* ---- With an action ---- */

  lemma CreditedRowGrows(s: State, e: nat, c: nat, a: nat, measure: Option<MeasureInput>)
    requires CreditsCase(s, e, c) && a in s.rows
    ensures RowGrows(s.rows[a], Ingestion.RowAfter(s.rows[a], Some(CreditedRecord(s, e, c, a, measure))))
  {
    var row := s.rows[a];
    Ingestion.WebhookFilesTruth(row.recorded, s.events[e].payload, e, c, s.events[e].tenant.value, s.cases[c],
                                Ref(a, row.action), Lookup(s.categories, c), s.now, s.window, measure);
  }

  lemma CreditActionCase(s: State, s': State, e: nat, c: nat, a: nat, measure: Option<MeasureInput>)
    requires CreditsCase(s, e, c) && a in s.rows && s' == CreditAction(s, e, c, a, measure)
    requires CaseOk(s.events, s.rows, c, s.cases[c]) && RowGrows(s.rows[a], s'.rows[a])
    ensures CaseGrows(s.cases[c], s'.cases[c]) && CaseOk(s'.events, s'.rows, c, s'.cases[c])
  {
    CreditedCase(s, s'.events, s'.rows, e, c);
  }

  lemma CreditActionGrows(s: State, s': State, e: nat, c: nat, a: nat, measure: Option<MeasureInput>)
    requires CreditsCase(s, e, c) && a in s.rows && s' == CreditAction(s, e, c, a, measure)
    requires CaseOk(s.events, s.rows, c, s.cases[c])
    ensures Grows(s, s') && CaseOk(s'.events, s'.rows, c, s'.cases[c])
  {
    CreditedRowGrows(s, e, c, a, measure);
    CreditActionCase(s, s', e, c, a, measure);
  }

  lemma CreditActionRecorded(s: State, s': State, e: nat, c: nat, a: nat, measure: Option<MeasureInput>)
    requires CreditsCase(s, e, c) && a in s.rows && s' == CreditAction(s, e, c, a, measure) && Grows(s, s')
    requires RowRecorded(s.cases, s.events, a, s.rows[a])
    requires s.rows[a].action.caseId == c && s.rows[a].action.createdAt <= s.now
    ensures RowRecorded(s'.cases, s'.events, a, s'.rows[a])
  {
    var row := s.rows[a];
    if row.recorded.None? {
      FiledOutcome(s'.cases, s'.events, e, Recovery.ByAction(a), c, s.cases[c], Ref(a, row.action),
                   Lookup(s.categories, c), s.now, s.window, measure, row.attempts);
    } else {
      RecordedStable(s, s', a, row);
      Ingestion.WebhookFilesTruth(row.recorded, s.events[e].payload, e, c, s.events[e].tenant.value, s.cases[c],
                                  Ref(a, row.action), Lookup(s.categories, c), s.now, s.window, measure);
      RecordedAfterMeasured(row.recorded, s.events[e].payload, e, c, s.events[e].tenant.value, s.cases[c],
                            Ref(a, row.action), Lookup(s.categories, c), s.now, s.window, measure);
    }
  }

  lemma CreditActionLinks(s: State, s': State, e: nat, c: nat, a: nat, measure: Option<MeasureInput>)
    requires CreditsCase(s, e, c) && a in s.rows && s' == CreditAction(s, e, c, a, measure) && Grows(s, s')
    requires RowLinks(s, s.rows[a])
    ensures RowLinks(s', s'.rows[a])
  {
    assert RowLinks(s, s'.rows[a]);
    LinksStable(s, s', s'.rows[a]);
  }

  lemma PaidRowBooks(row: Row, rec: Option<Recovery.Recorded>)
    requires AttemptsOk(row) && BudgetOk(row)
    ensures var paid := Ingestion.RowAfter(row, rec); AttemptsOk(paid) && BudgetOk(paid) && !Executable(paid.action.status)
  {
  }

  lemma CreditActionRow(s: State, s': State, e: nat, c: nat, a: nat, measure: Option<MeasureInput>)
    requires CreditsCase(s, e, c) && a in s.rows && s' == CreditAction(s, e, c, a, measure) && Grows(s, s')
    requires RowOk(s, a, s.rows[a]) && s.rows[a].action.caseId == c
    ensures RowOk(s', a, s'.rows[a])
  {
    CreditActionRecorded(s, s', e, c, a, measure);
    CreditActionLinks(s, s', e, c, a, measure);
    PaidRowBooks(s.rows[a], s'.rows[a].recorded);
    assert s'.rows[a] == Ingestion.RowAfter(s.rows[a], s'.rows[a].recorded);
  }

  lemma CreditActionIds(s: State, s': State, e: nat, c: nat, a: nat, measure: Option<MeasureInput>)
    requires CreditsCase(s, e, c) && a in s.rows && s' == CreditAction(s, e, c, a, measure) && IdsOk(s)
    ensures IdsOk(s')
  {
    assert s'.cases[c].tenant == s.cases[c].tenant;
  }

  lemma CreditActionLocal(s: State, s': State, e: nat, c: nat, a: nat, measure: Option<MeasureInput>)
    requires CreditsCase(s, e, c) && a in s.rows && s' == CreditAction(s, e, c, a, measure)
    requires !CaseLocked(s, c) && !RowLocked(s, a)
    ensures Local(s, s', a, c)
  {
  }

  lemma CreditActionStep(s: State, e: nat, c: nat, a: nat, measure: Option<MeasureInput>)
    requires Inv(s) && CreditsCase(s, e, c) && a in s.rows && s.rows[a].action.caseId == c
    requires !CaseLocked(s, c) && !RowLocked(s, a)
    ensures Inv(CreditAction(s, e, c, a, measure)) && Grows(s, CreditAction(s, e, c, a, measure))
  {
    var s' := CreditAction(s, e, c, a, measure);
    assert RowOk(s, a, s.rows[a]) && CaseOk(s.events, s.rows, c, s.cases[c]);
    CreditActionGrows(s, s', e, c, a, measure);
    CreditActionRow(s, s', e, c, a, measure);
    CreditActionIds(s, s', e, c, a, measure);
    CreditActionLocal(s, s', e, c, a, measure);
    LocalRows(s, s', a, c);
    LocalCases(s, s', a, c);
    LocalTxns(s, s', a, c);
    OrganicStable(s, s');
  }

  /* ---- Without one ---- */

  lemma CreditOrganicGrows(s: State, s': State, e: nat, c: nat, measure: Option<MeasureInput>)
    requires CreditsCase(s, e, c) && s' == CreditOrganic(s, e, c, measure) && CaseOk(s.events, s.rows, c, s.cases[c])
    ensures Grows(s, s') && CaseOk(s'.events, s'.rows, c, s'.cases[c])
  {
    CreditedCase(s, s'.events, s'.rows, e, c);
  }

  lemma CreditOrganicOk(s: State, s': State, e: nat, c: nat, measure: Option<MeasureInput>)
    requires CreditsCase(s, e, c) && s' == CreditOrganic(s, e, c, measure) && Grows(s, s') && OrganicOk(s)
    ensures OrganicOk(s')
  {
    FiledOutcome(s'.cases, s'.events, e, Recovery.ByEvent(e), c, s.cases[c], None, Lookup(s.categories, c), s.now, s.window,
                 measure, map[]);
    forall d | d in s'.organic && d != e
      ensures OutcomeOk(s'.cases, s'.events, Recovery.ByEvent(d), s'.organic[d].outcome, map[])
    {
      OutcomeStable(s, s', Recovery.ByEvent(d), s.organic[d].outcome, map[]);
    }
  }

  lemma CreditOrganicIds(s: State, s': State, e: nat, c: nat, measure: Option<MeasureInput>)
    requires CreditsCase(s, e, c) && s' == CreditOrganic(s, e, c, measure) && IdsOk(s)
    ensures IdsOk(s')
  {
    assert s'.cases[c].tenant == s.cases[c].tenant;
  }

  lemma CreditOrganicLocal(s: State, s': State, e: nat, c: nat, measure: Option<MeasureInput>)
    requires CreditsCase(s, e, c) && s' == CreditOrganic(s, e, c, measure)
    requires !CaseLocked(s, c) && !RowLocked(s, s.nextId) && s.nextId !in s.rows
    ensures Local(s, s', s.nextId, c)
  {
  }

  lemma CreditOrganicStep(s: State, e: nat, c: nat, measure: Option<MeasureInput>)
    requires Inv(s) && CreditsCase(s, e, c) && !CaseLocked(s, c)
    ensures Inv(CreditOrganic(s, e, c, measure)) && Grows(s, CreditOrganic(s, e, c, measure))
  {
    var s' := CreditOrganic(s, e, c, measure);
    FreshUnlocked(s, s.nextId);
    assert CaseOk(s.events, s.rows, c, s.cases[c]);
    CreditOrganicGrows(s, s', e, c, measure);
    CreditOrganicIds(s, s', e, c, measure);
    CreditOrganicLocal(s, s', e, c, measure);
    CreditOrganicOk(s, s', e, c, measure);
    LocalRows(s, s', s.nextId, c);
    LocalCases(s, s', s.nextId, c);
    LocalTxns(s, s', s.nextId, c);
  }

  /* ---- The step ---- */

  lemma MarkStep(s: State, e: nat)
    requires Inv(s) && e in s.events && !s.events[e].processed
    ensures Inv(Mark(s, e, None)) && Grows(s, Mark(s, e, None))
  {
    MarkGrows(s, Mark(s, e, None), e, None);
    QuietStep(s, Mark(s, e, None));
  }

  // What correlation can return in a reachable state: nothing, or a case of the event's tenant, with an
  // action of that case or none.
  lemma ConfirmTarget(s: State, e: nat, look: Ingestion.Lookup)
    requires RowsOk(s) && CanConfirm(s, e, look) && Ingestion.IsConfirmed(s.events[e].payload)
    ensures var t := Ingestion.Correlate(s.cases, s.rows, s.events[e].payload, s.events[e].tenant.value, look);
      t.Credit? ==>
        && t.kase.Some? && CreditsCase(s, e, t.kase.value) && !CaseLocked(s, t.kase.value)
        && (t.action.Some? ==> t.action.value in s.rows && s.rows[t.action.value].action.caseId == t.kase.value
                               && !RowLocked(s, t.action.value))
  {
    forall a | a in s.rows
      ensures s.rows[a].action.caseId in s.cases && s.cases[s.rows[a].action.caseId].tenant == s.rows[a].action.tenant
    {
      assert RowLinks(s, s.rows[a]);
    }
    Ingestion.CorrelationIsIsolated(s.cases, s.rows, s.events[e].payload, s.events[e].tenant.value, look);
  }

  lemma ConfirmCredit(s: State, e: nat, c: nat, action: Option<nat>, measure: Option<MeasureInput>)
    requires Inv(s) && CreditsCase(s, e, c) && !CaseLocked(s, c)
    requires action.Some? ==> action.value in s.rows && s.rows[action.value].action.caseId == c && !RowLocked(s, action.value)
    ensures Inv(Credited(s, e, Some(c), action, measure)) && Grows(s, Credited(s, e, Some(c), action, measure))
  {
    if action.Some? {
      assert Credited(s, e, Some(c), action, measure) == CreditAction(s, e, c, action.value, measure);
      CreditActionStep(s, e, c, action.value, measure);
    } else {
      assert Credited(s, e, Some(c), action, measure) == CreditOrganic(s, e, c, measure);
      CreditOrganicStep(s, e, c, measure);
    }
  }

  /* ---- What a webhook never touches, in any state ---- */

  ghost predicate WebhookOnly(s: State, s': State, e: nat) {
    && s' == s.(events := s'.events, cases := s'.cases, rows := s'.rows, organic := s'.organic)
    && s'.rows.Keys == s.rows.Keys && s'.cases.Keys == s.cases.Keys
    && (forall b | b in s.rows ::
          s'.rows[b] == s.rows[b].(action := s.rows[b].action.(status := s'.rows[b].action.status),
                                   recorded := s'.rows[b].recorded))
    && (forall d | d in s.cases :: s'.cases[d].tenant == s.cases[d].tenant)
    && (forall f | f in s.events && f != e :: f in s'.events && s'.events[f] == s.events[f])
  }

  lemma MarkEventOnly(s: State, e: nat)
    requires e in s.events
    ensures WebhookOnly(s, Mark(s, e, None), e)
  {
  }

  lemma MarkRowOnly(s: State, e: nat, a: nat)
    requires e in s.events && a in s.rows
    ensures WebhookOnly(s, Mark(s, e, None).(rows := s.rows[a := Ingestion.RowAfter(s.rows[a], s.rows[a].recorded)]), e)
  {
  }

  lemma MarkOnly(s: State, e: nat, action: Option<nat>)
    requires e in s.events
    ensures WebhookOnly(s, MarkAction(s, e, action), e)
  {
    if action.Some? && action.value in s.rows {
      MarkRowOnly(s, e, action.value);
    } else {
      MarkEventOnly(s, e);
    }
  }

  lemma CreditActionOnly(s: State, e: nat, c: nat, a: nat, measure: Option<MeasureInput>)
    requires e in s.events && s.events[e].tenant.Some? && c in s.cases && a in s.rows
    ensures WebhookOnly(s, CreditAction(s, e, c, a, measure), e)
  {
  }

  lemma CreditOrganicOnly(s: State, e: nat, c: nat, measure: Option<MeasureInput>)
    requires e in s.events && s.events[e].tenant.Some? && c in s.cases
    ensures WebhookOnly(s, CreditOrganic(s, e, c, measure), e)
  {
  }

  lemma CreditedOnly(s: State, e: nat, kase: Option<nat>, action: Option<nat>, measure: Option<MeasureInput>)
    requires e in s.events && s.events[e].tenant.Some?
    ensures WebhookOnly(s, Credited(s, e, kase, action, measure), e)
  {
    if kase.None? || kase.value !in s.cases {
      MarkOnly(s, e, action);
      assert Credited(s, e, kase, action, measure) == MarkAction(s, e, action);
    } else if action.Some? && action.value in s.rows {
      CreditActionOnly(s, e, kase.value, action.value, measure);
      assert Credited(s, e, kase, action, measure) == CreditAction(s, e, kase.value, action.value, measure);
    } else {
      CreditOrganicOnly(s, e, kase.value, measure);
      assert Credited(s, e, kase, action, measure) == CreditOrganic(s, e, kase.value, measure);
    }
  }

  /** A webhook writes its event, cases, outcomes and the status of actions, and nothing else. */
  lemma ConfirmOnly(s: State, e: nat, look: Ingestion.Lookup, measure: Option<MeasureInput>)
    requires CanConfirm(s, e, look)
    ensures WebhookOnly(s, DoConfirm(s, e, look, measure), e)
  {
    var t := Ingestion.Correlate(s.cases, s.rows, s.events[e].payload, s.events[e].tenant.value, look);
    if Ingestion.IsConfirmed(s.events[e].payload) && t.Credit? {
      CreditedOnly(s, e, t.kase, t.action, measure);
      assert DoConfirm(s, e, look, measure) == Credited(s, e, t.kase, t.action, measure);
    } else {
      MarkOnly(s, e, None);
      assert DoConfirm(s, e, look, measure) == Mark(s, e, None) == MarkAction(s, e, None);
    }
  }

  /** An event whose payload does not say that it was paid changes nothing but its own mark, whatever it is
      called and whatever it refers to: no case, no action, no outcome. */
  lemma UnpaidChangesNothing(s: State, e: nat, look: Ingestion.Lookup, measure: Option<MeasureInput>)
    requires CanConfirm(s, e, look) && !Ingestion.SaysPaid(s.events[e].payload)
    ensures var s' := DoConfirm(s, e, look, measure);
      && s' == s.(events := s'.events)
      && s'.events == s.events[e := s.events[e].(processed := true, credits := None)]
  {
    Ingestion.ConfirmedIffSaysPaid(s.events[e].payload);
  }

  lemma ConfirmStep(s: State, e: nat, look: Ingestion.Lookup, measure: Option<MeasureInput>)
    requires Inv(s) && CanConfirm(s, e, look)
    ensures Inv(DoConfirm(s, e, look, measure)) && Grows(s, DoConfirm(s, e, look, measure))
  {
    var t := Ingestion.Correlate(s.cases, s.rows, s.events[e].payload, s.events[e].tenant.value, look);
    if Ingestion.IsConfirmed(s.events[e].payload) && t.Credit? {
      ConfirmTarget(s, e, look);
      ConfirmCredit(s, e, t.kase.value, t.action, measure);
      assert DoConfirm(s, e, look, measure) == Credited(s, e, t.kase, t.action, measure);
    } else {
      MarkStep(s, e);
    }
  }
}
