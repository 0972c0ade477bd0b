/** One payment, several events: when does a second confirmation of the same payment file another outcome?
    Recording is documented as idempotent by action or provider resource (app/services/recovery.py:51-54);
    the code looks for the action only. */
module ProtocolRepeats {
  import opened Domain
  import opened Execution
  import opened Protocol
  import opened ProtocolInvariant
  import ProtocolRevenue
  import ProtocolRuns
  import ProtocolWebhook
  import Ingestion
  import Recovery

  // What the handler credits for event `e`.
  function TargetOf(s: State, e: nat, look: Ingestion.Lookup): Ingestion.Target
    requires e in s.events && s.events[e].tenant.Some?
  {
    Ingestion.Correlate(s.cases, s.rows, s.events[e].payload, s.events[e].tenant.value, look)
  }

  /** Event `e` confirms a payment of case `c`. */
  predicate Confirms(s: State, e: nat, look: Ingestion.Lookup, c: nat) {
    && CanConfirm(s, e, look) && Ingestion.IsConfirmed(s.events[e].payload)
    && TargetOf(s, e, look).Credit? && TargetOf(s, e, look).kase == Some(c)
  }

  function ActionOf(s: State, e: nat, look: Ingestion.Lookup): Option<nat>
    requires e in s.events && s.events[e].tenant.Some? && TargetOf(s, e, look).Credit?
  {
    TargetOf(s, e, look).action
  }

  /** The case has no action on file. */
  ghost predicate NoAction(s: State, c: nat) {
    forall a | a in s.rows :: s.rows[a].action.caseId != c
  }

  /** A step files a further recovered outcome. */
  ghost predicate FilesAnother(s: State, s': State) {
    exists k :: ProtocolRevenue.IsRecovered(s', k) && !ProtocolRevenue.Filed(s, k)
  }

  ghost predicate FilesNothing(s: State, s': State) {
    forall k | ProtocolRevenue.Filed(s', k) ::
      ProtocolRevenue.Filed(s, k) && ProtocolRevenue.OutcomeAt(s', k) == ProtocolRevenue.OutcomeAt(s, k)
  }

  // A step files, as of now and under the window in force, a recovered outcome of `amount` under the unused
  // key `k`.
  ghost predicate FilesPayment(s: State, s': State, k: Recovery.OutcomeKey, amount: int) {
    && !ProtocolRevenue.Filed(s, k) && ProtocolRevenue.IsRecovered(s', k)
    && ProtocolRevenue.OutcomeAt(s', k).amount == amount && ProtocolRevenue.OutcomeAt(s', k).window == s.window
    && ProtocolRevenue.OutcomeAt(s', k).recoveredAt == Some(s.now)
  }

  // The action that is credited, if any, has an outcome already.
  predicate Settled(s: State, a: Option<nat>) {
    a.Some? && ProtocolRevenue.Filed(s, Recovery.ByAction(a.value))
  }

  function KeyOf(e: nat, a: Option<nat>): Recovery.OutcomeKey {
    if a.Some? then Recovery.ByAction(a.value) else Recovery.ByEvent(e)
  }

  // An action is found exactly when the case has one.
  lemma ActionFoundIff(s: State, e: nat, look: Ingestion.Lookup, c: nat)
    requires Inv(s) && Confirms(s, e, look, c)
    ensures ProtocolWebhook.CreditsCase(s, e, c)
    ensures ActionOf(s, e, look).None? <==> NoAction(s, c)
    ensures ActionOf(s, e, look).Some? ==>
              ActionOf(s, e, look).value in s.rows && s.rows[ActionOf(s, e, look).value].action.caseId == c
    ensures forall measure :: DoConfirm(s, e, look, measure) ==
              if ActionOf(s, e, look).Some? then CreditAction(s, e, c, ActionOf(s, e, look).value, measure)
              else CreditOrganic(s, e, c, measure)
  {
    ProtocolWebhook.ConfirmTarget(s, e, look);
  }

  /** What one confirmed payment does to the outcomes: it files a recovered one, unless the action it is
      credited to has an outcome already, in which case it files nothing. */
  lemma ConfirmFiles(s: State, e: nat, look: Ingestion.Lookup, c: nat, measure: Option<MeasureInput>)
    requires Inv(s) && ProtocolRevenue.Booked(s) && Confirms(s, e, look, c)
    ensures var s', a := DoConfirm(s, e, look, measure), ActionOf(s, e, look);
      if Settled(s, a) then FilesNothing(s, s')
      else FilesPayment(s, s', KeyOf(e, a), Ingestion.StatedAmount(s.events[e].payload, s.cases[c].amount))
  {
    ActionFoundIff(s, e, look, c);
    var a := ActionOf(s, e, look);
    if a.Some? {
      ActionFiles(s, e, c, a.value, measure);
    } else {
      OrganicFiles(s, e, c, measure);
    }
  }

  lemma ActionFiles(s: State, e: nat, c: nat, a: nat, measure: Option<MeasureInput>)
    requires ProtocolWebhook.CreditsCase(s, e, c) && a in s.rows
    ensures var s' := CreditAction(s, e, c, a, measure);
      if Settled(s, Some(a)) then FilesNothing(s, s')
      else FilesPayment(s, s', Recovery.ByAction(a), Ingestion.StatedAmount(s.events[e].payload, s.cases[c].amount))
  {
    Ingestion.WebhookFilesTruth(s.rows[a].recorded, s.events[e].payload, e, c, s.events[e].tenant.value, s.cases[c],
                                Ref(a, s.rows[a].action), Lookup(s.categories, c), s.now, s.window, measure);
  }

  lemma OrganicFiles(s: State, e: nat, c: nat, measure: Option<MeasureInput>)
    requires ProtocolWebhook.CreditsCase(s, e, c) && ProtocolRevenue.Booked(s)
    ensures FilesPayment(s, CreditOrganic(s, e, c, measure), Recovery.ByEvent(e),
                         Ingestion.StatedAmount(s.events[e].payload, s.cases[c].amount))
  {
    Ingestion.WebhookFilesTruth(None, s.events[e].payload, e, c, s.events[e].tenant.value, s.cases[c], None,
                                Lookup(s.categories, c), s.now, s.window, measure);
  }

  // What the first confirmation leaves as it is: every case's tenant and every action's case and tenant.
  ghost predicate SameReferences(s: State, s1: State) {
    && s1.rows.Keys == s.rows.Keys && s1.cases.Keys == s.cases.Keys
    && (forall b | b in s.rows :: s1.rows[b].action == s.rows[b].action.(status := s1.rows[b].action.status))
    && (forall d | d in s.cases :: s1.cases[d].tenant == s.cases[d].tenant)
  }

  // Exactly the outcome of action `a` may be new.
  ghost predicate NewOutcomeOnlyFor(s: State, s1: State, a: Option<nat>)
    requires s1.rows.Keys == s.rows.Keys
  {
    forall b | b in s.rows :: s1.rows[b].recorded.Some? == (s.rows[b].recorded.Some? || a == Some(b))
  }

  lemma AfterAction(s: State, e: nat, c: nat, a: nat, measure: Option<MeasureInput>)
    requires ProtocolWebhook.CreditsCase(s, e, c) && a in s.rows
    ensures var s1 := CreditAction(s, e, c, a, measure); SameReferences(s, s1) && NewOutcomeOnlyFor(s, s1, Some(a))
  {
  }

  lemma AfterOrganic(s: State, e: nat, c: nat, measure: Option<MeasureInput>)
    requires ProtocolWebhook.CreditsCase(s, e, c)
    ensures var s1 := CreditOrganic(s, e, c, measure); SameReferences(s, s1) && NewOutcomeOnlyFor(s, s1, None)
  {
  }

  lemma AfterFirst(s: State, e: nat, look: Ingestion.Lookup, c: nat, measure: Option<MeasureInput>)
    requires Inv(s) && Confirms(s, e, look, c)
    ensures var s1 := DoConfirm(s, e, look, measure);
      SameReferences(s, s1) && NewOutcomeOnlyFor(s, s1, ActionOf(s, e, look))
  {
    ActionFoundIff(s, e, look, c);
    var a := ActionOf(s, e, look);
    if a.Some? {
      AfterAction(s, e, c, a.value, measure);
    } else {
      AfterOrganic(s, e, c, measure);
    }
  }

  lemma ReachableBooked(s: State)
    requires Reachable(s)
    ensures Inv(s) && ProtocolRevenue.Booked(s)
  {
    var run, labels :| IsRun(run, labels) && run[|labels|] == s;
    ProtocolRevenue.RunBooked(run, labels, |labels|);
    ProtocolRuns.RunInv(run, labels, |labels|);
  }

  lemma FilesAnotherIff(s: State, e: nat, look: Ingestion.Lookup, c: nat, measure: Option<MeasureInput>)
    requires Inv(s) && ProtocolRevenue.Booked(s) && Confirms(s, e, look, c)
    ensures FilesAnother(s, DoConfirm(s, e, look, measure)) <==> !Settled(s, ActionOf(s, e, look))
    ensures !FilesAnother(s, DoConfirm(s, e, look, measure)) ==> FilesNothing(s, DoConfirm(s, e, look, measure))
  {
    ConfirmFiles(s, e, look, c, measure);
  }

  lemma ConfirmedState(s: State, e: nat, look: Ingestion.Lookup, c: nat, measure: Option<MeasureInput>)
    requires Inv(s) && ProtocolRevenue.Booked(s) && Confirms(s, e, look, c)
    ensures var s1 := DoConfirm(s, e, look, measure);
      Inv(s1) && ProtocolRevenue.Booked(s1) && NoAction(s1, c) == NoAction(s, c)
  {
    ProtocolRevenue.ConfirmBooked(s, e, look, measure);
    ProtocolWebhook.ConfirmStep(s, e, look, measure);
    AfterFirst(s, e, look, c, measure);
  }

  /** The second of two confirmations of one payment of a case files a further recovered outcome if and only
      if the case has no action on file, or the second event names another action than the first and that
      action has no outcome yet. Otherwise it files nothing. Both can be told before the second call. */
  lemma SecondConfirmationFilesIff(s: State, e: nat, f: nat, c: nat, look: Ingestion.Lookup, look': Ingestion.Lookup,
                                   measure: Option<MeasureInput>, measure': Option<MeasureInput>)
    requires Reachable(s) && Confirms(s, e, look, c)
    requires Confirms(DoConfirm(s, e, look, measure), f, look', c)
    ensures var s1 := DoConfirm(s, e, look, measure);
      var s2 := DoConfirm(s1, f, look', measure');
      var first, second := ActionOf(s, e, look), ActionOf(s1, f, look');
      && (FilesAnother(s1, s2) <==>
            NoAction(s, c) || (second.Some? && second != first && second.value in s.rows && s.rows[second.value].recorded.None?))
      && (!FilesAnother(s1, s2) ==> FilesNothing(s1, s2))
  {
    ReachableBooked(s);
    var s1 := DoConfirm(s, e, look, measure);
    ConfirmedState(s, e, look, c, measure);
    AfterFirst(s, e, look, c, measure);
    ActionFoundIff(s, e, look, c);
    ActionFoundIff(s1, f, look', c);
    FilesAnotherIff(s1, f, look', c, measure');
  }

  /** Two events that refer to one payment: the same notes and the same provider resource. */
  predicate SamePayment(p: Ingestion.Payload, q: Ingestion.Payload) {
    p.noteCase == q.noteCase && p.noteAction == q.noteAction && p.resourceId == q.resourceId
  }

  lemma CorrelatesAlike(s: State, s1: State, p: Ingestion.Payload, q: Ingestion.Payload, tenant: nat, look: Ingestion.Lookup)
    requires SamePayment(p, q) && SameReferences(s, s1)
    ensures Ingestion.Correlate(s1.cases, s1.rows, q, tenant, look) == Ingestion.Correlate(s.cases, s.rows, p, tenant, look)
  {
  }

  /** Two confirmations of one payment, with the same answers of the fallback queries: the second one files a
      further recovered outcome if and only if the case has no action on file. Idempotence by provider
      resource, as documented, holds exactly for cases with one. */
  lemma RepeatedPaymentCountsTwiceIff(s: State, e: nat, f: nat, c: nat, look: Ingestion.Lookup,
                                      measure: Option<MeasureInput>, measure': Option<MeasureInput>)
    requires Reachable(s) && Confirms(s, e, look, c)
    requires Confirms(DoConfirm(s, e, look, measure), f, look, c) && f in s.events
    requires SamePayment(s.events[e].payload, s.events[f].payload) && s.events[f].tenant == s.events[e].tenant
    requires e != f
    ensures FilesAnother(DoConfirm(s, e, look, measure), DoConfirm(DoConfirm(s, e, look, measure), f, look, measure'))
            <==> NoAction(s, c)
  {
    var s1 := DoConfirm(s, e, look, measure);
    ReachableBooked(s);
    AfterFirst(s, e, look, c, measure);
    OtherEvent(s, e, f, look, measure);
    CorrelatesAlike(s, s1, s.events[e].payload, s.events[f].payload, s.events[e].tenant.value, look);
    assert ActionOf(s1, f, look) == ActionOf(s, e, look);
    SecondConfirmationFilesIff(s, e, f, c, look, look, measure, measure');
  }

  lemma OtherEvent(s: State, e: nat, f: nat, look: Ingestion.Lookup, measure: Option<MeasureInput>)
    requires CanConfirm(s, e, look) && e != f && f in s.events
    ensures f in DoConfirm(s, e, look, measure).events && DoConfirm(s, e, look, measure).events[f] == s.events[f]
  {
    ProtocolWebhook.ConfirmOnly(s, e, look, measure);
  }
}
