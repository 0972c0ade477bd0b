/** Revenue truth over whole runs: what the books say was recovered is what confirmations said was paid. */
module ProtocolRevenue {
  import opened Domain
  import opened Execution
  import opened ExecutionLaws
  import opened Protocol
  import opened ProtocolInvariant
  import ProtocolRuns
  import ProtocolTheorems
  import ProtocolWebhook
  import Ingestion
  import Recovery
  import Sums

  /** The outcome table: one entry per action that has one, and one per event without an action. */
  predicate Filed(s: State, k: Recovery.OutcomeKey) {
    match k
    case ByAction(a) => a in s.rows && s.rows[a].recorded.Some?
    case ByEvent(e) => e in s.organic
  }

  function Entry(s: State, k: Recovery.OutcomeKey): Recovery.Recorded
    requires Filed(s, k)
  {
    match k
    case ByAction(a) => s.rows[a].recorded.value
    case ByEvent(e) => s.organic[e]
  }

  function OutcomeAt(s: State, k: Recovery.OutcomeKey): Recovery.Outcome
    requires Filed(s, k)
  {
    Entry(s, k).outcome
  }

  // Outcomes are filed for good: present in `s`, present and the same in `s'`.
  ghost predicate OutcomesGrow(s: State, s': State) {
    forall k | Filed(s, k) :: Filed(s', k) && OutcomeAt(s', k) == OutcomeAt(s, k)
  }

  /** Each credit an event claims is on the books under that event. */
  ghost predicate Booked(s: State) {
    && (forall e | e in s.events && s.events[e].credits.Some? ::
          var k := s.events[e].credits.value;
          s.events[e].processed && Filed(s, k) && Recovery.Recovers(OutcomeAt(s, k).status)
          && OutcomeAt(s, k).evidence == Recovery.Webhook(e))
    && (forall e | e in s.organic :: e in s.events && s.events[e].processed)
  }

  lemma GrowingOutcomes(s: State, s': State)
    requires Grows(s, s')
    requires forall e | e in s.organic :: e in s'.organic && s'.organic[e] == s.organic[e]
    ensures OutcomesGrow(s, s')
  {
    forall a | a in s.rows && s.rows[a].recorded.Some?
      ensures s'.rows[a].recorded.Some? && s'.rows[a].recorded.value.outcome == s.rows[a].recorded.value.outcome
    {
      assert RowGrows(s.rows[a], s'.rows[a]);
    }
  }

  // A step that credits no event.
  lemma NoCredit(s: State, s': State)
    requires Grows(s, s') && Booked(s) && s'.organic == s.organic
    requires forall e | e in s'.events && s'.events[e].credits.Some? :: e in s.events && s'.events[e] == s.events[e]
    requires forall e | e in s.events && s.events[e].processed :: e in s'.events && s'.events[e].processed
    ensures Booked(s')
  {
    GrowingOutcomes(s, s');
  }

  lemma MarkBooked(s: State, e: nat)
    requires Booked(s) && e in s.events && !s.events[e].processed
    ensures Booked(Mark(s, e, None))
  {
    ProtocolWebhook.MarkGrows(s, Mark(s, e, None), e, None);
    NoCredit(s, Mark(s, e, None));
  }

  // A step that credits event `e` with outcome `k`.
  lemma OneCredit(s: State, s': State, e: nat, k: Recovery.OutcomeKey)
    requires OutcomesGrow(s, s') && Booked(s) && e in s.events
    requires s'.events == s.events[e := s.events[e].(processed := true, credits := Some(k))]
    requires Filed(s', k) && Recovery.Recovers(OutcomeAt(s', k).status)
    requires OutcomeAt(s', k).evidence == Recovery.Webhook(e)
    requires forall d | d in s'.organic && d != e :: d in s.organic
    ensures Booked(s')
  {
  }

  lemma CreditActionBooked(s: State, e: nat, c: nat, a: nat, measure: Option<MeasureInput>)
    requires Booked(s) && ProtocolWebhook.CreditsCase(s, e, c) && a in s.rows
    requires Grows(s, CreditAction(s, e, c, a, measure))
    ensures Booked(CreditAction(s, e, c, a, measure))
  {
    var s', row := CreditAction(s, e, c, a, measure), s.rows[a];
    Ingestion.WebhookFilesTruth(row.recorded, s.events[e].payload, e, c, s.events[e].tenant.value, s.cases[c],
                                Ref(a, row.action), Lookup(s.categories, c), s.now, s.window, measure);
    GrowingOutcomes(s, s');
    if row.recorded.None? {
      assert Filed(s', Recovery.ByAction(a));
      OneCredit(s, s', e, Recovery.ByAction(a));
    } else {
      NoCredit(s, s');
    }
  }

  lemma CreditOrganicBooked(s: State, e: nat, c: nat, measure: Option<MeasureInput>)
    requires Booked(s) && ProtocolWebhook.CreditsCase(s, e, c) && Grows(s, CreditOrganic(s, e, c, measure))
    ensures Booked(CreditOrganic(s, e, c, measure))
  {
    var s' := CreditOrganic(s, e, c, measure);
    Ingestion.WebhookFilesTruth(None, s.events[e].payload, e, c, s.events[e].tenant.value, s.cases[c], None,
                                Lookup(s.categories, c), s.now, s.window, measure);
    GrowingOutcomes(s, s');
    assert Filed(s', Recovery.ByEvent(e));
    OneCredit(s, s', e, Recovery.ByEvent(e));
  }

  lemma ConfirmBooked(s: State, e: nat, look: Ingestion.Lookup, measure: Option<MeasureInput>)
    requires Inv(s) && Booked(s) && CanConfirm(s, e, look)
    ensures Booked(DoConfirm(s, e, look, measure))
  {
    var t := Ingestion.Correlate(s.cases, s.rows, s.events[e].payload, s.events[e].tenant.value, look);
    ProtocolWebhook.ConfirmStep(s, e, look, measure);
    if Ingestion.IsConfirmed(s.events[e].payload) && t.Credit? {
      ProtocolWebhook.ConfirmTarget(s, e, look);
      if t.action.Some? {
        CreditActionBooked(s, e, t.kase.value, t.action.value, measure);
      } else {
        CreditOrganicBooked(s, e, t.kase.value, measure);
      }
    } else {
      MarkBooked(s, e);
    }
  }

  lemma EventsUnderDecide(s: State, i: Intake, adapter: bool, env: Env, created: bool, lost: bool)
    requires CanDecide(s, i)
    ensures var s' := DoDecide(s, i, adapter, env, created, lost); s'.events == s.events && s'.organic == s.organic
  {
  }

  lemma EventsUnderPoller(s: State, l: Label)
    requires Enabled(s, l) && ProtocolRuns.IsPoller(l)
    ensures Apply(s, l).events == s.events && Apply(s, l).organic == s.organic
  {
  }

  lemma EventsUntouched(s: State, l: Label)
    requires Enabled(s, l) && !l.Confirm? && !l.Accept?
    ensures Apply(s, l).events == s.events && Apply(s, l).organic == s.organic
  {
    if ProtocolRuns.IsPoller(l) {
      EventsUnderPoller(s, l);
    } else if l.Decide? {
      EventsUnderDecide(s, l.intake, l.adapter, l.env, l.created, l.lost);
    }
  }

  lemma OthersBooked(s: State, l: Label, s': State)
    requires Enabled(s, l) && !l.Confirm? && s' == Apply(s, l) && Booked(s) && Grows(s, s')
    ensures Booked(s')
  {
    if l.Accept? {
      assert s'.organic == s.organic;
    } else {
      EventsUntouched(s, l);
    }
    NoCredit(s, s');
  }

  lemma StepBooked(s: State, l: Label, s': State)
    requires Inv(s) && Booked(s) && Enabled(s, l) && s' == Apply(s, l) && Grows(s, s')
    ensures Booked(s')
  {
    if l.Confirm? {
      ConfirmBooked(s, l.event, l.look, l.measure);
    } else {
      OthersBooked(s, l, s');
    }
  }

  lemma BookAlong(run: seq<State>, labels: seq<Label>, k: nat)
    requires IsRun(run, labels) && 0 < k <= |labels| && Booked(run[k - 1])
    ensures Booked(run[k])
  {
    ProtocolRuns.RunInv(run, labels, k - 1);
    ProtocolRuns.StepAlong(run, labels, k);
    ProtocolRuns.PathStep(run, labels, k);
    StepBooked(run[k - 1], labels[k - 1], run[k]);
  }

  lemma {:induction false} RunBooked(run: seq<State>, labels: seq<Label>, k: nat)
    requires IsRun(run, labels) && k <= |labels|
    ensures Booked(run[k])
  {
    if k > 0 {
      RunBooked(run, labels, k - 1);
      BookAlong(run, labels, k);
    }
  }

  /* ---- The theorems ---- */

  lemma OutcomeInOrder(s: State, k: Recovery.OutcomeKey)
    requires Inv(s) && Filed(s, k)
    ensures OutcomeOk(s.cases, s.events, k, OutcomeAt(s, k),
                      if k.ByAction? then s.rows[k.action].attempts else map[])
    ensures MeasuredOk(Entry(s, k))
  {
    if k.ByAction? {
      assert RowOk(s, k.action, s.rows[k.action]);
    }
  }

  /** A RECOVERED case was recovered by a processed, confirmed webhook of its own tenant, or by an answer
      of the provider to one of its own actions that said paid. */
  lemma RecoveredCaseHasProof(s: State, c: nat)
    requires Reachable(s) && c in s.cases && s.cases[c].status == CaseStatus.RECOVERED
    ensures s.cases[c].recoveredBy.Some?
    ensures match s.cases[c].recoveredBy.value
            case Webhook(e) => e in s.events && s.events[e].processed && s.events[e].tenant == Some(s.cases[c].tenant)
                               && Ingestion.SaysPaid(s.events[e].payload)
            case Dispatch(a, n) => a in s.rows && s.rows[a].action.caseId == c && AnsweredPaid(s.rows[a], n)
  {
    ProtocolRuns.ReachableInv(s);
    assert CaseOk(s.events, s.rows, c, s.cases[c]);
    if s.cases[c].recoveredBy.value.Webhook? {
      Ingestion.ConfirmedIffSaysPaid(s.events[s.cases[c].recoveredBy.value.event].payload);
    }
  }

  // Attempt `n` succeeded, and its answer called the link paid or captured.
  predicate AnsweredPaid(row: Row, n: nat) {
    n in row.attempts && row.attempts[n].status == AttemptStatus.SUCCEEDED
    && (row.attempts[n].providerStatus == "paid" || row.attempts[n].providerStatus == "captured")
  }

  // The amount a payload states: its entity's, else its metadata's, else the whole case.
  predicate States(p: Ingestion.Payload, caseAmount: int, amount: int) {
    if p.amount > 0 then amount == p.amount
    else if p.metadataAmount.Some? then amount == p.metadataAmount.value
    else amount == caseAmount
  }

  /** A recovered outcome has its own evidence and carries the amount that evidence states, any other carries
      nothing; attribution to the action means the recovery fell inside its window. */
  lemma RecoveredOutcomeHasProof(s: State, k: Recovery.OutcomeKey)
    requires Reachable(s) && Filed(s, k)
    ensures var o := OutcomeAt(s, k);
      && o.caseId in s.cases && o.tenant == s.cases[o.caseId].tenant
      && (Recovery.Recovers(o.status) ==>
            match o.evidence
            case Webhook(e) =>
              e in s.events && s.events[e].processed && s.events[e].tenant == Some(o.tenant)
              && Ingestion.SaysPaid(s.events[e].payload) && s.events[e].credits == Some(k)
              && States(s.events[e].payload, s.cases[o.caseId].amount, o.amount)
            case Dispatch(a, n) =>
              k == Recovery.ByAction(a) && a in s.rows && AnsweredPaid(s.rows[a], n)
              && o.amount == (if s.rows[a].attempts[n].paidAmount.Some? then s.rows[a].attempts[n].paidAmount.value
                              else s.cases[o.caseId].amount))
      && (o.source == Recovery.ACTION_ATTRIBUTED ==>
            Recovery.Recovers(o.status) && o.action.Some? && o.recoveredAt.Some?
            && o.action.value.createdAt <= o.recoveredAt.value <= o.action.value.createdAt + o.window)
      && (o.source == Recovery.ORGANIC_RECOVERY ==> o.action.None?)
      && (!Recovery.Recovers(o.status) ==> o.amount == 0)
  {
    ProtocolRuns.ReachableInv(s);
    OutcomeInOrder(s, k);
    if Recovery.Recovers(OutcomeAt(s, k).status) && OutcomeAt(s, k).evidence.Webhook? {
      Ingestion.ConfirmedIffSaysPaid(s.events[OutcomeAt(s, k).evidence.event].payload);
    }
  }

  /** No confirmation is counted twice. */
  lemma EvidenceIsNotShared(s: State, j: Recovery.OutcomeKey, k: Recovery.OutcomeKey)
    requires Reachable(s) && Filed(s, j) && Filed(s, k)
    requires Recovery.Recovers(OutcomeAt(s, j).status) && Recovery.Recovers(OutcomeAt(s, k).status)
    requires OutcomeAt(s, j).evidence == OutcomeAt(s, k).evidence
    ensures j == k
  {
    RecoveredOutcomeHasProof(s, j);
    RecoveredOutcomeHasProof(s, k);
  }

  /* ---- Totals ---- */

  predicate IsRecovered(s: State, k: Recovery.OutcomeKey) {
    Filed(s, k) && Recovery.Recovers(OutcomeAt(s, k).status)
  }

  function RecoveredKeys(s: State): (keys: set<Recovery.OutcomeKey>)
    ensures forall k :: k in keys <==> IsRecovered(s, k)
  {
    (set a | a in s.rows && IsRecovered(s, Recovery.ByAction(a)) :: Recovery.ByAction(a))
    + (set e | e in s.organic && IsRecovered(s, Recovery.ByEvent(e)) :: Recovery.ByEvent(e))
  }

  /** Everything the outcome table says was recovered. */
  function RecoveredAmounts(s: State): map<Recovery.OutcomeKey, int> {
    map k | k in RecoveredKeys(s) :: OutcomeAt(s, k).amount
  }

  function CaseAmount(s: State, o: Recovery.Outcome): int {
    if o.caseId in s.cases then s.cases[o.caseId].amount else 0
  }

  /** Every event that was credited, with the amount its payload states. */
  function CreditedEvents(s: State): map<nat, int> {
    map e | e in s.events && s.events[e].credits.Some? ::
      Ingestion.StatedAmount(s.events[e].payload,
        if Filed(s, s.events[e].credits.value) then CaseAmount(s, OutcomeAt(s, s.events[e].credits.value)) else 0)
  }

  predicate PaidAtDispatch(s: State, a: nat) {
    IsRecovered(s, Recovery.ByAction(a)) && OutcomeAt(s, Recovery.ByAction(a)).evidence.Dispatch?
  }

  /** Every action whose outcome rests on a paid answer, with the amount the answer states. */
  function PaidDispatches(s: State): map<nat, int> {
    map a | a in s.rows && PaidAtDispatch(s, a) ::
      var o := OutcomeAt(s, Recovery.ByAction(a));
      if o.evidence.attempt in s.rows[a].attempts && s.rows[a].attempts[o.evidence.attempt].paidAmount.Some?
      then s.rows[a].attempts[o.evidence.attempt].paidAmount.value
      else CaseAmount(s, o)
  }

  function Part(s: State, webhook: bool): map<Recovery.OutcomeKey, int> {
    map k | k in RecoveredKeys(s) && OutcomeAt(s, k).evidence.Webhook? == webhook :: OutcomeAt(s, k).amount
  }

  predicate StatedByEvent(s: State, k: Recovery.OutcomeKey)
    requires IsRecovered(s, k)
  {
    var o := OutcomeAt(s, k);
    o.evidence.Webhook? && o.evidence.event in s.events && s.events[o.evidence.event].credits == Some(k)
    && o.amount == Ingestion.StatedAmount(s.events[o.evidence.event].payload, CaseAmount(s, o))
  }

  predicate StatedByAnswer(s: State, k: Recovery.OutcomeKey)
    requires IsRecovered(s, k)
  {
    var o := OutcomeAt(s, k);
    k.ByAction? && PaidAtDispatch(s, k.action) && o.amount == PaidDispatches(s)[k.action]
  }

  lemma EveryKeyIsStated(s: State, k: Recovery.OutcomeKey)
    requires Inv(s) && IsRecovered(s, k)
    ensures if OutcomeAt(s, k).evidence.Webhook? then StatedByEvent(s, k) else StatedByAnswer(s, k)
  {
    OutcomeInOrder(s, k);
  }

  lemma WebhookPart(s: State)
    requires Booked(s)
    requires forall k | IsRecovered(s, k) && OutcomeAt(s, k).evidence.Webhook? :: StatedByEvent(s, k)
    ensures Sums.Sum(Part(s, true)) == Sums.Sum(CreditedEvents(s))
  {
    var m, n := Part(s, true), CreditedEvents(s);
    var h := map k | k in m :: OutcomeAt(s, k).evidence.event;
    forall k | k in m ensures h[k] in n && s.events[h[k]].credits == Some(k) && n[h[k]] == m[k] {
      assert StatedByEvent(s, k);
    }
    forall e | e in n ensures e in h.Values {
      assert h[s.events[e].credits.value] == e;
    }
    Sums.Rename<Recovery.OutcomeKey, nat>(m, n, h);
  }

  lemma DispatchPart(s: State)
    requires forall k | IsRecovered(s, k) && !OutcomeAt(s, k).evidence.Webhook? :: StatedByAnswer(s, k)
    ensures Sums.Sum(Part(s, false)) == Sums.Sum(PaidDispatches(s))
  {
    var m, n := Part(s, false), PaidDispatches(s);
    forall k | k in m ensures k.ByAction? && k.action in n && n[k.action] == m[k] {
      assert StatedByAnswer(s, k);
    }
    var h: map<Recovery.OutcomeKey, nat> := map k: Recovery.OutcomeKey | k in m :: k.action;
    forall a | a in n ensures a in h.Values {
      assert Recovery.ByAction(a) in m && h[Recovery.ByAction(a)] == a;
    }
    assert h.Values == n.Keys;
    Sums.Rename<Recovery.OutcomeKey, nat>(m, n, h);
  }

  lemma BookedTotal(s: State)
    requires Inv(s) && Booked(s)
    ensures Sums.Sum(RecoveredAmounts(s)) == Sums.Sum(CreditedEvents(s)) + Sums.Sum(PaidDispatches(s))
  {
    forall k | IsRecovered(s, k)
      ensures if OutcomeAt(s, k).evidence.Webhook? then StatedByEvent(s, k) else StatedByAnswer(s, k)
    {
      EveryKeyIsStated(s, k);
    }
    StatedTotal(s);
  }

  lemma StatedTotal(s: State)
    requires Booked(s)
    requires forall k | IsRecovered(s, k) ::
               if OutcomeAt(s, k).evidence.Webhook? then StatedByEvent(s, k) else StatedByAnswer(s, k)
    ensures Sums.Sum(RecoveredAmounts(s)) == Sums.Sum(CreditedEvents(s)) + Sums.Sum(PaidDispatches(s))
  {
    Sums.Split(RecoveredAmounts(s), Part(s, true), Part(s, false));
    WebhookPart(s);
    DispatchPart(s);
  }

  // A credited event said that it was paid.
  lemma CreditedSaysPaid(s: State, e: nat)
    requires Inv(s) && Booked(s) && e in CreditedEvents(s)
    ensures Ingestion.SaysPaid(s.events[e].payload)
    ensures exists k :: IsRecovered(s, k) && OutcomeAt(s, k).caseId in s.cases
                        && States(s.events[e].payload, s.cases[OutcomeAt(s, k).caseId].amount, CreditedEvents(s)[e])
  {
    var k := s.events[e].credits.value;
    OutcomeInOrder(s, k);
    Ingestion.ConfirmedIffSaysPaid(s.events[e].payload);
    assert IsRecovered(s, k);
  }

  /** Conservation: in every reachable state the amounts of all recovered outcomes add up to exactly what
      the credited webhooks and the paid answers state, each counted once; and every credited webhook says
      that it was paid. */
  lemma RecoveredTotalIsConfirmed(s: State)
    requires Reachable(s)
    ensures Sums.Sum(RecoveredAmounts(s)) == Sums.Sum(CreditedEvents(s)) + Sums.Sum(PaidDispatches(s))
    ensures forall e | e in CreditedEvents(s) :: Ingestion.SaysPaid(s.events[e].payload)
    ensures forall e | e in CreditedEvents(s) && s.events[e].payload.amount > 0 ::
              CreditedEvents(s)[e] == s.events[e].payload.amount
  {
    var run, labels :| IsRun(run, labels) && run[|labels|] == s;
    RunBooked(run, labels, |labels|);
    ProtocolRuns.RunInv(run, labels, |labels|);
    BookedTotal(s);
    forall e | e in CreditedEvents(s)
      ensures Ingestion.SaysPaid(s.events[e].payload)
      ensures s.events[e].payload.amount > 0 ==> CreditedEvents(s)[e] == s.events[e].payload.amount
    {
      CreditedSaysPaid(s, e);
    }
  }

  /* ---- Measurements ---- */

  predicate IsMeasured(s: State, k: Recovery.OutcomeKey) {
    Filed(s, k) && Entry(s, k).measurement.Some?
  }

  function MeasuredKeys(s: State): (keys: set<Recovery.OutcomeKey>)
    ensures forall k :: k in keys <==> IsMeasured(s, k)
  {
    (set a | a in s.rows && IsMeasured(s, Recovery.ByAction(a)) :: Recovery.ByAction(a))
    + (set e | e in s.organic && IsMeasured(s, Recovery.ByEvent(e)) :: Recovery.ByEvent(e))
  }

  function MeasurementAt(s: State, k: Recovery.OutcomeKey): Recovery.Measurement
    requires IsMeasured(s, k)
  {
    Entry(s, k).measurement.value
  }

  function Amounts(s: State): map<Recovery.OutcomeKey, int> { map k | k in MeasuredKeys(s) :: OutcomeAt(s, k).amount }

  function Treatments(s: State): map<Recovery.OutcomeKey, int> {
    map k | k in MeasuredKeys(s) :: MeasurementAt(s, k).treatment
  }

  function Controls(s: State): map<Recovery.OutcomeKey, int> {
    map k | k in MeasuredKeys(s) :: MeasurementAt(s, k).control
  }

  function Increments(s: State): map<Recovery.OutcomeKey, int> {
    map k | k in MeasuredKeys(s) :: MeasurementAt(s, k).incremental
  }

  lemma MeasuredOutcome(s: State, k: Recovery.OutcomeKey)
    requires Inv(s) && IsMeasured(s, k)
    ensures var m := MeasurementAt(s, k);
      && m.treatment + m.control == OutcomeAt(s, k).amount && 0 <= m.incremental
      && (0 <= OutcomeAt(s, k).amount && 0 <= m.estimatedControl ==> m.incremental <= m.treatment)
  {
    OutcomeInOrder(s, k);
  }

  ghost predicate NothingNegative(s: State) {
    forall k | IsMeasured(s, k) :: 0 <= OutcomeAt(s, k).amount && 0 <= MeasurementAt(s, k).estimatedControl
  }

  lemma BookedOnce(s: State)
    requires forall k | IsMeasured(s, k) ::
               MeasurementAt(s, k).treatment + MeasurementAt(s, k).control == OutcomeAt(s, k).amount
    ensures Sums.Sum(Amounts(s)) == Sums.Sum(Treatments(s)) + Sums.Sum(Controls(s))
  {
    Sums.Pointwise(Amounts(s), Treatments(s), Controls(s));
  }

  lemma IncrementsWithin(s: State)
    requires forall k | IsMeasured(s, k) :: MeasurementAt(s, k).incremental <= MeasurementAt(s, k).treatment
    ensures Sums.Sum(Increments(s)) <= Sums.Sum(Treatments(s))
  {
    Sums.Bounded(Increments(s), Treatments(s));
  }

  lemma MeasuredTotals(s: State)
    requires Inv(s)
    ensures Sums.Sum(Amounts(s)) == Sums.Sum(Treatments(s)) + Sums.Sum(Controls(s))
    ensures NothingNegative(s) ==> Sums.Sum(Increments(s)) <= Sums.Sum(Treatments(s))
  {
    forall k | IsMeasured(s, k)
      ensures MeasurementAt(s, k).treatment + MeasurementAt(s, k).control == OutcomeAt(s, k).amount
      ensures NothingNegative(s) ==> MeasurementAt(s, k).incremental <= MeasurementAt(s, k).treatment
    {
      MeasuredOutcome(s, k);
    }
    BookedOnce(s);
    if NothingNegative(s) { IncrementsWithin(s); }
  }

  /** The measurements add up: over all measured outcomes treatment and control recoveries make the
      amount recovered, and where neither amounts nor estimates are negative the incremental total does
      not exceed the treatment total. */
  lemma MeasurementTotals(s: State)
    requires Reachable(s)
    ensures Sums.Sum(Amounts(s)) == Sums.Sum(Treatments(s)) + Sums.Sum(Controls(s))
    ensures NothingNegative(s) ==> Sums.Sum(Increments(s)) <= Sums.Sum(Treatments(s))
  {
    ProtocolRuns.ReachableInv(s);
    MeasuredTotals(s);
  }

  /** An outcome that an execution files is filed as of the moment: under the attribution window in force, at
      the time of the clock, for the case and tenant of the action; and it is held out by the category on file. */
  lemma DispatchFilesAsOfNow(s: State, w: nat, a: nat, env: Env)
    requires Reachable(s) && CanExecute(s, w, a) && s.rows[a].recorded.None?
    requires Executed(s, w, a, env).row.recorded.Some?
    ensures var rec, c := Executed(s, w, a, env).row.recorded.value, s.rows[a].action.caseId;
      && rec.outcome.window == s.window && rec.outcome.caseId == c && rec.outcome.tenant == s.rows[a].action.tenant
      && (Recovery.Recovers(rec.outcome.status) ==> rec.outcome.recoveredAt == Some(s.now))
      && (rec.outcome.source == Recovery.ACTION_ATTRIBUTED ==>
            s.rows[a].action.createdAt <= s.now <= s.rows[a].action.createdAt + s.window)
      && c in s.categories
      && (rec.measurement.Some? ==>
            env.measure.Some? &&
            (rec.measurement.value.variant == Recovery.CONTROL <==>
               Recovery.HeldOut(Some(s.categories[c]), env.measure.value.allocation, env.measure.value.bucket)))
  {
    ProtocolRuns.ReachableInv(s);
    ProtocolTheorems.SeenLinks(s, w, a);
    FiledMeasurement(a, RowSeen(s, w, a), ProtocolTheorems.FactsSeen(s, w, a), env);
    ProcessFilesTruth(a, RowSeen(s, w, a), ProtocolTheorems.FactsSeen(s, w, a), env);
  }

  lemma FiledMeasurement(id: nat, row: Row, f: Facts, env: Env)
    requires Ready(row) && row.recorded.None? && Process(id, row, f, env).row.recorded.Some?
    ensures var rec := Process(id, row, f, env).row.recorded.value;
      rec.measurement.Some? ==>
        env.measure.Some? &&
        (rec.measurement.value.variant == Recovery.CONTROL <==>
           Recovery.HeldOut(f.category, env.measure.value.allocation, env.measure.value.bucket))
  {
    RefusalFailsTheRow(id, row, f, env);
    if Authorized(id, row, f) && f.adapter && row.outbox.amount > 0 { WhatACallFiles(id, row, f, env); }
  }

  /* ---- What the books do not promise ---- */

  /** A RECOVERED case need not have a recovered outcome. When a confirmed webhook credits an open case and
      one of its actions, the case becomes RECOVERED; the outcome on file for the action is recovered
      exactly if none was filed before or the one filed before already was. */
  lemma CaseAndOutcomeMayDisagree(s: State, e: nat, c: nat, a: nat, measure: Option<MeasureInput>)
    requires ProtocolWebhook.CreditsCase(s, e, c) && a in s.rows && !Terminal(s.cases[c].status)
    ensures var s' := CreditAction(s, e, c, a, measure);
      && s'.cases[c].status == CaseStatus.RECOVERED && Filed(s', Recovery.ByAction(a))
      && (Recovery.Recovers(OutcomeAt(s', Recovery.ByAction(a)).status) <==>
            !Filed(s, Recovery.ByAction(a)) || Recovery.Recovers(OutcomeAt(s, Recovery.ByAction(a)).status))
  {
    Ingestion.WebhookFilesTruth(s.rows[a].recorded, s.events[e].payload, e, c, s.events[e].tenant.value, s.cases[c],
                                Ref(a, s.rows[a].action), Lookup(s.categories, c), s.now, s.window, measure);
    TransitionsMoveForward(s.cases[c], CaseStatus.RECOVERED, None);
  }
}
