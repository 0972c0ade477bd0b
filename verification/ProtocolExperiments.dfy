/** Experiments: what is booked as control is what an active experiment holds out, and nothing without one. */
module ProtocolExperiments {
  import opened Domain
  import opened Execution
  import opened Protocol
  import opened ProtocolInvariant
  import ProtocolRevenue
  import ProtocolRuns
  import ProtocolWebhook
  import Ingestion
  import Recovery
  import Sums

  predicate Treated(rec: Recovery.Recorded) {
    rec.measurement.Some? ==> rec.measurement.value.control == 0
  }

  predicate RowTreated(row: Row) { row.recorded.Some? ==> Treated(row.recorded.value) }

  predicate RowsTreated(rows: map<nat, Row>) { forall a | a in rows :: RowTreated(rows[a]) }

  /** Nothing is booked as control, committed or in flight. */
  ghost predicate AllTreated(s: State) {
    && RowsTreated(s.rows) && (forall w | w in s.txns :: RowsTreated(s.txns[w].rows))
    && forall e | e in s.organic :: Treated(s.organic[e])
  }

  predicate Unassigned(measure: Option<MeasureInput>) { measure.Some? ==> measure.value.allocation.None? }

  /** The tenant has no active experiment when the step measures. */
  predicate NoExperiment(l: Label) {
    match l
    case Decide(_, _, env, _, _) => Unassigned(env.measure)
    case Execute(_, _, env, _) => Unassigned(env.measure)
    case Gateway(_, _, _, env, _, _) => Unassigned(env.measure)
    case Confirm(_, _, measure) => Unassigned(measure)
    case _ => true
  }

  lemma ProcessTreats(id: nat, row: Row, f: Facts, env: Env)
    requires RowTreated(row) && Unassigned(env.measure)
    ensures RowTreated(Process(id, row, f, env).row)
  {
  }

  lemma PaymentTreats(existing: Option<Recovery.Recorded>, p: Ingestion.Payload, event: nat, caseId: nat, tenant: nat,
                      c: Case, action: Option<Recovery.ActionRef>, category: Option<FailureCategory>,
                      now: int, window: int, measure: Option<MeasureInput>)
    requires (existing.Some? ==> Treated(existing.value)) && Unassigned(measure)
    ensures Treated(Ingestion.RecordedAfter(existing, p, event, caseId, tenant, c, action, category, now, window, measure))
  {
  }

  lemma ExecuteTreats(s: State, w: nat, a: nat, env: Env, created: bool)
    requires AllTreated(s) && CanExecute(s, w, a) && Unassigned(env.measure)
    ensures AllTreated(DoExecute(s, w, a, env, created))
  {
    assert RowTreated(s.rows[a]);
    var row := RowSeen(s, w, a);
    ProcessTreats(a, row, FactsFor(s, row.action, CaseSeen(s, w, row.action.caseId), true), env);
    assert RowTreated(Executed(s, w, a, env).row);
    TreatedAfterExecution(s, DoExecute(s, w, a, env, created), w, a, Executed(s, w, a, env).row);
  }

  lemma TreatedAfterExecution(s: State, s': State, w: nat, a: nat, row: Row)
    requires AllTreated(s) && RowTreated(row) && w in s.txns && s'.rows == s.rows && s'.organic == s.organic
    requires s'.txns.Keys == s.txns.Keys && s'.txns[w].rows == s.txns[w].rows[a := row]
    requires forall v | v in s.txns && v != w :: s'.txns[v] == s.txns[v]
    ensures AllTreated(s')
  {
    assert RowsTreated(s.txns[w].rows);
    forall v | v in s'.txns ensures RowsTreated(s'.txns[v].rows) {
      if v != w { assert RowsTreated(s.txns[v].rows); }
    }
  }

  lemma PollerTreats(s: State, l: Label)
    requires AllTreated(s) && Enabled(s, l) && (l.Claim? || l.Commit? || l.Crash?)
    ensures AllTreated(Apply(s, l))
  {
    if l.Commit? { assert RowsTreated(s.txns[l.worker].rows); }
  }

  lemma TreatedWithRow(s: State, s': State, a: nat, row: Row)
    requires AllTreated(s) && RowTreated(row) && s'.txns == s.txns && s'.organic == s.organic && s'.rows == s.rows[a := row]
    ensures AllTreated(s')
  {
  }

  lemma DecideNowStores(s: State, i: Intake, env: Env, created: bool)
    requires CanDecide(s, i) && Acts(i)
    ensures var s' := DoDecide(s, i, true, env, created, false);
      s'.txns == s.txns && s'.organic == s.organic && s'.rows == s.rows[s.nextId + 2 := DecidedRun(s, i, env).row]
  {
  }

  lemma DecidedRunTreats(s: State, i: Intake, env: Env)
    requires Unassigned(env.measure)
    ensures RowTreated(DecidedRun(s, i, env).row)
  {
    ProcessTreats(s.nextId + 2, DecidedRow(s, i), DecidedFacts(s, i), env);
  }

  lemma DecideNowTreats(s: State, i: Intake, env: Env, created: bool)
    requires AllTreated(s) && CanDecide(s, i) && Acts(i) && Unassigned(env.measure)
    ensures AllTreated(DoDecide(s, i, true, env, created, false))
  {
    DecidedRunTreats(s, i, env);
    DecideNowStores(s, i, env, created);
    TreatedWithRow(s, DoDecide(s, i, true, env, created, false), s.nextId + 2, DecidedRun(s, i, env).row);
  }

  lemma DecideLostTreats(s: State, i: Intake, adapter: bool, env: Env, created: bool)
    requires AllTreated(s) && CanDecide(s, i)
    ensures AllTreated(DoDecide(s, i, adapter, env, created, true))
  {
  }

  lemma DecideQuietTreats(s: State, i: Intake, adapter: bool, env: Env, created: bool)
    requires AllTreated(s) && CanDecide(s, i) && !(Acts(i) && adapter)
    ensures AllTreated(DoDecide(s, i, adapter, env, created, false))
  {
    if Acts(i) {
      TreatedWithRow(s, DoDecide(s, i, adapter, env, created, false), s.nextId + 2, DecidedRow(s, i));
    }
  }

  lemma DecideTreats(s: State, i: Intake, adapter: bool, env: Env, created: bool, lost: bool)
    requires AllTreated(s) && CanDecide(s, i) && Unassigned(env.measure)
    ensures AllTreated(DoDecide(s, i, adapter, env, created, lost))
  {
    if lost {
      DecideLostTreats(s, i, adapter, env, created);
    } else if Acts(i) && adapter {
      DecideNowTreats(s, i, env, created);
    } else {
      DecideQuietTreats(s, i, adapter, env, created);
    }
  }

  lemma GatewayNowTreats(s: State, c: nat, d: nat, amount: int, env: Env, created: bool)
    requires AllTreated(s) && CanGateway(s, c, d) && Unassigned(env.measure) && !GatewayRun(s, c, d, amount, env).raised
    ensures AllTreated(DoGateway(s, c, d, amount, env, created, false))
  {
    ProcessTreats(s.nextId, GatewayRow(s, c, d, amount), GatewayFacts(s, c, d, amount), env);
    TreatedWithRow(s, DoGateway(s, c, d, amount, env, created, false), s.nextId, GatewayRun(s, c, d, amount, env).row);
  }

  lemma GatewayTreats(s: State, c: nat, d: nat, amount: int, env: Env, created: bool, lost: bool)
    requires AllTreated(s) && CanGateway(s, c, d) && Unassigned(env.measure)
    ensures AllTreated(DoGateway(s, c, d, amount, env, created, lost))
  {
    if !lost && !GatewayRun(s, c, d, amount, env).raised {
      GatewayNowTreats(s, c, d, amount, env, created);
    }
  }

  lemma CreditActionTreats(s: State, e: nat, c: nat, a: nat, measure: Option<MeasureInput>)
    requires AllTreated(s) && e in s.events && s.events[e].tenant.Some? && c in s.cases && a in s.rows && Unassigned(measure)
    ensures AllTreated(CreditAction(s, e, c, a, measure))
  {
    assert RowTreated(s.rows[a]);
    PaymentTreats(s.rows[a].recorded, s.events[e].payload, e, c, s.events[e].tenant.value, s.cases[c],
                  Ref(a, s.rows[a].action), Lookup(s.categories, c), s.now, s.window, measure);
  }

  lemma CreditOrganicTreats(s: State, e: nat, c: nat, measure: Option<MeasureInput>)
    requires AllTreated(s) && e in s.events && s.events[e].tenant.Some? && c in s.cases && Unassigned(measure)
    ensures AllTreated(CreditOrganic(s, e, c, measure))
  {
    PaymentTreats(None, s.events[e].payload, e, c, s.events[e].tenant.value, s.cases[c], None, Lookup(s.categories, c),
                  s.now, s.window, measure);
  }

  lemma CreditTreats(s: State, e: nat, c: nat, action: Option<nat>, measure: Option<MeasureInput>)
    requires AllTreated(s) && e in s.events && s.events[e].tenant.Some? && c in s.cases && Unassigned(measure)
    requires action.Some? ==> action.value in s.rows
    ensures AllTreated(Credited(s, e, Some(c), action, measure))
  {
    if action.Some? {
      assert Credited(s, e, Some(c), action, measure) == CreditAction(s, e, c, action.value, measure);
      CreditActionTreats(s, e, c, action.value, measure);
    } else {
      assert Credited(s, e, Some(c), action, measure) == CreditOrganic(s, e, c, measure);
      CreditOrganicTreats(s, e, c, measure);
    }
  }

  lemma MarkTreats(s: State, e: nat)
    requires AllTreated(s) && e in s.events
    ensures AllTreated(Mark(s, e, None))
  {
  }

  lemma ConfirmTreats(s: State, e: nat, look: Ingestion.Lookup, measure: Option<MeasureInput>)
    requires RowsOk(s) && AllTreated(s) && CanConfirm(s, e, look) && Unassigned(measure)
    ensures AllTreated(DoConfirm(s, e, look, measure))
  {
    var t := Ingestion.Correlate(s.cases, s.rows, s.events[e].payload, s.events[e].tenant.value, look);
    if Ingestion.IsConfirmed(s.events[e].payload) && t.Credit? {
      ProtocolWebhook.ConfirmTarget(s, e, look);
      CreditTreats(s, e, t.kase.value, t.action, measure);
      assert DoConfirm(s, e, look, measure) == Credited(s, e, t.kase, t.action, measure);
    } else {
      MarkTreats(s, e);
    }
  }

  lemma ServiceTreats(s: State, l: Label)
    requires RowsOk(s) && AllTreated(s) && Enabled(s, l) && NoExperiment(l) && (l.Decide? || l.Gateway? || l.Confirm?)
    ensures AllTreated(Apply(s, l))
  {
    match l
    case Decide(i, adapter, env, created, lost) => DecideTreats(s, i, adapter, env, created, lost);
    case Gateway(c, d, amount, env, created, lost) => GatewayTreats(s, c, d, amount, env, created, lost);
    case Confirm(e, look, measure) => ConfirmTreats(s, e, look, measure);
  }

  lemma StepTreats(s: State, l: Label, s': State)
    requires RowsOk(s) && AllTreated(s) && Enabled(s, l) && NoExperiment(l) && s' == Apply(s, l)
    ensures AllTreated(s')
  {
    if l.Execute? {
      ExecuteTreats(s, l.worker, l.action, l.env, l.created);
    } else if ProtocolRuns.IsPoller(l) {
      PollerTreats(s, l);
    } else if ProtocolRuns.IsQuiet(l) {
      ProtocolRuns.QuietGrows(s, l);
    } else {
      ServiceTreats(s, l);
    }
  }

  lemma TreatedNext(run: seq<State>, labels: seq<Label>, k: nat)
    requires IsPath(run, labels) && ProtocolRuns.AllInv(run) && 0 < k <= |labels| && NoExperiment(labels[k - 1])
    requires AllTreated(run[k - 1])
    ensures AllTreated(run[k])
  {
    assert Inv(run[k - 1]);
    ProtocolRuns.PathStep(run, labels, k);
    StepTreats(run[k - 1], labels[k - 1], run[k]);
  }

  lemma {:induction false} TreatedAlong(run: seq<State>, labels: seq<Label>, k: nat)
    requires IsPath(run, labels) && ProtocolRuns.AllInv(run) && k <= |labels| && Initial(run[0])
    requires forall m | 0 <= m < |labels| :: NoExperiment(labels[m])
    ensures AllTreated(run[k])
  {
    if k > 0 {
      TreatedAlong(run, labels, k - 1);
      TreatedNext(run, labels, k);
    }
  }

  lemma NothingControlled(s: State)
    requires AllTreated(s)
    ensures Sums.Sum(ProtocolRevenue.Controls(s)) == 0
  {
    forall k | k in ProtocolRevenue.Controls(s) ensures ProtocolRevenue.Controls(s)[k] == 0 {
      match k
      case ByAction(a) => assert RowTreated(s.rows[a]);
      case ByEvent(e) => assert Treated(s.organic[e]);
    }
    Sums.AllZero(ProtocolRevenue.Controls(s));
  }

  /** In a run during which no tenant has an active experiment nothing is ever booked as control: the control
      total is zero and the treatment total is all that the measured outcomes recovered. */
  lemma NoControlWithoutExperiment(run: seq<State>, labels: seq<Label>, k: nat)
    requires IsRun(run, labels) && k <= |labels|
    requires forall m | 0 <= m < |labels| :: NoExperiment(labels[m])
    ensures Sums.Sum(ProtocolRevenue.Controls(run[k])) == 0
    ensures Sums.Sum(ProtocolRevenue.Treatments(run[k])) == Sums.Sum(ProtocolRevenue.Amounts(run[k]))
  {
    ProtocolRuns.InitialInv(run[0]);
    ProtocolRuns.PathAllInv(run, labels);
    TreatedAlong(run, labels, k);
    NothingControlled(run[k]);
    assert Inv(run[k]);
    ProtocolRevenue.MeasuredTotals(run[k]);
  }
}
