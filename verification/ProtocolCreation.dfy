/** The two routes that create an action and execute it at once, the decision engine and the gateway,
    keep the invariant. */
module ProtocolCreation {
  import opened Domain
  import opened Execution
  import opened ExecutionLaws
  import opened Protocol
  import opened ProtocolInvariant
  import opened ProtocolSteps
  import opened ProtocolLocal
  import Policy

  // A step that inserts row `a` for case `c`, or nothing.
  ghost predicate Creation(s: State, s': State, a: nat, c: nat) {
    && Local(s, s', a, c) && Grows(s, s') && a !in s.rows && s'.events == s.events && s'.organic == s.organic
  }

  lemma CreationKeeps(s: State, s': State, a: nat, c: nat)
    requires Creation(s, s', a, c) && RowsOk(s) && CasesOk(s) && OrganicOk(s) && TxnsOk(s)
    requires a in s'.rows ==> RowOk(s', a, s'.rows[a])
    requires c in s'.cases ==> CaseOk(s'.events, s'.rows, c, s'.cases[c])
    ensures RowsOk(s') && CasesOk(s') && OrganicOk(s') && TxnsOk(s')
  {
    LocalRows(s, s', a, c);
    LocalCases(s, s', a, c);
    LocalTxns(s, s', a, c);
    OrganicStable(s, s');
  }

  /* ---- The decision engine ---- */

  // What a decision writes beside its calls: a case in state `kase`, and perhaps a row for its action.
  ghost predicate StoresDecision(s: State, s': State, i: Intake, kase: Case, row: Option<Row>) {
    && s' == Decided(s, i, kase, row).(calls := s'.calls, undone := s'.undone, links := s'.links)
    && i.tenant in s.tenants && kase.tenant == i.tenant && kase.domain == i.domain
    && (row.Some? ==> row.value.action == DecidedRow(s, i).action.(status := row.value.action.status) && Acts(i))
  }

  // All that changes in the call log is new calls for `a`.
  ghost predicate CallsFor(s: State, s': State, a: nat) {
    && s.undone <= s'.undone && s.calls <= s'.calls
    && (forall i | |s.calls| <= i < |s'.calls| :: s'.calls[i].action == a)
    && NewCallsFor(s.calls, s'.calls, a)
  }

  ghost predicate NewCallsFor(calls: seq<Call>, calls': seq<Call>, a: nat) {
    forall call | call in calls' :: call in calls || call.action == a
  }

  lemma DecidedGrows(s: State, s': State, i: Intake, kase: Case, row: Option<Row>)
    requires StoresDecision(s, s', i, kase, row) && IdsOk(s)
    ensures Grows(s, s')
  {
  }

  lemma DecidedDecisions(s: State, s': State, i: Intake, kase: Case, row: Option<Row>)
    requires StoresDecision(s, s', i, kase, row) && IdsOk(s)
    ensures forall c, d {:trigger s'.decisions[c].caseId, s'.decisions[d].caseId}
              | c in s'.decisions && d in s'.decisions && s'.decisions[c].caseId == s'.decisions[d].caseId :: c == d
    ensures forall d | d in s'.decisions ::
              && d < s'.nextId && s'.decisions[d].caseId in s'.cases && s'.decisions[d].tenant in s'.tenants
              && s'.decisions[d].tenant == s'.cases[s'.decisions[d].caseId].tenant
              && (s'.decisions[d].policy == APPROVED ==> s'.decisions[d].autonomy == FULL_AUTO)
  {
    var d, dec := s.nextId + 1, DecisionOf(s, i);
    assert s'.decisions == s.decisions[d := dec] && dec.caseId == s.nextId && dec.tenant == i.tenant;
    assert dec.policy == APPROVED ==> dec.autonomy == FULL_AUTO;
  }

  lemma DecidedIds(s: State, s': State, i: Intake, kase: Case, row: Option<Row>)
    requires StoresDecision(s, s', i, kase, row) && IdsOk(s) && NewCallsFor(s.calls, s'.calls, s.nextId + 2)
    requires forall b | b in s.rows :: s.rows[b].action.decisionId in s.decisions
    ensures IdsOk(s')
  {
    DecidedDecisions(s, s', i, kase, row);
  }

  lemma DecidedLinks(s: State, s': State, i: Intake, kase: Case, row: Row)
    requires StoresDecision(s, s', i, kase, Some(row))
    ensures RowLinks(s', row)
  {
    Policy.HealthOnlyRestricts(i.choice, i.domain, i.category, i.health);
  }

  lemma DecidedLocal(s: State, s': State, i: Intake, kase: Case, row: Option<Row>)
    requires StoresDecision(s, s', i, kase, row) && Grows(s, s') && CallsFor(s, s', s.nextId + 2)
    requires !RowLocked(s, s.nextId + 2) && !CaseLocked(s, s.nextId) && s.nextId + 2 !in s.rows
    ensures Creation(s, s', s.nextId + 2, s.nextId)
  {
  }

  // What is known of the row that a decision or the gateway creates.
  ghost predicate NewRowOk(s': State, a: nat, row: Row) {
    AttemptsOk(row) && BudgetOk(row) && RowRecorded(s'.cases, s'.events, a, row) && RowCalls(s', a, row)
  }

  lemma DecidedStore(s: State, s': State, i: Intake, kase: Case, row: Option<Row>)
    requires StoresDecision(s, s', i, kase, row) && Creation(s, s', s.nextId + 2, s.nextId)
    requires RowsOk(s) && CasesOk(s) && OrganicOk(s) && TxnsOk(s)
    requires row.Some? ==> NewRowOk(s', s.nextId + 2, row.value)
    requires CaseOk(s'.events, s'.rows, s.nextId, kase)
    ensures RowsOk(s') && CasesOk(s') && OrganicOk(s') && TxnsOk(s')
  {
    if row.Some? { DecidedLinks(s, s', i, kase, row.value); }
    CreationKeeps(s, s', s.nextId + 2, s.nextId);
  }

  lemma RowDecisions(s: State)
    requires RowsOk(s)
    ensures forall b | b in s.rows :: s.rows[b].action.decisionId in s.decisions
  {
    forall b | b in s.rows ensures s.rows[b].action.decisionId in s.decisions {
      assert RowLinks(s, s.rows[b]);
    }
  }

  lemma DecidedKeeps(s: State, s': State, i: Intake, kase: Case, row: Option<Row>)
    requires Inv(s) && StoresDecision(s, s', i, kase, row) && CallsFor(s, s', s.nextId + 2)
    requires row.Some? ==> NewRowOk(s', s.nextId + 2, row.value)
    requires CaseOk(s'.events, s'.rows, s.nextId, kase) && CallsOk(s'.calls, s'.undone, s'.links)
    ensures Inv(s') && Grows(s, s')
  {
    RowDecisions(s);
    DecidedIds(s, s', i, kase, row);
    FreshUnlocked(s, s.nextId);
    FreshUnlocked(s, s.nextId + 2);
    DecidedGrows(s, s', i, kase, row);
    DecidedLocal(s, s', i, kase, row);
    DecidedStore(s, s', i, kase, row);
  }

  // A rolled back step: only ids, calls and links remain of it.
  ghost predicate Lost(s: State, s': State) {
    s' == s.(nextId := s'.nextId, calls := s'.calls, undone := s'.undone, links := s'.links)
  }

  lemma LostCreation(s: State, s': State, a: nat)
    requires IdsOk(s) && s.nextId <= a < s'.nextId && Lost(s, s') && CallsFor(s, s', a)
    requires !RowLocked(s, a) && !CaseLocked(s, a)
    ensures IdsOk(s') && Creation(s, s', a, a) && a !in s'.rows && a !in s'.cases
  {
  }

  lemma LostStep(s: State, s': State, a: nat)
    requires Inv(s) && s.nextId <= a < s'.nextId && Lost(s, s') && CallsFor(s, s', a)
    requires CallsOk(s'.calls, s'.undone, s'.links)
    ensures Inv(s') && Grows(s, s')
  {
    FreshUnlocked(s, a);
    LostCreation(s, s', a);
    CreationKeeps(s, s', a, a);
  }

  // `s'` has seen the calls of the execution of a fresh row.
  predicate Ran(s: State, s': State, a: nat, row: Row, f: Facts, env: Env, created: bool, lost: bool) {
    var p := Process(a, row, f, env);
    s'.calls == CallsAfter(s, a, row, f, p) && s'.undone == UndoneAfter(s, p, lost)
    && s'.links == LinksAfter(s, a, row, p, env, created)
  }

  lemma FreshRun(s: State, s': State, a: nat, row: Row, f: Facts, env: Env, created: bool, lost: bool)
    requires IdsOk(s) && a >= s.nextId && CallsOk(s.calls, s.undone, s.links)
    requires row.outbox == Outbox(PENDING, row.outbox.amount, 0, MAX_RETRIES, None, None, None, None)
    requires row.attempts == map[] && row.raises == 0 && Ran(s, s', a, row, f, env, created, lost)
    ensures CallsFor(s, s', a) && CallsOk(s'.calls, s'.undone, s'.links)
    ensures RowCalls(s', a, Process(a, row, f, env).row)
  {
    ProcessKeepsBooks(a, row, f, env);
    FreshCalls(s, s', a, row, f, Process(a, row, f, env), lost);
    CallsAfterOk(s, a, row, f, env, created, lost);
  }

  lemma DecideQuietly(s: State, s': State, i: Intake)
    requires Inv(s) && CanDecide(s, i)
    requires s' == Decided(s, i, DecidedCase(i), if Acts(i) then Some(DecidedRow(s, i)) else None)
    ensures Inv(s') && Grows(s, s')
  {
    var row := DecidedRow(s, i);
    if Acts(i) {
      FreshCalls(s, s', s.nextId + 2, row, DecidedFacts(s, i), Processed(row, None, false, true), false);
      DecidedKeeps(s, s', i, DecidedCase(i), Some(row));
    } else {
      DecidedKeeps(s, s', i, DecidedCase(i), None);
    }
  }

  lemma DecideAndRun(s: State, s': State, i: Intake, env: Env, created: bool)
    requires Inv(s) && CanDecide(s, i) && Acts(i)
    requires Ran(s, s', s.nextId + 2, DecidedRow(s, i), DecidedFacts(s, i), env, created, false)
    requires var p := DecidedRun(s, i, env); p.kase.Some? && StoresDecision(s, s', i, p.kase.value, Some(p.row))
    ensures Inv(s') && Grows(s, s')
  {
    var a, row, f, p := s.nextId + 2, DecidedRow(s, i), DecidedFacts(s, i), DecidedRun(s, i, env);
    FreshRun(s, s', a, row, f, env, created, false);
    FreshCase(a, row, f, env, s'.events, s'.rows);
    FreshRow(a, row, f, env, s'.cases, s'.events);
    DecidedKeeps(s, s', i, p.kase.value, Some(p.row));
  }

  lemma RunShape(a: nat, row: Row, f: Facts, env: Env)
    requires f.kase.Some? && Ready(row)
    ensures var p := Process(a, row, f, env);
      && p.kase.Some? && p.kase.value.tenant == f.kase.value.tenant && p.kase.value.domain == f.kase.value.domain
      && p.row.action == row.action.(status := p.row.action.status)
  {
    ProcessAndCase(a, row, f, env);
    ProcessKeepsBooks(a, row, f, env);
  }

  lemma DecidedStart(s: State, i: Intake)
    ensures Ready(DecidedRow(s, i)) && DecidedFacts(s, i).kase == Some(DecidedCase(i))
  {
  }

  // The execution leaves the new case and row what the decision made them, up to their progress.
  lemma DecideShape(s: State, i: Intake, env: Env)
    ensures var p := DecidedRun(s, i, env);
      && p.kase.Some? && p.kase.value.tenant == i.tenant && p.kase.value.domain == i.domain
      && p.row.action == DecidedRow(s, i).action.(status := p.row.action.status)
  {
    DecidedStart(s, i);
    RunShape(s.nextId + 2, DecidedRow(s, i), DecidedFacts(s, i), env);
  }

  lemma DecideNowLost(s: State, i: Intake, env: Env, created: bool)
    requires Inv(s) && CanDecide(s, i) && Acts(i)
    ensures var s' := DoDecide(s, i, true, env, created, true); Inv(s') && Grows(s, s')
  {
    var s' := DoDecide(s, i, true, env, created, true);
    FreshRun(s, s', s.nextId + 2, DecidedRow(s, i), DecidedFacts(s, i), env, created, true);
    LostStep(s, s', s.nextId + 2);
  }

  lemma DecideNowStores(s: State, i: Intake, env: Env, created: bool)
    requires CanDecide(s, i) && Acts(i)
    ensures var s', p := DoDecide(s, i, true, env, created, false), DecidedRun(s, i, env);
      && Ran(s, s', s.nextId + 2, DecidedRow(s, i), DecidedFacts(s, i), env, created, false)
      && p.kase.Some? && StoresDecision(s, s', i, p.kase.value, Some(p.row))
  {
    DecideShape(s, i, env);
  }

  lemma DecideNow(s: State, i: Intake, env: Env, created: bool)
    requires Inv(s) && CanDecide(s, i) && Acts(i)
    ensures var s' := DoDecide(s, i, true, env, created, false); Inv(s') && Grows(s, s')
  {
    DecideNowStores(s, i, env, created);
    DecideAndRun(s, DoDecide(s, i, true, env, created, false), i, env, created);
  }

  lemma DecideStep(s: State, i: Intake, adapter: bool, env: Env, created: bool, lost: bool)
    requires Inv(s) && CanDecide(s, i)
    ensures var s' := DoDecide(s, i, adapter, env, created, lost); Inv(s') && Grows(s, s')
  {
    var s' := DoDecide(s, i, adapter, env, created, lost);
    if Acts(i) && adapter {
      if lost { DecideNowLost(s, i, env, created); } else { DecideNow(s, i, env, created); }
    } else if lost {
      LostStep(s, s', s.nextId);
    } else {
      DecideQuietly(s, s', i);
    }
  }

  /* ---- The gateway ---- */

  // What a committed gateway call writes beside its calls.
  ghost predicate StoresLink(s: State, s': State, c: nat, d: nat, kase: Case, row: Row) {
    && s' == s.(nextId := s.nextId + 1, rows := s.rows[s.nextId := row], cases := s.cases[c := kase],
                calls := s'.calls, undone := s'.undone, links := s'.links)
    && CanGateway(s, c, d) && CaseGrows(s.cases[c], kase)
    && row.action == GatewayRow(s, c, d, row.outbox.amount).action.(status := row.action.status)
  }

  lemma GatewayGrows(s: State, s': State, c: nat, d: nat, kase: Case, row: Row)
    requires StoresLink(s, s', c, d, kase, row) && IdsOk(s)
    ensures Grows(s, s')
  {
  }

  lemma DecisionsCase(s: State, c: nat, d: nat)
    requires RowsOk(s) && d in s.decisions && s.decisions[d].caseId == c
    ensures forall b | b in s.rows && s.rows[b].action.decisionId == d :: s.rows[b].action.caseId == c
  {
    forall b | b in s.rows && s.rows[b].action.decisionId == d ensures s.rows[b].action.caseId == c {
      assert RowLinks(s, s.rows[b]);
    }
  }

  lemma GatewayIds(s: State, s': State, c: nat, d: nat, kase: Case, row: Row)
    requires StoresLink(s, s', c, d, kase, row) && IdsOk(s) && NewCallsFor(s.calls, s'.calls, s.nextId)
    requires forall b | b in s.rows && s.rows[b].action.decisionId == d :: s.rows[b].action.caseId == c
    ensures IdsOk(s')
  {
  }

  lemma GatewayLinks(s: State, s': State, c: nat, d: nat, kase: Case, row: Row)
    requires StoresLink(s, s', c, d, kase, row) && IdsOk(s)
    ensures RowLinks(s', row)
  {
  }

  lemma GatewayLocal(s: State, s': State, c: nat, d: nat, kase: Case, row: Row)
    requires StoresLink(s, s', c, d, kase, row) && Grows(s, s') && CallsFor(s, s', s.nextId)
    requires !RowLocked(s, s.nextId) && s.nextId !in s.rows
    ensures Creation(s, s', s.nextId, c)
  {
  }

  lemma GatewayStore(s: State, s': State, c: nat, d: nat, kase: Case, row: Row)
    requires StoresLink(s, s', c, d, kase, row) && Creation(s, s', s.nextId, c)
    requires IdsOk(s) && RowsOk(s) && CasesOk(s) && OrganicOk(s) && TxnsOk(s)
    requires NewRowOk(s', s.nextId, row) && CaseOk(s'.events, s'.rows, c, kase)
    ensures RowsOk(s') && CasesOk(s') && OrganicOk(s') && TxnsOk(s')
  {
    GatewayLinks(s, s', c, d, kase, row);
    CreationKeeps(s, s', s.nextId, c);
  }

  lemma GatewayKeeps(s: State, s': State, c: nat, d: nat, kase: Case, row: Row)
    requires Inv(s) && StoresLink(s, s', c, d, kase, row) && CallsFor(s, s', s.nextId)
    requires NewRowOk(s', s.nextId, row) && CaseOk(s'.events, s'.rows, c, kase) && CallsOk(s'.calls, s'.undone, s'.links)
    ensures Inv(s') && Grows(s, s')
  {
    FreshUnlocked(s, s.nextId);
    GatewayGrows(s, s', c, d, kase, row);
    DecisionsCase(s, c, d);
    GatewayIds(s, s', c, d, kase, row);
    GatewayLocal(s, s', c, d, kase, row);
    GatewayStore(s, s', c, d, kase, row);
  }

  lemma GatewayCaseOk(s: State, c: nat, d: nat, amount: int, env: Env, rows: map<nat, Row>)
    requires CanGateway(s, c, d) && s.nextId in rows && rows[s.nextId] == GatewayRun(s, c, d, amount, env).row
    ensures var p := GatewayRun(s, c, d, amount, env);
      && p.kase.Some? && CaseGrows(s.cases[c], GatewayCase(p, env)) && CaseOk(s.events, rows, c, GatewayCase(p, env))
  {
    FreshCase(s.nextId, GatewayRow(s, c, d, amount), GatewayFacts(s, c, d, amount), env, s.events, rows);
  }

  lemma GatewayCommits(s: State, s': State, c: nat, d: nat, amount: int, env: Env, created: bool)
    requires Inv(s) && CanGateway(s, c, d)
    requires s' == DoGateway(s, c, d, amount, env, created, false) && !GatewayRun(s, c, d, amount, env).raised
    ensures Inv(s') && Grows(s, s')
  {
    var a, row, f, p := s.nextId, GatewayRow(s, c, d, amount), GatewayFacts(s, c, d, amount), GatewayRun(s, c, d, amount, env);
    FreshRun(s, s', a, row, f, env, created, false);
    GatewayCaseOk(s, c, d, amount, env, s'.rows);
    FreshRow(a, row, f, env, s'.cases, s'.events);
    GatewayKeeps(s, s', c, d, GatewayCase(p, env), p.row);
  }

  lemma GatewayStep(s: State, c: nat, d: nat, amount: int, env: Env, created: bool, lost: bool)
    requires Inv(s) && CanGateway(s, c, d)
    ensures var s' := DoGateway(s, c, d, amount, env, created, lost); Inv(s') && Grows(s, s')
  {
    var s', p := DoGateway(s, c, d, amount, env, created, lost), GatewayRun(s, c, d, amount, env);
    if lost || p.raised {
      FreshRun(s, s', s.nextId, GatewayRow(s, c, d, amount), GatewayFacts(s, c, d, amount), env, created, true);
      LostStep(s, s', s.nextId);
    } else {
      GatewayCommits(s, s', c, d, amount, env, created);
    }
  }
}
