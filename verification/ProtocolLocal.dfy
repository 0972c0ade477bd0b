/** Steps that write at most one action and one case that no transaction has locked: the decision
    engine, the gateway and the webhook handler. */
module ProtocolLocal {
  import opened Domain
  import opened Execution
  import opened ExecutionLaws
  import opened Protocol
  import opened ProtocolInvariant

  // Only action `a` and case `c` are written, neither is locked, and new calls are for `a`.
  ghost predicate Local(s: State, s': State, a: nat, c: nat) {
    && s'.txns == s.txns && s.undone <= s'.undone && s.calls <= s'.calls
    && (forall i | |s.calls| <= i < |s'.calls| :: s'.calls[i].action == a)
    && (forall b | b in s.rows :: b in s'.rows && (b != a ==> s'.rows[b] == s.rows[b]))
    && (forall b | b in s'.rows && b != a :: b in s.rows)
    && (a in s.rows ==> Touched(s.rows[a], s'.rows[a]))
    && (forall d | d in s.cases :: d in s'.cases && (d != c ==> s'.cases[d] == s.cases[d]))
    && (forall d | d in s'.cases && d != c :: d in s.cases)
    && !RowLocked(s, a) && !CaseLocked(s, c)
  }

  lemma LocalRows(s: State, s': State, a: nat, c: nat)
    requires Local(s, s', a, c) && Grows(s, s') && RowsOk(s)
    requires a in s'.rows ==> RowOk(s', a, s'.rows[a])
    ensures RowsOk(s')
  {
    forall b | b in s'.rows ensures RowOk(s', b, s'.rows[b]) {
      if b != a {
        assert forall i | Excused(s, b, i) :: Excused(s', b, i);
        RowStable(s, s', b, s.rows[b]);
      }
    }
  }

  lemma LocalCases(s: State, s': State, a: nat, c: nat)
    requires Local(s, s', a, c) && Grows(s, s') && CasesOk(s)
    requires c in s'.cases ==> CaseOk(s'.events, s'.rows, c, s'.cases[c])
    ensures CasesOk(s')
  {
    forall d | d in s'.cases ensures CaseOk(s'.events, s'.rows, d, s'.cases[d]) {
      if d != c {
        CaseStable(s, s', s.rows, s'.rows, d, s.cases[d]);
      }
    }
  }

  lemma LocalTxn(s: State, s': State, a: nat, c: nat, t: Txn)
    requires Local(s, s', a, c) && Grows(s, s') && TxnOk(s, t) && a !in t.rows && c !in t.cases
    ensures TxnOk(s', t)
  {
    TxnStable(s, s', t);
  }

  lemma LocalTxns(s: State, s': State, a: nat, c: nat)
    requires Local(s, s', a, c) && Grows(s, s') && TxnsOk(s)
    ensures TxnsOk(s')
  {
    forall w | w in s'.txns ensures TxnOk(s', s'.txns[w]) {
      LocalTxn(s, s', a, c, s.txns[w]);
    }
  }

  // A fresh id is in nobody's transaction.
  lemma FreshUnlocked(s: State, k: nat)
    requires IdsOk(s) && TxnsOk(s) && k >= s.nextId
    ensures !RowLocked(s, k) && !CaseLocked(s, k) && k !in s.rows && k !in s.cases && k !in s.decisions
  {
    forall w | w in s.txns ensures k !in s.txns[w].rows && k !in s.txns[w].cases {
      assert TxnOk(s, s.txns[w]);
    }
  }

  /* ---- Creating an action and executing it at once ---- */

  // What executing a freshly created row leaves of the row, in any state that holds its case.
  lemma FreshRow(a: nat, row: Row, f: Facts, env: Env, cases: map<nat, Case>, events: map<nat, Event>)
    requires row == NewRow(row.action.caseId, row.action.tenant, row.action.decisionId, row.action.kind, row.outbox.amount, f.now)
    requires f.kase.Some? && row.action.caseId in cases
    requires cases[row.action.caseId].tenant == row.action.tenant && cases[row.action.caseId].amount == f.kase.value.amount
    ensures var p := Process(a, row, f, env);
      && AttemptsOk(p.row) && BudgetOk(p.row) && RowRecorded(cases, events, a, p.row)
      && p.row.action == row.action.(status := p.row.action.status)
      && (Executable(p.row.action.status) ==> p.raised)
  {
    ProcessKeepsBooks(a, row, f, env);
    ProcessFilesTruth(a, row, f, env);
    ProcessMeasures(a, row, f, env);
  }

  // What it leaves of the case.
  lemma FreshCase(a: nat, row: Row, f: Facts, env: Env, events: map<nat, Event>, rows: map<nat, Row>)
    requires row == NewRow(row.action.caseId, row.action.tenant, row.action.decisionId, row.action.kind, row.outbox.amount, f.now)
    requires f.kase.Some? && f.kase.value.status != CaseStatus.RECOVERED
    requires a in rows && rows[a] == Process(a, row, f, env).row
    ensures var p := Process(a, row, f, env);
      p.kase.Some? && CaseGrows(f.kase.value, p.kase.value) && CaseOk(events, rows, row.action.caseId, p.kase.value)
  {
    ProcessAndCase(a, row, f, env);
    ProcessKeepsBooks(a, row, f, env);
    if Process(a, row, f, env).kase.value.status != f.kase.value.status {
      assert Validate(row, f).ok;
    }
  }

  // The only call for a fresh action is the one just made, and it is undone when it raised.
  lemma FreshCalls(s: State, s': State, a: nat, row: Row, f: Facts, p: Execution.Processed, lost: bool)
    requires IdsOk(s) && a >= s.nextId
    requires s'.calls == CallsAfter(s, a, row, f, p) && s'.undone == UndoneAfter(s, p, lost)
    requires Executable(p.row.action.status) ==> p.raised
    ensures RowCalls(s', a, p.row)
    ensures s.undone <= s'.undone && s.calls <= s'.calls
    ensures forall i | |s.calls| <= i < |s'.calls| :: s'.calls[i].action == a
  {
    assert forall i | 0 <= i < |s.calls| :: s.calls[i] in s.calls;
  }
}
