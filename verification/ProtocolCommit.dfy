/** Committing a poller's transaction keeps the invariant. */
module ProtocolCommit {
  import opened Execution
  import opened Protocol
  import opened ProtocolInvariant

  // What committing transaction `t` of worker `w` does to the state.
  ghost predicate Committed(s: State, s': State, w: nat, t: Txn) {
    && w in s.txns && s.txns[w] == t && t.claimed == map[]
    && s' == s.(rows := s.rows + t.rows, cases := s.cases + t.cases, txns := s.txns - {w})
  }

  lemma CommitGrows(s: State, s': State, w: nat, t: Txn)
    requires Committed(s, s', w, t)
    requires ExecutedPart(s.cases, s.events, s.rows, t) && CasesPart(s.cases, s.events, s.rows, t)
    ensures Grows(s, s')
    ensures forall a | a in s'.rows :: a in s.rows
    ensures forall c | c in s'.cases :: c in s.cases
  {
  }

  lemma CommitIds(s: State, s': State, w: nat, t: Txn)
    requires Committed(s, s', w, t) && Grows(s, s') && IdsOk(s)
    requires forall a | a in s'.rows :: a in s.rows
    requires forall c | c in s'.cases :: c in s.cases
    ensures IdsOk(s')
  {
    forall a | a in s'.rows
      ensures s'.rows[a].action.decisionId == s.rows[a].action.decisionId && s'.rows[a].action.kind == s.rows[a].action.kind
    {
      assert RowGrows(s.rows[a], s'.rows[a]);
    }
  }

  lemma CommitOwnRow(s: State, s': State, w: nat, t: Txn, a: nat)
    requires Committed(s, s', w, t) && Grows(s, s')
    requires ExecutedPart(s.cases, s.events, s.rows, t) && CallsPart(s.calls, s.undone, t)
    requires a in t.rows && RowLinks(s, s.rows[a])
    ensures RowOk(s', a, t.rows[a])
  {
    assert RowGrows(s.rows[a], t.rows[a]);
    assert RowLinks(s, t.rows[a]);
    LinksStable(s, s', t.rows[a]);
    RecordedStable(s, s', a, t.rows[a]);
    forall i | 0 <= i < |s'.calls| && s'.calls[i].action == a && Executable(t.rows[a].action.status)
      ensures Excused(s', a, i)
    {
    }
  }

  lemma CommitOtherRow(s: State, s': State, w: nat, t: Txn, a: nat)
    requires Committed(s, s', w, t) && Grows(s, s') && a in s.rows && a !in t.rows && RowOk(s, a, s.rows[a])
    ensures RowOk(s', a, s.rows[a])
  {
    forall i | Excused(s, a, i) ensures Excused(s', a, i) {
      if i !in s'.undone {
        var v :| v in s.txns && a in s.txns[v].rows && i in s.txns[v].calls;
        assert v in s'.txns;
      }
    }
    RowStable(s, s', a, s.rows[a]);
  }

  lemma CommitRows(s: State, s': State, w: nat, t: Txn)
    requires Committed(s, s', w, t) && Grows(s, s') && TxnOk(s, t) && RowsOk(s)
    ensures RowsOk(s')
  {
    forall a | a in s'.rows ensures RowOk(s', a, s'.rows[a]) {
      assert RowOk(s, a, s.rows[a]);
      if a in t.rows { CommitOwnRow(s, s', w, t, a); } else { CommitOtherRow(s, s', w, t, a); }
    }
  }

  lemma CommitCases(s: State, s': State, w: nat, t: Txn)
    requires Committed(s, s', w, t) && Grows(s, s') && CasesPart(s.cases, s.events, s.rows, t) && CasesOk(s)
    ensures CasesOk(s')
  {
    forall c | c in s'.cases ensures CaseOk(s'.events, s'.rows, c, s'.cases[c]) {
      if c !in t.cases {
        CaseUnderRows(s.events, s.rows, s'.rows, c, s.cases[c]);
      }
    }
  }

  lemma CommitOtherTxn(s: State, s': State, w: nat, t: Txn, u: Txn)
    requires Committed(s, s', w, t) && Grows(s, s') && TxnOk(s, u) && Disjoint(t, u)
    ensures TxnOk(s', u)
  {
    forall a | a in u.claimed || a in u.rows ensures a in s'.rows && s'.rows[a] == s.rows[a] {
      assert a !in t.rows;
    }
    forall c | c in u.cases ensures c in s'.cases && s'.cases[c] == s.cases[c] {
      assert c !in t.cases;
    }
    TxnStable(s, s', u);
  }

  lemma CommitTxns(s: State, s': State, w: nat, t: Txn)
    requires Committed(s, s', w, t) && Grows(s, s') && TxnsOk(s) && LocksOk(s.txns)
    ensures TxnsOk(s') && LocksOk(s'.txns)
  {
    forall v | v in s'.txns ensures TxnOk(s', s'.txns[v]) {
      assert Disjoint(t, s.txns[v]);
      CommitOtherTxn(s, s', w, t, s.txns[v]);
    }
  }

  lemma CommitStep(s: State, w: nat)
    requires Inv(s) && CanCommit(s, w)
    ensures Inv(DoCommit(s, w)) && Grows(s, DoCommit(s, w))
  {
    var s', t := DoCommit(s, w), s.txns[w];
    assert TxnOk(s, t);
    CommitGrows(s, s', w, t);
    CommitIds(s, s', w, t);
    CommitRows(s, s', w, t);
    CommitCases(s, s', w, t);
    CommitTxns(s, s', w, t);
    OrganicStable(s, s');
  }
}
