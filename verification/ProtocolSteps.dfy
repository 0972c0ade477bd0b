/** Every step of the protocol keeps the invariant and only lets the durable facts grow. */
module ProtocolSteps {
  import opened Domain
  import opened Execution
  import opened ExecutionLaws
  import opened Protocol
  import opened ProtocolInvariant
  import Recovery

  /** A step that only touches the clock, the settings, a classification or an unprocessed event. */
  lemma QuietStep(s: State, s': State)
    requires Inv(s) && Grows(s, s')
    requires s'.rows == s.rows && s'.cases == s.cases && s'.organic == s.organic && s'.txns == s.txns
    requires s'.calls == s.calls && s'.undone == s.undone && s'.links == s.links && s'.decisions == s.decisions
    ensures Inv(s')
  {
    OrganicStable(s, s');
    RowsStable(s, s');
    CasesStable(s, s');
    forall w | w in s'.txns ensures TxnOk(s', s'.txns[w]) {
      TxnStable(s, s', s.txns[w]);
    }
  }

  // Nothing durable changes, only transactions and what the provider has seen.
  predicate SameStore(s: State, s': State) {
    s' == s.(txns := s'.txns, calls := s'.calls, undone := s'.undone, links := s'.links)
  }

  lemma SameStoreGrows(s: State, s': State)
    requires SameStore(s, s')
    ensures Grows(s, s')
  {
  }

  // A transaction that is carried over while the store and the calls stay as they are.
  lemma TxnCarried(s: State, s': State, t: Txn)
    requires SameStore(s, s') && s.calls <= s'.calls && s.undone <= s'.undone && TxnOk(s, t)
    requires forall i | |s.calls| <= i < |s'.calls| :: s'.calls[i].action !in t.rows
    ensures TxnOk(s', t)
  {
    CallsPartStable(s.calls, s.undone, s'.calls, s'.undone, t);
  }

  lemma StoreCarried(s: State, s': State)
    requires SameStore(s, s') && s'.calls == s.calls && ExcusedGrows(s, s')
    requires RowsOk(s) && CasesOk(s) && OrganicOk(s)
    ensures RowsOk(s') && CasesOk(s') && OrganicOk(s')
  {
    SameStoreGrows(s, s');
    RowsStable(s, s');
    CasesStable(s, s');
    OrganicStable(s, s');
  }

  lemma IdsCarried(s: State, s': State)
    requires SameStore(s, s') && s'.calls == s.calls && IdsOk(s)
    ensures IdsOk(s')
  {
  }

  lemma ExcusedCarried(s: State, s': State)
    requires s.undone <= s'.undone
    requires forall v | v in s.txns :: (v in s'.txns && s'.txns[v] == s.txns[v]) || s.txns[v].calls <= s'.undone
    ensures ExcusedGrows(s, s')
  {
    forall a, i | Excused(s, a, i) ensures Excused(s', a, i) {
      if i !in s'.undone {
        var v :| v in s.txns && a in s.txns[v].rows && i in s.txns[v].calls;
        assert v in s'.txns && s'.txns[v] == s.txns[v];
      }
    }
  }

  lemma ClaimLocks(s: State, w: nat, batch: set<nat>, lease: int)
    requires CanClaim(s, w, batch) && LocksOk(s.txns)
    ensures LocksOk(DoClaim(s, w, batch, lease).txns)
  {
    var t := DoClaim(s, w, batch, lease).txns[w];
    forall v | v in s.txns ensures Disjoint(s.txns[v], t) && Disjoint(t, s.txns[v]) {
      forall a | a in t.claimed ensures a !in s.txns[v].claimed && a !in s.txns[v].rows {
        assert !OutboxLocked(s, a);
      }
    }
  }

  lemma ClaimNewTxn(s: State, w: nat, batch: set<nat>, lease: int)
    requires CanClaim(s, w, batch) && RowsOk(s)
    ensures TxnOk(s, DoClaim(s, w, batch, lease).txns[w])
  {
    var t := DoClaim(s, w, batch, lease).txns[w];
    forall a | a in t.claimed
      ensures a in s.rows && Ready(s.rows[a].(outbox := t.claimed[a])) && ClaimedOk(s.rows[a].(outbox := t.claimed[a]))
    {
      assert RowOk(s, a, s.rows[a]);
      ClaimMakesReady(s.rows[a], w, s.now, lease);
    }
  }

  lemma TxnsCarried(s: State, s': State)
    requires SameStore(s, s') && s.calls == s'.calls && s.undone <= s'.undone && TxnsOk(s)
    ensures forall v | v in s.txns :: TxnOk(s', s.txns[v])
  {
    forall v | v in s.txns ensures TxnOk(s', s.txns[v]) {
      TxnCarried(s, s', s.txns[v]);
    }
  }

  lemma ClaimTxns(s: State, w: nat, batch: set<nat>, lease: int)
    requires CanClaim(s, w, batch) && RowsOk(s) && TxnsOk(s)
    ensures TxnsOk(DoClaim(s, w, batch, lease))
  {
    var s' := DoClaim(s, w, batch, lease);
    ClaimNewTxn(s, w, batch, lease);
    TxnsCarried(s, s');
    TxnCarried(s, s', s'.txns[w]);
  }

  lemma ClaimStep(s: State, w: nat, batch: set<nat>, lease: int)
    requires Inv(s) && CanClaim(s, w, batch)
    ensures Inv(DoClaim(s, w, batch, lease)) && Grows(s, DoClaim(s, w, batch, lease))
  {
    var s' := DoClaim(s, w, batch, lease);
    SameStoreGrows(s, s');
    IdsCarried(s, s');
    ClaimLocks(s, w, batch, lease);
    ClaimTxns(s, w, batch, lease);
    ExcusedCarried(s, s');
    StoreCarried(s, s');
  }

  lemma CrashStep(s: State, w: nat)
    requires Inv(s) && w in s.txns
    ensures Inv(DoCrash(s, w)) && Grows(s, DoCrash(s, w))
  {
    var s' := DoCrash(s, w);
    SameStoreGrows(s, s');
    IdsCarried(s, s');
    TxnsCarried(s, s');
    ExcusedCarried(s, s');
    StoreCarried(s, s');
    CallsUndoneGrow(s.calls, s.undone, s'.undone, s.links);
  }

  /* ---- Creation calls ---- */

  lemma AddLinkOk(calls: seq<Call>, undone: set<nat>, links: seq<Link>, call: Call, created: bool)
    requires CallsOk(calls, undone, links)
    requires call.key == IdempotencyKey(call.action) && Authorized(call.action, call.row, call.facts)
    requires forall i | 0 <= i < |calls| && calls[i].action == call.action :: i in undone
    ensures CallsOk(calls + [call], undone,
                    if created then AddLink(links, call.key, call.row.action.caseId) else links)
  {
    var calls' := calls + [call];
    assert calls'[|calls|] == call;
    forall l | l in links ensures Backed(calls', l) {
      var c :| c in calls && c.key == l.key && c.row.action.caseId == l.caseId;
      assert c in calls';
    }
    var l := Link(call.key, call.row.action.caseId);
    assert Backed(calls', l) by { assert call in calls'; }
    forall i, j | 0 <= i < j < |calls'| && calls'[i].action == calls'[j].action ensures i in undone {
      assert calls'[i] == calls[i];
    }
  }

  lemma CallsUndoneGrow(calls: seq<Call>, undone: set<nat>, undone': set<nat>, links: seq<Link>)
    requires CallsOk(calls, undone, links) && undone <= undone'
    ensures CallsOk(calls, undone', links)
  {
  }

  /** Whatever one execution does at the provider keeps the provider-side facts, as long as the earlier
      calls for its action are undone. */
  lemma CallsAfterOk(s: State, a: nat, row: Row, f: Facts, env: Env, created: bool, lost: bool)
    requires CallsOk(s.calls, s.undone, s.links)
    requires Executable(row.action.status) ==>
               forall i | 0 <= i < |s.calls| && s.calls[i].action == a :: i in s.undone
    requires row.outbox.attemptCount <= row.outbox.maxRetries
    ensures var p := Process(a, row, f, env);
      CallsOk(CallsAfter(s, a, row, f, p), UndoneAfter(s, p, lost), LinksAfter(s, a, row, p, env, created))
  {
    var p := Process(a, row, f, env);
    CalledIffAuthorized(a, row, f, env);
    if p.called {
      var made := created || (env.reply.Replies? && env.reply.result.status == Recovery.PROVIDER_SUCCEEDED);
      AddLinkOk(s.calls, s.undone, s.links, Call(a, IdempotencyKey(a), row, f), made);
      CallsUndoneGrow(s.calls + [Call(a, IdempotencyKey(a), row, f)], s.undone, UndoneAfter(s, p, lost),
                      LinksAfter(s, a, row, p, env, created));
    }
  }

  /* ---- Executing a claimed row ---- */

  // No transaction has executed a row that `w` still has to execute.
  lemma ClaimedIsFresh(s: State, w: nat, a: nat)
    requires LocksOk(s.txns) && TxnsOk(s) && CanExecute(s, w, a)
    ensures !RowLocked(s, a)
    ensures forall i :: Excused(s, a, i) ==> i in s.undone
  {
    assert TxnOk(s, s.txns[w]);
    forall v | v in s.txns ensures a !in s.txns[v].rows {
      if v != w { assert Disjoint(s.txns[w], s.txns[v]); }
    }
  }

  lemma ExecuteLocks(s: State, w: nat, a: nat, env: Env, created: bool)
    requires LocksOk(s.txns) && CanExecute(s, w, a)
    ensures LocksOk(DoExecute(s, w, a, env, created).txns)
  {
    var s' := DoExecute(s, w, a, env, created);
    var t, t' := s.txns[w], s'.txns[w];
    var c := s.rows[a].action.caseId;
    forall v | v in s.txns && v != w ensures Disjoint(s.txns[v], t') && Disjoint(t', s.txns[v]) {
      assert Disjoint(s.txns[v], t) && Disjoint(t, s.txns[v]);
      if c in t.cases {
        assert c !in s.txns[v].cases;
      } else {
        assert !CaseLocked(s, c);
      }
    }
  }

  lemma ExecuteCalls(s: State, w: nat, a: nat, env: Env, created: bool)
    requires LocksOk(s.txns) && TxnsOk(s) && RowsOk(s) && CallsOk(s.calls, s.undone, s.links) && CanExecute(s, w, a)
    ensures var s' := DoExecute(s, w, a, env, created); CallsOk(s'.calls, s'.undone, s'.links)
  {
    ClaimedIsFresh(s, w, a);
    assert TxnOk(s, s.txns[w]) && RowOk(s, a, s.rows[a]);
    var row := RowSeen(s, w, a);
    assert ClaimedOk(row);
    CallsAfterOk(s, a, row, FactsFor(s, row.action, CaseSeen(s, w, row.action.caseId), true), env, created, false);
  }

  // What an execution reads is in order.
  lemma ExecuteReads(s: State, w: nat, a: nat)
    requires CanExecute(s, w, a) && TxnOk(s, s.txns[w]) && RowOk(s, a, s.rows[a])
    ensures var row := RowSeen(s, w, a); var kase := CaseSeen(s, w, row.action.caseId);
      && Ready(row) && row.action.caseId in s.cases && s.cases[row.action.caseId].tenant == row.action.tenant
      && kase.Some? && kase.value.amount == s.cases[row.action.caseId].amount
  {
    assert RowLinks(s, s.rows[a]);
    assert CasesPart(s.cases, s.events, s.rows, s.txns[w]);
  }

  lemma ExecuteRecords(s: State, w: nat, a: nat, env: Env)
    requires CanExecute(s, w, a) && TxnOk(s, s.txns[w]) && RowOk(s, a, s.rows[a])
    ensures RowRecorded(s.cases, s.events, a, Executed(s, w, a, env).row)
  {
    var row := RowSeen(s, w, a);
    var f := FactsFor(s, row.action, CaseSeen(s, w, row.action.caseId), true);
    ExecuteReads(s, w, a);
    ProcessKeepsBooks(a, row, f, env);
    ProcessMeasures(a, row, f, env);
    if row.recorded.None? {
      ProcessFilesTruth(a, row, f, env);
    } else {
      assert OutcomeOk(s.cases, s.events, Recovery.ByAction(a), row.recorded.value.outcome, row.attempts);
    }
  }

  // What the executed row looks like, in the state before the step.
  lemma ExecuteRow(s: State, w: nat, a: nat, env: Env)
    requires CanExecute(s, w, a) && TxnOk(s, s.txns[w]) && RowOk(s, a, s.rows[a])
    ensures var p := Executed(s, w, a, env);
      && p.kase.Some?
      && RowGrows(s.rows[a], p.row) && AttemptsOk(p.row) && BudgetOk(p.row)
      && RowRecorded(s.cases, s.events, a, p.row)
      && (Executable(p.row.action.status) ==> p.raised)
  {
    var row := RowSeen(s, w, a);
    var f := FactsFor(s, row.action, CaseSeen(s, w, row.action.caseId), true);
    ExecuteReads(s, w, a);
    ExecuteRecords(s, w, a, env);
    ProcessKeepsBooks(a, row, f, env);
    ProcessAndCase(a, row, f, env);
  }

  // The case an execution reads.
  lemma SeenCase(s: State, w: nat, c: nat)
    requires w in s.txns && CasesPart(s.cases, s.events, s.rows, s.txns[w])
    requires ExecutedPart(s.cases, s.events, s.rows, s.txns[w]) && CasesOk(s) && c in s.cases
    ensures CaseSeen(s, w, c).Some?
    ensures CaseGrows(s.cases[c], CaseSeen(s, w, c).value)
    ensures CaseOk(s.events, s.rows + s.txns[w].rows, c, CaseSeen(s, w, c).value)
  {
    if c !in s.txns[w].cases {
      CaseUnderRows(s.events, s.rows, s.rows + s.txns[w].rows, c, s.cases[c]);
    }
  }

  lemma CaseAfterOne(events: map<nat, Event>, rows: map<nat, Row>, a: nat, row: Row, c: nat, kase: Case)
    requires CaseOk(events, rows, c, kase) && (a in rows ==> RowGrows(rows[a], row))
    ensures CaseOk(events, rows[a := row], c, kase)
  {
    forall b | b in rows ensures b in rows[a := row] && RowGrows(rows[b], rows[a := row][b]) {
    }
    CaseUnderRows(events, rows, rows[a := row], c, kase);
  }

  // What an execution leaves of the case.
  lemma ProcessedCase(events: map<nat, Event>, rows: map<nat, Row>, a: nat, row: Row, f: Facts, env: Env)
    requires f.kase.Some? && Ready(row) && CaseOk(events, rows, row.action.caseId, f.kase.value)
    requires a in rows ==> rows[a] == row.(outbox := rows[a].outbox)
    ensures var p := Process(a, row, f, env);
      p.kase.Some? && CaseGrows(f.kase.value, p.kase.value)
      && CaseOk(events, rows[a := p.row], row.action.caseId, p.kase.value)
  {
    var p := Process(a, row, f, env);
    ProcessAndCase(a, row, f, env);
    ProcessKeepsBooks(a, row, f, env);
    if p.kase.value.status == f.kase.value.status {
      CaseAfterOne(events, rows, a, p.row, row.action.caseId, p.kase.value);
    } else {
      assert Validate(row, f).ok;
    }
  }

  lemma ExecuteCase(s: State, w: nat, a: nat, env: Env)
    requires CanExecute(s, w, a) && TxnOk(s, s.txns[w]) && RowOk(s, a, s.rows[a]) && CasesOk(s)
    ensures var p, c := Executed(s, w, a, env), s.rows[a].action.caseId;
      && c in s.cases && p.kase.Some? && CaseGrows(s.cases[c], p.kase.value)
      && CaseOk(s.events, s.rows + s.txns[w].rows[a := p.row], c, p.kase.value)
  {
    var row := RowSeen(s, w, a);
    var c := row.action.caseId;
    assert RowLinks(s, s.rows[a]);
    SeenCase(s, w, c);
    var all := s.rows + s.txns[w].rows;
    assert a !in s.txns[w].rows && Ready(row);
    ProcessedCase(s.events, all, a, row, FactsFor(s, row.action, CaseSeen(s, w, c), true), env);
    assert all[a := Executed(s, w, a, env).row] == s.rows + s.txns[w].rows[a := Executed(s, w, a, env).row];
  }

  // How executing row `a` with result `p` changes the state.
  ghost predicate ExecutedTo(s: State, s': State, w: nat, a: nat, p: Execution.Processed) {
    && w in s.txns && a in s.txns[w].claimed && a in s.rows && p.kase.Some?
    && SameStore(s, s') && s.undone <= s'.undone
    && w in s'.txns
    && var t, c, calls := s.txns[w], s.rows[a].action.caseId, s'.txns[w].calls;
    && s'.txns == s.txns[w := Txn(t.claimed - {a}, t.rows[a := p.row], t.cases[c := p.kase.value], calls)]
    && ((s'.calls == s.calls && calls == t.calls)
        || (|s'.calls| == |s.calls| + 1 && s.calls <= s'.calls && s'.calls[|s.calls|].action == a
            && calls == t.calls + {|s.calls|} && (p.raised ==> |s.calls| in s'.undone)))
  }

  lemma ExecuteShape(s: State, w: nat, a: nat, env: Env, created: bool)
    requires CanExecute(s, w, a) && Executed(s, w, a, env).kase.Some?
    ensures ExecutedTo(s, DoExecute(s, w, a, env, created), w, a, Executed(s, w, a, env))
  {
  }

  // The result of the execution is in order, in the state before it.
  ghost predicate ResultOk(s: State, t: Txn, a: nat, p: Execution.Processed) {
    && a in s.rows && p.kase.Some?
    && RowGrows(s.rows[a], p.row) && AttemptsOk(p.row) && BudgetOk(p.row) && RowRecorded(s.cases, s.events, a, p.row)
    && (Executable(p.row.action.status) ==> p.raised)
    && s.rows[a].action.caseId in s.cases
    && CaseGrows(s.cases[s.rows[a].action.caseId], p.kase.value)
    && CaseOk(s.events, s.rows + t.rows[a := p.row], s.rows[a].action.caseId, p.kase.value)
  }

  lemma ExecuteResult(s: State, w: nat, a: nat, env: Env)
    requires CanExecute(s, w, a) && TxnOk(s, s.txns[w]) && RowOk(s, a, s.rows[a]) && CasesOk(s)
    ensures ResultOk(s, s.txns[w], a, Executed(s, w, a, env))
  {
    assert RowLinks(s, s.rows[a]);
    ExecuteRow(s, w, a, env);
    ExecuteCase(s, w, a, env);
  }

  lemma OwnCases(s: State, s': State, w: nat, a: nat, p: Execution.Processed)
    requires ExecutedTo(s, s', w, a, p) && ResultOk(s, s.txns[w], a, p)
    requires CasesPart(s.cases, s.events, s.rows, s.txns[w]) && a !in s.txns[w].rows
    ensures CasesPart(s'.cases, s'.events, s'.rows, s'.txns[w])
  {
    var t, t', c := s.txns[w], s'.txns[w], s.rows[a].action.caseId;
    forall d | d in t'.cases ensures d in s.cases && CaseOk(s.events, s.rows + t'.rows, d, t'.cases[d]) {
      if d != c {
        CaseAfterOne(s.events, s.rows + t.rows, a, p.row, d, t.cases[d]);
        assert (s.rows + t.rows)[a := p.row] == s.rows + t'.rows;
      }
    }
  }

  lemma OwnRows(s: State, s': State, w: nat, a: nat, p: Execution.Processed)
    requires ExecutedTo(s, s', w, a, p) && ResultOk(s, s.txns[w], a, p)
    requires ExecutedPart(s.cases, s.events, s.rows, s.txns[w])
    ensures ExecutedPart(s'.cases, s'.events, s'.rows, s'.txns[w])
  {
  }

  lemma OwnCalls(s: State, s': State, w: nat, a: nat, p: Execution.Processed)
    requires ExecutedTo(s, s', w, a, p) && ResultOk(s, s.txns[w], a, p)
    requires CallsPart(s.calls, s.undone, s.txns[w]) && a !in s.txns[w].rows && RowCalls(s, a, s.rows[a])
    requires forall i :: Excused(s, a, i) ==> i in s.undone
    ensures CallsPart(s'.calls, s'.undone, s'.txns[w])
  {
    var t' := s'.txns[w];
    forall b, i | b in t'.rows && Executable(t'.rows[b].action.status) && 0 <= i < |s'.calls| && s'.calls[i].action == b
      ensures i in s'.undone
    {
      if i < |s.calls| {
        assert s'.calls[i] == s.calls[i];
        assert b == a ==> Excused(s, a, i);
      }
    }
  }

  lemma OwnTxn(s: State, s': State, w: nat, a: nat, p: Execution.Processed)
    requires ExecutedTo(s, s', w, a, p) && ResultOk(s, s.txns[w], a, p)
    requires TxnOk(s, s.txns[w]) && RowCalls(s, a, s.rows[a])
    requires forall i :: Excused(s, a, i) ==> i in s.undone
    ensures TxnOk(s', s'.txns[w])
  {
    assert a !in s.txns[w].rows;
    OwnCases(s, s', w, a, p);
    OwnRows(s, s', w, a, p);
    OwnCalls(s, s', w, a, p);
    assert ClaimedPart(s'.rows, s'.txns[w]);
  }

  lemma ExcusedByExecution(s: State, s': State, w: nat, a: nat, p: Execution.Processed)
    requires ExecutedTo(s, s', w, a, p)
    ensures ExcusedGrows(s, s')
    ensures forall i | |s.calls| <= i < |s'.calls| :: s'.calls[i].action == a && Excused(s', a, i)
  {
    forall b, i | Excused(s, b, i) ensures Excused(s', b, i) {
      if i !in s'.undone {
        var v :| v in s.txns && b in s.txns[v].rows && i in s.txns[v].calls;
        assert v in s'.txns && b in s'.txns[v].rows && i in s'.txns[v].calls;
      }
    }
    forall i | |s.calls| <= i < |s'.calls| ensures s'.calls[i].action == a && Excused(s', a, i) {
      assert w in s'.txns && a in s'.txns[w].rows && i in s'.txns[w].calls;
    }
  }

  lemma OtherRows(s: State, s': State, w: nat, a: nat, p: Execution.Processed)
    requires ExecutedTo(s, s', w, a, p) && RowsOk(s)
    ensures RowsOk(s')
  {
    SameStoreGrows(s, s');
    ExcusedByExecution(s, s', w, a, p);
    forall b | b in s'.rows ensures RowOk(s', b, s'.rows[b]) {
      assert RowOk(s, b, s.rows[b]);
      assert forall i | Excused(s, b, i) :: Excused(s', b, i);
      RowStable(s, s', b, s.rows[b]);
    }
  }

  lemma OtherTxn(s: State, s': State, w: nat, a: nat, p: Execution.Processed, t: Txn)
    requires ExecutedTo(s, s', w, a, p) && TxnOk(s, t) && a !in t.rows
    ensures TxnOk(s', t)
  {
    TxnCarried(s, s', t);
  }

  lemma OtherTxns(s: State, s': State, w: nat, a: nat, p: Execution.Processed)
    requires ExecutedTo(s, s', w, a, p) && TxnsOk(s) && !RowLocked(s, a)
    ensures forall v | v in s'.txns && v != w :: TxnOk(s', s'.txns[v])
  {
    forall v | v in s'.txns && v != w ensures TxnOk(s', s'.txns[v]) {
      OtherTxn(s, s', w, a, p, s.txns[v]);
    }
  }

  lemma ExecuteIds(s: State, s': State, w: nat, a: nat, p: Execution.Processed)
    requires ExecutedTo(s, s', w, a, p) && IdsOk(s)
    ensures IdsOk(s')
  {
  }

  lemma ExecuteStore(s: State, s': State, w: nat, a: nat, p: Execution.Processed)
    requires ExecutedTo(s, s', w, a, p) && ResultOk(s, s.txns[w], a, p)
    requires IdsOk(s) && RowsOk(s) && CasesOk(s) && OrganicOk(s) && TxnsOk(s) && !RowLocked(s, a)
    requires forall i :: Excused(s, a, i) ==> i in s.undone
    ensures IdsOk(s') && RowsOk(s') && CasesOk(s') && OrganicOk(s') && TxnsOk(s')
  {
    SameStoreGrows(s, s');
    assert TxnOk(s, s.txns[w]) && RowOk(s, a, s.rows[a]);
    ExecuteIds(s, s', w, a, p);
    OtherRows(s, s', w, a, p);
    OwnTxn(s, s', w, a, p);
    OtherTxns(s, s', w, a, p);
    CasesStable(s, s');
    OrganicStable(s, s');
  }

  lemma ExecuteStep(s: State, w: nat, a: nat, env: Env, created: bool)
    requires Inv(s) && CanExecute(s, w, a)
    ensures Inv(DoExecute(s, w, a, env, created)) && Grows(s, DoExecute(s, w, a, env, created))
  {
    var s' := DoExecute(s, w, a, env, created);
    assert TxnOk(s, s.txns[w]) && RowOk(s, a, s.rows[a]);
    ClaimedIsFresh(s, w, a);
    ExecuteResult(s, w, a, env);
    ExecuteShape(s, w, a, env, created);
    ExecuteStore(s, s', w, a, Executed(s, w, a, env));
    SameStoreGrows(s, s');
    ExecuteLocks(s, w, a, env, created);
    ExecuteCalls(s, w, a, env, created);
  }
}
