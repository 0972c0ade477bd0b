/** Which open rows can still be closed, by the pollers alone and without the operator. */
module ProtocolClosing {
  import opened Domain
  import opened Execution
  import opened ExecutionLaws
  import opened Protocol
  import opened ProtocolInvariant
  import ProtocolDrain
  import ProtocolRuns
  import ProtocolWebhook
  import Ingestion
  import Recovery
  import Text

  // Paths on which only the pollers and the clock move, and paths on which the operator leaves the kill
  // switch alone.
  datatype Reach = Polling | WithoutSwitch

  predicate Allowed(r: Reach, l: Label) {
    match r
    case Polling => l.Tick? || ProtocolRuns.IsPoller(l)
    case WithoutSwitch => !l.Switch?
  }

  ghost predicate AllAllowed(r: Reach, labels: seq<Label>) {
    forall k | 0 <= k < |labels| :: Allowed(r, labels[k])
  }

  ghost predicate LeadsBy(r: Reach, s: State, e: State) {
    exists run, labels :: IsPath(run, labels) && AllAllowed(r, labels) && run[0] == s && run[|labels|] == e
  }

  lemma Here(r: Reach, s: State)
    ensures LeadsBy(r, s, s)
  {
    var none: seq<Label> := [];
    assert IsPath([s], none) && AllAllowed(r, none) && [s][0] == s && [s][|none|] == s;
  }

  lemma On(r: Reach, s: State, m: State, l: Label)
    requires LeadsBy(r, s, m) && Enabled(m, l) && Allowed(r, l)
    ensures LeadsBy(r, s, Apply(m, l))
  {
    var run, labels :| IsPath(run, labels) && AllAllowed(r, labels) && run[0] == s && run[|labels|] == m;
    var run', labels' := run + [Apply(m, l)], labels + [l];
    forall i | 0 <= i < |labels'| ensures Enabled(run'[i], labels'[i]) && run'[i + 1] == Apply(run'[i], labels'[i]) {
      if i < |labels| {
        assert run'[i] == run[i] && run'[i + 1] == run[i + 1] && labels'[i] == labels[i];
        assert Enabled(run[i], labels[i]);
      }
    }
    assert IsPath(run', labels') && AllAllowed(r, labels') && run'[0] == s && run'[|labels'|] == Apply(m, l);
  }

  lemma {:induction false} Along(s: State, run: seq<State>, labels: seq<Label>, k: nat)
    requires IsPath(run, labels) && AllAllowed(Polling, labels) && LeadsBy(WithoutSwitch, s, run[0]) && k <= |labels|
    ensures LeadsBy(WithoutSwitch, s, run[k])
  {
    if k > 0 {
      Along(s, run, labels, k - 1);
      ProtocolRuns.PathStep(run, labels, k);
      assert Allowed(Polling, labels[k - 1]);
      On(WithoutSwitch, s, run[k - 1], labels[k - 1]);
    }
  }

  lemma Weaken(s: State, m: State, e: State)
    requires LeadsBy(WithoutSwitch, s, m) && LeadsBy(Polling, m, e)
    ensures LeadsBy(WithoutSwitch, s, e)
  {
    var run, labels :| IsPath(run, labels) && AllAllowed(Polling, labels) && run[0] == m && run[|labels|] == e;
    Along(s, run, labels, |labels|);
  }

  /* ---- The gate for a committed row ---- */

  function FactsNow(s: State, a: nat): Facts
    requires a in s.rows
  {
    FactsFor(s, s.rows[a].action, Lookup(s.cases, s.rows[a].action.caseId), true)
  }

  /** The preflight gate would let the row through as things stand. */
  predicate GateOpen(s: State, a: nat) {
    a in s.rows && Validate(s.rows[a], FactsNow(s, a)).ok
  }

  // The gate looks at the budget, the status and the attempts of a row, not at its claim or the clock.
  lemma GateLooksAt(row: Row, row': Row, f: Facts, f': Facts)
    requires row'.action == row.action && row'.attempts == row.attempts
    requires row.outbox.attemptCount <= row.outbox.maxRetries && row'.outbox.attemptCount <= row'.outbox.maxRetries
    requires f' == f.(now := f'.now, window := f'.window)
    ensures Validate(row', f').ok == Validate(row, f).ok
  {
  }

  /* ---- Closing by polling ---- */

  const REFUSED := Env(Replies(LinkResult(Recovery.PROVIDER_FAILED, None, "", NOT_RETRIABLE, None, false)),
                       FetchRaises, false, None)

  lemma RefusedCloses(id: nat, row: Row, f: Facts)
    requires Validate(row, f).ok ==> row.outbox.amount > 0
    ensures !Open(Process(id, row, f, REFUSED).row)
  {
  }

  lemma FreshWorker(txns: map<nat, Txn>) returns (w: nat)
    ensures w !in txns
  {
    w := Above(txns.Keys);
  }

  lemma {:induction false} Above(s: set<nat>) returns (w: nat)
    ensures forall x | x in s :: x < w
  {
    if x :| x in s {
      var v := Above(s - {x});
      w := if v > x then v else x + 1;
      forall y | y in s ensures y < w { assert y == x || y in s - {x}; }
    } else {
      w := 0;
    }
  }

  // Nobody holds the row or its case.
  ghost predicate Free(s: State, a: nat) {
    a in s.rows && !OutboxLocked(s, a) && !CaseLocked(s, s.rows[a].action.caseId)
  }

  // Executing the one claimed row and committing, when the execution closes it.
  lemma ExecuteCommit(s: State, m: State, w: nat, a: nat) returns (e: State)
    requires LeadsBy(Polling, s, m) && CanExecute(m, w, a) && m.txns[w].claimed.Keys == {a}
    requires !Open(Executed(m, w, a, REFUSED).row)
    ensures LeadsBy(Polling, s, e) && a in e.rows && !Open(e.rows[a])
  {
    On(Polling, s, m, Execute(w, a, REFUSED, false));
    var m' := DoExecute(m, w, a, REFUSED, false);
    assert m'.txns[w].claimed == map[] && m'.txns[w].rows[a] == Executed(m, w, a, REFUSED).row;
    On(Polling, s, m', Commit(w));
    e := DoCommit(m', w);
  }

  lemma ClaimExecuteCommit(s: State, m: State, a: nat) returns (e: State)
    requires LeadsBy(Polling, s, m) && Free(m, a) && Claimable(m.rows[a].outbox, m.now)
    requires m.rows[a].outbox.maxRetries == MAX_RETRIES && (GateOpen(m, a) ==> m.rows[a].outbox.amount > 0)
    ensures LeadsBy(Polling, s, e) && a in e.rows && !Open(e.rows[a])
  {
    var w := FreshWorker(m.txns);
    ClosesWhenExecuted(m, w, a);
    On(Polling, s, m, Claim(w, {a}, 0));
    e := ExecuteCommit(s, DoClaim(m, w, {a}, 0), w, a);
  }

  lemma CanExecuteClaimed(m: State, w: nat, a: nat)
    requires Free(m, a) && w !in m.txns && Claimable(m.rows[a].outbox, m.now)
    ensures CanClaim(m, w, {a}) && CanExecute(DoClaim(m, w, {a}, 0), w, a)
    ensures CaseSeen(DoClaim(m, w, {a}, 0), w, m.rows[a].action.caseId) == Lookup(m.cases, m.rows[a].action.caseId)
  {
  }

  lemma ClosesWhenExecuted(m: State, w: nat, a: nat)
    requires Free(m, a) && w !in m.txns && Claimable(m.rows[a].outbox, m.now)
    requires m.rows[a].outbox.maxRetries == MAX_RETRIES && (GateOpen(m, a) ==> m.rows[a].outbox.amount > 0)
    ensures CanClaim(m, w, {a}) && CanExecute(DoClaim(m, w, {a}, 0), w, a)
    ensures !Open(Executed(DoClaim(m, w, {a}, 0), w, a, REFUSED).row)
  {
    CanExecuteClaimed(m, w, a);
    var m1 := DoClaim(m, w, {a}, 0);
    var row, f := RowSeen(m1, w, a), FactsFor(m1, m.rows[a].action, CaseSeen(m1, w, m.rows[a].action.caseId), true);
    GateLooksAt(m.rows[a], row, FactsNow(m, a), f);
    RefusedCloses(a, row, f);
  }

  lemma ClosesByPolling(s: State, m: State, a: nat) returns (e: State)
    requires LeadsBy(Polling, s, m) && Free(m, a) && BudgetOk(m.rows[a]) && Open(m.rows[a])
    requires m.rows[a].outbox.attemptCount < MAX_RETRIES && (GateOpen(m, a) ==> m.rows[a].outbox.amount > 0)
    ensures LeadsBy(Polling, s, e) && a in e.rows && !Open(e.rows[a])
  {
    var wait := ProtocolDrain.LeaseLeft(m.rows[a].outbox, m.now);
    ProtocolDrain.ClaimableAfterWaiting(m.rows[a], m.now);
    On(Polling, s, m, Tick(wait));
    var m1 := m.(now := m.now + wait);
    SameGate(m, m1, a);
    e := ClaimExecuteCommit(s, m1, a);
  }

  lemma SameGate(m: State, m1: State, a: nat)
    requires a in m.rows && BudgetOk(m.rows[a]) && m1 == m.(now := m1.now)
    ensures GateOpen(m1, a) == GateOpen(m, a)
  {
    GateLooksAt(m.rows[a], m1.rows[a], FactsNow(m, a), FactsNow(m1, a));
  }

  /* ---- Rows the pollers cannot close ---- */

  // What a row whose amount the provider cannot take looks like, committed or executed in a transaction.
  ghost predicate Hollow(first: Row, row: Row) {
    && row.action == first.action.(status := row.action.status) && Executable(row.action.status)
    && row.outbox.amount <= 0 && Open(row) && !HasSucceeded(row.attempts)
    && row.outbox.attemptCount <= row.outbox.maxRetries
  }

  /** The gate lets the row through, its amount is not positive, and no transaction has changed the case. */
  ghost predicate Hopeless(first: Row, s: State, a: nat) {
    && a in s.rows && Hollow(first, s.rows[a]) && GateOpen(s, a) && first.action.kind == GENERATE_PAYMENT_LINK
    && (forall w | w in s.txns :: HopelessTxn(first, s, s.txns[w], a))
  }

  ghost predicate HopelessTxn(first: Row, s: State, t: Txn, a: nat) {
    var c := first.action.caseId;
    && (a in t.claimed ==> t.claimed[a].amount <= 0 && t.claimed[a].status == CLAIMED
                           && t.claimed[a].attemptCount <= t.claimed[a].maxRetries)
    && (a in t.rows ==> Hollow(first, t.rows[a]))
    && (c in t.cases ==> c in s.cases && t.cases[c] == s.cases[c])
  }

  lemma OneOfAKind(s: State, a: nat, b: nat)
    requires Inv(s) && a in s.rows && b in s.rows && s.rows[a].action.caseId == s.rows[b].action.caseId
    requires s.rows[a].action.kind == s.rows[b].action.kind
    ensures a == b
  {
    assert RowOk(s, a, s.rows[a]) && RowOk(s, b, s.rows[b]);
    assert RowLinks(s, s.rows[a]) && RowLinks(s, s.rows[b]);
  }

  // Changing the attempts and the claim does not close the gate, as long as nothing has succeeded.
  lemma GateStaysOpen(s: State, s': State, first: Row, a: nat)
    requires Hopeless(first, s, a) && a in s'.rows && Hollow(first, s'.rows[a])
    requires s'.decisions == s.decisions && s'.tenants == s.tenants && s'.categories == s.categories && s'.enabled == s.enabled
    requires first.action.caseId in s'.cases && first.action.caseId in s.cases
             && s'.cases[first.action.caseId] == s.cases[first.action.caseId]
    ensures GateOpen(s', a)
  {
  }

  // An execution of another action of the case is refused before it touches the case.
  lemma OtherKindIsRefused(id: nat, row: Row, f: Facts, env: Env)
    requires row.action.kind != GENERATE_PAYMENT_LINK
    ensures Process(id, row, f, env).kase == f.kase
  {
  }

  // An execution of the row itself raises and changes nothing but its attempt.
  lemma HollowRaises(id: nat, row: Row, f: Facts, env: Env, first: Row)
    requires Hollow(first, row) && Validate(row, f).ok
    ensures var p := Process(id, row, f, env); p.kase == f.kase && Hollow(first, p.row)
  {
    assert Process(id, row, f, env).row == Raised(Started(row));
  }

  lemma SeenCaseUnchanged(first: Row, s: State, a: nat, w: nat)
    requires Hopeless(first, s, a) && w in s.txns
    ensures first.action.caseId in s.cases
    ensures CaseSeen(s, w, first.action.caseId) == Some(s.cases[first.action.caseId])
  {
    assert HopelessTxn(first, s, s.txns[w], a);
  }

  lemma ExecuteOwn(first: Row, s: State, a: nat, w: nat, env: Env)
    requires Hopeless(first, s, a) && CanExecute(s, w, a)
    ensures var p := Executed(s, w, a, env);
      Hollow(first, p.row) && p.kase == Some(s.cases[first.action.caseId])
  {
    SeenCaseUnchanged(first, s, a, w);
    assert HopelessTxn(first, s, s.txns[w], a);
    var row := RowSeen(s, w, a);
    var f := FactsFor(s, row.action, CaseSeen(s, w, row.action.caseId), true);
    GateLooksAt(s.rows[a], row, FactsNow(s, a), f);
    HollowRaises(a, row, f, env, first);
  }

  lemma ExecuteOther(first: Row, s: State, a: nat, w: nat, b: nat, env: Env)
    requires Inv(s) && Hopeless(first, s, a) && CanExecute(s, w, b) && b != a
    requires s.rows[b].action.caseId == first.action.caseId
    ensures Executed(s, w, b, env).kase == Some(s.cases[first.action.caseId])
  {
    SeenCaseUnchanged(first, s, a, w);
    if s.rows[b].action.kind == GENERATE_PAYMENT_LINK { OneOfAKind(s, a, b); }
    var row := RowSeen(s, w, b);
    OtherKindIsRefused(b, row, FactsFor(s, row.action, CaseSeen(s, w, row.action.caseId), true), env);
  }

  // How executing row `b` in transaction `w` shows in the state.
  ghost predicate Ran(s: State, s': State, w: nat, b: nat, p: Processed) {
    && w in s.txns && b in s.txns[w].claimed && b in s.rows
    && s' == s.(txns := s'.txns, calls := s'.calls, undone := s'.undone, links := s'.links)
    && w in s'.txns
    && s'.txns == s.txns[w := Txn(s.txns[w].claimed - {b}, s.txns[w].rows[b := p.row],
                                  if p.kase.Some? then s.txns[w].cases[s.rows[b].action.caseId := p.kase.value]
                                  else s.txns[w].cases, s'.txns[w].calls)]
  }

  lemma ExecuteRan(s: State, w: nat, b: nat, env: Env, created: bool)
    requires CanExecute(s, w, b)
    ensures Ran(s, DoExecute(s, w, b, env, created), w, b, Executed(s, w, b, env))
  {
  }

  lemma HopelessAfterRan(first: Row, s: State, s': State, a: nat, w: nat, b: nat, p: Processed)
    requires Hopeless(first, s, a) && Ran(s, s', w, b, p)
    requires b == a ==> Hollow(first, p.row)
    requires s.rows[b].action.caseId == first.action.caseId ==> p.kase == Some(s.cases[first.action.caseId])
    ensures Hopeless(first, s', a)
  {
    forall v | v in s'.txns ensures HopelessTxn(first, s', s'.txns[v], a) {
      assert v in s.txns && HopelessTxn(first, s, s.txns[v], a);
    }
    GateStaysOpen(s, s', first, a);
  }

  lemma HopelessExecute(first: Row, s: State, a: nat, w: nat, b: nat, env: Env, created: bool)
    requires Inv(s) && Hopeless(first, s, a) && CanExecute(s, w, b)
    ensures Hopeless(first, DoExecute(s, w, b, env, created), a)
  {
    SeenCaseUnchanged(first, s, a, w);
    if b == a {
      ExecuteOwn(first, s, a, w, env);
    } else if s.rows[b].action.caseId == first.action.caseId {
      ExecuteOther(first, s, a, w, b, env);
    }
    ExecuteRan(s, w, b, env, created);
    HopelessAfterRan(first, s, DoExecute(s, w, b, env, created), a, w, b, Executed(s, w, b, env));
  }

  lemma HopelessClaim(first: Row, s: State, a: nat, w: nat, batch: set<nat>, lease: int)
    requires Hopeless(first, s, a) && CanClaim(s, w, batch)
    ensures Hopeless(first, DoClaim(s, w, batch, lease), a)
  {
    var s' := DoClaim(s, w, batch, lease);
    forall v | v in s'.txns ensures HopelessTxn(first, s', s'.txns[v], a) {
      if v != w { assert HopelessTxn(first, s, s.txns[v], a); }
    }
    GateCase(first, s, a);
    GateStaysOpen(s, s', first, a);
  }

  lemma GateCase(first: Row, s: State, a: nat)
    requires Hopeless(first, s, a)
    ensures first.action.caseId in s.cases
  {
  }

  lemma HopelessCommit(first: Row, s: State, a: nat, w: nat)
    requires Hopeless(first, s, a) && CanCommit(s, w)
    ensures Hopeless(first, DoCommit(s, w), a)
  {
    var s' := DoCommit(s, w);
    GateCase(first, s, a);
    assert HopelessTxn(first, s, s.txns[w], a);
    forall v | v in s'.txns ensures HopelessTxn(first, s', s'.txns[v], a) {
      assert HopelessTxn(first, s, s.txns[v], a);
    }
    GateStaysOpen(s, s', first, a);
  }

  lemma HopelessCrash(first: Row, s: State, a: nat, w: nat)
    requires Hopeless(first, s, a) && w in s.txns
    ensures Hopeless(first, DoCrash(s, w), a)
  {
    var s' := DoCrash(s, w);
    forall v | v in s'.txns ensures HopelessTxn(first, s', s'.txns[v], a) {
      assert HopelessTxn(first, s, s.txns[v], a);
    }
    GateCase(first, s, a);
    GateStaysOpen(s, s', first, a);
  }

  lemma HopelessTick(first: Row, s: State, a: nat, elapsed: nat)
    requires Hopeless(first, s, a)
    ensures Hopeless(first, s.(now := s.now + elapsed), a)
  {
    var s' := s.(now := s.now + elapsed);
    forall v | v in s'.txns ensures HopelessTxn(first, s', s'.txns[v], a) {
      assert HopelessTxn(first, s, s.txns[v], a);
    }
    GateCase(first, s, a);
    GateStaysOpen(s, s', first, a);
  }

  lemma HopelessLabel(first: Row, s: State, l: Label, a: nat)
    requires Hopeless(first, s, a) && Enabled(s, l) && (l.Claim? || l.Commit? || l.Crash? || l.Tick?)
    ensures Hopeless(first, Apply(s, l), a)
  {
    match l
    case Claim(w, batch, lease) => HopelessClaim(first, s, a, w, batch, lease);
    case Tick(elapsed) => HopelessTick(first, s, a, elapsed);
    case Commit(w) => HopelessCommit(first, s, a, w);
    case Crash(w) => HopelessCrash(first, s, a, w);
  }

  lemma HopelessStep(first: Row, s: State, l: Label, s': State, a: nat)
    requires Inv(s) && Hopeless(first, s, a) && Enabled(s, l) && Allowed(Polling, l) && s' == Apply(s, l)
    ensures Hopeless(first, s', a)
  {
    if l.Execute? {
      HopelessExecute(first, s, a, l.worker, l.action, l.env, l.created);
    } else {
      HopelessLabel(first, s, l, a);
    }
  }

  lemma HopelessAlong(first: Row, run: seq<State>, labels: seq<Label>, a: nat, k: nat)
    requires IsPath(run, labels) && AllAllowed(Polling, labels) && 0 < k <= |labels|
    requires Inv(run[k - 1]) && Hopeless(first, run[k - 1], a)
    ensures Hopeless(first, run[k], a)
  {
    ProtocolRuns.PathStep(run, labels, k);
    assert Allowed(Polling, labels[k - 1]);
    HopelessStep(first, run[k - 1], labels[k - 1], run[k], a);
  }

  lemma HopelessNext(first: Row, run: seq<State>, labels: seq<Label>, a: nat, k: nat)
    requires IsPath(run, labels) && AllAllowed(Polling, labels) && ProtocolRuns.AllInv(run) && 0 < k <= |labels|
    requires Hopeless(first, run[k - 1], a)
    ensures Hopeless(first, run[k], a)
  {
    assert Inv(run[k - 1]);
    HopelessAlong(first, run, labels, a, k);
  }

  lemma {:induction false} HopelessForever(first: Row, run: seq<State>, labels: seq<Label>, a: nat, k: nat)
    requires IsPath(run, labels) && AllAllowed(Polling, labels) && ProtocolRuns.AllInv(run) && k <= |labels|
    requires Hopeless(first, run[0], a)
    ensures Hopeless(first, run[k], a)
  {
    if k > 0 {
      HopelessForever(first, run, labels, a, k - 1);
      HopelessNext(first, run, labels, a, k);
    }
  }

  lemma BecomesHopeless(s: State, a: nat)
    requires Inv(s) && Free(s, a) && Open(s.rows[a]) && GateOpen(s, a) && s.rows[a].outbox.amount <= 0
    ensures Hopeless(s.rows[a], s, a)
  {
    assert RowOk(s, a, s.rows[a]);
    forall w | w in s.txns ensures HopelessTxn(s.rows[a], s, s.txns[w], a) {
      assert a !in s.txns[w].claimed && a !in s.txns[w].rows && s.rows[a].action.caseId !in s.txns[w].cases;
    }
  }

  /* ---- The theorems ---- */

  ghost predicate ClosableBy(r: Reach, s: State, a: nat) {
    exists e :: LeadsBy(r, s, e) && a in e.rows && !Open(e.rows[a])
  }

  lemma StaysOpenWithoutBudget(r: Reach, s: State, a: nat, e: State)
    requires Inv(s) && Free(s, a) && Open(s.rows[a]) && s.rows[a].outbox.attemptCount >= MAX_RETRIES && LeadsBy(r, s, e)
    ensures a in e.rows && Open(e.rows[a])
  {
    assert RowOk(s, a, s.rows[a]);
    var run, labels :| IsPath(run, labels) && AllAllowed(r, labels) && run[0] == s && run[|labels|] == e;
    ProtocolDrain.SpentForever(run, labels, a, |labels|);
  }

  lemma StaysOpenWithoutAmount(s: State, a: nat, e: State)
    requires Inv(s) && Free(s, a) && Open(s.rows[a]) && GateOpen(s, a) && s.rows[a].outbox.amount <= 0
    requires LeadsBy(Polling, s, e)
    ensures a in e.rows && Open(e.rows[a])
  {
    BecomesHopeless(s, a);
    var run, labels :| IsPath(run, labels) && AllAllowed(Polling, labels) && run[0] == s && run[|labels|] == e;
    ProtocolRuns.PathAllInv(run, labels);
    HopelessForever(s.rows[a], run, labels, a, |labels|);
  }

  /** What the pollers can do on their own: an open row that nobody holds, and whose case nobody holds, can be
      closed by them exactly when it has budget left and either the gate would refuse it or its amount is
      positive. A row the gate lets through with no amount raises at every claim. */
  lemma ClosableByPollingIff(s: State, a: nat)
    requires Reachable(s) && Free(s, a) && Open(s.rows[a])
    ensures ClosableBy(Polling, s, a) <==>
            s.rows[a].outbox.attemptCount < MAX_RETRIES && (!GateOpen(s, a) || s.rows[a].outbox.amount > 0)
  {
    ProtocolRuns.ReachableInv(s);
    assert RowOk(s, a, s.rows[a]);
    if s.rows[a].outbox.attemptCount >= MAX_RETRIES {
      forall e | LeadsBy(Polling, s, e) ensures a in e.rows && Open(e.rows[a]) {
        StaysOpenWithoutBudget(Polling, s, a, e);
      }
    } else if GateOpen(s, a) && s.rows[a].outbox.amount <= 0 {
      forall e | LeadsBy(Polling, s, e) ensures a in e.rows && Open(e.rows[a]) {
        StaysOpenWithoutAmount(s, a, e);
      }
    } else {
      Here(Polling, s);
      var e := ClosesByPolling(s, s, a);
    }
  }

  // A payment of the case, confirmed by a webhook that names the action.
  function Payment(c: nat, a: nat): Ingestion.Payload {
    Ingestion.Payload("payment_link.paid", "captured", "paid", "", Some(c), Some(a), None, 0, None)
  }

  lemma PaymentIsConfirmed(c: nat, a: nat)
    ensures Ingestion.IsConfirmed(Payment(c, a)) && Ingestion.IsSuccessEvent(Payment(c, a).eventType)
  {
    Text.LowerKeeps("paid");
  }

  lemma FreshEvent(events: map<nat, Event>) returns (e: nat)
    ensures e !in events
  {
    e := Above(events.Keys);
  }

  // After the payment the gate refuses the row, whose entry and locks are as before.
  lemma PaymentClosesGate(s: State, m: State, a: nat) returns (e: State)
    requires LeadsBy(WithoutSwitch, s, m) && Inv(m) && Free(m, a)
    ensures LeadsBy(WithoutSwitch, s, e) && Inv(e) && Free(e, a) && !GateOpen(e, a) && e.rows[a].outbox == m.rows[a].outbox
    ensures BudgetOk(e.rows[a])
  {
    var c := m.rows[a].action.caseId;
    assert RowOk(m, a, m.rows[a]);
    var v := FreshEvent(m.events);
    var m1 := PaymentArrives(s, m, c, a, v);
    PaymentCredits(m1, v, c, a);
    e := PaymentSettles(s, m1, c, a, v);
  }

  lemma PaymentArrives(s: State, m: State, c: nat, a: nat, v: nat) returns (m1: State)
    requires LeadsBy(WithoutSwitch, s, m) && Inv(m) && c in m.cases && v !in m.events
    ensures m1 == m.(events := m.events[v := Event(Payment(c, a), Some(m.cases[c].tenant), false, None)])
    ensures LeadsBy(WithoutSwitch, s, m1) && Inv(m1)
  {
    On(WithoutSwitch, s, m, Accept(v, Payment(c, a), Some(m.cases[c].tenant)));
    ProtocolRuns.QuietLabel(m, Accept(v, Payment(c, a), Some(m.cases[c].tenant)));
    m1 := Apply(m, Accept(v, Payment(c, a), Some(m.cases[c].tenant)));
  }

  lemma PaymentBooked(m: State, e: State, c: nat, a: nat, v: nat)
    requires Inv(m) && Free(m, a) && m.rows[a].action.caseId == c && ProtocolWebhook.CreditsCase(m, v, c)
    requires e == CreditAction(m, v, c, a, None)
    ensures Inv(e) && Free(e, a) && !GateOpen(e, a) && e.rows[a].outbox == m.rows[a].outbox && BudgetOk(e.rows[a])
  {
    assert !RowLocked(m, a);
    ProtocolWebhook.CreditActionStep(m, v, c, a, None);
    PaidRow(m, e, v, c, a);
    assert RowOk(e, a, e.rows[a]);
  }

  lemma PaymentSettles(s: State, m: State, c: nat, a: nat, v: nat) returns (e: State)
    requires LeadsBy(WithoutSwitch, s, m) && Inv(m) && Free(m, a) && m.rows[a].action.caseId == c
    requires CanConfirm(m, v, Ingestion.Lookup(None, Some(a))) && ProtocolWebhook.CreditsCase(m, v, c)
    requires DoConfirm(m, v, Ingestion.Lookup(None, Some(a)), None) == CreditAction(m, v, c, a, None)
    ensures LeadsBy(WithoutSwitch, s, e) && Inv(e) && Free(e, a) && !GateOpen(e, a) && e.rows[a].outbox == m.rows[a].outbox
    ensures BudgetOk(e.rows[a])
  {
    On(WithoutSwitch, s, m, Confirm(v, Ingestion.Lookup(None, Some(a)), None));
    e := CreditAction(m, v, c, a, None);
    PaymentBooked(m, e, c, a, v);
  }

  lemma PaymentCredits(s: State, v: nat, c: nat, a: nat)
    requires Inv(s) && Free(s, a) && s.rows[a].action.caseId == c && v in s.events && c in s.cases
    requires s.events[v] == Event(Payment(c, a), Some(s.cases[c].tenant), false, None)
    ensures var look := Ingestion.Lookup(None, Some(a));
      CanConfirm(s, v, look) && ProtocolWebhook.CreditsCase(s, v, c)
      && DoConfirm(s, v, look, None) == CreditAction(s, v, c, a, None)
  {
    PaymentIsConfirmed(c, a);
    assert RowOk(s, a, s.rows[a]);
    assert RowLinks(s, s.rows[a]);
    Ingestion.NotesDecide(s.cases, s.rows, Payment(c, a), s.cases[c].tenant, Ingestion.Lookup(None, Some(a)), c, a);
  }

  lemma PaidRow(s: State, e: State, v: nat, c: nat, a: nat)
    requires ProtocolWebhook.CreditsCase(s, v, c) && Free(s, a) && s.rows[a].action.caseId == c
    requires e == CreditAction(s, v, c, a, None)
    ensures Free(e, a) && !GateOpen(e, a) && e.rows[a].outbox == s.rows[a].outbox
  {
    assert e.txns == s.txns && e.rows[a].action.status == ActionStatus.SUCCEEDED;
  }

  lemma ClosesWithoutSwitch(s: State, a: nat) returns (e: State)
    requires Inv(s) && Free(s, a) && Open(s.rows[a]) && s.rows[a].outbox.attemptCount < MAX_RETRIES
    ensures LeadsBy(WithoutSwitch, s, e) && a in e.rows && !Open(e.rows[a])
  {
    Here(WithoutSwitch, s);
    var m := PaymentClosesGate(s, s, a);
    Here(Polling, m);
    e := ClosesByPolling(m, m, a);
    Weaken(s, m, e);
  }

  /** With the customer in the picture and the kill switch left alone, budget decides again: a payment of the
      case makes the gate refuse the row, whatever its amount, and the next poll closes it. */
  lemma ClosableWithoutSwitchIff(s: State, a: nat)
    requires Reachable(s) && Free(s, a) && Open(s.rows[a])
    ensures ClosableBy(WithoutSwitch, s, a) <==> s.rows[a].outbox.attemptCount < MAX_RETRIES
  {
    ProtocolRuns.ReachableInv(s);
    if s.rows[a].outbox.attemptCount >= MAX_RETRIES {
      forall e | LeadsBy(WithoutSwitch, s, e) ensures a in e.rows && Open(e.rows[a]) {
        StaysOpenWithoutBudget(WithoutSwitch, s, a, e);
      }
    } else {
      var e := ClosesWithoutSwitch(s, a);
    }
  }
}
