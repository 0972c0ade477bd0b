/** How rows leave the outbox, and when they cannot. */
module ProtocolDrain {
  import opened Domain
  import opened Execution
  import opened ExecutionLaws
  import opened Protocol
  import opened ProtocolInvariant
  import ProtocolRuns
  import ProtocolWebhook
  import Ingestion
  import Recovery

  /** The drain bound: a row of which at most one claimed execution raised has closed by its third
      committed claim. In general an open row has been claimed at most once more than it raised. */
  lemma DrainBound(s: State, a: nat)
    requires Reachable(s) && a in s.rows
    ensures var row := s.rows[a];
      && row.raises <= row.outbox.attemptCount <= MAX_RETRIES
      && (Open(row) ==> row.outbox.attemptCount <= row.raises + 1)
      && (row.outbox.attemptCount >= 3 && row.raises <= 1 ==> !Open(row))
  {
    ProtocolRuns.ReachableInv(s);
    assert RowOk(s, a, s.rows[a]);
  }

  function Claimed(row: Row, w: nat, now: int, lease: int): Row {
    row.(outbox := ClaimRow(row.outbox, w, now, lease))
  }

  const STILL_UNKNOWN := LinkResult(Recovery.PROVIDER_UNKNOWN, None, "", UNKNOWN_RETRY_RISK, None, false)

  function Raising(env: Env): Env { env.(reply := Raises) }

  function Unresolved(env: Env): Env { env.(reply := Replies(STILL_UNKNOWN)) }

  // The gate lets the claimed row through, and none of its attempts has finished.
  predicate Underway(row: Row, f: Facts) {
    && Validate(row, f).ok && row.outbox.amount > 0 && Open(row)
    && forall n | n in row.attempts :: row.attempts[n].status == AttemptStatus.EXECUTING
  }

  lemma FirstClaim(id: nat, row: Row, f: Facts, w: nat, lease: int)
    requires row.outbox == Outbox(PENDING, row.outbox.amount, 0, MAX_RETRIES, None, None, None, None)
    requires row.attempts == map[] && row.outbox.amount > 0 && Authorized(id, row, f) && f.adapter
    ensures Underway(Claimed(row, w, f.now, lease), f)
  {
  }

  lemma RaisedClaim(id: nat, row: Row, f: Facts, env: Env, w: nat, lease: int)
    requires Underway(row, f) && row.outbox.attemptCount >= 1
    ensures var after := Process(id, row, f, Raising(env)).row;
      && after.outbox == row.outbox && after.raises == row.raises + 1
      && (row.outbox.attemptCount < row.outbox.maxRetries ==> Underway(Claimed(after, w, f.now, lease), f))
  {
    assert Process(id, row, f, Raising(env)).row == Raised(Started(row));
  }

  lemma UnresolvedClaim(id: nat, row: Row, f: Facts, env: Env)
    requires Underway(row, f)
    ensures var after := Process(id, row, f, Unresolved(env)).row;
      Open(after) && after.action.status == ActionStatus.UNKNOWN && after.outbox == row.outbox && after.raises == row.raises
  {
  }

  lemma NotExecutableCloses(id: nat, row: Row, f: Facts, env: Env)
    requires row.action.status == ActionStatus.UNKNOWN
    ensures var after := Process(id, row, f, env).row;
      !Open(after) && after.outbox.attemptCount == row.outbox.attemptCount
  {
  }

  /** The bound is tight. Take any row the gate lets through. One raise and an unresolved answer leave it
      open after two claims, and the third closes it; two raises and an unresolved answer leave it open
      with its budget spent, so that no later moment finds it claimable. */
  lemma {:induction false} DrainBoundIsTight(id: nat, row: Row, f: Facts, env: Env, w: nat, lease: int)
    requires row.outbox == Outbox(PENDING, row.outbox.amount, 0, MAX_RETRIES, None, None, None, None)
    requires row.attempts == map[] && row.outbox.amount > 0 && Authorized(id, row, f) && f.adapter
    ensures var once := Process(id, Claimed(row, w, f.now, lease), f, Raising(env)).row;
      var answered := Process(id, Claimed(once, w, f.now, lease), f, Unresolved(env)).row;
      var third := Process(id, Claimed(answered, w, f.now, lease), f, env).row;
      var twice := Process(id, Claimed(once, w, f.now, lease), f, Raising(env)).row;
      var stuck := Process(id, Claimed(twice, w, f.now, lease), f, Unresolved(env)).row;
      && Open(answered) && answered.outbox.attemptCount == 2
      && !Open(third) && third.outbox.attemptCount == 3
      && Open(stuck) && stuck.raises == row.raises + 2 && forall now :: !Claimable(stuck.outbox, now)
  {
    var one := Claimed(row, w, f.now, lease);
    FirstClaim(id, row, f, w, lease);
    RaisedClaim(id, one, f, env, w, lease);
    var two := Claimed(Process(id, one, f, Raising(env)).row, w, f.now, lease);
    UnresolvedClaim(id, two, f, env);
    NotExecutableCloses(id, Claimed(Process(id, two, f, Unresolved(env)).row, w, f.now, lease), f, env);
    RaisedClaim(id, two, f, env, w, lease);
    UnresolvedClaim(id, Claimed(Process(id, two, f, Raising(env)).row, w, f.now, lease), f, env);
  }

  /* ---- Rows whose budget is spent ---- */

  // No transaction holds the row, and no claim can take it.
  predicate Spent(s: State, a: nat) {
    a in s.rows && s.rows[a].outbox.attemptCount >= s.rows[a].outbox.maxRetries && !OutboxLocked(s, a)
  }

  // `s'` treats the entry of `a` as `s` does.
  predicate SameEntry(s: State, s': State, a: nat)
    requires a in s.rows
  {
    a in s'.rows && s'.rows[a].outbox == s.rows[a].outbox
  }

  lemma SpentCarried(s: State, s': State, a: nat)
    requires Spent(s, a) && SameEntry(s, s', a)
    requires forall w | w in s'.txns :: (w in s.txns && s'.txns[w] == s.txns[w]) || (a !in s'.txns[w].claimed && a !in s'.txns[w].rows)
    ensures Spent(s', a)
  {
    forall w | w in s'.txns ensures a !in s'.txns[w].claimed && a !in s'.txns[w].rows {
      assert !OutboxLocked(s, a);
    }
  }

  lemma SpentUnderClaim(s: State, a: nat, w: nat, batch: set<nat>, lease: int)
    requires Spent(s, a) && CanClaim(s, w, batch)
    ensures Spent(DoClaim(s, w, batch, lease), a) && SameEntry(s, DoClaim(s, w, batch, lease), a)
  {
    assert a !in batch;
    SpentCarried(s, DoClaim(s, w, batch, lease), a);
  }

  lemma SpentUnderExecute(s: State, a: nat, w: nat, b: nat, env: Env, created: bool)
    requires Spent(s, a) && CanExecute(s, w, b)
    ensures Spent(DoExecute(s, w, b, env, created), a) && SameEntry(s, DoExecute(s, w, b, env, created), a)
  {
    assert a !in s.txns[w].claimed && a !in s.txns[w].rows by { assert !OutboxLocked(s, a); }
    SpentCarried(s, DoExecute(s, w, b, env, created), a);
  }

  lemma SpentUnderCommit(s: State, a: nat, w: nat)
    requires Spent(s, a) && CanCommit(s, w)
    ensures Spent(DoCommit(s, w), a) && SameEntry(s, DoCommit(s, w), a)
  {
    assert a !in s.txns[w].rows by { assert !OutboxLocked(s, a); }
    SpentCarried(s, DoCommit(s, w), a);
  }

  lemma SpentUnderPoller(s: State, l: Label, a: nat)
    requires Spent(s, a) && Enabled(s, l) && ProtocolRuns.IsPoller(l)
    ensures Spent(Apply(s, l), a) && SameEntry(s, Apply(s, l), a)
  {
    match l
    case Claim(w, batch, lease) => SpentUnderClaim(s, a, w, batch, lease);
    case Execute(w, b, env, created) => SpentUnderExecute(s, a, w, b, env, created);
    case Commit(w) => SpentUnderCommit(s, a, w);
    case Crash(w) => SpentCarried(s, DoCrash(s, w), a);
  }

  lemma EntryUnderConfirm(s: State, a: nat, e: nat, look: Ingestion.Lookup, measure: Option<MeasureInput>)
    requires a in s.rows && CanConfirm(s, e, look)
    ensures SameEntry(s, DoConfirm(s, e, look, measure), a) && DoConfirm(s, e, look, measure).txns == s.txns
  {
    ProtocolWebhook.ConfirmOnly(s, e, look, measure);
  }

  lemma EntryUnderDecide(s: State, a: nat, i: Intake, adapter: bool, env: Env, created: bool, lost: bool)
    requires a in s.rows && a < s.nextId && CanDecide(s, i)
    ensures var s' := DoDecide(s, i, adapter, env, created, lost); SameEntry(s, s', a) && s'.txns == s.txns
  {
  }

  lemma EntryUnderGateway(s: State, a: nat, c: nat, d: nat, amount: int, env: Env, created: bool, lost: bool)
    requires a in s.rows && a < s.nextId && CanGateway(s, c, d)
    ensures var s' := DoGateway(s, c, d, amount, env, created, lost); SameEntry(s, s', a) && s'.txns == s.txns
  {
  }

  lemma SpentStep(s: State, l: Label, a: nat)
    requires IdsOk(s) && Spent(s, a) && Enabled(s, l)
    ensures Spent(Apply(s, l), a) && SameEntry(s, Apply(s, l), a)
  {
    if ProtocolRuns.IsPoller(l) {
      SpentUnderPoller(s, l, a);
    } else {
      if l.Confirm? {
        EntryUnderConfirm(s, a, l.event, l.look, l.measure);
      } else if ProtocolRuns.IsQuiet(l) {
        ProtocolRuns.QuietGrows(s, l);
      } else if l.Decide? {
        EntryUnderDecide(s, a, l.intake, l.adapter, l.env, l.created, l.lost);
      } else {
        EntryUnderGateway(s, a, l.caseId, l.decisionId, l.amount, l.env, l.created, l.lost);
      }
      SpentCarried(s, Apply(s, l), a);
    }
  }

  lemma SpentNext(s: State, l: Label, s': State, a: nat)
    requires Inv(s) && Spent(s, a) && Enabled(s, l) && s' == Apply(s, l)
    ensures Spent(s', a) && SameEntry(s, s', a)
  {
    SpentStep(s, l, a);
  }

  lemma SpentAlong(run: seq<State>, labels: seq<Label>, a: nat, k: nat)
    requires IsPath(run, labels) && 0 < k <= |labels| && Inv(run[k - 1]) && Spent(run[k - 1], a)
    ensures Spent(run[k], a) && SameEntry(run[k - 1], run[k], a)
  {
    ProtocolRuns.PathStep(run, labels, k);
    SpentNext(run[k - 1], labels[k - 1], run[k], a);
  }

  lemma {:induction false} SpentKept(run: seq<State>, labels: seq<Label>, a: nat, k: nat)
    requires IsPath(run, labels) && ProtocolRuns.AllInv(run) && Spent(run[0], a) && k <= |labels|
    ensures Spent(run[k], a) && run[k].rows[a].outbox == run[0].rows[a].outbox
  {
    if k > 0 {
      SpentKept(run, labels, a, k - 1);
      assert Inv(run[k - 1]);
      SpentAlong(run, labels, a, k);
    }
  }

  /** A row with a spent budget keeps its outbox entry for ever, whatever happens next: if that says
      CLAIMED it says so for good. */
  lemma SpentForever(run: seq<State>, labels: seq<Label>, a: nat, k: nat)
    requires IsPath(run, labels) && Inv(run[0]) && Spent(run[0], a) && k <= |labels|
    ensures Spent(run[k], a) && run[k].rows[a].outbox == run[0].rows[a].outbox
  {
    ProtocolRuns.PathAllInv(run, labels);
    SpentKept(run, labels, a, k);
  }

  /* ---- Rows that can still be closed ---- */

  ghost predicate Leads(s: State, s': State) {
    exists run, labels :: IsPath(run, labels) && run[0] == s && run[|labels|] == s'
  }

  lemma LeadsHere(s: State)
    ensures Leads(s, s)
  {
    var none: seq<Label> := [];
    assert IsPath([s], none) && [s][0] == s && [s][|none|] == s;
  }

  lemma LeadsOn(s: State, s': State, l: Label)
    requires Leads(s, s') && Enabled(s', l)
    ensures Leads(s, Apply(s', l))
  {
    var run, labels :| IsPath(run, labels) && run[0] == s && run[|labels|] == s';
    var run', labels' := run + [Apply(s', l)], labels + [l];
    forall i | 0 <= i < |labels'| ensures Enabled(run'[i], labels'[i]) && run'[i + 1] == Apply(run'[i], labels'[i]) {
      if i < |labels| { assert run'[i] == run[i] && run'[i + 1] == run[i + 1] && labels'[i] == labels[i]; }
    }
    assert IsPath(run', labels') && run'[0] == s && run'[|labels'|] == Apply(s', l);
  }

  // Killing every worker leaves the committed rows as they are.
  lemma {:induction false} AllCrash(s: State, m: State) returns (e: State)
    requires Leads(s, m)
    ensures Leads(s, e) && e.txns == map[] && e.rows == m.rows
    decreases |m.txns|
  {
    if m.txns == map[] {
      e := m;
    } else {
      var w :| w in m.txns;
      LeadsOn(s, m, Crash(w));
      assert Apply(m, Crash(w)).txns.Keys == m.txns.Keys - {w};
      e := AllCrash(s, Apply(m, Crash(w)));
    }
  }

  lemma RefusedRowCloses(s: State, a: nat, env: Env)
    requires CanExecute(s, 0, a) && !s.enabled
    ensures !Open(Executed(s, 0, a, env).row)
  {
    assert !Validate(RowSeen(s, 0, a), FactsFor(s, RowSeen(s, 0, a).action, CaseSeen(s, 0, RowSeen(s, 0, a).action.caseId), true)).ok;
  }

  // Executing the one claimed row with the switch off, and committing.
  lemma CommitsRefused(s: State, m: State, a: nat, env: Env) returns (e: State)
    requires Leads(s, m) && CanExecute(m, 0, a) && m.txns[0].claimed.Keys == {a} && !m.enabled
    ensures Leads(s, e) && a in e.rows && !Open(e.rows[a])
  {
    RefusedRowCloses(m, a, env);
    LeadsOn(s, m, Execute(0, a, env, false));
    var m' := DoExecute(m, 0, a, env, false);
    assert m'.txns[0].claimed == map[] && m'.txns[0].rows[a] == Executed(m, 0, a, env).row;
    LeadsOn(s, m', Commit(0));
    e := DoCommit(m', 0);
  }

  // With the switch off, one claim closes a row.
  lemma ClosesWhenOff(s: State, a: nat, env: Env) returns (e: State)
    requires a in s.rows && s.txns == map[] && Claimable(s.rows[a].outbox, s.now) && !s.enabled
    ensures Leads(s, e) && a in e.rows && !Open(e.rows[a])
  {
    LeadsHere(s);
    LeadsOn(s, s, Claim(0, {a}, 0));
    e := CommitsRefused(s, DoClaim(s, 0, {a}, 0), a, env);
  }

  lemma LeadsThrough(s: State, m: State, e: State)
    requires Leads(s, m) && Leads(m, e)
    ensures Leads(s, e)
  {
    var run, labels :| IsPath(run, labels) && run[0] == m && run[|labels|] == e;
    LeadsAlong(s, run, labels, |labels|);
  }

  lemma {:induction false} LeadsAlong(s: State, run: seq<State>, labels: seq<Label>, k: nat)
    requires IsPath(run, labels) && Leads(s, run[0]) && k <= |labels|
    ensures Leads(s, run[k])
  {
    if k > 0 {
      LeadsAlong(s, run, labels, k - 1);
      ProtocolRuns.PathStep(run, labels, k);
      LeadsOn(s, run[k - 1], labels[k - 1]);
    }
  }

  lemma LeadsByWaiting(s: State, m: State, wait: nat)
    requires Leads(s, m)
    ensures Leads(s, m.(now := m.now + wait))
  {
    LeadsOn(s, m, Tick(wait));
  }

  lemma LeadsBySwitchingOff(s: State, m: State)
    requires Leads(s, m)
    ensures Leads(s, m.(enabled := false))
  {
    LeadsOn(s, m, Switch(false));
  }

  // How long to wait for the lease of an open row.
  function LeaseLeft(ob: Outbox, now: int): nat {
    if ob.leaseExpiresAt.Some? && ob.leaseExpiresAt.value >= now then ob.leaseExpiresAt.value - now + 1 else 0
  }

  lemma ClaimableAfterWaiting(row: Row, now: int)
    requires BudgetOk(row) && Open(row) && row.outbox.attemptCount < MAX_RETRIES
    ensures Claimable(row.outbox, now + LeaseLeft(row.outbox, now))
  {
  }

  // Waiting and then switching off.
  lemma LeadsToQuiet(s: State, m: State, wait: nat)
    requires Leads(s, m)
    ensures Leads(s, m.(now := m.now + wait, enabled := false))
  {
    LeadsByWaiting(s, m, wait);
    LeadsBySwitchingOff(s, m.(now := m.now + wait));
  }

  lemma CanStillClose(s: State, a: nat, env: Env) returns (e: State)
    requires a in s.rows && BudgetOk(s.rows[a]) && Open(s.rows[a]) && s.rows[a].outbox.attemptCount < MAX_RETRIES
    ensures Leads(s, e) && a in e.rows && !Open(e.rows[a])
  {
    LeadsHere(s);
    var m := AllCrash(s, s);
    var wait := LeaseLeft(m.rows[a].outbox, m.now);
    var m2 := m.(now := m.now + wait, enabled := false);
    LeadsToQuiet(s, m, wait);
    ClaimableAfterWaiting(m.rows[a], m.now);
    e := ClosesWhenOff(m2, a, env);
    LeadsThrough(s, m2, e);
  }

  /** An open row nobody holds can still be closed by some continuation of the run exactly when it has
      budget left: a row whose last permitted claim raised, or was answered without a resolution, stays
      CLAIMED for ever. */
  lemma ClosableIffBudgetLeft(s: State, a: nat, env: Env)
    requires Reachable(s) && a in s.rows && Open(s.rows[a]) && !OutboxLocked(s, a)
    ensures (exists e :: Leads(s, e) && a in e.rows && !Open(e.rows[a]))
            <==> s.rows[a].outbox.attemptCount < MAX_RETRIES
  {
    ProtocolRuns.ReachableInv(s);
    assert RowOk(s, a, s.rows[a]);
    if s.rows[a].outbox.attemptCount < MAX_RETRIES {
      var e := CanStillClose(s, a, env);
    } else {
      forall e | Leads(s, e) ensures a in e.rows && Open(e.rows[a]) {
        var run, labels :| IsPath(run, labels) && run[0] == s && run[|labels|] == e;
        SpentForever(run, labels, a, |labels|);
      }
    }
  }
}
