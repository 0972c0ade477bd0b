/** Runs that reach what the negative results speak about. */
module ProtocolExhibits {
  import opened Domain
  import opened Execution
  import opened ExecutionLaws
  import opened Protocol
  import opened ProtocolInvariant
  import opened ProtocolWitness
  import ProtocolClosing
  import ProtocolDrain
  import ProtocolRepeats
  import ProtocolRevenue
  import ProtocolRuns
  import ProtocolTheorems
  import ProtocolWebhook
  import Ingestion
  import Policy
  import Recovery
  import Text

  lemma ReachesOn(s: State, l: Label)
    requires Reachable(s) && Enabled(s, l)
    ensures Reachable(Apply(s, l))
  {
    var run, labels :| IsRun(run, labels) && run[|labels|] == s;
    var run', labels' := run + [Apply(s, l)], labels + [l];
    forall i | 0 <= i < |labels'| ensures Enabled(run'[i], labels'[i]) && run'[i + 1] == Apply(run'[i], labels'[i]) {
      if i < |labels| {
        assert run'[i] == run[i] && run'[i + 1] == run[i + 1] && labels'[i] == labels[i];
        assert Enabled(run[i], labels[i]);
      }
    }
    assert IsRun(run', labels') && run'[|labels'|] == Apply(s, l);
  }

  lemma QueueIsReached(start: State) returns (q: State, a: nat)
    requires Start(start)
    ensures Reachable(q) && Queued(q, a)
  {
    q := Decides(start);
    a := start.nextId + 2;
    IsReachable(start, q);
  }

  /* ---- A row whose budget is spent ---- */

  // The one action of the queue after `k` committed claims that all raised.
  ghost predicate Waiting(q: State, a: nat, k: nat) {
    && a >= 2 && q.txns == map[] && 0 in q.tenants && q.enabled && q.window >= 0
    && a in q.rows && a - 2 in q.cases && a - 1 in q.decisions && a - 2 in q.categories
    && q.cases[a - 2] == DecidedCase(FAILURE) && q.categories[a - 2] == CUSTOMER_ACTION_REQUIRED
    && q.decisions[a - 1] == Decision(a - 2, 0, GENERATE_PAYMENT_LINK, APPROVED, FULL_AUTO)
    && Raises(q.rows[a], a, k)
  }

  ghost predicate Raises(row: Row, a: nat, k: nat)
    requires a >= 2
  {
    && row.action == Action(a - 2, 0, a - 1, GENERATE_PAYMENT_LINK, row.action.status, row.action.createdAt)
    && Executable(row.action.status) && row.outbox.amount == 50000 && row.outbox.maxRetries == MAX_RETRIES
    && row.outbox.attemptCount == k == row.raises && !HasSucceeded(row.attempts) && row.recorded.None?
    && (row.outbox.status == PENDING || (row.outbox.status == CLAIMED && row.outbox.leaseExpiresAt.Some?))
  }

  lemma FirstWaiting(q: State, a: nat)
    requires Queued(q, a)
    ensures Waiting(q, a, 0)
  {
  }

  // Waiting for the lease and claiming.
  lemma ClaimsAgain(q: State, a: nat, k: nat) returns (m: State, q': State)
    requires Reachable(q) && Waiting(q, a, k) && k < MAX_RETRIES
    ensures q' == q.(now := q'.now) && Waiting(q', a, k) && CanClaim(q', 0, {a})
    ensures m == DoClaim(q', 0, {a}, 30) && Reachable(m)
  {
    var wait := ProtocolDrain.LeaseLeft(q.rows[a].outbox, q.now);
    ReachesOn(q, Tick(wait));
    q' := q.(now := q.now + wait);
    ReachesOn(q', Claim(0, {a}, 30));
    m := DoClaim(q', 0, {a}, 30);
  }

  // What the execution of the claimed row reads.
  function InHandRow(q: State, a: nat): Row
    requires a in q.rows
  {
    q.rows[a].(outbox := ClaimRow(q.rows[a].outbox, 0, q.now, 30))
  }

  function InHandFacts(q: State, a: nat): Facts
    requires a in q.rows && a >= 2
  {
    FactsFor(q, q.rows[a].action, Lookup(q.cases, a - 2), true)
  }

  lemma InHandIsAuthorized(q: State, a: nat, k: nat)
    requires Waiting(q, a, k) && k < MAX_RETRIES
    ensures var row, f := InHandRow(q, a), InHandFacts(q, a);
      && Authorized(a, row, f) && f.adapter && f.kase == Some(q.cases[a - 2])
      && row.outbox.attemptCount == k + 1 <= row.outbox.maxRetries == MAX_RETRIES && Open(row)
  {
    Policy.LinkApprovedIffNotPayroll(B2C, CUSTOMER_ACTION_REQUIRED, None);
  }

  lemma InHandRuns(q: State, m: State, a: nat, env: Env)
    requires a >= 2 && a in q.rows && q.rows[a].action.caseId == a - 2 && q.txns == map[] && CanClaim(q, 0, {a})
    requires m == DoClaim(q, 0, {a}, 30)
    ensures CanExecute(m, 0, a) && Executed(m, 0, a, env) == Process(a, InHandRow(q, a), InHandFacts(q, a), env)
  {
  }

  lemma RaisedRow(a: nat, k: nat, row: Row, f: Facts)
    requires a >= 2 && Authorized(a, row, f) && f.adapter && row.outbox.amount == 50000
    requires row.outbox.attemptCount == k + 1 <= row.outbox.maxRetries == MAX_RETRIES && row.raises == k
    requires row.action.caseId == a - 2 && row.action.tenant == 0 && row.action.decisionId == a - 1
    requires row.recorded.None? && row.outbox.status == CLAIMED && row.outbox.leaseExpiresAt.Some?
    ensures var p := Process(a, row, f, NOTHING); Raises(p.row, a, k + 1) && p.kase == f.kase
  {
    CalledIffAuthorized(a, row, f, NOTHING);
    assert Process(a, row, f, NOTHING).row == Raised(Started(row));
  }

  const UNCLEAR := NOTHING.(reply := Replies(ProtocolDrain.STILL_UNKNOWN))

  lemma UnclearRow(a: nat, k: nat, row: Row, f: Facts)
    requires Authorized(a, row, f) && f.adapter && row.outbox.amount == 50000
    requires row.outbox.attemptCount == k + 1 <= row.outbox.maxRetries && row.raises == k && Open(row)
    ensures var p := Process(a, row, f, UNCLEAR);
      Open(p.row) && p.row.outbox == row.outbox && p.row.raises == k && p.kase == f.kase
  {
    CalledIffAuthorized(a, row, f, UNCLEAR);
  }

  // `e` is `q` with row `a` and its case as execution `p` left them.
  ghost predicate Settled(q: State, e: State, a: nat, p: Execution.Processed) {
    && a in q.rows && p.kase.Some?
    && e == q.(rows := q.rows[a := p.row], cases := q.cases[q.rows[a].action.caseId := p.kase.value],
               calls := e.calls, undone := e.undone, links := e.links)
  }

  lemma Executes(q: State, m: State, a: nat, env: Env) returns (x: State)
    requires Reachable(m) && a in q.rows && q.txns == map[] && CanClaim(q, 0, {a}) && m == DoClaim(q, 0, {a}, 30)
    requires CanExecute(m, 0, a) && Executed(m, 0, a, env).kase.Some?
    ensures Reachable(x) && x == DoExecute(m, 0, a, env, false)
  {
    ReachesOn(m, Execute(0, a, env, false));
    x := DoExecute(m, 0, a, env, false);
  }

  lemma CommitSettles(q: State, x: State, a: nat, p: Execution.Processed)
    requires a in q.rows && q.txns == map[] && p.kase.Some? && CanCommit(x, 0)
    requires x == q.(txns := x.txns, calls := x.calls, undone := x.undone, links := x.links) && x.txns.Keys == {0}
    requires x.txns[0].rows == map[a := p.row] && x.txns[0].cases == map[q.rows[a].action.caseId := p.kase.value]
    ensures Settled(q, DoCommit(x, 0), a, p)
  {
    var e := DoCommit(x, 0);
    assert e.txns == map[];
    assert e.rows == q.rows[a := p.row] && e.cases == q.cases[q.rows[a].action.caseId := p.kase.value];
  }

  lemma Commits(q: State, x: State, a: nat, p: Execution.Processed) returns (e: State)
    requires Reachable(x) && a in q.rows && q.txns == map[] && p.kase.Some? && CanCommit(x, 0)
    requires x == q.(txns := x.txns, calls := x.calls, undone := x.undone, links := x.links) && x.txns.Keys == {0}
    requires x.txns[0].rows == map[a := p.row] && x.txns[0].cases == map[q.rows[a].action.caseId := p.kase.value]
    ensures Reachable(e) && Settled(q, e, a, p)
  {
    CommitSettles(q, x, a, p);
    ReachesOn(x, Commit(0));
    e := DoCommit(x, 0);
  }

  lemma ExecutesAndCommits(q: State, m: State, a: nat, env: Env) returns (e: State)
    requires Reachable(m) && a in q.rows && q.txns == map[] && CanClaim(q, 0, {a}) && m == DoClaim(q, 0, {a}, 30)
    requires CanExecute(m, 0, a) && Executed(m, 0, a, env).kase.Some?
    ensures Reachable(e) && Settled(q, e, a, Executed(m, 0, a, env))
  {
    var x := Executes(q, m, a, env);
    OneExecuted(q, m, x, a, env);
    e := Commits(q, x, a, Executed(m, 0, a, env));
  }

  lemma OneExecuted(q: State, m: State, x: State, a: nat, env: Env)
    requires a in q.rows && q.txns == map[] && CanClaim(q, 0, {a}) && m == DoClaim(q, 0, {a}, 30)
    requires CanExecute(m, 0, a) && Executed(m, 0, a, env).kase.Some? && x == DoExecute(m, 0, a, env, false)
    ensures CanCommit(x, 0) && x == q.(txns := x.txns, calls := x.calls, undone := x.undone, links := x.links)
    ensures x.txns.Keys == {0} && x.txns[0].rows == map[a := Executed(m, 0, a, env).row]
    ensures x.txns[0].cases == map[q.rows[a].action.caseId := Executed(m, 0, a, env).kase.value]
  {
    ProtocolClosing.ExecuteRan(m, 0, a, env, false);
  }

  lemma RaisedInHand(q: State, m: State, a: nat, k: nat)
    requires Waiting(q, a, k) && CanClaim(q, 0, {a}) && k < MAX_RETRIES && m == DoClaim(q, 0, {a}, 30)
    ensures CanExecute(m, 0, a)
    ensures var p := Executed(m, 0, a, NOTHING); Raises(p.row, a, k + 1) && p.kase == Some(q.cases[a - 2])
  {
    InHandIsAuthorized(q, a, k);
    InHandRuns(q, m, a, NOTHING);
    RaisedRow(a, k, InHandRow(q, a), InHandFacts(q, a));
  }

  lemma UnclearInHand(q: State, m: State, a: nat, k: nat)
    requires Waiting(q, a, k) && CanClaim(q, 0, {a}) && k < MAX_RETRIES && m == DoClaim(q, 0, {a}, 30)
    ensures CanExecute(m, 0, a)
    ensures var p := Executed(m, 0, a, UNCLEAR);
      && Open(p.row) && p.row.raises == k && p.row.outbox.attemptCount == k + 1 && p.row.outbox.maxRetries == MAX_RETRIES
      && p.kase == Some(q.cases[a - 2])
  {
    InHandIsAuthorized(q, a, k);
    InHandRuns(q, m, a, UNCLEAR);
    UnclearRow(a, k, InHandRow(q, a), InHandFacts(q, a));
  }

  // One round: the lease passes, the row is claimed, its execution raises, the sweep commits.
  lemma RaisingRound(q: State, a: nat, k: nat) returns (e: State)
    requires Reachable(q) && Waiting(q, a, k) && k < MAX_RETRIES
    ensures Reachable(e) && Waiting(e, a, k + 1)
  {
    var m, q' := ClaimsAgain(q, a, k);
    RaisedInHand(q', m, a, k);
    e := ExecutesAndCommits(q', m, a, NOTHING);
  }

  lemma UnclearRound(q: State, a: nat, k: nat) returns (e: State)
    requires Reachable(q) && Waiting(q, a, k) && k < MAX_RETRIES
    ensures Reachable(e) && a in e.rows && e.txns == map[] && Open(e.rows[a])
    ensures e.rows[a].raises == k && e.rows[a].outbox.attemptCount == k + 1 && e.rows[a].outbox.maxRetries == MAX_RETRIES
  {
    var m, q' := ClaimsAgain(q, a, k);
    UnclearInHand(q', m, a, k);
    e := ExecutesAndCommits(q', m, a, UNCLEAR);
  }

  /** The drain bound is tight over runs: a row with one raised execution can still be open after two committed
      claims, and one with two raised executions is open after three, its budget spent: it will never be
      claimed again. */
  lemma DrainBoundIsReached(start: State) returns (e: State, stuck: State, a: nat)
    requires Start(start)
    ensures Reachable(e) && a in e.rows && Open(e.rows[a]) && e.rows[a].raises == 1 && e.rows[a].outbox.attemptCount == 2
    ensures Reachable(stuck) && a in stuck.rows && Open(stuck.rows[a]) && stuck.rows[a].raises == 2
    ensures ProtocolDrain.Spent(stuck, a)
  {
    var q;
    q, a := QueueIsReached(start);
    FirstWaiting(q, a);
    var one := RaisingRound(q, a, 0);
    e := UnclearRound(one, a, 1);
    var two := RaisingRound(one, a, 1);
    stuck := UnclearRound(two, a, 2);
  }

  /** Three raised executions leave a row that is still authorized, open and out of budget. */
  lemma ThreeRaisesStrand(start: State) returns (e: State, a: nat)
    requires Start(start)
    ensures Reachable(e) && a in e.rows && Open(e.rows[a]) && ProtocolDrain.Spent(e, a) && Executable(e.rows[a].action.status)
  {
    var q;
    q, a := QueueIsReached(start);
    FirstWaiting(q, a);
    var one := RaisingRound(q, a, 0);
    var two := RaisingRound(one, a, 1);
    e := RaisingRound(two, a, 2);
  }

  /* ---- Payments ---- */

  // `m` is `q` with event `v` on file, and `e` is `m` with that payment credited to action `a`.
  ghost predicate Credited(q: State, m: State, e: State, v: nat, a: nat) {
    && a in q.rows && m == q.(events := m.events) && ProtocolWebhook.CreditsCase(m, v, q.rows[a].action.caseId)
    && e == CreditAction(m, v, q.rows[a].action.caseId, a, None)
  }

  ghost predicate PaidFrom(q: State, e: State, v: nat, a: nat) {
    exists m :: Credited(q, m, e, v, a)
  }

  lemma Accepts(s: State, v: nat, payload: Ingestion.Payload, tenant: nat) returns (e: State)
    requires Reachable(s) && v !in s.events
    ensures Reachable(e) && e == s.(events := s.events[v := Event(payload, Some(tenant), false, None)])
  {
    ReachesOn(s, Accept(v, payload, Some(tenant)));
    e := s.(events := s.events[v := Event(payload, Some(tenant), false, None)]);
  }

  lemma CaseOf(s: State, a: nat)
    requires Inv(s) && a in s.rows
    ensures s.rows[a].action.caseId in s.cases
  {
    assert RowOk(s, a, s.rows[a]);
    assert RowLinks(s, s.rows[a]);
  }

  // The webhook that names the action as paid is handled.
  lemma Handles(m: State, v: nat, c: nat, a: nat) returns (e: State)
    requires Reachable(m) && ProtocolClosing.Free(m, a) && m.rows[a].action.caseId == c && v in m.events && c in m.cases
    requires m.events[v] == Event(ProtocolClosing.Payment(c, a), Some(m.cases[c].tenant), false, None)
    ensures Reachable(e) && ProtocolWebhook.CreditsCase(m, v, c) && e == CreditAction(m, v, c, a, None)
  {
    ProtocolRuns.ReachableInv(m);
    ProtocolClosing.PaymentCredits(m, v, c, a);
    ReachesOn(m, Confirm(v, Ingestion.Lookup(None, Some(a)), None));
    e := CreditAction(m, v, c, a, None);
  }

  // It arrives and is handled.
  lemma Pays(q: State, a: nat) returns (e: State, v: nat)
    requires Reachable(q) && ProtocolClosing.Free(q, a)
    ensures Reachable(e) && v !in q.events
    ensures PaidFrom(q, e, v, a)
  {
    ProtocolRuns.ReachableInv(q);
    CaseOf(q, a);
    var c := q.rows[a].action.caseId;
    v := ProtocolClosing.FreshEvent(q.events);
    var m := Accepts(q, v, ProtocolClosing.Payment(c, a), q.cases[c].tenant);
    e := Handles(m, v, c, a);
    assert Credited(q, m, e, v, a);
  }

  lemma PaidIsClaimable(q: State, p: State, v: nat, a: nat)
    requires Queued(q, a) && PaidFrom(q, p, v, a)
    ensures CanClaim(p, 0, {a}) && CanExecute(DoClaim(p, 0, {a}, 30), 0, a)
    ensures p.rows[a].action.status == ActionStatus.SUCCEEDED
  {
  }

  /** An action is paid for by its customer before its row is executed: the row is claimed with its action
      SUCCEEDED, and its execution supersedes it. */
  lemma PaidBeforeDispatch(start: State) returns (e: State, a: nat)
    requires Start(start)
    ensures Reachable(e) && CanExecute(e, 0, a) && e.rows[a].action.status == ActionStatus.SUCCEEDED
    ensures Executed(e, 0, a, NOTHING).row.action.status == SUPERSEDED
  {
    var q;
    q, a := QueueIsReached(start);
    var p, v := Pays(q, a);
    PaidIsClaimable(q, p, v, a);
    ReachesOn(p, Claim(0, {a}, 30));
    e := DoClaim(p, 0, {a}, 30);
    ProtocolTheorems.PaidBeforeDispatchIsSuperseded(e, 0, a, NOTHING);
  }

  const REFUSED := NOTHING.(reply := Replies(LinkResult(Recovery.PROVIDER_FAILED, None, "", NOT_RETRIABLE, None, false)), saved := true)

  lemma RefusedRow(a: nat, row: Row, f: Facts)
    requires Authorized(a, row, f) && f.adapter && row.outbox.amount > 0 && row.recorded.None?
    requires row.outbox.attemptCount <= row.outbox.maxRetries
    ensures var p := Process(a, row, f, REFUSED);
      && p.kase == f.kase && p.row.action.caseId == row.action.caseId
      && p.row.recorded.Some? && p.row.recorded.value.outcome.status == Recovery.FAILED
  {
    CalledIffAuthorized(a, row, f, REFUSED);
  }

  lemma RefusedInHand(q: State, m: State, a: nat)
    requires Waiting(q, a, 0) && CanClaim(q, 0, {a}) && m == DoClaim(q, 0, {a}, 30)
    ensures CanExecute(m, 0, a)
    ensures var p := Executed(m, 0, a, REFUSED);
      && p.kase == Some(q.cases[a - 2]) && p.row.action.caseId == a - 2
      && p.row.recorded.Some? && p.row.recorded.value.outcome.status == Recovery.FAILED
  {
    InHandIsAuthorized(q, a, 0);
    InHandRuns(q, m, a, REFUSED);
    RefusedRow(a, InHandRow(q, a), InHandFacts(q, a));
  }

  lemma RefusedRound(q: State, a: nat) returns (r: State)
    requires Reachable(q) && Waiting(q, a, 0)
    ensures Reachable(r) && r.txns == map[] && a in r.rows && r.rows[a].action.caseId in r.cases
    ensures !Terminal(r.cases[r.rows[a].action.caseId].status)
    ensures r.rows[a].recorded.Some? && r.rows[a].recorded.value.outcome.status == Recovery.FAILED
  {
    var m, q' := ClaimsAgain(q, a, 0);
    RefusedInHand(q', m, a);
    r := ExecutesAndCommits(q', m, a, REFUSED);
  }

  /** A refused call files a failed outcome; the customer pays all the same, and the RECOVERED case keeps it. */
  lemma RecoveredWithFailedOutcome(start: State) returns (e: State, a: nat)
    requires Start(start)
    ensures Reachable(e) && a in e.rows && e.rows[a].action.caseId in e.cases
    ensures e.cases[e.rows[a].action.caseId].status == CaseStatus.RECOVERED
    ensures e.rows[a].recorded.Some? && e.rows[a].recorded.value.outcome.status == Recovery.FAILED
  {
    var q;
    q, a := QueueIsReached(start);
    FirstWaiting(q, a);
    var r := RefusedRound(q, a);
    var v;
    e, v := Pays(r, a);
    StaysFailed(r, e, v, a);
  }

  lemma StaysFailed(r: State, e: State, v: nat, a: nat)
    requires a in r.rows && r.rows[a].action.caseId in r.cases && !Terminal(r.cases[r.rows[a].action.caseId].status)
    requires r.rows[a].recorded.Some? && r.rows[a].recorded.value.outcome.status == Recovery.FAILED
    requires PaidFrom(r, e, v, a)
    ensures a in e.rows && e.rows[a].action.caseId in e.cases
    ensures e.cases[e.rows[a].action.caseId].status == CaseStatus.RECOVERED
    ensures e.rows[a].recorded.Some? && e.rows[a].recorded.value.outcome.status == Recovery.FAILED
  {
    var m :| Credited(r, m, e, v, a);
    var c := r.rows[a].action.caseId;
    Ingestion.WebhookFilesTruth(r.rows[a].recorded, m.events[v].payload, v, c, m.events[v].tenant.value, m.cases[c],
                                Ref(a, m.rows[a].action), Lookup(m.categories, c), m.now, m.window, None);
    TransitionsMoveForward(m.cases[c], CaseStatus.RECOVERED, None);
  }

  /* ---- Two confirmations of one payment ---- */

  const HOPELESS_CASE := Intake(0, B2C, 50000, NON_RETRIABLE, None, STOP_RECOVERY)

  function OrderPaid(c: nat): Ingestion.Payload {
    Ingestion.Payload("order.paid", "captured", "", "paid", Some(c), None, Some("pay_1"), 50000, None)
  }

  function PaymentCaptured(c: nat): Ingestion.Payload {
    Ingestion.Payload("payment.captured", "captured", "", "", Some(c), None, Some("pay_1"), 50000, None)
  }

  lemma BothConfirm(c: nat)
    ensures Ingestion.IsConfirmed(OrderPaid(c)) && Ingestion.IsConfirmed(PaymentCaptured(c))
    ensures ProtocolRepeats.SamePayment(OrderPaid(c), PaymentCaptured(c))
  {
    Text.LowerKeeps("paid");
    Text.LowerKeeps("captured");
  }

  lemma CaseIsReached(start: State) returns (s: State, c: nat)
    requires Start(start)
    ensures Reachable(s) && s.rows == map[] && s.txns == map[] && s.events == map[]
    ensures c in s.cases && s.cases[c].tenant == 0 && s.cases[c].amount == 50000
  {
    c := start.nextId;
    ReachableStart(start);
    ReachesOn(start, Decide(HOPELESS_CASE, false, NOTHING, false, false));
    s := DoDecide(start, HOPELESS_CASE, false, NOTHING, false, false);
  }

  // The two events are on file for a case without actions.
  lemma TwoEvents(start: State) returns (s: State, c: nat)
    requires Start(start)
    ensures Reachable(s) && s.rows == map[] && s.txns == map[] && c in s.cases && s.cases[c].tenant == 0 && s.cases[c].amount == 50000
    ensures s.events == map[0 := Event(OrderPaid(c), Some(0), false, None), 1 := Event(PaymentCaptured(c), Some(0), false, None)]
  {
    s, c := CaseIsReached(start);
    s := Accepts(s, 0, OrderPaid(c), 0);
    s := Accepts(s, 1, PaymentCaptured(c), 0);
  }

  lemma ReachableStart(s: State)
    requires Initial(s)
    ensures Reachable(s)
  {
    ProtocolDrain.LeadsHere(s);
    IsReachable(s, s);
  }

  lemma ConfirmsAlone(s: State, e: nat, c: nat)
    requires s.rows == map[] && s.txns == map[] && e in s.events && !s.events[e].processed && s.events[e].tenant == Some(0)
    requires s.events[e].payload == OrderPaid(c) || s.events[e].payload == PaymentCaptured(c)
    requires c in s.cases && s.cases[c].tenant == 0
    ensures ProtocolRepeats.Confirms(s, e, Ingestion.Lookup(None, None), c)
    ensures DoConfirm(s, e, Ingestion.Lookup(None, None), None) == CreditOrganic(s, e, c, None)
  {
    BothConfirm(c);
  }

  /** One payment of a case without actions is confirmed by two events, and the books say twice its amount. */
  lemma OnePaymentCountedTwice(start: State) returns (e: State, c: nat)
    requires Start(start)
    ensures Reachable(e) && c in e.cases && e.cases[c].amount == 50000 && ProtocolRepeats.NoAction(e, c)
    ensures forall v | v == 0 || v == 1 ::
              && v in e.events && e.events[v].payload.resourceId == Some("pay_1")
              && ProtocolRevenue.IsRecovered(e, Recovery.ByEvent(v))
              && ProtocolRevenue.OutcomeAt(e, Recovery.ByEvent(v)).caseId == c
              && ProtocolRevenue.OutcomeAt(e, Recovery.ByEvent(v)).amount == 50000
  {
    var s;
    s, c := TwoEvents(start);
    ConfirmsAlone(s, 0, c);
    var s1 := Confirmed(s, 0, c);
    ConfirmsAlone(s1, 1, c);
    e := Confirmed(s1, 1, c);
    BothFiled(s, s1, e, c);
  }

  lemma BothFiled(s: State, s1: State, e: State, c: nat)
    requires ProtocolWebhook.CreditsCase(s, 0, c) && s.events[0].payload.amount == 50000 && s1 == CreditOrganic(s, 0, c, None)
    requires ProtocolWebhook.CreditsCase(s1, 1, c) && s1.events[1].payload.amount == 50000 && e == CreditOrganic(s1, 1, c, None)
    ensures forall v | v == 0 || v == 1 ::
              && v in e.events && v in s.events && e.events[v].payload == s.events[v].payload
              && ProtocolRevenue.IsRecovered(e, Recovery.ByEvent(v))
              && ProtocolRevenue.OutcomeAt(e, Recovery.ByEvent(v)).caseId == c
              && ProtocolRevenue.OutcomeAt(e, Recovery.ByEvent(v)).amount == 50000
  {
    Filed(s, 0, c);
    Filed(s1, 1, c);
  }

  lemma Confirmed(s: State, e: nat, c: nat) returns (s': State)
    requires Reachable(s) && ProtocolRepeats.Confirms(s, e, Ingestion.Lookup(None, None), c)
    requires ProtocolWebhook.CreditsCase(s, e, c)
    requires DoConfirm(s, e, Ingestion.Lookup(None, None), None) == CreditOrganic(s, e, c, None)
    ensures Reachable(s') && s' == CreditOrganic(s, e, c, None)
  {
    ReachesOn(s, Confirm(e, Ingestion.Lookup(None, None), None));
    s' := CreditOrganic(s, e, c, None);
  }

  lemma Filed(s: State, e: nat, c: nat)
    requires ProtocolWebhook.CreditsCase(s, e, c) && s.events[e].payload.amount == 50000
    ensures var s' := CreditOrganic(s, e, c, None);
      && ProtocolRevenue.IsRecovered(s', Recovery.ByEvent(e))
      && ProtocolRevenue.OutcomeAt(s', Recovery.ByEvent(e)).caseId == c
      && ProtocolRevenue.OutcomeAt(s', Recovery.ByEvent(e)).amount == 50000
  {
    Ingestion.WebhookFilesTruth(None, s.events[e].payload, e, c, s.events[e].tenant.value, s.cases[c], None,
                                Lookup(s.categories, c), s.now, s.window, None);
  }

  /* ---- Two links for one case ---- */

  const LATER := Intake(0, B2C, 50000, TRANSIENT_TECHNICAL, None, RETRY_LATER)

  const LINKED := NOTHING.(reply := Replies(LinkResult(Recovery.PROVIDER_SUCCEEDED, Some("plink"), "created", NOT_RETRIABLE, None, true)))

  // A case with an approved retry and no payment link yet.
  ghost predicate ReadyForGateway(s: State, c: nat) {
    && CanGateway(s, c, c + 1) && s.cases[c].tenant == 0 && 0 in s.tenants && s.decisions[c + 1].tenant == 0
    && s.decisions[c + 1].autonomy == FULL_AUTO && c < s.nextId
    && forall a | a in s.rows :: a < s.nextId && s.rows[a].action.kind == RETRY_LATER
  }

  lemma DecidedForGateway(start: State, s: State)
    requires Start(start) && s == DoDecide(start, LATER, false, NOTHING, false, false)
    ensures ReadyForGateway(s, start.nextId) && s.links == [] && s.calls == []
  {
  }

  lemma GatewayIsReached(start: State) returns (s: State, c: nat)
    requires Start(start)
    ensures Reachable(s) && ReadyForGateway(s, c) && s.links == [] && s.calls == []
  {
    c := start.nextId;
    ReachableStart(start);
    ReachesOn(start, Decide(LATER, false, NOTHING, false, false));
    s := DoDecide(start, LATER, false, NOTHING, false, false);
    DecidedForGateway(start, s);
  }

  lemma GatewayCalls(s: State, c: nat)
    requires ReadyForGateway(s, c)
    ensures var p := GatewayRun(s, c, c + 1, 50000, LINKED); p.called && !p.raised
  {
    Policy.LinkApprovedIffNotPayroll(s.cases[c].domain, Category(GatewayFacts(s, c, c + 1, 50000)), None);
    CalledIffAuthorized(s.nextId, GatewayRow(s, c, c + 1, 50000), GatewayFacts(s, c, c + 1, 50000), LINKED);
  }

  lemma Linked(s: State, c: nat, lost: bool) returns (e: State)
    requires Reachable(s) && CanGateway(s, c, c + 1)
    ensures Reachable(e) && e == DoGateway(s, c, c + 1, 50000, LINKED, false, lost)
  {
    ReachesOn(s, Gateway(c, c + 1, 50000, LINKED, false, lost));
    e := DoGateway(s, c, c + 1, 50000, LINKED, false, lost);
  }

  lemma LostLink(s: State, e: State, c: nat)
    requires ReadyForGateway(s, c) && s.links == [] && e == DoGateway(s, c, c + 1, 50000, LINKED, false, true)
    ensures ReadyForGateway(e, c) && e.links == [Link(IdempotencyKey(s.nextId), c)] && e.nextId == s.nextId + 1
    ensures s.nextId !in e.rows
  {
    GatewayCalls(s, c);
  }

  lemma LostGateway(s: State, c: nat) returns (e: State)
    requires Reachable(s) && ReadyForGateway(s, c) && s.links == []
    ensures Reachable(e) && ReadyForGateway(e, c) && e.links == [Link(IdempotencyKey(s.nextId), c)] && e.nextId == s.nextId + 1
    ensures s.nextId !in e.rows
  {
    e := Linked(s, c, true);
    LostLink(s, e, c);
  }

  lemma SecondLink(s: State, e: State, c: nat)
    requires ReadyForGateway(s, c) && s.links == [Link(IdempotencyKey(s.nextId - 1), c)] && s.nextId >= 1
    requires e == DoGateway(s, c, c + 1, 50000, LINKED, false, false)
    ensures e.links == s.links + [Link(IdempotencyKey(s.nextId), c)] && c in e.cases
    ensures s.nextId in e.rows && (s.nextId - 1 in e.rows ==> s.nextId - 1 in s.rows)
  {
    GatewayCalls(s, c);
    assert forall l | l in s.links :: l.key != IdempotencyKey(s.nextId);
  }

  lemma GatewayLinks(s: State, c: nat) returns (e: State)
    requires Reachable(s) && ReadyForGateway(s, c) && s.links == [Link(IdempotencyKey(s.nextId - 1), c)] && s.nextId >= 1
    ensures Reachable(e) && e.links == s.links + [Link(IdempotencyKey(s.nextId), c)] && c in e.cases
    ensures s.nextId in e.rows && (s.nextId - 1 in e.rows ==> s.nextId - 1 in s.rows)
  {
    e := Linked(s, c, false);
    SecondLink(s, e, c);
  }

  /** A gateway call whose transaction is lost leaves a link at the provider; the next one, under a new action
      and key, makes a second one for the same case: one on file and one off, as `LinksOfACase` allows. */
  lemma TwoLinksForOneCase(start: State) returns (e: State, c: nat)
    requires Start(start)
    ensures Reachable(e) && |e.links| == 2 && e.links[0].caseId == e.links[1].caseId == c && c in e.cases
    ensures e.links[0].key != e.links[1].key
    ensures e.links[0].key.action !in e.rows && e.links[1].key.action in e.rows
  {
    var s;
    s, c := GatewayIsReached(start);
    var m := LostGateway(s, c);
    e := GatewayLinks(m, c);
  }
}
