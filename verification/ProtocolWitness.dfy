/** The guarantees are about something: a run in which a worker crashes after its call, another repeats the
    call and the payment is recovered. */
module ProtocolWitness {
  import opened Domain
  import opened Execution
  import opened ExecutionLaws
  import opened Protocol
  import opened ProtocolDrain
  import Policy
  import Recovery

  const FAILURE := Intake(0, B2C, 50000, CUSTOMER_ACTION_REQUIRED, None, GENERATE_PAYMENT_LINK)

  const NOTHING := Env(Raises, FetchRaises, false, None)

  const PAID := NOTHING.(reply := Replies(LinkResult(Recovery.PROVIDER_SUCCEEDED, Some("plink"), "paid", NOT_RETRIABLE, Some(50000), true)),
                         saved := true)

  predicate Start(s: State) {
    Initial(s) && 0 in s.tenants && s.enabled && s.window >= 0
  }

  // A queue with the one action `a` of case `a - 2`, not yet executed.
  ghost predicate Queued(s: State, a: nat) {
    && a >= 2 && s.txns == map[] && 0 in s.tenants && s.enabled && s.window >= 0
    && a in s.rows && a - 2 in s.cases && a - 1 in s.decisions && a - 2 in s.categories
    && s.rows[a] == NewRow(a - 2, 0, a - 1, GENERATE_PAYMENT_LINK, 50000, s.now)
    && s.cases[a - 2] == DecidedCase(FAILURE) && s.categories[a - 2] == CUSTOMER_ACTION_REQUIRED
    && s.decisions[a - 1] == Decision(a - 2, 0, GENERATE_PAYMENT_LINK, APPROVED, FULL_AUTO)
  }

  lemma Decides(s: State) returns (e: State)
    requires Start(s)
    ensures Leads(s, e) && Queued(e, s.nextId + 2) && e.calls == [] && e.links == [] && e.undone == {}
  {
    LeadsHere(s);
    LeadsOn(s, s, Decide(FAILURE, false, NOTHING, false, false));
    e := Apply(s, Decide(FAILURE, false, NOTHING, false, false));
  }

  lemma Claims(s: State, q: State, w: nat, a: nat) returns (e: State)
    requires Leads(s, q) && Queued(q, a)
    ensures CanClaim(q, w, {a}) && e == DoClaim(q, w, {a}, 30) && Leads(s, e)
  {
    LeadsOn(s, q, Claim(w, {a}, 30));
    e := DoClaim(q, w, {a}, 30);
  }

  lemma IsAuthorized(q: State, w: nat, a: nat)
    requires Queued(q, a) && CanClaim(q, w, {a})
    ensures var s := DoClaim(q, w, {a}, 30);
      CanExecute(s, w, a) &&
      var row, f := RowSeen(s, w, a), FactsFor(s, RowSeen(s, w, a).action, CaseSeen(s, w, a - 2), true);
      && row.action.caseId == a - 2 && f.kase == Some(q.cases[a - 2]) && f.now == q.now && f.window == q.window
      && Authorized(a, row, f) && f.adapter && row.outbox.amount == 50000 && row.recorded.None?
      && row.outbox.attemptCount == 1 && row.outbox.maxRetries == 3 && Open(row) && row.attempts == map[]
      && row.action.createdAt == q.now
  {
    Policy.LinkApprovedIffNotPayroll(B2C, CUSTOMER_ACTION_REQUIRED, None);
  }

  // The worker calls, a link comes into being, and the worker crashes before it learns of it.
  lemma CallsAndCrashes(s: State, q: State, w: nat, a: nat) returns (e: State)
    requires Leads(s, q) && Queued(q, a) && q.calls == [] && q.links == [] && q.undone == {}
    ensures Leads(s, e) && Queued(e, a) && e == q.(calls := e.calls, links := e.links, undone := {0})
    ensures |e.calls| == 1 && e.calls[0].action == a && e.links == [Link(IdempotencyKey(a), a - 2)]
  {
    var m := Claims(s, q, w, a);
    var x := RaisesInHand(s, q, m, w, a);
    LeadsOn(s, x, Crash(w));
    e := DoCrash(x, w);
    assert e.txns == map[];
  }

  lemma RaisesInHand(s: State, q: State, m: State, w: nat, a: nat) returns (x: State)
    requires Leads(s, m) && Queued(q, a) && q.calls == [] && q.links == [] && q.undone == {}
    requires CanClaim(q, w, {a}) && m == DoClaim(q, w, {a}, 30)
    ensures Leads(s, x) && w in x.txns && x.txns.Keys == {w} && x.txns[w].calls == {0} && x.undone == {0}
    ensures |x.calls| == 1 && x.calls[0].action == a && x.links == [Link(IdempotencyKey(a), a - 2)]
    ensures x == q.(txns := x.txns, calls := x.calls, links := x.links, undone := x.undone)
  {
    IsAuthorized(q, w, a);
    var row, f := RowSeen(m, w, a), FactsFor(m, RowSeen(m, w, a).action, CaseSeen(m, w, a - 2), true);
    WhatACallDecides(a, row, f, NOTHING);
    LeadsOn(s, m, Execute(w, a, NOTHING, true));
    x := DoExecute(m, w, a, NOTHING, true);
    ExecuteForm(m, w, a, NOTHING, true);
    Undone(q, m, x, w, a, Executed(m, w, a, NOTHING));
  }

  // `x` is what executing row `a` with a call and result `p` makes of `m`.
  ghost predicate Called(m: State, x: State, w: nat, a: nat, p: Execution.Processed, linked: bool) {
    && w in m.txns && a in m.txns[w].claimed && a in m.rows && p.kase.Some?
    && x == m.(txns := x.txns, calls := x.calls, undone := x.undone, links := x.links)
    && x.txns == m.txns[w := Txn(m.txns[w].claimed - {a}, m.txns[w].rows[a := p.row],
                                 m.txns[w].cases[m.rows[a].action.caseId := p.kase.value], m.txns[w].calls + {|m.calls|})]
    && |x.calls| == |m.calls| + 1 && m.calls <= x.calls && x.calls[|m.calls|].action == a
    && x.undone == (if p.raised then m.undone + {|m.calls|} else m.undone)
    && (linked ==> x.links == AddLink(m.links, IdempotencyKey(a), m.rows[a].action.caseId))
  }

  lemma ExecuteForm(m: State, w: nat, a: nat, env: Env, created: bool)
    requires CanExecute(m, w, a) && Executed(m, w, a, env).called && Executed(m, w, a, env).kase.Some?
    ensures Called(m, DoExecute(m, w, a, env, created), w, a, Executed(m, w, a, env),
                   created || (env.reply.Replies? && env.reply.result.status == Recovery.PROVIDER_SUCCEEDED))
  {
  }

  lemma Undone(q: State, m: State, x: State, w: nat, a: nat, p: Execution.Processed)
    requires Queued(q, a) && q.calls == [] && q.links == [] && q.undone == {} && CanClaim(q, w, {a})
    requires m == DoClaim(q, w, {a}, 30) && Called(m, x, w, a, p, true) && p.raised
    ensures w in x.txns && x.txns.Keys == {w} && x.txns[w].calls == {0} && x.undone == {0}
    ensures |x.calls| == 1 && x.calls[0].action == a && x.links == [Link(IdempotencyKey(a), a - 2)]
    ensures x == q.(txns := x.txns, calls := x.calls, links := x.links, undone := x.undone)
  {
  }

  /** There is a reachable state with two calls for one action, the first undone, one link, a case recovered
      by that action's second attempt, and its recovered outcome attributed to the action. */
  lemma RecoveryAfterCrash(start: State) returns (e: State, a: nat)
    requires Start(start)
    ensures Reachable(e) && a in e.rows && e.rows[a].action.caseId in e.cases
    ensures |e.calls| == 2 && e.calls[0].action == e.calls[1].action == a && e.undone == {0} && |e.links| == 1
    ensures e.cases[e.rows[a].action.caseId].status == CaseStatus.RECOVERED
    ensures e.rows[a].recorded.Some? && e.rows[a].recorded.value.outcome.status == Recovery.RECOVERED
    ensures e.rows[a].recorded.value.outcome.source == Recovery.ACTION_ATTRIBUTED
  {
    a := start.nextId + 2;
    var q := Decides(start);
    var r := CallsAndCrashes(start, q, 0, a);
    e := CallsAndRecovers(start, r, 1, a);
    IsReachable(start, e);
  }

  lemma IsReachable(s: State, e: State)
    requires Initial(s) && Leads(s, e)
    ensures Reachable(e)
  {
    var run, labels :| IsPath(run, labels) && run[0] == s && run[|labels|] == e;
    assert IsRun(run, labels);
  }

  lemma PaidResult(a: nat, row: Row, f: Facts)
    requires Authorized(a, row, f) && f.adapter && row.outbox.amount == 50000 && row.recorded.None?
    requires row.outbox.attemptCount <= row.outbox.maxRetries && f.kase.value.amount == 50000
    requires row.action.createdAt == f.now && f.window >= 0
    ensures var p := Process(a, row, f, PAID);
      && p.called && !p.raised && p.kase.Some? && p.kase.value.status == CaseStatus.RECOVERED
      && p.row.action.caseId == row.action.caseId
      && p.row.recorded.Some? && p.row.recorded.value.outcome.status == Recovery.RECOVERED
      && p.row.recorded.value.outcome.source == Recovery.ACTION_ATTRIBUTED
  {
    CalledIffAuthorized(a, row, f, PAID);
    TransitionsMoveForward(f.kase.value, CaseStatus.RECOVERED, None);
  }

  lemma CallsAndRecovers(s: State, q: State, w: nat, a: nat) returns (e: State)
    requires Leads(s, q) && Queued(q, a) && |q.calls| == 1 && q.calls[0].action == a && q.undone == {0}
    requires q.links == [Link(IdempotencyKey(a), a - 2)]
    ensures Leads(s, e) && a in e.rows && e.rows[a].action.caseId == a - 2 && a - 2 in e.cases
    ensures |e.calls| == 2 && e.calls[0].action == e.calls[1].action == a && e.undone == {0} && e.links == q.links
    ensures e.cases[a - 2].status == CaseStatus.RECOVERED
    ensures e.rows[a].recorded.Some? && e.rows[a].recorded.value.outcome.status == Recovery.RECOVERED
    ensures e.rows[a].recorded.value.outcome.source == Recovery.ACTION_ATTRIBUTED
  {
    var m := Claims(s, q, w, a);
    IsAuthorized(q, w, a);
    var row, f := RowSeen(m, w, a), FactsFor(m, RowSeen(m, w, a).action, CaseSeen(m, w, a - 2), true);
    PaidResult(a, row, f);
    LeadsOn(s, m, Execute(w, a, PAID, false));
    var x := DoExecute(m, w, a, PAID, false);
    ExecuteForm(m, w, a, PAID, false);
    Paid(q, m, x, w, a, Executed(m, w, a, PAID));
    e := CommitsPaid(s, x, w, a, Executed(m, w, a, PAID));
  }

  lemma CommitsPaid(s: State, x: State, w: nat, a: nat, p: Execution.Processed) returns (e: State)
    requires Leads(s, x) && CanCommit(x, w) && p.kase.Some? && a >= 2
    requires x.txns[w].rows == map[a := p.row] && x.txns[w].cases == map[a - 2 := p.kase.value]
    ensures Leads(s, e) && a in e.rows && e.rows[a] == p.row && a - 2 in e.cases && e.cases[a - 2] == p.kase.value
    ensures e.calls == x.calls && e.undone == x.undone && e.links == x.links
  {
    LeadsOn(s, x, Commit(w));
    e := DoCommit(x, w);
  }

  lemma Paid(q: State, m: State, x: State, w: nat, a: nat, p: Execution.Processed)
    requires Queued(q, a) && |q.calls| == 1 && q.calls[0].action == a && q.undone == {0}
    requires q.links == [Link(IdempotencyKey(a), a - 2)] && CanClaim(q, w, {a})
    requires m == DoClaim(q, w, {a}, 30) && Called(m, x, w, a, p, true) && !p.raised
    ensures CanCommit(x, w) && x.txns[w].rows == map[a := p.row] && x.txns[w].cases == map[a - 2 := p.kase.value]
    ensures |x.calls| == 2 && x.calls[0] == q.calls[0] && x.calls[1].action == a && x.undone == {0} && x.links == q.links
  {
    assert q.links[0] in q.links;
  }
}
