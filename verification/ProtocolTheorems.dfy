/** What the protocol guarantees in every reachable state, whatever the workers, the crashes, the
    provider and the webhooks do. */
module ProtocolTheorems {
  import opened Domain
  import opened Execution
  import opened ExecutionLaws
  import opened Protocol
  import opened ProtocolInvariant
  import ProtocolRuns
  import Policy

  /** Mutual exclusion: an action is claimed or executed in at most one in-flight transaction, and a
      case is written in at most one. */
  lemma LocksAreExclusive(s: State, v: nat, w: nat, a: nat)
    requires Reachable(s) && v in s.txns && w in s.txns
    requires a in s.txns[v].claimed || a in s.txns[v].rows
    requires a in s.txns[w].claimed || a in s.txns[w].rows
    ensures v == w
    ensures !(a in s.txns[v].claimed && a in s.txns[v].rows)
  {
    ProtocolRuns.ReachableInv(s);
    assert v != w ==> Disjoint(s.txns[v], s.txns[w]);
    assert TxnOk(s, s.txns[v]);
  }

  /** Every link-creation call ever made was legitimate when it was made, and used the key of its own
      action: approved decision, one tenant throughout, open case outside payroll, switch on, policy
      approved. */
  lemma EveryCallAuthorized(s: State, i: nat)
    requires Reachable(s) && i < |s.calls|
    ensures var c := s.calls[i];
      && c.key == IdempotencyKey(c.action)
      && c.row.action.kind == GENERATE_PAYMENT_LINK
      && c.facts.decision.Some? && c.facts.decision.value.policy == APPROVED
      && c.facts.kase.Some? && !Terminal(c.facts.kase.value.status) && c.facts.kase.value.domain != EMPLOYEE
      && c.facts.tenant.Some?
      && c.row.action.tenant == c.facts.kase.value.tenant == c.facts.decision.value.tenant == c.facts.tenant.value
      && c.facts.enabled
      && Policy.Evaluate(GENERATE_PAYMENT_LINK, c.facts.kase.value.domain, Category(c.facts), None).0 == APPROVED
      && !HasSucceeded(c.row.attempts)
  {
    ProtocolRuns.ReachableInv(s);
    assert s.calls[i] in s.calls;
  }

  /** At most one provider link per action. The provider keeps one link per key, and every call for an
      action uses the action's own key; that calls are not repeated at will is `RepeatOnlyAfterUndone`. */
  lemma OneLinkPerAction(s: State, i: nat, j: nat)
    requires Reachable(s) && i < |s.links| && j < |s.links|
    requires s.links[i].key.action == s.links[j].key.action
    ensures i == j
  {
    ProtocolRuns.ReachableInv(s);
    assert Backed(s.calls, s.links[i]) by { assert s.links[i] in s.links; }
    assert Backed(s.calls, s.links[j]) by { assert s.links[j] in s.links; }
  }

  /** A second call for an action follows only a call that raised or was rolled back, and repeats its
      key. */
  lemma RepeatOnlyAfterUndone(s: State, i: nat, j: nat)
    requires Reachable(s) && i < j < |s.calls| && s.calls[i].action == s.calls[j].action
    ensures i in s.undone && s.calls[i].key == s.calls[j].key
  {
    ProtocolRuns.ReachableInv(s);
    assert s.calls[i] in s.calls && s.calls[j] in s.calls;
  }

  /** Committed attempts: every number is within the budget; at most one attempt is finished, it is the
      last one, and with it the action has left the executable statuses for good. */
  lemma AttemptsOfAnAction(s: State, a: nat)
    requires Reachable(s) && a in s.rows
    ensures forall m | m in s.rows[a].attempts :: m <= MAX_RETRIES
    ensures forall m, n | m in s.rows[a].attempts && n in s.rows[a].attempts && Finished(s.rows[a].attempts[n].status) ::
              m <= n && (Finished(s.rows[a].attempts[m].status) ==> m == n)
    ensures (exists n | n in s.rows[a].attempts :: Finished(s.rows[a].attempts[n].status)) ==>
              !Executable(s.rows[a].action.status)
  {
    ProtocolRuns.ReachableInv(s);
    assert RowOk(s, a, s.rows[a]);
  }

  /** Over a run: a finished attempt stays on file unchanged, stays the only finished one and the last
      one, and its action is never executable again. */
  lemma FinishedForGood(run: seq<State>, labels: seq<Label>, i: nat, j: nat, a: nat, n: nat)
    requires IsRun(run, labels) && i <= j <= |labels|
    requires a in run[i].rows && n in run[i].rows[a].attempts && Finished(run[i].rows[a].attempts[n].status)
    ensures a in run[j].rows && n in run[j].rows[a].attempts
    ensures run[j].rows[a].attempts[n] == run[i].rows[a].attempts[n]
    ensures forall m | m in run[j].rows[a].attempts && m != n :: m < n && !Finished(run[j].rows[a].attempts[m].status)
    ensures !Executable(run[j].rows[a].action.status)
  {
    ProtocolRuns.RunGrows(run, labels, i, j);
    ProtocolRuns.RunInv(run, labels, j);
    assert RowGrows(run[i].rows[a], run[j].rows[a]);
    assert RowOk(run[j], a, run[j].rows[a]);
  }

  /** An outbox row says COMPLETED exactly when an attempt of its action succeeded: nothing that was refused,
      skipped or left unclear is ever booked as done. */
  lemma CompletedIffSucceeded(s: State, a: nat)
    requires Reachable(s) && a in s.rows
    ensures s.rows[a].outbox.status == COMPLETED <==>
            exists n | n in s.rows[a].attempts :: s.rows[a].attempts[n].status == AttemptStatus.SUCCEEDED
  {
    ProtocolRuns.ReachableInv(s);
    assert RowOk(s, a, s.rows[a]);
  }

  /* ---- The preflight gate in reachable states ---- */

  /** The gate with the checks that can still fail once creation, locking and the case life cycle have
      done their part: terminal case, action no longer executable, a policy that changed its mind after a
      reclassification, the kill switch, and an action kind nobody executes. */
  function Gate(row: Row, f: Facts, reclassified: bool): Verdict
    requires f.kase.Some?
  {
    if Terminal(f.kase.value.status) then Verdict(false, 6, SUPERSEDED)
    else if !Executable(row.action.status) then Verdict(false, 7, SUPERSEDED)
    else if reclassified && Policy.Evaluate(row.action.kind, f.kase.value.domain, Category(f), None).0 != APPROVED then
      Verdict(false, 10, CANCELLED)
    else if !f.enabled then Verdict(false, 14, CANCELLED)
    else if row.action.kind != GENERATE_PAYMENT_LINK || !f.adapter then Verdict(false, 16, CANCELLED)
    else Verdict(true, 0, row.action.status)
  }

  function FactsSeen(s: State, w: nat, a: nat): Facts
    requires CanExecute(s, w, a)
  {
    FactsFor(s, s.rows[a].action, CaseSeen(s, w, s.rows[a].action.caseId), true)
  }

  lemma SeenLinks(s: State, w: nat, a: nat)
    requires Inv(s) && CanExecute(s, w, a)
    ensures var row, f := RowSeen(s, w, a), FactsSeen(s, w, a);
      && RowLinks(s, row) && Ready(row) && ClaimedOk(row)
      && f.kase.Some? && CaseGrows(s.cases[row.action.caseId], f.kase.value)
  {
    assert RowOk(s, a, s.rows[a]) && TxnOk(s, s.txns[w]);
    assert RowLinks(s, s.rows[a]);
  }

  lemma GateSuffices(s: State, row: Row, f: Facts, kase: Case)
    requires RowLinks(s, row) && Ready(row) && row.outbox.attemptCount <= row.outbox.maxRetries
    requires CaseGrows(s.cases[row.action.caseId], kase)
    requires f == FactsFor(s, row.action, Some(kase), true)
    ensures Validate(row, f) == Gate(row, f, row.action.caseId in s.reclassified)
  {
    if Executable(row.action.status) {
      assert !HasSucceeded(row.attempts);
    }
  }

  /** In every reachable state the sixteen checks decide exactly as that gate does: checks 2 to 5, 8, 9,
      11, 12, 13 and 15 never decide, and check 10 does only for a case reclassified since the decision. */
  lemma PreflightIsTheGate(s: State, w: nat, a: nat)
    requires Reachable(s) && CanExecute(s, w, a)
    ensures var row, f := RowSeen(s, w, a), FactsSeen(s, w, a);
      f.kase.Some? && Validate(row, f) == Gate(row, f, row.action.caseId in s.reclassified)
  {
    ProtocolRuns.ReachableInv(s);
    SeenLinks(s, w, a);
    GateSuffices(s, RowSeen(s, w, a), FactsSeen(s, w, a), FactsSeen(s, w, a).kase.value);
  }

  /** The same holds of the gateway's immediate execution, where moreover all checks pass: what could still
      fail the gateway has ruled out itself. */
  lemma PreflightAtGateway(s: State, c: nat, d: nat, amount: int)
    requires Reachable(s) && CanGateway(s, c, d)
    ensures var row, f := GatewayRow(s, c, d, amount), GatewayFacts(s, c, d, amount);
      Validate(row, f) == Gate(row, f, c in s.reclassified) && Validate(row, f).ok
  {
    ProtocolRuns.ReachableInv(s);
    Policy.LinkApprovedIffNotPayroll(s.cases[c].domain, Category(GatewayFacts(s, c, d, amount)), None);
    assert s.decisions[d].caseId in s.cases;
  }

  /** And of the decision engine's, where the new case is open and classified: only the kill switch and the
      kind of action can stop it. */
  lemma PreflightAtDecision(s: State, i: Intake)
    requires Reachable(s) && CanDecide(s, i) && Acts(i)
    ensures var row, f := DecidedRow(s, i), DecidedFacts(s, i);
      Validate(row, f) == Gate(row, f, false)
      && (Validate(row, f).ok <==> s.enabled && i.choice == GENERATE_PAYMENT_LINK)
  {
    Policy.HealthOnlyRestricts(i.choice, i.domain, i.category, i.health);
  }

  /** When the two services that execute at once call the provider: the engine for an enabled payment link of no
      negative amount, where none counts as a hundred; the gateway for a positive amount. */
  lemma ServicesCallIff(s: State, i: Intake, c: nat, d: nat, amount: int, env: Env)
    requires Reachable(s)
    ensures CanDecide(s, i) && Acts(i) ==>
      && (DecidedRun(s, i, env).called <==> s.enabled && i.choice == GENERATE_PAYMENT_LINK && i.amount >= 0)
      && DecidedRow(s, i).outbox.amount == (if i.amount == 0 then 10000 else i.amount)
    ensures CanGateway(s, c, d) ==> (GatewayRun(s, c, d, amount, env).called <==> amount > 0)
  {
    if CanDecide(s, i) && Acts(i) { EngineCallsIff(s, i, env); }
    if CanGateway(s, c, d) { GatewayCallsIff(s, c, d, amount, env); }
  }

  lemma EngineCallsIff(s: State, i: Intake, env: Env)
    requires Reachable(s) && CanDecide(s, i) && Acts(i)
    ensures DecidedRun(s, i, env).called <==> s.enabled && i.choice == GENERATE_PAYMENT_LINK && i.amount >= 0
  {
    PreflightAtDecision(s, i);
  }

  lemma GatewayCallsIff(s: State, c: nat, d: nat, amount: int, env: Env)
    requires Reachable(s) && CanGateway(s, c, d)
    ensures GatewayRun(s, c, d, amount, env).called <==> amount > 0
  {
    PreflightAtGateway(s, c, d, amount);
  }

  /** A case whose link the provider reported open takes no second one from the gateway: whichever decision it
      names, the call is refused while the case waits. */
  lemma WaitingCaseTakesNoSecondLink(s: State, c: nat, d: nat, amount: int, env: Env, created: bool, again: nat)
    requires Reachable(s) && CanGateway(s, c, d) && amount > 0 && ReportedOpen(env)
    ensures !CanGateway(DoGateway(s, c, d, amount, env, created, false), c, again)
  {
    PreflightAtGateway(s, c, d, amount);
    OpenLinkWaits(s.nextId, GatewayRow(s, c, d, amount), GatewayFacts(s, c, d, amount), env);
  }

  lemma OpenLinkWaits(id: nat, row: Row, f: Facts, env: Env)
    requires Validate(row, f).ok && row.outbox.amount > 0 && ReportedOpen(env)
    ensures var p := Process(id, row, f, env); !p.raised && p.kase.Some? && p.kase.value.stage == WAITING_FOR_PAYMENT
  {
  }

  /** SUCCEEDED is not final: an action a webhook marked as paid while its row was still open ends
      SUPERSEDED, with its row FAILED, when that row is executed. */
  lemma PaidBeforeDispatchIsSuperseded(s: State, w: nat, a: nat, env: Env)
    requires Reachable(s) && CanExecute(s, w, a) && s.rows[a].action.status == ActionStatus.SUCCEEDED
    ensures var p := Executed(s, w, a, env);
      p.row.action.status == SUPERSEDED && p.row.outbox.status == OutboxStatus.FAILED && !p.called
  {
    PreflightIsTheGate(s, w, a);
  }

  /** The case a decision leaves went through the state machine: from open to assessed, and on to pending approval
      exactly when the policy wants a human. */
  lemma DecisionFollowsTheLifeCycle(i: Intake)
    ensures var open := Case(i.tenant, i.domain, OPEN, 1, i.amount, NO_STAGE, false, None);
      var assessed := TransitionTo(open, RISK_ASSESSED, None);
      && assessed.Some?
      && var pending := TransitionTo(assessed.value, PENDING_APPROVAL, None);
      && pending.Some?
      && DecidedCase(i) == if i.domain == B2B && (i.choice == RETRY_NOW || i.choice == RETRY_LATER) && i.category != NON_RETRIABLE
                           then pending.value else assessed.value
  {
    Policy.AutonomyFollowsVerdict(i.choice, i.domain, i.category, i.health);
  }

  /* ---- What a decision commits to ---- */

  /** Only approved decisions ever get an action, so nothing under review is dispatched; a case has at
      most one payment-link action, however the engine and the gateway compete for it. */
  lemma OneLinkActionPerCase(s: State, a: nat, b: nat)
    requires Reachable(s) && a in s.rows && b in s.rows
    ensures s.rows[a].action.decisionId in s.decisions && s.decisions[s.rows[a].action.decisionId].policy == APPROVED
    ensures s.rows[a].action.caseId == s.rows[b].action.caseId && s.rows[a].action.kind == s.rows[b].action.kind ==> a == b
  {
    ProtocolRuns.ReachableInv(s);
    assert RowOk(s, a, s.rows[a]) && RowOk(s, b, s.rows[b]);
    assert RowLinks(s, s.rows[a]) && RowLinks(s, s.rows[b]);
  }
}
