/** Who the provider's links belong to: each call stays tied to the committed action and case it was
    made for, so a case never collects two links and a payroll case none. */
module ProtocolLinks {
  import opened Domain
  import opened Execution
  import opened Protocol
  import opened ProtocolInvariant
  import ProtocolRuns
  import ProtocolTheorems
  import ProtocolWebhook
  import ProtocolCreation
  import Ingestion

  // A call agrees with the rows it was made for, where those were committed.
  ghost predicate Matches(s: State, c: Call) {
    && c.row.action.caseId < s.nextId
    && (c.action in s.rows ==> c.row.action == s.rows[c.action].action.(status := c.row.action.status))
    && (c.row.action.caseId in s.cases ==>
          c.facts.kase.Some? && c.facts.kase.value.domain == s.cases[c.row.action.caseId].domain)
  }

  ghost predicate AllMatch(s: State) {
    forall c | c in s.calls :: Matches(s, c)
  }

  // New rows and cases get new ids.
  ghost predicate NewIds(s: State, s': State) {
    && (forall a | a in s'.rows && a !in s.rows :: a >= s.nextId)
    && (forall c | c in s'.cases && c !in s.cases :: c >= s.nextId)
  }

  lemma OldCallMatches(s: State, s': State, c: Call)
    requires Grows(s, s') && NewIds(s, s') && Matches(s, c) && c.action < s.nextId
    ensures Matches(s', c)
  {
    if c.action in s'.rows {
      assert c.action in s.rows && RowGrows(s.rows[c.action], s'.rows[c.action]);
    }
  }

  lemma MatchesStep(s: State, s': State)
    requires IdsOk(s) && AllMatch(s) && Grows(s, s') && NewIds(s, s')
    requires forall c | c in s'.calls && c !in s.calls :: Matches(s', c)
    ensures AllMatch(s')
  {
    forall c | c in s'.calls ensures Matches(s', c) {
      if c in s.calls { OldCallMatches(s, s', c); }
    }
  }

  function CallMade(s: State, w: nat, a: nat): Call
    requires CanExecute(s, w, a)
  {
    Call(a, IdempotencyKey(a), RowSeen(s, w, a),
         FactsFor(s, RowSeen(s, w, a).action, CaseSeen(s, w, RowSeen(s, w, a).action.caseId), true))
  }

  lemma ExecuteCalls(s: State, w: nat, a: nat, env: Env, created: bool)
    requires CanExecute(s, w, a)
    ensures var s' := DoExecute(s, w, a, env, created);
      && s'.rows == s.rows && s'.cases == s.cases && s'.nextId == s.nextId
      && forall c | c in s'.calls && c !in s.calls :: c == CallMade(s, w, a)
  {
  }

  lemma CallMadeMatches(s: State, w: nat, a: nat)
    requires Inv(s) && CanExecute(s, w, a)
    ensures Matches(s, CallMade(s, w, a))
  {
    ProtocolTheorems.SeenLinks(s, w, a);
    assert RowSeen(s, w, a).action.caseId in s.cases;
  }

  lemma ExecuteMatches(s: State, w: nat, a: nat, env: Env, created: bool)
    requires Inv(s) && CanExecute(s, w, a)
    ensures var s' := DoExecute(s, w, a, env, created);
      NewIds(s, s') && forall c | c in s'.calls && c !in s.calls :: Matches(s', c)
  {
    ExecuteCalls(s, w, a, env, created);
    CallMadeMatches(s, w, a);
  }

  lemma PollerMatches(s: State, l: Label)
    requires Inv(s) && Enabled(s, l) && ProtocolRuns.IsPoller(l)
    ensures NewIds(s, Apply(s, l))
    ensures forall c | c in Apply(s, l).calls && c !in s.calls :: Matches(Apply(s, l), c)
  {
    if l.Execute? {
      ExecuteMatches(s, l.worker, l.action, l.env, l.created);
    } else if l.Commit? {
      assert TxnOk(s, s.txns[l.worker]);
    }
  }

  lemma DecideMatches(s: State, i: Intake, adapter: bool, env: Env, created: bool, lost: bool)
    requires IdsOk(s) && CanDecide(s, i)
    ensures var s' := DoDecide(s, i, adapter, env, created, lost);
      NewIds(s, s') && forall c | c in s'.calls && c !in s.calls :: Matches(s', c)
  {
    if Acts(i) && adapter {
      ProtocolCreation.DecideShape(s, i, env);
      if lost { DecideLostMatches(s, i, env, created); } else { DecideNowMatches(s, i, env, created); }
    } else {
      DecideQuietMatches(s, i, adapter, env, created, lost);
    }
  }

  lemma DecideQuietMatches(s: State, i: Intake, adapter: bool, env: Env, created: bool, lost: bool)
    requires CanDecide(s, i) && !(Acts(i) && adapter)
    ensures var s' := DoDecide(s, i, adapter, env, created, lost); NewIds(s, s') && s'.calls == s.calls
  {
  }

  lemma DecideLostMatches(s: State, i: Intake, env: Env, created: bool)
    requires IdsOk(s) && CanDecide(s, i) && Acts(i)
    ensures var s' := DoDecide(s, i, true, env, created, true);
      NewIds(s, s') && forall c | c in s'.calls && c !in s.calls :: Matches(s', c)
  {
  }

  lemma DecideNowMatches(s: State, i: Intake, env: Env, created: bool)
    requires IdsOk(s) && CanDecide(s, i) && Acts(i)
    requires var p := DecidedRun(s, i, env);
      && p.kase.Some? && p.kase.value.domain == i.domain
      && p.row.action == DecidedRow(s, i).action.(status := p.row.action.status)
    ensures var s' := DoDecide(s, i, true, env, created, false);
      NewIds(s, s') && forall c | c in s'.calls && c !in s.calls :: Matches(s', c)
  {
  }

  lemma GatewayLostMatches(s: State, c: nat, d: nat, amount: int, env: Env, created: bool, lost: bool)
    requires IdsOk(s) && CanGateway(s, c, d) && (lost || GatewayRun(s, c, d, amount, env).raised)
    ensures var s' := DoGateway(s, c, d, amount, env, created, lost);
      NewIds(s, s') && forall call | call in s'.calls && call !in s.calls :: Matches(s', call)
  {
  }

  lemma GatewayNowMatches(s: State, c: nat, d: nat, amount: int, env: Env, created: bool)
    requires IdsOk(s) && CanGateway(s, c, d) && !GatewayRun(s, c, d, amount, env).raised
    ensures var s' := DoGateway(s, c, d, amount, env, created, false);
      NewIds(s, s') && forall call | call in s'.calls && call !in s.calls :: Matches(s', call)
  {
    ProtocolCreation.RunShape(s.nextId, GatewayRow(s, c, d, amount), GatewayFacts(s, c, d, amount), env);
  }

  lemma GatewayMatches(s: State, c: nat, d: nat, amount: int, env: Env, created: bool, lost: bool)
    requires IdsOk(s) && CanGateway(s, c, d)
    ensures var s' := DoGateway(s, c, d, amount, env, created, lost);
      NewIds(s, s') && forall call | call in s'.calls && call !in s.calls :: Matches(s', call)
  {
    if lost || GatewayRun(s, c, d, amount, env).raised {
      GatewayLostMatches(s, c, d, amount, env, created, lost);
    } else {
      GatewayNowMatches(s, c, d, amount, env, created);
    }
  }

  lemma ConfirmMatches(s: State, e: nat, look: Ingestion.Lookup, measure: Option<MeasureInput>)
    requires CanConfirm(s, e, look)
    ensures var s' := DoConfirm(s, e, look, measure); NewIds(s, s') && s'.calls == s.calls
  {
    ProtocolWebhook.ConfirmOnly(s, e, look, measure);
  }

  // New calls of a step match, and new rows and cases get new ids.
  ghost predicate StepOk(s: State, s': State) {
    NewIds(s, s') && forall c | c in s'.calls && c !in s.calls :: Matches(s', c)
  }

  lemma ServiceMatches(s: State, l: Label)
    requires IdsOk(s) && Enabled(s, l) && !ProtocolRuns.IsPoller(l) && !ProtocolRuns.IsQuiet(l)
    ensures StepOk(s, Apply(s, l))
  {
    match l
    case Decide(i, adapter, env, created, lost) => DecideMatches(s, i, adapter, env, created, lost);
    case Gateway(c, d, amount, env, created, lost) => GatewayMatches(s, c, d, amount, env, created, lost);
    case Confirm(e, look, measure) => ConfirmMatches(s, e, look, measure);
  }

  lemma StepMatches(s: State, l: Label, s': State)
    requires Inv(s) && AllMatch(s) && Enabled(s, l) && s' == Apply(s, l) && Grows(s, s')
    ensures AllMatch(s')
  {
    if ProtocolRuns.IsPoller(l) {
      PollerMatches(s, l);
    } else if ProtocolRuns.IsQuiet(l) {
      ProtocolRuns.QuietGrows(s, l);
    } else {
      ServiceMatches(s, l);
    }
    assert StepOk(s, s');
    MatchesStep(s, s');
  }

  lemma MatchAlong(run: seq<State>, labels: seq<Label>, k: nat)
    requires IsRun(run, labels) && 0 < k <= |labels| && AllMatch(run[k - 1])
    ensures AllMatch(run[k])
  {
    ProtocolRuns.RunInv(run, labels, k - 1);
    ProtocolRuns.StepAlong(run, labels, k);
    ProtocolRuns.PathStep(run, labels, k);
    StepMatches(run[k - 1], labels[k - 1], run[k]);
  }

  lemma {:induction false} RunMatches(run: seq<State>, labels: seq<Label>, k: nat)
    requires IsRun(run, labels) && k <= |labels|
    ensures AllMatch(run[k])
  {
    if k > 0 {
      RunMatches(run, labels, k - 1);
      MatchAlong(run, labels, k);
    }
  }

  // A link exists because of an authorized call, and belongs to that call's case.
  lemma LinkOrigin(s: State, i: nat)
    requires Reachable(s) && i < |s.links|
    ensures var l := s.links[i];
      && (l.key.action in s.rows ==> s.rows[l.key.action].action.caseId == l.caseId
                                     && s.rows[l.key.action].action.kind == GENERATE_PAYMENT_LINK)
      && (l.caseId in s.cases ==> s.cases[l.caseId].domain != EMPLOYEE)
  {
    var run, labels :| IsRun(run, labels) && run[|labels|] == s;
    RunMatches(run, labels, |labels|);
    ProtocolRuns.ReachableInv(s);
    assert Backed(s.calls, s.links[i]) by { assert s.links[i] in s.links; }
    var c :| c in s.calls && c.key == s.links[i].key && c.row.action.caseId == s.links[i].caseId;
    assert Matches(s, c);
  }

  /** Of the links whose actions are on file a case has at most one, across every engine, poller and gateway
      call, retry and crash; and a payroll case has none. */
  lemma OneLinkPerCase(s: State, i: nat, j: nat)
    requires Reachable(s) && i < |s.links| && j < |s.links|
    requires s.links[i].key.action in s.rows && s.links[j].key.action in s.rows
    ensures s.links[i].caseId == s.links[j].caseId ==> i == j
    ensures s.links[i].caseId in s.cases && s.cases[s.links[i].caseId].domain != EMPLOYEE
  {
    LinkOrigin(s, i);
    LinkOrigin(s, j);
    ProtocolRuns.ReachableInv(s);
    assert RowLinks(s, s.rows[s.links[i].key.action]) && RowLinks(s, s.rows[s.links[j].key.action]) by {
      assert RowOk(s, s.links[i].key.action, s.rows[s.links[i].key.action]);
      assert RowOk(s, s.links[j].key.action, s.rows[s.links[j].key.action]);
    }
    if s.links[i].caseId == s.links[j].caseId {
      ProtocolTheorems.OneLinkActionPerCase(s, s.links[i].key.action, s.links[j].key.action);
      ProtocolTheorems.OneLinkPerAction(s, i, j);
    }
  }
}
