/** The inductive invariant of the execution protocol, and its preservation by every step. */
module ProtocolInvariant {
  import opened Domain
  import opened Execution
  import opened ExecutionLaws
  import opened Protocol
  import Ingestion
  import Policy
  import Recovery

  /* ---- What never changes about a row and a case ---- */

  ghost predicate RowGrows(r: Row, r': Row) {
    && r'.action == r.action.(status := r'.action.status)
    && (forall n | n in r.attempts :: n in r'.attempts && r'.attempts[n] == r.attempts[n])
    && (r.recorded.Some? ==> r'.recorded.Some? && r'.recorded.value.outcome == r.recorded.value.outcome)
    && (Executable(r'.action.status) ==> Executable(r.action.status))
  }

  predicate CaseGrows(c: Case, c': Case) {
    && c'.tenant == c.tenant && c'.domain == c.domain && c'.amount == c.amount
    && Rank(c.status) <= Rank(c'.status)
    && (Terminal(c.status) ==> c'.status == c.status && c'.recoveredBy == c.recoveredBy)
  }

  ghost predicate Grows(s: State, s': State) {
    && s'.tenants == s.tenants && s.now <= s'.now && s.reclassified <= s'.reclassified
    && s.nextId <= s'.nextId
    && (forall c | c in s.cases :: c in s'.cases && CaseGrows(s.cases[c], s'.cases[c]))
    && (forall c | c in s.cases && c in s.categories :: c in s'.categories
          && (s'.categories[c] == s.categories[c] || c in s'.reclassified))
    && (forall d | d in s.decisions :: d in s'.decisions && s'.decisions[d] == s.decisions[d])
    && (forall a | a in s.rows :: a in s'.rows && RowGrows(s.rows[a], s'.rows[a]))
    && (forall e | e in s.events && s.events[e].processed :: e in s'.events && s'.events[e] == s.events[e])
  }

  /* ---- The parts of the invariant ---- */

  /** An action belongs to one case, one decision and one tenant; its decision approved it for automatic
      execution, and today's policy still does unless the case was reclassified since. */
  ghost predicate RowLinks(s: State, row: Row) {
    var act := row.action;
    && act.caseId in s.cases && act.caseId in s.categories && act.decisionId in s.decisions
    && s.decisions[act.decisionId].caseId == act.caseId
    && act.tenant == s.cases[act.caseId].tenant == s.decisions[act.decisionId].tenant
    && act.tenant in s.tenants
    && s.decisions[act.decisionId].policy == APPROVED && s.decisions[act.decisionId].autonomy == FULL_AUTO
    && act.createdAt <= s.now
    && (act.caseId in s.reclassified
        || Policy.Evaluate(act.kind, s.cases[act.caseId].domain, s.categories[act.caseId], None).0 == APPROVED)
  }

  ghost predicate WebhookProof(events: map<nat, Event>, e: nat, tenant: nat) {
    && e in events && events[e].processed && events[e].tenant == Some(tenant)
    && Ingestion.IsConfirmed(events[e].payload)
  }

  /** What an outcome filed under `key` is worth: its own confirmation, the amount that confirmation
      states, and attribution only inside the window. */
  ghost predicate OutcomeOk(cases: map<nat, Case>, events: map<nat, Event>, key: Recovery.OutcomeKey,
                            o: Recovery.Outcome, attempts: map<nat, Attempt>)
  {
    && o.caseId in cases && o.tenant == cases[o.caseId].tenant
    && (!Recovery.Recovers(o.status) ==> o.amount == 0)
    && (Recovery.Recovers(o.status) ==>
          match o.evidence
          case Webhook(e) =>
            WebhookProof(events, e, o.tenant) && events[e].credits == Some(key)
            && o.amount == Ingestion.StatedAmount(events[e].payload, cases[o.caseId].amount)
          case Dispatch(a, n) =>
            key == Recovery.ByAction(a) && n in attempts && attempts[n].status == AttemptStatus.SUCCEEDED
            && IsPaid(attempts[n].providerStatus)
            && o.amount == (if attempts[n].paidAmount.Some? then attempts[n].paidAmount.value
                            else cases[o.caseId].amount))
    && (o.source == Recovery.ACTION_ATTRIBUTED ==>
          Recovery.Recovers(o.status) && o.action.Some? && o.recoveredAt.Some?
          && o.action.value.createdAt <= o.recoveredAt.value <= o.action.value.createdAt + o.window)
    && (o.source == Recovery.ORGANIC_RECOVERY ==> o.action.None?)
  }

  ghost predicate RowRecorded(cases: map<nat, Case>, events: map<nat, Event>, a: nat, row: Row) {
    row.recorded.Some? ==>
      && OutcomeOk(cases, events, Recovery.ByAction(a), row.recorded.value.outcome, row.attempts)
      && row.recorded.value.outcome.caseId == row.action.caseId
      && row.recorded.value.outcome.action == Ref(a, row.action)
      && MeasuredOk(row.recorded.value)
  }

  /** A RECOVERED case was recovered by a confirmed event of its tenant or by a paid attempt of its own. */
  ghost predicate CaseOk(events: map<nat, Event>, rows: map<nat, Row>, c: nat, kase: Case) {
    kase.status == CaseStatus.RECOVERED ==>
      && kase.recoveredBy.Some?
      && match kase.recoveredBy.value
         case Webhook(e) => WebhookProof(events, e, kase.tenant)
         case Dispatch(a, n) => a in rows && rows[a].action.caseId == c && PaidBy(rows[a], n)
  }

  // Call `i` for action `a` raised, was rolled back, or is part of an unfinished transaction.
  ghost predicate Excused(s: State, a: nat, i: nat) {
    i in s.undone || exists w | w in s.txns :: a in s.txns[w].rows && i in s.txns[w].calls
  }

  ghost predicate RowCalls(s: State, a: nat, row: Row) {
    Executable(row.action.status) ==>
      forall i | 0 <= i < |s.calls| && s.calls[i].action == a :: Excused(s, a, i)
  }

  ghost predicate RowOk(s: State, a: nat, row: Row) {
    && RowLinks(s, row) && AttemptsOk(row) && BudgetOk(row) && RowRecorded(s.cases, s.events, a, row)
    && RowCalls(s, a, row)
  }

  ghost predicate ClaimedPart(rows: map<nat, Row>, t: Txn) {
    forall a | a in t.claimed :: a in rows && a !in t.rows
      && Ready(rows[a].(outbox := t.claimed[a])) && ClaimedOk(rows[a].(outbox := t.claimed[a]))
  }

  ghost predicate ExecutedPart(cases: map<nat, Case>, events: map<nat, Event>, rows: map<nat, Row>, t: Txn) {
    forall a | a in t.rows :: a in rows && RowGrows(rows[a], t.rows[a])
      && AttemptsOk(t.rows[a]) && BudgetOk(t.rows[a]) && RowRecorded(cases, events, a, t.rows[a])
  }

  ghost predicate CallsPart(calls: seq<Call>, undone: set<nat>, t: Txn) {
    && (forall i | i in t.calls :: i < |calls|)
    && (forall a | a in t.rows && Executable(t.rows[a].action.status) ::
          forall i | 0 <= i < |calls| && calls[i].action == a :: i in undone)
  }

  ghost predicate CasesPart(cases: map<nat, Case>, events: map<nat, Event>, rows: map<nat, Row>, t: Txn) {
    forall c | c in t.cases :: c in cases && CaseGrows(cases[c], t.cases[c])
      && CaseOk(events, rows + t.rows, c, t.cases[c])
  }

  ghost predicate TxnOk(s: State, t: Txn) {
    && ClaimedPart(s.rows, t) && ExecutedPart(s.cases, s.events, s.rows, t)
    && CasesPart(s.cases, s.events, s.rows, t) && CallsPart(s.calls, s.undone, t)
  }

  ghost predicate Disjoint(t: Txn, u: Txn) {
    && (forall a | a in t.claimed || a in t.rows :: a !in u.claimed && a !in u.rows)
    && (forall c | c in t.cases :: c !in u.cases)
  }

  ghost predicate LocksOk(txns: map<nat, Txn>) {
    forall v, w {:trigger Disjoint(txns[v], txns[w])} | v in txns && w in txns && v != w :: Disjoint(txns[v], txns[w])
  }

  ghost predicate IdsOk(s: State) {
    && (forall c | c in s.cases :: c < s.nextId && c in s.categories)
    && (forall d | d in s.decisions :: d < s.nextId && s.decisions[d].caseId in s.cases)
    && (forall a | a in s.rows :: a < s.nextId)
    && (forall c | c in s.calls :: c.action < s.nextId)
    && (forall c, d {:trigger s.decisions[c].caseId, s.decisions[d].caseId}
          | c in s.decisions && d in s.decisions && s.decisions[c].caseId == s.decisions[d].caseId :: c == d)
    && (forall d | d in s.decisions :: s.decisions[d].tenant == s.cases[s.decisions[d].caseId].tenant
          && s.decisions[d].tenant in s.tenants
          && (s.decisions[d].policy == APPROVED ==> s.decisions[d].autonomy == FULL_AUTO))
    && (forall a, b {:trigger s.rows[a].action.decisionId, s.rows[b].action.decisionId}
          | a in s.rows && b in s.rows && s.rows[a].action.decisionId == s.rows[b].action.decisionId
            && s.rows[a].action.kind == s.rows[b].action.kind :: a == b)
  }

  ghost predicate Backed(calls: seq<Call>, l: Link) {
    exists c | c in calls :: c.key == l.key && c.row.action.caseId == l.caseId
  }

  /** Everything the provider has seen: legitimate calls under the key of their action, one link per key,
      every link asked for, and of two calls for one action the earlier one undone. */
  ghost predicate CallsOk(calls: seq<Call>, undone: set<nat>, links: seq<Link>) {
    && (forall c | c in calls :: c.key == IdempotencyKey(c.action) && Authorized(c.action, c.row, c.facts))
    && (forall i, j | 0 <= i < j < |links| :: links[i].key != links[j].key)
    && (forall l | l in links :: Backed(calls, l))
    && (forall i, j | 0 <= i < j < |calls| && calls[i].action == calls[j].action :: i in undone)
  }

  ghost predicate OrganicOk(s: State) {
    forall e | e in s.organic ::
      OutcomeOk(s.cases, s.events, Recovery.ByEvent(e), s.organic[e].outcome, map[]) && MeasuredOk(s.organic[e])
  }

  ghost predicate RowsOk(s: State) {
    forall a | a in s.rows :: RowOk(s, a, s.rows[a])
  }

  ghost predicate CasesOk(s: State) {
    forall c | c in s.cases :: CaseOk(s.events, s.rows, c, s.cases[c])
  }

  ghost predicate TxnsOk(s: State) {
    forall w | w in s.txns :: TxnOk(s, s.txns[w])
  }

  ghost predicate Inv(s: State) {
    && IdsOk(s) && RowsOk(s) && CasesOk(s) && OrganicOk(s) && TxnsOk(s) && LocksOk(s.txns)
    && CallsOk(s.calls, s.undone, s.links)
  }

  /* ---- Facts that survive growth ---- */

  lemma LinksStable(s: State, s': State, row: Row)
    requires Grows(s, s') && RowLinks(s, row)
    ensures RowLinks(s', row)
  {
    assert row.action.caseId in s.cases && row.action.decisionId in s.decisions;
  }

  lemma OutcomeStable(s: State, s': State, key: Recovery.OutcomeKey, o: Recovery.Outcome, attempts: map<nat, Attempt>)
    requires Grows(s, s') && OutcomeOk(s.cases, s.events, key, o, attempts)
    ensures OutcomeOk(s'.cases, s'.events, key, o, attempts)
  {
    assert o.caseId in s.cases;
  }

  lemma RecordedStable(s: State, s': State, a: nat, row: Row)
    requires Grows(s, s') && RowRecorded(s.cases, s.events, a, row)
    ensures RowRecorded(s'.cases, s'.events, a, row)
  {
    if row.recorded.Some? {
      OutcomeStable(s, s', Recovery.ByAction(a), row.recorded.value.outcome, row.attempts);
    }
  }

  lemma CaseUnderRows(events: map<nat, Event>, rows: map<nat, Row>, rows': map<nat, Row>, c: nat, kase: Case)
    requires CaseOk(events, rows, c, kase)
    requires forall a | a in rows :: a in rows' && RowGrows(rows[a], rows'[a])
    ensures CaseOk(events, rows', c, kase)
  {
  }

  lemma CaseStable(s: State, s': State, rows: map<nat, Row>, rows': map<nat, Row>, c: nat, kase: Case)
    requires Grows(s, s') && CaseOk(s.events, rows, c, kase)
    requires forall a | a in rows :: a in rows' && RowGrows(rows[a], rows'[a])
    ensures CaseOk(s'.events, rows', c, kase)
  {
  }

  lemma OrganicStable(s: State, s': State)
    requires Grows(s, s') && OrganicOk(s) && s'.organic == s.organic
    ensures OrganicOk(s')
  {
    forall e | e in s'.organic
      ensures OutcomeOk(s'.cases, s'.events, Recovery.ByEvent(e), s'.organic[e].outcome, map[])
    {
      OutcomeStable(s, s', Recovery.ByEvent(e), s.organic[e].outcome, map[]);
    }
  }

  // Calls that were excused stay so.
  ghost predicate ExcusedGrows(s: State, s': State) {
    forall a, i | Excused(s, a, i) :: Excused(s', a, i)
  }

  /** An unchanged committed row stays in order. */
  lemma RowStable(s: State, s': State, a: nat, row: Row)
    requires Grows(s, s') && RowOk(s, a, row)
    requires s.calls <= s'.calls
    requires forall i | Excused(s, a, i) :: Excused(s', a, i)
    requires forall i | |s.calls| <= i < |s'.calls| && s'.calls[i].action == a :: Excused(s', a, i)
    ensures RowOk(s', a, row)
  {
    LinksStable(s, s', row);
    RecordedStable(s, s', a, row);
    if Executable(row.action.status) {
      forall i | 0 <= i < |s'.calls| && s'.calls[i].action == a ensures Excused(s', a, i) {
        if i < |s.calls| {
          assert s.calls[i] == s'.calls[i];
          assert Excused(s, a, i);
        }
      }
    }
  }

  lemma RowsStable(s: State, s': State)
    requires Grows(s, s') && RowsOk(s) && s'.rows == s.rows && s'.calls == s.calls && ExcusedGrows(s, s')
    ensures RowsOk(s')
  {
    forall a | a in s'.rows ensures RowOk(s', a, s'.rows[a]) {
      RowStable(s, s', a, s.rows[a]);
    }
  }

  lemma CasesStable(s: State, s': State)
    requires Grows(s, s') && CasesOk(s) && s'.cases == s.cases
    ensures CasesOk(s')
  {
    forall c | c in s'.cases ensures CaseOk(s'.events, s'.rows, c, s'.cases[c]) {
      CaseStable(s, s', s.rows, s'.rows, c, s.cases[c]);
    }
  }

  // How a committed row may change while its outbox part is locked: a webhook marks the action paid.
  ghost predicate Touched(r: Row, r': Row) {
    r' == r || (r' == r.(action := r.action.(status := ActionStatus.SUCCEEDED), recorded := r'.recorded))
  }

  lemma ClaimedStable(rows: map<nat, Row>, rows': map<nat, Row>, t: Txn)
    requires ClaimedPart(rows, t)
    requires forall a | a in t.claimed :: a in rows' && Touched(rows[a], rows'[a])
    ensures ClaimedPart(rows', t)
  {
    forall a | a in t.claimed
      ensures Ready(rows'[a].(outbox := t.claimed[a])) && ClaimedOk(rows'[a].(outbox := t.claimed[a]))
    {
      assert a in rows;
    }
  }

  lemma ExecutedStable(s: State, s': State, t: Txn)
    requires Grows(s, s') && ExecutedPart(s.cases, s.events, s.rows, t)
    requires forall a | a in t.rows :: a in s'.rows && s'.rows[a] == s.rows[a]
    ensures ExecutedPart(s'.cases, s'.events, s'.rows, t)
  {
    forall a | a in t.rows ensures RowRecorded(s'.cases, s'.events, a, t.rows[a]) {
      RecordedStable(s, s', a, t.rows[a]);
    }
  }

  lemma CallsPartStable(calls: seq<Call>, undone: set<nat>, calls': seq<Call>, undone': set<nat>, t: Txn)
    requires CallsPart(calls, undone, t) && undone <= undone' && calls <= calls'
    requires forall i | |calls| <= i < |calls'| :: calls'[i].action !in t.rows
    ensures CallsPart(calls', undone', t)
  {
    forall a, i | a in t.rows && Executable(t.rows[a].action.status) && 0 <= i < |calls'| && calls'[i].action == a
      ensures i in undone'
    {
      assert i < |calls| && calls[i] == calls'[i];
    }
  }

  lemma CasesPartStable(s: State, s': State, t: Txn)
    requires Grows(s, s') && CasesPart(s.cases, s.events, s.rows, t)
    requires forall a | a in t.rows :: a in s.rows && RowGrows(s.rows[a], t.rows[a])
    requires forall c | c in t.cases :: c in s'.cases && s'.cases[c] == s.cases[c]
    ensures CasesPart(s'.cases, s'.events, s'.rows, t)
  {
    forall c | c in t.cases ensures CaseOk(s'.events, s'.rows + t.rows, c, t.cases[c]) {
      CaseStable(s, s', s.rows + t.rows, s'.rows + t.rows, c, t.cases[c]);
    }
  }

  /** A transaction that a step does not own stays intact when the step leaves its locked rows and cases
      alone and makes no calls for them. */
  lemma TxnStable(s: State, s': State, t: Txn)
    requires Grows(s, s') && TxnOk(s, t) && s.undone <= s'.undone && s.calls <= s'.calls
    requires forall i | |s.calls| <= i < |s'.calls| :: s'.calls[i].action !in t.rows
    requires forall a | a in t.claimed :: a in s'.rows && Touched(s.rows[a], s'.rows[a])
    requires forall a | a in t.rows :: a in s'.rows && s'.rows[a] == s.rows[a]
    requires forall c | c in t.cases :: c in s'.cases && s'.cases[c] == s.cases[c]
    ensures TxnOk(s', t)
  {
    ClaimedStable(s.rows, s'.rows, t);
    ExecutedStable(s, s', t);
    CasesPartStable(s, s', t);
    CallsPartStable(s.calls, s.undone, s'.calls, s'.undone, t);
  }
}
