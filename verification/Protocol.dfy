/** The durable execution protocol as a transition system: a committed database, any number of pollers
    with an in-flight transaction each, a payment provider that no rollback reaches, and a clock.
    A poller claims, executes and commits in one transaction (app/worker.py:50-52); rows it has locked
    or written are invisible to and untouchable by the others until it commits or is rolled back. The
    decision engine, the gateway and the webhook handler each run in one transaction of their own. */
module Protocol {
  import opened Domain
  import opened Execution
  import Ingestion
  import Policy
  import Recovery

  // A persisted provider event; `credits` is a history field: the outcome this event created.
  datatype Event = Event(payload: Ingestion.Payload, tenant: Option<nat>, processed: bool,
                         credits: Option<Recovery.OutcomeKey>)

  // The in-flight transaction of a poller: rows claimed and still to be executed, rows already
  // executed, the cases read and written so far, and the creation calls it made.
  datatype Txn = Txn(claimed: map<nat, Outbox>, rows: map<nat, Row>, cases: map<nat, Case>, calls: set<nat>)

  // One invocation of create_payment_link, with the rows and settings its execution had read.
  datatype Call = Call(action: nat, key: Key, row: Row, facts: Facts)

  // A payment link that exists at the provider.
  datatype Link = Link(key: Key, caseId: nat)

  // `calls`, `links` and `undone` are outside every transaction: they survive rollback. `undone` are
  // the calls whose execution raised or was rolled back.
  datatype State = State(
    now: int,
    enabled: bool,
    window: int,
    nextId: nat,
    tenants: set<nat>,
    cases: map<nat, Case>,
    categories: map<nat, FailureCategory>,
    reclassified: set<nat>,
    decisions: map<nat, Decision>,
    rows: map<nat, Row>,
    events: map<nat, Event>,
    organic: map<nat, Recovery.Recorded>,
    txns: map<nat, Txn>,
    calls: seq<Call>,
    undone: set<nat>,
    links: seq<Link>)

  // A step with everything the outside world chooses in it. `created` says whether a call that was not
  // answered with success left a link behind, `lost` whether the transaction was rolled back.
  datatype Label =
    | Tick(elapsed: nat)
    | Switch(enabled: bool)
    | SetWindow(window: int)
    | Reclassify(caseId: nat, category: FailureCategory)
    | Decide(intake: Intake, adapter: bool, env: Env, created: bool, lost: bool)
    | Claim(worker: nat, batch: set<nat>, lease: int)
    | Execute(worker: nat, action: nat, env: Env, created: bool)
    | Commit(worker: nat)
    | Crash(worker: nat)
    | Gateway(caseId: nat, decisionId: nat, amount: int, env: Env, created: bool, lost: bool)
    | Accept(event: nat, payload: Ingestion.Payload, account: Option<nat>)
    | Confirm(event: nat, look: Ingestion.Lookup, measure: Option<MeasureInput>)

  function Lookup<V>(m: map<nat, V>, k: nat): Option<V> {
    if k in m then Some(m[k]) else None
  }

  predicate OutboxLocked(s: State, a: nat) {
    exists w | w in s.txns :: a in s.txns[w].claimed || a in s.txns[w].rows
  }

  predicate RowLocked(s: State, a: nat) {
    exists w | w in s.txns :: a in s.txns[w].rows
  }

  predicate CaseLocked(s: State, c: nat) {
    exists w | w in s.txns :: c in s.txns[w].cases
  }

  function FactsFor(s: State, act: Action, kase: Option<Case>, adapter: bool): Facts {
    Facts(kase, Lookup(s.decisions, act.decisionId), if act.tenant in s.tenants then Some(act.tenant) else None,
          Lookup(s.categories, act.caseId), s.enabled, adapter, s.now, s.window)
  }

  function NewRow(caseId: nat, tenant: nat, decisionId: nat, kind: RecoveryAction, amount: int, now: int): Row {
    Row(Action(caseId, tenant, decisionId, kind, AUTHORIZED, now),
        Outbox(PENDING, amount, 0, MAX_RETRIES, None, None, None, None), map[], None, 0)
  }

  /** The provider keeps one link per idempotency key. */
  function AddLink(links: seq<Link>, key: Key, caseId: nat): seq<Link> {
    if exists l | l in links :: l.key == key then links else links + [Link(key, caseId)]
  }

  // The provider side of one execution.
  function LinksAfter(s: State, a: nat, row: Row, p: Processed, env: Env, created: bool): seq<Link> {
    if p.called && (created || (env.reply.Replies? && env.reply.result.status == Recovery.PROVIDER_SUCCEEDED))
    then AddLink(s.links, IdempotencyKey(a), row.action.caseId)
    else s.links
  }

  function CallsAfter(s: State, a: nat, row: Row, f: Facts, p: Processed): seq<Call> {
    if p.called then s.calls + [Call(a, IdempotencyKey(a), row, f)] else s.calls
  }

  function UndoneAfter(s: State, p: Processed, lost: bool): set<nat> {
    if p.called && (p.raised || lost) then s.undone + {|s.calls|} else s.undone
  }

  /* ---- Pollers ---- */

  predicate CanClaim(s: State, w: nat, batch: set<nat>) {
    && w !in s.txns
    && forall a | a in batch :: a in s.rows && Claimable(s.rows[a].outbox, s.now) && !OutboxLocked(s, a)
  }

  function DoClaim(s: State, w: nat, batch: set<nat>, lease: int): State
    requires CanClaim(s, w, batch)
  {
    s.(txns := s.txns[w := Txn(map a | a in batch :: ClaimRow(s.rows[a].outbox, w, s.now, lease), map[], map[], {})])
  }

  // The case as the transaction of `w` sees it.
  function CaseSeen(s: State, w: nat, c: nat): Option<Case>
    requires w in s.txns
  {
    if c in s.txns[w].cases then Some(s.txns[w].cases[c]) else Lookup(s.cases, c)
  }

  // A claimed row as its transaction sees it: only the outbox part is locked before execution.
  function RowSeen(s: State, w: nat, a: nat): Row
    requires w in s.txns && a in s.txns[w].claimed && a in s.rows
  {
    s.rows[a].(outbox := s.txns[w].claimed[a])
  }

  predicate CanExecute(s: State, w: nat, a: nat) {
    && w in s.txns && a in s.txns[w].claimed && a in s.rows
    && (s.rows[a].action.caseId in s.txns[w].cases || !CaseLocked(s, s.rows[a].action.caseId))
  }

  function Executed(s: State, w: nat, a: nat, env: Env): Processed
    requires CanExecute(s, w, a)
  {
    var row := RowSeen(s, w, a);
    Process(a, row, FactsFor(s, row.action, CaseSeen(s, w, row.action.caseId), true), env)
  }

  function DoExecute(s: State, w: nat, a: nat, env: Env, created: bool): State
    requires CanExecute(s, w, a)
  {
    var row := RowSeen(s, w, a);
    var c := row.action.caseId;
    var f := FactsFor(s, row.action, CaseSeen(s, w, c), true);
    var p := Executed(s, w, a, env);
    var txn := s.txns[w];
    s.(txns := s.txns[w := Txn(
         txn.claimed - {a},
         txn.rows[a := p.row],
         if p.kase.Some? then txn.cases[c := p.kase.value] else txn.cases,
         if p.called then txn.calls + {|s.calls|} else txn.calls)],
       calls := CallsAfter(s, a, row, f, p),
       undone := UndoneAfter(s, p, false),
       links := LinksAfter(s, a, row, p, env, created))
  }

  predicate CanCommit(s: State, w: nat) {
    w in s.txns && s.txns[w].claimed == map[]
  }

  function DoCommit(s: State, w: nat): State
    requires CanCommit(s, w)
  {
    s.(rows := s.rows + s.txns[w].rows, cases := s.cases + s.txns[w].cases, txns := s.txns - {w})
  }

  function DoCrash(s: State, w: nat): State
    requires w in s.txns
  {
    s.(txns := s.txns - {w}, undone := s.undone + s.txns[w].calls)
  }

  /* ---- The decision engine on a new failure event ---- */

  // A normalised failure event with the route health at the time and the candidate that was chosen.
  datatype Intake = Intake(tenant: nat, domain: RecoveryDomain, amount: int, category: FailureCategory,
                           health: Option<RouteStatus>, choice: RecoveryAction)

  // The candidate loop selects the first choice that the policy does not reject.
  predicate CanDecide(s: State, i: Intake) {
    i.tenant in s.tenants && Policy.Evaluate(i.choice, i.domain, i.category, i.health).0 != REJECTED
  }

  // An action is created only for an approved, fully automatic choice other than stopping.
  predicate Acts(i: Intake) {
    Policy.Evaluate(i.choice, i.domain, i.category, i.health) == (APPROVED, FULL_AUTO) && i.choice != STOP_RECOVERY
  }

  function DecidedCase(i: Intake): Case {
    var review := Policy.Evaluate(i.choice, i.domain, i.category, i.health).0 == NEEDS_REVIEW;
    Case(i.tenant, i.domain, if review then PENDING_APPROVAL else RISK_ASSESSED, if review then 3 else 2, i.amount,
         NO_STAGE, false, None)
  }

  function DecisionOf(s: State, i: Intake): Decision {
    var (status, autonomy) := Policy.Evaluate(i.choice, i.domain, i.category, i.health);
    Decision(s.nextId, i.tenant, i.choice, status, autonomy)
  }

  function DecidedRow(s: State, i: Intake): Row {
    NewRow(s.nextId, i.tenant, s.nextId + 1, i.choice, if i.amount == 0 then 10000 else i.amount, s.now)
  }

  // The execution that follows reads the new case and decision.
  function DecidedFacts(s: State, i: Intake): Facts {
    FactsFor(s.(categories := s.categories[s.nextId := i.category],
                decisions := s.decisions[s.nextId + 1 := DecisionOf(s, i)]),
             DecidedRow(s, i).action, Some(DecidedCase(i)), true)
  }

  function DecidedRun(s: State, i: Intake, env: Env): Processed {
    Process(s.nextId + 2, DecidedRow(s, i), DecidedFacts(s, i), env)
  }

  function Decided(s: State, i: Intake, kase: Case, row: Option<Row>): State {
    s.(nextId := s.nextId + 3, cases := s.cases[s.nextId := kase], categories := s.categories[s.nextId := i.category],
       decisions := s.decisions[s.nextId + 1 := DecisionOf(s, i)],
       rows := if row.Some? then s.rows[s.nextId + 2 := row.value] else s.rows)
  }

  function DoDecide(s: State, i: Intake, adapter: bool, env: Env, created: bool, lost: bool): State
    requires CanDecide(s, i)
  {
    if Acts(i) && adapter then
      var row, f, p := DecidedRow(s, i), DecidedFacts(s, i), DecidedRun(s, i, env);
      (if lost then s.(nextId := s.nextId + 3) else Decided(s, i, p.kase.value, Some(p.row)))
        .(calls := CallsAfter(s, s.nextId + 2, row, f, p), undone := UndoneAfter(s, p, lost),
          links := LinksAfter(s, s.nextId + 2, row, p, env, created))
    else if lost then s.(nextId := s.nextId + 3)
    else Decided(s, i, DecidedCase(i), if Acts(i) then Some(DecidedRow(s, i)) else None)
  }

  /* ---- The tool gateway ---- */

  /** The checks of _execute_financial_tool before it authorizes an action, and the unique index that
      rejects a second action of one kind for one decision. Where they fail nothing is written. */
  predicate CanGateway(s: State, c: nat, d: nat) {
    && c in s.cases && d in s.decisions && s.decisions[d].caseId == c && !CaseLocked(s, c)
    && !Terminal(s.cases[c].status)
    && s.cases[c].stage != WAITING_FOR_PAYMENT && !s.cases[c].linkUrl
    && s.decisions[d].policy == APPROVED
    && Policy.Evaluate(GENERATE_PAYMENT_LINK, s.cases[c].domain,
         if c in s.categories then s.categories[c] else UNKNOWN_CATEGORY, None).0 == APPROVED
    && s.enabled
    && !exists a | a in s.rows :: s.rows[a].action.decisionId == d && s.rows[a].action.kind == GENERATE_PAYMENT_LINK
                                  && s.rows[a].action.caseId == c
  }

  function GatewayRow(s: State, c: nat, d: nat, amount: int): Row
    requires c in s.cases
  {
    NewRow(c, s.cases[c].tenant, d, GENERATE_PAYMENT_LINK, amount, s.now)
  }

  function GatewayFacts(s: State, c: nat, d: nat, amount: int): Facts
    requires c in s.cases
  {
    FactsFor(s, GatewayRow(s, c, d, amount).action, Some(s.cases[c]), true)
  }

  function GatewayRun(s: State, c: nat, d: nat, amount: int, env: Env): Processed
    requires c in s.cases
  {
    Process(s.nextId, GatewayRow(s, c, d, amount), GatewayFacts(s, c, d, amount), env)
  }

  // The context the gateway writes back when the link came with a url.
  function GatewayCase(p: Processed, env: Env): Case
    requires p.kase.Some?
  {
    if p.row.action.status == ActionStatus.SUCCEEDED && env.reply.Replies?
       && env.reply.result.status == Recovery.PROVIDER_SUCCEEDED && env.reply.result.hasUrl
    then p.kase.value.(stage := WAITING_FOR_PAYMENT, linkUrl := true)
    else p.kase.value
  }

  function DoGateway(s: State, c: nat, d: nat, amount: int, env: Env, created: bool, lost: bool): State
    requires CanGateway(s, c, d)
  {
    var row, f := GatewayRow(s, c, d, amount), GatewayFacts(s, c, d, amount);
    var p := GatewayRun(s, c, d, amount, env);
    var gone := lost || p.raised;  // an exception leaves the session uncommitted
    var s1 := if gone then s
              else s.(rows := s.rows[s.nextId := p.row], cases := s.cases[c := GatewayCase(p, env)]);
    s1.(nextId := s.nextId + 1, calls := CallsAfter(s, s.nextId, row, f, p), undone := UndoneAfter(s, p, gone),
        links := LinksAfter(s, s.nextId, row, p, env, created))
  }

  /* ---- Webhooks ---- */

  predicate LookupOk(s: State, p: Ingestion.Payload, kase: Option<nat>, look: Ingestion.Lookup) {
    && (look.byResource.Some? ==> look.byResource.value in s.rows)
    && (look.latest.Some? ==>
          look.latest.value in s.rows && kase == Some(s.rows[look.latest.value].action.caseId))
    && (look.latest.None? && kase.Some? ==> !exists a | a in s.rows :: s.rows[a].action.caseId == kase.value)
  }

  predicate CanConfirm(s: State, e: nat, look: Ingestion.Lookup) {
    && e in s.events && !s.events[e].processed && s.events[e].tenant.Some?
    && Ingestion.IsSuccessEvent(s.events[e].payload.eventType)
    && (Ingestion.IsConfirmed(s.events[e].payload) ==>
          var t := Ingestion.Correlate(s.cases, s.rows, s.events[e].payload, s.events[e].tenant.value, look);
          t.Credit? ==>
            && LookupOk(s, s.events[e].payload, t.kase, look)
            && (t.kase.Some? ==> !CaseLocked(s, t.kase.value))
            && (t.action.Some? ==> !RowLocked(s, t.action.value)))
  }

  function Mark(s: State, e: nat, credits: Option<Recovery.OutcomeKey>): State
    requires e in s.events
  {
    s.(events := s.events[e := s.events[e].(processed := true, credits := credits)])
  }

  function CreditedRecord(s: State, e: nat, c: nat, a: nat, measure: Option<MeasureInput>): Recovery.Recorded
    requires e in s.events && s.events[e].tenant.Some? && c in s.cases && a in s.rows
  {
    Ingestion.RecordedAfter(s.rows[a].recorded, s.events[e].payload, e, c, s.events[e].tenant.value, s.cases[c],
                            Ref(a, s.rows[a].action), Lookup(s.categories, c), s.now, s.window, measure)
  }

  function CreditAction(s: State, e: nat, c: nat, a: nat, measure: Option<MeasureInput>): State
    requires e in s.events && s.events[e].tenant.Some? && c in s.cases && a in s.rows
  {
    Mark(s, e, if s.rows[a].recorded.None? then Some(Recovery.ByAction(a)) else None)
      .(cases := s.cases[c := Ingestion.CaseAfter(s.cases[c], e)],
        rows := s.rows[a := Ingestion.RowAfter(s.rows[a], Some(CreditedRecord(s, e, c, a, measure)))])
  }

  function OrganicRecord(s: State, e: nat, c: nat, measure: Option<MeasureInput>): Recovery.Recorded
    requires e in s.events && s.events[e].tenant.Some? && c in s.cases
  {
    Ingestion.RecordedAfter(None, s.events[e].payload, e, c, s.events[e].tenant.value, s.cases[c], None,
                            Lookup(s.categories, c), s.now, s.window, measure)
  }

  function CreditOrganic(s: State, e: nat, c: nat, measure: Option<MeasureInput>): State
    requires e in s.events && s.events[e].tenant.Some? && c in s.cases
  {
    Mark(s, e, Some(Recovery.ByEvent(e)))
      .(cases := s.cases[c := Ingestion.CaseAfter(s.cases[c], e)],
        organic := s.organic[e := OrganicRecord(s, e, c, measure)])
  }

  // A correlation without a case only marks the action.
  function MarkAction(s: State, e: nat, action: Option<nat>): State
    requires e in s.events
  {
    if action.Some? && action.value in s.rows then
      var row := s.rows[action.value];
      Mark(s, e, None).(rows := s.rows[action.value := Ingestion.RowAfter(row, row.recorded)])
    else Mark(s, e, None)
  }

  function CreditCase(s: State, e: nat, c: nat, action: Option<nat>, measure: Option<MeasureInput>): State
    requires e in s.events && s.events[e].tenant.Some? && c in s.cases
  {
    if action.Some? && action.value in s.rows then CreditAction(s, e, c, action.value, measure)
    else CreditOrganic(s, e, c, measure)
  }

  function Credited(s: State, e: nat, kase: Option<nat>, action: Option<nat>, measure: Option<MeasureInput>): State
    requires e in s.events && s.events[e].tenant.Some?
  {
    if kase.Some? && kase.value in s.cases then CreditCase(s, e, kase.value, action, measure)
    else MarkAction(s, e, action)
  }

  function DoConfirm(s: State, e: nat, look: Ingestion.Lookup, measure: Option<MeasureInput>): State
    requires CanConfirm(s, e, look)
  {
    var t := Ingestion.Correlate(s.cases, s.rows, s.events[e].payload, s.events[e].tenant.value, look);
    if Ingestion.IsConfirmed(s.events[e].payload) && t.Credit? then Credited(s, e, t.kase, t.action, measure)
    else Mark(s, e, None)
  }

  /* ---- Steps and runs ---- */

  predicate Enabled(s: State, l: Label) {
    match l
    case Tick(_) => true
    case Switch(_) => true
    case SetWindow(_) => true
    case Reclassify(c, _) => c in s.cases
    case Decide(i, _, _, _, _) => CanDecide(s, i)
    case Claim(w, batch, _) => CanClaim(s, w, batch)
    case Execute(w, a, _, _) => CanExecute(s, w, a)
    case Commit(w) => CanCommit(s, w)
    case Crash(w) => w in s.txns
    case Gateway(c, d, _, _, _, _) => CanGateway(s, c, d)
    case Accept(e, _, _) => e !in s.events  // the unique index on the event's external id
    case Confirm(e, look, _) => CanConfirm(s, e, look)
  }

  function Apply(s: State, l: Label): State
    requires Enabled(s, l)
  {
    match l
    case Tick(elapsed) => s.(now := s.now + elapsed)
    case Switch(enabled) => s.(enabled := enabled)
    case SetWindow(window) => s.(window := window)
    case Reclassify(c, category) =>
      s.(categories := s.categories[c := category], reclassified := s.reclassified + {c})
    case Decide(i, adapter, env, created, lost) => DoDecide(s, i, adapter, env, created, lost)
    case Claim(w, batch, lease) => DoClaim(s, w, batch, lease)
    case Execute(w, a, env, created) => DoExecute(s, w, a, env, created)
    case Commit(w) => DoCommit(s, w)
    case Crash(w) => DoCrash(s, w)
    case Gateway(c, d, amount, env, created, lost) => DoGateway(s, c, d, amount, env, created, lost)
    case Accept(e, payload, tenant) => s.(events := s.events[e := Event(payload, tenant, false, None)])
    case Confirm(e, look, measure) => DoConfirm(s, e, look, measure)
  }

  predicate Initial(s: State) {
    && s.cases == map[] && s.categories == map[] && s.reclassified == {} && s.decisions == map[] && s.rows == map[]
    && s.events == map[] && s.organic == map[] && s.txns == map[] && s.calls == [] && s.undone == {} && s.links == []
  }

  /** Every state of `run` follows from the one before. */
  ghost predicate IsPath(run: seq<State>, labels: seq<Label>) {
    && |run| == |labels| + 1
    && forall i {:trigger Enabled(run[i], labels[i])} | 0 <= i < |labels| ::
         Enabled(run[i], labels[i]) && run[i + 1] == Apply(run[i], labels[i])
  }

  /** A finite execution from the empty database. */
  ghost predicate IsRun(run: seq<State>, labels: seq<Label>) {
    IsPath(run, labels) && Initial(run[0])
  }

  ghost predicate Reachable(s: State) {
    exists run, labels :: IsRun(run, labels) && run[|labels|] == s
  }
}
