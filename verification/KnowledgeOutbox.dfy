/** The knowledge outbox (app/services/qdrant_indexer.py) drained by any number of workers
    (app/main.py:46-60): one entry per measurement, indexed into a vector store that no rollback reaches. */
module KnowledgeOutbox {
  import opened Domain

  datatype Status = PENDING | CLAIMED | COMPLETED | FAILED | DEAD_LETTERED

  // `version` is the payload's index version, 0 when it has none. `triggers` is a history counter: how
  // often the one-shot trigger claimed the entry.
  datatype Entry = Entry(
    measurement: nat,
    tenant: nat,
    status: Status,
    attempts: nat,
    maxRetries: nat,
    lease: Option<int>,
    claimedBy: Option<nat>,
    version: nat,
    triggers: nat)

  /** _needs_processing, branch by branch. */
  predicate NeedsProcessing(e: Entry, now: int, version: nat) {
    if e.attempts >= e.maxRetries then false
    else if e.status == PENDING || e.status == FAILED then true
    else if e.status == CLAIMED then e.lease.Some? && e.lease.value < now
    else if e.status == COMPLETED then e.version != version
    else false
  }

  /** The where clause of the claim query. */
  predicate SqlMatches(e: Entry, now: int) {
    && (e.status == PENDING || e.status == FAILED
        || (e.status == CLAIMED && e.lease.Some? && e.lease.value < now)
        || e.status == COMPLETED)
    && e.attempts < e.maxRetries
  }

  /** The two filters differ exactly on up-to-date completed entries with budget left: those the query
      selects and the code then discards. */
  lemma FiltersDiffer(e: Entry, now: int, version: nat)
    ensures NeedsProcessing(e, now, version) ==> SqlMatches(e, now)
    ensures SqlMatches(e, now) && !NeedsProcessing(e, now, version) <==>
            e.status == COMPLETED && e.version == version && e.attempts < e.maxRetries
  {
  }

  function NewEntry(measurement: nat, tenant: nat, version: nat): Entry {
    Entry(measurement, tenant, PENDING, 0, 3, None, None, version, 0)
  }

  function Claim(e: Entry, worker: nat, now: int, lease: int): Entry {
    e.(status := CLAIMED, claimedBy := Some(worker), lease := Some(now + lease), attempts := e.attempts + 1)
  }

  /** What process_item leaves of the entry. */
  function Finish(e: Entry, ok: bool, version: nat): Entry {
    if ok then e.(status := COMPLETED, lease := None, version := version)
    else e.(status := if e.attempts >= e.maxRetries then DEAD_LETTERED else FAILED, lease := None)
  }

  // How many of the first `k` entries the query selects, given the entries others have locked.
  ghost function Matching(rows: seq<Entry>, locked: set<nat>, now: int, k: nat): nat
    requires k <= |rows|
  {
    if k == 0 then 0
    else Matching(rows, locked, now, k - 1) + if k - 1 !in locked && SqlMatches(rows[k - 1], now) then 1 else 0
  }

  /** A sweep selects entry `i`: unlocked, matched, and fewer than `limit` such entries are older. Every
      selected entry is locked, whether or not the second filter keeps it. */
  ghost predicate Selected(rows: seq<Entry>, locked: set<nat>, now: int, limit: nat, i: nat) {
    i < |rows| && i !in locked && SqlMatches(rows[i], now) && Matching(rows, locked, now, i) < limit
  }

  /** A sweep claims entry `i`: it selects it and the second filter keeps it. */
  ghost predicate Swept(rows: seq<Entry>, locked: set<nat>, now: int, version: nat, limit: nat, i: nat) {
    Selected(rows, locked, now, limit, i) && NeedsProcessing(rows[i], now, version)
  }

  /* ---- The system ---- */

  datatype PointId = PointId(version: nat, measurement: nat)

  // The session of a drainer or of a trigger: the entries it has locked until it ends, those it has
  // claimed and still to process, and those it has processed.
  datatype Txn = Txn(held: set<nat>, todo: map<nat, Entry>, done: map<nat, Entry>)

  // Entries in creation order; a point holds the tenant it was written for.
  datatype State = State(now: int, version: nat, rows: seq<Entry>, txns: map<nat, Txn>, points: map<PointId, nat>)

  // `stored` says whether a call that failed had written its point. A trigger on a missing or locked
  // entry does nothing and is no step.
  datatype Label =
    | Tick(elapsed: nat)
    | Bump(version: nat)
    | Create(measurement: nat, tenant: nat)
    | Sweep(worker: nat, limit: nat, lease: int)
    | Trigger(worker: nat, entry: nat)
    | Process(worker: nat, entry: nat, ok: bool, stored: bool)
    | Commit(worker: nat)
    | Crash(worker: nat)

  ghost predicate IsLocked(s: State, i: nat) {
    exists w | w in s.txns :: i in s.txns[w].held
  }

  ghost function Locked(s: State): set<nat> {
    set i | 0 <= i < |s.rows| && IsLocked(s, i)
  }

  function Index(points: map<PointId, nat>, e: Entry, version: nat, ok: bool, stored: bool): map<PointId, nat> {
    if ok || stored then points[PointId(version, e.measurement) := e.tenant] else points
  }

  ghost predicate Enabled(s: State, l: Label) {
    match l
    case Sweep(w, _, _) => w !in s.txns
    case Trigger(w, i) => w !in s.txns && i < |s.rows| && !IsLocked(s, i)
    case Process(w, i, _, _) => w in s.txns && i in s.txns[w].todo
    case Commit(w) => w in s.txns && s.txns[w].todo == map[]
    case Crash(w) => w in s.txns
    case _ => true
  }

  ghost function SelectedSet(s: State, limit: nat): set<nat> {
    set i | 0 <= i < |s.rows| && Selected(s.rows, Locked(s), s.now, limit, i)
  }

  ghost function SweepTxn(s: State, w: nat, limit: nat, lease: int): Txn {
    var held := SelectedSet(s, limit);
    Txn(held, map i | i in held && NeedsProcessing(s.rows[i], s.now, s.version) :: Claim(s.rows[i], w, s.now, lease), map[])
  }

  function Triggered(e: Entry, trigger: nat, now: int): Entry {
    Claim(e, trigger, now, 30).(triggers := e.triggers + 1)
  }

  // The trigger ignores the budget and leaves a completed entry alone.
  function TriggerTxn(s: State, w: nat, i: nat): Txn
    requires i < |s.rows|
  {
    Txn({i}, if s.rows[i].status == COMPLETED then map[] else map[i := Triggered(s.rows[i], w, s.now)], map[])
  }

  function Merge(rows: seq<Entry>, done: map<nat, Entry>): (merged: seq<Entry>)
    ensures |merged| == |rows|
    ensures forall i | 0 <= i < |rows| :: merged[i] == if i in done then done[i] else rows[i]
  {
    seq(|rows|, i requires 0 <= i < |rows| => if i in done then done[i] else rows[i])
  }

  ghost function Apply(s: State, l: Label): State
    requires Enabled(s, l)
  {
    match l
    case Tick(elapsed) => s.(now := s.now + elapsed)
    case Bump(version) => s.(version := version)
    case Create(m, tenant) =>
      if exists i | 0 <= i < |s.rows| :: s.rows[i].measurement == m then s
      else s.(rows := s.rows + [NewEntry(m, tenant, s.version)])
    case Sweep(w, limit, lease) => s.(txns := s.txns[w := SweepTxn(s, w, limit, lease)])
    case Trigger(w, i) => s.(txns := s.txns[w := TriggerTxn(s, w, i)])
    case Process(w, i, ok, stored) =>
      var t := s.txns[w];
      var e := t.todo[i];
      s.(txns := s.txns[w := t.(todo := t.todo - {i}, done := t.done[i := Finish(e, ok, s.version)])],
         points := Index(s.points, e, s.version, ok, stored))
    case Commit(w) => s.(rows := Merge(s.rows, s.txns[w].done), txns := s.txns - {w})
    case Crash(w) => s.(txns := s.txns - {w})
  }

  ghost predicate Initial(s: State) {
    s.rows == [] && s.txns == map[] && s.points == map[]
  }

  ghost predicate IsPath(run: seq<State>, labels: seq<Label>) {
    && |run| == |labels| + 1
    && forall i {:trigger Enabled(run[i], labels[i])} | 0 <= i < |labels| ::
         Enabled(run[i], labels[i]) && run[i + 1] == Apply(run[i], labels[i])
  }

  ghost predicate IsRun(run: seq<State>, labels: seq<Label>) {
    IsPath(run, labels) && Initial(run[0])
  }

  /* ---- The invariant ---- */

  // The budget, and what the statuses are worth: a claim ends within its session, so none is ever committed;
  // the budget is spent exactly on the dead-lettered; and for COMPLETED the point of the stamped version
  // exists and is the tenant's.
  predicate EntryOk(points: map<PointId, nat>, e: Entry) {
    && e.maxRetries == 3 && e.attempts <= e.maxRetries + e.triggers
    && e.status != CLAIMED
    && (e.status == PENDING ==> e.attempts == 0)
    && (e.status == FAILED ==> 0 < e.attempts < e.maxRetries)
    && (e.status == DEAD_LETTERED ==> e.attempts >= e.maxRetries)
    && (e.status == COMPLETED ==>
          PointId(e.version, e.measurement) in points && points[PointId(e.version, e.measurement)] == e.tenant)
  }

  // `e'` is a later version of entry `e` in the hands of a session.
  predicate SameEntry(e: Entry, e': Entry) {
    e'.measurement == e.measurement && e'.tenant == e.tenant && e'.maxRetries == e.maxRetries
  }

  ghost predicate TxnOk(rows: seq<Entry>, points: map<PointId, nat>, t: Txn) {
    && t.todo.Keys !! t.done.Keys && t.todo.Keys + t.done.Keys <= t.held
    && (forall i | i in t.held :: i < |rows|)
    && (forall i | i in t.todo :: SameEntry(rows[i], t.todo[i]) && t.todo[i].maxRetries == 3
          && 0 < t.todo[i].attempts <= 3 + t.todo[i].triggers)
    && (forall i | i in t.done :: SameEntry(rows[i], t.done[i]) && EntryOk(points, t.done[i]))
  }

  ghost predicate Unique(rows: seq<Entry>) {
    forall i, j | 0 <= i < j < |rows| :: rows[i].measurement != rows[j].measurement
  }

  ghost predicate Owned(rows: seq<Entry>, p: PointId, tenant: nat) {
    exists i | 0 <= i < |rows| :: rows[i].measurement == p.measurement && rows[i].tenant == tenant
  }

  ghost predicate PointsOk(rows: seq<Entry>, points: map<PointId, nat>) {
    forall p {:trigger Owned(rows, p, points[p])} | p in points :: Owned(rows, p, points[p])
  }

  predicate Apart(t: Txn, u: Txn) { t.held !! u.held }

  ghost predicate LocksOk(txns: map<nat, Txn>) {
    forall v, w {:trigger Apart(txns[v], txns[w])} | v in txns && w in txns && v != w :: Apart(txns[v], txns[w])
  }

  ghost predicate Inv(s: State) {
    && (forall i | 0 <= i < |s.rows| :: EntryOk(s.points, s.rows[i]))
    && (forall w | w in s.txns :: TxnOk(s.rows, s.points, s.txns[w]))
    && Unique(s.rows) && PointsOk(s.rows, s.points) && LocksOk(s.txns)
  }

  // Points are never lost and never change hands.
  predicate PointsGrow(points: map<PointId, nat>, points': map<PointId, nat>) {
    forall p | p in points :: p in points' && points'[p] == points[p]
  }

  lemma IndexGrows(rows: seq<Entry>, points: map<PointId, nat>, i: nat, e: Entry, version: nat, ok: bool, stored: bool)
    requires i < |rows| && SameEntry(rows[i], e) && Unique(rows) && PointsOk(rows, points)
    ensures var points' := Index(points, e, version, ok, stored);
      && PointsGrow(points, points') && PointsOk(rows, points')
      && (ok ==> PointId(version, e.measurement) in points' && points'[PointId(version, e.measurement)] == e.tenant)
  {
    var points' := Index(points, e, version, ok, stored);
    var p := PointId(version, e.measurement);
    assert Owned(rows, p, e.tenant);
    if p in points {
      assert Owned(rows, p, points[p]);
    }
    forall q | q in points' ensures Owned(rows, q, points'[q]) {
      if q != p { assert Owned(rows, q, points[q]); }
    }
  }

  lemma TxnStable(rows: seq<Entry>, points: map<PointId, nat>, rows': seq<Entry>, points': map<PointId, nat>, t: Txn)
    requires TxnOk(rows, points, t) && |rows| <= |rows'| && PointsGrow(points, points')
    requires forall i | i in t.held && i < |rows| :: rows'[i] == rows[i]
    ensures TxnOk(rows', points', t)
  {
  }

  // A new session that holds only free entries.
  lemma SessionOpens(s: State, w: nat, t: Txn)
    requires Inv(s) && w !in s.txns && TxnOk(s.rows, s.points, t) && forall i | i in t.held :: !IsLocked(s, i)
    ensures Inv(s.(txns := s.txns[w := t]))
  {
    var s' := s.(txns := s.txns[w := t]);
    forall v, u | v in s'.txns && u in s'.txns && v != u ensures Apart(s'.txns[v], s'.txns[u]) {
      if v != w && u != w { assert Apart(s.txns[v], s.txns[u]); }
    }
  }

  lemma SweepStep(s: State, w: nat, limit: nat, lease: int)
    requires Inv(s) && w !in s.txns
    ensures Inv(Apply(s, Sweep(w, limit, lease)))
  {
    var t := SweepTxn(s, w, limit, lease);
    forall i | i in t.held ensures !IsLocked(s, i) { assert i !in Locked(s); }
    assert TxnOk(s.rows, s.points, t);
    SessionOpens(s, w, t);
  }

  lemma TriggerTxnOk(s: State, w: nat, i: nat)
    requires i < |s.rows| && EntryOk(s.points, s.rows[i])
    ensures TxnOk(s.rows, s.points, TriggerTxn(s, w, i))
  {
  }

  lemma TriggerStep(s: State, w: nat, i: nat)
    requires Inv(s) && Enabled(s, Trigger(w, i))
    ensures Inv(Apply(s, Trigger(w, i)))
  {
    TriggerTxnOk(s, w, i);
    SessionOpens(s, w, TriggerTxn(s, w, i));
  }

  lemma OwnedStable(rows: seq<Entry>, rows': seq<Entry>, points: map<PointId, nat>)
    requires PointsOk(rows, points) && |rows| <= |rows'|
    requires forall i | 0 <= i < |rows| :: rows'[i].measurement == rows[i].measurement && rows'[i].tenant == rows[i].tenant
    ensures PointsOk(rows', points)
  {
    forall p | p in points ensures Owned(rows', p, points[p]) {
      assert Owned(rows, p, points[p]);
      var i :| 0 <= i < |rows| && rows[i].measurement == p.measurement && rows[i].tenant == points[p];
      assert rows'[i].measurement == p.measurement;
    }
  }

  // Finishing entry `i` of a transaction, with the points already written.
  lemma FinishOk(rows: seq<Entry>, points: map<PointId, nat>, t: Txn, i: nat, ok: bool, version: nat)
    requires TxnOk(rows, points, t) && i in t.todo
    requires ok ==> var p := PointId(version, t.todo[i].measurement); p in points && points[p] == t.todo[i].tenant
    ensures TxnOk(rows, points, t.(todo := t.todo - {i}, done := t.done[i := Finish(t.todo[i], ok, version)]))
  {
  }

  lemma SameLocks(txns: map<nat, Txn>, txns': map<nat, Txn>)
    requires LocksOk(txns) && forall w | w in txns' :: w in txns && txns'[w].held == txns[w].held
    ensures LocksOk(txns')
  {
    forall v, w | v in txns' && w in txns' && v != w ensures Apart(txns'[v], txns'[w]) {
      assert Apart(txns[v], txns[w]);
    }
  }

  lemma ProcessTxns(s: State, w: nat, i: nat, ok: bool, stored: bool)
    requires Inv(s) && Enabled(s, Process(w, i, ok, stored))
    ensures var s' := Apply(s, Process(w, i, ok, stored));
      && PointsGrow(s.points, s'.points) && PointsOk(s.rows, s'.points)
      && forall v | v in s'.txns :: TxnOk(s.rows, s'.points, s'.txns[v])
  {
    var s', t := Apply(s, Process(w, i, ok, stored)), s.txns[w];
    IndexGrows(s.rows, s.points, i, t.todo[i], s.version, ok, stored);
    TxnStable(s.rows, s.points, s.rows, s'.points, t);
    FinishOk(s.rows, s'.points, t, i, ok, s.version);
    forall v | v in s'.txns ensures TxnOk(s.rows, s'.points, s'.txns[v]) {
      if v != w { TxnStable(s.rows, s.points, s.rows, s'.points, s.txns[v]); }
    }
  }

  lemma ProcessStep(s: State, w: nat, i: nat, ok: bool, stored: bool)
    requires Inv(s) && Enabled(s, Process(w, i, ok, stored))
    ensures Inv(Apply(s, Process(w, i, ok, stored)))
  {
    ProcessTxns(s, w, i, ok, stored);
    SameLocks(s.txns, Apply(s, Process(w, i, ok, stored)).txns);
  }

  lemma CommitStep(s: State, w: nat)
    requires Inv(s) && Enabled(s, Commit(w))
    ensures Inv(Apply(s, Commit(w)))
  {
    var s', t := Apply(s, Commit(w)), s.txns[w];
    forall v | v in s'.txns ensures TxnOk(s'.rows, s'.points, s'.txns[v]) {
      assert Apart(t, s.txns[v]);
      TxnStable(s.rows, s.points, s'.rows, s'.points, s.txns[v]);
    }
    forall i | 0 <= i < |s.rows| ensures SameEntry(s.rows[i], s'.rows[i]) {
    }
    OwnedStable(s.rows, s'.rows, s.points);
  }

  lemma CreateStep(s: State, m: nat, tenant: nat)
    requires Inv(s)
    ensures Inv(Apply(s, Create(m, tenant)))
  {
    var s' := Apply(s, Create(m, tenant));
    forall w | w in s'.txns ensures TxnOk(s'.rows, s'.points, s'.txns[w]) {
      TxnStable(s.rows, s.points, s'.rows, s'.points, s.txns[w]);
    }
    OwnedStable(s.rows, s'.rows, s.points);
  }

  lemma StepKeepsInv(s: State, l: Label)
    requires Inv(s) && Enabled(s, l)
    ensures Inv(Apply(s, l))
  {
    match l
    case Tick(_) =>
    case Bump(_) =>
    case Create(m, tenant) => CreateStep(s, m, tenant);
    case Sweep(w, limit, lease) => SweepStep(s, w, limit, lease);
    case Trigger(w, i) => TriggerStep(s, w, i);
    case Process(w, i, ok, stored) => ProcessStep(s, w, i, ok, stored);
    case Commit(w) => CommitStep(s, w);
    case Crash(w) =>
  }

  lemma {:induction false} RunInv(run: seq<State>, labels: seq<Label>, k: nat)
    requires IsRun(run, labels) && k <= |labels|
    ensures Inv(run[k])
  {
    if k > 0 {
      RunInv(run, labels, k - 1);
      assert Enabled(run[k - 1], labels[k - 1]) && run[k - 1 + 1] == Apply(run[k - 1], labels[k - 1]);
      StepKeepsInv(run[k - 1], labels[k - 1]);
    }
  }

  /* ---- The theorems ---- */

  /** Under any interleaving of drainers, triggers, version bumps and crashes: each trigger can push an
      entry at most one attempt beyond its budget of three; a completed entry has a point for the version
      it is stamped with, under its own measurement and tenant; and no other entry shares that point. */
  lemma IndexedForGood(run: seq<State>, labels: seq<Label>, k: nat, i: nat)
    requires IsRun(run, labels) && k <= |labels| && i < |run[k].rows|
    ensures var s, e := run[k], run[k].rows[i];
      && e.attempts <= 3 + e.triggers
      && (e.triggers <= 1 ==> e.attempts <= 4)
      && (e.status == COMPLETED ==>
            PointId(e.version, e.measurement) in s.points && s.points[PointId(e.version, e.measurement)] == e.tenant)
      && (forall j | 0 <= j < |s.rows| && s.rows[j].measurement == e.measurement :: j == i)
  {
    RunInv(run, labels, k);
    assert EntryOk(run[k].points, run[k].rows[i]);
  }

  /** What the statuses of committed entries say. None is ever CLAIMED, because a session finishes what it
      claims, so the lease branch of both filters never applies; and an entry in the store still needs
      processing exactly when it has budget left and is not completed under the current version. */
  lemma NothingLeftClaimed(run: seq<State>, labels: seq<Label>, k: nat, i: nat)
    requires IsRun(run, labels) && k <= |labels| && i < |run[k].rows|
    ensures var s, e := run[k], run[k].rows[i];
      && e.status != CLAIMED
      && (e.status == PENDING ==> e.attempts == 0)
      && (e.status == FAILED ==> 0 < e.attempts < 3)
      && (e.status == DEAD_LETTERED ==> e.attempts >= 3)
      && (NeedsProcessing(e, s.now, s.version) <==> e.attempts < 3 && !(e.status == COMPLETED && e.version == s.version))
  {
    RunInv(run, labels, k);
    assert EntryOk(run[k].points, run[k].rows[i]);
  }

  /** Every point was written for the tenant of the one entry with its measurement. */
  lemma PointsKeepTheirTenant(run: seq<State>, labels: seq<Label>, k: nat, p: PointId, i: nat)
    requires IsRun(run, labels) && k <= |labels| && p in run[k].points
    requires i < |run[k].rows| && run[k].rows[i].measurement == p.measurement
    ensures run[k].points[p] == run[k].rows[i].tenant
  {
    RunInv(run, labels, k);
    assert Owned(run[k].rows, p, run[k].points[p]);
  }

  /** What processing an entry leaves in the vector store: its point for the version of the moment, exactly when the
      call went through or failed after writing, and every other point as it was. A failed call that wrote all
      the same leaves a point behind without completing its entry. */
  lemma ProcessWrites(s: State, w: nat, i: nat, ok: bool, stored: bool, p: PointId)
    requires Enabled(s, Process(w, i, ok, stored))
    ensures var s' := Apply(s, Process(w, i, ok, stored));
      var own := PointId(s.version, s.txns[w].todo[i].measurement);
      && (p != own || !(ok || stored) ==> (p in s'.points <==> p in s.points) && (p in s.points ==> s'.points[p] == s.points[p]))
      && (ok || stored ==> own in s'.points && s'.points[own] == s.txns[w].todo[i].tenant)
      && (s'.txns[w].done[i].status == COMPLETED <==> ok)
  {
  }

  /** What a sweep locks and claims: at most `limit` entries, none of which another session holds; no
      older matching entry that was free is passed over for a younger one; and of the locked entries exactly
      those that need processing are claimed, within their budget. */
  lemma SweepClaims(s: State, w: nat, limit: nat, lease: int)
    requires Enabled(s, Sweep(w, limit, lease))
    ensures var t := Apply(s, Sweep(w, limit, lease)).txns[w];
      && |t.held| <= limit
      && (forall i | i in t.held :: i < |s.rows| && !IsLocked(s, i) && SqlMatches(s.rows[i], s.now))
      && (forall i, j | 0 <= i < j < |s.rows| && j in t.held && !IsLocked(s, i) && SqlMatches(s.rows[i], s.now) :: i in t.held)
      && (forall i | i in t.held :: i in t.todo <==> NeedsProcessing(s.rows[i], s.now, s.version))
      && (forall i | i in t.todo :: i in t.held && t.todo[i].attempts == s.rows[i].attempts + 1 <= s.rows[i].maxRetries)
  {
    SelectedSize(s, limit, |s.rows|);
    assert SelectedSet(s, limit) == SelectedTo(s, limit, |s.rows|);
    forall i, j | 0 <= i < j < |s.rows| && Selected(s.rows, Locked(s), s.now, limit, j)
                  && i !in Locked(s) && SqlMatches(s.rows[i], s.now)
      ensures Selected(s.rows, Locked(s), s.now, limit, i)
    {
      MatchingGrows(s.rows, Locked(s), s.now, i, j);
    }
  }

  ghost function SelectedTo(s: State, limit: nat, k: nat): set<nat>
    requires k <= |s.rows|
  {
    set i | 0 <= i < k && Selected(s.rows, Locked(s), s.now, limit, i)
  }

  lemma SelectedNext(s: State, limit: nat, k: nat)
    requires k < |s.rows|
    ensures |SelectedTo(s, limit, k + 1)|
            == |SelectedTo(s, limit, k)| + if Selected(s.rows, Locked(s), s.now, limit, k) then 1 else 0
  {
    if Selected(s.rows, Locked(s), s.now, limit, k) {
      assert SelectedTo(s, limit, k + 1) == SelectedTo(s, limit, k) + {k};
    } else {
      assert SelectedTo(s, limit, k + 1) == SelectedTo(s, limit, k);
    }
  }

  lemma {:induction false} SelectedSize(s: State, limit: nat, k: nat)
    requires k <= |s.rows|
    ensures |SelectedTo(s, limit, k)| <= limit && |SelectedTo(s, limit, k)| <= Matching(s.rows, Locked(s), s.now, k)
  {
    if k > 0 {
      SelectedSize(s, limit, k - 1);
      SelectedNext(s, limit, k - 1);
    } else {
      assert SelectedTo(s, limit, 0) == {};
    }
  }

  lemma {:induction false} MatchingGrows(rows: seq<Entry>, locked: set<nat>, now: int, i: nat, k: nat)
    requires i <= k <= |rows|
    ensures Matching(rows, locked, now, i) <= Matching(rows, locked, now, k)
    decreases k - i
  {
    if i < k {
      MatchingGrows(rows, locked, now, i, k - 1);
    }
  }
}
