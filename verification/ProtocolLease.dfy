/** What a lease is worth: nobody else can claim a row while the lease of its last committed claim runs, and
    anybody can once it is over. */
module ProtocolLease {
  import opened Domain
  import opened Execution
  import opened ExecutionLaws
  import opened Protocol
  import opened ProtocolInvariant
  import ProtocolDrain
  import ProtocolRuns
  import ProtocolTheorems

  // Claim number `n`, with a lease until `until`.
  predicate Under(ob: Outbox, n: nat, until: int) { ob.attemptCount == n && ob.leaseExpiresAt == Some(until) }

  // Transaction `w` holds claim number `n` of row `a`, with a lease until `until`.
  ghost predicate InHand(s: State, w: nat, a: nat, n: nat, until: int) {
    && w in s.txns && a in s.rows && (a in s.txns[w].claimed || a in s.txns[w].rows)
    && (a in s.txns[w].claimed ==> Under(s.txns[w].claimed[a], n, until))
    && (a in s.txns[w].rows ==> Under(s.txns[w].rows[a].outbox, n, until))
  }

  // Whatever a transaction knows of row `a` is a claim after number `n`.
  predicate Later(t: Txn, a: nat, n: nat) {
    && (a in t.claimed ==> t.claimed[a].attemptCount > n)
    && (a in t.rows ==> t.rows[a].outbox.attemptCount > n)
  }

  // Claim number `n` of row `a` was committed with a lease until `until`; later ones may have followed.
  ghost predicate Leased(s: State, a: nat, n: nat, until: int) {
    && a in s.rows && s.rows[a].outbox.attemptCount >= n
    && (s.rows[a].outbox.attemptCount == n ==> s.rows[a].outbox.leaseExpiresAt == Some(until))
    && forall w | w in s.txns :: Later(s.txns[w], a, n)
  }

  lemma ClaimStarts(s: State, w: nat, batch: set<nat>, lease: int, a: nat)
    requires CanClaim(s, w, batch) && a in batch
    ensures InHand(DoClaim(s, w, batch, lease), w, a, s.rows[a].outbox.attemptCount + 1, s.now + lease)
  {
  }

  // An execution keeps the claim it was made under.
  lemma ExecutionKeepsClaim(s: State, w: nat, b: nat, env: Env)
    requires Inv(s) && CanExecute(s, w, b)
    ensures var ob := Executed(s, w, b, env).row.outbox;
      ob.attemptCount == s.txns[w].claimed[b].attemptCount && ob.leaseExpiresAt == s.txns[w].claimed[b].leaseExpiresAt
  {
    ProtocolTheorems.SeenLinks(s, w, b);
    ProcessShape(b, RowSeen(s, w, b), ProtocolTheorems.FactsSeen(s, w, b), env);
  }

  // Transaction `v` has executed row `b` under the claim it held.
  ghost predicate Ran(s: State, s': State, v: nat, b: nat) {
    && v in s.txns && b in s.txns[v].claimed && s'.rows == s.rows && s'.txns.Keys == s.txns.Keys
    && (forall u | u in s.txns && u != v :: s'.txns[u] == s.txns[u])
    && s'.txns[v].claimed == s.txns[v].claimed - {b} && b in s'.txns[v].rows
    && s'.txns[v].rows == s.txns[v].rows[b := s'.txns[v].rows[b]]
    && s'.txns[v].rows[b].outbox.attemptCount == s.txns[v].claimed[b].attemptCount
    && s'.txns[v].rows[b].outbox.leaseExpiresAt == s.txns[v].claimed[b].leaseExpiresAt
  }

  lemma ExecuteRan(s: State, v: nat, b: nat, env: Env, created: bool)
    requires CanExecute(s, v, b)
    requires var ob := Executed(s, v, b, env).row.outbox;
      ob.attemptCount == s.txns[v].claimed[b].attemptCount && ob.leaseExpiresAt == s.txns[v].claimed[b].leaseExpiresAt
    ensures Ran(s, DoExecute(s, v, b, env, created), v, b)
  {
  }

  lemma ExecuteRuns(s: State, v: nat, b: nat, env: Env, created: bool)
    requires Inv(s) && CanExecute(s, v, b)
    ensures Ran(s, DoExecute(s, v, b, env, created), v, b)
  {
    ExecutionKeepsClaim(s, v, b, env);
    ExecuteRan(s, v, b, env, created);
  }

  lemma HandKeptByRun(s: State, s': State, w: nat, a: nat, n: nat, until: int, v: nat, b: nat)
    requires InHand(s, w, a, n, until) && Ran(s, s', v, b)
    ensures InHand(s', w, a, n, until)
  {
  }

  lemma LeasedKeptByRun(s: State, s': State, a: nat, n: nat, until: int, v: nat, b: nat)
    requires Leased(s, a, n, until) && Ran(s, s', v, b)
    ensures Leased(s', a, n, until)
  {
    forall w | w in s'.txns ensures Later(s'.txns[w], a, n) {
      assert Later(s.txns[w], a, n);
    }
  }

  lemma HandKeptByExecute(s: State, w: nat, a: nat, n: nat, until: int, v: nat, b: nat, env: Env, created: bool)
    requires Inv(s) && InHand(s, w, a, n, until) && CanExecute(s, v, b)
    ensures InHand(DoExecute(s, v, b, env, created), w, a, n, until)
  {
    ExecuteRuns(s, v, b, env, created);
    HandKeptByRun(s, DoExecute(s, v, b, env, created), w, a, n, until, v, b);
  }

  lemma LeasedKeptByExecute(s: State, a: nat, n: nat, until: int, v: nat, b: nat, env: Env, created: bool)
    requires Inv(s) && Leased(s, a, n, until) && CanExecute(s, v, b)
    ensures Leased(DoExecute(s, v, b, env, created), a, n, until)
  {
    ExecuteRuns(s, v, b, env, created);
    LeasedKeptByRun(s, DoExecute(s, v, b, env, created), a, n, until, v, b);
  }

  // A step that does not end transaction `w`.
  predicate Spares(l: Label, w: nat) { l != Commit(w) && l != Crash(w) }

  lemma HandKeptByPoller(s: State, l: Label, w: nat, a: nat, n: nat, until: int)
    requires InHand(s, w, a, n, until) && Enabled(s, l) && Spares(l, w) && (l.Claim? || l.Commit? || l.Crash?)
    ensures InHand(Apply(s, l), w, a, n, until)
  {
  }

  lemma LeasedKeptByClaim(s: State, a: nat, n: nat, until: int, v: nat, batch: set<nat>, lease: int)
    requires Leased(s, a, n, until) && CanClaim(s, v, batch)
    ensures Leased(DoClaim(s, v, batch, lease), a, n, until)
  {
    var s' := DoClaim(s, v, batch, lease);
    forall w | w in s'.txns ensures Later(s'.txns[w], a, n) {
      if w != v { assert Later(s.txns[w], a, n); }
    }
  }

  lemma LeasedKeptByCommit(s: State, a: nat, n: nat, until: int, v: nat)
    requires Leased(s, a, n, until) && CanCommit(s, v)
    ensures Leased(DoCommit(s, v), a, n, until)
  {
    assert Later(s.txns[v], a, n);
    forall w | w in DoCommit(s, v).txns ensures Later(DoCommit(s, v).txns[w], a, n) {
      assert Later(s.txns[w], a, n);
    }
  }

  lemma LeasedKeptByCrash(s: State, a: nat, n: nat, until: int, v: nat)
    requires Leased(s, a, n, until) && v in s.txns
    ensures Leased(DoCrash(s, v), a, n, until)
  {
    forall w | w in DoCrash(s, v).txns ensures Later(DoCrash(s, v).txns[w], a, n) {
      assert Later(s.txns[w], a, n);
    }
  }

  // The steps of the services and of the clock leave every transaction and every old outbox entry alone.
  lemma OthersKeepEntries(s: State, l: Label, a: nat)
    requires IdsOk(s) && a in s.rows && Enabled(s, l) && !ProtocolRuns.IsPoller(l)
    ensures Apply(s, l).txns == s.txns && ProtocolDrain.SameEntry(s, Apply(s, l), a)
  {
    if l.Confirm? {
      ProtocolDrain.EntryUnderConfirm(s, a, l.event, l.look, l.measure);
    } else if ProtocolRuns.IsQuiet(l) {
      ProtocolRuns.QuietGrows(s, l);
    } else if l.Decide? {
      ProtocolDrain.EntryUnderDecide(s, a, l.intake, l.adapter, l.env, l.created, l.lost);
    } else {
      ProtocolDrain.EntryUnderGateway(s, a, l.caseId, l.decisionId, l.amount, l.env, l.created, l.lost);
    }
  }

  lemma HandKeptOtherwise(s: State, l: Label, w: nat, a: nat, n: nat, until: int)
    requires IdsOk(s) && InHand(s, w, a, n, until) && Enabled(s, l) && Spares(l, w) && !l.Execute?
    ensures InHand(Apply(s, l), w, a, n, until)
  {
    if ProtocolRuns.IsPoller(l) {
      HandKeptByPoller(s, l, w, a, n, until);
    } else {
      OthersKeepEntries(s, l, a);
    }
  }

  lemma HandKept(s: State, l: Label, s': State, w: nat, a: nat, n: nat, until: int)
    requires Inv(s) && InHand(s, w, a, n, until) && Enabled(s, l) && s' == Apply(s, l) && Spares(l, w)
    ensures InHand(s', w, a, n, until)
  {
    if l.Execute? {
      HandKeptByExecute(s, w, a, n, until, l.worker, l.action, l.env, l.created);
    } else {
      HandKeptOtherwise(s, l, w, a, n, until);
    }
  }

  lemma LeasedKeptByPoller(s: State, l: Label, a: nat, n: nat, until: int)
    requires Leased(s, a, n, until) && Enabled(s, l) && (l.Claim? || l.Commit? || l.Crash?)
    ensures Leased(Apply(s, l), a, n, until)
  {
    match l
    case Claim(v, batch, lease) => LeasedKeptByClaim(s, a, n, until, v, batch, lease);
    case Commit(v) => LeasedKeptByCommit(s, a, n, until, v);
    case Crash(v) => LeasedKeptByCrash(s, a, n, until, v);
  }

  lemma LeasedKeptOtherwise(s: State, l: Label, a: nat, n: nat, until: int)
    requires IdsOk(s) && Leased(s, a, n, until) && Enabled(s, l) && !l.Execute?
    ensures Leased(Apply(s, l), a, n, until)
  {
    if ProtocolRuns.IsPoller(l) {
      LeasedKeptByPoller(s, l, a, n, until);
    } else {
      OthersKeepEntries(s, l, a);
    }
  }

  lemma LeasedKept(s: State, l: Label, s': State, a: nat, n: nat, until: int)
    requires Inv(s) && Leased(s, a, n, until) && Enabled(s, l) && s' == Apply(s, l)
    ensures Leased(s', a, n, until)
  {
    if l.Execute? {
      LeasedKeptByExecute(s, a, n, until, l.worker, l.action, l.env, l.created);
    } else {
      LeasedKeptOtherwise(s, l, a, n, until);
    }
  }

  lemma CommitLeases(s: State, w: nat, a: nat, n: nat, until: int)
    requires Inv(s) && InHand(s, w, a, n, until) && CanCommit(s, w)
    ensures Leased(DoCommit(s, w), a, n, until)
  {
    forall v | v in s.txns && v != w ensures Later(s.txns[v], a, n) {
      assert Disjoint(s.txns[w], s.txns[v]);
    }
  }

  lemma CommitLabel(s: State, l: Label, s': State, w: nat, a: nat, n: nat, until: int)
    requires Inv(s) && InHand(s, w, a, n, until) && l == Commit(w) && Enabled(s, l) && s' == Apply(s, l)
    ensures Leased(s', a, n, until)
  {
    CommitLeases(s, w, a, n, until);
  }

  /* ---- Along a run ---- */

  // Step `i` is a claim that step `j` commits.
  ghost predicate ClaimCommitted(labels: seq<Label>, i: nat, j: nat) {
    && i < j < |labels| && labels[i].Claim? && labels[j] == Commit(labels[i].worker)
    && forall m | i < m < j :: Spares(labels[m], labels[i].worker)
  }

  lemma HandNext(run: seq<State>, labels: seq<Label>, k: nat, w: nat, a: nat, n: nat, until: int)
    requires IsPath(run, labels) && ProtocolRuns.AllInv(run) && 0 < k <= |labels| && Spares(labels[k - 1], w)
    requires InHand(run[k - 1], w, a, n, until)
    ensures InHand(run[k], w, a, n, until)
  {
    assert Inv(run[k - 1]);
    ProtocolRuns.PathStep(run, labels, k);
    HandKept(run[k - 1], labels[k - 1], run[k], w, a, n, until);
  }

  lemma {:induction false} HandAlong(run: seq<State>, labels: seq<Label>, i: nat, k: nat, w: nat, a: nat, n: nat, until: int)
    requires IsPath(run, labels) && ProtocolRuns.AllInv(run) && i <= k <= |labels|
    requires InHand(run[i], w, a, n, until) && forall m | i <= m < k :: Spares(labels[m], w)
    ensures InHand(run[k], w, a, n, until)
  {
    if i < k {
      HandAlong(run, labels, i, k - 1, w, a, n, until);
      assert Spares(labels[k - 1], w);
      HandNext(run, labels, k, w, a, n, until);
    }
  }

  lemma LeasedNext(run: seq<State>, labels: seq<Label>, k: nat, a: nat, n: nat, until: int)
    requires IsPath(run, labels) && ProtocolRuns.AllInv(run) && 0 < k <= |labels| && Leased(run[k - 1], a, n, until)
    ensures Leased(run[k], a, n, until)
  {
    assert Inv(run[k - 1]);
    ProtocolRuns.PathStep(run, labels, k);
    LeasedKept(run[k - 1], labels[k - 1], run[k], a, n, until);
  }

  lemma {:induction false} LeasedAlong(run: seq<State>, labels: seq<Label>, j: nat, k: nat, a: nat, n: nat, until: int)
    requires IsPath(run, labels) && ProtocolRuns.AllInv(run) && j <= k <= |labels| && Leased(run[j], a, n, until)
    ensures Leased(run[k], a, n, until)
  {
    if j < k {
      LeasedAlong(run, labels, j, k - 1, a, n, until);
      LeasedNext(run, labels, k, a, n, until);
    }
  }

  lemma CommitNext(run: seq<State>, labels: seq<Label>, j: nat, w: nat, a: nat, n: nat, until: int)
    requires IsPath(run, labels) && ProtocolRuns.AllInv(run) && j < |labels| && labels[j] == Commit(w)
    requires InHand(run[j], w, a, n, until)
    ensures Leased(run[j + 1], a, n, until)
  {
    assert Inv(run[j]);
    ProtocolRuns.PathStep(run, labels, j + 1);
    CommitLabel(run[j], labels[j], run[j + 1], w, a, n, until);
  }

  lemma ClaimNext(run: seq<State>, labels: seq<Label>, i: nat, a: nat)
    requires IsPath(run, labels) && i < |labels| && labels[i].Claim? && a in labels[i].batch
    ensures a in run[i].rows
    ensures InHand(run[i + 1], labels[i].worker, a, run[i].rows[a].outbox.attemptCount + 1, run[i].now + labels[i].lease)
  {
    ProtocolRuns.PathStep(run, labels, i + 1);
    ClaimStarts(run[i], labels[i].worker, labels[i].batch, labels[i].lease, a);
  }

  lemma ClaimIsLeased(run: seq<State>, labels: seq<Label>, i: nat, j: nat, k: nat, a: nat)
    requires IsPath(run, labels) && ProtocolRuns.AllInv(run) && ClaimCommitted(labels, i, j) && a in labels[i].batch
    requires j < k <= |labels|
    ensures a in run[i].rows
    ensures Leased(run[k], a, run[i].rows[a].outbox.attemptCount + 1, run[i].now + labels[i].lease)
  {
    ClaimNext(run, labels, i, a);
    var w, n, until := labels[i].worker, run[i].rows[a].outbox.attemptCount + 1, run[i].now + labels[i].lease;
    HandAlong(run, labels, i + 1, j, w, a, n, until);
    CommitNext(run, labels, j, w, a, n, until);
    LeasedAlong(run, labels, j + 1, k, a, n, until);
  }

  lemma LeasedDecides(s: State, a: nat, n: nat, until: int)
    requires Inv(s) && Leased(s, a, n, until) && s.rows[a].outbox.attemptCount == n >= 1
    ensures s.now <= until ==> forall v, batch | a in batch :: !CanClaim(s, v, batch)
    ensures s.now > until && Open(s.rows[a]) && n < MAX_RETRIES && !OutboxLocked(s, a) ==>
              forall v | v !in s.txns :: CanClaim(s, v, {a})
  {
    assert RowOk(s, a, s.rows[a]);
  }

  /** A lease protects its row for its length and no longer. Once a claim made at time `t` with lease `L` is
      committed, and as long as no later claim of the row is, the row cannot be claimed by anybody until `t + L`
      has passed; after that any idle worker can claim it, if it is still open, unlocked and has budget left. */
  lemma LeaseProtects(run: seq<State>, labels: seq<Label>, i: nat, j: nat, k: nat, a: nat)
    requires IsRun(run, labels) && ClaimCommitted(labels, i, j) && a in labels[i].batch && j < k <= |labels|
    ensures a in run[i].rows && a in run[k].rows
    ensures var until := run[i].now + labels[i].lease;
      run[k].rows[a].outbox.attemptCount == run[i].rows[a].outbox.attemptCount + 1 ==>
        && (run[k].now <= until ==>
              forall v, batch, lease | a in batch :: !Enabled(run[k], Claim(v, batch, lease)))
        && (run[k].now > until && Open(run[k].rows[a]) && !OutboxLocked(run[k], a)
            && run[k].rows[a].outbox.attemptCount < MAX_RETRIES ==>
              forall v, lease | v !in run[k].txns :: Enabled(run[k], Claim(v, {a}, lease)))
  {
    ProtocolRuns.InitialInv(run[0]);
    ProtocolRuns.PathAllInv(run, labels);
    ClaimIsLeased(run, labels, i, j, k, a);
    if run[k].rows[a].outbox.attemptCount == run[i].rows[a].outbox.attemptCount + 1 {
      assert Inv(run[k]);
      LeasedDecides(run[k], a, run[i].rows[a].outbox.attemptCount + 1, run[i].now + labels[i].lease);
    }
  }
}
