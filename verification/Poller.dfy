/** One sweep of the execution poller (ExecutionWorker.poll_once inside app/worker.py:48-53): claim a batch,
    execute its rows one after the other, commit. */
module Poller {
  import opened Execution
  import opened ExecutionLaws
  import opened Protocol
  import opened ProtocolInvariant
  import ProtocolDrain
  import ProtocolRuns
  import ProtocolTheorems

  predicate Distinct(batch: seq<nat>) {
    forall i, j | 0 <= i < j < |batch| :: batch[i] != batch[j]
  }

  function Elements(batch: seq<nat>): set<nat> { set i | 0 <= i < |batch| :: batch[i] }

  // No other transaction has written a case of the batch.
  ghost predicate CasesFree(s: State, batch: seq<nat>) {
    forall i, v | 0 <= i < |batch| && v in s.txns && batch[i] in s.rows ::
      s.rows[batch[i]].action.caseId !in s.txns[v].cases
  }

  // The state in the middle of a sweep that started in `s`: the first `k` rows of the batch are executed.
  ghost predicate Midway(s: State, t: State, w: nat, batch: seq<nat>, k: nat)
    requires k <= |batch|
  {
    && w !in s.txns && w in t.txns && t.txns - {w} == s.txns
    && t.rows == s.rows && t.cases == s.cases
    && t.txns[w].claimed.Keys == Elements(batch[k..]) && t.txns[w].rows.Keys == Elements(batch[..k])
    && (forall a | a in t.txns[w].claimed :: a in s.rows && CountsOneMore(s, a, t.txns[w].claimed[a]))
    && (forall a | a in t.txns[w].rows :: a in s.rows && CountsOneMore(s, a, t.txns[w].rows[a].outbox))
  }

  predicate CountsOneMore(s: State, a: nat, ob: Outbox)
    requires a in s.rows
  {
    ob.attemptCount == s.rows[a].outbox.attemptCount + 1
  }

  lemma SplitBatch(batch: seq<nat>, k: nat)
    requires Distinct(batch) && k < |batch|
    ensures batch[k] in Elements(batch[k..]) && Elements(batch[k + 1..]) == Elements(batch[k..]) - {batch[k]}
    ensures Elements(batch[..k + 1]) == Elements(batch[..k]) + {batch[k]}
  {
    assert batch[k..] == [batch[k]] + batch[k + 1..];
    assert batch[..k + 1] == batch[..k] + [batch[k]];
    forall x ensures x in Elements(batch[k..]) <==> x == batch[k] || x in Elements(batch[k + 1..]) {
      if x in Elements(batch[k + 1..]) {
        var i :| 0 <= i < |batch[k + 1..]| && batch[k + 1..][i] == x;
        assert batch[k..][i + 1] == x;
      }
      if x == batch[k] { assert batch[k..][0] == x; }
    }
    assert batch[k] !in Elements(batch[k + 1..]);
    forall x ensures x in Elements(batch[..k + 1]) <==> x == batch[k] || x in Elements(batch[..k]) {
      if x in Elements(batch[..k]) {
        var i :| 0 <= i < |batch[..k]| && batch[..k][i] == x;
        assert batch[..k + 1][i] == x;
      }
      if x == batch[k] { assert batch[..k + 1][k] == x; }
    }
  }

  lemma ExecutionKeepsCount(s: State, w: nat, a: nat, env: Env)
    requires Inv(s) && CanExecute(s, w, a)
    ensures Executed(s, w, a, env).row.outbox.attemptCount == s.txns[w].claimed[a].attemptCount
  {
    ProtocolTheorems.SeenLinks(s, w, a);
    ProcessKeepsBooks(a, RowSeen(s, w, a), ProtocolTheorems.FactsSeen(s, w, a), env);
  }

  lemma CanGoOn(s: State, t: State, w: nat, batch: seq<nat>, k: nat)
    requires k < |batch| && Midway(s, t, w, batch, k) && CasesFree(s, batch) && Distinct(batch)
    ensures CanExecute(t, w, batch[k])
  {
    SplitBatch(batch, k);
    var c := s.rows[batch[k]].action.caseId;
    forall v | v in t.txns && v != w ensures c !in t.txns[v].cases {
      assert v in s.txns && s.txns[v] == t.txns[v];
    }
  }

  // What executing row `a` does to the store and to its transaction.
  ghost predicate Advanced(t: State, t': State, w: nat, a: nat, ob: Outbox) {
    && w in t.txns && w in t'.txns && t'.rows == t.rows && t'.cases == t.cases
    && t'.txns - {w} == t.txns - {w}
    && a in t.txns[w].claimed && t'.txns[w].claimed == t.txns[w].claimed - {a}
    && t'.txns[w].rows.Keys == t.txns[w].rows.Keys + {a} && t'.txns[w].rows[a].outbox == ob
    && forall b | b in t.txns[w].rows && b != a :: t'.txns[w].rows[b] == t.txns[w].rows[b]
  }

  lemma ExecuteAdvances(t: State, w: nat, a: nat, env: Env, created: bool)
    requires CanExecute(t, w, a)
    ensures Advanced(t, DoExecute(t, w, a, env, created), w, a, Executed(t, w, a, env).row.outbox)
  {
  }

  lemma OneFurther(s: State, t: State, t': State, w: nat, batch: seq<nat>, k: nat, ob: Outbox)
    requires k < |batch| && Midway(s, t, w, batch, k) && Distinct(batch)
    requires Advanced(t, t', w, batch[k], ob) && ob.attemptCount == t.txns[w].claimed[batch[k]].attemptCount
    ensures Midway(s, t', w, batch, k + 1)
  {
    SplitBatch(batch, k);
  }

  // The claims still left in the budgets of the rows below `n`.
  function Left(s: State, n: nat): int {
    if n == 0 then 0
    else Left(s, n - 1) + if n - 1 in s.rows then MAX_RETRIES - s.rows[n - 1].outbox.attemptCount else 0
  }

  function Below(batch: set<nat>, n: nat): nat {
    if n == 0 then 0 else Below(batch, n - 1) + if n - 1 in batch then 1 else 0
  }

  lemma {:induction false} BelowIsSize(batch: set<nat>, n: nat)
    requires forall a | a in batch :: a < n
    ensures Below(batch, n) == |batch|
  {
    if n == 0 {
      assert batch == {};
    } else {
      BelowIsSize(batch - {n - 1}, n - 1);
      BelowOther(batch, n - 1, n - 1);
    }
  }

  lemma {:induction false} BelowOther(batch: set<nat>, a: nat, n: nat)
    requires n <= a
    ensures Below(batch - {a}, n) == Below(batch, n)
  {
    if n > 0 { BelowOther(batch, a, n - 1); }
  }

  lemma {:induction false} SpendOnce(s: State, s': State, batch: set<nat>, n: nat)
    requires s'.rows.Keys == s.rows.Keys && batch <= s.rows.Keys
    requires forall a | a in s.rows ::
               s'.rows[a].outbox.attemptCount == s.rows[a].outbox.attemptCount + if a in batch then 1 else 0
    ensures Left(s', n) == Left(s, n) - Below(batch, n)
  {
    if n > 0 { SpendOnce(s, s', batch, n - 1); }
  }

  lemma {:induction false} LeftIsNotNegative(s: State, n: nat)
    requires Inv(s)
    ensures Left(s, n) >= 0
  {
    if n > 0 {
      LeftIsNotNegative(s, n - 1);
      if n - 1 in s.rows { assert RowOk(s, n - 1, s.rows[n - 1]); }
    }
  }

  lemma SizeOf(batch: seq<nat>)
    requires Distinct(batch)
    ensures |Elements(batch)| == |batch|
  {
    SizeOfPrefix(batch, |batch|);
    assert batch[..|batch|] == batch;
  }

  lemma {:induction false} SizeOfPrefix(batch: seq<nat>, k: nat)
    requires Distinct(batch) && k <= |batch|
    ensures |Elements(batch[..k])| == k
  {
    if k > 0 {
      SizeOfPrefix(batch, k - 1);
      SplitBatch(batch, k - 1);
      assert batch[k - 1] !in Elements(batch[..k - 1]);
    }
  }

  lemma CommitCounts(s: State, t: State, w: nat, batch: seq<nat>)
    requires Midway(s, t, w, batch, |batch|)
    ensures CanCommit(t, w)
    ensures var s' := DoCommit(t, w);
      && s'.txns == s.txns && s'.rows.Keys == s.rows.Keys
      && forall a | a in s.rows ::
           && (a !in Elements(batch) ==> s'.rows[a] == s.rows[a])
           && s'.rows[a].outbox.attemptCount == s.rows[a].outbox.attemptCount + if a in Elements(batch) then 1 else 0
  {
    assert batch[|batch|..] == [] && batch[..|batch|] == batch;
    assert t.txns[w].claimed.Keys == {};
  }

  lemma CommitSpends(s: State, t: State, w: nat, batch: seq<nat>)
    requires Midway(s, t, w, batch, |batch|) && IdsOk(s) && Distinct(batch) && Elements(batch) <= s.rows.Keys
    ensures CanCommit(t, w)
    ensures var s' := DoCommit(t, w);
      && s'.txns == s.txns && s'.rows.Keys == s.rows.Keys
      && (forall a | a in s.rows && a !in batch :: s'.rows[a] == s.rows[a])
      && Left(s', s.nextId) == Left(s, s.nextId) - |batch|
  {
    CommitCounts(s, t, w, batch);
    SpendOnce(s, DoCommit(t, w), Elements(batch), s.nextId);
    assert forall a | a in Elements(batch) :: a in s.rows;
    BelowIsSize(Elements(batch), s.nextId);
    SizeOf(batch);
  }

  lemma Finished(s: State, t: State, w: nat, batch: seq<nat>)
    requires Inv(s) && ProtocolDrain.Leads(s, t) && Midway(s, t, w, batch, |batch|)
    requires Distinct(batch) && Elements(batch) <= s.rows.Keys
    ensures CanCommit(t, w)
    ensures var s' := DoCommit(t, w);
      && ProtocolDrain.Leads(s, s') && Inv(s')
      && s'.txns == s.txns && s'.rows.Keys == s.rows.Keys
      && (forall a | a in s.rows && a !in batch :: s'.rows[a] == s.rows[a])
      && 0 <= Left(s', s.nextId) == Left(s, s.nextId) - |batch|
  {
    CommitSpends(s, t, w, batch);
    ProtocolDrain.LeadsOn(s, t, Commit(w));
    LeadsInv(s, DoCommit(t, w));
    LeftIsNotNegative(DoCommit(t, w), s.nextId);
  }

  lemma Started(s: State, w: nat, batch: seq<nat>, lease: int)
    requires CanClaim(s, w, Elements(batch))
    ensures var t := DoClaim(s, w, Elements(batch), lease); Midway(s, t, w, batch, 0) && ProtocolDrain.Leads(s, t)
  {
    ProtocolDrain.LeadsHere(s);
    ProtocolDrain.LeadsOn(s, s, Claim(w, Elements(batch), lease));
    assert batch[0..] == batch && batch[..0] == [];
    assert DoClaim(s, w, Elements(batch), lease).txns - {w} == s.txns;
  }

  lemma LeadsInv(s: State, t: State)
    requires Inv(s) && ProtocolDrain.Leads(s, t)
    ensures Inv(t)
  {
    var run, labels :| IsPath(run, labels) && run[0] == s && run[|labels|] == t;
    ProtocolRuns.PathInv(run, labels, |labels|);
  }

  lemma Executes(s: State, t: State, w: nat, batch: seq<nat>, k: nat, env: Env, created: bool)
    requires k < |batch| && Inv(t) && Midway(s, t, w, batch, k) && CasesFree(s, batch) && Distinct(batch)
    ensures CanExecute(t, w, batch[k])
    ensures Midway(s, DoExecute(t, w, batch[k], env, created), w, batch, k + 1)
  {
    CanGoOn(s, t, w, batch, k);
    ExecutionKeepsCount(t, w, batch[k], env);
    ExecuteAdvances(t, w, batch[k], env, created);
    OneFurther(s, t, DoExecute(t, w, batch[k], env, created), w, batch, k, Executed(t, w, batch[k], env).row.outbox);
  }

  lemma Advance(s: State, t: State, w: nat, batch: seq<nat>, k: nat, env: Env, created: bool)
    requires k < |batch| && Inv(s) && ProtocolDrain.Leads(s, t) && Midway(s, t, w, batch, k)
    requires CasesFree(s, batch) && Distinct(batch)
    ensures CanExecute(t, w, batch[k])
    ensures var t' := DoExecute(t, w, batch[k], env, created);
      Midway(s, t', w, batch, k + 1) && ProtocolDrain.Leads(s, t')
  {
    LeadsInv(s, t);
    Executes(s, t, w, batch, k, env, created);
    ProtocolDrain.LeadsOn(s, t, Execute(w, batch[k], env, created));
  }

  /** poll_once and the commit behind it: a sweep is a path of the protocol, so every guarantee of the
      protocol holds of it. It leaves no transaction behind, changes only the rows of its batch, and uses
      up exactly one unit of the non-negative total budget per row: in a quiet system polling ends. */
  method PollOnce(s: State, w: nat, batch: seq<nat>, lease: int, envs: seq<Env>, created: seq<bool>) returns (s': State)
    requires Inv(s) && Distinct(batch) && CanClaim(s, w, Elements(batch)) && CasesFree(s, batch)
    requires |envs| == |batch| == |created|
    ensures ProtocolDrain.Leads(s, s') && Inv(s')
    ensures s'.txns == s.txns && s'.rows.Keys == s.rows.Keys
    ensures forall a | a in s.rows && a !in batch :: s'.rows[a] == s.rows[a]
    ensures 0 <= Left(s', s.nextId) == Left(s, s.nextId) - |batch|
  {
    var t := DoClaim(s, w, Elements(batch), lease);
    Started(s, w, batch, lease);
    var k := 0;
    while k < |batch|
      invariant 0 <= k <= |batch|
      invariant ProtocolDrain.Leads(s, t) && Midway(s, t, w, batch, k)
    {
      Advance(s, t, w, batch, k, envs[k], created[k]);
      t := DoExecute(t, w, batch[k], envs[k], created[k]);
      k := k + 1;
    }
    Finished(s, t, w, batch);
    s' := DoCommit(t, w);
  }
}
