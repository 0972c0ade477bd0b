/** When an entry of the knowledge outbox is never drained. Up-to-date completed entries are selected and
    locked by every sweep before the second filter discards them, so they use up its limit; but while one
    session holds them, another one reaches past them. */
module KnowledgeStarvation {
  import opened KnowledgeOutbox

  // An up-to-date completed entry with budget left: the query keeps selecting it, and nothing changes it.
  predicate Current(s: State, j: nat) {
    j < |s.rows| && s.rows[j].status == COMPLETED && s.rows[j].version == s.version
    && s.rows[j].attempts < s.rows[j].maxRetries
  }

  // The steps in question: no new index version, no trigger for entry `i`, sweeps of at most `limit`.
  predicate Ordinary(l: Label, i: nat, limit: nat) {
    !l.Bump? && !(l.Trigger? && l.entry == i) && (l.Sweep? ==> l.limit <= limit)
  }

  /** Entry `i` waits behind the current entries of `front`, and no session holds more than `limit`
      entries or works on the front. */
  ghost predicate Starved(s: State, i: nat, front: set<nat>, limit: nat) {
    && i < |s.rows| && s.rows[i].status == PENDING && !IsLocked(s, i)
    && (forall j | j in front :: j < i && Current(s, j))
    && (forall w | w in s.txns :: |s.txns[w].held| <= limit && Idle(s.txns[w], front))
  }

  predicate Idle(t: Txn, front: set<nat>) {
    forall j | j in front :: j !in t.todo && j !in t.done
  }

  lemma {:induction false} FrontFills(rows: seq<Entry>, locked: set<nat>, now: int, front: set<nat>, k: nat)
    requires k <= |rows|
    requires forall j | j in front :: j < k && j !in locked && SqlMatches(rows[j], now)
    ensures Matching(rows, locked, now, k) >= |front|
  {
    if k == 0 {
      assert front == {};
    } else {
      FrontFills(rows, locked, now, front - {k - 1}, k - 1);
    }
  }

  // Everything the sessions hold together.
  ghost function AllHeld(txns: map<nat, Txn>): set<nat>
    decreases |txns|
  {
    if txns == map[] then {}
    else
      var w :| w in txns;
      txns[w].held + AllHeld(txns - {w})
  }

  lemma {:induction false} HeldIsAllHeld(txns: map<nat, Txn>, w: nat, i: nat)
    requires w in txns && i in txns[w].held
    ensures i in AllHeld(txns)
    decreases |txns|
  {
    var v :| v in txns && AllHeld(txns) == txns[v].held + AllHeld(txns - {v});
    if v != w { HeldIsAllHeld(txns - {v}, w, i); }
  }

  lemma {:induction false} AllHeldSize(txns: map<nat, Txn>, limit: nat)
    requires forall w | w in txns :: |txns[w].held| <= limit
    ensures |AllHeld(txns)| <= |txns| * limit
    decreases |txns|
  {
    if txns != map[] {
      var v :| v in txns && AllHeld(txns) == txns[v].held + AllHeld(txns - {v});
      AllHeldSize(txns - {v}, limit);
      assert |txns - {v}| == |txns| - 1;
      Distribute(|txns| - 1, 1, limit);
    }
  }

  lemma SizeOfRest(front: set<nat>, taken: set<nat>)
    ensures |front - taken| >= |front| - |taken|
  {
    assert front <= (front - taken) + taken;
    SizeMonotone(front, (front - taken) + taken);
  }

  lemma {:induction false} SizeMonotone(a: set<nat>, b: set<nat>)
    requires a <= b
    ensures |a| <= |b|
  {
    if x :| x in a { SizeMonotone(a - {x}, b - {x}); }
  }

  // With room for one more session of `limit` entries, enough of the front is free to fill a sweep.
  lemma FreeFront(s: State, i: nat, front: set<nat>, limit: nat, sessions: nat)
    requires Starved(s, i, front, limit) && |s.txns| < sessions && |front| >= sessions * limit
    ensures Matching(s.rows, Locked(s), s.now, i) >= limit
  {
    var free := front - AllHeld(s.txns);
    SizeOfRest(front, AllHeld(s.txns));
    AllHeldSize(s.txns, limit);
    RoomForOne(|s.txns|, sessions, limit);
    forall j | j in free ensures j < i && j !in Locked(s) && SqlMatches(s.rows[j], s.now) {
      assert Current(s, j);
      forall w | w in s.txns ensures j !in s.txns[w].held {
        if j in s.txns[w].held { HeldIsAllHeld(s.txns, w, j); }
      }
    }
    FrontFills(s.rows, Locked(s), s.now, free, i);
  }

  lemma Distribute(a: nat, b: nat, limit: nat)
    ensures (a + b) * limit == a * limit + b * limit
  {
  }

  lemma RoomForOne(used: nat, sessions: nat, limit: nat)
    requires used < sessions
    ensures sessions * limit - used * limit >= limit
  {
    Distribute(used, sessions - used, limit);
    Distribute(1, sessions - used - 1, limit);
  }

  lemma SweptSession(s: State, i: nat, front: set<nat>, w: nat, m: nat, lease: int)
    requires i < |s.rows| && (forall j | j in front :: Current(s, j)) && Enabled(s, Sweep(w, m, lease))
    requires Matching(s.rows, Locked(s), s.now, i) >= m
    ensures var t := SweepTxn(s, w, m, lease); i !in t.held && Idle(t, front) && |t.held| <= m
  {
    SweepClaims(s, w, m, lease);
    assert Apply(s, Sweep(w, m, lease)).txns[w] == SweepTxn(s, w, m, lease);
    forall j | j in front ensures j !in SweepTxn(s, w, m, lease).todo {
      assert Current(s, j);
    }
  }

  lemma StarvedWith(s: State, i: nat, front: set<nat>, limit: nat, w: nat, t: Txn)
    requires Starved(s, i, front, limit) && w !in s.txns && i !in t.held && Idle(t, front) && |t.held| <= limit
    ensures Starved(s.(txns := s.txns[w := t]), i, front, limit)
  {
    var s' := s.(txns := s.txns[w := t]);
    forall v | v in s'.txns ensures i !in s'.txns[v].held {
      assert v != w ==> s'.txns[v] == s.txns[v];
    }
  }

  lemma StarvedUnderSweep(s: State, i: nat, front: set<nat>, limit: nat, sessions: nat, w: nat, m: nat, lease: int)
    requires Starved(s, i, front, limit) && Enabled(s, Sweep(w, m, lease)) && m <= limit
    requires |front| >= sessions * limit && |Apply(s, Sweep(w, m, lease)).txns| <= sessions
    ensures Starved(Apply(s, Sweep(w, m, lease)), i, front, limit)
  {
    FreeFront(s, i, front, limit, sessions);
    SweptSession(s, i, front, w, m, lease);
    StarvedWith(s, i, front, limit, w, SweepTxn(s, w, m, lease));
  }

  lemma StarvedUnderProcess(s: State, i: nat, front: set<nat>, limit: nat, w: nat, j: nat, ok: bool, stored: bool)
    requires Starved(s, i, front, limit) && Enabled(s, Process(w, j, ok, stored))
    ensures Starved(Apply(s, Process(w, j, ok, stored)), i, front, limit)
  {
    var s' := Apply(s, Process(w, j, ok, stored));
    assert j !in front;
    forall v | v in s'.txns ensures i !in s'.txns[v].held && |s'.txns[v].held| <= limit && Idle(s'.txns[v], front) {
      assert v in s.txns && s'.txns[v].held == s.txns[v].held;
    }
  }

  lemma StarvedUnderCommit(s: State, i: nat, front: set<nat>, limit: nat, w: nat)
    requires Starved(s, i, front, limit) && Enabled(s, Commit(w)) && s.txns[w].done.Keys <= s.txns[w].held
    ensures Starved(Apply(s, Commit(w)), i, front, limit)
  {
    var s' := Apply(s, Commit(w));
    assert i !in s.txns[w].done;
    forall j | j in front ensures Current(s', j) {
      assert j !in s.txns[w].done && Current(s, j);
    }
    forall v | v in s'.txns ensures i !in s'.txns[v].held {
      assert v in s.txns;
    }
  }

  lemma StarvedWithout(s: State, i: nat, front: set<nat>, limit: nat, w: nat)
    requires Starved(s, i, front, limit) && w in s.txns
    ensures Starved(s.(txns := s.txns - {w}), i, front, limit)
  {
    var s' := s.(txns := s.txns - {w});
    forall v | v in s'.txns ensures i !in s'.txns[v].held { assert v in s.txns; }
  }

  // Time and new entries change nothing about the old ones.
  lemma StarvedLater(s: State, s': State, i: nat, front: set<nat>, limit: nat)
    requires Starved(s, i, front, limit) && s'.txns == s.txns && s'.version == s.version
    requires s.rows <= s'.rows
    ensures Starved(s', i, front, limit)
  {
    forall j | j in front ensures Current(s', j) { assert Current(s, j); }
  }

  lemma StarvedStep(s: State, l: Label, i: nat, front: set<nat>, limit: nat, sessions: nat)
    requires Inv(s) && Starved(s, i, front, limit) && Enabled(s, l) && Ordinary(l, i, limit) && limit >= 1
    requires |front| >= sessions * limit && |Apply(s, l).txns| <= sessions
    ensures Starved(Apply(s, l), i, front, limit)
  {
    match l
    case Sweep(w, m, lease) => StarvedUnderSweep(s, i, front, limit, sessions, w, m, lease);
    case Trigger(w, j) =>
      assert j in front ==> Current(s, j);
      StarvedWith(s, i, front, limit, w, TriggerTxn(s, w, j));
    case Process(w, j, ok, stored) => StarvedUnderProcess(s, i, front, limit, w, j, ok, stored);
    case Commit(w) =>
      assert TxnOk(s.rows, s.points, s.txns[w]);
      StarvedUnderCommit(s, i, front, limit, w);
    case Crash(w) => StarvedWithout(s, i, front, limit, w);
    case Tick(_) => StarvedLater(s, Apply(s, l), i, front, limit);
    case Create(_, _) => StarvedLater(s, Apply(s, l), i, front, limit);
  }

  lemma PathStep(run: seq<State>, labels: seq<Label>, k: nat)
    requires IsPath(run, labels) && 0 < k <= |labels|
    ensures Enabled(run[k - 1], labels[k - 1]) && run[k] == Apply(run[k - 1], labels[k - 1])
  {
    assert Enabled(run[k - 1], labels[k - 1]) && run[k - 1 + 1] == Apply(run[k - 1], labels[k - 1]);
  }

  /** A path of ordinary steps with at most `sessions` sessions open at a time. */
  ghost predicate Bounded(run: seq<State>, labels: seq<Label>, i: nat, limit: nat, sessions: nat) {
    && IsPath(run, labels)
    && (forall k | 0 <= k < |labels| :: Ordinary(labels[k], i, limit))
    && (forall k | 0 <= k < |run| :: |run[k].txns| <= sessions)
  }

  lemma StarvedNext(s: State, l: Label, s': State, i: nat, front: set<nat>, limit: nat, sessions: nat)
    requires Inv(s) && Starved(s, i, front, limit) && Enabled(s, l) && s' == Apply(s, l) && Ordinary(l, i, limit)
    requires limit >= 1 && |front| >= sessions * limit && |s'.txns| <= sessions
    ensures Starved(s', i, front, limit)
  {
    StarvedStep(s, l, i, front, limit, sessions);
  }

  lemma BoundedAt(run: seq<State>, labels: seq<Label>, k: nat, i: nat, limit: nat, sessions: nat)
    requires Bounded(run, labels, i, limit, sessions) && 0 < k <= |labels|
    ensures Enabled(run[k - 1], labels[k - 1]) && run[k] == Apply(run[k - 1], labels[k - 1])
    ensures Ordinary(labels[k - 1], i, limit) && |run[k].txns| <= sessions
  {
    PathStep(run, labels, k);
  }

  ghost predicate AllInv(run: seq<State>) {
    forall k {:trigger Inv(run[k])} | 0 <= k < |run| :: Inv(run[k])
  }

  lemma {:induction false} PathInv(run: seq<State>, labels: seq<Label>, k: nat)
    requires IsPath(run, labels) && Inv(run[0]) && k <= |labels|
    ensures Inv(run[k])
  {
    if k > 0 {
      PathInv(run, labels, k - 1);
      PathStep(run, labels, k);
      StepKeepsInv(run[k - 1], labels[k - 1]);
    }
  }

  lemma PathAllInv(run: seq<State>, labels: seq<Label>)
    requires IsPath(run, labels) && Inv(run[0])
    ensures AllInv(run)
  {
    forall k | 0 <= k < |run| ensures Inv(run[k]) { PathInv(run, labels, k); }
  }

  lemma StarvedAlong(run: seq<State>, labels: seq<Label>, k: nat, i: nat, front: set<nat>, limit: nat, sessions: nat)
    requires Bounded(run, labels, i, limit, sessions) && 0 < k <= |labels| && AllInv(run) && limit >= 1
    requires Starved(run[k - 1], i, front, limit) && |front| >= sessions * limit
    ensures Starved(run[k], i, front, limit)
  {
    assert Inv(run[k - 1]);
    BoundedAt(run, labels, k, i, limit, sessions);
    StarvedNext(run[k - 1], labels[k - 1], run[k], i, front, limit, sessions);
  }

  lemma {:induction false} StarvedKept(run: seq<State>, labels: seq<Label>, k: nat, i: nat, front: set<nat>, limit: nat,
                                       sessions: nat)
    requires Bounded(run, labels, i, limit, sessions) && AllInv(run) && k <= |labels| && limit >= 1
    requires Starved(run[0], i, front, limit) && |front| >= sessions * limit
    ensures Starved(run[k], i, front, limit)
  {
    if k > 0 {
      StarvedKept(run, labels, k - 1, i, front, limit, sessions);
      StarvedAlong(run, labels, k, i, front, limit, sessions);
    }
  }

  /** A pending entry behind `sessions * limit` current ones is never claimed while at most `sessions`
      sessions are open at a time: it stays PENDING for ever. */
  lemma StarvedForever(run: seq<State>, labels: seq<Label>, k: nat, i: nat, front: set<nat>, limit: nat, sessions: nat)
    requires Bounded(run, labels, i, limit, sessions) && Inv(run[0]) && k <= |labels| && limit >= 1
    requires Starved(run[0], i, front, limit) && |front| >= sessions * limit
    ensures Inv(run[k]) && Starved(run[k], i, front, limit)
  {
    PathAllInv(run, labels);
    StarvedKept(run, labels, k, i, front, limit, sessions);
    assert Inv(run[k]);
  }

  /* ---- The exact condition ---- */

  // Nobody is at work, and entry `i` is pending behind current entries only.
  predicate Quiet(s: State, i: nat) {
    && s.txns == map[] && i < |s.rows| && s.rows[i].status == PENDING && s.rows[i].attempts < s.rows[i].maxRetries
    && forall j | 0 <= j < i :: Current(s, j)
  }

  ghost predicate IsClaimed(s: State, i: nat) {
    exists w | w in s.txns :: i in s.txns[w].todo
  }

  function Below(n: nat): (front: set<nat>)
    ensures |front| == n && forall i: nat :: i in front <==> i < n
  {
    if n == 0 then {} else Below(n - 1) + {n - 1}
  }

  // After `m` sweeps that claimed nothing: sessions 0 to m-1 hold the first `m * limit` entries.
  ghost predicate Overlapped(s: State, t: State, i: nat, limit: nat, m: nat) {
    && m * limit <= i && t == s.(txns := t.txns) && Quiet(s, i)
    && |t.txns| == m && (forall w | w in t.txns :: w < m)
    && (forall j | 0 <= j < |t.rows| :: IsLocked(t, j) <==> j < m * limit)
  }

  lemma {:induction false} MatchingBehind(s: State, t: State, i: nat, limit: nat, m: nat, k: nat)
    requires Overlapped(s, t, i, limit, m) && k <= i
    ensures Matching(t.rows, Locked(t), t.now, k) == if k <= m * limit then 0 else k - m * limit
  {
    if k > 0 {
      MatchingBehind(s, t, i, limit, m, k - 1);
      assert Current(s, k - 1);
      assert k - 1 in Locked(t) <==> IsLocked(t, k - 1);
    }
  }

  lemma SweepTakesNext(s: State, t: State, i: nat, limit: nat, m: nat, j: nat)
    requires Overlapped(s, t, i, limit, m) && (m + 1) * limit <= i && j < |t.rows|
    ensures j in SelectedSet(t, limit) <==> m * limit <= j < (m + 1) * limit
  {
    assert (m + 1) * limit == m * limit + limit;
    assert j in Locked(t) <==> j < m * limit;
    if j <= i {
      MatchingBehind(s, t, i, limit, m, j);
      if j < i { assert Current(s, j); }
    } else {
      MatchingBehind(s, t, i, limit, m, i);
      MatchingGrows(t.rows, Locked(t), t.now, i, j);
    }
  }

  lemma OneMoreSweep(s: State, t: State, i: nat, limit: nat, m: nat)
    requires Overlapped(s, t, i, limit, m) && (m + 1) * limit <= i
    ensures m !in t.txns && Overlapped(s, Apply(t, Sweep(m, limit, 0)), i, limit, m + 1)
  {
    var t' := Apply(t, Sweep(m, limit, 0));
    assert (m + 1) * limit == m * limit + limit;
    assert |t'.txns| == m + 1;
    forall j | 0 <= j < |t'.rows| ensures IsLocked(t', j) <==> j < (m + 1) * limit {
      SweepTakesNext(s, t, i, limit, m, j);
      assert j in t'.txns[m].held <==> j in SelectedSet(t, limit);
      if IsLocked(t, j) {
        var w :| w in t.txns && j in t.txns[w].held;
        assert w in t'.txns && t'.txns[w] == t.txns[w];
      }
    }
  }

  lemma ExtendBounded(run: seq<State>, labels: seq<Label>, l: Label, i: nat, limit: nat, sessions: nat)
    requires Bounded(run, labels, i, limit, sessions) && Enabled(run[|labels|], l) && Ordinary(l, i, limit)
    requires |Apply(run[|labels|], l).txns| <= sessions
    ensures Bounded(run + [Apply(run[|labels|], l)], labels + [l], i, limit, sessions)
  {
    Extend(run, labels, l);
  }

  lemma Extend(run: seq<State>, labels: seq<Label>, l: Label)
    requires IsPath(run, labels) && Enabled(run[|labels|], l)
    ensures IsPath(run + [Apply(run[|labels|], l)], labels + [l])
  {
    var run', labels' := run + [Apply(run[|labels|], l)], labels + [l];
    forall i | 0 <= i < |labels'| ensures Enabled(run'[i], labels'[i]) && run'[i + 1] == Apply(run'[i], labels'[i]) {
      if i < |labels| {
        assert run'[i] == run[i] && run'[i + 1] == run[i + 1] && labels'[i] == labels[i];
        assert Enabled(run[i], labels[i]);
      }
    }
  }

  lemma {:induction false} Overlap(s: State, i: nat, limit: nat, m: nat, sessions: nat)
    returns (run: seq<State>, labels: seq<Label>)
    requires Quiet(s, i) && m * limit <= i && m <= sessions
    ensures Bounded(run, labels, i, limit, sessions) && run[0] == s && Overlapped(s, run[|labels|], i, limit, m)
  {
    if m == 0 {
      run, labels := [s], [];
    } else {
      assert m * limit == (m - 1) * limit + limit;
      run, labels := Overlap(s, i, limit, m - 1, sessions);
      OneMoreSweep(s, run[|labels|], i, limit, m - 1);
      ExtendBounded(run, labels, Sweep(m - 1, limit, 0), i, limit, sessions);
      run := run + [Apply(run[|labels|], Sweep(m - 1, limit, 0))];
      labels := labels + [Sweep(m - 1, limit, 0)];
    }
  }

  // The sweep that finds fewer than `limit` free entries before `i` claims it.
  lemma SweepReaches(s: State, t: State, i: nat, limit: nat, m: nat)
    requires Overlapped(s, t, i, limit, m) && i < (m + 1) * limit
    ensures m !in t.txns && IsClaimed(Apply(t, Sweep(m, limit, 0)), i)
  {
    assert (m + 1) * limit == m * limit + limit;
    MatchingBehind(s, t, i, limit, m, i);
    assert i !in Locked(t);
    assert i in SelectedSet(t, limit);
    assert i in Apply(t, Sweep(m, limit, 0)).txns[m].todo;
  }

  lemma FitsIn(i: nat, limit: nat, sessions: nat)
    requires limit >= 1 && i < sessions * limit
    ensures i / limit * limit <= i < (i / limit + 1) * limit && i / limit < sessions
  {
    var m := i / limit;
    assert m >= sessions ==> m * limit >= sessions * limit;
  }

  lemma Reaches(s: State, i: nat, limit: nat, sessions: nat) returns (run: seq<State>, labels: seq<Label>)
    requires Quiet(s, i) && limit >= 1 && i < sessions * limit
    ensures Bounded(run, labels, i, limit, sessions) && run[0] == s && IsClaimed(run[|labels|], i)
  {
    var m := i / limit;
    FitsIn(i, limit, sessions);
    run, labels := Overlap(s, i, limit, m, sessions);
    SweepReaches(s, run[|labels|], i, limit, m);
    ExtendBounded(run, labels, Sweep(m, limit, 0), i, limit, sessions);
    run := run + [Apply(run[|labels|], Sweep(m, limit, 0))];
    labels := labels + [Sweep(m, limit, 0)];
  }

  /** Starvation, exactly: from a quiet state in which entry `i` waits behind `i` current ones, some path of
      ordinary steps with at most `sessions` open sessions claims it if and only if `i` is smaller than
      `sessions * limit`. A single drainer never gets past `limit` current entries. */
  lemma ClaimableIff(s: State, i: nat, limit: nat, sessions: nat)
    requires Inv(s) && Quiet(s, i) && limit >= 1
    ensures (exists run, labels :: Bounded(run, labels, i, limit, sessions) && run[0] == s && IsClaimed(run[|labels|], i))
            <==> i < sessions * limit
  {
    if i < sessions * limit {
      var run, labels := Reaches(s, i, limit, sessions);
    } else {
      forall run, labels | Bounded(run, labels, i, limit, sessions) && run[0] == s
        ensures !IsClaimed(run[|labels|], i)
      {
        StarvedForever(run, labels, |labels|, i, Below(i), limit, sessions);
        NotClaimed(run[|labels|], i);
      }
    }
  }

  lemma NotClaimed(s: State, i: nat)
    requires Inv(s) && !IsLocked(s, i)
    ensures !IsClaimed(s, i)
  {
    forall w | w in s.txns ensures i !in s.txns[w].todo {
      assert TxnOk(s.rows, s.points, s.txns[w]);
    }
  }

  /** Two overlapping sweeps reach past a full front: with an entry in need at the head, `limit` current ones
      behind it and a pending one after those, the first sweep claims the head and the second the last. */
  lemma OverlapReachesPast(s: State, limit: nat, lease: int)
    requires s.txns == map[] && |s.rows| == limit + 2 && limit >= 2
    requires s.rows[0].status == FAILED && s.rows[0].attempts < s.rows[0].maxRetries
    requires forall j | 1 <= j <= limit :: Current(s, j)
    requires s.rows[limit + 1].status == PENDING && s.rows[limit + 1].attempts < s.rows[limit + 1].maxRetries
    ensures var s1 := Apply(s, Sweep(0, limit, lease));
      && s1.txns[0].todo.Keys == {0} && 1 !in s1.txns
      && Apply(s1, Sweep(1, limit, lease)).txns[1].todo.Keys == {limit + 1}
  {
    assert Locked(s) == {};
    FirstSweep(s, limit);
    var s1 := Apply(s, Sweep(0, limit, lease));
    forall j | 0 <= j < |s.rows| ensures IsLocked(s1, j) <==> j < limit {
      assert j in s1.txns[0].held <==> j in SelectedSet(s, limit);
    }
    assert Current(s, limit);
    SecondSweep(s1, limit);
    SweptAre(s, SelectedSet(s, limit), 0);
    SweptAre(s1, SelectedSet(s1, limit), limit + 1);
  }

  // Of a selection that holds one entry in need and current ones, only that entry is claimed.
  lemma SweptAre(s: State, held: set<nat>, i: nat)
    requires (forall j | j in held :: j < |s.rows|) && i in held
    requires s.rows[i].status == PENDING || s.rows[i].status == FAILED
    requires s.rows[i].attempts < s.rows[i].maxRetries
    requires forall j | j in held && j != i :: Current(s, j)
    ensures (set j | j in held && NeedsProcessing(s.rows[j], s.now, s.version)) == {i}
  {
  }

  lemma {:induction false} AllMatch(s: State, limit: nat, k: nat)
    requires |s.rows| == limit + 2 && Locked(s) == {} && k <= |s.rows|
    requires forall j | 0 <= j < |s.rows| :: SqlMatches(s.rows[j], s.now)
    ensures Matching(s.rows, Locked(s), s.now, k) == k
  {
    if k > 0 { AllMatch(s, limit, k - 1); }
  }

  lemma FirstSweep(s: State, limit: nat)
    requires |s.rows| == limit + 2 && Locked(s) == {}
    requires s.rows[0].status == FAILED && s.rows[0].attempts < s.rows[0].maxRetries
    requires forall j | 1 <= j <= limit :: Current(s, j)
    requires s.rows[limit + 1].status == PENDING && s.rows[limit + 1].attempts < s.rows[limit + 1].maxRetries
    ensures forall j | 0 <= j < |s.rows| :: j in SelectedSet(s, limit) <==> j < limit
  {
    forall j | 0 <= j < |s.rows| ensures SqlMatches(s.rows[j], s.now) {
      assert 1 <= j <= limit ==> Current(s, j);
    }
    forall j | 0 <= j < |s.rows| ensures j in SelectedSet(s, limit) <==> j < limit {
      AllMatch(s, limit, j);
    }
  }

  lemma {:induction false} NoneFree(s: State, limit: nat, k: nat)
    requires k <= limit <= |s.rows| && forall j | 0 <= j < limit :: IsLocked(s, j)
    ensures Matching(s.rows, Locked(s), s.now, k) == 0
  {
    if k > 0 {
      NoneFree(s, limit, k - 1);
      assert k - 1 in Locked(s);
    }
  }

  lemma SecondSweep(s: State, limit: nat)
    requires |s.rows| == limit + 2 && limit >= 2 && Current(s, limit)
    requires forall j | 0 <= j < |s.rows| :: IsLocked(s, j) <==> j < limit
    requires s.rows[limit + 1].status == PENDING && s.rows[limit + 1].attempts < s.rows[limit + 1].maxRetries
    ensures forall j | 0 <= j < |s.rows| :: j in SelectedSet(s, limit) <==> j >= limit
  {
    NoneFree(s, limit, limit);
    forall j | 0 <= j < |s.rows| ensures j in Locked(s) <==> j < limit {
    }
    assert Matching(s.rows, Locked(s), s.now, limit + 1) <= 1;
  }

  /* ---- Such states are reached ---- */

  // `n` entries, all of them indexed at the first try.
  predicate Full(s: State, n: nat) {
    && s.txns == map[] && |s.rows| == n
    && forall i | 0 <= i < n :: s.rows[i].measurement == i && s.rows[i].status == COMPLETED
         && s.rows[i].version == s.version && s.rows[i].attempts == 1 && s.rows[i].maxRetries == 3
  }

  // Creating an entry and running its trigger, step by step.
  lemma OneMore(run: seq<State>, labels: seq<Label>, n: nat, tenant: nat) returns (run': seq<State>, labels': seq<Label>)
    requires IsRun(run, labels) && Full(run[|labels|], n)
    ensures IsRun(run', labels') && Full(run'[|labels'|], n + 1)
  {
    var s := run[|labels|];
    var s1 := Apply(s, Create(n, tenant));
    assert s1.rows == s.rows + [NewEntry(n, tenant, s.version)];
    Extend(run, labels, Create(n, tenant));
    var r1, l1 := run + [s1], labels + [Create(n, tenant)];
    Extend(r1, l1, Trigger(0, n));
    var s2 := Apply(s1, Trigger(0, n));
    var r2, l2 := r1 + [s2], l1 + [Trigger(0, n)];
    Extend(r2, l2, Process(0, n, true, true));
    var s3 := Apply(s2, Process(0, n, true, true));
    var r3, l3 := r2 + [s3], l2 + [Process(0, n, true, true)];
    assert s3.txns[0].todo == map[];
    Extend(r3, l3, Commit(0));
    run', labels' := r3 + [Apply(s3, Commit(0))], l3 + [Commit(0)];
    assert Apply(s3, Commit(0)).txns == map[];
  }

  lemma {:induction false} Fill(start: State, n: nat, tenant: nat) returns (run: seq<State>, labels: seq<Label>)
    requires Initial(start)
    ensures IsRun(run, labels) && Full(run[|labels|], n)
  {
    if n == 0 {
      run, labels := [start], [];
    } else {
      run, labels := Fill(start, n - 1, tenant);
      run, labels := OneMore(run, labels, n - 1, tenant);
    }
  }

  /** Starvation needs nothing unusual: for every limit and number of sessions there is a run without a
      failure or a crash after which a new entry is out of their reach. */
  lemma StarvationHappens(start: State, limit: nat, sessions: nat, tenant: nat)
    returns (run: seq<State>, labels: seq<Label>)
    requires Initial(start) && limit >= 1
    ensures IsRun(run, labels) && Quiet(run[|labels|], sessions * limit)
    ensures !exists more, steps :: Bounded(more, steps, sessions * limit, limit, sessions) && more[0] == run[|labels|]
                                   && IsClaimed(more[|steps|], sessions * limit)
  {
    var n := sessions * limit;
    run, labels := Fill(start, n, tenant);
    var s := run[|labels|];
    Extend(run, labels, Create(n, tenant));
    run, labels := run + [Apply(s, Create(n, tenant))], labels + [Create(n, tenant)];
    assert Apply(s, Create(n, tenant)).rows == s.rows + [NewEntry(n, tenant, s.version)];
    RunInv(run, labels, |labels|);
    ClaimableIff(run[|labels|], n, limit, sessions);
  }
}
