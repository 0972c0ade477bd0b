/** The stable sort behind the ranking, for any key of a number (larger first) and a tier. */
module StableSort {
  import opened Domain

  datatype Keys = Keys(value: RecoveryAction -> real, tier: RecoveryAction -> nat)

  predicate Less(key: Keys, a: RecoveryAction, b: RecoveryAction) {
    key.value(a) > key.value(b) || (key.value(a) == key.value(b) && key.tier(a) < key.tier(b))
  }

  predicate Tied(key: Keys, a: RecoveryAction, b: RecoveryAction) {
    key.value(a) == key.value(b) && key.tier(a) == key.tier(b)
  }

  function Insert(key: Keys, a: RecoveryAction, ranked: seq<RecoveryAction>): seq<RecoveryAction> {
    if ranked == [] then [a]
    else if Less(key, ranked[0], a) then [ranked[0]] + Insert(key, a, ranked[1..])
    else [a] + ranked
  }

  function Sort(key: Keys, candidates: seq<RecoveryAction>): seq<RecoveryAction> {
    if candidates == [] then [] else Insert(key, candidates[0], Sort(key, candidates[1..]))
  }

  // An action goes before the first one that is not strictly better.
  lemma {:induction false} InsertAt(key: Keys, a: RecoveryAction, ranked: seq<RecoveryAction>, i: nat)
    requires i <= |ranked| && (forall j | 0 <= j < i :: Less(key, ranked[j], a))
    requires i < |ranked| ==> !Less(key, ranked[i], a)
    ensures Insert(key, a, ranked) == ranked[..i] + [a] + ranked[i..]
  {
    if i > 0 {
      var rest := ranked[1..];
      InsertAt(key, a, rest, i - 1);
      assert rest[i - 1..] == ranked[i..] && [ranked[0]] + rest[..i - 1] == ranked[..i];
    }
  }

  // Inserts an action there, shifting the others.
  method InsertAction(key: Keys, a: RecoveryAction, ranked: seq<RecoveryAction>) returns (out: seq<RecoveryAction>)
    ensures out == Insert(key, a, ranked)
  {
    var i := 0;
    while i < |ranked| && Less(key, ranked[i], a)
      invariant 0 <= i <= |ranked|
      invariant forall j | 0 <= j < i :: Less(key, ranked[j], a)
    {
      i := i + 1;
    }
    InsertAt(key, a, ranked, i);
    out := ranked[..i] + [a] + ranked[i..];
  }

  method SortActions(key: Keys, candidates: seq<RecoveryAction>) returns (ranked: seq<RecoveryAction>)
    ensures ranked == Sort(key, candidates)
  {
    ranked := [];
    var i := |candidates|;
    while i > 0
      invariant 0 <= i <= |candidates|
      invariant ranked == Sort(key, candidates[i..])
    {
      i := i - 1;
      assert candidates[i..][1..] == candidates[i + 1..] && candidates[i..][0] == candidates[i];
      ranked := InsertAction(key, candidates[i], ranked);
    }
    assert candidates[0..] == candidates;
  }

  predicate Distinct(s: seq<RecoveryAction>) {
    forall i, j | 0 <= i < j < |s| :: s[i] != s[j]
  }

  ghost predicate Before(s: seq<RecoveryAction>, a: RecoveryAction, b: RecoveryAction) {
    exists i, j | 0 <= i < j < |s| :: s[i] == a && s[j] == b
  }

  lemma BeforeAt(s: seq<RecoveryAction>, i: nat, j: nat)
    requires i < j < |s|
    ensures Before(s, s[i], s[j])
  {
  }

  lemma {:induction false} InsertPermutes(key: Keys, a: RecoveryAction, ranked: seq<RecoveryAction>)
    ensures multiset(Insert(key, a, ranked)) == multiset(ranked) + multiset{a}
  {
    if ranked != [] {
      assert ranked == [ranked[0]] + ranked[1..];
      InsertPermutes(key, a, ranked[1..]);
    }
  }

  lemma {:induction false} SortPermutes(key: Keys, candidates: seq<RecoveryAction>)
    ensures multiset(Sort(key, candidates)) == multiset(candidates)
  {
    if candidates != [] {
      assert candidates == [candidates[0]] + candidates[1..];
      SortPermutes(key, candidates[1..]);
      InsertPermutes(key, candidates[0], Sort(key, candidates[1..]));
    }
  }

  predicate Sorted(key: Keys, s: seq<RecoveryAction>) {
    forall i, j | 0 <= i < j < |s| :: !Less(key, s[j], s[i])
  }

  lemma {:induction false} InsertSorts(key: Keys, a: RecoveryAction, ranked: seq<RecoveryAction>)
    requires Sorted(key, ranked)
    ensures Sorted(key, Insert(key, a, ranked))
  {
    if ranked != [] && Less(key, ranked[0], a) {
      var rest := Insert(key, a, ranked[1..]);
      InsertSorts(key, a, ranked[1..]);
      InsertPermutes(key, a, ranked[1..]);
      forall j | 0 <= j < |rest| ensures !Less(key, rest[j], ranked[0]) {
        assert rest[j] in multiset(ranked[1..]) + multiset{a};
        if rest[j] != a {
          assert rest[j] in ranked[1..];
          var k :| 0 <= k < |ranked[1..]| && ranked[1..][k] == rest[j];
          assert ranked[k + 1] == rest[j];
        }
      }
    } else if ranked != [] {
      forall j | 0 <= j < |ranked| ensures !Less(key, ranked[j], a) {
        assert j > 0 ==> !Less(key, ranked[j], ranked[0]);
      }
    }
  }

  lemma {:induction false} SortIsSorted(key: Keys, candidates: seq<RecoveryAction>)
    ensures Sorted(key, Sort(key, candidates))
  {
    if candidates != [] {
      SortIsSorted(key, candidates[1..]);
      InsertSorts(key, candidates[0], Sort(key, candidates[1..]));
    }
  }

  // What holds of the tail of a list holds behind its head.
  lemma BeforeInTail(s: seq<RecoveryAction>, x: RecoveryAction, y: RecoveryAction)
    requires s != [] && Before(s[1..], x, y)
    ensures Before(s, x, y)
  {
    var k, l :| 0 <= k < l < |s[1..]| && s[1..][k] == x && s[1..][l] == y;
    BeforeAt(s, k + 1, l + 1);
  }

  lemma HeadBefore(s: seq<RecoveryAction>, y: RecoveryAction)
    requires s != [] && y in s[1..]
    ensures Before(s, s[0], y)
  {
    var k :| 0 <= k < |s[1..]| && s[1..][k] == y;
    BeforeAt(s, 0, k + 1);
  }

  lemma BeforeTail(s: seq<RecoveryAction>, i: nat, j: nat)
    requires 0 < i < j < |s|
    ensures Before(s[1..], s[i], s[j])
  {
    assert s[1..][i - 1] == s[i] && s[1..][j - 1] == s[j];
    BeforeAt(s[1..], i - 1, j - 1);
  }

  lemma InsertHas(key: Keys, a: RecoveryAction, ranked: seq<RecoveryAction>, y: RecoveryAction)
    requires y in ranked
    ensures y in Insert(key, a, ranked)
  {
    InsertPermutes(key, a, ranked);
    assert y in multiset(Insert(key, a, ranked));
  }

  lemma {:induction false} InsertKeepsOrder(key: Keys, a: RecoveryAction, ranked: seq<RecoveryAction>,
                                            x: RecoveryAction, y: RecoveryAction)
    requires Before(ranked, x, y)
    ensures Before(Insert(key, a, ranked), x, y)
  {
    var i, j :| 0 <= i < j < |ranked| && ranked[i] == x && ranked[j] == y;
    var out := Insert(key, a, ranked);
    if !Less(key, ranked[0], a) {
      BeforeAt(out, i + 1, j + 1);
    } else {
      assert out[1..] == Insert(key, a, ranked[1..]);
      if i == 0 {
        assert ranked[1..][j - 1] == y;
        InsertHas(key, a, ranked[1..], y);
        HeadBefore(out, y);
      } else {
        BeforeTail(ranked, i, j);
        InsertKeepsOrder(key, a, ranked[1..], x, y);
        BeforeInTail(out, x, y);
      }
    }
  }

  // A new item goes before everything it does not lose to.
  lemma {:induction false} InsertGoesBefore(key: Keys, a: RecoveryAction, ranked: seq<RecoveryAction>, j: nat)
    requires Sorted(key, ranked) && j < |ranked| && !Less(key, ranked[j], a)
    ensures Before(Insert(key, a, ranked), a, ranked[j])
  {
    var out := Insert(key, a, ranked);
    if Less(key, ranked[0], a) {
      InsertGoesBefore(key, a, ranked[1..], j - 1);
      var k, l :| 0 <= k < l < |out[1..]| && out[1..][k] == a && out[1..][l] == ranked[j];
      BeforeAt(out, k + 1, l + 1);
    } else {
      BeforeAt(out, 0, j + 1);
    }
  }

  /** Stability: of two candidates, the earlier one stays ahead unless the later one is strictly better. */
  lemma {:induction false} SortIsStable(key: Keys, candidates: seq<RecoveryAction>, i: nat, j: nat)
    requires i < j < |candidates| && !Less(key, candidates[j], candidates[i])
    ensures Before(Sort(key, candidates), candidates[i], candidates[j])
  {
    var rest := candidates[1..];
    if i == 0 {
      SortPermutes(key, rest);
      SortIsSorted(key, rest);
      assert rest[j - 1] == candidates[j];
      assert candidates[j] in multiset(Sort(key, rest));
      var k :| 0 <= k < |Sort(key, rest)| && Sort(key, rest)[k] == candidates[j];
      InsertGoesBefore(key, candidates[0], Sort(key, rest), k);
    } else {
      assert rest[i - 1] == candidates[i] && rest[j - 1] == candidates[j];
      SortIsStable(key, rest, i - 1, j - 1);
      InsertKeepsOrder(key, candidates[0], Sort(key, rest), candidates[i], candidates[j]);
    }
  }

  lemma DistinctByMultiset(s: seq<RecoveryAction>, t: seq<RecoveryAction>)
    requires multiset(s) == multiset(t) && Distinct(s)
    ensures Distinct(t)
  {
    forall a ensures multiset(t)[a] <= 1 {
      CountOfDistinct(s, a);
    }
    forall i, j | 0 <= i < j < |t| ensures t[i] != t[j] {
      CountOfRepeated(t, i, j);
    }
  }

  lemma CountOfRepeated(s: seq<RecoveryAction>, i: nat, j: nat)
    requires i < j < |s|
    ensures s[i] == s[j] ==> multiset(s)[s[i]] >= 2
  {
    assert s == s[..j] + [s[j]] + s[j + 1..];
    assert s[i] in s[..j];
  }

  lemma {:induction false} CountOfDistinct(s: seq<RecoveryAction>, a: RecoveryAction)
    requires Distinct(s)
    ensures multiset(s)[a] <= 1
  {
    if s != [] {
      assert s == [s[0]] + s[1..];
      CountOfDistinct(s[1..], a);
      assert s[0] !in s[1..] by {
        forall k | 0 <= k < |s[1..]| ensures s[1..][k] != s[0] { assert s[1..][k] == s[k + 1]; }
      }
    }
  }

  lemma OneOrder(s: seq<RecoveryAction>, a: RecoveryAction, b: RecoveryAction)
    requires Distinct(s) && Before(s, a, b)
    ensures !Before(s, b, a)
  {
    var i, j :| 0 <= i < j < |s| && s[i] == a && s[j] == b;
    forall k, l | 0 <= k < l < |s| ensures !(s[k] == b && s[l] == a) {
      assert s[k] == b ==> k == j;
    }
  }

  /** The whole order of the output: of two distinct candidates the first is ranked ahead exactly when its
      key is smaller, or the keys are equal and it came first. */
  lemma SortOrder(key: Keys, candidates: seq<RecoveryAction>, i: nat, j: nat)
    requires Distinct(candidates) && i < |candidates| && j < |candidates| && i != j
    ensures Before(Sort(key, candidates), candidates[i], candidates[j]) <==>
            Less(key, candidates[i], candidates[j]) || (Tied(key, candidates[i], candidates[j]) && i < j)
  {
    SortPermutes(key, candidates);
    DistinctByMultiset(candidates, Sort(key, candidates));
    var a, b := candidates[i], candidates[j];
    if i < j {
      if Less(key, b, a) { SortPutsBetterFirst(key, candidates, j, i); OneOrder(Sort(key, candidates), b, a); }
      else { SortIsStable(key, candidates, i, j); }
    } else {
      if Less(key, a, b) { SortPutsBetterFirst(key, candidates, i, j); }
      else { SortIsStable(key, candidates, j, i); OneOrder(Sort(key, candidates), b, a); }
    }
  }

  lemma SortPutsBetterFirst(key: Keys, candidates: seq<RecoveryAction>, i: nat, j: nat)
    requires i < |candidates| && j < |candidates| && Less(key, candidates[i], candidates[j])
    ensures Before(Sort(key, candidates), candidates[i], candidates[j])
  {
    var out := Sort(key, candidates);
    SortPermutes(key, candidates);
    SortIsSorted(key, candidates);
    assert candidates[i] in multiset(out) && candidates[j] in multiset(out);
    var k :| 0 <= k < |out| && out[k] == candidates[i];
    var l :| 0 <= l < |out| && out[l] == candidates[j];
    BeforeAt(out, k, l);
  }

  ghost predicate NoTies(key: Keys, s: seq<RecoveryAction>) {
    forall a, b | a in s && b in s && a != b :: !Tied(key, a, b)
  }

  lemma HeadsAgree(key: Keys, s: seq<RecoveryAction>, t: seq<RecoveryAction>)
    requires s != [] && t != [] && multiset(s) == multiset(t) && Sorted(key, s) && Sorted(key, t) && NoTies(key, s)
    ensures s[0] == t[0]
  {
    assert s[0] in multiset(t) && t[0] in multiset(s);
    var k :| 0 <= k < |t| && t[k] == s[0];
    var l :| 0 <= l < |s| && s[l] == t[0];
    assert s[0] != t[0] ==> !Tied(key, s[0], t[0]);
  }

  lemma SameTails(s: seq<RecoveryAction>, t: seq<RecoveryAction>)
    requires s != [] && t != [] && multiset(s) == multiset(t) && s[0] == t[0]
    ensures multiset(s[1..]) == multiset(t[1..])
  {
    assert s == [s[0]] + s[1..] && t == [t[0]] + t[1..];
    assert multiset(s[1..]) == multiset(s) - multiset{s[0]};
    assert multiset(t[1..]) == multiset(t) - multiset{t[0]};
  }

  lemma {:induction false} SortedIsUnique(key: Keys, s: seq<RecoveryAction>, t: seq<RecoveryAction>)
    requires multiset(s) == multiset(t) && Sorted(key, s) && Sorted(key, t) && NoTies(key, s)
    ensures s == t
  {
    assert |multiset(s)| == |s| && |multiset(t)| == |t|;
    if s != [] {
      HeadsAgree(key, s, t);
      SameTails(s, t);
      SortedIsUnique(key, s[1..], t[1..]);
      assert s == [s[0]] + s[1..] && t == [t[0]] + t[1..];
    }
  }

  /** Without ties the result depends on the multiset of the input alone. */
  lemma NeutralWithoutTies(key: Keys, s: seq<RecoveryAction>, t: seq<RecoveryAction>)
    requires multiset(s) == multiset(t) && NoTies(key, s)
    ensures Sort(key, s) == Sort(key, t)
  {
    SortPermutes(key, s);
    SortPermutes(key, t);
    SortIsSorted(key, s);
    SortIsSorted(key, t);
    forall a, b | a in Sort(key, s) && b in Sort(key, s) && a != b ensures !Tied(key, a, b) {
      assert a in multiset(s) && b in multiset(s);
    }
    SortedIsUnique(key, Sort(key, s), Sort(key, t));
  }

  lemma SwapPermutes(s: seq<RecoveryAction>, i: nat, j: nat)
    requires i < j < |s|
    ensures multiset(s[i := s[j]][j := s[i]]) == multiset(s)
  {
  }

  /** With a tie, exchanging the two tied elements changes the result. */
  lemma SensitiveToTies(key: Keys, s: seq<RecoveryAction>, i: nat, j: nat) returns (t: seq<RecoveryAction>)
    requires Distinct(s) && i < j < |s| && Tied(key, s[i], s[j])
    ensures multiset(t) == multiset(s) && Sort(key, t) != Sort(key, s)
  {
    t := s[i := s[j]][j := s[i]];
    SwapPermutes(s, i, j);
    DistinctByMultiset(s, t);
    SortOrder(key, s, i, j);
    SortOrder(key, t, j, i);
  }

  // Only the order that the keys induce matters.
  lemma {:induction false} SortByKeys(key: Keys, key': Keys, candidates: seq<RecoveryAction>)
    requires forall a, b :: Less(key, a, b) <==> Less(key', a, b)
    ensures Sort(key, candidates) == Sort(key', candidates)
  {
    if candidates != [] {
      SortByKeys(key, key', candidates[1..]);
      InsertByKeys(key, key', candidates[0], Sort(key, candidates[1..]));
    }
  }

  lemma {:induction false} InsertByKeys(key: Keys, key': Keys, a: RecoveryAction, ranked: seq<RecoveryAction>)
    requires forall x, y :: Less(key, x, y) <==> Less(key', x, y)
    ensures Insert(key, a, ranked) == Insert(key', a, ranked)
  {
    if ranked != [] && Less(key, ranked[0], a) {
      InsertByKeys(key, key', a, ranked[1..]);
    }
  }
}
