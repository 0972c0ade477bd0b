/** How many links a case can have when actions that were rolled back are counted too. */
module ProtocolLinkCount {
  import opened Domain
  import opened Execution
  import opened Protocol
  import opened ProtocolInvariant
  import ProtocolLinks
  import ProtocolRuns
  import ProtocolWebhook
  import Ingestion

  /** A call whose action never made it into the database is undone. */
  ghost predicate OnFileOrUndone(s: State) {
    forall i | 0 <= i < |s.calls| :: s.calls[i].action in s.rows || i in s.undone
  }

  // A step adds calls at the end and forgets none, and its own calls are on file or undone.
  ghost predicate Keeps(s: State, s': State) {
    && s.calls <= s'.calls && s.undone <= s'.undone && (forall a | a in s.rows :: a in s'.rows)
    && forall i | |s.calls| <= i < |s'.calls| :: s'.calls[i].action in s'.rows || i in s'.undone
  }

  lemma KeptCalls(s: State, s': State)
    requires OnFileOrUndone(s) && Keeps(s, s')
    ensures OnFileOrUndone(s')
  {
    forall i | 0 <= i < |s'.calls| ensures s'.calls[i].action in s'.rows || i in s'.undone {
      if i < |s.calls| { assert s'.calls[i] == s.calls[i]; }
    }
  }

  lemma PollerKeeps(s: State, l: Label)
    requires Enabled(s, l) && ProtocolRuns.IsPoller(l)
    ensures Keeps(s, Apply(s, l))
  {
  }

  lemma DecideKeeps(s: State, i: Intake, adapter: bool, env: Env, created: bool, lost: bool)
    requires CanDecide(s, i)
    ensures Keeps(s, DoDecide(s, i, adapter, env, created, lost))
  {
  }

  lemma GatewayKeeps(s: State, c: nat, d: nat, amount: int, env: Env, created: bool, lost: bool)
    requires CanGateway(s, c, d)
    ensures Keeps(s, DoGateway(s, c, d, amount, env, created, lost))
  {
  }

  lemma ConfirmKeeps(s: State, e: nat, look: Ingestion.Lookup, measure: Option<MeasureInput>)
    requires CanConfirm(s, e, look)
    ensures Keeps(s, DoConfirm(s, e, look, measure))
  {
    ProtocolWebhook.ConfirmOnly(s, e, look, measure);
  }

  lemma StepKeeps(s: State, l: Label, s': State)
    requires Enabled(s, l) && s' == Apply(s, l)
    ensures Keeps(s, s')
  {
    if ProtocolRuns.IsPoller(l) {
      PollerKeeps(s, l);
    } else if ProtocolRuns.IsQuiet(l) {
      ProtocolRuns.QuietGrows(s, l);
    } else {
      match l
      case Decide(i, adapter, env, created, lost) => DecideKeeps(s, i, adapter, env, created, lost);
      case Gateway(c, d, amount, env, created, lost) => GatewayKeeps(s, c, d, amount, env, created, lost);
      case Confirm(e, look, measure) => ConfirmKeeps(s, e, look, measure);
    }
  }

  lemma KeepAlong(run: seq<State>, labels: seq<Label>, k: nat)
    requires IsRun(run, labels) && 0 < k <= |labels| && OnFileOrUndone(run[k - 1])
    ensures OnFileOrUndone(run[k])
  {
    ProtocolRuns.PathStep(run, labels, k);
    StepKeeps(run[k - 1], labels[k - 1], run[k]);
    KeptCalls(run[k - 1], run[k]);
  }

  lemma {:induction false} RunKeeps(run: seq<State>, labels: seq<Label>, k: nat)
    requires IsRun(run, labels) && k <= |labels|
    ensures OnFileOrUndone(run[k])
  {
    if k > 0 {
      RunKeeps(run, labels, k - 1);
      KeepAlong(run, labels, k);
    }
  }

  /* ---- Counting ---- */

  // The links of case `c`, by index, split by whether their action is on file.
  function LinksOf(s: State, c: nat, onFile: bool): set<nat> {
    set i | 0 <= i < |s.links| && s.links[i].caseId == c && (s.links[i].key.action in s.rows) == onFile
  }

  function AllLinksOf(s: State, c: nat): set<nat> {
    set i | 0 <= i < |s.links| && s.links[i].caseId == c
  }

  // The undone calls for case `c` whose action is not on file.
  function LostCalls(s: State, c: nat): set<nat> {
    set i | 0 <= i < |s.calls| && i in s.undone && s.calls[i].action !in s.rows && s.calls[i].row.action.caseId == c
  }

  lemma {:induction false} AtMostOne(a: set<nat>)
    requires forall i, j | i in a && j in a :: i == j
    ensures |a| <= 1
  {
    if i :| i in a { assert a == {i}; }
  }

  lemma {:induction false} SizeByInjection(a: set<nat>, b: set<nat>, h: map<nat, nat>)
    requires a <= h.Keys && (forall i | i in a :: h[i] in b)
    requires forall i, j | i in a && j in a && h[i] == h[j] :: i == j
    ensures |a| <= |b|
  {
    if i :| i in a { SizeByInjection(a - {i}, b - {h[i]}, h); }
  }

  // The call a link off file was made by.
  ghost predicate MadeBy(s: State, i: nat, j: nat)
    requires i < |s.links|
  {
    j < |s.calls| && s.calls[j].key == s.links[i].key && s.calls[j].row.action.caseId == s.links[i].caseId
  }

  lemma LostCallOf(s: State, c: nat, i: nat) returns (j: nat)
    requires Inv(s) && OnFileOrUndone(s) && i in LinksOf(s, c, false)
    ensures MadeBy(s, i, j) && j in LostCalls(s, c) && s.calls[j].action == s.links[i].key.action
  {
    assert Backed(s.calls, s.links[i]) by { assert s.links[i] in s.links; }
    var call :| call in s.calls && call.key == s.links[i].key && call.row.action.caseId == s.links[i].caseId;
    j :| 0 <= j < |s.calls| && s.calls[j] == call;
    assert call.key == IdempotencyKey(call.action);
  }

  lemma LostLinks(s: State, c: nat)
    requires Inv(s) && OnFileOrUndone(s)
    ensures |LinksOf(s, c, false)| <= |LostCalls(s, c)|
  {
    var a := LinksOf(s, c, false);
    forall i | i in a ensures exists j :: MadeBy(s, i, j) && j in LostCalls(s, c) {
      var j := LostCallOf(s, c, i);
    }
    var h := map i | i in a :: CallFor(s, c, i);
    forall i, j | i in a && j in a && h[i] == h[j] ensures i == j {
      assert s.links[i].key == s.links[j].key;
    }
    SizeByInjection(a, LostCalls(s, c), h);
  }

  ghost function CallFor(s: State, c: nat, i: nat): (j: nat)
    requires i < |s.links| && exists j :: MadeBy(s, i, j) && j in LostCalls(s, c)
    ensures MadeBy(s, i, j) && j in LostCalls(s, c)
  {
    var j :| MadeBy(s, i, j) && j in LostCalls(s, c);
    j
  }

  lemma LinksOnFile(s: State, c: nat)
    requires Reachable(s)
    ensures |LinksOf(s, c, true)| <= 1
  {
    forall i, j | i in LinksOf(s, c, true) && j in LinksOf(s, c, true) ensures i == j {
      ProtocolLinks.OneLinkPerCase(s, i, j);
    }
    AtMostOne(LinksOf(s, c, true));
  }

  lemma ReachableKeeps(s: State)
    requires Reachable(s)
    ensures Inv(s) && OnFileOrUndone(s)
  {
    var run, labels :| IsRun(run, labels) && run[|labels|] == s;
    RunKeeps(run, labels, |labels|);
    ProtocolRuns.RunInv(run, labels, |labels|);
  }

  lemma OnFileOrNot(s: State, c: nat)
    ensures |AllLinksOf(s, c)| <= |LinksOf(s, c, true)| + |LinksOf(s, c, false)|
  {
    assert AllLinksOf(s, c) == LinksOf(s, c, true) + LinksOf(s, c, false);
  }

  /** All the links a case ever collected: at most one for an action on file, and at most one more for each
      undone call whose action was rolled back with it, on the engine's and the gateway's route. */
  lemma LinksOfACase(s: State, c: nat)
    requires Reachable(s)
    ensures |AllLinksOf(s, c)| <= 1 + |LostCalls(s, c)|
  {
    ReachableKeeps(s);
    LinksOnFile(s, c);
    LostLinks(s, c);
    OnFileOrNot(s, c);
  }
}
