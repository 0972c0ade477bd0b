/** The invariant over whole runs. */
module ProtocolRuns {
  import opened Domain
  import opened Execution
  import opened Protocol
  import opened ProtocolInvariant
  import ProtocolSteps
  import ProtocolCommit
  import ProtocolCreation
  import ProtocolWebhook

  predicate IsQuiet(l: Label) { l.Tick? || l.Switch? || l.SetWindow? || l.Reclassify? || l.Accept? }

  predicate IsPoller(l: Label) { l.Claim? || l.Execute? || l.Commit? || l.Crash? }

  predicate OnlySettings(s: State, s': State) {
    && s'.rows == s.rows && s'.cases == s.cases && s'.organic == s.organic && s'.txns == s.txns
    && s'.calls == s.calls && s'.undone == s.undone && s'.links == s.links && s'.decisions == s.decisions
  }

  lemma ClockGrows(s: State, s': State)
    requires s' == s.(now := s'.now, enabled := s'.enabled, window := s'.window) && s.now <= s'.now
    ensures Grows(s, s') && OnlySettings(s, s')
  {
  }

  lemma ReclassifyGrows(s: State, c: nat, category: FailureCategory)
    requires c in s.cases
    ensures var s' := s.(categories := s.categories[c := category], reclassified := s.reclassified + {c});
      Grows(s, s') && OnlySettings(s, s')
  {
  }

  lemma AcceptGrows(s: State, e: nat, event: Event)
    requires e !in s.events
    ensures var s' := s.(events := s.events[e := event]); Grows(s, s') && OnlySettings(s, s')
  {
  }

  lemma QuietGrows(s: State, l: Label)
    requires Enabled(s, l) && IsQuiet(l)
    ensures Grows(s, Apply(s, l)) && OnlySettings(s, Apply(s, l))
  {
    match l
    case Tick(elapsed) => ClockGrows(s, s.(now := s.now + elapsed));
    case Switch(enabled) => ClockGrows(s, s.(enabled := enabled));
    case SetWindow(window) => ClockGrows(s, s.(window := window));
    case Reclassify(c, category) => ReclassifyGrows(s, c, category);
    case Accept(e, payload, tenant) => AcceptGrows(s, e, Event(payload, tenant, false, None));
  }

  lemma QuietLabel(s: State, l: Label)
    requires Inv(s) && Enabled(s, l) && IsQuiet(l)
    ensures Inv(Apply(s, l)) && Grows(s, Apply(s, l))
  {
    QuietGrows(s, l);
    ProtocolSteps.QuietStep(s, Apply(s, l));
  }

  lemma SweepLabel(s: State, l: Label)
    requires Inv(s) && Enabled(s, l) && (l.Claim? || l.Execute?)
    ensures Inv(Apply(s, l)) && Grows(s, Apply(s, l))
  {
    match l
    case Claim(w, batch, lease) => ProtocolSteps.ClaimStep(s, w, batch, lease);
    case Execute(w, a, env, created) => ProtocolSteps.ExecuteStep(s, w, a, env, created);
  }

  lemma EndLabel(s: State, l: Label)
    requires Inv(s) && Enabled(s, l) && (l.Commit? || l.Crash?)
    ensures Inv(Apply(s, l)) && Grows(s, Apply(s, l))
  {
    match l
    case Commit(w) => ProtocolCommit.CommitStep(s, w);
    case Crash(w) => ProtocolSteps.CrashStep(s, w);
  }

  lemma ServiceLabel(s: State, l: Label)
    requires Inv(s) && Enabled(s, l) && !IsQuiet(l) && !IsPoller(l)
    ensures Inv(Apply(s, l)) && Grows(s, Apply(s, l))
  {
    match l
    case Decide(i, adapter, env, created, lost) => ProtocolCreation.DecideStep(s, i, adapter, env, created, lost);
    case Gateway(c, d, amount, env, created, lost) => ProtocolCreation.GatewayStep(s, c, d, amount, env, created, lost);
    case Confirm(e, look, measure) => ProtocolWebhook.ConfirmStep(s, e, look, measure);
  }

  /** Every step keeps the invariant, and only lets the durable facts grow. */
  lemma StepKeepsInv(s: State, l: Label)
    requires Inv(s) && Enabled(s, l)
    ensures Inv(Apply(s, l)) && Grows(s, Apply(s, l))
  {
    if IsQuiet(l) {
      QuietLabel(s, l);
    } else if l.Claim? || l.Execute? {
      SweepLabel(s, l);
    } else if l.Commit? || l.Crash? {
      EndLabel(s, l);
    } else {
      ServiceLabel(s, l);
    }
  }

  lemma InitialInv(s: State)
    requires Initial(s)
    ensures Inv(s)
  {
  }

  // One step of a path, by name.
  lemma PathStep(run: seq<State>, labels: seq<Label>, k: nat)
    requires IsPath(run, labels) && 0 < k <= |labels|
    ensures Enabled(run[k - 1], labels[k - 1]) && run[k] == Apply(run[k - 1], labels[k - 1])
  {
    assert Enabled(run[k - 1], labels[k - 1]) && run[k - 1 + 1] == Apply(run[k - 1], labels[k - 1]);
  }

  lemma NextInv(s: State, l: Label, s': State)
    requires Inv(s) && Enabled(s, l) && s' == Apply(s, l)
    ensures Inv(s') && Grows(s, s')
  {
    StepKeepsInv(s, l);
  }

  lemma StepAlong(run: seq<State>, labels: seq<Label>, k: nat)
    requires IsPath(run, labels) && 0 < k <= |labels| && Inv(run[k - 1])
    ensures Inv(run[k]) && Grows(run[k - 1], run[k])
  {
    PathStep(run, labels, k);
    NextInv(run[k - 1], labels[k - 1], run[k]);
  }

  lemma {:induction false} PathInv(run: seq<State>, labels: seq<Label>, k: nat)
    requires IsPath(run, labels) && Inv(run[0]) && k <= |labels|
    ensures Inv(run[k])
  {
    if k > 0 {
      PathInv(run, labels, k - 1);
      StepAlong(run, labels, k);
    }
  }

  ghost predicate AllInv(run: seq<State>) {
    forall k {:trigger Inv(run[k])} | 0 <= k < |run| :: Inv(run[k])
  }

  lemma PathAllInv(run: seq<State>, labels: seq<Label>)
    requires IsPath(run, labels) && Inv(run[0])
    ensures AllInv(run)
  {
    forall k | 0 <= k < |run| ensures Inv(run[k]) { PathInv(run, labels, k); }
  }

  /** The invariant holds at every moment of every run. */
  lemma RunInv(run: seq<State>, labels: seq<Label>, k: nat)
    requires IsRun(run, labels) && k <= |labels|
    ensures Inv(run[k])
  {
    InitialInv(run[0]);
    PathInv(run, labels, k);
  }

  lemma ReachableInv(s: State)
    requires Reachable(s)
    ensures Inv(s)
  {
    var run, labels :| IsRun(run, labels) && run[|labels|] == s;
    RunInv(run, labels, |labels|);
  }

  lemma CaseGrowsTransitive(a: Case, b: Case, c: Case)
    requires CaseGrows(a, b) && CaseGrows(b, c)
    ensures CaseGrows(a, c)
  {
  }

  lemma RowGrowsTransitive(a: Row, b: Row, c: Row)
    requires RowGrows(a, b) && RowGrows(b, c)
    ensures RowGrows(a, c)
  {
  }

  lemma GrowsTransitive(a: State, b: State, c: State)
    requires Grows(a, b) && Grows(b, c)
    ensures Grows(a, c)
  {
    forall k | k in a.cases ensures k in c.cases && CaseGrows(a.cases[k], c.cases[k]) {
      CaseGrowsTransitive(a.cases[k], b.cases[k], c.cases[k]);
    }
    forall k | k in a.rows ensures k in c.rows && RowGrows(a.rows[k], c.rows[k]) {
      RowGrowsTransitive(a.rows[k], b.rows[k], c.rows[k]);
    }
    forall k | k in a.cases && k in a.categories
      ensures k in c.categories && (c.categories[k] == a.categories[k] || k in c.reclassified)
    {
      assert k in b.cases && k in b.categories;
    }
  }

  lemma GrowsItself(s: State)
    ensures Grows(s, s)
  {
  }

  /** Between any two moments of a run the durable facts only grow. */
  lemma {:induction false} RunGrows(run: seq<State>, labels: seq<Label>, i: nat, j: nat)
    requires IsRun(run, labels) && i <= j <= |labels|
    ensures Grows(run[i], run[j])
  {
    if i == j {
      GrowsItself(run[i]);
    } else {
      RunGrows(run, labels, i, j - 1);
      RunInv(run, labels, j - 1);
      StepAlong(run, labels, j);
      GrowsTransitive(run[i], run[j - 1], run[j]);
    }
  }
}
