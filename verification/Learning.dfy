/** The smoothed recovery memory (app/services/recovery_learning.py). */
module Learning {
  import opened Domain
  import opened Numbers
  import opened Text

  /* ---- Keys and outcomes ---- */

  datatype Key = Key(domain: string, category: string, corridor: Option<string>)

  function OrUnknown(s: Option<string>): string { if s.None? || s.value == "" then "UNKNOWN" else s.value }

  /** _key: names are compared upper-cased, a missing one is UNKNOWN; an empty corridor is no corridor. */
  function KeyOf(domain: Option<string>, category: Option<string>, corridor: Option<string>): Key {
    Key(Upper(OrUnknown(domain)), Upper(OrUnknown(category)), if corridor == Some("") then None else corridor)
  }

  datatype Kind = Success | Attempt | Unconfirmed

  /** _provider_confirmed_status. */
  function KindOf(outcome: Option<string>): Kind {
    if outcome.None? then Unconfirmed
    else
      var o := Upper(Strip(outcome.value));
      if o in {"RECOVERED", "SUCCESS", "PAID"} then Success
      else if o in {"FAILED", "CANCELLED", "EXPIRED", "DECLINED", "NOT_RECOVERED", "STOPPED", "EXHAUSTED",
                    "TERMINAL_FAILURE", "BLOCKED"} then Attempt
      else Unconfirmed
  }

  const FROZEN := "STOP_RECOVERY"

  datatype Signal = Signal(domain: Option<string>, category: Option<string>, corridor: Option<string>, action: string,
                           outcome: Option<string>)

  function SignalKey(e: Signal): Key { KeyOf(e.domain, e.category, e.corridor) }

  predicate Learned(e: Signal) { e.action != FROZEN && KindOf(e.outcome) != Unconfirmed }

  /* ---- The log and its counts ---- */

  predicate CountsFor(e: Signal, key: Key, action: string) {
    Learned(e) && SignalKey(e) == key && e.action == action
  }

  /** How many confirmed outcomes of an action the log holds under a key. */
  function Total(log: seq<Signal>, key: Key, action: string): nat {
    if log == [] then 0
    else Total(log[..|log| - 1], key, action) + if CountsFor(log[|log| - 1], key, action) then 1 else 0
  }

  function Successes(log: seq<Signal>, key: Key, action: string): (n: nat)
    ensures n <= Total(log, key, action)
  {
    if log == [] then 0
    else
      var e := log[|log| - 1];
      Successes(log[..|log| - 1], key, action) + if CountsFor(e, key, action) && KindOf(e.outcome) == Success then 1 else 0
  }

  datatype Config = Config(beta: real, minSupport: int, prior: real)

  function SmoothedRate(s: real, n: real, beta: real, prior: real): real
    requires n + beta != 0.0
  {
    Quotient(s + beta * prior, n + beta)
  }

  function Smoothed(c: Config, s: nat, n: nat): real
    requires n as real + c.beta != 0.0
  {
    SmoothedRate(s as real, n as real, c.beta, c.prior)
  }

  /** The estimate as a function of the log alone; `None` is a division by zero, which a negative smoothing
      weight allows. */
  function EstimateFrom(c: Config, log: seq<Signal>, key: Key, action: string): Option<real> {
    var n, s := Total(log, key, action), Successes(log, key, action);
    if action == FROZEN || n == 0 || n < c.minSupport then Some(Clamp01(c.prior))
    else if n as real + c.beta == 0.0 then None
    else Some(Clamp01(Smoothed(c, s, n)))
  }

  datatype Bucket = Bucket(total: nat, successes: nat)

  /** RecoveryLearningService. `log` is a history field: every signal since the last reset. */
  class RecoveryLearningService {
    const config: Config
    var memory: map<Key, map<string, Bucket>>
    ghost var log: seq<Signal>

    ghost predicate Valid()
      reads this
    {
      forall key, action ::
           if key in memory && action in memory[key]
           then memory[key][action] == Bucket(Total(log, key, action), Successes(log, key, action))
           else Total(log, key, action) == 0
    }

    constructor (config: Config)
      ensures Valid() && this.config == config && log == []
    {
      this.config, memory, log := config, map[], [];
    }

    /** record_outcome: the memory goes on holding exactly the confirmed counts of the log. */
    method RecordOutcome(e: Signal) returns (recorded: bool)
      requires Valid()
      modifies this
      ensures Valid() && log == old(log) + [e]
      ensures recorded == Learned(e)
      ensures !recorded ==> memory == old(memory)
    {
      assert (log + [e])[..|log|] == log;
      log := log + [e];
      if e.action == FROZEN {
        return false;
      }
      var kind := KindOf(e.outcome);
      if kind == Unconfirmed {
        return false;
      }
      var key := KeyOf(e.domain, e.category, e.corridor);
      var buckets := if key in memory then memory[key] else map[];
      var bucket := if e.action in buckets then buckets[e.action] else Bucket(0, 0);
      bucket := bucket.(total := bucket.total + 1);
      if kind == Success {
        bucket := bucket.(successes := bucket.successes + 1);
      }
      memory := memory[key := buckets[e.action := bucket]];
      return true;
    }

    /** estimate: reads the memory, and returns what the log alone determines. */
    method Estimate(action: string, key: Key) returns (p: Option<real>)
      requires Valid()
      ensures p == EstimateFrom(config, log, key, action)
    {
      if action == FROZEN {
        return Some(Clamp01(config.prior));
      }
      if key !in memory || action !in memory[key] || memory[key][action].total < config.minSupport {
        return Some(Clamp01(config.prior));
      }
      var bucket := memory[key][action];
      assert bucket == Bucket(Total(log, key, action), Successes(log, key, action));
      if bucket.total == 0 {
        return Some(Clamp01(config.prior));
      }
      if bucket.total as real + config.beta == 0.0 {
        return None;
      }
      return Some(Clamp01(Smoothed(config, bucket.successes, bucket.total)));
    }

    method Reset()
      requires Valid()
      modifies this
      ensures Valid() && log == []
    {
      memory, log := map[], [];
    }
  }

  /* ---- What the estimates depend on ---- */

  function Without(log: seq<Signal>, i: nat): seq<Signal>
    requires i < |log|
  {
    log[..i] + log[i + 1..]
  }

  lemma WithoutLast(log: seq<Signal>, i: nat)
    requires i < |log|
    ensures i == |log| - 1 ==> Without(log, i) == log[..|log| - 1]
    ensures i < |log| - 1 ==>
              Without(log, i) == Without(log[..|log| - 1], i) + [log[|log| - 1]]
  {
  }

  lemma {:induction false} TotalWithout(log: seq<Signal>, i: nat, key: Key, action: string)
    requires i < |log|
    ensures Total(log, key, action) == Total(Without(log, i), key, action) + (if CountsFor(log[i], key, action) then 1 else 0)
  {
    WithoutLast(log, i);
    if i < |log| - 1 {
      var rest := Without(log[..|log| - 1], i);
      TotalWithout(log[..|log| - 1], i, key, action);
      assert (rest + [log[|log| - 1]])[..|rest|] == rest;
    }
  }

  lemma {:induction false} SuccessesWithout(log: seq<Signal>, i: nat, key: Key, action: string)
    requires i < |log|
    ensures Successes(log, key, action) == Successes(Without(log, i), key, action)
              + (if CountsFor(log[i], key, action) && KindOf(log[i].outcome) == Success then 1 else 0)
  {
    WithoutLast(log, i);
    if i < |log| - 1 {
      var rest := Without(log[..|log| - 1], i);
      SuccessesWithout(log[..|log| - 1], i, key, action);
      assert (rest + [log[|log| - 1]])[..|rest|] == rest;
    }
  }

  lemma DropAt(s: seq<Signal>, i: nat)
    requires i < |s|
    ensures multiset(s) == multiset(Without(s, i)) + multiset{s[i]}
  {
    assert s == s[..i] + [s[i]] + s[i + 1..];
  }

  lemma Cancel(x: multiset<Signal>, y: multiset<Signal>, e: Signal)
    requires x + multiset{e} == y + multiset{e}
    ensures x == y
  {
    assert x == x + multiset{e} - multiset{e};
    assert y == y + multiset{e} - multiset{e};
  }

  lemma MatchingSignal(a: seq<Signal>, b: seq<Signal>) returns (i: nat)
    requires multiset(a) == multiset(b) && a != []
    ensures i < |b| && b[i] == a[|a| - 1]
    ensures multiset(a[..|a| - 1]) == multiset(Without(b, i))
  {
    var last := |a| - 1;
    assert a[last] in multiset(b);
    i :| 0 <= i < |b| && b[i] == a[last];
    DropAt(a, last);
    DropAt(b, i);
    WithoutLast(a, last);
    Cancel(multiset(a[..last]), multiset(Without(b, i)), b[i]);
  }

  lemma {:induction false} CountsPermute(a: seq<Signal>, b: seq<Signal>, key: Key, action: string)
    requires multiset(a) == multiset(b)
    ensures Total(a, key, action) == Total(b, key, action)
    ensures Successes(a, key, action) == Successes(b, key, action)
    decreases |a|
  {
    if a == [] {
      assert |multiset(b)| == |b| == 0;
    } else {
      var i := MatchingSignal(a, b);
      CountsPermute(a[..|a| - 1], Without(b, i), key, action);
      TotalWithout(b, i, key, action);
      SuccessesWithout(b, i, key, action);
    }
  }

  /** The order in which outcomes were learned does not matter. */
  lemma OrderOfLearningIsIrrelevant(c: Config, a: seq<Signal>, b: seq<Signal>, key: Key, action: string)
    requires multiset(a) == multiset(b)
    ensures EstimateFrom(c, a, key, action) == EstimateFrom(c, b, key, action)
  {
    CountsPermute(a, b, key, action);
  }

  /** Learning in one corridor, category or domain leaves every estimate elsewhere alone, as does every
      unconfirmed outcome. */
  lemma OtherKeysUntouched(c: Config, log: seq<Signal>, e: Signal, key: Key, action: string)
    requires !CountsFor(e, key, action)
    ensures EstimateFrom(c, log + [e], key, action) == EstimateFrom(c, log, key, action)
  {
    assert (log + [e])[..|log|] == log;
  }

  /** The names of domain and category are matched whatever their case. */
  lemma KeysIgnoreCase(domain: string, category: string, corridor: Option<string>)
    ensures KeyOf(Some(Upper(domain)), Some(Upper(category)), corridor) == KeyOf(Some(domain), Some(category), corridor)
  {
    UpperIsIdempotent(domain);
    UpperIsIdempotent(category);
    assert |Upper(domain)| == |domain| && |Upper(category)| == |category|;
  }

  /** The outcomes that count, in any case and behind any blanks: three as successes, nine as failed attempts. A
      missing outcome does not. */
  lemma OutcomesThatCount(outcome: string, name: string)
    requires Upper(Strip(outcome)) == name
    ensures KindOf(None) == Unconfirmed
    ensures KindOf(Some(outcome)) == KindOf(Some(Upper(outcome))) == KindOf(Some(" " + outcome))
    ensures KindOf(Some(outcome)) == Success <==> name in ["RECOVERED", "SUCCESS", "PAID"]
    ensures KindOf(Some(outcome)) != Unconfirmed <==>
              name in ["RECOVERED", "SUCCESS", "PAID"] + ["FAILED", "CANCELLED", "EXPIRED", "DECLINED", "NOT_RECOVERED",
                       "STOPPED", "EXHAUSTED", "TERMINAL_FAILURE", "BLOCKED"]
  {
    StripUpper(outcome);
    UpperIsIdempotent(Strip(outcome));
    assert (" " + outcome)[0] == ' ' && (" " + outcome)[1..] == outcome;
    assert Strip(" " + outcome) == Strip(outcome);
  }

  /** A missing domain or category and the name UNKNOWN are one key, an empty corridor and none another; different
      corridors are kept apart. */
  lemma MissingNames(domain: Option<string>, category: Option<string>, corridor: string, other: string)
    ensures KeyOf(None, category, None) == KeyOf(Some(""), category, Some("")) == KeyOf(Some("unknown"), category, None)
    ensures KeyOf(domain, None, None) == KeyOf(domain, Some(""), Some("")) == KeyOf(domain, Some("unknown"), None)
    ensures corridor != "" ==> KeyOf(domain, category, Some(corridor)) != KeyOf(domain, category, None)
    ensures KeyOf(domain, category, Some(corridor)) == KeyOf(domain, category, Some(other)) <==> corridor == other
  {
    assert Upper("unknown") == "UNKNOWN" == Upper("UNKNOWN");
  }

  lemma BetweenCore(s: real, n: real, beta: real, prior: real)
    requires 0.0 <= s <= n && n > 0.0 && beta > 0.0 && 0.0 < prior < 1.0
    ensures var p, r := SmoothedRate(s, n, beta, prior), Quotient(s, n);
      && 0.0 < p < 1.0
      && (if r <= prior then r <= p <= prior else prior <= p <= r)
  {
    var p, r := Quotient(s + beta * prior, n + beta), Quotient(s, n);
    assert r * n == s;
    assert p * (n + beta) == s + beta * prior;
    ShareOf(prior, beta);
    assert (p - prior) * (n + beta) == n * (r - prior);
    assert (r - p) * (n + beta) == beta * (r - prior);
    SignOf(p, n + beta);
    SignOf(1.0 - p, n + beta);
    SignOf(p - prior, n + beta);
    SignOf(r - p, n + beta);
    SignOf(r - prior, n);
    SignOf(r - prior, beta);
  }

  function Rate(s: nat, n: nat): real
    requires n > 0
  {
    Quotient(s as real, n as real)
  }

  lemma SmoothedBetween(c: Config, s: nat, n: nat)
    requires s <= n && n > 0 && c.beta > 0.0 && 0.0 < c.prior < 1.0
    ensures var p, r := Smoothed(c, s, n), Rate(s, n);
      && 0.0 < p < 1.0
      && (if r <= c.prior then r <= p <= c.prior else c.prior <= p <= r)
  {
    BetweenCore(s as real, n as real, c.beta, c.prior);
  }

  // A supported estimate is the smoothed rate: the clamp does not act.
  lemma SupportedEstimate(c: Config, log: seq<Signal>, key: Key, action: string)
    requires c.beta > 0.0 && 0.0 < c.prior < 1.0 && Total(log, key, action) > 0
    ensures var n, s := Total(log, key, action), Successes(log, key, action);
      EstimateFrom(c, log, key, action) == Some(if n < c.minSupport then c.prior else Smoothed(c, s, n))
  {
    SmoothedBetween(c, Successes(log, key, action), Total(log, key, action));
    if action == FROZEN { NothingLearned(log, key); }
  }

  /** Experience moves the estimate from the prior towards the empirical rate and never past either, and
      the estimate stays strictly between impossible and certain. */
  lemma EstimatesAreModest(c: Config, log: seq<Signal>, key: Key, action: string)
    requires c.beta > 0.0 && 0.0 < c.prior < 1.0
    ensures EstimateFrom(c, log, key, action).Some? && 0.0 < EstimateFrom(c, log, key, action).value < 1.0
    ensures var n, s, p := Total(log, key, action), Successes(log, key, action), EstimateFrom(c, log, key, action).value;
      n > 0 ==> if Rate(s, n) <= c.prior then Rate(s, n) <= p <= c.prior else c.prior <= p <= Rate(s, n)
  {
    if Total(log, key, action) > 0 {
      SupportedEstimate(c, log, key, action);
      SmoothedBetween(c, Successes(log, key, action), Total(log, key, action));
    }
  }

  /** Whatever the configuration, an estimate that comes out at all is a probability, and the prior of an action
      without confirmed outcomes is its own clamp. */
  lemma EstimatesAreProbabilities(c: Config, log: seq<Signal>, key: Key, action: string)
    ensures var p := EstimateFrom(c, log, key, action); p.Some? ==> 0.0 <= p.value <= 1.0
    ensures 0.0 <= c.prior <= 1.0 ==> EstimateFrom(c, [], key, action) == Some(c.prior)
  {
  }

  // Stopping is never learned about.
  lemma {:induction false} NothingLearned(log: seq<Signal>, key: Key)
    ensures Total(log, key, FROZEN) == 0
  {
    if log != [] {
      NothingLearned(log[..|log| - 1], key);
    }
  }

  lemma GrowsCore(s: real, n: real, beta: real, prior: real)
    requires 0.0 <= s <= n && n > 0.0 && beta > 0.0 && 0.0 < prior < 1.0
    ensures SmoothedRate(s, n + 1.0, beta, prior) < SmoothedRate(s, n, beta, prior)
            < SmoothedRate(s + 1.0, n + 1.0, beta, prior)
  {
    ShareOf(prior, beta);
    FractionGrows(s + beta * prior, n + beta);
  }

  lemma SmoothedGrows(c: Config, s: nat, n: nat)
    requires s <= n && n > 0 && c.beta > 0.0 && 0.0 < c.prior < 1.0
    ensures Smoothed(c, s, n + 1) < Smoothed(c, s, n) < Smoothed(c, s + 1, n + 1)
  {
    GrowsCore(s as real, n as real, c.beta, c.prior);
    assert (s + 1) as real == s as real + 1.0 && (n + 1) as real == n as real + 1.0;
  }

  lemma OneMoreCounted(log: seq<Signal>, e: Signal)
    requires Learned(e)
    ensures var key := SignalKey(e);
      && Total(log + [e], key, e.action) == Total(log, key, e.action) + 1
      && Successes(log + [e], key, e.action) == Successes(log, key, e.action) + if KindOf(e.outcome) == Success then 1 else 0
  {
    assert (log + [e])[..|log|] == log;
  }

  /** Once there is support, every further success raises the estimate and every further failed attempt lowers
      it. */
  lemma EvidencePullsItsWay(c: Config, log: seq<Signal>, e: Signal)
    requires c.beta > 0.0 && 0.0 < c.prior < 1.0 && Learned(e)
    requires var n := Total(log, SignalKey(e), e.action); n > 0 && n >= c.minSupport
    ensures var key := SignalKey(e);
      var p, p' := EstimateFrom(c, log, key, e.action), EstimateFrom(c, log + [e], key, e.action);
      && p.Some? && p'.Some?
      && if KindOf(e.outcome) == Success then p.value < p'.value else p'.value < p.value
  {
    var key := SignalKey(e);
    OneMoreCounted(log, e);
    SupportedEstimate(c, log, key, e.action);
    SupportedEstimate(c, log + [e], key, e.action);
    SmoothedGrows(c, Successes(log, key, e.action), Total(log, key, e.action));
  }

  // `p` is the rate of `s` successes in `n` outcomes and `beta` imagined ones at the prior.
  predicate Pooled(p: real, s: real, n: real, beta: real, prior: real) { p * (n + beta) == s + prior * beta }

  lemma SmoothedIsPooled(s: real, n: real, beta: real, prior: real)
    requires n + beta != 0.0
    ensures Pooled(SmoothedRate(s, n, beta, prior), s, n, beta, prior)
  {
    var p := Quotient(s + beta * prior, n + beta);
    assert p * (n + beta) == s + beta * prior;
  }

  /** A supported estimate is the rate among the confirmed outcomes and `beta` imagined ones at the prior. Below
      the minimum support it is the prior itself. */
  lemma ImaginedOutcomes(c: Config, log: seq<Signal>, key: Key, action: string)
    requires c.beta > 0.0 && 0.0 < c.prior < 1.0 && Total(log, key, action) > 0
    ensures var n, s, p := Total(log, key, action), Successes(log, key, action), EstimateFrom(c, log, key, action);
      p.Some? && if n < c.minSupport then p.value == c.prior else Pooled(p.value, s as real, n as real, c.beta, c.prior)
  {
    SupportedEstimate(c, log, key, action);
    SmoothedIsPooled(Successes(log, key, action) as real, Total(log, key, action) as real, c.beta, c.prior);
  }

  const SOME_KEY := KeyOf(None, None, None)
  const SOME_ATTEMPT := Signal(None, None, None, "WAIT", Some("FAILED"))

  lemma {:induction false} LogOf(n: nat) returns (log: seq<Signal>)
    ensures Total(log, SOME_KEY, "WAIT") == n
  {
    if n == 0 {
      log := [];
    } else {
      var rest := LogOf(n - 1);
      log := rest + [SOME_ATTEMPT];
      assert log[..|log| - 1] == rest;
      AttemptIsLearned();
    }
  }

  lemma AttemptIsLearned()
    ensures CountsFor(SOME_ATTEMPT, SOME_KEY, "WAIT")
  {
    assert "WAIT"[0] != FROZEN[0];
    assert StripLeft("FAILED") == "FAILED" && StripRight("FAILED") == "FAILED";
    assert Upper("FAILED") == "FAILED";
  }

  // A count that may override the prior and cancels the smoothing weight.
  predicate Cancels(c: Config, n: nat) { n >= 1 && n >= c.minSupport && n as real + c.beta == 0.0 }

  /** Which configurations can make an estimate divide by zero: exactly those whose smoothing weight is the
      negative of a count that may override the prior. A positive weight never does. */
  lemma DividesByZeroIff(c: Config)
    ensures (exists log, key, action :: EstimateFrom(c, log, key, action) == None)
            <==> exists n: nat :: Cancels(c, n)
  {
    if n: nat :| Cancels(c, n) {
      var log := LogOf(n);
      assert "WAIT"[0] != FROZEN[0];
      assert EstimateFrom(c, log, SOME_KEY, "WAIT") == None;
    }
    forall log, key, action | EstimateFrom(c, log, key, action) == None ensures Cancels(c, Total(log, key, action)) {
    }
  }
}
