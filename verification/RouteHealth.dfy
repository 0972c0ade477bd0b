/** Route health from a sliding buffer of payment signals (app/services/systemic_intelligence.py). Times
    are seconds; the two roundings are any functions that keep order. */
module RouteHealth {
  import opened Domain
  import opened Numbers

  const WINDOW_MINUTES := 60
  const BASELINE_RATE := 0.08

  datatype Signal = Signal(time: int, tenant: string, corridor: string, amount: real, isFailure: bool)

  /** The signals from `cutoff` on, in order. */
  function Since(s: seq<Signal>, cutoff: int): seq<Signal> {
    if s == [] then []
    else Since(s[..|s| - 1], cutoff) + if s[|s| - 1].time >= cutoff then [s[|s| - 1]] else []
  }

  predicate Concerns(e: Signal, corridor: string, tenant: Option<string>) {
    e.corridor == corridor && (tenant.None? || e.tenant == tenant.value)
  }

  function Samples(s: seq<Signal>, corridor: string, tenant: Option<string>): nat {
    if s == [] then 0
    else Samples(s[..|s| - 1], corridor, tenant) + if Concerns(s[|s| - 1], corridor, tenant) then 1 else 0
  }

  function Failures(s: seq<Signal>, corridor: string, tenant: Option<string>): (n: nat)
    ensures n <= Samples(s, corridor, tenant)
  {
    if s == [] then 0
    else
      var e := s[|s| - 1];
      Failures(s[..|s| - 1], corridor, tenant) + if Concerns(e, corridor, tenant) && e.isFailure then 1 else 0
  }

  function AmountAtRisk(s: seq<Signal>, corridor: string, tenant: Option<string>): real {
    if s == [] then 0.0
    else
      var e := s[|s| - 1];
      AmountAtRisk(s[..|s| - 1], corridor, tenant) + if Concerns(e, corridor, tenant) && e.isFailure then e.amount else 0.0
  }

  datatype Rounding = Rounding(four: real -> real, two: real -> real)

  ghost predicate Monotone(f: real -> real) {
    forall x, y | x <= y :: f(x) <= f(y)
  }

  function FailureRate(failures: nat, samples: nat, r: Rounding): real
    requires samples > 0
  {
    r.four(Quotient(failures as real, samples as real))
  }

  function DegradationScore(rate: real, r: Rounding): real { r.two(rate / BASELINE_RATE) }

  function StatusOf(failures: nat, samples: nat, r: Rounding): RouteStatus {
    if samples == 0 then OPERATIONAL
    else
      var rate := FailureRate(failures, samples, r);
      var score := DegradationScore(rate, r);
      if samples >= 5 && (rate >= 0.60 || score >= 4.0) then CRITICAL
      else if samples >= 3 && (rate >= 0.30 || score >= 2.0) then DEGRADED
      else OPERATIONAL
  }

  datatype Health = Health(status: RouteStatus, samples: nat, failures: nat, amountAtRisk: real)

  // lookback_minutes or the default window
  function Window(lookback: Option<int>): int {
    if lookback.None? || lookback.value == 0 then WINDOW_MINUTES else lookback.value
  }

  datatype Counts = Counts(samples: nat, failures: nat, amountAtRisk: real)

  function Tally(recent: seq<Signal>, corridor: string, tenant: Option<string>): Counts {
    Counts(Samples(recent, corridor, tenant), Failures(recent, corridor, tenant), AmountAtRisk(recent, corridor, tenant))
  }

  // What the analysis counts in a list of signals at time `now`.
  function CountsOf(s: seq<Signal>, corridor: string, tenant: Option<string>, lookback: Option<int>, now: int): Counts {
    Tally(Since(s, now - 60 * Window(lookback)), corridor, tenant)
  }

  /** The analysis of a list of signals at time `now`. */
  function Analyse(s: seq<Signal>, corridor: string, tenant: Option<string>, lookback: Option<int>, now: int,
                   r: Rounding): Health
  {
    var c := CountsOf(s, corridor, tenant, lookback, now);
    Health(StatusOf(c.failures, c.samples, r), c.samples, c.failures, c.amountAtRisk)
  }

  // `buffer` answers every question from `cutoff` on as the full `log` does.
  ghost predicate Covers(buffer: seq<Signal>, log: seq<Signal>, from: int) {
    forall cutoff | cutoff >= from :: Since(buffer, cutoff) == Since(log, cutoff)
  }

  predicate NoneAfter(log: seq<Signal>, latest: int) {
    forall i | 0 <= i < |log| :: log[i].time <= latest
  }

  const RETENTION := 2 * WINDOW_MINUTES * 60

  /** The sliding buffer. `log` is a history field: every signal since the buffer was last cleared. */
  class SignalBuffer {
    var buffer: seq<Signal>
    ghost var log: seq<Signal>

    ghost predicate Valid()
      reads this
    {
      buffer == BufferOf(log)
    }

    constructor ()
      ensures Valid() && log == []
    {
      buffer, log := [], [];
    }

    /** record_signal: append, then evict what is older than twice the window. */
    method RecordSignal(e: Signal)
      requires Valid()
      modifies this
      ensures Valid() && log == old(log) + [e]
      ensures buffer == Since(old(buffer) + [e], e.time - RETENTION)
    {
      assert (log + [e])[..|log|] == log;
      buffer := buffer + [e];
      log := log + [e];
      var cutoff := e.time - 2 * WINDOW_MINUTES * 60;
      buffer := Since(buffer, cutoff);
    }

    /** analyze_route_health over the buffer: what the full log would say, as long as the window does not
        reach back beyond the retention of the latest signal. */
    method AnalyzeRouteHealth(corridor: string, tenant: Option<string>, lookback: Option<int>, now: int, r: Rounding)
      returns (h: Health)
      requires Valid()
      ensures h == Analyse(buffer, corridor, tenant, lookback, now, r)
      ensures NoneAfter(log, now + RETENTION - 60 * Window(lookback)) ==> h == Analyse(log, corridor, tenant, lookback, now, r)
    {
      var window := WINDOW_MINUTES;
      if lookback.Some? && lookback.value != 0 {
        window := lookback.value;
      }
      var matching := Since(buffer, now - 60 * window);
      var samples, failures := Samples(matching, corridor, tenant), Failures(matching, corridor, tenant);
      h := Health(StatusOf(failures, samples, r), samples, failures, AmountAtRisk(matching, corridor, tenant));
      ghost var latest := now + RETENTION - 60 * Window(lookback);
      if NoneAfter(log, latest) {
        BufferCovers(log, latest);
        assert Since(buffer, latest - RETENTION) == Since(log, latest - RETENTION);
      }
    }

    method ClearBuffer()
      requires Valid()
      modifies this
      ensures Valid() && log == [] && buffer == []
    {
      buffer, log := [], [];
    }
  }

  lemma SinceAppend(s: seq<Signal>, e: Signal, cutoff: int)
    ensures Since(s + [e], cutoff) == Since(s, cutoff) + if e.time >= cutoff then [e] else []
  {
    assert (s + [e])[..|s|] == s;
  }

  lemma {:induction false} SinceTwice(s: seq<Signal>, a: int, b: int)
    requires a <= b
    ensures Since(Since(s, a), b) == Since(s, b)
  {
    if s != [] {
      var rest, e := s[..|s| - 1], s[|s| - 1];
      SinceTwice(rest, a, b);
      if e.time >= a {
        SinceAppend(Since(rest, a), e, b);
      } else {
        assert Since(s, a) == Since(rest, a);
      }
    }
  }

  lemma AppendCovers(buffer: seq<Signal>, log: seq<Signal>, e: Signal, from: int)
    requires Covers(buffer, log, from)
    ensures Covers(buffer + [e], log + [e], from)
  {
    forall cutoff | cutoff >= from ensures Since(buffer + [e], cutoff) == Since(log + [e], cutoff) {
      SinceAppend(buffer, e, cutoff);
      SinceAppend(log, e, cutoff);
    }
  }

  lemma EvictCovers(buffer: seq<Signal>, log: seq<Signal>, evict: int, from: int)
    requires Covers(buffer, log, from) && evict <= from
    ensures Covers(Since(buffer, evict), log, from)
  {
    forall cutoff | cutoff >= from ensures Since(Since(buffer, evict), cutoff) == Since(log, cutoff) {
      SinceTwice(buffer, evict, cutoff);
    }
  }

  // The buffer after a list of signals, as RecordSignal leaves it.
  function BufferOf(log: seq<Signal>): seq<Signal> {
    if log == [] then []
    else Since(BufferOf(log[..|log| - 1]) + [log[|log| - 1]], log[|log| - 1].time - RETENTION)
  }

  lemma {:induction false} BufferCovers(log: seq<Signal>, latest: int)
    requires NoneAfter(log, latest)
    ensures Covers(BufferOf(log), log, latest - RETENTION)
  {
    if log != [] {
      var rest, e := log[..|log| - 1], log[|log| - 1];
      BufferCovers(rest, latest);
      AppendCovers(BufferOf(rest), rest, e, latest - RETENTION);
      assert rest + [e] == log;
      EvictCovers(BufferOf(rest) + [e], log, e.time - RETENTION, latest - RETENTION);
    }
  }

  lemma BufferOfTwo(a: Signal, b: Signal)
    ensures BufferOf([a, b]) == if a.time >= b.time - RETENTION then [a, b] else [b]
  {
    assert [a, b][..1] == [a] && [a][..0] == [];
    SinceAppend([], a, a.time - RETENTION);
    assert [] + [a] == [a] && BufferOf([a]) == [a];
    SinceAppend([a], b, b.time - RETENTION);
    SinceAppend([], a, b.time - RETENTION);
    assert [a] + [b] == [a, b];
  }

  lemma SamplesAppend(s: seq<Signal>, e: Signal, corridor: string, tenant: Option<string>)
    ensures Samples(s + [e], corridor, tenant) == Samples(s, corridor, tenant) + if Concerns(e, corridor, tenant) then 1 else 0
  {
    assert (s + [e])[..|s|] == s;
  }

  lemma SamplesOf(a: Signal, b: Signal)
    requires a.corridor == b.corridor
    ensures Samples([a, b], a.corridor, None) == 2 && Samples([b], a.corridor, None) == 1
  {
    SamplesAppend([], a, a.corridor, None);
    SamplesAppend([a], b, a.corridor, None);
    SamplesAppend([], b, a.corridor, None);
    assert [] + [a] == [a] && [a] + [b] == [a, b] && [] + [b] == [b];
  }

  lemma SinceOf(a: Signal, b: Signal, cutoff: int)
    requires a.time >= cutoff && b.time >= cutoff
    ensures Since([a, b], cutoff) == [a, b] && Since([b], cutoff) == [b]
  {
    SinceAppend([], a, cutoff);
    SinceAppend([a], b, cutoff);
    SinceAppend([], b, cutoff);
    assert [] + [a] == [a] && [a] + [b] == [a, b] && [] + [b] == [b];
  }

  // A log of two signals of one corridor, the first at the edge of the window and the second later.
  lemma LateHides(a: Signal, b: Signal, cutoff: int) returns (log: seq<Signal>)
    requires a.corridor == b.corridor && a.time == cutoff && b.time > cutoff + RETENTION
    ensures NoneAfter(log, b.time)
    ensures Samples(Since(BufferOf(log), cutoff), a.corridor, None) == 1
    ensures Samples(Since(log, cutoff), a.corridor, None) == 2
  {
    log := [a, b];
    BufferOfTwo(a, b);
    SinceOf(a, b, cutoff);
    SamplesOf(a, b);
  }

  lemma EvictionCovered(log: seq<Signal>, corridor: string, tenant: Option<string>, now: int, window: int, latest: int,
                        r: Rounding)
    requires window > 0 && NoneAfter(log, latest) && latest <= now + RETENTION - 60 * window
    ensures Analyse(BufferOf(log), corridor, tenant, Some(window), now, r) == Analyse(log, corridor, tenant, Some(window), now, r)
  {
    BufferCovers(log, latest);
    assert Since(BufferOf(log), now - 60 * window) == Since(log, now - 60 * window);
  }

  lemma SamplesDiffer(buffer: seq<Signal>, log: seq<Signal>, corridor: string, now: int, window: int, r: Rounding)
    requires window > 0
    requires Samples(Since(buffer, now - 60 * window), corridor, None) != Samples(Since(log, now - 60 * window), corridor, None)
    ensures Analyse(buffer, corridor, None, Some(window), now, r) != Analyse(log, corridor, None, Some(window), now, r)
  {
  }

  lemma EvictionShows(now: int, window: int, latest: int, r: Rounding) returns (log: seq<Signal>, corridor: string)
    requires window > 0 && latest > now + RETENTION - 60 * window
    ensures NoneAfter(log, latest)
    ensures Analyse(BufferOf(log), corridor, None, Some(window), now, r) != Analyse(log, corridor, None, Some(window), now, r)
  {
    corridor := "";
    log := LateHides(Signal(now - 60 * window, "", corridor, 1.0, true), Signal(latest, "", corridor, 1.0, true), now - 60 * window);
    SamplesDiffer(BufferOf(log), log, corridor, now, window, r);
  }

  /** When eviction is invisible, exactly. For a window and a latest time: every log without later signals
      is analysed from the buffer as it would be in full if and only if that time is at most the retention,
      less the window, after now. With no signal from the future that covers every window up to 120
      minutes; a single later signal can hide others. */
  lemma EvictionInvisibleIff(now: int, window: int, latest: int, r: Rounding)
    requires window > 0
    ensures (forall log: seq<Signal>, corridor, tenant | NoneAfter(log, latest) ::
               Analyse(BufferOf(log), corridor, tenant, Some(window), now, r) == Analyse(log, corridor, tenant, Some(window), now, r))
            <==> latest <= now + RETENTION - 60 * window
  {
    if latest <= now + RETENTION - 60 * window {
      forall log: seq<Signal>, corridor, tenant | NoneAfter(log, latest)
        ensures Analyse(BufferOf(log), corridor, tenant, Some(window), now, r)
             == Analyse(log, corridor, tenant, Some(window), now, r)
      {
        EvictionCovered(log, corridor, tenant, now, window, latest, r);
      }
    } else {
      var log, corridor := EvictionShows(now, window, latest, r);
    }
  }

  /* ---- What is counted, and what it means ---- */

  // The signal is of the corridor, of the tenant if one is asked for, and no older than the window.
  predicate Relevant(e: Signal, corridor: string, tenant: Option<string>, minutes: int, now: int) {
    e.corridor == corridor && (tenant == None || tenant == Some(e.tenant)) && now - e.time <= 60 * minutes
  }

  /** One signal more counts for one sample more if it is relevant, for one failure more if it failed too, and
      then for its amount. */
  lemma OneMoreSignal(s: seq<Signal>, e: Signal, corridor: string, tenant: Option<string>, minutes: int, now: int)
    ensures Tally(Since(s + [e], now - 60 * minutes), corridor, tenant)
            == Plus(Tally(Since(s, now - 60 * minutes), corridor, tenant), e, Relevant(e, corridor, tenant, minutes, now))
  {
    var cutoff := now - 60 * minutes;
    SinceAppend(s, e, cutoff);
    if e.time >= cutoff {
      OneMoreCounted(Since(s, cutoff), e, corridor, tenant);
    } else {
      assert Since(s, cutoff) + [] == Since(s, cutoff);
    }
  }

  /** An analysis counts the signals of its window, which is an hour unless another one is named. */
  lemma AnalysisCounts(s: seq<Signal>, corridor: string, tenant: Option<string>, lookback: Option<int>, now: int, r: Rounding)
    ensures var minutes := if lookback.Some? && lookback.value != 0 then lookback.value else 60;
      var h, c := Analyse(s, corridor, tenant, lookback, now, r), Tally(Since(s, now - 60 * minutes), corridor, tenant);
      h.samples == c.samples && h.failures == c.failures && h.amountAtRisk == c.amountAtRisk
  {
  }

  function Plus(c: Counts, e: Signal, seen: bool): Counts {
    if !seen then c
    else if !e.isFailure then c.(samples := c.samples + 1)
    else Counts(c.samples + 1, c.failures + 1, c.amountAtRisk + e.amount)
  }

  lemma OneMoreCounted(s: seq<Signal>, e: Signal, corridor: string, tenant: Option<string>)
    ensures Tally(s + [e], corridor, tenant) == Plus(Tally(s, corridor, tenant), e, Concerns(e, corridor, tenant))
  {
    assert (s + [e])[..|s|] == s;
  }

  lemma NoSignals(corridor: string, tenant: Option<string>, lookback: Option<int>, now: int, r: Rounding)
    ensures Analyse([], corridor, tenant, lookback, now, r) == Health(OPERATIONAL, 0, 0, 0.0)
  {
  }

  // A rounding that respects the two thresholds of the score.
  ghost predicate KeepsThresholds(two: real -> real) {
    && (forall x :: two(x) >= 4.0 <==> x >= 4.0) && (forall x :: two(x) >= 2.0 <==> x >= 2.0)
  }

  lemma ShareAtLeast(f: nat, n: nat, share: real)
    requires n > 0
    ensures Quotient(f as real, n as real) >= share <==> f as real >= share * n as real
  {
    var x := Quotient(f as real, n as real);
    assert x * n as real == f as real;
    SignOf(x - share, n as real);
    assert (x - share) * n as real == f as real - share * n as real;
  }

  /** The status in counts. The score's thresholds are four and two times a baseline of eight per cent, so they
      decide alone: a corridor is critical from five samples and eight failures in twenty-five on, degraded
      from three samples and four failures in twenty-five on. The rate's own thresholds, sixty and thirty per
      cent, lie above them and never matter (`RateThresholdsNeverDecide`). */
  lemma StatusInCounts(f: nat, n: nat, r: Rounding)
    requires (forall x :: r.four(x) == x) && KeepsThresholds(r.two)
    ensures StatusOf(f, n, r) == CRITICAL <==> n >= 5 && 25 * f >= 8 * n
    ensures StatusOf(f, n, r) == OPERATIONAL <==> n < 3 || 25 * f < 4 * n
  {
    if n > 0 {
      var rate := FailureRate(f, n, r);
      assert rate == Quotient(f as real, n as real);
      ShareAtLeast(f, n, 0.32);
      ShareAtLeast(f, n, 0.16);
      assert rate / BASELINE_RATE >= 4.0 <==> rate >= 0.32;
      assert rate / BASELINE_RATE >= 2.0 <==> rate >= 0.16;
    }
  }

  /** Whatever the roundings are, as long as they keep order and the two thresholds: a rate of sixty per cent has
      a score of at least four already, and one of thirty per cent a score of at least two. */
  lemma RateThresholdsNeverDecide(f: nat, n: nat, r: Rounding)
    requires n > 0 && Monotone(r.two) && r.two(4.0) == 4.0 && r.two(2.0) == 2.0
    ensures FailureRate(f, n, r) >= 0.60 ==> DegradationScore(FailureRate(f, n, r), r) >= 4.0
    ensures FailureRate(f, n, r) >= 0.30 ==> DegradationScore(FailureRate(f, n, r), r) >= 2.0
  {
    var rate := FailureRate(f, n, r);
    assert rate >= 0.60 ==> rate / BASELINE_RATE >= 4.0;
    assert rate >= 0.30 ==> rate / BASELINE_RATE >= 2.0;
  }

  /* ---- Severity ---- */

  function Severity(s: RouteStatus): nat {
    match s
    case OPERATIONAL => 0
    case DEGRADED => 1
    case CRITICAL => 2
  }

  lemma RateGrows(f: nat, n: nat)
    requires f <= n && n > 0
    ensures Quotient(f as real, n as real) <= Quotient((f + 1) as real, (n + 1) as real)
  {
    FractionGrows(f as real, n as real);
    assert (f + 1) as real == f as real + 1.0 && (n + 1) as real == n as real + 1.0;
  }

  lemma StatusGrows(f: nat, n: nat, r: Rounding)
    requires f <= n && Monotone(r.four) && Monotone(r.two)
    ensures Severity(StatusOf(f, n, r)) <= Severity(StatusOf(f + 1, n + 1, r))
  {
    if n > 0 {
      RateGrows(f, n);
      var rate, rate' := FailureRate(f, n, r), FailureRate(f + 1, n + 1, r);
      assert rate <= rate';
      assert rate / BASELINE_RATE <= rate' / BASELINE_RATE;
      assert DegradationScore(rate, r) <= DegradationScore(rate', r);
    }
  }

  /** One more failure inside the window never makes a corridor look healthier. */
  lemma FailuresNeverLowerSeverity(s: seq<Signal>, e: Signal, tenant: Option<string>, lookback: Option<int>, now: int, r: Rounding)
    requires Monotone(r.four) && Monotone(r.two)
    requires e.isFailure && Concerns(e, e.corridor, tenant) && e.time >= now - 60 * Window(lookback)
    ensures Severity(Analyse(s, e.corridor, tenant, lookback, now, r).status)
         <= Severity(Analyse(s + [e], e.corridor, tenant, lookback, now, r).status)
  {
    var recent := Since(s, now - 60 * Window(lookback));
    SinceAppend(s, e, now - 60 * Window(lookback));
    assert (recent + [e])[..|recent|] == recent;
    StatusGrows(Failures(recent, e.corridor, tenant), Samples(recent, e.corridor, tenant), r);
  }

  /** The same through the buffer, eviction included, when no signal is later than now and the window is
      at most 120 minutes. */
  lemma RecordingFailuresNeverLowersSeverity(log: seq<Signal>, e: Signal, tenant: Option<string>, lookback: Option<int>, now: int,
                                             r: Rounding)
    requires Monotone(r.four) && Monotone(r.two) && Window(lookback) <= 2 * WINDOW_MINUTES
    requires NoneAfter(log, now)
    requires e.isFailure && Concerns(e, e.corridor, tenant) && now - 60 * Window(lookback) <= e.time <= now
    ensures Severity(Analyse(BufferOf(log), e.corridor, tenant, lookback, now, r).status)
         <= Severity(Analyse(BufferOf(log + [e]), e.corridor, tenant, lookback, now, r).status)
  {
    BufferCovers(log, now);
    BufferCovers(log + [e], now);
    var cutoff := now - 60 * Window(lookback);
    assert Since(BufferOf(log), cutoff) == Since(log, cutoff);
    assert Since(BufferOf(log + [e]), cutoff) == Since(log + [e], cutoff);
    FailuresNeverLowerSeverity(log, e, tenant, lookback, now, r);
  }
}
