/** Probability calibration of the benchmark (scripts/run_judge_benchmark.py:679-744) over exact reals,
    before its final rounding. */
module Calibration {
  import opened Numbers

  function Abs(x: real): real { if x < 0.0 then -x else x }

  // A prediction with its observed outcome.
  datatype Pair = Pair(predicted: real, observed: real)

  function Error(e: Pair): real { e.predicted - e.observed }

  /** Whether a prediction falls into bin `b` of `bins`; only the last bin includes its upper end. */
  predicate InBin(p: real, b: nat, bins: nat)
    requires bins > 0
  {
    var width := 1.0 / bins as real;
    var low, high := b as real * width, (b + 1) as real * width;
    (low <= p < high) || (b == bins - 1 && low <= p <= high)
  }

  function Count(s: seq<Pair>, b: nat, bins: nat): nat
    requires bins > 0
  {
    if s == [] then 0
    else Count(s[..|s| - 1], b, bins) + if InBin(s[|s| - 1].predicted, b, bins) then 1 else 0
  }

  function Predicted(s: seq<Pair>, b: nat, bins: nat): real
    requires bins > 0
  {
    if s == [] then 0.0
    else Predicted(s[..|s| - 1], b, bins) + if InBin(s[|s| - 1].predicted, b, bins) then s[|s| - 1].predicted else 0.0
  }

  function Observed(s: seq<Pair>, b: nat, bins: nat): real
    requires bins > 0
  {
    if s == [] then 0.0
    else Observed(s[..|s| - 1], b, bins) + if InBin(s[|s| - 1].predicted, b, bins) then s[|s| - 1].observed else 0.0
  }

  function SquaredErrors(s: seq<Pair>): real {
    if s == [] then 0.0 else SquaredErrors(s[..|s| - 1]) + Error(s[|s| - 1]) * Error(s[|s| - 1])
  }

  function Brier(s: seq<Pair>): real
    requires s != []
  {
    Quotient(SquaredErrors(s), |s| as real)
  }

  // What one bin adds to the calibration error: its share times the gap of its two means.
  function BinGap(s: seq<Pair>, b: nat, bins: nat): real
    requires s != [] && bins > 0
  {
    var n := Count(s, b, bins);
    if n == 0 then 0.0
    else n as real / |s| as real * Abs(Predicted(s, b, bins) / n as real - Observed(s, b, bins) / n as real)
  }

  function EceTo(s: seq<Pair>, k: nat, bins: nat): real
    requires s != [] && bins > 0
  {
    if k == 0 then 0.0 else EceTo(s, k - 1, bins) + BinGap(s, k - 1, bins)
  }

  /** The expected calibration error. */
  function Ece(s: seq<Pair>, bins: nat): real
    requires s != [] && bins > 0
  {
    EceTo(s, bins, bins)
  }

  function Zip(predicted: seq<real>, observed: seq<real>): seq<Pair>
    requires |predicted| == |observed|
  {
    seq(|predicted|, i requires 0 <= i < |predicted| => Pair(predicted[i], observed[i]))
  }

  /** calculate_probability_calibration; `counts` are the bins' sizes. Missing or mismatched inputs score
      zero on an empty list of bins. */
  method CalculateProbabilityCalibration(predicted: seq<real>, observed: seq<real>, bins: nat)
    returns (brier: real, ece: real, counts: seq<nat>)
    requires bins > 0
    ensures predicted == [] || observed == [] || |predicted| != |observed| ==> brier == 0.0 && ece == 0.0 && counts == []
    ensures predicted != [] && |predicted| == |observed| ==>
              var s := Zip(predicted, observed);
              && brier == Brier(s) && ece == Ece(s, bins)
              && |counts| == bins && forall b | 0 <= b < bins :: counts[b] == Count(s, b, bins)
  {
    if predicted == [] || observed == [] || |predicted| != |observed| {
      return 0.0, 0.0, [];
    }
    var s := Zip(predicted, observed);
    brier := MeanSquare(s);
    ece, counts := BinErrors(s, bins);
  }

  method MeanSquare(s: seq<Pair>) returns (brier: real)
    requires s != []
    ensures brier == Brier(s)
  {
    var squares := 0.0;
    var i := 0;
    while i < |s|
      invariant 0 <= i <= |s| && squares == SquaredErrors(s[..i])
    {
      assert s[..i + 1][..i] == s[..i];
      squares := squares + Error(s[i]) * Error(s[i]);
      i := i + 1;
    }
    assert s[..i] == s;
    brier := squares / |s| as real;
  }

  // The loop over the bins.
  method BinErrors(s: seq<Pair>, bins: nat) returns (ece: real, counts: seq<nat>)
    requires bins > 0 && s != []
    ensures ece == Ece(s, bins)
    ensures |counts| == bins && forall b | 0 <= b < bins :: counts[b] == Count(s, b, bins)
  {
    ece, counts := 0.0, [];
    var b := 0;
    while b < bins
      invariant 0 <= b <= bins && ece == EceTo(s, b, bins) && |counts| == b
      invariant forall c | 0 <= c < b :: counts[c] == Count(s, c, bins)
    {
      var n, predicted, observed := CollectBin(s, b, bins);
      if n > 0 {
        var gap := Abs(predicted / n as real - observed / n as real);
        ece := ece + n as real / |s| as real * gap;
      }
      counts := counts + [n];
      b := b + 1;
    }
  }

  method CollectBin(s: seq<Pair>, b: nat, bins: nat) returns (n: nat, predicted: real, observed: real)
    requires bins > 0
    ensures n == Count(s, b, bins) && predicted == Predicted(s, b, bins) && observed == Observed(s, b, bins)
  {
    n, predicted, observed := 0, 0.0, 0.0;
    var i := 0;
    while i < |s|
      invariant 0 <= i <= |s|
      invariant n == Count(s[..i], b, bins) && predicted == Predicted(s[..i], b, bins) && observed == Observed(s[..i], b, bins)
    {
      assert s[..i + 1][..i] == s[..i];
      if InBin(s[i].predicted, b, bins) {
        n, predicted, observed := n + 1, predicted + s[i].predicted, observed + s[i].observed;
      }
      i := i + 1;
    }
    assert s[..i] == s;
  }

  /** The Brier score is the mean square error: one prediction scores its own, and a further one adds its own to
      the total. */
  lemma BrierIsMeanSquare(s: seq<Pair>, e: Pair)
    ensures Brier([e]) == (e.predicted - e.observed) * (e.predicted - e.observed)
    ensures s != [] ==> Total(Brier(s + [e]), |s| + 1) == Total(Brier(s), |s|) + Brier([e])
  {
    assert [e][..0] == [] && (s + [e])[..|s|] == s;
    assert SquaredErrors([e]) == Error(e) * Error(e) && Quotient(SquaredErrors([e]), 1.0) == SquaredErrors([e]);
    if s != [] {
      TotalOf(SquaredErrors(s), |s|);
      TotalOf(SquaredErrors(s + [e]), |s| + 1);
    }
  }

  function Total(mean: real, n: nat): real { mean * n as real }

  lemma TotalOf(x: real, n: nat)
    requires n > 0
    ensures Total(Quotient(x, n as real), n) == x
  {
    var q := Quotient(x, n as real);
    assert q * n as real == x;
  }

  /* ---- The bins partition the unit interval ---- */

  lemma ProductMonotone(a: real, b: real, w: real)
    requires a <= b && w >= 0.0
    ensures a * w <= b * w
  {
    SignOf(b - a, if w > 0.0 then w else 1.0);
    assert (b - a) * w >= 0.0;
  }

  lemma BinsAreDisjoint(p: real, b: nat, c: nat, bins: nat)
    requires bins > 0 && b < c < bins
    ensures !(InBin(p, b, bins) && InBin(p, c, bins))
  {
    ProductMonotone((b + 1) as real, c as real, 1.0 / bins as real);
  }

  function BinOf(p: real, bins: nat): (b: nat)
    requires bins > 0 && 0.0 <= p <= 1.0
  {
    if p == 1.0 then bins - 1
    else
      assert p * bins as real >= 0.0;
      (p * bins as real).Floor
  }

  lemma BinBounds(p: real, b: nat, bins: nat)
    requires bins > 0 && b as real <= p * bins as real < b as real + 1.0
    ensures b as real * (1.0 / bins as real) <= p < (b + 1) as real * (1.0 / bins as real)
  {
    var w, n := 1.0 / bins as real, bins as real;
    assert w * n == 1.0 && w > 0.0;
    assert p == p * n * w;
    ProductMonotone(b as real, p * n, w);
    assert (b as real + 1.0 - p * n) * w > 0.0;
  }

  lemma BelowBins(p: real, b: nat, bins: nat)
    requires bins > 0 && 0.0 <= p < 1.0 && b as real <= p * bins as real
    ensures b < bins
  {
    assert (1.0 - p) * bins as real > 0.0;
  }

  lemma LastBin(bins: nat)
    requires bins > 0
    ensures InBin(1.0, bins - 1, bins)
  {
    var w, n := 1.0 / bins as real, bins as real;
    assert w * n == 1.0 && w > 0.0;
    assert (bins - 1) as real * w == 1.0 - w;
  }

  /** Every prediction in [0, 1] falls into exactly one bin. */
  lemma ExactlyOneBin(p: real, bins: nat)
    requires bins > 0 && 0.0 <= p <= 1.0
    ensures BinOf(p, bins) < bins
    ensures forall b | 0 <= b < bins :: InBin(p, b, bins) <==> b == BinOf(p, bins)
  {
    var home := BinOf(p, bins);
    if p == 1.0 {
      LastBin(bins);
    } else {
      BelowBins(p, home, bins);
      BinBounds(p, home, bins);
    }
    forall b | 0 <= b < bins && b != home ensures !InBin(p, b, bins) {
      if b < home { BinsAreDisjoint(p, b, home, bins); } else { BinsAreDisjoint(p, home, b, bins); }
    }
  }

  function CountTo(s: seq<Pair>, k: nat, bins: nat): nat
    requires bins > 0
  {
    if k == 0 then 0 else CountTo(s, k - 1, bins) + Count(s, k - 1, bins)
  }

  lemma {:induction false} CountToExtends(s: seq<Pair>, e: Pair, k: nat, bins: nat)
    requires bins > 0 && k <= bins && 0.0 <= e.predicted <= 1.0
    ensures CountTo(s + [e], k, bins) == CountTo(s, k, bins) + if BinOf(e.predicted, bins) < k then 1 else 0
  {
    if k > 0 {
      CountToExtends(s, e, k - 1, bins);
      ExactlyOneBin(e.predicted, bins);
      assert (s + [e])[..|s|] == s;
    }
  }

  lemma {:induction false} NothingToCount(k: nat, bins: nat)
    requires bins > 0
    ensures CountTo([], k, bins) == 0
  {
    if k > 0 { NothingToCount(k - 1, bins); }
  }

  /** The bin sizes add up to the number of predictions. */
  lemma {:induction false} CountsAddUp(s: seq<Pair>, bins: nat)
    requires bins > 0 && forall i | 0 <= i < |s| :: 0.0 <= s[i].predicted <= 1.0
    ensures CountTo(s, bins, bins) == |s|
  {
    if s == [] {
      NothingToCount(bins, bins);
    } else {
      var rest, e := s[..|s| - 1], s[|s| - 1];
      CountsAddUp(rest, bins);
      CountToExtends(rest, e, bins, bins);
      ExactlyOneBin(e.predicted, bins);
      assert rest + [e] == s;
    }
  }

  /* ---- ECE and Brier ---- */

  function AbsErrors(s: seq<Pair>): real {
    if s == [] then 0.0 else AbsErrors(s[..|s| - 1]) + Abs(Error(s[|s| - 1]))
  }

  function BinError(s: seq<Pair>, b: nat, bins: nat): real
    requires bins > 0
  {
    Predicted(s, b, bins) - Observed(s, b, bins)
  }

  function BinErrorsTo(s: seq<Pair>, k: nat, bins: nat): real
    requires bins > 0
  {
    if k == 0 then 0.0 else BinErrorsTo(s, k - 1, bins) + Abs(BinError(s, k - 1, bins))
  }

  lemma BinErrorExtends(s: seq<Pair>, e: Pair, b: nat, bins: nat)
    requires bins > 0
    ensures BinError(s + [e], b, bins) == BinError(s, b, bins) + if InBin(e.predicted, b, bins) then Error(e) else 0.0
  {
    assert (s + [e])[..|s|] == s;
  }

  // Does one of the first `k` bins hold the prediction?
  ghost predicate Binned(p: real, k: nat, bins: nat)
    requires bins > 0
  {
    exists b | 0 <= b < k :: InBin(p, b, bins)
  }

  lemma {:induction false} BinErrorsExtend(s: seq<Pair>, e: Pair, k: nat, bins: nat)
    requires bins > 0 && k <= bins
    ensures BinErrorsTo(s + [e], k, bins) <= BinErrorsTo(s, k, bins) + Abs(Error(e))
    ensures !Binned(e.predicted, k, bins) ==> BinErrorsTo(s + [e], k, bins) == BinErrorsTo(s, k, bins)
  {
    if k > 0 {
      BinErrorsExtend(s, e, k - 1, bins);
      BinErrorExtends(s, e, k - 1, bins);
      if InBin(e.predicted, k - 1, bins) {
        forall b | 0 <= b < k - 1 ensures !InBin(e.predicted, b, bins) {
          BinsAreDisjoint(e.predicted, b, k - 1, bins);
        }
        assert !Binned(e.predicted, k - 1, bins);
      } else {
        assert Binned(e.predicted, k - 1, bins) ==> Binned(e.predicted, k, bins);
      }
    }
  }

  lemma {:induction false} NoErrors(k: nat, bins: nat)
    requires bins > 0
    ensures BinErrorsTo([], k, bins) == 0.0
  {
    if k > 0 { NoErrors(k - 1, bins); }
  }

  // Errors inside a bin can only cancel.
  lemma {:induction false} BinningCancels(s: seq<Pair>, bins: nat)
    requires bins > 0
    ensures BinErrorsTo(s, bins, bins) <= AbsErrors(s)
  {
    if s == [] {
      NoErrors(bins, bins);
    } else {
      var rest, e := s[..|s| - 1], s[|s| - 1];
      BinningCancels(rest, bins);
      BinErrorsExtend(rest, e, bins, bins);
      assert rest + [e] == s;
    }
  }

  lemma CauchyStep(a: real, q: real, n: real, d: real)
    requires n >= 0.0 && a * a <= n * q && a >= 0.0 && q >= 0.0 && d >= 0.0
    requires n == 0.0 ==> a == 0.0
    ensures (a + d) * (a + d) <= (n + 1.0) * (q + d * d)
  {
    if n > 0.0 {
      // 2ad <= q + n d^2, since (a - n d)^2 >= 0 and a^2 <= n q
      var x := a - n * d;
      assert x * x >= 0.0;
      assert x * x == a * a - 2.0 * (a * d) * n + n * n * (d * d);
      assert n * (q - 2.0 * (a * d) + n * (d * d)) >= 0.0;
      SignOf(q - 2.0 * (a * d) + n * (d * d), n);
      assert 2.0 * (a * d) <= q + n * (d * d);
      assert (a + d) * (a + d) == a * a + 2.0 * (a * d) + d * d;
      assert (n + 1.0) * (q + d * d) == n * q + n * (d * d) + q + d * d;
    }
  }

  lemma {:induction false} Cauchy(s: seq<Pair>)
    ensures AbsErrors(s) * AbsErrors(s) <= |s| as real * SquaredErrors(s)
    ensures AbsErrors(s) >= 0.0 && SquaredErrors(s) >= 0.0
    ensures s == [] ==> AbsErrors(s) == 0.0
  {
    if s != [] {
      var rest, d := s[..|s| - 1], Error(s[|s| - 1]);
      Cauchy(rest);
      CauchyStep(AbsErrors(rest), SquaredErrors(rest), |rest| as real, Abs(d));
      assert Abs(d) * Abs(d) == d * d;
      assert |rest| as real + 1.0 == |s| as real;
    }
  }

  lemma GapForm(n: real, c: real, p: real, o: real)
    requires n > 0.0 && c > 0.0
    ensures c / n * Abs(p / c - o / c) == Abs(p - o) / n
  {
    var x, y := p / c, o / c;
    assert x * c == p && y * c == o;
    assert (x - y) * c == p - o;
    assert c * Abs(x - y) == Abs(p - o) by {
      SignOf(x - y, c);
    }
    assert c / n * Abs(x - y) == c * Abs(x - y) / n;
  }

  lemma {:induction false} EmptyBin(s: seq<Pair>, b: nat, bins: nat)
    requires bins > 0 && Count(s, b, bins) == 0
    ensures BinError(s, b, bins) == 0.0
  {
    if s != [] { EmptyBin(s[..|s| - 1], b, bins); }
  }

  lemma BinGapForm(s: seq<Pair>, b: nat, bins: nat)
    requires s != [] && bins > 0
    ensures BinGap(s, b, bins) == Quotient(Abs(BinError(s, b, bins)), |s| as real)
  {
    if Count(s, b, bins) == 0 {
      EmptyBin(s, b, bins);
    } else {
      GapForm(|s| as real, Count(s, b, bins) as real, Predicted(s, b, bins), Observed(s, b, bins));
    }
  }

  lemma {:induction false} EceForm(s: seq<Pair>, k: nat, bins: nat)
    requires s != [] && bins > 0
    ensures EceTo(s, k, bins) == Quotient(BinErrorsTo(s, k, bins), |s| as real)
    ensures BinErrorsTo(s, k, bins) >= 0.0
  {
    if k > 0 {
      EceForm(s, k - 1, bins);
      BinGapForm(s, k - 1, bins);
      QuotientAdds(BinErrorsTo(s, k - 1, bins), Abs(BinError(s, k - 1, bins)), |s| as real);
    }
  }

  lemma SquareMonotone(x: real, y: real)
    requires 0.0 <= x <= y
    ensures x * x <= y * y
  {
    ProductMonotone(x, y, x);
    ProductMonotone(x, y, y);
  }

  lemma Shuffle(x: real, e: real, n: real)
    requires x * n == e
    ensures x * x * n == x * e && x * e * n == e * e
  {
    assert x * x * n == x * (x * n);
    assert x * e * n == (x * n) * e;
  }

  lemma SquareRoot(x: real, y: real, n: real, e: real, q: real)
    requires n > 0.0 && x * n == e && y * n == q && e * e <= n * q
    ensures x * x <= y
  {
    var z, xx, xe := y - x * x, x * x, x * e;
    Shuffle(x, e, n);
    assert z * n == y * n - xx * n;
    var w := z * n;
    assert w == q - xe;
    assert w * n == q * n - xe * n;
    assert w * n >= 0.0;
    SignOf(w, n);
    SignOf(z, n);
  }

  lemma QuotientSquares(e: real, a: real, q: real, n: real)
    requires n > 0.0 && 0.0 <= e <= a && a * a <= n * q
    ensures 0.0 <= Quotient(e, n) && Quotient(e, n) * Quotient(e, n) <= Quotient(q, n)
  {
    SquareMonotone(e, a);
    SignOf(Quotient(e, n), n);
    SquareRoot(Quotient(e, n), Quotient(q, n), n, e, q);
  }

  /** The squared calibration error never exceeds the Brier score, for any predictions, any outcomes and
      any number of bins. */
  lemma EceSquaredWithinBrier(s: seq<Pair>, bins: nat)
    requires s != [] && bins > 0
    ensures Ece(s, bins) >= 0.0
    ensures Ece(s, bins) * Ece(s, bins) <= Brier(s)
  {
    EceForm(s, bins, bins);
    BinningCancels(s, bins);
    Cauchy(s);
    QuotientSquares(BinErrorsTo(s, bins, bins), AbsErrors(s), SquaredErrors(s), |s| as real);
  }
}
