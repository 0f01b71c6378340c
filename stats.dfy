// Specification functions for the monitor's statistics over irregularly timed
// samples, and what holds of them.

module Stats {

  /** One entry of a monitored series: a timestamp and one value per server. */
  datatype Sample = Sample(time: real, values: seq<real>)

  /** Every sample of the series has at least n values. */
  ghost predicate Wide(s: seq<Sample>, n: nat)
  {
    forall i :: 0 <= i < |s| ==> n <= |s[i].values|
  }

  /** Timestamps never go backwards. */
  ghost predicate NonDecreasing(s: seq<Sample>)
  {
    forall i :: 0 < i < |s| ==> s[i - 1].time <= s[i].time
  }

  /** Python's sum: a left-to-right fold starting at 0. */
  function Sum(xs: seq<real>): real
  {
    if |xs| == 0 then 0.0 else Sum(xs[..|xs| - 1]) + xs[|xs| - 1]
  }

  function Mean(xs: seq<real>): real
    requires |xs| > 0
  {
    Sum(xs) / |xs| as real
  }

  function Sq(x: real): real
  {
    x * x
  }

  /** Sum of squared deviations of xs from m. */
  function SumSqDev(xs: seq<real>, m: real): real
  {
    if |xs| == 0 then 0.0 else SumSqDev(xs[..|xs| - 1], m) + Sq(xs[|xs| - 1] - m)
  }

  /** Sample variance (divisor |xs| - 1) around the arithmetic mean. */
  function SampleVariance(xs: seq<real>): real
    requires |xs| > 1
  {
    SumSqDev(xs, Mean(xs)) / (|xs| - 1) as real
  }

  /** Elapsed time between the first and the last sample. */
  function Span(s: seq<Sample>): real
    requires |s| > 0
  {
    s[|s| - 1].time - s[0].time
  }

  /** Weighted sum of server j's values over the first k samples, each interval
      [t(i-1), t(i)] weighted by the value sampled at its LATER end, t(i). */
  function RightIntegral(s: seq<Sample>, j: nat, k: nat): real
    requires k <= |s| && Wide(s, j + 1)
  {
    if k <= 1 then 0.0
    else RightIntegral(s, j, k - 1) + s[k - 1].values[j] * (s[k - 1].time - s[k - 2].time)
  }

  /** The step-function reading of the same series: each interval weighted by the
      value sampled at its EARLIER end, the value that held during it. */
  function LeftIntegral(s: seq<Sample>, j: nat, k: nat): real
    requires k <= |s| && Wide(s, j + 1)
  {
    if k <= 1 then 0.0
    else LeftIntegral(s, j, k - 1) + s[k - 2].values[j] * (s[k - 1].time - s[k - 2].time)
  }

  /** Right-endpoint weighted sum of squared deviations of server j's values from c. */
  function RightSqDev(s: seq<Sample>, j: nat, c: real, k: nat): real
    requires k <= |s| && Wide(s, j + 1)
  {
    if k <= 1 then 0.0
    else RightSqDev(s, j, c, k - 1) + Sq(s[k - 1].values[j] - c) * (s[k - 1].time - s[k - 2].time)
  }

  /** Time-weighted mean of server j's values as the monitor computes it. */
  function TimeWeightedMean(s: seq<Sample>, j: nat): real
    requires |s| > 0 && Wide(s, j + 1) && Span(s) != 0.0
  {
    RightIntegral(s, j, |s|) / Span(s)
  }

  /** Time-weighted variance of server j's values around c as the monitor computes it. */
  function TimeWeightedVariance(s: seq<Sample>, j: nat, c: real): real
    requires |s| > 0 && Wide(s, j + 1) && Span(s) != 0.0
  {
    RightSqDev(s, j, c, |s|) / Span(s)
  }

  lemma MulNonNeg(a: real, b: real)
    requires a >= 0.0 && b >= 0.0
    ensures a * b >= 0.0
  {
  }

  /** The weighted sum of squared deviations is never negative on a series whose
      timestamps never go backwards. */
  lemma {:induction false} RightSqDevNonNeg(s: seq<Sample>, j: nat, c: real, k: nat)
    requires k <= |s| && Wide(s, j + 1) && NonDecreasing(s)
    ensures RightSqDev(s, j, c, k) >= 0.0
  {
    if k > 1 {
      RightSqDevNonNeg(s, j, c, k - 1);
      var d := s[k - 1].values[j] - c;
      assert Sq(d) >= 0.0;
      MulNonNeg(Sq(d), s[k - 1].time - s[k - 2].time);
    }
  }

  /** Hence every time-weighted variance is non-negative once time has elapsed. */
  lemma TimeWeightedVarianceNonNeg(s: seq<Sample>, j: nat, c: real)
    requires |s| > 0 && Wide(s, j + 1) && NonDecreasing(s) && Span(s) > 0.0
    ensures TimeWeightedVariance(s, j, c) >= 0.0
  {
    RightSqDevNonNeg(s, j, c, |s|);
  }

  /** If every value that carries weight (samples 1 .. k-1) lies in [lo, hi], the
      weighted sum lies between lo and hi times the elapsed time. */
  lemma {:induction false} RightIntegralBounds(s: seq<Sample>, j: nat, lo: real, hi: real, k: nat)
    requires 1 <= k <= |s| && Wide(s, j + 1) && NonDecreasing(s)
    requires forall i :: 1 <= i < k ==> lo <= s[i].values[j] <= hi
    ensures lo * (s[k - 1].time - s[0].time) <= RightIntegral(s, j, k)
    ensures RightIntegral(s, j, k) <= hi * (s[k - 1].time - s[0].time)
  {
    if k > 1 {
      RightIntegralBounds(s, j, lo, hi, k - 1);
      var v, dt := s[k - 1].values[j], s[k - 1].time - s[k - 2].time;
      var before, elapsed := s[k - 2].time - s[0].time, s[k - 1].time - s[0].time;
      assert RightIntegral(s, j, k) == RightIntegral(s, j, k - 1) + v * dt;
      MulNonNeg(v - lo, dt);
      MulNonNeg(hi - v, dt);
      assert lo * elapsed == lo * before + lo * dt;
      assert hi * elapsed == hi * before + hi * dt;
    }
  }

  lemma NonNegFactor(a: real, d: real)
    requires d > 0.0 && a * d >= 0.0
    ensures a >= 0.0
  {
  }

  lemma DivBounds(x: real, lo: real, hi: real, d: real)
    requires d > 0.0 && lo * d <= x <= hi * d
    ensures lo <= x / d <= hi
  {
    var m := x / d;
    assert (m - lo) * d == x - lo * d;
    assert (hi - m) * d == hi * d - x;
    NonNegFactor(m - lo, d);
    NonNegFactor(hi - m, d);
  }

  /** The time-weighted mean lies between the least and the greatest weighted value;
      in particular a series of constant value c has mean c. */
  lemma TimeWeightedMeanBounds(s: seq<Sample>, j: nat, lo: real, hi: real)
    requires |s| > 0 && Wide(s, j + 1) && NonDecreasing(s) && Span(s) > 0.0
    requires forall i :: 1 <= i < |s| ==> lo <= s[i].values[j] <= hi
    ensures lo <= TimeWeightedMean(s, j) <= hi
  {
    RightIntegralBounds(s, j, lo, hi, |s|);
    DivBounds(RightIntegral(s, j, |s|), lo, hi, Span(s));
  }

  /** As the monitor weights intervals, the first sample's values never count: two
      series that differ only there have the same weighted sum. */
  lemma {:induction false} RightIntegralIgnoresFirst(s: seq<Sample>, t: seq<Sample>, j: nat, k: nat)
    requires k <= |s| == |t| && Wide(s, j + 1) && Wide(t, j + 1)
    requires forall i :: 0 <= i < |s| ==> s[i].time == t[i].time
    requires forall i :: 1 <= i < |s| ==> s[i].values[j] == t[i].values[j]
    ensures RightIntegral(s, j, k) == RightIntegral(t, j, k)
  {
    if k > 1 {
      RightIntegralIgnoresFirst(s, t, j, k - 1);
    }
  }

  /** Under the step-function reading it is the last sample's values that never count. */
  lemma {:induction false} LeftIntegralIgnoresLast(s: seq<Sample>, t: seq<Sample>, j: nat, k: nat)
    requires k <= |s| == |t| && Wide(s, j + 1) && Wide(t, j + 1)
    requires forall i :: 0 <= i < |s| ==> s[i].time == t[i].time
    requires forall i :: 0 <= i < |s| - 1 ==> s[i].values[j] == t[i].values[j]
    ensures LeftIntegral(s, j, k) == LeftIntegral(t, j, k)
  {
    if k > 1 {
      LeftIntegralIgnoresLast(s, t, j, k - 1);
    }
  }

  /** The samples (0, [0]), (2, [3]), (5, [0]): the monitor's weighting gives a mean
      of (3*2 + 0*3)/5 = 1.2 where the step-function reading gives (0*2 + 3*3)/5 = 1.8. */
  lemma RightEndpointExample()
    ensures var s := [Sample(0.0, [0.0]), Sample(2.0, [3.0]), Sample(5.0, [0.0])];
      TimeWeightedMean(s, 0) == 1.2 && LeftIntegral(s, 0, 3) / Span(s) == 1.8
  {
    var s := [Sample(0.0, [0.0]), Sample(2.0, [3.0]), Sample(5.0, [0.0])];
    assert RightIntegral(s, 0, 2) == 6.0;
    assert LeftIntegral(s, 0, 2) == 0.0;
  }

  /** Bounds of a sum whose terms all lie in [lo, hi]. */
  lemma {:induction false} SumBounds(xs: seq<real>, lo: real, hi: real)
    requires forall i :: 0 <= i < |xs| ==> lo <= xs[i] <= hi
    ensures |xs| as real * lo <= Sum(xs) <= |xs| as real * hi
  {
    if |xs| > 0 {
      SumBounds(xs[..|xs| - 1], lo, hi);
    }
  }

  /** The arithmetic mean lies between the least and the greatest term. */
  lemma MeanBounds(xs: seq<real>, lo: real, hi: real)
    requires |xs| > 0
    requires forall i :: 0 <= i < |xs| ==> lo <= xs[i] <= hi
    ensures lo <= Mean(xs) <= hi
  {
    SumBounds(xs, lo, hi);
    DivBounds(Sum(xs), lo, hi, |xs| as real);
  }

  /** A sum of squared deviations is never negative. */
  lemma {:induction false} SumSqDevNonNeg(xs: seq<real>, m: real)
    ensures SumSqDev(xs, m) >= 0.0
  {
    if |xs| > 0 {
      SumSqDevNonNeg(xs[..|xs| - 1], m);
      assert Sq(xs[|xs| - 1] - m) >= 0.0;
    }
  }

  /** Hence the cross-server sample variance is never negative. */
  lemma SampleVarianceNonNeg(xs: seq<real>)
    requires |xs| > 1
    ensures SampleVariance(xs) >= 0.0
  {
    SumSqDevNonNeg(xs, Mean(xs));
  }

  /** A sequence of zeros sums to 0, has mean 0 and no spread. */
  lemma {:induction false} AllZeroStats(xs: seq<real>)
    requires forall i :: 0 <= i < |xs| ==> xs[i] == 0.0
    ensures Sum(xs) == 0.0 && SumSqDev(xs, 0.0) == 0.0
    ensures |xs| > 0 ==> Mean(xs) == 0.0
    ensures |xs| > 1 ==> SampleVariance(xs) == 0.0
  {
    if |xs| > 0 {
      AllZeroStats(xs[..|xs| - 1]);
    }
  }
}
