// The simulation monitor: the series the task processes append to, and the
// arithmetic of print_stats exactly as the code performs it.

module Monitoring {
  import opened Options
  import opened Stats

  /** What print_stats computes (it prints these values; the model returns them). */
  datatype Report = Report(
    finishedTasks: nat,
    avgLatency: real,
    avgLoads: seq<real>,
    varLoads: seq<real>,
    avgQlens: seq<real>,
    varQlens: seq<real>,
    totAvgLoad: real,
    totAvgQlen: real,
    totVarLoad: Option<real>,
    totVarQlen: Option<real>)

  function Zeros(n: nat): seq<real>
  {
    seq(n, _ => 0.0)
  }

  /** Every element of xs divided by d (the list comprehensions that normalise the sums). */
  function Divided(xs: seq<real>, d: real): seq<real>
    requires d != 0.0
  {
    seq(|xs|, i requires 0 <= i < |xs| => xs[i] / d)
  }

  /** One accumulation loop of print_stats: for every interval i and server j,
      acc[j] += value_i[j] * (t_i - t_(i-1)). */
  method AddIntegral(acc: seq<real>, s: seq<Sample>) returns (r: seq<real>)
    requires |s| > 0 && Wide(s, |acc|)
    ensures |r| == |acc|
    ensures forall j :: 0 <= j < |acc| ==> r[j] == acc[j] + RightIntegral(s, j, |s|)
  {
    r := acc;
    var i := 1;
    while i < |s|
      invariant 1 <= i <= |s| && |r| == |acc|
      invariant forall j :: 0 <= j < |acc| ==> r[j] == acc[j] + RightIntegral(s, j, i)
    {
      var dt := s[i].time - s[i - 1].time;
      var j := 0;
      while j < |acc|
        invariant 0 <= j <= |acc| && |r| == |acc|
        invariant forall k :: 0 <= k < j ==> r[k] == acc[k] + RightIntegral(s, k, i + 1)
        invariant forall k :: j <= k < |acc| ==> r[k] == acc[k] + RightIntegral(s, k, i)
      {
        r := r[j := r[j] + s[i].values[j] * dt];
        j := j + 1;
      }
      i := i + 1;
    }
  }

  /** One variance loop of print_stats: for every interval i and server j,
      acc[j] += (value_i[j] - center[j]) ** 2 * (t_i - t_(i-1)). */
  method AddSqDev(acc: seq<real>, s: seq<Sample>, center: seq<real>) returns (r: seq<real>)
    requires |s| > 0 && Wide(s, |acc|) && |center| == |acc|
    ensures |r| == |acc|
    ensures forall j :: 0 <= j < |acc| ==> r[j] == acc[j] + RightSqDev(s, j, center[j], |s|)
  {
    r := acc;
    var i := 1;
    while i < |s|
      invariant 1 <= i <= |s| && |r| == |acc|
      invariant forall j :: 0 <= j < |acc| ==> r[j] == acc[j] + RightSqDev(s, j, center[j], i)
    {
      var dt := s[i].time - s[i - 1].time;
      var j := 0;
      while j < |acc|
        invariant 0 <= j <= |acc| && |r| == |acc|
        invariant forall k :: 0 <= k < j ==> r[k] == acc[k] + RightSqDev(s, k, center[k], i + 1)
        invariant forall k :: j <= k < |acc| ==> r[k] == acc[k] + RightSqDev(s, k, center[k], i)
      {
        r := r[j := r[j] + Sq(s[i].values[j] - center[j]) * dt];
        j := j + 1;
      }
      i := i + 1;
    }
  }

  class Monitor {
    const nServers: nat
    var finishedTaskCounter: nat
    var taskLatencies: seq<real>
    var loadsOverTime: seq<Sample>
    var queueLengthsOverTime: seq<Sample>

    /** The shape the task processes keep: both series sampled in pairs at the same
        instants, one value per server, timestamps never going backwards. */
    ghost predicate Valid()
      reads this
    {
      |loadsOverTime| >= 1
      && |queueLengthsOverTime| == |loadsOverTime|
      && (forall i :: 0 <= i < |loadsOverTime| ==>
            |loadsOverTime[i].values| == nServers
            && |queueLengthsOverTime[i].values| == nServers
            && loadsOverTime[i].time == queueLengthsOverTime[i].time)
      && NonDecreasing(loadsOverTime)
      && NonDecreasing(queueLengthsOverTime)
    }

    /** Timestamp of the latest sample pair. */
    function LastTime(): real
      reads this
      requires Valid()
    {
      loadsOverTime[|loadsOverTime| - 1].time
    }

    /** A fresh monitor: no finished task, no latency, and each series holding the
        single sample (0, [0] * n). */
    constructor (n: nat)
      ensures Valid() && nServers == n
      ensures finishedTaskCounter == 0 && taskLatencies == []
      ensures loadsOverTime == [Sample(0.0, Zeros(n))]
      ensures queueLengthsOverTime == [Sample(0.0, Zeros(n))]
    {
      nServers := n;
      finishedTaskCounter := 0;
      taskLatencies := [];
      loadsOverTime := [Sample(0.0, Zeros(n))];
      queueLengthsOverTime := [Sample(0.0, Zeros(n))];
    }

    /** print_stats as written. The queue-length loop reads the LOAD series and adds
        into the load averages, so every average queue length is 0, every reported
        average load is the true time-weighted mean scaled by (1 + elapsed time), and
        the queue-length "variance" is the time-weighted mean of squared queue lengths. */
    method PrintStats() returns (rep: Report)
      requires |taskLatencies| > 0
      requires |loadsOverTime| == |queueLengthsOverTime| && |loadsOverTime| > 1
      requires nServers > 0 && Wide(loadsOverTime, nServers) && Wide(queueLengthsOverTime, nServers)
      requires Span(loadsOverTime) != 0.0 && Span(queueLengthsOverTime) != 0.0
      ensures rep.finishedTasks == finishedTaskCounter
      ensures rep.avgLatency == Mean(taskLatencies)
      ensures |rep.avgLoads| == |rep.varLoads| == |rep.avgQlens| == |rep.varQlens| == nServers
      ensures forall j :: 0 <= j < nServers ==>
        rep.varLoads[j] == TimeWeightedVariance(loadsOverTime, j, TimeWeightedMean(loadsOverTime, j))
      ensures forall j :: 0 <= j < nServers ==>
        rep.avgLoads[j] == TimeWeightedMean(loadsOverTime, j) + RightIntegral(loadsOverTime, j, |loadsOverTime|)
      ensures forall j :: 0 <= j < nServers ==> rep.avgQlens[j] == 0.0
      ensures forall j :: 0 <= j < nServers ==>
        rep.varQlens[j] == RightSqDev(queueLengthsOverTime, j, 0.0, |queueLengthsOverTime|) / Span(queueLengthsOverTime)
      ensures rep.totAvgLoad == Mean(rep.avgLoads) && rep.totAvgQlen == 0.0
      ensures rep.totVarLoad == if nServers > 1 then Some(SampleVariance(rep.avgLoads)) else None
      ensures rep.totVarQlen == if nServers > 1 then Some(0.0) else None
    {
      var avgLatency := Sum(taskLatencies) / |taskLatencies| as real;
      var avgLoads, varLoads := LoadStats(loadsOverTime, nServers);
      var reported, avgQlens, varQlens := QueueLengthStats(loadsOverTime, queueLengthsOverTime, avgLoads);
      var totAvgLoad, totAvgQlen, totVarLoad, totVarQlen := CrossServerStats(reported, avgQlens);
      AllZeroStats(avgQlens);
      rep := Report(finishedTaskCounter, avgLatency, reported, varLoads, avgQlens, varQlens,
                    totAvgLoad, totAvgQlen, totVarLoad, totVarQlen);
    }
  }

  /** Lines computing the per-server time-weighted mean and variance of load. */
  method LoadStats(loads: seq<Sample>, n: nat) returns (avgLoads: seq<real>, varLoads: seq<real>)
    requires |loads| > 1 && Wide(loads, n) && Span(loads) != 0.0
    ensures |avgLoads| == |varLoads| == n
    ensures forall j :: 0 <= j < n ==> avgLoads[j] == TimeWeightedMean(loads, j)
    ensures forall j :: 0 <= j < n ==>
      varLoads[j] == TimeWeightedVariance(loads, j, TimeWeightedMean(loads, j))
  {
    avgLoads := AddIntegral(Zeros(n), loads);
    var totalTimeLoad := Span(loads);
    avgLoads := Divided(avgLoads, totalTimeLoad);
    varLoads := AddSqDev(Zeros(n), loads, avgLoads);
    varLoads := Divided(varLoads, totalTimeLoad);
  }

  /** Lines computing the per-server queue-length statistics, as written: the mean
      loop reads the LOAD series and accumulates into the load averages, so the
      queue-length means stay 0 and the variance loop measures squared queue lengths. */
  method QueueLengthStats(loads: seq<Sample>, qlens: seq<Sample>, avgLoads: seq<real>)
    returns (reported: seq<real>, avgQlens: seq<real>, varQlens: seq<real>)
    requires |loads| > 1 && Wide(loads, |avgLoads|)
    requires |qlens| > 1 && Wide(qlens, |avgLoads|) && Span(qlens) != 0.0
    ensures |reported| == |avgQlens| == |varQlens| == |avgLoads|
    ensures forall j :: 0 <= j < |avgLoads| ==> reported[j] == avgLoads[j] + RightIntegral(loads, j, |loads|)
    ensures forall j :: 0 <= j < |avgLoads| ==> avgQlens[j] == 0.0
    ensures forall j :: 0 <= j < |avgLoads| ==>
      varQlens[j] == RightSqDev(qlens, j, 0.0, |qlens|) / Span(qlens)
  {
    var n := |avgLoads|;
    reported := AddIntegral(avgLoads, loads);
    var totalTimeQlen := Span(qlens);
    avgQlens := Divided(Zeros(n), totalTimeQlen);
    varQlens := AddSqDev(Zeros(n), qlens, avgQlens);
    varQlens := Divided(varQlens, totalTimeQlen);
  }

  /** Lines averaging the per-server values across servers; the variances (divisor
      n - 1) exist only when there are at least two servers. */
  method CrossServerStats(avgLoads: seq<real>, avgQlens: seq<real>)
    returns (totAvgLoad: real, totAvgQlen: real, totVarLoad: Option<real>, totVarQlen: Option<real>)
    requires |avgLoads| == |avgQlens| > 0
    ensures totAvgLoad == Mean(avgLoads) && totAvgQlen == Mean(avgQlens)
    ensures totVarLoad == if |avgLoads| > 1 then Some(SampleVariance(avgLoads)) else None
    ensures totVarQlen == if |avgQlens| > 1 then Some(SampleVariance(avgQlens)) else None
  {
    var n := |avgLoads|;
    totAvgLoad := Sum(avgLoads) / |avgLoads| as real;
    totAvgQlen := Sum(avgQlens) / |avgQlens| as real;
    totVarLoad, totVarQlen := None, None;
    if n > 1 {
      totVarLoad := Some(SumSqDev(avgLoads, totAvgLoad) / (n - 1) as real);
      totVarQlen := Some(SumSqDev(avgQlens, totAvgQlen) / (n - 1) as real);
    }
  }

  /** The average load print_stats reports, mean + integral, is the time-weighted
      mean scaled by (1 + elapsed time): it is right only when that mean is 0. */
  lemma ReportedLoadIsScaled(s: seq<Sample>, j: nat)
    requires |s| > 0 && Wide(s, j + 1) && Span(s) != 0.0
    ensures TimeWeightedMean(s, j) + RightIntegral(s, j, |s|) == TimeWeightedMean(s, j) * (1.0 + Span(s))
    ensures TimeWeightedMean(s, j) + RightIntegral(s, j, |s|) == TimeWeightedMean(s, j) <==> TimeWeightedMean(s, j) == 0.0
  {
    var x, d := RightIntegral(s, j, |s|), Span(s);
    assert (x / d) * d == x;
  }
}
