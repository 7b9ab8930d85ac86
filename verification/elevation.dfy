/** The pure helpers of the current engine (dist/content.js): the VAM
    formula, cumulative elevation gain and the moving-average smoothing
    pass. The VAM formula is also the older engine's. */
module Elevation {
  import opened Common

  /** Metres climbed per hour: gain / (seconds / 3600), and 0 when no time
      has elapsed. No clamping and no rounding. */
  function CalculateVam(elevationGain: real, timeSeconds: real): (r: real)
    ensures timeSeconds == 0.0 ==> r == 0.0
    ensures timeSeconds != 0.0 ==> r * timeSeconds == elevationGain * 3600.0
  {
    if timeSeconds == 0.0 then 0.0 else elevationGain / (timeSeconds / 3600.0)
  }

  /** A VAM is positive exactly when gain and time are non-zero and agree in sign. */
  lemma VamIsPositiveIff(elevationGain: real, timeSeconds: real)
    ensures CalculateVam(elevationGain, timeSeconds) > 0.0 <==>
              (elevationGain > 0.0 && timeSeconds > 0.0) || (elevationGain < 0.0 && timeSeconds < 0.0)
  {
    var r := CalculateVam(elevationGain, timeSeconds);
    if timeSeconds > 0.0 {
      assert r * timeSeconds == elevationGain * 3600.0;
      assert r > 0.0 ==> r * timeSeconds > 0.0;
      assert r <= 0.0 ==> r * timeSeconds <= 0.0;
    } else if timeSeconds < 0.0 {
      assert r * timeSeconds == elevationGain * 3600.0;
      assert r > 0.0 ==> r * timeSeconds < 0.0;
      assert r <= 0.0 ==> r * timeSeconds >= 0.0;
    }
  }

  /** The positive part of one step, the only part a climb counts. */
  function Climb(diff: real): real {
    if diff > 0.0 then diff else 0.0
  }

  /** Metres climbed from sample s to sample t: the sum over k in (s, t] of
      the positive steps e[k] - e[k-1]; descents count nothing. An empty
      range (t <= s) climbs nothing. */
  function CumulativeElevationGain(e: seq<real>, s: nat, t: nat): (r: real)
    requires s < t ==> t < |e|
    ensures r >= 0.0
    ensures s <= t < |e| ==> r >= e[t] - e[s]
    decreases t
  {
    if t <= s then 0.0 else CumulativeElevationGain(e, s, t - 1) + Climb(e[t] - e[t - 1])
  }

  /** The per-step climbs, climbs[k] being the climb from sample k to k + 1. */
  function Climbs(e: seq<real>): (c: seq<real>)
    ensures |c| == if |e| == 0 then 0 else |e| - 1
  {
    if |e| == 0 then [] else seq(|e| - 1, k requires 0 <= k < |e| - 1 => Climb(e[k + 1] - e[k]))
  }

  /** Independent reading of the gain: the plain sum of the step climbs of the range. */
  lemma {:induction false} GainIsSumOfClimbs(e: seq<real>, s: nat, t: nat)
    requires s <= t < |e|
    ensures CumulativeElevationGain(e, s, t) == Sum(Climbs(e)[s..t])
    decreases t
  {
    if s == t {
      ClimbsEmpty(e, s);
    } else {
      GainIsSumOfClimbs(e, s, t - 1);
      ClimbsStep(e, s, t);
    }
  }

  /** An empty range climbs nothing and sums nothing. */
  lemma ClimbsEmpty(e: seq<real>, s: nat)
    requires s < |e|
    ensures CumulativeElevationGain(e, s, s) == Sum(Climbs(e)[s..s]) == 0.0
  {
    assert Climbs(e)[s..s] == [];
  }

  /** Extending the range by one step adds that step's climb to both the
      gain and the sum, so their agreement carries over. */
  lemma ClimbsStep(e: seq<real>, s: nat, t: nat)
    requires s < t < |e|
    requires CumulativeElevationGain(e, s, t - 1) == Sum(Climbs(e)[s..t - 1])
    ensures CumulativeElevationGain(e, s, t) == Sum(Climbs(e)[s..t])
  {
    var all := Climbs(e);
    var c := all[s..t];
    assert c[..|c| - 1] == all[s..t - 1];
    assert c[|c| - 1] == all[t - 1];
  }

  /** For a fixed start, the gain never decreases as the end moves on. */
  lemma {:induction false} GainGrowsWithEnd(e: seq<real>, s: nat, t: nat, u: nat)
    requires t <= u < |e|
    ensures CumulativeElevationGain(e, s, t) <= CumulativeElevationGain(e, s, u)
    decreases u
  {
    if t < u {
      GainGrowsWithEnd(e, s, t, u - 1);
    }
  }

  /** The climb over (s, u] is the climb over (s, t] plus the climb over (t, u]. */
  lemma {:induction false} GainIsAdditive(e: seq<real>, s: nat, t: nat, u: nat)
    requires s <= t <= u < |e|
    ensures CumulativeElevationGain(e, s, u) == CumulativeElevationGain(e, s, t) + CumulativeElevationGain(e, t, u)
    decreases u
  {
    if t < u {
      GainIsAdditive(e, s, t, u - 1);
    }
  }

  /** A range inside another climbs no more than it does. */
  lemma GainGrowsWithRange(e: seq<real>, s: nat, a: nat, b: nat, t: nat)
    requires s <= a <= b <= t < |e|
    ensures CumulativeElevationGain(e, a, b) <= CumulativeElevationGain(e, s, t)
  {
    GainIsAdditive(e, s, a, t);
    GainIsAdditive(e, a, b, t);
  }

  /** Every step of e over (s, t] goes up or stays level. */
  ghost predicate ClimbsOnly(e: seq<real>, s: nat, t: nat)
    requires t < |e|
  {
    forall k :: s < k <= t ==> e[k - 1] <= e[k]
  }

  /** Cumulative gain equals the net change exactly when the range has no
      descent; any descent makes it strictly larger than the net change. */
  lemma {:induction false} GainIsNetIffNoDescent(e: seq<real>, s: nat, t: nat)
    requires s <= t < |e|
    ensures CumulativeElevationGain(e, s, t) == e[t] - e[s] <==> ClimbsOnly(e, s, t)
    ensures !ClimbsOnly(e, s, t) ==> CumulativeElevationGain(e, s, t) > e[t] - e[s]
    decreases t
  {
    if s < t {
      GainIsNetIffNoDescent(e, s, t - 1);
      var d := e[t] - e[t - 1];
      assert Climb(d) >= d;
      assert ClimbsOnly(e, s, t) <==> ClimbsOnly(e, s, t - 1) && d >= 0.0;
    }
  }

  /** Half the smoothing window, rounded down. */
  function HalfWindow(windowSize: nat): nat {
    windowSize / 2
  }

  /** First index of the window around i: max(0, i - h). */
  function WindowStart(i: nat, h: nat): nat {
    if i < h then 0 else i - h
  }

  /** Last index of the window around i: min(n - 1, i + h). */
  function WindowEnd(n: nat, i: nat, h: nat): nat
    requires i < n
  {
    if n - 1 < i + h then n - 1 else i + h
  }

  /** Edge-truncated centred moving average. An input shorter than the
      window is returned as it is; otherwise element i is the mean of the
      inputs from max(0, i - h) to min(n - 1, i + h), h = windowSize / 2. */
  function SmoothElevationData(e: seq<real>, windowSize: nat): (r: seq<real>)
    ensures |r| == |e|
    ensures |e| < windowSize ==> r == e
  {
    if |e| < windowSize then e
    else
      var h := HalfWindow(windowSize);
      seq(|e|, i requires 0 <= i < |e| => Mean(e[WindowStart(i, h)..WindowEnd(|e|, i, h) + 1]))
  }

  /** Element i of a smoothed stream is the mean of an edge-truncated window
      that contains sample i and has at most windowSize + 1 samples; away
      from the edges it is the full centred window of 2h + 1 samples. */
  lemma SmoothedSample(e: seq<real>, windowSize: nat, i: nat)
    requires windowSize <= |e| && i < |e|
    ensures var h := windowSize / 2;
            var lo := if i < h then 0 else i - h;
            var hi := if |e| - 1 < i + h then |e| - 1 else i + h;
            && lo <= i <= hi < |e|
            && hi - lo <= 2 * h
            && SmoothElevationData(e, windowSize)[i] == Mean(e[lo..hi + 1])
            && (h <= i < |e| - h ==> lo == i - h && hi == i + h)
  {
    var h := HalfWindow(windowSize);
    var lo := WindowStart(i, h);
    var hi := WindowEnd(|e|, i, h);
    assert lo <= i <= hi < |e|;
    assert !(|e| < windowSize);
  }

  /** With a window of 3 (the one the searches use) every inner sample is
      the mean of itself and its two neighbours, and each end sample the
      mean of itself and its one neighbour. */
  lemma SmoothByThree(e: seq<real>)
    requires |e| >= 3
    ensures var r := SmoothElevationData(e, 3);
            var n := |e|;
            && r[0] == (e[0] + e[1]) / 2.0
            && r[n - 1] == (e[n - 2] + e[n - 1]) / 2.0
            && forall i :: 0 < i < n - 1 ==> r[i] == (e[i - 1] + e[i] + e[i + 1]) / 3.0
  {
    SmoothedEnds(e);
    forall i | 0 < i < |e| - 1 ensures SmoothElevationData(e, 3)[i] == (e[i - 1] + e[i] + e[i + 1]) / 3.0 {
      SmoothedInner(e, i);
    }
  }

  /** The two end samples of a stream smoothed with a window of 3. */
  lemma SmoothedEnds(e: seq<real>)
    requires |e| >= 3
    ensures SmoothElevationData(e, 3)[0] == (e[0] + e[1]) / 2.0
    ensures SmoothElevationData(e, 3)[|e| - 1] == (e[|e| - 2] + e[|e| - 1]) / 2.0
  {
    var n := |e|;
    var r := SmoothElevationData(e, 3);
    assert r[0] == Mean(e[0..2]);
    assert e[0..2] == [e[0], e[1]];
    SumOfTwo(e[0], e[1]);
    assert r[n - 1] == Mean(e[n - 2..n]);
    assert e[n - 2..n] == [e[n - 2], e[n - 1]];
    SumOfTwo(e[n - 2], e[n - 1]);
  }

  /** An inner sample of a stream smoothed with a window of 3. */
  lemma SmoothedInner(e: seq<real>, i: nat)
    requires |e| >= 3 && 0 < i < |e| - 1
    ensures SmoothElevationData(e, 3)[i] == (e[i - 1] + e[i] + e[i + 1]) / 3.0
  {
    var r := SmoothElevationData(e, 3);
    var win := e[i - 1..i + 2];
    assert WindowStart(i, 1) == i - 1 && WindowEnd(|e|, i, 1) == i + 1;
    assert r[i] == Mean(win);
    assert win == [e[i - 1], e[i], e[i + 1]];
    SumOfThree(e[i - 1], e[i], e[i + 1]);
    assert Mean(win) == Sum(win) / 3.0;
  }

  /** Smoothing never leaves the range of its input: if every sample lies in
      [lo, hi], so does every smoothed sample. */
  lemma SmoothStaysInRange(e: seq<real>, windowSize: nat, lo: real, hi: real)
    requires forall k :: 0 <= k < |e| ==> lo <= e[k] <= hi
    ensures forall i :: 0 <= i < |e| ==> lo <= SmoothElevationData(e, windowSize)[i] <= hi
  {
    var r := SmoothElevationData(e, windowSize);
    if |e| >= windowSize {
      var h := HalfWindow(windowSize);
      forall i | 0 <= i < |e| ensures lo <= r[i] <= hi {
        var win := e[WindowStart(i, h)..WindowEnd(|e|, i, h) + 1];
        assert forall k :: 0 <= k < |win| ==> win[k] == e[WindowStart(i, h) + k];
        MeanBounds(win, lo, hi);
      }
    }
  }
}
