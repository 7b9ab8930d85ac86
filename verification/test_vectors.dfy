/** The concrete cases of tests/unit/cumulative-elevation.test.js for
    cumulative gain, smoothing and the VAM formula. */
module TestVectors {
  import opened Common
  import opened Elevation
  import opened WindowScan
  import opened ContentSearch

  /** A steady climb of 10 m per sample: cumulative gain 50, the same as the net gain. */
  lemma SimpleClimb()
    ensures var e := [100.0, 110.0, 120.0, 130.0, 140.0, 150.0];
            CumulativeElevationGain(e, 0, 5) == 50.0 == e[5] - e[0]
  {
    var e := [100.0, 110.0, 120.0, 130.0, 140.0, 150.0];
    assert ClimbsOnly(e, 0, 5);
    GainIsNetIffNoDescent(e, 0, 5);
  }

  /** A small dip on the way up counts nothing: 50 m. */
  lemma ClimbWithSmallDescent()
    ensures CumulativeElevationGain([100.0, 110.0, 120.0, 130.0, 125.0, 135.0, 145.0], 0, 6) == 50.0
  {
  }

  /** Descents are ignored: 30 m climbed against a net change of 20 m. */
  lemma DescentsAreIgnored()
    ensures var e := [100.0, 110.0, 105.0, 115.0, 110.0, 120.0];
            && CumulativeElevationGain(e, 0, 5) == 30.0
            && e[5] - e[0] == 20.0
            && CumulativeElevationGain(e, 0, 5) > e[5] - e[0]
  {
  }

  /** A flat segment and a pure descent both climb nothing. */
  lemma FlatAndDescentClimbNothing()
    ensures CumulativeElevationGain([100.0, 100.0, 100.0, 100.0, 100.0], 0, 4) == 0.0
    ensures CumulativeElevationGain([150.0, 140.0, 130.0, 120.0, 110.0, 100.0], 0, 5) == 0.0
  {
  }

  /** Mixed terrain: 60 m climbed against a net change of 50 m. */
  lemma MixedTerrain()
    ensures var e := [100.0, 120.0, 115.0, 125.0, 130.0, 125.0, 140.0, 150.0];
            CumulativeElevationGain(e, 0, 7) == 60.0 && e[7] - e[0] == 50.0
  {
  }

  /** Only the steps inside the range count: (2, 5) of a steady climb is 30 m. */
  lemma Subsegment()
    ensures CumulativeElevationGain([100.0, 110.0, 120.0, 130.0, 140.0, 150.0, 160.0], 2, 5) == 30.0
  {
  }

  /** Smoothing a noisy stream of six samples with a window of 3 keeps its
      length; the first sample is the mean of two inputs, the third the mean
      of three. */
  lemma SmoothNoisyStream()
    ensures var e := [100.0, 105.0, 102.0, 107.0, 104.0, 110.0];
            var r := SmoothElevationData(e, 3);
            && |r| == |e|
            && r[0] == (100.0 + 105.0) / 2.0
            && r[2] == (105.0 + 102.0 + 107.0) / 3.0
  {
    SmoothByThree([100.0, 105.0, 102.0, 107.0, 104.0, 110.0]);
  }

  /** A stream shorter than the window is returned as it is. */
  lemma SmoothShortStream()
    ensures SmoothElevationData([100.0, 110.0], 3) == [100.0, 110.0]
  {
  }

  /** The absolute step changes of a stream. */
  function StepChanges(s: seq<real>): (c: seq<real>)
    ensures |c| == if |s| == 0 then 0 else |s| - 1
  {
    if |s| == 0 then [] else seq(|s| - 1, k requires 0 <= k < |s| - 1 => Abs(s[k + 1] - s[k]))
  }

  /** The noisy input of the noise-reduction case. */
  const ZigZag: seq<real> := [100.0, 110.0, 105.0, 115.0, 110.0, 120.0, 115.0, 125.0]

  /** The staircase the zig-zag smooths to. */
  const Staircase: seq<real> := [105.0, 105.0, 110.0, 110.0, 115.0, 115.0, 120.0, 120.0]

  /** Smoothing the zig-zag with a window of 3 gives the staircase
      105, 105, 110, 110, 115, 115, 120, 120. */
  lemma SmoothZigZag()
    ensures SmoothElevationData(ZigZag, 3) == Staircase
  {
    var r := SmoothElevationData(ZigZag, 3);
    SmoothedEnds(ZigZag);
    SmoothedInner(ZigZag, 1);
    SmoothedInner(ZigZag, 2);
    SmoothedInner(ZigZag, 3);
    SmoothedInner(ZigZag, 4);
    SmoothedInner(ZigZag, 5);
    SmoothedInner(ZigZag, 6);
    assert r[0] == 105.0 && r[1] == 105.0 && r[2] == 110.0 && r[3] == 110.0;
    assert r[4] == 115.0 && r[5] == 115.0 && r[6] == 120.0 && r[7] == 120.0;
  }

  /** Step k of StepChanges(s) is the absolute change from sample k to k + 1. */
  lemma StepChangeAt(s: seq<real>, k: nat)
    requires k + 1 < |s|
    ensures StepChanges(s)[k] == Abs(s[k + 1] - s[k])
  {
  }

  /** The seven step changes of the zig-zag. */
  lemma ZigZagSteps()
    ensures StepChanges(ZigZag) == [10.0, 5.0, 10.0] + [5.0, 10.0] + [5.0, 10.0]
  {
    var c := StepChanges(ZigZag);
    StepChangeAt(ZigZag, 0);
    StepChangeAt(ZigZag, 1);
    StepChangeAt(ZigZag, 2);
    StepChangeAt(ZigZag, 3);
    StepChangeAt(ZigZag, 4);
    StepChangeAt(ZigZag, 5);
    StepChangeAt(ZigZag, 6);
    assert c[0] == 10.0 && c[1] == 5.0 && c[2] == 10.0 && c[3] == 5.0;
    assert c[4] == 10.0 && c[5] == 5.0 && c[6] == 10.0;
  }

  /** The seven step changes of the staircase. */
  lemma StaircaseSteps()
    ensures StepChanges(Staircase) == [0.0, 5.0, 0.0] + [5.0, 0.0] + [5.0, 0.0]
  {
    var c := StepChanges(Staircase);
    StepChangeAt(Staircase, 0);
    StepChangeAt(Staircase, 1);
    StepChangeAt(Staircase, 2);
    StepChangeAt(Staircase, 3);
    StepChangeAt(Staircase, 4);
    StepChangeAt(Staircase, 5);
    StepChangeAt(Staircase, 6);
    assert c[0] == 0.0 && c[1] == 5.0 && c[2] == 0.0 && c[3] == 5.0;
    assert c[4] == 0.0 && c[5] == 5.0 && c[6] == 0.0;
  }

  /** A sum of seven values, taken in three pieces. */
  lemma SumOfSeven(a: seq<real>, b: seq<real>, c: seq<real>)
    requires |a| == 3 && |b| == 2 && |c| == 2
    ensures Sum(a + b + c) == a[0] + a[1] + a[2] + b[0] + b[1] + c[0] + c[1]
  {
    SumOfConcat(a + b, c);
    SumOfConcat(a, b);
    assert a == [a[0], a[1], a[2]] && b == [b[0], b[1]] && c == [c[0], c[1]];
    SumOfThree(a[0], a[1], a[2]);
    SumOfTwo(b[0], b[1]);
    SumOfTwo(c[0], c[1]);
  }

  /** The zig-zag's smoothed stream moves 15 m over its seven steps against
      55 m for the input, so its mean step change is well within 1.1 times
      the input's. */
  lemma SmoothingReducesNoise()
    ensures Sum(StepChanges(SmoothElevationData(ZigZag, 3))) / 7.0 <= Sum(StepChanges(ZigZag)) / 7.0 * (11.0 / 10.0)
  {
    SmoothZigZag();
    ZigZagSteps();
    StaircaseSteps();
    SumOfSeven([10.0, 5.0, 10.0], [5.0, 10.0], [5.0, 10.0]);
    SumOfSeven([0.0, 5.0, 0.0], [5.0, 0.0], [5.0, 0.0]);
  }

  /** On an upward zig-zag the smoothed stream still ends higher than it
      starts, and every smoothed sample lies within the input's range. */
  lemma SmoothingKeepsTrend()
    ensures var e := [100.0, 110.0, 105.0, 115.0, 110.0, 120.0, 115.0, 125.0, 120.0, 130.0];
            var r := SmoothElevationData(e, 3);
            && r[|r| - 1] > r[0]
            && forall i :: 0 <= i < |r| ==> 100.0 <= r[i] <= 130.0
  {
    var e := [100.0, 110.0, 105.0, 115.0, 110.0, 120.0, 115.0, 125.0, 120.0, 130.0];
    SmoothByThree(e);
    SmoothStaysInRange(e, 3, 100.0, 130.0);
  }

  /** 50 m climbed in 300 s is 600 m/h, more than the 480 m/h of the 40 m
      net change. */
  lemma CumulativeVamExceedsNetVam()
    ensures var e := [100.0, 120.0, 115.0, 130.0, 125.0, 140.0];
            && CumulativeElevationGain(e, 0, 5) == 50.0
            && e[5] - e[0] == 40.0
            && CalculateVam(50.0, 300.0) == 600.0
            && CalculateVam(40.0, 300.0) < CalculateVam(50.0, 300.0)
  {
  }

  /** On a pure climb cumulative and net gain agree, and so do their VAMs. */
  lemma PureClimbSameVam()
    ensures var e := [100.0, 110.0, 120.0, 130.0, 140.0, 150.0];
            CalculateVam(CumulativeElevationGain(e, 0, 5), 300.0) == CalculateVam(e[5] - e[0], 300.0)
  {
    SimpleClimb();
  }

  /** Twenty minutes of switchbacks: +15 m, -5 m, repeated ten times. */
  const Switchbacks: seq<real> := [100.0, 115.0, 110.0, 125.0, 120.0, 135.0, 130.0, 145.0, 140.0, 155.0,
                                   150.0, 165.0, 160.0, 175.0, 170.0, 185.0, 180.0, 195.0, 190.0, 205.0, 200.0]

  /** Each step goes up 15 m from an even sample and down 5 m from an odd one. */
  ghost predicate Switchbacking(e: seq<real>) {
    forall k :: 0 <= k < |e| - 1 ==> e[k + 1] - e[k] == if k % 2 == 0 then 15.0 else -5.0
  }

  lemma SwitchbacksAlternate()
    ensures Switchbacking(Switchbacks)
  {
    var e := Switchbacks;
    forall k | 0 <= k < 10 ensures e[k + 1] - e[k] == if k % 2 == 0 then 15.0 else -5.0 {
      assert e[..10] == [100.0, 115.0, 110.0, 125.0, 120.0, 135.0, 130.0, 145.0, 140.0, 155.0];
      assert e[k] == e[..10][k];
    }
    forall k | 10 <= k < 20 ensures e[k + 1] - e[k] == if k % 2 == 0 then 15.0 else -5.0 {
      assert e[10..] == [150.0, 165.0, 160.0, 175.0, 170.0, 185.0, 180.0, 195.0, 190.0, 205.0, 200.0];
      assert e[k] == e[10..][k - 10] && e[k + 1] == e[10..][k - 9];
    }
  }

  /** Every pair of steps of a switchbacking stream climbs 15 m, so the
      first 2j steps climb 15 j metres. */
  lemma {:induction false} SwitchbackGain(e: seq<real>, j: nat)
    requires Switchbacking(e) && 2 * j < |e|
    ensures CumulativeElevationGain(e, 0, 2 * j) == 15.0 * (j as real)
  {
    if j > 0 {
      SwitchbackGain(e, j - 1);
      var t := 2 * j;
      GainIsAdditive(e, 0, t - 2, t);
      assert e[t - 1] - e[t - 2] == 15.0;
      assert e[t] - e[t - 1] == -5.0;
      assert CumulativeElevationGain(e, t - 2, t - 1) == 15.0;
    }
  }

  /** Each half of the switchbacks climbs 75 m. */
  lemma SwitchbacksHalves()
    ensures CumulativeElevationGain(Switchbacks, 0, 10) == 75.0
    ensures CumulativeElevationGain(Switchbacks, 10, 20) == 75.0
  {
    SwitchbacksAlternate();
    SwitchbackGain(Switchbacks, 5);
    SwitchbackGain(Switchbacks, 10);
    GainIsAdditive(Switchbacks, 0, 10, 20);
  }

  /** The switchbacks climb 150 m against 100 m net, so 450 m/h against
      300 m/h over 1200 s, a ratio of 1.5. */
  lemma RealisticClimb()
    ensures CumulativeElevationGain(Switchbacks, 0, 20) == 150.0
    ensures Switchbacks[20] - Switchbacks[0] == 100.0
    ensures CalculateVam(150.0, 1200.0) == 450.0
    ensures CalculateVam(100.0, 1200.0) == 300.0
    ensures CalculateVam(150.0, 1200.0) / CalculateVam(100.0, 1200.0) == 3.0 / 2.0
  {
    SwitchbacksAlternate();
    SwitchbackGain(Switchbacks, 10);
    assert CalculateVam(150.0, 1200.0) == 150.0 / (1200.0 / 3600.0) == 450.0;
    assert CalculateVam(100.0, 1200.0) == 100.0 / (1200.0 / 3600.0) == 300.0;
  }
}
