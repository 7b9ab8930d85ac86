/** Worked end-to-end cases of the window searches. They show where the two
    engines part: the current engine smooths before it measures, so the
    climb it sees is not the climb of the raw samples. */
module Scenarios {
  import opened Common
  import opened Elevation
  import opened WindowScan
  import ContentSearch
  import BackgroundSearch

  /** Sample k is taken at step * k seconds. */
  predicate UniformSampling(time: seq<real>, step: real) {
    forall k :: 0 <= k < |time| ==> time[k] == step * (k as real)
  }

  const SteadyClimb: seq<real> := [100.0, 110.0, 120.0, 130.0, 140.0, 150.0]

  /** Only the five-step window of six samples taken every 60 s lasts
      300 s within a 10 % band. */
  lemma OnlyFullWindowLasts300(time: seq<real>, a: nat, b: nat)
    requires |time| == 6 && UniformSampling(time, 60.0)
    requires a < b < 6
    ensures InBand(time[b] - time[a], 300.0, DefaultTolerance) <==> a == 0 && b == 5
    ensures a == 0 && b < 5 ==> !Beyond(time[b] - time[a], 300.0, DefaultTolerance)
  {
    assert time[b] - time[a] == 60.0 * ((b - a) as real);
  }

  /** The smoothed steady climb, 105, 110, 120, 130, 140, 145, climbs
      40 m from its first sample to its last. */
  lemma SmoothedSteadyClimb()
    ensures var g := ContentSearch.Smoothed(SteadyClimb);
            && g == [105.0, 110.0, 120.0, 130.0, 140.0, 145.0]
            && CumulativeElevationGain(g, 0, 5) == 40.0
  {
    var g := ContentSearch.Smoothed(SteadyClimb);
    SmoothByThree(SteadyClimb);
    assert g[0] == 105.0 && g[1] == 110.0 && g[2] == 120.0 && g[3] == 130.0 && g[4] == 140.0 && g[5] == 145.0;
    assert g == [105.0, 110.0, 120.0, 130.0, 140.0, 145.0];
  }

  /** A steady climb of 50 m in 300 s, searched for its best 300 s by the
      current engine: smoothing flattens both ends (105 and 145 m), so the
      window (0, 5) climbs 40 m and its VAM is 480 m/h, not the 600 m/h of
      the raw samples. */
  lemma SteadyClimbCurrentEngine(time: seq<real>)
    requires |time| == 6 && UniformSampling(time, 60.0)
    ensures ContentSearch.FindBestVamByTime(SteadyClimb, time, 300.0, DefaultTolerance)
            == Effort(480, 40, 300.0, None, Some(Span(0, 5)))
  {
    SteadyClimbCurrentScan(time);
    SteadyClimbCurrentRecord(time);
    var w := ContentSearch.TimeWindows(SteadyClimb, time, 300.0, DefaultTolerance);
    assert w(0, 5) == ContentSearch.TimeWindow(ContentSearch.Smoothed(SteadyClimb), time, 300.0, DefaultTolerance, 0, 5);
  }

  /** The record of window (0, 5) of the smoothed steady climb. */
  lemma SteadyClimbCurrentRecord(time: seq<real>)
    requires |time| == 6 && UniformSampling(time, 60.0)
    ensures ContentSearch.TimeWindow(ContentSearch.Smoothed(SteadyClimb), time, 300.0, DefaultTolerance, 0, 5).record
            == Effort(480, 40, 300.0, None, Some(Span(0, 5)))
  {
    SmoothedSteadyClimb();
    assert time[5] - time[0] == 300.0;
    assert CalculateVam(40.0, 300.0) == 480.0;
    assert Round(480.0) == 480 && Round(40.0) == 40 && Round(300.0) == 300;
  }

  /** The current engine's by-time search over the steady climb answers
      with window (0, 5). */
  lemma SteadyClimbCurrentScan(time: seq<real>)
    requires |time| == 6 && UniformSampling(time, 60.0)
    ensures Scan(6, ContentSearch.TimeWindows(SteadyClimb, time, 300.0, DefaultTolerance)) == Some(Span(0, 5))
  {
    var w := ContentSearch.TimeWindows(SteadyClimb, time, 300.0, DefaultTolerance);
    var g := ContentSearch.Smoothed(SteadyClimb);
    SmoothedSteadyClimb();
    forall a: nat, b: nat | a < b < 6 && w(a, b).qualifies ensures a == 0 && b == 5 {
      assert w(a, b) == ContentSearch.TimeWindow(g, time, 300.0, DefaultTolerance, a, b);
      OnlyFullWindowLasts300(time, a, b);
    }
    forall k: nat | 0 < k < 5 ensures !w(0, k).stop {
      assert w(0, k) == ContentSearch.TimeWindow(g, time, 300.0, DefaultTolerance, 0, k);
      OnlyFullWindowLasts300(time, 0, k);
    }
    OnlyFullWindowLasts300(time, 0, 5);
    assert w(0, 5) == ContentSearch.TimeWindow(g, time, 300.0, DefaultTolerance, 0, 5);
    assert CalculateVam(40.0, 300.0) == 480.0;
    SoleCandidateIsBest(6, w, 0, 5);
  }

  /** The older engine's by-time search over the steady climb answers
      with window (0, 5). */
  lemma SteadyClimbOlderScan(time: seq<real>)
    requires |time| == 6 && UniformSampling(time, 60.0)
    ensures var w := BackgroundSearch.TimeWindows(SteadyClimb, time, 300.0, DefaultTolerance);
            Scan(6, w) == Some(Span(0, 5))
  {
    var w := BackgroundSearch.TimeWindows(SteadyClimb, time, 300.0, DefaultTolerance);
    forall a: nat, b: nat | a < b < 6 && w(a, b).qualifies ensures a == 0 && b == 5 {
      OnlyFullWindowLasts300(time, a, b);
    }
    forall k: nat | 0 < k < 5 ensures !w(0, k).stop {
      OnlyFullWindowLasts300(time, 0, k);
    }
    OnlyFullWindowLasts300(time, 0, 5);
    assert CalculateVam(50.0, 300.0) == 600.0;
    SoleCandidateIsBest(6, w, 0, 5);
  }

  /** The older engine on the same climb measures the raw net change of
      50 m over window (0, 5): 600 m/h. */
  lemma SteadyClimbOlderEngine(time: seq<real>)
    requires |time| == 6 && UniformSampling(time, 60.0)
    ensures BackgroundSearch.FindBestVamByTime(SteadyClimb, time, 300.0, DefaultTolerance)
            == Effort(600, 50, 300.0, None, None)
  {
    SteadyClimbOlderScan(time);
    SteadyClimbOlderRecord(time);
    var w := BackgroundSearch.TimeWindows(SteadyClimb, time, 300.0, DefaultTolerance);
    assert w(0, 5) == BackgroundSearch.TimeWindow(SteadyClimb, time, 300.0, DefaultTolerance, 0, 5);
    assert BackgroundSearch.Outcome(6, w, BackgroundSearch.NullTimeEffort(300.0)) == w(0, 5).record;
  }

  /** The record of window (0, 5) of the raw steady climb. */
  lemma SteadyClimbOlderRecord(time: seq<real>)
    requires |time| == 6 && UniformSampling(time, 60.0)
    ensures BackgroundSearch.TimeWindow(SteadyClimb, time, 300.0, DefaultTolerance, 0, 5).record
            == Effort(600, 50, 300.0, None, None)
  {
    assert time[5] - time[0] == 300.0 && SteadyClimb[5] - SteadyClimb[0] == 50.0;
    assert CalculateVam(50.0, 300.0) == 600.0;
    assert Round(600.0) == 600 && Round(50.0) == 50 && Round(300.0) == 300;
  }

  const Switchback: seq<real> := [100.0, 120.0, 115.0, 130.0, 125.0, 140.0]

  /** Smoothed, the switchback rises steadily from 110 m to 132.5 m: 22.5 m in all. */
  lemma SmoothedSwitchback()
    ensures var g := ContentSearch.Smoothed(Switchback);
            && g == [110.0, 335.0 / 3.0, 365.0 / 3.0, 370.0 / 3.0, 395.0 / 3.0, 132.5]
            && CumulativeElevationGain(g, 0, 5) == 22.5
  {
    var g := ContentSearch.Smoothed(Switchback);
    SmoothByThree(Switchback);
    assert g[0] == 110.0 && g[1] == 335.0 / 3.0 && g[2] == 365.0 / 3.0;
    assert g[3] == 370.0 / 3.0 && g[4] == 395.0 / 3.0 && g[5] == 132.5;
    assert g == [110.0, 335.0 / 3.0, 365.0 / 3.0, 370.0 / 3.0, 395.0 / 3.0, 132.5];
    assert ClimbsOnly(g, 0, 5);
    GainIsNetIffNoDescent(g, 0, 5);
  }

  /** Searching the switchback for a 40 m ascent, the current engine finds
      nothing: no smoothed window climbs even the 36 m floor, whatever the
      timing of the samples. */
  lemma SwitchbackCurrentEngine(time: seq<real>)
    requires |time| == 6
    ensures ContentSearch.FindBestVamByAscent(Switchback, time, 40.0, DefaultTolerance) == ContentSearch.NullAscentEffort
  {
    var g := ContentSearch.Smoothed(Switchback);
    var w := ContentSearch.AscentWindows(Switchback, time, 40.0, DefaultTolerance);
    SmoothedSwitchback();
    forall a: nat, b: nat | a < b < 6 ensures !w(a, b).qualifies {
      assert w(a, b) == ContentSearch.AscentWindow(g, time, 40.0, DefaultTolerance, a, b);
      GainGrowsWithRange(g, 0, a, b, 5);
      assert CumulativeElevationGain(g, a, b) < 40.0 * ContentSearch.AscentGuardFraction;
    }
    assert NoneFound(6, w);
  }

  /** The older engine measures the switchback's raw net change, 40 m over
      window (0, 5), and with samples every 60 s reports 480 m/h. */
  lemma SwitchbackOlderScan(time: seq<real>)
    requires |time| == 6 && UniformSampling(time, 60.0)
    ensures Scan(6, BackgroundSearch.AscentWindows(Switchback, time, 40.0, DefaultTolerance)) == Some(Span(0, 5))
  {
    var w := BackgroundSearch.AscentWindows(Switchback, time, 40.0, DefaultTolerance);
    forall a: nat, b: nat | a < b < 6 && w(a, b).qualifies ensures a == 0 && b == 5 {
      assert Abs(Switchback[b] - Switchback[a] - 40.0) <= 4.0;
    }
    forall k: nat | 0 < k < 5 ensures !w(0, k).stop {
      assert Switchback[k] - Switchback[0] <= 30.0;
    }
    assert time[5] - time[0] == 300.0;
    assert CalculateVam(40.0, 300.0) == 480.0;
    SoleCandidateIsBest(6, w, 0, 5);
  }

  lemma SwitchbackOlderEngine(time: seq<real>)
    requires |time| == 6 && UniformSampling(time, 60.0)
    ensures BackgroundSearch.FindBestVamByAscent(Switchback, time, 40.0, DefaultTolerance)
            == Effort(480, 40, 300.0, None, None)
  {
    SwitchbackOlderScan(time);
    SwitchbackOlderRecord(time);
    var w := BackgroundSearch.AscentWindows(Switchback, time, 40.0, DefaultTolerance);
    assert w(0, 5) == BackgroundSearch.AscentWindow(Switchback, time, 40.0, DefaultTolerance, 0, 5);
    assert BackgroundSearch.Outcome(6, w, BackgroundSearch.NullAscentEffort) == w(0, 5).record;
  }

  /** The record of window (0, 5) of the raw switchback. */
  lemma SwitchbackOlderRecord(time: seq<real>)
    requires |time| == 6 && UniformSampling(time, 60.0)
    ensures BackgroundSearch.AscentWindow(Switchback, time, 40.0, DefaultTolerance, 0, 5).record
            == Effort(480, 40, 300.0, None, None)
  {
    assert time[5] - time[0] == 300.0 && Switchback[5] - Switchback[0] == 40.0;
    assert CalculateVam(40.0, 300.0) == 480.0;
    assert Round(480.0) == 480 && Round(40.0) == 40 && Round(300.0) == 300;
  }

  const Flat: seq<real> := [100.0, 100.0, 100.0, 100.0]

  /** A flat stream searched for a 100 m ascent gives the null record. */
  lemma FlatFindsNoAscent(time: seq<real>)
    requires |time| == 4
    ensures ContentSearch.FindBestVamByAscent(Flat, time, 100.0, DefaultTolerance) == ContentSearch.NullAscentEffort
  {
    var g := ContentSearch.Smoothed(Flat);
    var w := ContentSearch.AscentWindows(Flat, time, 100.0, DefaultTolerance);
    SmoothStaysInRange(Flat, 3, 100.0, 100.0);
    assert ClimbsOnly(g, 0, 3);
    GainIsNetIffNoDescent(g, 0, 3);
    forall a: nat, b: nat | a < b < 4 ensures !w(a, b).qualifies {
      assert w(a, b) == ContentSearch.AscentWindow(g, time, 100.0, DefaultTolerance, a, b);
      GainGrowsWithRange(g, 0, a, b, 3);
      assert CumulativeElevationGain(g, a, b) < 100.0 * ContentSearch.AscentGuardFraction;
    }
    assert NoneFound(4, w);
  }

  /** Without a distance stream both engines return their null distance
      record at once; only the current one carries the target. */
  lemma NoDistanceStream(elevation: seq<real>, time: seq<real>, target: real)
    requires |time| == |elevation|
    ensures ContentSearch.FindBestVamByDistance(elevation, time, None, target, DefaultTolerance)
            == Effort(0, 0, 0.0, Some(target), None)
    ensures BackgroundSearch.FindBestVamByDistance(elevation, time, None, target, DefaultTolerance)
            == Effort(0, 0, 0.0, None, None)
  {
  }
}
