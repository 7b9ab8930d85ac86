/** The three best-effort searches of the current engine (dist/content.js).
    Each smooths the elevation stream with a window of 3, measures every
    window's climb as cumulative gain on the smoothed stream, and keeps the
    start and end index of the best window in its record. */
module ContentSearch {
  import opened Common
  import opened Elevation
  import opened WindowScan

  /** The smoothing window every search uses. */
  const SmoothingWindow: nat := 3

  /** Minimum climb a by-time or by-distance window needs, in metres. */
  const MinElevationGain: real := 5.0

  /** Fraction of the target a by-ascent window must climb (0.9). */
  const AscentGuardFraction: real := 9.0 / 10.0

  function Smoothed(elevation: seq<real>): (g: seq<real>)
    ensures |g| == |elevation|
  {
    SmoothElevationData(elevation, SmoothingWindow)
  }

  // ---------------------------------------------------------------- by time

  /** Window (a, b) of the by-time search over smoothed elevation g: the
      band is on the elapsed time, the guard is 5 m of cumulative gain, and
      the break fires once the elapsed time passes the band. */
  function TimeWindow(g: seq<real>, time: seq<real>, targetSeconds: real, tolerance: real, a: nat, b: nat): Window {
    if a < b < |g| && b < |time| then
      var timeDiff := time[b] - time[a];
      var elevGain := CumulativeElevationGain(g, a, b);
      var vam := CalculateVam(elevGain, timeDiff);
      Window(
        InBand(timeDiff, targetSeconds, tolerance) && elevGain >= MinElevationGain,
        vam,
        Beyond(timeDiff, targetSeconds, tolerance),
        Effort(Round(vam), Round(elevGain), Round(timeDiff) as real, None, Some(Span(a, b))))
    else
      Window(false, 0.0, true, NullTimeEffort(targetSeconds))
  }

  function TimeWindows(elevation: seq<real>, time: seq<real>, targetSeconds: real, tolerance: real): Windows {
    var g := Smoothed(elevation);
    (a: nat, b: nat) => TimeWindow(g, time, targetSeconds, tolerance, a, b)
  }

  /** The by-time null result carries the target as its duration. */
  function NullTimeEffort(targetSeconds: real): Effort {
    Effort(0, 0, targetSeconds, None, None)
  }

  /** r is the record of window s of the by-time search: s lies in the time
      band, climbs at least 5 m, and r holds its rounded VAM, gain and
      duration and its indices. */
  ghost predicate TimeRecordOf(elevation: seq<real>, time: seq<real>, targetSeconds: real, tolerance: real,
                               s: Span, r: Effort)
    requires s.startIdx < s.endIdx < |elevation| && |time| == |elevation|
  {
    var g := Smoothed(elevation);
    var timeDiff := time[s.endIdx] - time[s.startIdx];
    var elevGain := CumulativeElevationGain(g, s.startIdx, s.endIdx);
    && Abs(timeDiff - targetSeconds) <= targetSeconds * tolerance
    && elevGain >= 5.0
    && r == Effort(Round(CalculateVam(elevGain, timeDiff)), Round(elevGain), Round(timeDiff) as real, None, Some(s))
  }

  /** An accepted by-time window carries its own span and the record above. */
  lemma TimeWindowRecord(elevation: seq<real>, time: seq<real>, targetSeconds: real, tolerance: real, s: Span)
    requires s.startIdx < s.endIdx < |elevation| && |time| == |elevation|
    requires TimeWindows(elevation, time, targetSeconds, tolerance)(s.startIdx, s.endIdx).qualifies
    ensures var r := TimeWindows(elevation, time, targetSeconds, tolerance)(s.startIdx, s.endIdx).record;
            r.span == Some(s) && TimeRecordOf(elevation, time, targetSeconds, tolerance, s, r)
  {
    assert TimeWindows(elevation, time, targetSeconds, tolerance)(s.startIdx, s.endIdx)
        == TimeWindow(Smoothed(elevation), time, targetSeconds, tolerance, s.startIdx, s.endIdx);
  }

  /** Best VAM over any window whose elapsed time is within the tolerance
      band of targetSeconds and whose smoothed cumulative gain is at least
      5 m. A found record holds the window's indices and its rounded VAM,
      gain and duration; when no window qualifies the null record is returned. */
  function FindBestVamByTime(elevation: seq<real>, time: seq<real>, targetSeconds: real, tolerance: real): (r: Effort)
    requires |time| == |elevation|
    ensures var w := TimeWindows(elevation, time, targetSeconds, tolerance);
            r.span.None? <==> NoneFound(|elevation|, w)
    ensures r.span.None? ==> r == NullTimeEffort(targetSeconds)
    ensures r.span.Some? ==>
              && r.span.value.startIdx < r.span.value.endIdx < |elevation|
              && IsBest(|elevation|, TimeWindows(elevation, time, targetSeconds, tolerance), r.span.value.startIdx, r.span.value.endIdx)
              && TimeRecordOf(elevation, time, targetSeconds, tolerance, r.span.value, r)
  {
    var w := TimeWindows(elevation, time, targetSeconds, tolerance);
    var found := Scan(|elevation|, w);
    if found.None? then NullTimeEffort(targetSeconds)
    else
      TimeWindowRecord(elevation, time, targetSeconds, tolerance, found.value);
      w(found.value.startIdx, found.value.endIdx).record
  }

  /** With a non-decreasing time stream the by-time break never skips a
      qualifying window, so the answer is the best over ALL qualifying
      windows and equals the answer of the search without the break. */
  lemma TimeBreakIsSafe(elevation: seq<real>, time: seq<real>, targetSeconds: real, tolerance: real)
    requires |time| == |elevation|
    requires NonDecreasing(time)
    ensures var w := TimeWindows(elevation, time, targetSeconds, tolerance);
            && (forall a: nat, b: nat :: a < b < |elevation| && w(a, b).qualifies ==> Candidate(|elevation|, w, a, b))
            && Scan(|elevation|, w) == Scan(|elevation|, NoBreak(w))
  {
    var w := TimeWindows(elevation, time, targetSeconds, tolerance);
    var n := |elevation|;
    forall a: nat, k: nat, b: nat | a < k < b < n && w(a, k).stop
      ensures !w(a, b).qualifies
    {
      assert time[a] <= time[k] <= time[b];
      BeyondIsOutsideBand(time[b] - time[a], targetSeconds, tolerance);
    }
    BreakIsSafe(n, w);
    ScanIgnoresSafeBreak(n, w);
  }

  // -------------------------------------------------------------- by ascent

  /** Window (a, b) of the by-ascent search: the band is on the smoothed
      cumulative gain, the guard asks for 90 % of the target and a positive
      elapsed time, and the break fires once the gain passes the band. */
  function AscentWindow(g: seq<real>, time: seq<real>, targetAscent: real, tolerance: real, a: nat, b: nat): Window {
    if a < b < |g| && b < |time| then
      var elevGain := CumulativeElevationGain(g, a, b);
      var timeDiff := time[b] - time[a];
      var vam := CalculateVam(elevGain, timeDiff);
      Window(
        InBand(elevGain, targetAscent, tolerance) && timeDiff > 0.0 && elevGain >= targetAscent * AscentGuardFraction,
        vam,
        Beyond(elevGain, targetAscent, tolerance),
        Effort(Round(vam), Round(elevGain), Round(timeDiff) as real, None, Some(Span(a, b))))
    else
      Window(false, 0.0, true, NullAscentEffort)
  }

  function AscentWindows(elevation: seq<real>, time: seq<real>, targetAscent: real, tolerance: real): Windows {
    var g := Smoothed(elevation);
    (a: nat, b: nat) => AscentWindow(g, time, targetAscent, tolerance, a, b)
  }

  const NullAscentEffort: Effort := Effort(0, 0, 0.0, None, None)

  /** r is the record of window s of the by-ascent search: s climbs within
      the band and at least 90 % of the target in positive time, and r holds
      its rounded VAM, gain and duration and its indices. */
  ghost predicate AscentRecordOf(elevation: seq<real>, time: seq<real>, targetAscent: real, tolerance: real,
                                 s: Span, r: Effort)
    requires s.startIdx < s.endIdx < |elevation| && |time| == |elevation|
  {
    var g := Smoothed(elevation);
    var timeDiff := time[s.endIdx] - time[s.startIdx];
    var elevGain := CumulativeElevationGain(g, s.startIdx, s.endIdx);
    && Abs(elevGain - targetAscent) <= targetAscent * tolerance
    && elevGain >= targetAscent * 9.0 / 10.0
    && timeDiff > 0.0
    && r == Effort(Round(CalculateVam(elevGain, timeDiff)), Round(elevGain), Round(timeDiff) as real, None, Some(s))
  }

  /** An accepted by-ascent window carries its own span and the record above. */
  lemma AscentWindowRecord(elevation: seq<real>, time: seq<real>, targetAscent: real, tolerance: real, s: Span)
    requires s.startIdx < s.endIdx < |elevation| && |time| == |elevation|
    requires AscentWindows(elevation, time, targetAscent, tolerance)(s.startIdx, s.endIdx).qualifies
    ensures var r := AscentWindows(elevation, time, targetAscent, tolerance)(s.startIdx, s.endIdx).record;
            r.span == Some(s) && AscentRecordOf(elevation, time, targetAscent, tolerance, s, r)
  {
    assert AscentWindows(elevation, time, targetAscent, tolerance)(s.startIdx, s.endIdx)
        == AscentWindow(Smoothed(elevation), time, targetAscent, tolerance, s.startIdx, s.endIdx);
  }

  /** Best VAM over any window whose smoothed cumulative gain is within the
      band of targetAscent, at least 90 % of it, and takes positive time. */
  function FindBestVamByAscent(elevation: seq<real>, time: seq<real>, targetAscent: real, tolerance: real): (r: Effort)
    requires |time| == |elevation|
    ensures var w := AscentWindows(elevation, time, targetAscent, tolerance);
            r.span.None? <==> NoneFound(|elevation|, w)
    ensures r.span.None? ==> r == NullAscentEffort
    ensures r.span.Some? ==>
              && r.span.value.startIdx < r.span.value.endIdx < |elevation|
              && IsBest(|elevation|, AscentWindows(elevation, time, targetAscent, tolerance), r.span.value.startIdx, r.span.value.endIdx)
              && AscentRecordOf(elevation, time, targetAscent, tolerance, r.span.value, r)
  {
    var w := AscentWindows(elevation, time, targetAscent, tolerance);
    var found := Scan(|elevation|, w);
    if found.None? then NullAscentEffort
    else
      AscentWindowRecord(elevation, time, targetAscent, tolerance, found.value);
      w(found.value.startIdx, found.value.endIdx).record
  }

  /** Cumulative gain never falls as the end index grows, so the by-ascent
      break is safe on every input: no qualifying window is skipped and the
      answer equals the one without the break. */
  lemma AscentBreakIsSafe(elevation: seq<real>, time: seq<real>, targetAscent: real, tolerance: real)
    requires |time| == |elevation|
    ensures var w := AscentWindows(elevation, time, targetAscent, tolerance);
            && (forall a: nat, b: nat :: a < b < |elevation| && w(a, b).qualifies ==> Candidate(|elevation|, w, a, b))
            && Scan(|elevation|, w) == Scan(|elevation|, NoBreak(w))
  {
    var w := AscentWindows(elevation, time, targetAscent, tolerance);
    var g := Smoothed(elevation);
    var n := |elevation|;
    forall a: nat, k: nat, b: nat | a < k < b < n && w(a, k).stop
      ensures !w(a, b).qualifies
    {
      GainGrowsWithEnd(g, a, k, b);
      BeyondIsOutsideBand(CumulativeElevationGain(g, a, b), targetAscent, tolerance);
    }
    BreakIsSafe(n, w);
    ScanIgnoresSafeBreak(n, w);
  }

  // ------------------------------------------------------------ by distance

  /** Window (a, b) of the by-distance search over distance stream d: the
      band is on the distance covered, the guard is 5 m of cumulative gain
      and a positive elapsed time, and the record keeps the rounded distance. */
  function DistanceWindow(g: seq<real>, time: seq<real>, d: seq<real>, targetDistance: real, tolerance: real, a: nat, b: nat): Window {
    if a < b < |g| && b < |time| && b < |d| then
      var distDiff := d[b] - d[a];
      var elevGain := CumulativeElevationGain(g, a, b);
      var timeDiff := time[b] - time[a];
      var vam := CalculateVam(elevGain, timeDiff);
      Window(
        InBand(distDiff, targetDistance, tolerance) && elevGain >= MinElevationGain && timeDiff > 0.0,
        vam,
        Beyond(distDiff, targetDistance, tolerance),
        Effort(Round(vam), Round(elevGain), Round(timeDiff) as real, Some(Round(distDiff) as real), Some(Span(a, b))))
    else
      Window(false, 0.0, true, NullDistanceEffort(targetDistance))
  }

  function DistanceWindows(elevation: seq<real>, time: seq<real>, d: seq<real>, targetDistance: real, tolerance: real): Windows {
    var g := Smoothed(elevation);
    (a: nat, b: nat) => DistanceWindow(g, time, d, targetDistance, tolerance, a, b)
  }

  /** The by-distance null result carries the target as its distance. */
  function NullDistanceEffort(targetDistance: real): Effort {
    Effort(0, 0, 0.0, Some(targetDistance), None)
  }

  /** r is the record of window s of the by-distance search: s lies in the
      distance band, climbs at least 5 m in positive time, and r holds its
      rounded VAM, gain, duration and distance and its indices. */
  ghost predicate DistanceRecordOf(elevation: seq<real>, time: seq<real>, d: seq<real>,
                                   targetDistance: real, tolerance: real, s: Span, r: Effort)
    requires s.startIdx < s.endIdx < |elevation| && |time| == |elevation| && |d| == |elevation|
  {
    var g := Smoothed(elevation);
    var distDiff := d[s.endIdx] - d[s.startIdx];
    var timeDiff := time[s.endIdx] - time[s.startIdx];
    var elevGain := CumulativeElevationGain(g, s.startIdx, s.endIdx);
    && Abs(distDiff - targetDistance) <= targetDistance * tolerance
    && elevGain >= 5.0
    && timeDiff > 0.0
    && r == Effort(Round(CalculateVam(elevGain, timeDiff)), Round(elevGain), Round(timeDiff) as real,
                   Some(Round(distDiff) as real), Some(s))
  }

  /** An accepted by-distance window carries its own span and the record above. */
  lemma DistanceWindowRecord(elevation: seq<real>, time: seq<real>, d: seq<real>, targetDistance: real, tolerance: real, s: Span)
    requires s.startIdx < s.endIdx < |elevation| && |time| == |elevation| && |d| == |elevation|
    requires DistanceWindows(elevation, time, d, targetDistance, tolerance)(s.startIdx, s.endIdx).qualifies
    ensures var r := DistanceWindows(elevation, time, d, targetDistance, tolerance)(s.startIdx, s.endIdx).record;
            r.span == Some(s) && DistanceRecordOf(elevation, time, d, targetDistance, tolerance, s, r)
  {
    assert DistanceWindows(elevation, time, d, targetDistance, tolerance)(s.startIdx, s.endIdx)
        == DistanceWindow(Smoothed(elevation), time, d, targetDistance, tolerance, s.startIdx, s.endIdx);
  }

  /** The search proper, once a distance stream d is known to be present. */
  function BestByDistance(elevation: seq<real>, time: seq<real>, d: seq<real>, targetDistance: real, tolerance: real): (r: Effort)
    requires |time| == |elevation| && |d| == |elevation|
    ensures var w := DistanceWindows(elevation, time, d, targetDistance, tolerance);
            r.span.None? <==> NoneFound(|elevation|, w)
    ensures r.span.None? ==> r == NullDistanceEffort(targetDistance)
    ensures r.span.Some? ==>
              && r.span.value.startIdx < r.span.value.endIdx < |elevation|
              && IsBest(|elevation|, DistanceWindows(elevation, time, d, targetDistance, tolerance),
                        r.span.value.startIdx, r.span.value.endIdx)
              && DistanceRecordOf(elevation, time, d, targetDistance, tolerance, r.span.value, r)
  {
    var w := DistanceWindows(elevation, time, d, targetDistance, tolerance);
    var found := Scan(|elevation|, w);
    if found.None? then NullDistanceEffort(targetDistance)
    else
      DistanceWindowRecord(elevation, time, d, targetDistance, tolerance, found.value);
      w(found.value.startIdx, found.value.endIdx).record
  }

  /** Best VAM over any window whose distance is within the band of
      targetDistance, climbing at least 5 m in positive time. Without a
      distance stream the null record, carrying the target as its distance,
      is returned at once. */
  function FindBestVamByDistance(elevation: seq<real>, time: seq<real>, distance: Option<seq<real>>,
                                 targetDistance: real, tolerance: real): (r: Effort)
    requires |time| == |elevation|
    requires distance.Some? ==> |distance.value| == |elevation|
    ensures distance.None? ==> r == NullDistanceEffort(targetDistance)
    ensures distance.Some? ==>
              var w := DistanceWindows(elevation, time, distance.value, targetDistance, tolerance);
              r.span.None? <==> NoneFound(|elevation|, w)
    ensures r.span.None? ==> r == NullDistanceEffort(targetDistance)
    ensures r.span.Some? ==>
              && distance.Some?
              && r.span.value.startIdx < r.span.value.endIdx < |elevation|
              && IsBest(|elevation|, DistanceWindows(elevation, time, distance.value, targetDistance, tolerance),
                        r.span.value.startIdx, r.span.value.endIdx)
              && DistanceRecordOf(elevation, time, distance.value, targetDistance, tolerance, r.span.value, r)
  {
    match distance
    case None => NullDistanceEffort(targetDistance)
    case Some(d) => BestByDistance(elevation, time, d, targetDistance, tolerance)
  }

  /** With a non-decreasing distance stream the by-distance break never
      skips a qualifying window. */
  lemma DistanceBreakIsSafe(elevation: seq<real>, time: seq<real>, d: seq<real>, targetDistance: real, tolerance: real)
    requires |time| == |elevation| && |d| == |elevation|
    requires NonDecreasing(d)
    ensures var w := DistanceWindows(elevation, time, d, targetDistance, tolerance);
            && (forall a: nat, b: nat :: a < b < |elevation| && w(a, b).qualifies ==> Candidate(|elevation|, w, a, b))
            && Scan(|elevation|, w) == Scan(|elevation|, NoBreak(w))
  {
    var w := DistanceWindows(elevation, time, d, targetDistance, tolerance);
    var n := |elevation|;
    forall a: nat, k: nat, b: nat | a < k < b < n && w(a, k).stop
      ensures !w(a, b).qualifies
    {
      assert d[a] <= d[k] <= d[b];
      BeyondIsOutsideBand(d[b] - d[a], targetDistance, tolerance);
    }
    BreakIsSafe(n, w);
    ScanIgnoresSafeBreak(n, w);
  }
}
