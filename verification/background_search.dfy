/** The three best-effort searches of the older engine (src/background.js).
    They work on the raw elevation stream, measure a window's climb as the
    net change e[j] - e[i], accept any positive climb, and keep no indices
    in their records. */
module BackgroundSearch {
  import opened Common
  import opened Elevation
  import opened WindowScan

  /** The net change in elevation from sample a to sample b. */
  function NetGain(e: seq<real>, a: nat, b: nat): real
    requires a < |e| && b < |e|
  {
    e[b] - e[a]
  }

  /** r is the record of some answer of the search over windows w, or the
      null record when no window has a positive VAM. Older records carry no
      indices, so the answer is named by an existential. */
  ghost predicate Answers(n: nat, w: Windows, nullRecord: Effort, r: Effort) {
    && (NoneFound(n, w) ==> r == nullRecord)
    && (!NoneFound(n, w) ==> exists a: nat, b: nat :: IsBest(n, w, a, b) && r == w(a, b).record)
  }

  /** The record of the scan's answer, or the null record. */
  function Outcome(n: nat, w: Windows, nullRecord: Effort): (r: Effort)
    ensures Answers(n, w, nullRecord, r)
  {
    match Scan(n, w)
    case None => nullRecord
    case Some(s) => w(s.startIdx, s.endIdx).record
  }

  /** At most one record answers a search. */
  lemma AnswerIsUnique(n: nat, w: Windows, nullRecord: Effort, r1: Effort, r2: Effort)
    requires Answers(n, w, nullRecord, r1) && Answers(n, w, nullRecord, r2)
    ensures r1 == r2
  {
    if !NoneFound(n, w) {
      var a, b :| IsBest(n, w, a, b) && r1 == w(a, b).record;
      var c, d :| IsBest(n, w, c, d) && r2 == w(c, d).record;
      BestIsUnique(n, w, a, b, c, d);
    }
  }

  // ---------------------------------------------------------------- by time

  /** Window (a, b) of the older by-time search: the band is on the elapsed
      time and the net gain must be positive. */
  function TimeWindow(e: seq<real>, time: seq<real>, targetSeconds: real, tolerance: real, a: nat, b: nat): Window {
    if a < b < |e| && b < |time| then
      var timeDiff := time[b] - time[a];
      var elevGain := NetGain(e, a, b);
      var vam := CalculateVam(elevGain, timeDiff);
      Window(
        InBand(timeDiff, targetSeconds, tolerance) && elevGain > 0.0,
        vam,
        Beyond(timeDiff, targetSeconds, tolerance),
        Effort(Round(vam), Round(elevGain), Round(timeDiff) as real, None, None))
    else
      Window(false, 0.0, true, NullTimeEffort(targetSeconds))
  }

  function TimeWindows(e: seq<real>, time: seq<real>, targetSeconds: real, tolerance: real): Windows {
    (a: nat, b: nat) => TimeWindow(e, time, targetSeconds, tolerance, a, b)
  }

  function NullTimeEffort(targetSeconds: real): Effort {
    Effort(0, 0, targetSeconds, None, None)
  }

  /** r is the record of window (a, b) of the older by-time search: the
      elapsed time is in the band, the net gain is positive, and r holds the
      rounded VAM, net gain and duration. */
  ghost predicate TimeRecordOf(elevation: seq<real>, time: seq<real>, targetSeconds: real, tolerance: real,
                               a: nat, b: nat, r: Effort)
    requires a < b < |elevation| && |time| == |elevation|
  {
    && Abs(time[b] - time[a] - targetSeconds) <= targetSeconds * tolerance
    && elevation[b] - elevation[a] > 0.0
    && r == Effort(Round(CalculateVam(elevation[b] - elevation[a], time[b] - time[a])),
                   Round(elevation[b] - elevation[a]), Round(time[b] - time[a]) as real, None, None)
  }

  /** Best VAM over any window of the raw stream whose elapsed time is in the
      band of targetSeconds and whose net gain is positive; the record holds
      the rounded VAM, net gain and duration and no indices. */
  function FindBestVamByTime(elevation: seq<real>, time: seq<real>, targetSeconds: real, tolerance: real): (r: Effort)
    requires |time| == |elevation|
    ensures r.span.None? && r.distance.None?
    ensures NoneFound(|elevation|, TimeWindows(elevation, time, targetSeconds, tolerance)) ==>
              r == NullTimeEffort(targetSeconds)
    ensures !NoneFound(|elevation|, TimeWindows(elevation, time, targetSeconds, tolerance)) ==>
              exists a: nat, b: nat ::
                && IsBest(|elevation|, TimeWindows(elevation, time, targetSeconds, tolerance), a, b)
                && a < b < |elevation|
                && TimeRecordOf(elevation, time, targetSeconds, tolerance, a, b, r)
  {
    TimeOutcome(elevation, time, targetSeconds, tolerance);
    Outcome(|elevation|, TimeWindows(elevation, time, targetSeconds, tolerance), NullTimeEffort(targetSeconds))
  }

  /** The by-time outcome is the null record or the record of a best window. */
  lemma TimeOutcome(elevation: seq<real>, time: seq<real>, targetSeconds: real, tolerance: real)
    requires |time| == |elevation|
    ensures var w := TimeWindows(elevation, time, targetSeconds, tolerance);
            var r := Outcome(|elevation|, w, NullTimeEffort(targetSeconds));
            && r.span.None? && r.distance.None?
            && (NoneFound(|elevation|, w) ==> r == NullTimeEffort(targetSeconds))
            && (!NoneFound(|elevation|, w) ==>
                  exists a: nat, b: nat ::
                    && IsBest(|elevation|, w, a, b)
                    && a < b < |elevation|
                    && TimeRecordOf(elevation, time, targetSeconds, tolerance, a, b, r))
  {
    var w := TimeWindows(elevation, time, targetSeconds, tolerance);
    var r := Outcome(|elevation|, w, NullTimeEffort(targetSeconds));
    var found := Scan(|elevation|, w);
    if found.Some? {
      var a, b := found.value.startIdx, found.value.endIdx;
      assert IsBest(|elevation|, w, a, b) && a < b < |elevation|;
      assert r == w(a, b).record;
      assert w(a, b) == TimeWindow(elevation, time, targetSeconds, tolerance, a, b);
      assert TimeRecordOf(elevation, time, targetSeconds, tolerance, a, b, r);
    }
  }

  /** With a non-decreasing time stream the by-time break never skips a
      qualifying window. */
  lemma TimeBreakIsSafe(elevation: seq<real>, time: seq<real>, targetSeconds: real, tolerance: real)
    requires |time| == |elevation|
    requires NonDecreasing(time)
    ensures var w := TimeWindows(elevation, time, targetSeconds, tolerance);
            && (forall a: nat, b: nat :: a < b < |elevation| && w(a, b).qualifies ==> Candidate(|elevation|, w, a, b))
            && Scan(|elevation|, w) == Scan(|elevation|, NoBreak(w))
  {
    var w := TimeWindows(elevation, time, targetSeconds, tolerance);
    var n := |elevation|;
    forall a: nat, k: nat, b: nat | a < k < b < n && w(a, k).stop
      ensures !w(a, b).qualifies
    {
      assert time[a] <= time[k] <= time[b];
      BeyondIsOutsideBand(time[b] - time[a], targetSeconds, tolerance);
    }
    BreakIsSafe(n, w);
    ScanIgnoresSafeBreak(n, w);
  }

  // -------------------------------------------------------------- by ascent

  /** Window (a, b) of the older by-ascent search: the band AND the break
      are on the net gain, and the elapsed time must be positive. */
  function AscentWindow(e: seq<real>, time: seq<real>, targetAscent: real, tolerance: real, a: nat, b: nat): Window {
    if a < b < |e| && b < |time| then
      var elevGain := NetGain(e, a, b);
      var timeDiff := time[b] - time[a];
      var vam := CalculateVam(elevGain, timeDiff);
      Window(
        InBand(elevGain, targetAscent, tolerance) && timeDiff > 0.0,
        vam,
        Beyond(elevGain, targetAscent, tolerance),
        Effort(Round(vam), Round(elevGain), Round(timeDiff) as real, None, None))
    else
      Window(false, 0.0, true, NullAscentEffort)
  }

  function AscentWindows(e: seq<real>, time: seq<real>, targetAscent: real, tolerance: real): Windows {
    (a: nat, b: nat) => AscentWindow(e, time, targetAscent, tolerance, a, b)
  }

  const NullAscentEffort: Effort := Effort(0, 0, 0.0, None, None)

  /** r is the record of window (a, b) of the older by-ascent search: the
      net gain is in the band, the elapsed time is positive, and r holds the
      rounded VAM, net gain and duration. */
  ghost predicate AscentRecordOf(elevation: seq<real>, time: seq<real>, targetAscent: real, tolerance: real,
                                 a: nat, b: nat, r: Effort)
    requires a < b < |elevation| && |time| == |elevation|
  {
    && Abs(elevation[b] - elevation[a] - targetAscent) <= targetAscent * tolerance
    && time[b] - time[a] > 0.0
    && r == Effort(Round(CalculateVam(elevation[b] - elevation[a], time[b] - time[a])),
                   Round(elevation[b] - elevation[a]), Round(time[b] - time[a]) as real, None, None)
  }

  /** Best VAM over the scanned windows whose net gain is in the band of
      targetAscent and whose elapsed time is positive. For each start the
      scan stops at the first end whose net gain passes the band. */
  function FindBestVamByAscent(elevation: seq<real>, time: seq<real>, targetAscent: real, tolerance: real): (r: Effort)
    requires |time| == |elevation|
    ensures r.span.None? && r.distance.None?
    ensures NoneFound(|elevation|, AscentWindows(elevation, time, targetAscent, tolerance)) ==>
              r == NullAscentEffort
    ensures !NoneFound(|elevation|, AscentWindows(elevation, time, targetAscent, tolerance)) ==>
              exists a: nat, b: nat ::
                && IsBest(|elevation|, AscentWindows(elevation, time, targetAscent, tolerance), a, b)
                && a < b < |elevation|
                && AscentRecordOf(elevation, time, targetAscent, tolerance, a, b, r)
  {
    AscentOutcome(elevation, time, targetAscent, tolerance);
    Outcome(|elevation|, AscentWindows(elevation, time, targetAscent, tolerance), NullAscentEffort)
  }

  /** The by-ascent outcome is the null record or the record of a best window. */
  lemma AscentOutcome(elevation: seq<real>, time: seq<real>, targetAscent: real, tolerance: real)
    requires |time| == |elevation|
    ensures var w := AscentWindows(elevation, time, targetAscent, tolerance);
            var r := Outcome(|elevation|, w, NullAscentEffort);
            && r.span.None? && r.distance.None?
            && (NoneFound(|elevation|, w) ==> r == NullAscentEffort)
            && (!NoneFound(|elevation|, w) ==>
                  exists a: nat, b: nat ::
                    && IsBest(|elevation|, w, a, b)
                    && a < b < |elevation|
                    && AscentRecordOf(elevation, time, targetAscent, tolerance, a, b, r))
  {
    var w := AscentWindows(elevation, time, targetAscent, tolerance);
    var r := Outcome(|elevation|, w, NullAscentEffort);
    var found := Scan(|elevation|, w);
    if found.Some? {
      var a, b := found.value.startIdx, found.value.endIdx;
      assert IsBest(|elevation|, w, a, b) && a < b < |elevation|;
      assert r == w(a, b).record;
      assert w(a, b) == AscentWindow(elevation, time, targetAscent, tolerance, a, b);
      assert AscentRecordOf(elevation, time, targetAscent, tolerance, a, b, r);
    }
  }

  /** The older by-ascent break does prune: net gain can fall back into the
      band after passing it. On elevation [0, 20, 10] over times [0, 10, 20]
      with target 10 m, window (0, 2) climbs a net 10 m in 20 s (VAM 1800)
      and qualifies, but row 0 breaks at (0, 1) with 20 m, so the search
      returns the null record; without the break it would find (0, 2). */
  lemma AscentBreakPrunes()
    ensures var e, t := [0.0, 20.0, 10.0], [0.0, 10.0, 20.0];
            var w := AscentWindows(e, t, 10.0, DefaultTolerance);
            && w(0, 2).qualifies && w(0, 2).vam == 1800.0
            && !Candidate(3, w, 0, 2)
            && FindBestVamByAscent(e, t, 10.0, DefaultTolerance) == NullAscentEffort
            && Scan(3, NoBreak(w)) == Some(Span(0, 2))
  {
    var e, t := [0.0, 20.0, 10.0], [0.0, 10.0, 20.0];
    var w := AscentWindows(e, t, 10.0, DefaultTolerance);
    assert w(0, 1) == AscentWindow(e, t, 10.0, DefaultTolerance, 0, 1);
    assert w(0, 2) == AscentWindow(e, t, 10.0, DefaultTolerance, 0, 2);
    assert w(1, 2) == AscentWindow(e, t, 10.0, DefaultTolerance, 1, 2);
    assert w(0, 1).stop && !w(0, 1).qualifies;
    assert w(0, 2).qualifies && w(0, 2).vam == 1800.0;
    assert !w(1, 2).qualifies;
    assert NoneFound(3, w) by {
      forall a: nat, b: nat | a < b < 3 ensures !Candidate(3, w, a, b) {
        if a == 0 && b == 2 {
          assert !Reached(w, 0, 2);
        }
      }
    }
    var w' := NoBreak(w);
    assert w'(0, 2) == w(0, 2).(stop := false);
    assert IsBest(3, w', 0, 2) by {
      forall c: nat, d: nat | Candidate(3, w', c, d) ensures c == 0 && d == 2 {
        assert w'(c, d) == w(c, d).(stop := false);
        assert (c, d) == (0, 1) || (c, d) == (0, 2) || (c, d) == (1, 2);
      }
      assert Reached(w', 0, 2);
    }
    var s := Scan(3, w');
    assert s.Some?;
    BestIsUnique(3, w', 0, 2, s.value.startIdx, s.value.endIdx);
  }

  // ------------------------------------------------------------ by distance

  /** Window (a, b) of the older by-distance search: the band is on the
      distance covered, the net gain and elapsed time must be positive, and
      the record keeps the rounded distance. */
  function DistanceWindow(e: seq<real>, time: seq<real>, d: seq<real>, targetDistance: real, tolerance: real, a: nat, b: nat): Window {
    if a < b < |e| && b < |time| && b < |d| then
      var distDiff := d[b] - d[a];
      var elevGain := NetGain(e, a, b);
      var timeDiff := time[b] - time[a];
      var vam := CalculateVam(elevGain, timeDiff);
      Window(
        InBand(distDiff, targetDistance, tolerance) && elevGain > 0.0 && timeDiff > 0.0,
        vam,
        Beyond(distDiff, targetDistance, tolerance),
        Effort(Round(vam), Round(elevGain), Round(timeDiff) as real, Some(Round(distDiff) as real), None))
    else
      Window(false, 0.0, true, NullDistanceEffort)
  }

  function DistanceWindows(e: seq<real>, time: seq<real>, d: seq<real>, targetDistance: real, tolerance: real): Windows {
    (a: nat, b: nat) => DistanceWindow(e, time, d, targetDistance, tolerance, a, b)
  }

  /** The older null result has no distance field at all. */
  const NullDistanceEffort: Effort := Effort(0, 0, 0.0, None, None)

  /** r is the record of window (a, b) of the older by-distance search. */
  ghost predicate DistanceRecordOf(elevation: seq<real>, time: seq<real>, d: seq<real>,
                                   targetDistance: real, tolerance: real, a: nat, b: nat, r: Effort)
    requires a < b < |elevation| && |time| == |elevation| && |d| == |elevation|
  {
    && Abs(d[b] - d[a] - targetDistance) <= targetDistance * tolerance
    && elevation[b] - elevation[a] > 0.0
    && time[b] - time[a] > 0.0
    && r == Effort(Round(CalculateVam(elevation[b] - elevation[a], time[b] - time[a])),
                   Round(elevation[b] - elevation[a]), Round(time[b] - time[a]) as real,
                   Some(Round(d[b] - d[a]) as real), None)
  }

  /** Best VAM over any window whose distance is in the band of
      targetDistance with positive net gain and elapsed time. Without a
      distance stream the null record (no distance field) is returned. */
  function FindBestVamByDistance(elevation: seq<real>, time: seq<real>, distance: Option<seq<real>>,
                                 targetDistance: real, tolerance: real): (r: Effort)
    requires |time| == |elevation|
    requires distance.Some? ==> |distance.value| == |elevation|
    ensures r.span.None?
    ensures distance.None? ==> r == NullDistanceEffort
    ensures distance.Some? && NoneFound(|elevation|, DistanceWindows(elevation, time, distance.value, targetDistance, tolerance)) ==>
              r == NullDistanceEffort
    ensures distance.Some? && !NoneFound(|elevation|, DistanceWindows(elevation, time, distance.value, targetDistance, tolerance)) ==>
              exists a: nat, b: nat ::
                && IsBest(|elevation|, DistanceWindows(elevation, time, distance.value, targetDistance, tolerance), a, b)
                && a < b < |elevation|
                && DistanceRecordOf(elevation, time, distance.value, targetDistance, tolerance, a, b, r)
  {
    match distance
    case None => NullDistanceEffort
    case Some(d) =>
      DistanceOutcome(elevation, time, d, targetDistance, tolerance);
      Outcome(|elevation|, DistanceWindows(elevation, time, d, targetDistance, tolerance), NullDistanceEffort)
  }

  /** The by-distance outcome over a present stream d is the null record or
      the record of a best window. */
  lemma DistanceOutcome(elevation: seq<real>, time: seq<real>, d: seq<real>, targetDistance: real, tolerance: real)
    requires |time| == |elevation| && |d| == |elevation|
    ensures var w := DistanceWindows(elevation, time, d, targetDistance, tolerance);
            var r := Outcome(|elevation|, w, NullDistanceEffort);
            && r.span.None?
            && (NoneFound(|elevation|, w) ==> r == NullDistanceEffort)
            && (!NoneFound(|elevation|, w) ==>
                  exists a: nat, b: nat ::
                    && IsBest(|elevation|, w, a, b)
                    && a < b < |elevation|
                    && DistanceRecordOf(elevation, time, d, targetDistance, tolerance, a, b, r))
  {
    var w := DistanceWindows(elevation, time, d, targetDistance, tolerance);
    var r := Outcome(|elevation|, w, NullDistanceEffort);
    var found := Scan(|elevation|, w);
    if found.Some? {
      var a, b := found.value.startIdx, found.value.endIdx;
      assert IsBest(|elevation|, w, a, b) && a < b < |elevation|;
      assert r == w(a, b).record;
      assert w(a, b) == DistanceWindow(elevation, time, d, targetDistance, tolerance, a, b);
      assert DistanceRecordOf(elevation, time, d, targetDistance, tolerance, a, b, r);
    }
  }

  /** With a non-decreasing distance stream the by-distance break never
      skips a qualifying window. */
  lemma DistanceBreakIsSafe(elevation: seq<real>, time: seq<real>, d: seq<real>, targetDistance: real, tolerance: real)
    requires |time| == |elevation| && |d| == |elevation|
    requires NonDecreasing(d)
    ensures var w := DistanceWindows(elevation, time, d, targetDistance, tolerance);
            && (forall a: nat, b: nat :: a < b < |elevation| && w(a, b).qualifies ==> Candidate(|elevation|, w, a, b))
            && Scan(|elevation|, w) == Scan(|elevation|, NoBreak(w))
  {
    var w := DistanceWindows(elevation, time, d, targetDistance, tolerance);
    var n := |elevation|;
    forall a: nat, k: nat, b: nat | a < k < b < n && w(a, k).stop
      ensures !w(a, b).qualifies
    {
      assert d[a] <= d[k] <= d[b];
      BeyondIsOutsideBand(d[b] - d[a], targetDistance, tolerance);
    }
    BreakIsSafe(n, w);
    ScanIgnoresSafeBreak(n, w);
  }
}
