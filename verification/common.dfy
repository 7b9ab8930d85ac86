/** Vocabulary shared by both VAM engines: the activity streams, the tracking
    configuration, the effort record every search returns, and the small
    numeric helpers (rounding, tolerance band, sums) the searches are built on. */
module Common {

  datatype Option<+T> = None | Some(value: T) {
    function GetOr(default: T): T {
      match this
      case Some(v) => v
      case None => default
    }
  }

  /** The three tracking modes a user can enable. */
  datatype Mode = Time | Ascent | Distance

  /** The unit tag a target configuration carries; it is only displayed. */
  datatype Unit = Seconds | Meters

  /** One target to search for, e.g. value 600, label "10 min", unit seconds.
      (The label is the field `name`: `label` is a Dafny keyword.) */
  datatype TargetConfig = TargetConfig(value: real, name: string, unit: Unit)

  /** The ordered target lists, one per mode. */
  datatype ConfigSet = ConfigSet(time: seq<TargetConfig>, ascent: seq<TargetConfig>, distance: seq<TargetConfig>)
  {
    function For(mode: Mode): seq<TargetConfig> {
      match mode
      case Time => time
      case Ascent => ascent
      case Distance => distance
    }
  }

  /** User settings: which modes are enabled and, optionally, custom targets. */
  datatype Settings = Settings(trackingModes: seq<Mode>, customConfigs: Option<ConfigSet>)

  /** The index-aligned telemetry of one activity; the distance stream may be missing. */
  datatype ActivityData = ActivityData(elevation: seq<real>, time: seq<real>, distance: Option<seq<real>>)

  /** Every present stream has one sample per elevation sample. */
  predicate Aligned(activity: ActivityData) {
    && |activity.time| == |activity.elevation|
    && (activity.distance.Some? ==> |activity.distance.value| == |activity.elevation|)
  }

  /** A mode produces results when it is enabled and, for distance, the
      activity has a distance stream. */
  predicate Runs(mode: Mode, activity: ActivityData, settings: Settings) {
    mode in settings.trackingModes && (mode == Distance ==> activity.distance.Some?)
  }

  /** The inclusive index pair of a best window. */
  datatype Span = Span(startIdx: nat, endIdx: nat)

  /** One search result. `distance` is present only for distance-mode results
      (and not even there in the older engine's null result); `span` is present
      only in the current engine's found results. */
  datatype Effort = Effort(vam: int, elevationGain: int, duration: real, distance: Option<real>, span: Option<Span>)

  /** Per-mode, per-label search results of one activity. */
  type Results = map<Mode, map<string, Effort>>

  /** The tolerance both engines use when the caller gives none (0.1). */
  const DefaultTolerance: real := 1.0 / 10.0

  /** Math.round: the nearest integer, halves rounded up. */
  function Round(x: real): (r: int)
    ensures x - 1.0 / 2.0 < r as real <= x + 1.0 / 2.0
  {
    (x + 1.0 / 2.0).Floor
  }

  function Abs(x: real): real {
    if x < 0.0 then -x else x
  }

  /** The relative tolerance band |metric - target| <= target * tolerance. */
  predicate InBand(metric: real, target: real, tolerance: real) {
    Abs(metric - target) <= target * tolerance
  }

  /** The early-exit test metric > target * (1 + tolerance). */
  predicate Beyond(metric: real, target: real, tolerance: real) {
    metric > target * (1.0 + tolerance)
  }

  /** A metric past the upper edge of the band is never inside it, whatever
      the sign of the target or the tolerance. */
  lemma BeyondIsOutsideBand(metric: real, target: real, tolerance: real)
    ensures Beyond(metric, target, tolerance) ==> !InBand(metric, target, tolerance)
  {
    assert target * (1.0 + tolerance) == target + target * tolerance;
  }

  /** Both ends of a pair are ordered: s[i] <= s[j] whenever i <= j. */
  ghost predicate NonDecreasing(s: seq<real>) {
    forall i, j :: 0 <= i <= j < |s| ==> s[i] <= s[j]
  }

  /** Left-to-right sum, the order a `sum += x` loop adds in. */
  function Sum(s: seq<real>): real {
    if |s| == 0 then 0.0 else Sum(s[..|s| - 1]) + s[|s| - 1]
  }

  /** A sum splits over a concatenation. */
  lemma {:induction false} SumOfConcat(a: seq<real>, b: seq<real>)
    ensures Sum(a + b) == Sum(a) + Sum(b)
    decreases |b|
  {
    if |b| == 0 {
      assert a + b == a;
    } else {
      var b' := b[..|b| - 1];
      assert (a + b)[..|a + b| - 1] == a + b';
      SumOfConcat(a, b');
    }
  }

  lemma SumOfTwo(a: real, b: real)
    ensures Sum([a, b]) == a + b
  {
    assert [a, b][..1] == [a];
    assert [a][..0] == [];
    assert Sum([a]) == Sum([]) + a;
  }

  lemma SumOfThree(a: real, b: real, c: real)
    ensures Sum([a, b, c]) == a + b + c
  {
    assert [a, b, c][..2] == [a, b];
    SumOfTwo(a, b);
  }

  /** Arithmetic mean of a non-empty sequence. */
  function Mean(s: seq<real>): real
    requires |s| > 0
  {
    Sum(s) / (|s| as real)
  }

  lemma {:induction false} SumBounds(s: seq<real>, lo: real, hi: real)
    requires forall k :: 0 <= k < |s| ==> lo <= s[k] <= hi
    ensures lo * (|s| as real) <= Sum(s) <= hi * (|s| as real)
  {
    if |s| > 0 {
      var init := s[..|s| - 1];
      assert forall k :: 0 <= k < |init| ==> init[k] == s[k];
      SumBounds(init, lo, hi);
      assert lo * (|s| as real) == lo * (|init| as real) + lo;
      assert hi * (|s| as real) == hi * (|init| as real) + hi;
    }
  }

  /** The mean of values in [lo, hi] lies in [lo, hi]. */
  lemma MeanBounds(s: seq<real>, lo: real, hi: real)
    requires |s| > 0
    requires forall k :: 0 <= k < |s| ==> lo <= s[k] <= hi
    ensures lo <= Mean(s) <= hi
  {
    SumBounds(s, lo, hi);
    var n := |s| as real;
    assert lo * n / n == lo;
    assert hi * n / n == hi;
  }

  /** The labels a target list mentions. */
  function Labels(configs: seq<TargetConfig>): set<string> {
    set k | 0 <= k < |configs| :: configs[k].name
  }

  /** configs[k] is the last entry carrying `label`. */
  predicate LastWithLabel(configs: seq<TargetConfig>, k: int, tag: string) {
    && 0 <= k < |configs|
    && configs[k].name == tag
    && forall k' :: k < k' < |configs| ==> configs[k'].name != tag
  }

  /** The label-to-target map a `forEach` over the list builds when each
      entry assigns `results[config.label]`: a later entry with the same
      label overwrites an earlier one. */
  function TargetsByLabel(configs: seq<TargetConfig>): (m: map<string, real>)
    ensures m.Keys == Labels(configs)
  {
    if |configs| == 0 then map[]
    else
      var init := configs[..|configs| - 1];
      var last := configs[|configs| - 1];
      LabelsOfSnoc(configs);
      TargetsByLabel(init)[last.name := last.value]
  }

  lemma LabelsOfSnoc(configs: seq<TargetConfig>)
    requires |configs| > 0
    ensures Labels(configs) == Labels(configs[..|configs| - 1]) + {configs[|configs| - 1].name}
  {
    var init := configs[..|configs| - 1];
    forall l | l in Labels(configs) ensures l in Labels(init) + {configs[|configs| - 1].name} {
      var k :| 0 <= k < |configs| && configs[k].name == l;
      if k < |init| {
        assert init[k].name == l;
      }
    }
    forall l | l in Labels(init) ensures l in Labels(configs) {
      var k :| 0 <= k < |init| && init[k].name == l;
      assert configs[k].name == l;
    }
  }

  /** Every label maps to the value of the LAST configuration carrying it. */
  lemma {:induction false} TargetsByLabelKeepsLast(configs: seq<TargetConfig>, tag: string)
    requires tag in TargetsByLabel(configs)
    ensures exists k :: LastWithLabel(configs, k, tag) && TargetsByLabel(configs)[tag] == configs[k].value
  {
    var n := |configs|;
    var init := configs[..n - 1];
    if configs[n - 1].name == tag {
      assert LastWithLabel(configs, n - 1, tag);
    } else {
      TargetsByLabelKeepsLast(init, tag);
      var k :| LastWithLabel(init, k, tag) && TargetsByLabel(init)[tag] == init[k].value;
      assert LastWithLabel(configs, k, tag);
    }
  }
}
