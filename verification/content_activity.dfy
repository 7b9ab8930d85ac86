/** The current engine's orchestration (dist/content.js): run every
    configured target of every enabled mode over one activity, then merge
    the results into the stored personal bests. */
module ContentActivity {
  import opened Common
  import opened ContentSearch
  import opened PersonalBests

  function InSeconds(value: real, name: string): TargetConfig {
    TargetConfig(value, name, Seconds)
  }

  function InMetres(value: real, name: string): TargetConfig {
    TargetConfig(value, name, Meters)
  }

  /** The built-in targets used when the settings carry no custom ones. */
  const DefaultConfigs: ConfigSet := ConfigSet(
    [InSeconds(60.0, "1 min"), InSeconds(120.0, "2 min"), InSeconds(300.0, "5 min"), InSeconds(600.0, "10 min"),
     InSeconds(900.0, "15 min"), InSeconds(1200.0, "20 min"), InSeconds(1800.0, "30 min"), InSeconds(3600.0, "60 min")],
    [InMetres(100.0, "100 m"), InMetres(250.0, "250 m"), InMetres(500.0, "500 m"), InMetres(1000.0, "1000 m"),
     InMetres(1500.0, "1500 m")],
    [InMetres(1000.0, "1 km"), InMetres(2000.0, "2 km"), InMetres(5000.0, "5 km"), InMetres(10000.0, "10 km")])

  /** The settings a fresh install starts with: every mode on, default targets. */
  const DefaultSettings: Settings := Settings([Time, Ascent, Distance], Some(DefaultConfigs))

  /** The search of one mode for one target, at the default tolerance. */
  function Search(mode: Mode, activity: ActivityData, target: real): Effort
    requires Aligned(activity)
  {
    match mode
    case Time => FindBestVamByTime(activity.elevation, activity.time, target, DefaultTolerance)
    case Ascent => FindBestVamByAscent(activity.elevation, activity.time, target, DefaultTolerance)
    case Distance => FindBestVamByDistance(activity.elevation, activity.time, activity.distance, target, DefaultTolerance)
  }

  /** One mode's results: one entry per label, a later configuration with a
      label overwriting an earlier one. */
  function ModeResults(mode: Mode, activity: ActivityData, configs: seq<TargetConfig>): (t: map<string, Effort>)
    requires Aligned(activity)
    ensures t.Keys == Labels(configs)
  {
    var targets := TargetsByLabel(configs);
    map tag | tag in targets :: Search(mode, activity, targets[tag])
  }

  /** All results of one activity. The custom targets are used when present,
      the built-in ones otherwise. */
  function ProcessActivity(activity: ActivityData, settings: Settings): (r: Results)
    requires Aligned(activity)
    ensures forall mode :: mode in r <==> Runs(mode, activity, settings)
    ensures forall mode | mode in r :: r[mode].Keys == Labels(settings.customConfigs.GetOr(DefaultConfigs).For(mode))
  {
    var configs := settings.customConfigs.GetOr(DefaultConfigs);
    map mode | mode in {Time, Ascent, Distance} && Runs(mode, activity, settings) ::
      ModeResults(mode, activity, configs.For(mode))
  }

  /** Each entry is the search for the target of the last configuration
      carrying its label. */
  lemma ProcessActivityUsesLastTarget(activity: ActivityData, settings: Settings, mode: Mode, tag: string)
    requires Aligned(activity)
    requires mode in ProcessActivity(activity, settings) && tag in ProcessActivity(activity, settings)[mode]
    ensures var configs := settings.customConfigs.GetOr(DefaultConfigs).For(mode);
            exists k :: LastWithLabel(configs, k, tag)
                        && ProcessActivity(activity, settings)[mode][tag] == Search(mode, activity, configs[k].value)
  {
    var configs := settings.customConfigs.GetOr(DefaultConfigs).For(mode);
    TargetsByLabelKeepsLast(configs, tag);
  }

  /** The merge as the current engine reports it: the flag, the replaced
      entries, the whole merged store, and the store written back only when
      some entry was replaced. */
  function UpdatePersonalBests(bests: Bests, activityId: string, current: Results, date: string): (u: Update)
    ensures u.hasNewPB <==> exists mode, tag :: InResults(current, mode, tag) && Replaces(bests, mode, tag, current[mode][tag])
    ensures u.written.Some? <==> u.hasNewPB
    ensures u.written.Some? ==> u.written.value == u.allPBs
    ensures u.newPBs.Keys == current.Keys
    ensures forall mode, tag :: mode in u.newPBs && tag in u.newPBs[mode] ==>
              && InResults(current, mode, tag)
              && Replaces(bests, mode, tag, current[mode][tag])
              && Stored(u.allPBs, mode, tag) == Some(u.newPBs[mode][tag])
              && u.newPBs[mode][tag] == PersonalBest(current[mode][tag], activityId, date)
    ensures forall mode, tag :: InResults(current, mode, tag) && Replaces(bests, mode, tag, current[mode][tag]) ==>
              mode in u.newPBs && tag in u.newPBs[mode]
    ensures forall mode, tag :: Stored(u.allPBs, mode, tag) != Stored(bests, mode, tag) ==>
              mode in u.newPBs && tag in u.newPBs[mode]
    ensures u.allPBs == MergeBests(bests, current, activityId, date)
    ensures u.newPBs == NewBests(bests, current, activityId, date)
  {
    var merged := MergeBests(bests, current, activityId, date);
    var replaced := NewBests(bests, current, activityId, date);
    var any := AnyReplaced(bests, current);
    AnyReplacedIsSomeReplaced(bests, current);
    Update(any, replaced, merged, if any then Some(merged) else None)
  }

  /** A stored best the results only tie or undercut stays as it was and
      is not reported as new: the comparison is a strict greater-than. */
  lemma UpdateKeepsTiedBest(bests: Bests, activityId: string, current: Results, date: string, mode: Mode, tag: string)
    requires InResults(current, mode, tag)
    requires Stored(bests, mode, tag).Some? && current[mode][tag].vam <= Stored(bests, mode, tag).value.effort.vam
    ensures var u := UpdatePersonalBests(bests, activityId, current, date);
            && Stored(u.allPBs, mode, tag) == Stored(bests, mode, tag)
            && !(mode in u.newPBs && tag in u.newPBs[mode])
  {
    assert !Replaces(bests, mode, tag, current[mode][tag]);
  }

  /** Applying the same results twice: the second update finds nothing new,
      writes nothing and leaves the store as the first left it. */
  lemma UpdateIsIdempotent(bests: Bests, activityId: string, current: Results, date1: string, date2: string)
    ensures var first := UpdatePersonalBests(bests, activityId, current, date1);
            var second := UpdatePersonalBests(first.allPBs, activityId, current, date2);
            && !second.hasNewPB
            && second.written.None?
            && second.allPBs == first.allPBs
            && forall mode | mode in second.newPBs :: second.newPBs[mode] == map[]
  {
    var merged := MergeBests(bests, current, activityId, date1);
    MergeIsIdempotent(bests, current, activityId, date1, activityId, date2);
    NoNewBestsWithoutReplacement(merged, current, activityId, date2);
  }

  /** With the settings of a fresh install, time and ascent are always
      searched and distance exactly when the activity has a distance stream. */
  lemma DefaultSettingsSearchEveryMode(activity: ActivityData)
    requires Aligned(activity)
    ensures var r := ProcessActivity(activity, DefaultSettings);
            && Time in r && Ascent in r
            && (Distance in r <==> activity.distance.Some?)
  {
    assert DefaultSettings.trackingModes[0] == Time;
    assert DefaultSettings.trackingModes[1] == Ascent;
    assert DefaultSettings.trackingModes[2] == Distance;
  }

  /** With the settings of a fresh install each mode gets one entry per
      built-in target: eight durations, five ascents, four distances. */
  lemma DefaultSettingsSearchEveryTarget(activity: ActivityData)
    requires Aligned(activity)
    ensures var r := ProcessActivity(activity, DefaultSettings);
            && Time in r && r[Time].Keys == {"1 min", "2 min", "5 min", "10 min", "15 min", "20 min", "30 min", "60 min"}
            && Ascent in r && r[Ascent].Keys == {"100 m", "250 m", "500 m", "1000 m", "1500 m"}
            && (Distance in r ==> r[Distance].Keys == {"1 km", "2 km", "5 km", "10 km"})
  {
    assert Runs(Time, activity, DefaultSettings) && Runs(Ascent, activity, DefaultSettings);
    LabelsOfDefaults();
  }

  /** The labels of the built-in targets. */
  lemma LabelsOfDefaults()
    ensures Labels(DefaultConfigs.time) == {"1 min", "2 min", "5 min", "10 min", "15 min", "20 min", "30 min", "60 min"}
    ensures Labels(DefaultConfigs.ascent) == {"100 m", "250 m", "500 m", "1000 m", "1500 m"}
    ensures Labels(DefaultConfigs.distance) == {"1 km", "2 km", "5 km", "10 km"}
  {
    var t := DefaultConfigs.time;
    assert t[0].name == "1 min" && t[1].name == "2 min" && t[2].name == "5 min" && t[3].name == "10 min";
    assert t[4].name == "15 min" && t[5].name == "20 min" && t[6].name == "30 min" && t[7].name == "60 min";
    var a := DefaultConfigs.ascent;
    assert a[0].name == "100 m" && a[1].name == "250 m" && a[2].name == "500 m" && a[3].name == "1000 m" && a[4].name == "1500 m";
    var d := DefaultConfigs.distance;
    assert d[0].name == "1 km" && d[1].name == "2 km" && d[2].name == "5 km" && d[3].name == "10 km";
  }
}
