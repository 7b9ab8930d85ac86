/** The older engine's orchestration (src/background.js): compute the peaks
    of one fetched activity and merge them into the stored personal bests. */
module BackgroundActivity {
  import opened Common
  import opened BackgroundSearch
  import opened PersonalBests

  /** The search of one mode for one target, at the default tolerance. */
  function Search(mode: Mode, stream: ActivityData, target: real): Effort
    requires Aligned(stream)
  {
    match mode
    case Time => FindBestVamByTime(stream.elevation, stream.time, target, DefaultTolerance)
    case Ascent => FindBestVamByAscent(stream.elevation, stream.time, target, DefaultTolerance)
    case Distance => FindBestVamByDistance(stream.elevation, stream.time, stream.distance, target, DefaultTolerance)
  }

  /** One mode's peaks: one entry per label, a later configuration with a
      label overwriting an earlier one. */
  function ModePeaks(mode: Mode, stream: ActivityData, configs: seq<TargetConfig>): (t: map<string, Effort>)
    requires Aligned(stream)
    ensures t.Keys == Labels(configs)
  {
    var targets := TargetsByLabel(configs);
    map tag | tag in targets :: Search(mode, stream, targets[tag])
  }

  /** All peaks of one activity. There is no fallback to built-in targets
      here: settings without custom targets make the first enabled mode read
      a list that is not there, which throws; that outcome is None. */
  function CalculatePeaks(stream: ActivityData, settings: Settings): (r: Option<Results>)
    requires Aligned(stream)
    ensures r.None? <==> settings.customConfigs.None? && exists mode :: Runs(mode, stream, settings)
    ensures r.Some? ==> forall mode :: mode in r.value <==> Runs(mode, stream, settings)
    ensures r.Some? ==> forall mode | mode in r.value :: r.value[mode].Keys == Labels(settings.customConfigs.value.For(mode))
  {
    if settings.customConfigs.None? then
      if Runs(Time, stream, settings) || Runs(Ascent, stream, settings) || Runs(Distance, stream, settings) then None
      else
        Some(map[])
    else
      var configs := settings.customConfigs.value;
      Some(map mode | mode in {Time, Ascent, Distance} && Runs(mode, stream, settings) ::
             ModePeaks(mode, stream, configs.For(mode)))
  }

  /** Each entry is the search for the target of the last configuration
      carrying its label. */
  lemma CalculatePeaksUsesLastTarget(stream: ActivityData, settings: Settings, mode: Mode, tag: string)
    requires Aligned(stream)
    requires CalculatePeaks(stream, settings).Some?
    requires mode in CalculatePeaks(stream, settings).value && tag in CalculatePeaks(stream, settings).value[mode]
    ensures var configs := settings.customConfigs.value.For(mode);
            exists k :: LastWithLabel(configs, k, tag)
                        && CalculatePeaks(stream, settings).value[mode][tag] == Search(mode, stream, configs[k].value)
  {
    var configs := settings.customConfigs.value.For(mode);
    TargetsByLabelKeepsLast(configs, tag);
  }

  /** The merge as the older engine reports it: when nothing is replaced
      the flag is false, the replaced entries are reported as empty and
      nothing is written; otherwise the replaced entries and the merged
      store, which is also written. */
  function UpdatePersonalBests(bests: Bests, activityId: string, current: Results, date: string): (u: Update)
    ensures u.hasNewPB <==> exists mode, tag :: InResults(current, mode, tag) && Replaces(bests, mode, tag, current[mode][tag])
    ensures !u.hasNewPB ==> u.newPBs == map[] && u.written.None?
    ensures u.hasNewPB ==> u.written == Some(u.allPBs) && u.newPBs.Keys == current.Keys
    ensures forall mode, tag :: InResults(current, mode, tag) && Replaces(bests, mode, tag, current[mode][tag]) ==>
              mode in u.newPBs && tag in u.newPBs[mode]
              && u.newPBs[mode][tag] == PersonalBest(current[mode][tag], activityId, date)
              && Stored(u.allPBs, mode, tag) == Some(u.newPBs[mode][tag])
    ensures forall mode, tag :: Stored(u.allPBs, mode, tag) != Stored(bests, mode, tag) ==>
              InResults(current, mode, tag) && Replaces(bests, mode, tag, current[mode][tag])
    ensures forall mode, tag :: mode in u.newPBs && tag in u.newPBs[mode] ==>
              InResults(current, mode, tag) && Replaces(bests, mode, tag, current[mode][tag])
    ensures u.allPBs == MergeBests(bests, current, activityId, date)
    ensures u.hasNewPB ==> u.newPBs == NewBests(bests, current, activityId, date)
  {
    var merged := MergeBests(bests, current, activityId, date);
    var any := AnyReplaced(bests, current);
    AnyReplacedIsSomeReplaced(bests, current);
    if any then Update(true, NewBests(bests, current, activityId, date), merged, Some(merged))
    else Update(false, map[], merged, None)
  }

  /** What processing one activity reports, and the store afterwards. A
      missing stream or a thrown error reports no new best and leaves the
      store as it was. */
  datatype Processed = Processed(hasNewPB: bool, store: Bests)

  /** Fetch result, settings and store in; flag and store out. */
  function ProcessActivity(activityId: string, stream: Option<ActivityData>, settings: Settings,
                           bests: Bests, date: string): (p: Processed)
    requires stream.Some? ==> Aligned(stream.value)
    ensures stream.None? ==> p == Processed(false, bests)
    ensures p.hasNewPB <==>
              && stream.Some?
              && CalculatePeaks(stream.value, settings).Some?
              && AnyReplaced(bests, CalculatePeaks(stream.value, settings).value)
    ensures !p.hasNewPB ==> p.store == bests
    ensures p.hasNewPB ==> p.store == MergeBests(bests, CalculatePeaks(stream.value, settings).value, activityId, date)
  {
    match stream
    case None => Processed(false, bests)
    case Some(s) =>
      match CalculatePeaks(s, settings)
      case None => Processed(false, bests)
      case Some(peaks) =>
        var u := UpdatePersonalBests(bests, activityId, peaks, date);
        AnyReplacedIsSomeReplaced(bests, peaks);
        Processed(u.hasNewPB, if u.written.Some? then u.written.value else bests)
  }

  /** Processing the same activity twice in a row: the second pass finds no
      new best and leaves the store unchanged. */
  lemma ProcessActivityIsIdempotent(activityId: string, stream: Option<ActivityData>, settings: Settings,
                                    bests: Bests, date1: string, date2: string)
    requires stream.Some? ==> Aligned(stream.value)
    ensures var first := ProcessActivity(activityId, stream, settings, bests, date1);
            var second := ProcessActivity(activityId, stream, settings, first.store, date2);
            !second.hasNewPB && second.store == first.store
  {
    var first := ProcessActivity(activityId, stream, settings, bests, date1);
    if stream.Some? && CalculatePeaks(stream.value, settings).Some? {
      var peaks := CalculatePeaks(stream.value, settings).value;
      if first.hasNewPB {
        MergeIsIdempotent(bests, peaks, activityId, date1, activityId, date2);
        NothingReplacedAfterMerge(bests, peaks, activityId, date1);
        AnyReplacedIsSomeReplaced(first.store, peaks);
      } else {
        AnyReplacedIsSomeReplaced(bests, peaks);
      }
    }
  }
}
