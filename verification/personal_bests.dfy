/** The personal-best merge both engines run after processing an activity:
    for every (mode, label) in the current results, the stored best is
    replaced when it is absent or the new rounded VAM is strictly greater.
    The store itself is an explicit input and output, and the timestamp of
    the call is a parameter. */
module PersonalBests {
  import opened Common

  /** A stored best: the effort record plus the activity and time it came from. */
  datatype PersonalBest = PersonalBest(effort: Effort, activityId: string, date: string)

  type Bests = map<Mode, map<string, PersonalBest>>

  /** What an update reports: whether any key was replaced, the replaced
      keys, the whole merged map, and what was written to storage (nothing
      when no key was replaced). */
  datatype Update = Update(hasNewPB: bool, newPBs: Bests, allPBs: Bests, written: Option<Bests>)

  /** The stored entry for (mode, label), if any. */
  function Stored(bests: Bests, mode: Mode, tag: string): Option<PersonalBest> {
    if mode in bests && tag in bests[mode] then Some(bests[mode][tag]) else None
  }

  /** The replacement rule: absent, or a strictly greater VAM. Ties keep the old entry. */
  predicate Replaces(bests: Bests, mode: Mode, tag: string, current: Effort) {
    match Stored(bests, mode, tag)
    case None => true
    case Some(existing) => current.vam > existing.effort.vam
  }

  /** (mode, label) is a key of the current results. */
  predicate InResults(current: Results, mode: Mode, tag: string) {
    mode in current && tag in current[mode]
  }

  /** Some key of the current results replaces its stored best. */
  predicate AnyReplaced(bests: Bests, current: Results) {
    exists mode | mode in current :: exists tag | tag in current[mode] :: Replaces(bests, mode, tag, current[mode][tag])
  }

  /** AnyReplaced, read over (mode, label) pairs. */
  lemma AnyReplacedIsSomeReplaced(bests: Bests, current: Results)
    ensures AnyReplaced(bests, current) <==>
              exists mode, tag :: InResults(current, mode, tag) && Replaces(bests, mode, tag, current[mode][tag])
  {
    if AnyReplaced(bests, current) {
      var mode :| mode in current && exists tag | tag in current[mode] :: Replaces(bests, mode, tag, current[mode][tag]);
      var tag :| tag in current[mode] && Replaces(bests, mode, tag, current[mode][tag]);
      assert InResults(current, mode, tag);
    }
  }

  /** The replaced keys, each annotated with the activity and the date. */
  function NewBests(bests: Bests, current: Results, activityId: string, date: string): (r: Bests)
    ensures r.Keys == current.Keys
    ensures forall mode, tag :: mode in r && tag in r[mode] <==>
              InResults(current, mode, tag) && Replaces(bests, mode, tag, current[mode][tag])
    ensures forall mode, tag :: mode in r && tag in r[mode] ==>
              InResults(current, mode, tag) && r[mode][tag] == PersonalBest(current[mode][tag], activityId, date)
  {
    map mode | mode in current ::
      map tag | tag in current[mode] && Replaces(bests, mode, tag, current[mode][tag]) ::
        PersonalBest(current[mode][tag], activityId, date)
  }

  /** The table of one mode before the merge; a missing table reads as empty. */
  function Table(bests: Bests, mode: Mode): map<string, PersonalBest> {
    if mode in bests then bests[mode] else map[]
  }

  /** The table of one mode of the results after the merge. */
  function MergeTable(bests: Bests, current: Results, mode: Mode, activityId: string, date: string): (t: map<string, PersonalBest>)
    requires mode in current
    ensures t.Keys == Table(bests, mode).Keys + current[mode].Keys
    ensures forall tag :: tag in current[mode] ==>
              t[tag] == if Replaces(bests, mode, tag, current[mode][tag])
                        then PersonalBest(current[mode][tag], activityId, date)
                        else bests[mode][tag]
    ensures forall tag :: tag in t && tag !in current[mode] ==> t[tag] == Table(bests, mode)[tag]
  {
    Table(bests, mode) + map tag | tag in current[mode] && Replaces(bests, mode, tag, current[mode][tag]) ::
      PersonalBest(current[mode][tag], activityId, date)
  }

  /** The store with every mode of the results given its merged table. */
  function Merged(bests: Bests, current: Results, activityId: string, date: string): (r: Bests)
    ensures r.Keys == bests.Keys + current.Keys
  {
    bests + map mode | mode in current :: MergeTable(bests, current, mode, activityId, date)
  }

  /** One key of the merged store: the merged entry for a key of the
      results, the old entry otherwise. */
  lemma StoredAfterMerge(bests: Bests, current: Results, activityId: string, date: string, mode: Mode, tag: string)
    ensures Stored(Merged(bests, current, activityId, date), mode, tag) ==
              if InResults(current, mode, tag) then
                Some(if Replaces(bests, mode, tag, current[mode][tag])
                     then PersonalBest(current[mode][tag], activityId, date)
                     else bests[mode][tag])
              else Stored(bests, mode, tag)
  {
    var r := Merged(bests, current, activityId, date);
    if mode in current {
      var t := MergeTable(bests, current, mode, activityId, date);
      assert r[mode] == t;
    }
  }

  /** The store after the merge: every mode of the results gets a (possibly
      empty) table, replaced keys hold the new record, and every other key
      keeps its entry. */
  function MergeBests(bests: Bests, current: Results, activityId: string, date: string): (r: Bests)
    ensures r.Keys == bests.Keys + current.Keys
    ensures forall mode, tag :: Stored(r, mode, tag) ==
              if InResults(current, mode, tag) then
                Some(if Replaces(bests, mode, tag, current[mode][tag])
                     then PersonalBest(current[mode][tag], activityId, date)
                     else bests[mode][tag])
              else Stored(bests, mode, tag)
  {
    var r := Merged(bests, current, activityId, date);
    assert forall mode, tag :: Stored(r, mode, tag) ==
             if InResults(current, mode, tag) then
               Some(if Replaces(bests, mode, tag, current[mode][tag])
                    then PersonalBest(current[mode][tag], activityId, date)
                    else bests[mode][tag])
             else Stored(bests, mode, tag) by {
      forall mode, tag
        ensures Stored(r, mode, tag) ==
                  if InResults(current, mode, tag) then
                    Some(if Replaces(bests, mode, tag, current[mode][tag])
                         then PersonalBest(current[mode][tag], activityId, date)
                         else bests[mode][tag])
                  else Stored(bests, mode, tag)
      {
        StoredAfterMerge(bests, current, activityId, date, mode, tag);
      }
    }
    r
  }

  /** After a merge every key of the results holds a VAM at least as large
      as the result's and as the previous stored one: stored bests never fall. */
  lemma MergeKeepsMaximum(bests: Bests, current: Results, activityId: string, date: string)
    ensures var merged := MergeBests(bests, current, activityId, date);
            forall mode, tag :: InResults(current, mode, tag) ==>
              && Stored(merged, mode, tag).Some?
              && Stored(merged, mode, tag).value.effort.vam >= current[mode][tag].vam
              && (Stored(bests, mode, tag).Some? ==>
                    Stored(merged, mode, tag).value.effort.vam >= Stored(bests, mode, tag).value.effort.vam)
  {
  }

  /** Two stores with the same modes that agree on every stored entry are equal. */
  lemma StoredDetermines(a: Bests, b: Bests)
    requires a.Keys == b.Keys
    requires forall mode, tag :: Stored(a, mode, tag) == Stored(b, mode, tag)
    ensures a == b
  {
    forall mode | mode in a ensures a[mode] == b[mode] {
      forall tag ensures tag in a[mode] <==> tag in b[mode] {
        assert Stored(a, mode, tag) == Stored(b, mode, tag);
      }
      forall tag | tag in a[mode] ensures a[mode][tag] == b[mode][tag] {
        assert Stored(a, mode, tag) == Stored(b, mode, tag);
      }
    }
  }

  /** Right after a merge, no key of the same results replaces its entry. */
  lemma NothingReplacedAfterMerge(bests: Bests, current: Results, activityId: string, date: string)
    ensures !AnyReplaced(MergeBests(bests, current, activityId, date), current)
  {
    var merged := MergeBests(bests, current, activityId, date);
    MergeKeepsMaximum(bests, current, activityId, date);
    forall mode, tag | InResults(current, mode, tag)
      ensures !Replaces(merged, mode, tag, current[mode][tag])
    {
      assert Stored(merged, mode, tag).Some?;
    }
  }

  /** When no key is replaced, every mode's table of new bests is empty. */
  lemma NoNewBestsWithoutReplacement(bests: Bests, current: Results, activityId: string, date: string)
    requires !AnyReplaced(bests, current)
    ensures forall mode | mode in NewBests(bests, current, activityId, date) :: NewBests(bests, current, activityId, date)[mode] == map[]
  {
    var replaced := NewBests(bests, current, activityId, date);
    AnyReplacedIsSomeReplaced(bests, current);
    forall mode | mode in replaced ensures replaced[mode] == map[] {
      forall tag ensures tag !in replaced[mode] {
        if tag in current[mode] {
          assert !Replaces(bests, mode, tag, current[mode][tag]);
        }
      }
    }
  }

  /** Merging the same results a second time replaces nothing and leaves
      the store as the first merge left it. */
  lemma MergeIsIdempotent(bests: Bests, current: Results, id1: string, date1: string, id2: string, date2: string)
    ensures var merged := MergeBests(bests, current, id1, date1);
            && !AnyReplaced(merged, current)
            && MergeBests(merged, current, id2, date2) == merged
  {
    var merged := MergeBests(bests, current, id1, date1);
    NothingReplacedAfterMerge(bests, current, id1, date1);
    var again := MergeBests(merged, current, id2, date2);
    forall mode, tag ensures Stored(again, mode, tag) == Stored(merged, mode, tag) {
      if InResults(current, mode, tag) {
        assert !Replaces(merged, mode, tag, current[mode][tag]);
        assert Stored(merged, mode, tag).Some?;
      }
    }
    StoredDetermines(again, merged);
  }
}
