# VAM best-effort engine, modelled in Dafny

This project models the engine of a browser extension that finds a cycling activity's best VAM efforts. VAM is vertical ascent in metres per hour. The engine also keeps the user's personal bests. It exists twice in the repository:

- **Current engine** (`dist/content.js`). It smooths the elevation stream with a centred moving average of window 3. It measures each window's climb as cumulative gain, the sum of the positive steps. It keeps the start and end index of the best window.
- **Older engine** (`src/background.js`). It measures the raw net change `e[j] - e[i]` and accepts any positive climb. Its records carry no indices. Its null distance record has no distance.

Both engines run three searches per activity: by duration, by ascent and by distance. Each search is a nested `i < j` scan with these parts:
- a relative tolerance band around the target;
- a guard on the climb;
- a running maximum that starts at 0 and moves only on a strictly greater VAM, so ties keep the first window;
- an early `break` once the window's defining metric passes `target * (1 + tolerance)`.

The scan is written once in `WindowScan`. Each search supplies what a window `(i, j)` is worth: whether it is accepted, its VAM, whether the `break` fires after it, and its record. `WindowScan.ScanFrom` is the scan as a tail-recursive function. `WindowScan.ScanLoops` and `WindowScan.ScanRow` are the two loops as written, with `break`, and are proved to compute the same answer.

The answer is specified independently of the loops:
- `Candidate`: a window that is scanned (no earlier `break` in its row) and accepted.
- `IsBest`: a candidate with positive VAM, at least as good as every candidate, and strictly better than every earlier one.
- `NoneFound`: no candidate has positive VAM, and the null record is returned.

For the breaks:
- In the current engine the by-ascent break is always safe, because cumulative gain never falls as `j` grows. The by-time and by-distance breaks are safe whenever the time or distance stream does not decrease.
- In the older engine the by-ascent break is not safe, because net gain can fall again. `BackgroundSearch.AscentBreakPrunes` exhibits an input where the break hides the only window that would qualify.

Personal bests are a map from mode and label to a stored record. An entry is replaced when it is absent or the new rounded VAM is strictly greater. The store, the activity id and the timestamp are explicit inputs, and the store that would be written back is an output.

Modules:
- `common.dfy`: streams, configuration, the effort record, `Math.round`, the tolerance band, sums, and label maps.
- `elevation.dfy`: `calculateVAM`, cumulative gain and smoothing.
- `window_scan.dfy`: the shared nested scan and its specification.
- `content_search.dfy`: the three searches of the current engine.
- `background_search.dfy`: the three searches of the older engine.
- `personal_bests.dfy`: the merge rule.
- `content_activity.dfy`: `processActivity` and `updatePersonalBests` of the current engine.
- `background_activity.dfy`: `calculatePeaks`, `updatePersonalBests` and `processActivity` of the older engine.
- `test_vectors.dfy`: the concrete cases of `tests/unit/cumulative-elevation.test.js`.
- `scenarios.dfy`: worked searches comparing the two engines on the same input.

Numbers are `real`. `Math.round(x)` is `Floor(x + 1/2)` and the default tolerance 0.1 is `1/10`.

On a steady climb of 100 to 150 m sampled every 60 s, the current engine's best 300 s effort is window (0, 5) at 480 m/h, not 600 m/h. Smoothing turns the end samples into 105 and 145 m, so the window climbs 40 m (`Scenarios.SteadyClimbCurrentEngine`). The older engine reports 600 m/h (`Scenarios.SteadyClimbOlderEngine`).

On the switchback 100, 120, 115, 130, 125, 140 searched for a 40 m ascent, the smoothed stream climbs only 22.5 m in all, so the current engine returns the null record. The older engine finds window (0, 5) with a net 40 m.

## Model

| member | source | states |
|---|---|---|
| Common.Round | dist/content.js:104-110 | Math.round gives the integer within half a unit of x, halves rounding up |
| Common.TargetsByLabelKeepsLast | dist/content.js:381-387 | when two configurations share a label, the result for that label is the search for the LAST one's target |
| Common.SumOfConcat | dist/content.js:68-71 | a running sum splits over a concatenation of its inputs |
| Elevation.CalculateVam | dist/content.js:39-42 | zero time gives 0; otherwise VAM times time equals gain times 3600 exactly, with no clamping or rounding |
| Elevation.VamIsPositiveIff | dist/content.js:39-42 | a VAM is positive exactly when gain and time are non-zero and of the same sign |
| Elevation.CumulativeElevationGain | dist/content.js:46-55 | the climb over (s, t] is never negative and never less than the net change e[t] - e[s] |
| Elevation.GainIsSumOfClimbs | dist/content.js:46-55 | the climb equals the plain sum of max(0, e[k] - e[k-1]) over k in (s, t] |
| Elevation.GainGrowsWithEnd | dist/content.js:46-55 | for a fixed start the climb never decreases as the end index grows |
| Elevation.GainIsAdditive | dist/content.js:46-55 | the climb over (s, u] is the climb over (s, t] plus the climb over (t, u] |
| Elevation.GainGrowsWithRange | dist/content.js:46-55 | a sub-range climbs no more than the range containing it |
| Elevation.GainIsNetIffNoDescent | dist/content.js:46-55 | the climb equals the net change iff the range has no descending step; any descent makes it strictly larger |
| Elevation.SmoothElevationData | dist/content.js:59-78 | output has the input's length; input shorter than the window is returned unchanged |
| Elevation.SmoothedSample | dist/content.js:59-78 | sample i is the mean over [max(0, i-h), min(n-1, i+h)] with h = windowSize / 2; the window contains i and is the full 2h+1 samples away from the edges |
| Elevation.SmoothByThree | dist/content.js:59-78 | with window 3 an inner sample is the mean of itself and its two neighbours, an end sample the mean of itself and its one neighbour |
| Elevation.SmoothStaysInRange | dist/content.js:59-78 | if every input lies in [lo, hi] so does every smoothed sample |
| WindowScan.ScanFrom | dist/content.js:91-117 | from any loop state satisfying the scan invariant the remaining scan returns the best window, or nothing exactly when no candidate has positive VAM |
| WindowScan.Scan | src/background.js:227-255 | the search's answer is the best candidate: positive VAM because maxVAM starts at 0, maximal, and strictly better than every earlier candidate; None iff no candidate has positive VAM |
| WindowScan.ScanRow | dist/content.js:92-116 | the inner loop with its break takes the scan from the start of row i to the start of row i + 1 |
| WindowScan.ScanLoops | dist/content.js:91-117 | the two nested loops with break compute the same answer as the specification, and maxVAM ends as the answer's VAM or 0 |
| WindowScan.BreakIsSafe | dist/content.js:115 | if a break in row a implies no later window of row a qualifies, every qualifying window is scanned |
| WindowScan.ScanIgnoresSafeBreak | dist/content.js:115 | such a break never changes the answer: the scan with it equals the scan without it |
| WindowScan.BestIsUnique | dist/content.js:102-103 | strict improvement makes the best window unique |
| WindowScan.SoleCandidateIsBest | dist/content.js:91-117 | a search whose only accepted window is scanned and has positive VAM answers with that window |
| ContentSearch.FindBestVamByTime | dist/content.js:81-120 | the null record (duration = target) iff nothing qualifies; otherwise the best window with time in band, smoothed climb >= 5 m, and its rounded VAM, climb, duration and indices |
| ContentSearch.TimeBreakIsSafe | dist/content.js:115 | with non-decreasing time every qualifying window is scanned and the break does not change the answer |
| ContentSearch.FindBestVamByAscent | dist/content.js:123-162 | the null record (all zero) iff nothing qualifies; otherwise the best window with smoothed climb in band, at least 90 % of the target, positive time, and its record |
| ContentSearch.AscentBreakIsSafe | dist/content.js:157 | on every input the by-ascent break skips no qualifying window and does not change the answer |
| ContentSearch.BestByDistance | dist/content.js:168-207 | the null record carrying the target distance iff nothing qualifies; otherwise the best window with distance in band, climb >= 5 m, positive time, and its record including the rounded distance |
| ContentSearch.FindBestVamByDistance | dist/content.js:165-208 | a missing distance stream gives the null record with distance = target at once; otherwise as BestByDistance |
| ContentSearch.DistanceBreakIsSafe | dist/content.js:203 | with a non-decreasing distance stream the break skips no qualifying window and does not change the answer |
| BackgroundSearch.Outcome | src/background.js:226-255 | the record returned is the record of some best window, or the null record when no candidate has positive VAM |
| BackgroundSearch.AnswerIsUnique | src/background.js:226-255 | at most one record answers a search, although the records carry no indices |
| BackgroundSearch.FindBestVamByTime | src/background.js:226-256 | no indices and no distance; the null record (duration = target) when nothing qualifies; otherwise the record of a best window with time in band and raw net gain > 0, which may round to the same values as the null record |
| BackgroundSearch.TimeBreakIsSafe | src/background.js:251 | with non-decreasing time the break skips no qualifying window and does not change the answer |
| BackgroundSearch.FindBestVamByAscent | src/background.js:258-288 | the all-zero null record when nothing qualifies; otherwise the record of a best window with net gain in band and positive time, which may round to the same values as the null record |
| BackgroundSearch.AscentBreakPrunes | src/background.js:283 | on e = [0, 20, 10] a window in the band is hidden by the break: the search returns the null record, the search without break finds (0, 2) |
| BackgroundSearch.FindBestVamByDistance | src/background.js:290-324 | a missing stream gives the all-zero null record with no distance; otherwise the record of a best window with distance in band, net gain > 0, positive time, and its rounded distance |
| BackgroundSearch.DistanceBreakIsSafe | src/background.js:319 | with a non-decreasing distance stream the break skips no qualifying window and does not change the answer |
| PersonalBests.NewBests | dist/content.js:426-439 | the reported new bests have exactly the modes of the results and exactly the replaced labels, each holding the effort, activity id and date |
| PersonalBests.MergeTable | dist/content.js:423-439 | one mode's merged table: replaced labels get the new record, all other labels keep their entry, a missing table starts empty |
| PersonalBests.MergeBests | dist/content.js:422-440 | every mode of the results gets a table; a result key holds the new record iff absent or strictly greater VAM, else the old one; every other key is unchanged |
| PersonalBests.MergeKeepsMaximum | dist/content.js:430-436 | after a merge each result key stores a VAM at least the result's and at least the previously stored one |
| PersonalBests.NothingReplacedAfterMerge | dist/content.js:430 | merging the same results right after a merge replaces nothing |
| PersonalBests.MergeIsIdempotent | dist/content.js:422-440 | a second merge of the same results, under any id and date, leaves the store unchanged |
| ContentActivity.ModeResults | dist/content.js:381-387 | one mode's results have exactly the configured labels as keys |
| ContentActivity.ProcessActivity | dist/content.js:374-414 | custom targets replace the built-in ones when present; key time/ascent iff enabled; key distance iff enabled and the stream is present; each mode's keys are its configured labels |
| ContentActivity.ProcessActivityUsesLastTarget | dist/content.js:381-387 | each entry is the mode's search for the target of the last configuration with that label |
| ContentActivity.LabelsOfDefaults | dist/content.js:12-36 | the built-in labels are 1-60 min, 100-1500 m and 1-10 km |
| ContentActivity.DefaultSettingsSearchEveryMode | dist/content.js:345-355 | with fresh-install settings time and ascent are searched, and distance iff a stream is present |
| ContentActivity.DefaultSettingsSearchEveryTarget | dist/content.js:345-355 | with fresh-install settings each mode has one entry per built-in target |
| ContentActivity.UpdatePersonalBests | dist/content.js:417-447 | flag iff some key is replaced; store written iff flag; new bests exactly the replaced keys and present in the store; every reported and every changed entry was replaced (absent, or strictly greater VAM); the store is the merge and the reported bests are the replaced keys |
| ContentActivity.UpdateKeepsTiedBest | dist/content.js:426-437 | a stored best that the result ties or undercuts is kept unchanged and not reported as new |
| ContentActivity.UpdateIsIdempotent | dist/content.js:417-447 | the same results a second time report no new best, write nothing, report empty tables and leave the store unchanged |
| BackgroundActivity.ModePeaks | src/background.js:182-188 | one mode's peaks have exactly the configured labels as keys |
| BackgroundActivity.CalculatePeaks | src/background.js:176-218 | no built-in fallback: missing custom targets fail iff some mode would run; otherwise the same mode gating and label keys as the current engine |
| BackgroundActivity.CalculatePeaksUsesLastTarget | src/background.js:182-188 | each entry is the search for the target of the last configuration with that label |
| BackgroundActivity.UpdatePersonalBests | src/background.js:364-400 | flag iff some key is replaced; when none is, new bests are reported empty and nothing is written; otherwise the replaced keys are reported and the merged store written; only replaced entries change, and every reported entry was replaced; the store is the merge |
| BackgroundActivity.ProcessActivity | src/background.js:115-144 | a missing stream or a failure reports no new best and keeps the store; the flag holds iff the peaks replace some entry, and then the store is the merge |
| BackgroundActivity.ProcessActivityIsIdempotent | src/background.js:115-144 | processing the same activity twice in a row finds nothing new the second time and keeps the store |
| TestVectors.SimpleClimb | tests/unit/cumulative-elevation.test.js:42-48 | a steady 10 m/step climb gains 50 m, equal to the net change |
| TestVectors.ClimbWithSmallDescent | tests/unit/cumulative-elevation.test.js:50-56 | a climb with one dip gains 50 m |
| TestVectors.DescentsAreIgnored | tests/unit/cumulative-elevation.test.js:58-70 | gain 30 m, net 20 m, gain above net |
| TestVectors.FlatAndDescentClimbNothing | tests/unit/cumulative-elevation.test.js:72-84 | a flat segment and a pure descent gain 0 |
| TestVectors.MixedTerrain | tests/unit/cumulative-elevation.test.js:86-98 | gain 60 m against net 50 m |
| TestVectors.Subsegment | tests/unit/cumulative-elevation.test.js:100-107 | range (2, 5) of a steady climb gains 30 m |
| TestVectors.SmoothNoisyStream | tests/unit/cumulative-elevation.test.js:111-120 | length kept; first sample (100+105)/2; third sample (105+102+107)/3 |
| TestVectors.SmoothShortStream | tests/unit/cumulative-elevation.test.js:122-127 | a two-sample stream comes back unchanged |
| TestVectors.SmoothZigZag | tests/unit/cumulative-elevation.test.js:129-131 | the zig-zag smooths to the staircase 105, 105, 110, 110, 115, 115, 120, 120 |
| TestVectors.SmoothingReducesNoise | tests/unit/cumulative-elevation.test.js:129-147 | the mean absolute step change after smoothing is at most 1.1 times the input's |
| TestVectors.SmoothingKeepsTrend | tests/unit/cumulative-elevation.test.js:149-162 | last smoothed sample above the first; every sample within the input's [min, max], tighter than the tests' 5 m margin |
| TestVectors.CumulativeVamExceedsNetVam | tests/unit/cumulative-elevation.test.js:166-187 | gain 50 m, net 40 m, 600 m/h over 300 s, above the net VAM |
| TestVectors.PureClimbSameVam | tests/unit/cumulative-elevation.test.js:189-204 | on a pure climb cumulative and net VAM agree |
| TestVectors.RealisticClimb | tests/unit/cumulative-elevation.test.js:206-231 | gain 150 m against net 100 m; 450 against 300 m/h; ratio 1.5 |
| Scenarios.SteadyClimbCurrentEngine | dist/content.js:81-120 | steady climb 100-150 m at 60 s sampling, 300 s target: window (0, 5), smoothed gain 40, duration 300, VAM 480 |
| Scenarios.SteadyClimbOlderEngine | src/background.js:226-256 | the same input in the older engine: net gain 50, duration 300, VAM 600 |
| Scenarios.SwitchbackCurrentEngine | dist/content.js:123-162 | switchback 100..140 searched for 40 m: the current engine returns the null record, whatever the timing |
| Scenarios.SwitchbackOlderEngine | src/background.js:258-288 | the same input in the older engine: net gain 40 over (0, 5), VAM 480 |
| Scenarios.FlatFindsNoAscent | dist/content.js:123-162 | a flat stream searched for 100 m of ascent returns the all-zero null record |
| Scenarios.NoDistanceStream | dist/content.js:166 | without a distance stream the current engine returns zeros with distance = target, the older engine zeros with no distance (src/background.js:291) |

## Left out

- Network, retry and stream-fetching code (`getActivityData`, `fetchActivityStreams`, `fetchAthleteActivities`) is I/O. `BackgroundActivity.ProcessActivity` takes the fetched stream as an `Option`, and a failed fetch is `None`.
- Bulk sync (`syncAllActivities`, `sleep`, the message listener) is asynchronous sequencing and rate limiting over the modelled per-activity step.
- The leaderboard metadata saved after a new best (`saveActivityMetadata`) is a storage side effect unrelated to the merge.
- Storage wrappers (`loadSettings`, `loadPersonalBests`, `savePersonalBests`) are I/O. Settings and the store are inputs, and `written` in the update result is what would be saved. The fresh-install defaults are `ContentActivity.DefaultSettings`.
- The timestamp `new Date().toISOString()` is a parameter. The source reads the clock once per replaced key; the model uses one date per call.
- DOM scraping and rendering (`extractActivityName`, `extractSportType`, `findInjectionPoint`, the display widgets, `observePageChanges`, `init`) and `formatDuration` are UI.
- `dist/popup.js`, `dist/options.js` and `dist/leaderboard.js` are UI pages.
- The build, packaging and signing scripts and their tests are tooling.
- IEEE-754 arithmetic: all arithmetic is over exact reals. `0.9`, `0.1` and `1 + tolerance` are exact, and NaN never arises.
- ContentSearch.FindBestVamByTime, ContentSearch.FindBestVamByAscent, BackgroundSearch.FindBestVamByTime and BackgroundSearch.FindBestVamByAscent require the time stream to be as long as the elevation stream. The same holds for the distance searches and the distance stream. In the source a shorter stream reads `undefined`, and the NaN differences never qualify. A longer stream is accepted by the source, which reads only its first `elevation.length` samples; that is the same search on the prefix, so it is not modelled separately.
- The by-ascent guard's gap, where a climb between 90 % of the target and the lower edge of the band is neither accepted nor breaks, is kept as written and not changed.
- A renamed label leaves the old entry in the store. This is kept as written: the merge never deletes keys.
