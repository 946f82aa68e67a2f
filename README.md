# MindEaze in Dafny

MindEaze is a small in-browser wellness app. This project models its logic:

- **`DataStore`**: the record store in `src/services/dataService.ts`. It keeps
  six keyed collections in `localStorage`: moods, journal entries, saved
  prompts, favourites, settings and the statistics snapshot. It provides:
  - append, upsert-by-id and delete-by-id;
  - the favourites toggle;
  - settings merged over defaults;
  - derived statistics: the day streak and the average mood;
  - export, import and clear.
- **`MoodChart`**: the mood-trend screen. It buckets moods by day over a 7- or
  30-day window, averages the buckets, classifies the trend and picks a
  colour band for each bar.
- **`Breathing`**: the breathing-session state machine. It covers phase
  cycling (hold2 is skipped for 4-7-8), the cycle counter, the per-second
  countdown, reset, and the duration and pattern pickers.
- **`MusicPlayer`**: the player. It covers:
  - the 60-track catalogue and the genre filter;
  - next/previous wrap-around and the repeat-mode cycle;
  - the end-of-track decision;
  - seeking and the clock;
  - favourites kept in storage.
- **`Journal`**: the journal screen, with:
  - newest-first loading;
  - case-insensitive search;
  - the editor, which trims both texts and keeps the id when editing;
  - delete with a one-step undo.
- **`MoodTracker`**: the check-in screen. It looks up an emoji's value,
  falling back to 3, and submits a mood entry.
- **`Header`**: the greeting by hour.
- **`Builtins`**: the JavaScript built-ins the code relies on, as
  functions on sequences:
  - `filter`, `find`, `findIndex`, `includes`;
  - `trim` with the ECMAScript whitespace set;
  - ASCII `toLowerCase`;
  - number-to-string and `padStart(2, '0')`.

`localStorage` is a class whose field is a map from the six keys to typed
values, so no JSON is involved. A `WellTyped` invariant ties each key to its
kind of value. The surrounding calls become parameters:
- the clock becomes a `Timestamp(day, instant)`;
- generated ids become `id`/`freshId`;
- `Math.random` becomes `pick`;
- `window.confirm` becomes `confirmed`.

Each React component whose state changes step by step is a class. Its fields
are the component's `useState` variables. Each handler or timer callback is
a method, and each method's `ensures` gives the whole new state. The pure
parts are functions with lemmas.

## Model

| member | source | states |
|---|---|---|
| Builtins.Filter | src/services/dataService.ts:78 | `Array.prototype.filter`: the result is no longer than the input and every element passes; nothing is dropped exactly when every input passes |
| Builtins.FilterSubset | src/components/MoodChart.tsx:88 | every element kept by a filter comes from the input |
| Builtins.FilterKeeps | src/components/MoodChart.tsx:88 | every input element that passes is kept |
| Builtins.FilterAppend | src/components/MusicPlayer.tsx:527-531 | filtering a concatenation filters each part, in order |
| Builtins.RemoveKeyFacts | src/services/dataService.ts:76-85 | removing an id changes the length iff some element had it; no element with it is left; every other element stays; with no match the list is unchanged |
| Builtins.RemoveKeyUnique | src/services/dataService.ts:114-123 | when only element `i` has its id, removing that id deletes exactly position `i` |
| Builtins.FindIndex | src/services/dataService.ts:95 | `findIndex`: -1 iff no element matches; otherwise the first matching position |
| Builtins.Find | src/components/Journal.tsx:61 | `find`: none iff no element matches; otherwise the element at the first matching position |
| Builtins.FindDistinct | src/components/MoodTracker.tsx:25 | when keys are distinct, looking up an element's key finds that element |
| Builtins.ToggleFacts | src/services/dataService.ts:151-161 | after a toggle the id is present iff it was absent; an absent id is appended at the end; a present id has all its occurrences removed; other ids are unaffected |
| Builtins.ToggleTwiceRestores | src/services/dataService.ts:151-161 | toggling an absent id twice gives back the original list |
| Builtins.TrimStartFacts | src/components/Journal.tsx:30 | left trim drops exactly a whitespace prefix and stops at the first non-whitespace character |
| Builtins.TrimEndFacts | src/components/Journal.tsx:30 | right trim drops exactly a whitespace suffix and stops at the last non-whitespace character |
| Builtins.TrimFacts | src/components/Journal.tsx:30 | `trim()` gives a slice of the input with no whitespace at either end; it is empty iff the input is all whitespace |
| Builtins.TrimIdempotent | src/components/MoodTracker.tsx:28 | trimming twice gives the same as trimming once |
| Builtins.ToLower | src/components/Journal.tsx:83-86 | lower-casing keeps the length and maps each character |
| Builtins.IncludesEmpty | src/components/Journal.tsx:83-86 | every string includes the empty string |
| Builtins.NatToString | src/components/BreathingExercise.tsx:156 | the decimal form of a number is non-empty and made of digits, with no leading zero |
| Builtins.NatToStringRoundTrip | src/components/BreathingExercise.tsx:156 | reading the decimal digits back gives the number |
| Builtins.PadStart2 | src/components/BreathingExercise.tsx:156 | `padStart(2, '0')` gives exactly two characters: zeros, then the input |
| DataStore.KeyNamesDistinct | src/services/dataService.ts:46-53 | the six storage key names are pairwise distinct |
| DataStore.LocalStorage.SetItem | src/services/dataService.ts:65 | `setItem` replaces just that key and keeps the store well typed |
| DataStore.LocalStorage.RemoveItem | src/services/dataService.ts:271 | `removeItem` deletes just that key |
| DataStore.GettersReadTheirKey | src/services/dataService.ts:70-73 | `MoodEntries`, `JournalEntries`, `SavedPrompts` and `Favorites` (also lines 109-112, 140-143, 146-149) each read only their own key: a write changes only that getter, which returns what was written; a removed key reads as `[]` |
| DataStore.UserSettingsDefaults | src/services/dataService.ts:164-175 | `UserSettingsOf`: with nothing stored the settings are exactly (true, "20:00", light, 0.7, 3); otherwise each stored field overrides its default and each missing field is backfilled |
| DataStore.MergeFacts | src/services/dataService.ts:177-183 | `MergeSettings`, the spread at line 179: merging a full record gives that record; merging the same update twice equals merging once; an empty update changes nothing |
| DataStore.DataService.UpdateUserSettings | src/services/dataService.ts:177-183 | the given fields overwrite the current settings; the full record is stored; a following get returns it |
| DataStore.RunEndingAtFacts | src/services/dataService.ts:199-211 | the run of days ending at a day has an entry on each day, misses the day before it, and never exceeds the number of entry days |
| DataStore.CalculateStreak | src/services/dataService.ts:190-214 | the `while (true)` walk back from today returns the recursive streak and terminates |
| DataStore.StreakIsLongestRun | src/services/dataService.ts:190-214 | `Streak`, the specification of `calculateStreak`: today, today-1, …, today-(k-1) each have an entry and today-k does not, for k the streak; k is at most the number of distinct entry days |
| DataStore.StreakUnique | src/services/dataService.ts:190-214 | the streak is the only k with that property; it is 0 when today has no entry, and so also when there are no moods |
| DataStore.StreakScenarios | src/services/dataService.ts:190-214 | entries on today, yesterday and the day before give 3; a missing yesterday gives 1 |
| DataStore.SumValuesBounds | src/services/dataService.ts:218 | the `reduce` sum of n values each in [lo, hi] lies in [lo·n, hi·n] |
| DataStore.AverageMoodInRange | src/services/dataService.ts:216-220 | `AverageMood`: the average of values in 1..5 lies in 1..5, and average × count = sum |
| DataStore.AverageScenarios | src/services/dataService.ts:216-220 | the values 5, 4 and 3 average to 4; no moods average to 0 |
| DataStore.StatsAfterSavedMood | src/services/dataService.ts:222-229 | `StatsOf`, the record `getUserStats` builds: after a mood is saved it is `lastMoodEntry`, the total grows by one, and an entry dated today makes the streak at least 1 |
| DataStore.DataService.GetUserStats | src/services/dataService.ts:186-230 | the totals are the collection lengths; the streak k has an entry on today, …, today-(k-1) and none on today-k; the last entries exist iff their collection is non-empty; the average is `AverageMood` |
| DataStore.DataService.UpdateUserStats | src/services/dataService.ts:232-238 | only the statistics key is rewritten, with the current statistics |
| DataStore.DataService.SaveMoodEntry | src/services/dataService.ts:56-69 | exactly one entry, the caller's fields plus the id, is appended at the end; earlier entries keep their order; then the statistics are refreshed |
| DataStore.DataService.DeleteMoodEntry | src/services/dataService.ts:76-85 | returns true iff some mood had the id; then every mood with it is removed and the rest keep their order; on false nothing is written |
| DataStore.UpsertFacts | src/services/dataService.ts:94-101 | `Upsert`: with a matching id the first match is overwritten in place and the length is unchanged; otherwise the entry is appended |
| DataStore.UpsertAfterRemove | src/services/dataService.ts:94-101 | re-saving an entry whose id was just removed appends it at the end |
| DataStore.DataService.SaveJournalEntry | src/services/dataService.ts:88-107 | `JournalFromDraft` (lines 89-92): the entry keeps its own id if it has one and otherwise takes the fresh id; it is upserted into the journal and the statistics are refreshed |
| DataStore.DataService.DeleteJournalEntry | src/services/dataService.ts:114-123 | as for moods, on the journal collection |
| DataStore.DataService.SaveUpliftPrompt | src/services/dataService.ts:126-138 | the prompt with its id is appended to the saved prompts; nothing else is written |
| DataStore.DataService.ToggleFavorite | src/services/dataService.ts:151-161 | returns the new membership; the stored list is the toggled list |
| DataStore.DataService.ExportUserDataNow | src/services/dataService.ts:241-250 | `ExportUserData`: the export carries every getter's current result, all five collections present, dated now |
| DataStore.Imported | src/services/dataService.ts:252-258 | the writes of `importUserData` keep the store well typed |
| DataStore.ImportWritesOnlyPresent | src/services/dataService.ts:252-258 | import writes a key iff the export carries its field; an absent field leaves the stored value unchanged |
| DataStore.DataService.ImportUserData | src/services/dataService.ts:252-266 | the present fields are written, the statistics are refreshed, and the result is true |
| DataStore.ExportImportRoundTrip | src/services/dataService.ts:241-266 | importing a fresh export leaves every getter's result, and the statistics, unchanged |
| DataStore.DataService.ClearAllData | src/services/dataService.ts:269-273 | all six keys are removed, so clearing twice is the same as clearing once |
| MoodChart.DaysInRange | src/components/MoodChart.tsx:50-62 | `WindowLength`: 7 (week) or 30 (month) consecutive days, oldest first, ending today |
| MoodChart.ProcessChartData | src/components/MoodChart.tsx:64-85 | one bucket per day, built by `BucketFor`; `entries` counts the moods of that day; `value` is their average, and is null iff `entries` is 0 |
| MoodChart.DayEntriesFacts | src/components/MoodChart.tsx:68-71 | a day's entries are exactly the moods dated that day; there are none iff no mood falls on it |
| MoodChart.BucketValuesInRange | src/components/MoodChart.tsx:73-75 | over mood values in 1..5, every non-null bucket value lies in 1..5 |
| MoodChart.ValidData | src/components/MoodChart.tsx:88 | every bucket kept has a value |
| MoodChart.ValidDataMembers | src/components/MoodChart.tsx:88 | the valid buckets are exactly the non-null buckets; all are kept iff none is null |
| MoodChart.ValidDataChronological | src/components/MoodChart.tsx:88 | filtering keeps the buckets in chronological order |
| MoodChart.ChartChronological | src/components/MoodChart.tsx:64-88 | the chart of the window is in chronological order |
| MoodChart.GetAverageMood | src/components/MoodChart.tsx:192-196 | null iff there are no valid buckets |
| MoodChart.MeanBucketValueBounds | src/components/MoodChart.tsx:192-196 | the mean of bucket averages lies within the buckets' bounds |
| MoodChart.DaysWeighEqually | src/components/MoodChart.tsx:192-196 | three 5s on one day and a 1 on the next give a chart average of 3, while the stored average is 4: each day weighs the same |
| MoodChart.ChartSummaryDefined | src/components/MoodChart.tsx:192-196 | the chart average exists iff some mood falls in the window |
| MoodChart.GetTrend | src/components/MoodChart.tsx:198-212 | null iff there are fewer than 2 valid buckets |
| MoodChart.TrendSlices | src/components/MoodChart.tsx:201-202 | `Recent` and `Earlier`: `recent` is the last min(3, n) buckets and `earlier` the first max(1, n-3); they partition the buckets for n ≥ 4; for n = 2 or 3 `earlier` is the first bucket, which is also in `recent` |
| MoodChart.ClassifyRanges | src/components/MoodChart.tsx:207-211 | `Classify`: diff > 0.2 gives improving, diff < -0.2 declining, anything else stable; exactly one holds |
| MoodChart.TrendScenario | src/components/MoodChart.tsx:198-212 | a week logged 3, 3, –, 4, 5, 5 (with one gap and one day unlogged) is improving |
| MoodChart.BandFacts | src/components/MoodChart.tsx:114-129 | `BandOf`, `BackgroundColor` and `BorderColor`: null gives the grey band; a value gives exactly one of the bands ≥4.5, ≥3.5, ≥2.5, ≥1.5 and below; bands rise with the value; distinct bands have distinct fill and border colours |
| Breathing.PhaseIndex | src/components/BreathingExercise.tsx:120-121 | `phases.indexOf` finds a phase at its own position |
| Breathing.AdvanceFacts | src/components/BreathingExercise.tsx:118-133 | `Advance`, with `PhaseSeconds` from the pattern table: an advance counts a cycle iff it enters inhale; the phase entered always lasts a positive number of seconds; 4-7-8 never enters hold2 |
| Breathing.CycleOrder | src/components/BreathingExercise.tsx:120-132 | box breathing runs inhale→hold→exhale→hold2→inhale; 4-7-8 runs inhale→hold→exhale→inhale |
| Breathing.OneCycleCountsOnce | src/components/BreathingExercise.tsx:22-55 | from inhale, one full cycle (4 phases for box, 3 for 4-7-8) returns to inhale for the first time and counts exactly one cycle; its phases last 16 s (box) or 19 s (4-7-8) |
| Breathing.ProgressAfterClosed | src/components/BreathingExercise.tsx:111-116 | `ProgressStep`: after k updates of 50 ms a phase of `secs` seconds is at 5k/secs percent |
| Breathing.PhaseLastsItsSeconds | src/components/BreathingExercise.tsx:111-118 | the phase reaches 100% exactly at update 20·secs, i.e. after `secs` seconds |
| Breathing.CircleScale | src/components/BreathingExercise.tsx:159-166 | the circle scale lies in [0.5, 1]; inhale starts at 0.5 and exhale starts at 1 |
| Breathing.CircleScaleMonotone | src/components/BreathingExercise.tsx:159-166 | the circle grows during inhale and shrinks during exhale |
| Breathing.PadStart2Value | src/components/BreathingExercise.tsx:156 | padding keeps the digits and their value |
| Breathing.FormatTimeReadsBack | src/components/BreathingExercise.tsx:153-157 | `FormatTime`: `formatTime(s)` is digits, a colon, then two digits; the seconds part is below 60 and mins·60 + secs = s |
| Breathing.Session.constructor | src/components/BreathingExercise.tsx:12-18 | the initial state: inactive, box, 3 minutes, 180 s left, inhale, no progress, no cycles |
| Breathing.Session.CountdownTick | src/components/BreathingExercise.tsx:64-86 | a tick (only while active with time left) takes one second off; the session stops exactly when the time reaches 0; nothing else changes |
| Breathing.Session.ProgressTick | src/components/BreathingExercise.tsx:104-139 | an update adds the phase's step while below 100%; otherwise it moves to the next phase with progress 0 and counts a cycle when the advance rule says so |
| Breathing.Session.Toggle | src/components/BreathingExercise.tsx:141-143 | flips `isActive`; starting restarts the phase progress from 0 |
| Breathing.Session.Reset | src/components/BreathingExercise.tsx:145-151 | inactive, the full duration left, inhale, progress 0 and cycles 0; pattern and duration kept |
| Breathing.Session.SetDuration | src/components/BreathingExercise.tsx:201-205 | a duration button (only while inactive) sets the duration; the effect that resets the time left to duration·60 runs only when the duration changes |
| Breathing.Session.SetBreathingType | src/components/BreathingExercise.tsx:181-184 | a pattern button (only while inactive) changes only the pattern |
| MusicPlayer.InGenre | src/components/MusicPlayer.tsx:35-155 | each catalogue block is its rows tagged with the block's genre |
| MusicPlayer.Playlist | src/components/MusicPlayer.tsx:527-531 | the playlist, which `Player.CurrentPlaylist` shows: every listed track matches the selected genre case-insensitively, unless the genre is "all" |
| MusicPlayer.FilteredTracksByGenre | src/components/MusicPlayer.tsx:527-531 | "all" yields the whole 60-track catalogue; each other genre yields exactly its own block, in catalogue order |
| MusicPlayer.SelectBlock | src/components/MusicPlayer.tsx:527-531 | over any four single-genre blocks, a named genre selects exactly its block |
| MusicPlayer.CatalogPlaylists | src/components/MusicPlayer.tsx:526-531 | every listed genre has a non-empty playlist (15 tracks, 60 for "all"), so the modulus is never 0 |
| MusicPlayer.NextIndex | src/components/MusicPlayer.tsx:554 | (i+1) mod n wraps the last index to 0 and steps otherwise |
| MusicPlayer.PrevIndex | src/components/MusicPlayer.tsx:559 | (i-1+n) mod n wraps 0 to the last index and steps back otherwise |
| MusicPlayer.NextPrevInverse | src/components/MusicPlayer.tsx:549-560 | both stay in [0, n) and are mutual inverses |
| MusicPlayer.NextVisitsInOrder | src/components/MusicPlayer.tsx:554 | k presses of next from track 0 reach track k, for k < n |
| MusicPlayer.NextWrapsAround | src/components/MusicPlayer.tsx:554 | n presses of next return to the same track |
| MusicPlayer.RepeatCycles | src/components/MusicPlayer.tsx:732-734 | `NextRepeat`: off→all→one→off: two presses never return to the start, three always do |
| MusicPlayer.FormatTrackTimeWholeSeconds | src/components/MusicPlayer.tsx:633-637 | `FormatTrackTime`: the track clock of a time is the breathing clock of its whole seconds |
| MusicPlayer.SeekRoundTrip | src/components/MusicPlayer.tsx:615-622 | `SeekTime` and `SliderValue`: seeking to a percent puts the slider back at that percent and stays within the track |
| MusicPlayer.Player.constructor | src/components/MusicPlayer.tsx:19-28 | the initial state, with the favourites read from storage |
| MusicPlayer.Player.NextTrack | src/components/MusicPlayer.tsx:549-556 | shuffle takes the random pick; otherwise the index wraps forward; nothing else changes |
| MusicPlayer.Player.PrevTrack | src/components/MusicPlayer.tsx:558-560 | the index wraps back; nothing else changes |
| MusicPlayer.Player.HandleEnded | src/components/MusicPlayer.tsx:568-577 | "one" restarts the same track from 0; "all", or any track but the last, advances as next does; the last track under "off" stops playback on the same index |
| MusicPlayer.Player.TogglePlay | src/components/MusicPlayer.tsx:590-600 | flips `isPlaying` only |
| MusicPlayer.Player.AudioPlaying | src/components/MusicPlayer.tsx:815-816 | the audio element's play/pause events set `isPlaying` |
| MusicPlayer.Player.AudioProgress | src/components/MusicPlayer.tsx:566-567 | the time and duration events set only those fields |
| MusicPlayer.Player.Seek | src/components/MusicPlayer.tsx:615-622 | the new time is the percent of the duration, and the slider shows that percent |
| MusicPlayer.Player.ToggleMute | src/components/MusicPlayer.tsx:602-608 | flips `isMuted` only |
| MusicPlayer.Player.ShownVolume | src/components/MusicPlayer.tsx:756 | the slider shows 0 when muted and the volume otherwise |
| MusicPlayer.Player.SetVolume | src/components/MusicPlayer.tsx:610-613 | sets the volume only |
| MusicPlayer.Player.ToggleShuffle | src/components/MusicPlayer.tsx:702 | flips shuffle only |
| MusicPlayer.Player.CycleRepeatMode | src/components/MusicPlayer.tsx:732-734 | the repeat button moves to the next mode of the cycle |
| MusicPlayer.Player.SelectGenre | src/components/MusicPlayer.tsx:533-536 | sets the genre; the effect resets to track 0 only when the genre changed |
| MusicPlayer.Player.SelectTrack | src/components/MusicPlayer.tsx:770 | clicking a playlist row selects that index |
| MusicPlayer.Player.ToggleFavorite | src/components/MusicPlayer.tsx:624-631 | the favourites are toggled as in the store; the id is present iff it was absent; the stored list equals the new state |
| Journal.SortNewestFirst | src/components/Journal.tsx:22-27 | the loaded list has as many entries as storage; its order and contents are stated by the two lemmas below |
| Journal.InsertNewestSorted | src/components/Journal.tsx:24-26 | inserting into a newest-first list keeps it newest first |
| Journal.InsertNewestMultiset | src/components/Journal.tsx:24-26 | inserting adds exactly that entry |
| Journal.SortNewestFirstFacts | src/components/Journal.tsx:22-27 | the loaded list is newest first and a rearrangement of the stored entries: none lost, none added |
| Journal.SortKeepsSorted | src/components/Journal.tsx:24-26 | an already newest-first list is left as it is (the sort is stable) |
| Journal.FilteredEntries | src/components/Journal.tsx:83-86 | the list `JournalView.Shown` displays: every entry shown satisfies `Matches`, the search |
| Journal.FilteredEntriesFacts | src/components/Journal.tsx:83-86 | an entry is shown iff its lower-cased title or content includes the lower-cased term; an empty term shows every entry, in order |
| Journal.IncludesTransitive | src/components/Journal.tsx:83-86 | `includes` is transitive |
| Journal.SearchNarrows | src/components/Journal.tsx:83-86 | extending the search term can only hide entries |
| Journal.DraftFor | src/components/Journal.tsx:32-34 | both texts are trimmed; an edit keeps the entry's id, timestamp and mood; a new entry is dated now and has no id or mood |
| Journal.EditUnchangedKeepsEntry | src/components/Journal.tsx:32-33 | editing an entry whose texts are already trimmed and saving it stores the same entry |
| Journal.UndoRestoresEntries | src/components/Journal.tsx:75-81 | deleting the only entry with an id and re-saving it brings it back at the end; the multiset of entries is restored |
| Journal.JournalView.constructor | src/components/Journal.tsx:10-20 | mounting loads the stored entries newest first, with an empty editor and search |
| Journal.JournalView.LoadEntries | src/components/Journal.tsx:22-27 | the list is the stored entries, newest first |
| Journal.JournalView.StartWriting | src/components/Journal.tsx:170 | opens the editor and changes nothing else |
| Journal.JournalView.SetTitle | src/components/Journal.tsx:134 | the title box sets the title and nothing else |
| Journal.JournalView.SetContent | src/components/Journal.tsx:146 | the content box sets the content and nothing else |
| Journal.JournalView.SetSearchTerm | src/components/Journal.tsx:183 | the search box sets the search term and nothing else |
| Journal.JournalView.StartEditing | src/components/Journal.tsx:45-50 | the editor opens on the entry with its title and content |
| Journal.JournalView.CancelWriting | src/components/Journal.tsx:52-57 | closes and empties the editor |
| Journal.JournalView.SaveEntry | src/components/Journal.tsx:29-43 | unless `Saveable` (a non-blank trimmed title and content) nothing changes; otherwise the draft is upserted and the statistics refreshed, the editor closes and the list reloads |
| Journal.JournalView.DeleteEntry | src/components/Journal.tsx:59-73 | an id on the list is remembered (the first entry with it) and removed from storage, which is rewritten only if storage held it and keeps every other key; an unknown id changes nothing |
| Journal.JournalView.UndoDelete | src/components/Journal.tsx:75-81 | the remembered entry is re-saved under its id and the statistics refreshed, with every other key kept; when that id is absent it returns at the end; the memory is cleared |
| Journal.JournalView.DeleteEditing | src/components/Journal.tsx:104-109 | the editor's delete acts only when confirmed, and otherwise leaves storage and the editor's texts alone; it then deletes the edited entry, with the same whole-store result as `DeleteEntry`, and closes the editor |
| MoodTracker.MoodValue | src/components/MoodTracker.tsx:25 | the looked-up value always lies in 1..5 |
| MoodTracker.MoodEmojisDistinct | src/components/MoodTracker.tsx:14-20 | the five emojis are distinct |
| MoodTracker.MoodRowValue | src/components/MoodTracker.tsx:14-20 | the table's values run 5, 4, 3, 2, 1 |
| MoodTracker.MoodValueTable | src/components/MoodTracker.tsx:14-25 | over the table `Moods`: each emoji gives its own row's value; any other text gives the fallback 3 |
| MoodTracker.MoodValueInjective | src/components/MoodTracker.tsx:14-25 | distinct emojis give distinct values, so the fallback fires only on a miss |
| MoodTracker.EntryFor | src/components/MoodTracker.tsx:27-32 | the saved mood is the selected emoji, the note is trimmed, the time is now, and the value lies in 1..5 |
| MoodTracker.MoodTrackerView.constructor | src/components/MoodTracker.tsx:9-12 | the screen opens with no mood, an empty note and no confirmation |
| MoodTracker.MoodTrackerView.SetSelectedMood | src/components/MoodTracker.tsx:82 | a mood button selects its emoji and changes nothing else |
| MoodTracker.MoodTrackerView.SetNote | src/components/MoodTracker.tsx:112 | the note box sets the note and changes nothing else |
| MoodTracker.MoodTrackerView.HandleSubmit | src/components/MoodTracker.tsx:22-38 | with no mood selected nothing happens; otherwise exactly that entry is appended to the stored moods and the confirmation shows |
| MoodTracker.SubmittedValuesInRange | src/components/MoodTracker.tsx:25 | moods built by submissions keep every value, and so their average, in 1..5 |
| Header.GreetingRanges | src/components/Header.tsx:8-12 | `Greeting`: hour < 12 gives "Good Morning", 12 ≤ hour < 17 "Good Afternoon", 17 ≤ hour "Good Evening"; each iff, so exactly one applies |
| Header.GreetingMonotone | src/components/Header.tsx:8-12 | as the hour rises the greeting only moves forward through morning, afternoon, evening |

## Left out

- JSON serialisation is not modelled. The store holds typed values, so a malformed stored string, which the getters do not catch, has no counterpart.
- Dates, time zones and day labels (`toDateString`, `startOfDay`, date-fns formatting) are not modelled. A timestamp is a day number plus an instant, and "today" is a parameter. The ISO `lastUpdated` and `exportDate` strings are kept as timestamps.
- Id generation by `Date.now()` is not modelled: ids are parameters. Ids are not claimed to be unique, because the code does not make them so.
- Timers and React effects are not modelled as such. Each interval tick, phase update and effect is an explicit method call. The 5-second `setTimeout` in `deleteEntry` is left out; its closure reads the `deletedEntry` of the render before the delete. So are MoodTracker's 2-second return to the previous screen and the audio element's own playback.
- `Math.random` for shuffle is the `pick` parameter. `window.confirm` is the `confirmed` parameter. The random journal prompt is not modelled.
- Floating-point behaviour is not modelled: averages, progress steps, the circle scale, volume and seek use exact `real`. In the 50 ms progress step, a 0-second phase divides by zero. JavaScript then gives Infinity, and the model gives "no step", which advances at the next update.
- A 4-7-8 session can sit in hold2. Pausing a box session during hold2 and switching the pattern leads there, and the next update leaves it at once, as in the code.
- `Breathing.Session.ProgressTick`: the rounding of repeated floating-point additions is not modelled, so with exact reals a phase lasts exactly 20·secs updates.
- `Builtins.ToLower`: only ASCII A–Z are folded. Full Unicode case mapping is not modelled.
- The storage quota error is not modelled, and neither is any other exception inside `importUserData`. The model's import always returns true.
- A `Partial<UserSettings>` whose field is present but `undefined` is not modelled. A field is either given or absent.
- The note box's `maxLength={500}` (src/components/MoodTracker.tsx:116) is enforced by the browser and is not modelled: the note setter accepts any text.
- Pattern names, instruction texts, track URLs and covers, Chart.js options and tooltips, and all JSX rendering are presentation.
- `src/components/UpliftPrompt.tsx`, `src/App.tsx`, `src/components/Dashboard.tsx`, `src/components/Navigation.tsx`, the service worker, the install prompt and the build configuration are not part of this model. `saveUpliftPrompt` itself is modelled.
- The player's `currentTrack` is reset by an effect after the render that changed the genre. The one render in between, with the old index on the new playlist, is not modelled; the reset happens in the same step as the change.
- `MusicPlayer.Player.TogglePlay`, `ToggleMute` and `Seek`: when the audio element is missing, these handlers return early. That case is not modelled because the element is always rendered.
- `Journal.JournalView.SaveEntry` and `MoodTracker.MoodTrackerView.HandleSubmit` change the screen's fields before the store write rather than after it. The write cannot fail in the model, so the order is not observable.
- `Array.prototype.sort` is modelled as a stable insertion sort on a sequence, not as an in-place sort of an array. The code sorts the freshly read array, which nothing else holds.
- The "earlier" slice of the trend: for 2 or 3 valid buckets it is the first bucket, which also lies in `recent`. The model follows the code here rather than "the buckets before the last three".
