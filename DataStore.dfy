/** The MindEaze record store (src/services/dataService.ts): a facade over the
    browser's key-value storage holding moods, journal entries, saved prompts,
    favourite track ids, settings and a write-only statistics cache.

    The browser storage is a `LocalStorage` object whose `items` map each of the
    six keys to a typed value, so no JSON is involved. Clocks and id generation
    are parameters: every timestamp is a `Timestamp` (a local calendar day number
    and an instant), and every new id is passed in by the caller. */
module DataStore {
  import opened Builtins

  /** A moment: its local calendar day (what `toDateString` and `startOfDay`
      compare) and its instant (what `getTime` returns). */
  datatype Timestamp = Timestamp(day: int, instant: int)

  datatype MoodEntry = MoodEntry(id: string, mood: string, note: string, timestamp: Timestamp, value: int)

  /** `Omit<MoodEntry, 'id'>`: a mood entry before the store gives it an id. */
  datatype NewMoodEntry = NewMoodEntry(mood: string, note: string, timestamp: Timestamp, value: int)
  {
    function WithId(id: string): MoodEntry
    {
      MoodEntry(id, mood, note, timestamp, value)
    }
  }

  datatype JournalEntry = JournalEntry(id: string, title: string, content: string, timestamp: Timestamp, mood: Option<string>)

  /** `Omit<JournalEntry, 'id'> | JournalEntry`: a journal entry that may or may
      not carry an id yet. */
  datatype JournalDraft = JournalDraft(id: Option<string>, title: string, content: string, timestamp: Timestamp, mood: Option<string>)

  /** The field `type` of the source is called `kind` here (`type` is a Dafny keyword). */
  datatype UpliftPrompt = UpliftPrompt(id: string, kind: string, title: string, content: string, savedAt: Timestamp)

  datatype NewUpliftPrompt = NewUpliftPrompt(kind: string, title: string, content: string, savedAt: Timestamp)
  {
    function WithId(id: string): UpliftPrompt
    {
      UpliftPrompt(id, kind, title, content, savedAt)
    }
  }

  datatype Theme = Light | Dark

  datatype UserSettings = UserSettings(notifications: bool, reminderTime: string, theme: Theme, musicVolume: real, breathingDuration: int)

  /** `Partial<UserSettings>`: each field present or absent. */
  datatype PartialSettings = PartialSettings(
    notifications: Option<bool>,
    reminderTime: Option<string>,
    theme: Option<Theme>,
    musicVolume: Option<real>,
    breathingDuration: Option<int>)

  datatype UserStats = UserStats(
    totalMoodEntries: nat,
    totalJournalEntries: nat,
    currentStreak: nat,
    averageMood: real,
    lastMoodEntry: Option<MoodEntry>,
    lastJournalEntry: Option<JournalEntry>)

  /** What `updateUserStats` writes: the statistics and the `lastUpdated` moment. */
  datatype StatsSnapshot = StatsSnapshot(stats: UserStats, lastUpdated: Timestamp)

  /** `UserDataExport`: every field optional. */
  datatype UserDataExport = UserDataExport(
    moods: Option<seq<MoodEntry>>,
    journals: Option<seq<JournalEntry>>,
    savedPrompts: Option<seq<UpliftPrompt>>,
    favorites: Option<seq<string>>,
    settings: Option<UserSettings>,
    exportDate: Option<Timestamp>)

  // ---------------------------------------------------------------------------
  // The storage medium
  // ---------------------------------------------------------------------------

  /** The six entries of `STORAGE_KEYS`. */
  datatype Key = MoodsKey | JournalsKey | SavedPromptsKey | FavoritesKey | SettingsKey | UserStatsKey

  /** The storage key string of each entry. */
  function KeyName(k: Key): string
  {
    match k
    case MoodsKey => "mindease_moods"
    case JournalsKey => "mindease_journals"
    case SavedPromptsKey => "mindease_saved_prompts"
    case FavoritesKey => "mindease_favorites"
    case SettingsKey => "mindease_settings"
    case UserStatsKey => "mindease_user_stats"
  }

  /** Distinct entries use distinct storage strings, so a map keyed by `Key`
      is the same store as one keyed by the strings. */
  lemma KeyNamesDistinct(k1: Key, k2: Key)
    ensures KeyName(k1) == KeyName(k2) ==> k1 == k2
  {
  }

  /** `Object.values(STORAGE_KEYS)`, in declaration order. */
  const AllKeys: seq<Key> := [MoodsKey, JournalsKey, SavedPromptsKey, FavoritesKey, SettingsKey, UserStatsKey]

  lemma AllKeysCovers(k: Key)
    ensures k in AllKeys
  {
  }

  /** The parsed value stored under a key. */
  datatype Value =
    | MoodsValue(moods: seq<MoodEntry>)
    | JournalsValue(journals: seq<JournalEntry>)
    | PromptsValue(prompts: seq<UpliftPrompt>)
    | FavoritesValue(ids: seq<string>)
    | SettingsValue(settings: PartialSettings)
    | StatsValue(snapshot: StatsSnapshot)

  /** The value shape each key holds. */
  predicate Fits(k: Key, v: Value)
  {
    match k
    case MoodsKey => v.MoodsValue?
    case JournalsKey => v.JournalsValue?
    case SavedPromptsKey => v.PromptsValue?
    case FavoritesKey => v.FavoritesValue?
    case SettingsKey => v.SettingsValue?
    case UserStatsKey => v.StatsValue?
  }

  type Items = map<Key, Value>

  /** Every stored value has the shape of its key. */
  predicate WellTyped(items: Items)
  {
    forall k :: k in items ==> Fits(k, items[k])
  }

  /** The browser's `localStorage`, restricted to the keys MindEaze uses. */
  class LocalStorage {
    var items: Items

    ghost predicate Valid()
      reads this
    {
      WellTyped(items)
    }

    constructor ()
      ensures Valid() && items == map[]
    {
      items := map[];
    }

    /** `localStorage.setItem(key, value)`. */
    method SetItem(k: Key, v: Value)
      requires Valid() && Fits(k, v)
      modifies this
      ensures Valid() && items == old(items)[k := v]
    {
      items := items[k := v];
    }

    /** `localStorage.removeItem(key)`. */
    method RemoveItem(k: Key)
      requires Valid()
      modifies this
      ensures Valid() && items == old(items) - {k}
    {
      items := items - {k};
    }
  }

  // ---------------------------------------------------------------------------
  // Getters: an absent key reads as an empty collection or the defaults
  // ---------------------------------------------------------------------------

  /** `getMoodEntries()`. */
  function MoodEntries(items: Items): seq<MoodEntry>
    requires WellTyped(items)
  {
    if MoodsKey in items then items[MoodsKey].moods else []
  }

  /** `getJournalEntries()`. */
  function JournalEntries(items: Items): seq<JournalEntry>
    requires WellTyped(items)
  {
    if JournalsKey in items then items[JournalsKey].journals else []
  }

  /** `getSavedPrompts()`. */
  function SavedPrompts(items: Items): seq<UpliftPrompt>
    requires WellTyped(items)
  {
    if SavedPromptsKey in items then items[SavedPromptsKey].prompts else []
  }

  /** `getFavorites()`. */
  function Favorites(items: Items): seq<string>
    requires WellTyped(items)
  {
    if FavoritesKey in items then items[FavoritesKey].ids else []
  }

  /** Each getter reads only its own key: writing a key changes only its
      getter, which then returns what was written, and removing a key makes
      its getter return the empty collection. */
  lemma GettersReadTheirKey(items: Items, k: Key, v: Value)
    requires WellTyped(items) && Fits(k, v)
    ensures var w := items[k := v];
      && MoodEntries(w) == (if k == MoodsKey then v.moods else MoodEntries(items))
      && JournalEntries(w) == (if k == JournalsKey then v.journals else JournalEntries(items))
      && SavedPrompts(w) == (if k == SavedPromptsKey then v.prompts else SavedPrompts(items))
      && Favorites(w) == (if k == FavoritesKey then v.ids else Favorites(items))
    ensures var r := items - {k};
      && MoodEntries(r) == (if k == MoodsKey then [] else MoodEntries(items))
      && JournalEntries(r) == (if k == JournalsKey then [] else JournalEntries(items))
      && SavedPrompts(r) == (if k == SavedPromptsKey then [] else SavedPrompts(items))
      && Favorites(r) == (if k == FavoritesKey then [] else Favorites(items))
  {
  }

  const DefaultSettings := UserSettings(true, "20:00", Light, 0.7, 3)

  /** `{ ...base, ...p }`: each field of `p` that is present overrides `base`. */
  function MergeSettings(base: UserSettings, p: PartialSettings): UserSettings
  {
    UserSettings(
      if p.notifications.Some? then p.notifications.value else base.notifications,
      if p.reminderTime.Some? then p.reminderTime.value else base.reminderTime,
      if p.theme.Some? then p.theme.value else base.theme,
      if p.musicVolume.Some? then p.musicVolume.value else base.musicVolume,
      if p.breathingDuration.Some? then p.breathingDuration.value else base.breathingDuration)
  }

  /** A complete record seen as a partial one with every field present. */
  function Full(u: UserSettings): PartialSettings
  {
    PartialSettings(Some(u.notifications), Some(u.reminderTime), Some(u.theme), Some(u.musicVolume), Some(u.breathingDuration))
  }

  /** `getUserSettings()`: the stored partial record merged over the defaults. */
  function UserSettingsOf(items: Items): UserSettings
    requires WellTyped(items)
  {
    if SettingsKey in items then MergeSettings(DefaultSettings, items[SettingsKey].settings) else DefaultSettings
  }

  /** With nothing stored the settings are exactly the defaults; otherwise every
      stored field wins and every missing field is backfilled from the defaults. */
  lemma UserSettingsDefaults(items: Items)
    requires WellTyped(items)
    ensures SettingsKey !in items ==> UserSettingsOf(items) == UserSettings(true, "20:00", Light, 0.7, 3)
    ensures SettingsKey in items ==>
      var p := items[SettingsKey].settings;
      && (p.notifications.None? ==> UserSettingsOf(items).notifications == true)
      && (p.reminderTime.None? ==> UserSettingsOf(items).reminderTime == "20:00")
      && (p.theme.None? ==> UserSettingsOf(items).theme == Light)
      && (p.musicVolume.None? ==> UserSettingsOf(items).musicVolume == 0.7)
      && (p.breathingDuration.None? ==> UserSettingsOf(items).breathingDuration == 3)
      && (p.notifications.Some? ==> UserSettingsOf(items).notifications == p.notifications.value)
      && (p.reminderTime.Some? ==> UserSettingsOf(items).reminderTime == p.reminderTime.value)
      && (p.theme.Some? ==> UserSettingsOf(items).theme == p.theme.value)
      && (p.musicVolume.Some? ==> UserSettingsOf(items).musicVolume == p.musicVolume.value)
      && (p.breathingDuration.Some? ==> UserSettingsOf(items).breathingDuration == p.breathingDuration.value)
  {
  }

  /** Merging a complete record over anything yields that record, and merging
      the same partial record twice is merging it once. */
  lemma MergeFacts(base: UserSettings, u: UserSettings, p: PartialSettings)
    ensures MergeSettings(base, Full(u)) == u
    ensures MergeSettings(MergeSettings(base, p), p) == MergeSettings(base, p)
    ensures MergeSettings(base, PartialSettings(None, None, None, None, None)) == base
  {
  }

  // ---------------------------------------------------------------------------
  // Statistics
  // ---------------------------------------------------------------------------

  /** The calendar days on which at least one mood was logged. */
  function DaysWithEntries(moods: seq<MoodEntry>): set<int>
  {
    set m | m in moods :: m.timestamp.day
  }

  /** `moods.some(entry => sameDay(entry.timestamp, day))`. */
  predicate HasEntryOn(moods: seq<MoodEntry>, day: int)
  {
    exists m :: m in moods && m.timestamp.day == day
  }

  /** The number of consecutive days of `days` that end at `d` and run backwards. */
  function RunEndingAt(days: set<int>, d: int): nat
    decreases |days|
  {
    if d in days then 1 + RunEndingAt(days - {d}, d - 1) else 0
  }

  /** `calculateStreak` as a specification: 0 with no moods, otherwise the run
      of logged days that ends today. */
  function Streak(moods: seq<MoodEntry>, today: int): nat
  {
    if |moods| == 0 then 0 else RunEndingAt(DaysWithEntries(moods), today)
  }

  /** The day `j` days before `d`. */
  function DaysBefore(d: int, j: int): int
  {
    d - j
  }

  lemma {:induction false} RunEndingAtFacts(days: set<int>, d: int)
    ensures forall j :: 0 <= j < RunEndingAt(days, d) ==> DaysBefore(d, j) in days
    ensures DaysBefore(d, RunEndingAt(days, d)) !in days
    ensures RunEndingAt(days, d) <= |days|
    decreases |days|
  {
    if d in days {
      var rest := days - {d};
      RunEndingAtFacts(rest, d - 1);
      forall j | 0 <= j < RunEndingAt(days, d) ensures DaysBefore(d, j) in days {
        if j > 0 {
          assert DaysBefore(d, j) == DaysBefore(d - 1, j - 1);
        }
      }
      assert DaysBefore(d, RunEndingAt(days, d)) == DaysBefore(d - 1, RunEndingAt(rest, d - 1));
    } else {
      assert DaysBefore(d, 0) == d;
    }
  }

  /** The streak is the largest k such that today, today-1, …, today-(k-1) all
      have an entry: each of those days has one and the day before them has
      none. It never exceeds the number of distinct days logged. */
  lemma StreakIsLongestRun(moods: seq<MoodEntry>, today: int)
    ensures forall j :: 0 <= j < Streak(moods, today) ==> HasEntryOn(moods, DaysBefore(today, j))
    ensures !HasEntryOn(moods, DaysBefore(today, Streak(moods, today)))
    ensures Streak(moods, today) <= |DaysWithEntries(moods)|
  {
    var days := DaysWithEntries(moods);
    RunEndingAtFacts(days, today);
    forall j | 0 <= j < Streak(moods, today) ensures HasEntryOn(moods, DaysBefore(today, j)) {
      assert DaysBefore(today, j) in days;
    }
    forall m | m in moods ensures m.timestamp.day != DaysBefore(today, Streak(moods, today)) {
      assert m.timestamp.day in days;
    }
  }

  /** Any k with that property is the streak, and a day without entries today
      means no streak at all. */
  lemma StreakUnique(moods: seq<MoodEntry>, today: int, k: nat)
    requires forall j :: 0 <= j < k ==> HasEntryOn(moods, DaysBefore(today, j))
    requires !HasEntryOn(moods, DaysBefore(today, k))
    ensures k == Streak(moods, today)
    ensures !HasEntryOn(moods, today) ==> Streak(moods, today) == 0
  {
    StreakIsLongestRun(moods, today);
    assert DaysBefore(today, 0) == today;
  }

  /** Entries today, yesterday and the day before give a streak of 3; without
      yesterday's entry the walk stops after today. */
  lemma StreakScenarios(a: MoodEntry, b: MoodEntry, c: MoodEntry, today: int)
    requires a.timestamp.day == today && b.timestamp.day == today - 1 && c.timestamp.day == today - 2
    ensures Streak([a, b, c], today) == 3
    ensures Streak([a, c], today) == 1
  {
    var abc, ac := [a, b, c], [a, c];
    assert a in abc && b in abc && c in abc && a in ac;
    assert DaysBefore(today, 0) == today && DaysBefore(today, 1) == today - 1;
    assert DaysBefore(today, 2) == today - 2;
    assert forall j :: 0 <= j < 3 ==> HasEntryOn(abc, DaysBefore(today, j));
    StreakUnique(abc, today, 3);
    assert forall j :: 0 <= j < 1 ==> HasEntryOn(ac, DaysBefore(today, j));
    StreakUnique(ac, today, 1);
  }

  /** `calculateStreak`: walks back one day at a time from today while the day
      has an entry. */
  method CalculateStreak(moods: seq<MoodEntry>, today: int) returns (currentStreak: nat)
    ensures currentStreak == Streak(moods, today)
  {
    if |moods| == 0 {
      return 0;
    }
    currentStreak := 0;
    var checkDate := today;
    ghost var days := DaysWithEntries(moods);
    ghost var visited: set<int> := {};
    while true
      invariant checkDate == today - currentStreak
      invariant visited <= days
      invariant forall d :: d in visited ==> d > checkDate
      invariant RunEndingAt(days, today) == currentStreak + RunEndingAt(days - visited, checkDate)
      decreases |days - visited|
    {
      var hasEntry := HasEntryOn(moods, checkDate);
      if hasEntry {
        assert checkDate in days - visited;
        assert days - visited - {checkDate} == days - (visited + {checkDate});
        currentStreak := currentStreak + 1;
        visited := visited + {checkDate};
        checkDate := checkDate - 1;
      } else {
        assert checkDate !in days;
        break;
      }
    }
  }

  /** `moods.reduce((acc, mood) => acc + mood.value, 0)`. */
  function SumValues(moods: seq<MoodEntry>): int
  {
    if moods == [] then 0 else SumValues(moods[..|moods| - 1]) + moods[|moods| - 1].value
  }

  /** `calculateAverageMood`: 0 for no moods, the mean value otherwise. */
  function AverageMood(moods: seq<MoodEntry>): real
  {
    if |moods| == 0 then 0.0 else SumValues(moods) as real / |moods| as real
  }

  lemma {:induction false} SumValuesBounds(moods: seq<MoodEntry>, lo: int, hi: int)
    requires forall i :: 0 <= i < |moods| ==> lo <= moods[i].value <= hi
    ensures lo * |moods| <= SumValues(moods) <= hi * |moods|
  {
    if moods != [] {
      SumValuesBounds(moods[..|moods| - 1], lo, hi);
    }
  }

  /** When every value is a mood value 1..5 the average lies in 1..5;
      the product of the average and the count is the sum. */
  lemma AverageMoodInRange(moods: seq<MoodEntry>)
    requires |moods| > 0
    requires forall i :: 0 <= i < |moods| ==> 1 <= moods[i].value <= 5
    ensures 1.0 <= AverageMood(moods) <= 5.0
    ensures AverageMood(moods) * |moods| as real == SumValues(moods) as real
  {
    var n, total := |moods|, SumValues(moods);
    SumValuesBounds(moods, 1, 5);
    assert n <= total <= 5 * n;
    assert (5 * n) as real == 5.0 * n as real;
    RealQuotientBounds(total as real, n as real, 1.0, 5.0);
  }

  /** Values 5, 4 and 3 average to exactly 4; no moods average to 0. */
  lemma AverageScenarios(a: MoodEntry, b: MoodEntry, c: MoodEntry)
    requires a.value == 5 && b.value == 4 && c.value == 3
    ensures AverageMood([a, b, c]) == 4.0
    ensures AverageMood([]) == 0.0
  {
    assert [a, b, c][..2] == [a, b] && [a, b][..1] == [a] && [a][..0] == [];
    assert SumValues([a]) == 5;
    assert SumValues([a, b]) == 9;
    assert SumValues([a, b, c]) == 12;
  }

  lemma RealQuotientBounds(s: real, n: real, lo: real, hi: real)
    requires n > 0.0 && lo * n <= s <= hi * n
    ensures lo <= s / n <= hi && (s / n) * n == s
  {
    var q := s / n;
    assert q * n == s;
  }

  /** `getUserStats()` as a function of the two collections and the day. */
  function StatsOf(moods: seq<MoodEntry>, journals: seq<JournalEntry>, today: int): UserStats
  {
    UserStats(
      |moods|,
      |journals|,
      Streak(moods, today),
      AverageMood(moods),
      if |moods| > 0 then Some(moods[|moods| - 1]) else None,
      if |journals| > 0 then Some(journals[|journals| - 1]) else None)
  }

  /** Saving a mood makes it the last mood entry and adds one to the total;
      the streak then counts its day whenever the run reaches it. */
  lemma StatsAfterSavedMood(moods: seq<MoodEntry>, journals: seq<JournalEntry>, e: MoodEntry, today: int)
    ensures StatsOf(moods + [e], journals, today).lastMoodEntry == Some(e)
    ensures StatsOf(moods + [e], journals, today).totalMoodEntries == StatsOf(moods, journals, today).totalMoodEntries + 1
    ensures e.timestamp.day == today ==> StatsOf(moods + [e], journals, today).currentStreak >= 1
  {
    var ms := moods + [e];
    assert e in ms;
    if e.timestamp.day == today {
      StreakIsLongestRun(ms, today);
      assert HasEntryOn(ms, today - 0);
    }
  }

  /** The stats cache as the store rewrites it after a change. */
  function WithStats(items: Items, now: Timestamp): (r: Items)
    requires WellTyped(items)
    ensures WellTyped(r)
  {
    items[UserStatsKey := StatsValue(StatsSnapshot(StatsOf(MoodEntries(items), JournalEntries(items), now.day), now))]
  }

  // ---------------------------------------------------------------------------
  // Collection updates
  // ---------------------------------------------------------------------------

  function MoodId(m: MoodEntry): string { m.id }

  function JournalId(j: JournalEntry): string { j.id }

  /** The journal upsert: overwrite the first entry with the same id, or append. */
  function Upsert(journals: seq<JournalEntry>, e: JournalEntry): seq<JournalEntry>
  {
    var i := FindIndex(journals, JournalId, e.id);
    if i >= 0 then journals[i := e] else journals + [e]
  }

  /** An id already present is overwritten in place at its first occurrence and
      the length stays; a new id is appended and the length grows by one. */
  lemma UpsertFacts(journals: seq<JournalEntry>, e: JournalEntry)
    ensures (exists i :: 0 <= i < |journals| && journals[i].id == e.id) ==>
      && |Upsert(journals, e)| == |journals|
      && exists i :: 0 <= i < |journals| && Upsert(journals, e) == journals[i := e]
           && journals[i].id == e.id && forall j :: 0 <= j < i ==> journals[j].id != e.id
    ensures (forall i :: 0 <= i < |journals| ==> journals[i].id != e.id) ==>
      Upsert(journals, e) == journals + [e]
  {
    var i := FindIndex(journals, JournalId, e.id);
    if exists i :: 0 <= i < |journals| && journals[i].id == e.id {
      var k :| 0 <= k < |journals| && journals[k].id == e.id;
      assert JournalId(journals[k]) == e.id;
      assert i >= 0;
    } else {
      assert forall j :: 0 <= j < |journals| ==> JournalId(journals[j]) != e.id;
    }
  }

  /** Re-saving an entry whose id was just deleted puts it back at the end. */
  lemma UpsertAfterRemove(journals: seq<JournalEntry>, e: JournalEntry)
    ensures Upsert(RemoveKey(journals, JournalId, e.id), e) == RemoveKey(journals, JournalId, e.id) + [e]
  {
    var rest := RemoveKey(journals, JournalId, e.id);
    RemoveKeyFacts(journals, JournalId, e.id);
    UpsertFacts(rest, e);
  }

  /** The entry `saveJournalEntry` stores for a draft: the draft's own id when it
      has one, the fresh id otherwise. */
  function JournalFromDraft(d: JournalDraft, freshId: string): JournalEntry
  {
    JournalEntry(if d.id.Some? then d.id.value else freshId, d.title, d.content, d.timestamp, d.mood)
  }

  // ---------------------------------------------------------------------------
  // Export and import
  // ---------------------------------------------------------------------------

  /** `exportUserData()`: every collection and the merged settings. */
  function ExportUserData(items: Items, now: Timestamp): UserDataExport
    requires WellTyped(items)
  {
    UserDataExport(
      Some(MoodEntries(items)), Some(JournalEntries(items)), Some(SavedPrompts(items)),
      Some(Favorites(items)), Some(UserSettingsOf(items)), Some(now))
  }

  /** The writes of `importUserData` before the statistics refresh: each present
      field replaces its key wholesale. */
  function Imported(items: Items, data: UserDataExport): (r: Items)
    requires WellTyped(items)
    ensures WellTyped(r)
  {
    var a := if data.moods.Some? then items[MoodsKey := MoodsValue(data.moods.value)] else items;
    var b := if data.journals.Some? then a[JournalsKey := JournalsValue(data.journals.value)] else a;
    var c := if data.savedPrompts.Some? then b[SavedPromptsKey := PromptsValue(data.savedPrompts.value)] else b;
    var d := if data.favorites.Some? then c[FavoritesKey := FavoritesValue(data.favorites.value)] else c;
    if data.settings.Some? then d[SettingsKey := SettingsValue(Full(data.settings.value))] else d
  }

  /** Whether an import carries a field for the key. */
  predicate Carries(data: UserDataExport, k: Key)
  {
    match k
    case MoodsKey => data.moods.Some?
    case JournalsKey => data.journals.Some?
    case SavedPromptsKey => data.savedPrompts.Some?
    case FavoritesKey => data.favorites.Some?
    case SettingsKey => data.settings.Some?
    case UserStatsKey => false
  }

  /** Import writes exactly the keys whose field is present. */
  lemma ImportWritesOnlyPresent(items: Items, data: UserDataExport, k: Key)
    requires WellTyped(items)
    ensures !Carries(data, k) ==> (k in Imported(items, data) <==> k in items)
    ensures !Carries(data, k) && k in items ==> Imported(items, data)[k] == items[k]
    ensures Carries(data, k) ==> k in Imported(items, data)
  {
  }

  /** `importUserData(exportUserData())` leaves every getter's result unchanged,
      including the statistics for any day. */
  lemma ExportImportRoundTrip(items: Items, exportedAt: Timestamp, now: Timestamp, today: int)
    requires WellTyped(items)
    ensures var after := WithStats(Imported(items, ExportUserData(items, exportedAt)), now);
      && MoodEntries(after) == MoodEntries(items)
      && JournalEntries(after) == JournalEntries(items)
      && SavedPrompts(after) == SavedPrompts(items)
      && Favorites(after) == Favorites(items)
      && UserSettingsOf(after) == UserSettingsOf(items)
      && StatsOf(MoodEntries(after), JournalEntries(after), today) == StatsOf(MoodEntries(items), JournalEntries(items), today)
  {
    MergeFacts(DefaultSettings, UserSettingsOf(items), Full(UserSettingsOf(items)));
  }

  // ---------------------------------------------------------------------------
  // The service
  // ---------------------------------------------------------------------------

  /** `DataService`: every operation reads the collection it needs from the
      storage, changes it, and writes it back whole. */
  class DataService {
    const storage: LocalStorage

    constructor (storage: LocalStorage)
      ensures this.storage == storage
    {
      this.storage := storage;
    }

    /** `saveMoodEntry`: appends the entry with the new id, then refreshes the
        statistics cache. */
    method SaveMoodEntry(entry: NewMoodEntry, id: string, now: Timestamp) returns (moodEntry: MoodEntry)
      requires storage.Valid()
      modifies storage
      ensures storage.Valid()
      ensures moodEntry == entry.WithId(id)
      ensures MoodEntries(storage.items) == old(MoodEntries(storage.items)) + [moodEntry]
      ensures storage.items == WithStats(old(storage.items)[MoodsKey := MoodsValue(old(MoodEntries(storage.items)) + [moodEntry])], now)
    {
      moodEntry := entry.WithId(id);
      var existingMoods := MoodEntries(storage.items);
      existingMoods := existingMoods + [moodEntry];
      storage.SetItem(MoodsKey, MoodsValue(existingMoods));
      UpdateUserStats(now);
    }

    /** `deleteMoodEntry`: true iff some entry had the id; only then is the
        collection rewritten, without every entry of that id. */
    method DeleteMoodEntry(id: string) returns (deleted: bool)
      requires storage.Valid()
      modifies storage
      ensures storage.Valid()
      ensures deleted <==> exists i :: 0 <= i < |old(MoodEntries(storage.items))| && old(MoodEntries(storage.items))[i].id == id
      ensures deleted ==> storage.items == old(storage.items)[MoodsKey := MoodsValue(RemoveKey(old(MoodEntries(storage.items)), MoodId, id))]
      ensures !deleted ==> storage.items == old(storage.items)
    {
      var moods := MoodEntries(storage.items);
      var filteredMoods := RemoveKey(moods, MoodId, id);
      RemoveKeyFacts(moods, MoodId, id);
      if |filteredMoods| != |moods| {
        storage.SetItem(MoodsKey, MoodsValue(filteredMoods));
        return true;
      }
      return false;
    }

    /** `saveJournalEntry`: a draft whose id matches a stored entry overwrites
        the first such entry in place; any other draft is appended. */
    method SaveJournalEntry(entry: JournalDraft, freshId: string, now: Timestamp) returns (journalEntry: JournalEntry)
      requires storage.Valid()
      modifies storage
      ensures storage.Valid()
      ensures journalEntry == JournalFromDraft(entry, freshId)
      ensures JournalEntries(storage.items) == Upsert(old(JournalEntries(storage.items)), journalEntry)
      ensures storage.items == WithStats(old(storage.items)[JournalsKey := JournalsValue(Upsert(old(JournalEntries(storage.items)), journalEntry))], now)
    {
      journalEntry := JournalFromDraft(entry, freshId);
      var existingJournals := JournalEntries(storage.items);
      var existingIndex := FindIndex(existingJournals, JournalId, journalEntry.id);
      if existingIndex >= 0 {
        existingJournals := existingJournals[existingIndex := journalEntry];
      } else {
        existingJournals := existingJournals + [journalEntry];
      }
      storage.SetItem(JournalsKey, JournalsValue(existingJournals));
      UpdateUserStats(now);
    }

    /** `deleteJournalEntry`: as `deleteMoodEntry`, on the journal collection. */
    method DeleteJournalEntry(id: string) returns (deleted: bool)
      requires storage.Valid()
      modifies storage
      ensures storage.Valid()
      ensures deleted <==> exists i :: 0 <= i < |old(JournalEntries(storage.items))| && old(JournalEntries(storage.items))[i].id == id
      ensures deleted ==> storage.items == old(storage.items)[JournalsKey := JournalsValue(RemoveKey(old(JournalEntries(storage.items)), JournalId, id))]
      ensures !deleted ==> storage.items == old(storage.items)
    {
      var journals := JournalEntries(storage.items);
      var filteredJournals := RemoveKey(journals, JournalId, id);
      RemoveKeyFacts(journals, JournalId, id);
      if |filteredJournals| != |journals| {
        storage.SetItem(JournalsKey, JournalsValue(filteredJournals));
        return true;
      }
      return false;
    }

    /** `saveUpliftPrompt`: appends the prompt with the new id; the statistics
        cache is not touched. */
    method SaveUpliftPrompt(prompt: NewUpliftPrompt, id: string) returns (savedPrompt: UpliftPrompt)
      requires storage.Valid()
      modifies storage
      ensures storage.Valid()
      ensures savedPrompt == prompt.WithId(id)
      ensures storage.items == old(storage.items)[SavedPromptsKey := PromptsValue(old(SavedPrompts(storage.items)) + [savedPrompt])]
    {
      savedPrompt := prompt.WithId(id);
      var existingPrompts := SavedPrompts(storage.items);
      existingPrompts := existingPrompts + [savedPrompt];
      storage.SetItem(SavedPromptsKey, PromptsValue(existingPrompts));
    }

    /** `toggleFavorite`: flips membership and returns the new state. */
    method ToggleFavorite(id: string) returns (isFavorite: bool)
      requires storage.Valid()
      modifies storage
      ensures storage.Valid()
      ensures isFavorite <==> id !in old(Favorites(storage.items))
      ensures isFavorite <==> id in Favorites(storage.items)
      ensures storage.items == old(storage.items)[FavoritesKey := FavoritesValue(Toggle(old(Favorites(storage.items)), id))]
    {
      var favorites := Favorites(storage.items);
      var isFavorited := id in favorites;
      var newFavorites := if isFavorited then Filter(favorites, f => f != id) else favorites + [id];
      ToggleFacts(favorites, id);
      storage.SetItem(FavoritesKey, FavoritesValue(newFavorites));
      return !isFavorited;
    }

    /** `updateUserSettings`: overwrites only the given fields, stores the whole
        record, and returns what a following `getUserSettings` returns. */
    method UpdateUserSettings(settings: PartialSettings) returns (newSettings: UserSettings)
      requires storage.Valid()
      modifies storage
      ensures storage.Valid()
      ensures newSettings == MergeSettings(old(UserSettingsOf(storage.items)), settings)
      ensures UserSettingsOf(storage.items) == newSettings
      ensures storage.items == old(storage.items)[SettingsKey := SettingsValue(Full(newSettings))]
    {
      var currentSettings := UserSettingsOf(storage.items);
      newSettings := MergeSettings(currentSettings, settings);
      storage.SetItem(SettingsKey, SettingsValue(Full(newSettings)));
      MergeFacts(DefaultSettings, newSettings, Full(newSettings));
    }

    /** `getUserStats()`. */
    method GetUserStats(today: int) returns (stats: UserStats)
      requires storage.Valid()
      ensures stats == StatsOf(MoodEntries(storage.items), JournalEntries(storage.items), today)
      ensures stats.totalMoodEntries == |MoodEntries(storage.items)| && stats.totalJournalEntries == |JournalEntries(storage.items)|
      ensures forall j :: 0 <= j < stats.currentStreak ==> HasEntryOn(MoodEntries(storage.items), DaysBefore(today, j))
      ensures !HasEntryOn(MoodEntries(storage.items), DaysBefore(today, stats.currentStreak))
      ensures stats.lastMoodEntry.Some? <==> |MoodEntries(storage.items)| > 0
      ensures stats.lastJournalEntry.Some? <==> |JournalEntries(storage.items)| > 0
    {
      var moods := MoodEntries(storage.items);
      var journals := JournalEntries(storage.items);
      StreakIsLongestRun(moods, today);
      var currentStreak := CalculateStreak(moods, today);
      stats := UserStats(
        |moods|,
        |journals|,
        currentStreak,
        AverageMood(moods),
        if |moods| > 0 then Some(moods[|moods| - 1]) else None,
        if |journals| > 0 then Some(journals[|journals| - 1]) else None);
    }

    /** `updateUserStats`: writes the statistics and the moment to the cache key. */
    method UpdateUserStats(now: Timestamp)
      requires storage.Valid()
      modifies storage
      ensures storage.Valid()
      ensures storage.items == WithStats(old(storage.items), now)
    {
      var stats := GetUserStats(now.day);
      storage.SetItem(UserStatsKey, StatsValue(StatsSnapshot(stats, now)));
    }

    /** `exportUserData()`. */
    method ExportUserDataNow(now: Timestamp) returns (data: UserDataExport)
      requires storage.Valid()
      ensures data == ExportUserData(storage.items, now)
      ensures data.moods == Some(MoodEntries(storage.items)) && data.journals == Some(JournalEntries(storage.items))
      ensures data.savedPrompts == Some(SavedPrompts(storage.items)) && data.favorites == Some(Favorites(storage.items))
      ensures data.settings == Some(UserSettingsOf(storage.items)) && data.exportDate == Some(now)
    {
      data := ExportUserData(storage.items, now);
    }

    /** `importUserData`: writes each present field, refreshes the statistics
        cache and reports success. */
    method ImportUserData(data: UserDataExport, now: Timestamp) returns (ok: bool)
      requires storage.Valid()
      modifies storage
      ensures storage.Valid()
      ensures ok
      ensures storage.items == WithStats(Imported(old(storage.items), data), now)
    {
      if data.moods.Some? { storage.SetItem(MoodsKey, MoodsValue(data.moods.value)); }
      if data.journals.Some? { storage.SetItem(JournalsKey, JournalsValue(data.journals.value)); }
      if data.savedPrompts.Some? { storage.SetItem(SavedPromptsKey, PromptsValue(data.savedPrompts.value)); }
      if data.favorites.Some? { storage.SetItem(FavoritesKey, FavoritesValue(data.favorites.value)); }
      if data.settings.Some? { storage.SetItem(SettingsKey, SettingsValue(Full(data.settings.value))); }
      UpdateUserStats(now);
      return true;
    }

    /** `clearAllData`: removes every key of the store; a second call leaves the
        same empty storage. */
    method ClearAllData()
      requires storage.Valid()
      modifies storage
      ensures storage.Valid()
      ensures storage.items == map[]
    {
      for i := 0 to |AllKeys|
        invariant storage.Valid()
        invariant storage.items == old(storage.items) - (set k | k in AllKeys[..i])
      {
        assert AllKeys[..i + 1] == AllKeys[..i] + [AllKeys[i]];
        storage.RemoveItem(AllKeys[i]);
      }
      assert AllKeys[..|AllKeys|] == AllKeys;
      forall k: Key ensures k !in storage.items {
        AllKeysCovers(k);
      }
    }
  }
}
