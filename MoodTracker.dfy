/** The mood check-in screen (src/components/MoodTracker.tsx): the user picks
    one of five moods, writes an optional note and submits; the entry is
    stored through the data service with the mood's value. */
module MoodTracker {
  import opened Builtins
  import opened DataStore

  /** One row of the mood table (`label` is a Dafny keyword, hence `labelText`);
      the colour classes are not modelled. */
  datatype MoodOption = MoodOption(emoji: string, labelText: string, value: int)

  /** `moods`, from best to worst. */
  const Moods: seq<MoodOption> := [
    MoodOption("\U{1F604}", "Amazing", 5),
    MoodOption("\U{1F60A}", "Good", 4),
    MoodOption("\U{1F610}", "Okay", 3),
    MoodOption("\U{1F61F}", "Not Great", 2),
    MoodOption("\U{1F622}", "Difficult", 1)
  ]

  function Emoji(m: MoodOption): string { m.emoji }

  /** `moods.find(m => m.emoji === selectedMood)?.value || 3`. */
  function MoodValue(selected: string): (v: int)
    ensures 1 <= v <= 5
  {
    match Find(Moods, Emoji, selected)
    case Some(m) => if m.value == 0 then 3 else m.value
    case None => 3
  }

  /** No two rows of the table share an emoji. */
  lemma MoodEmojisDistinct()
    ensures forall a, b :: 0 <= a < b < |Moods| ==> Emoji(Moods[a]) != Emoji(Moods[b])
  {
    forall a, b | 0 <= a < b < |Moods| ensures Emoji(Moods[a]) != Emoji(Moods[b]) {
      assert Moods[a].emoji[0] != Moods[b].emoji[0];
    }
  }

  /** Row `i` of the table holds value `5 - i`. */
  lemma MoodRowValue(i: int)
    requires 0 <= i < |Moods|
    ensures Moods[i].value == 5 - i
  {
    if i == 0 {} else if i == 1 {} else if i == 2 {} else if i == 3 {} else {}
  }

  /** Each emoji of the table gives its own value, which goes down the table
      from 5 to 1; any other text gives 3. */
  lemma MoodValueTable(selected: string)
    ensures forall i :: 0 <= i < |Moods| ==> MoodValue(Moods[i].emoji) == 5 - i
    ensures (forall i :: 0 <= i < |Moods| ==> Moods[i].emoji != selected) ==> MoodValue(selected) == 3
  {
    MoodEmojisDistinct();
    forall i | 0 <= i < |Moods| ensures MoodValue(Moods[i].emoji) == 5 - i {
      FindDistinct(Moods, Emoji, i);
      MoodRowValue(i);
    }
    if forall i :: 0 <= i < |Moods| ==> Moods[i].emoji != selected {
      assert forall i :: 0 <= i < |Moods| ==> Emoji(Moods[i]) != selected;
    }
  }

  /** Distinct emojis of the table give distinct values. */
  lemma MoodValueInjective(i: nat, j: nat)
    requires i < |Moods| && j < |Moods| && i != j
    ensures MoodValue(Moods[i].emoji) != MoodValue(Moods[j].emoji)
  {
    MoodValueTable("");
  }

  /** The mood entry a submission stores: the emoji, the trimmed note, the
      time and the looked-up value. */
  function EntryFor(selected: string, note: string, now: Timestamp): (e: NewMoodEntry)
    ensures e.mood == selected && e.note == Trim(note) && e.timestamp == now
    ensures 1 <= e.value <= 5
  {
    NewMoodEntry(selected, Trim(note), now, MoodValue(selected))
  }

  /** The screen's state. */
  class MoodTrackerView {
    const service: DataService
    var selectedMood: string
    var note: string
    var isSubmitted: bool

    ghost predicate Valid()
      reads this, service, service.storage
    {
      service.storage.Valid()
    }

    constructor(service: DataService)
      requires service.storage.Valid()
      ensures Valid() && this.service == service
      ensures selectedMood == "" && note == "" && !isSubmitted
    {
      this.service := service;
      selectedMood := "";
      note := "";
      isSubmitted := false;
    }

    /** A mood button's `onClick`. */
    method SetSelectedMood(mood: string)
      requires Valid()
      modifies this
      ensures Valid() && selectedMood == mood && note == old(note) && isSubmitted == old(isSubmitted)
    {
      selectedMood := mood;
    }

    /** The note box's `onChange`. */
    method SetNote(text: string)
      requires Valid()
      modifies this
      ensures Valid() && note == text && selectedMood == old(selectedMood) && isSubmitted == old(isSubmitted)
    {
      note := text;
    }

    /** `handleSubmit()`: without a chosen mood nothing happens; otherwise the
        entry is appended to the stored moods (`id` and `now` are what the
        clock would give) and the screen shows its confirmation. */
    method HandleSubmit(id: string, now: Timestamp)
      requires Valid()
      modifies this, service.storage
      ensures Valid()
      ensures old(selectedMood) == "" ==> service.storage.items == old(service.storage.items) && isSubmitted == old(isSubmitted)
      ensures old(selectedMood) != "" ==>
        var saved := EntryFor(old(selectedMood), old(note), now).WithId(id);
        && MoodEntries(service.storage.items) == old(MoodEntries(service.storage.items)) + [saved]
        && service.storage.items == WithStats(old(service.storage.items)[MoodsKey := MoodsValue(old(MoodEntries(service.storage.items)) + [saved])], now)
        && isSubmitted
      ensures selectedMood == old(selectedMood) && note == old(note)
    {
      if selectedMood == "" {
        return;
      }
      // The flag is raised before the write; in the model the write cannot
      // fail, so the order is not observable.
      isSubmitted := true;
      var entry := EntryFor(selectedMood, note, now);
      var saved := service.SaveMoodEntry(entry, id, now);
    }
  }

  /** A stored list built only from submissions has every value in 1..5, so the
      statistics and the chart average stay in 1..5. */
  lemma SubmittedValuesInRange(moods: seq<MoodEntry>, selected: string, note: string, now: Timestamp, id: string)
    requires forall i :: 0 <= i < |moods| ==> 1 <= moods[i].value <= 5
    ensures var after := moods + [EntryFor(selected, note, now).WithId(id)];
      && (forall i :: 0 <= i < |after| ==> 1 <= after[i].value <= 5)
      && 1.0 <= AverageMood(after) <= 5.0
  {
    var saved := EntryFor(selected, note, now).WithId(id);
    var after := moods + [saved];
    forall i | 0 <= i < |after| ensures 1 <= after[i].value <= 5 {
      if i < |moods| {
        assert after[i] == moods[i];
      } else {
        assert after[i] == saved;
      }
    }
    AverageMoodInRange(after);
  }
}
