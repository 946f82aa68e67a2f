/** The journal screen (src/components/Journal.tsx): the stored entries
    newest first, a case-insensitive search, an editor that creates or updates
    an entry through the data service, and delete with a one-step undo. */
module Journal {
  import opened Builtins
  import opened DataStore

  // ---------------------------------------------------------------------------
  // Newest-first order
  // ---------------------------------------------------------------------------

  function Instant(e: JournalEntry): int
  {
    e.timestamp.instant
  }

  /** Every entry is at least as recent as every later one. */
  predicate NewestFirst(xs: seq<JournalEntry>)
  {
    forall i, j :: 0 <= i < j < |xs| ==> Instant(xs[i]) >= Instant(xs[j])
  }

  /** Places `e` after every entry at least as recent, so that entries with
      the same time keep the order they came in. */
  function InsertNewest(sorted: seq<JournalEntry>, e: JournalEntry): (r: seq<JournalEntry>)
    ensures |r| == |sorted| + 1
  {
    if sorted == [] || Instant(sorted[|sorted| - 1]) >= Instant(e) then sorted + [e]
    else InsertNewest(sorted[..|sorted| - 1], e) + [sorted[|sorted| - 1]]
  }

  /** `entries.sort((a, b) => time(b) - time(a))`, a stable sort. */
  function SortNewestFirst(xs: seq<JournalEntry>): (r: seq<JournalEntry>)
    ensures |r| == |xs|
  {
    if xs == [] then [] else InsertNewest(SortNewestFirst(xs[..|xs| - 1]), xs[|xs| - 1])
  }

  /** Inserting adds exactly `e` to the entries. */
  lemma {:induction false} InsertNewestMultiset(sorted: seq<JournalEntry>, e: JournalEntry)
    ensures multiset(InsertNewest(sorted, e)) == multiset(sorted) + multiset{e}
  {
    if sorted != [] && Instant(sorted[|sorted| - 1]) < Instant(e) {
      var init, last := sorted[..|sorted| - 1], sorted[|sorted| - 1];
      assert sorted == init + [last];
      InsertNewestMultiset(init, e);
    }
  }

  /** Inserting an entry no older than `t` among entries no older than `t`
      leaves every entry no older than `t`. */
  lemma {:induction false} InsertNewestBound(sorted: seq<JournalEntry>, e: JournalEntry, t: int)
    requires forall i :: 0 <= i < |sorted| ==> Instant(sorted[i]) >= t
    requires Instant(e) >= t
    ensures forall i :: 0 <= i < |InsertNewest(sorted, e)| ==> Instant(InsertNewest(sorted, e)[i]) >= t
  {
    if sorted != [] && Instant(sorted[|sorted| - 1]) < Instant(e) {
      var init := sorted[..|sorted| - 1];
      InsertNewestBound(init, e, t);
      assert InsertNewest(sorted, e) == InsertNewest(init, e) + [sorted[|sorted| - 1]];
    }
  }

  /** Inserting into newest-first entries keeps them newest first. */
  lemma {:induction false} InsertNewestSorted(sorted: seq<JournalEntry>, e: JournalEntry)
    requires NewestFirst(sorted)
    ensures NewestFirst(InsertNewest(sorted, e))
  {
    if sorted != [] && Instant(sorted[|sorted| - 1]) < Instant(e) {
      var init, last := sorted[..|sorted| - 1], sorted[|sorted| - 1];
      assert NewestFirst(init);
      InsertNewestSorted(init, e);
      InsertNewestBound(init, e, Instant(last));
      var r := InsertNewest(init, e);
      var out := r + [last];
      assert InsertNewest(sorted, e) == out;
      forall i, j | 0 <= i < j < |out| ensures Instant(out[i]) >= Instant(out[j]) {
        if j < |r| {
          assert out[i] == r[i] && out[j] == r[j];
        }
      }
    }
  }

  lemma InsertNewestFacts(sorted: seq<JournalEntry>, e: JournalEntry)
    requires NewestFirst(sorted)
    ensures NewestFirst(InsertNewest(sorted, e))
    ensures multiset(InsertNewest(sorted, e)) == multiset(sorted) + multiset{e}
  {
    InsertNewestSorted(sorted, e);
    InsertNewestMultiset(sorted, e);
  }

  /** The sorted entries are newest first and are the stored entries
      rearranged: none lost, none added. */
  lemma {:induction false} SortNewestFirstFacts(xs: seq<JournalEntry>)
    ensures NewestFirst(SortNewestFirst(xs))
    ensures multiset(SortNewestFirst(xs)) == multiset(xs)
  {
    if xs != [] {
      var init := xs[..|xs| - 1];
      SortNewestFirstFacts(init);
      InsertNewestFacts(SortNewestFirst(init), xs[|xs| - 1]);
      assert xs == init + [xs[|xs| - 1]];
    }
  }

  /** Entries already newest first stay in place: the sort is stable. */
  lemma {:induction false} SortKeepsSorted(xs: seq<JournalEntry>)
    requires NewestFirst(xs)
    ensures SortNewestFirst(xs) == xs
  {
    if xs != [] {
      var init := xs[..|xs| - 1];
      assert NewestFirst(init);
      SortKeepsSorted(init);
    }
  }

  // ---------------------------------------------------------------------------
  // Search
  // ---------------------------------------------------------------------------

  /** The search test: the title or the content contains the term, ignoring
      case. */
  predicate Matches(e: JournalEntry, term: string)
  {
    Includes(ToLower(e.title), ToLower(term)) || Includes(ToLower(e.content), ToLower(term))
  }

  /** `filteredEntries`. */
  function FilteredEntries(entries: seq<JournalEntry>, term: string): (shown: seq<JournalEntry>)
    ensures forall i :: 0 <= i < |shown| ==> Matches(shown[i], term)
  {
    Filter(entries, e => Matches(e, term))
  }

  /** An entry is shown exactly when it matches, and an empty search shows
      every entry in order. */
  lemma FilteredEntriesFacts(entries: seq<JournalEntry>, term: string)
    ensures forall i :: 0 <= i < |entries| ==> (entries[i] in FilteredEntries(entries, term) <==> Matches(entries[i], term))
    ensures term == "" ==> FilteredEntries(entries, term) == entries
  {
    var p := (e: JournalEntry) => Matches(e, term);
    FilterKeeps(entries, p);
    FilterSubset(entries, p);
    forall i | 0 <= i < |entries| && entries[i] in FilteredEntries(entries, term)
      ensures Matches(entries[i], term)
    {
      var k :| 0 <= k < |FilteredEntries(entries, term)| && FilteredEntries(entries, term)[k] == entries[i];
    }
    if term == "" {
      forall i | 0 <= i < |entries| ensures p(entries[i]) {
        IncludesEmpty(ToLower(entries[i].title));
      }
      FilterAll(entries, p);
    }
  }

  /** A block of a block is a block. */
  lemma IncludesTransitive(s: string, u: string, t: string)
    requires Includes(s, u) && Includes(u, t)
    ensures Includes(s, t)
  {
    var i :| 0 <= i <= |s| && OccursAt(s, u, i);
    var j :| 0 <= j <= |u| && OccursAt(u, t, j);
    forall m | 0 <= m < |t| ensures s[i + j + m] == t[m] {
      assert u[j..j + |t|][m] == t[m];
      assert s[i..i + |u|][j + m] == u[j + m];
    }
    assert s[i + j..i + j + |t|] == t;
    assert OccursAt(s, t, i + j);
  }

  /** Typing more of a term only narrows the list: every entry shown for the
      longer term is shown for the shorter one. */
  lemma SearchNarrows(entries: seq<JournalEntry>, shorter: string, longer: string)
    requires Includes(ToLower(longer), ToLower(shorter))
    ensures forall i :: 0 <= i < |entries| && entries[i] in FilteredEntries(entries, longer) ==>
      entries[i] in FilteredEntries(entries, shorter)
  {
    FilteredEntriesFacts(entries, longer);
    FilteredEntriesFacts(entries, shorter);
    forall i | 0 <= i < |entries| && Matches(entries[i], longer) ensures Matches(entries[i], shorter) {
      var e := entries[i];
      if Includes(ToLower(e.title), ToLower(longer)) {
        IncludesTransitive(ToLower(e.title), ToLower(longer), ToLower(shorter));
      } else {
        IncludesTransitive(ToLower(e.content), ToLower(longer), ToLower(shorter));
      }
    }
  }

  // ---------------------------------------------------------------------------
  // Editor drafts
  // ---------------------------------------------------------------------------

  /** A draft can be saved when neither the title nor the content is blank. */
  predicate Saveable(title: string, content: string)
  {
    Trim(title) != [] && Trim(content) != []
  }

  /** The entry handed to `saveJournalEntry`: the edited entry with its new
      title and content (keeping its id, time and mood), or a new entry dated
      now without mood. Both texts are trimmed. */
  function DraftFor(editing: Option<JournalEntry>, title: string, content: string, now: Timestamp): (d: JournalDraft)
    ensures d.title == Trim(title) && d.content == Trim(content)
    ensures editing.Some? ==> d == JournalDraft(Some(editing.value.id), d.title, d.content, editing.value.timestamp, editing.value.mood)
    ensures editing.None? ==> d == JournalDraft(None, d.title, d.content, now, None)
  {
    match editing
    case Some(e) => JournalDraft(Some(e.id), Trim(title), Trim(content), e.timestamp, e.mood)
    case None => JournalDraft(None, Trim(title), Trim(content), now, None)
  }

  /** Editing an entry and saving it unchanged stores the same entry again
      when its texts carry no outer blanks. */
  lemma EditUnchangedKeepsEntry(e: JournalEntry, now: Timestamp, freshId: string)
    requires Trim(e.title) == e.title && Trim(e.content) == e.content
    ensures JournalFromDraft(DraftFor(Some(e), e.title, e.content, now), freshId) == e
  {
  }

  /** Deleting the only entry with an id and saving it back restores the
      stored entries, up to order (it comes back at the end). */
  lemma UndoRestoresEntries(journals: seq<JournalEntry>, k: nat)
    requires k < |journals|
    requires forall j :: 0 <= j < |journals| && j != k ==> journals[j].id != journals[k].id
    ensures var e := journals[k];
      Upsert(RemoveKey(journals, JournalId, e.id), e) == RemoveKey(journals, JournalId, e.id) + [e]
      && multiset(Upsert(RemoveKey(journals, JournalId, e.id), e)) == multiset(journals)
  {
    var e := journals[k];
    UpsertAfterRemove(journals, e);
    RemoveKeyUnique(journals, JournalId, k);
    var before, after := journals[..k], journals[k + 1..];
    assert journals == before + [e] + after;
    assert multiset(journals) == multiset(before) + multiset{e} + multiset(after);
    assert multiset(before + after + [e]) == multiset(before) + multiset(after) + multiset{e};
  }

  /** The store after `deleteJournalEntry(id)`: the journal collection is
      rewritten without that id only when some entry had it. */
  ghost function JournalRemoved(items: Items, id: string): Items
    requires WellTyped(items)
  {
    var journals := JournalEntries(items);
    var kept := RemoveKey(journals, JournalId, id);
    if |kept| == |journals| then items else items[JournalsKey := JournalsValue(kept)]
  }

  // ---------------------------------------------------------------------------
  // The screen
  // ---------------------------------------------------------------------------

  /** The screen's state, one field per piece of component state. */
  class JournalView {
    const service: DataService
    var entries: seq<JournalEntry>
    var isWriting: bool
    var editingEntry: Option<JournalEntry>
    var title: string
    var content: string
    var searchTerm: string
    var deletedEntry: Option<JournalEntry>

    ghost predicate Valid()
      reads this, service, service.storage
    {
      service.storage.Valid()
    }

    /** The list as the screen shows it after `loadEntries()`. */
    ghost function Loaded(): seq<JournalEntry>
      requires Valid()
      reads this, service, service.storage
    {
      SortNewestFirst(JournalEntries(service.storage.items))
    }

    /** Mounting loads the stored entries. */
    constructor(service: DataService)
      requires service.storage.Valid()
      ensures Valid() && this.service == service
      ensures entries == SortNewestFirst(JournalEntries(service.storage.items))
      ensures !isWriting && editingEntry.None? && title == "" && content == ""
      ensures searchTerm == "" && deletedEntry.None?
    {
      this.service := service;
      entries := SortNewestFirst(JournalEntries(service.storage.items));
      isWriting := false;
      editingEntry := None;
      title := "";
      content := "";
      searchTerm := "";
      deletedEntry := None;
    }

    /** `loadEntries()`. */
    method LoadEntries()
      requires Valid()
      modifies this
      ensures Valid() && entries == Loaded()
      ensures isWriting == old(isWriting) && editingEntry == old(editingEntry)
      ensures title == old(title) && content == old(content)
      ensures searchTerm == old(searchTerm) && deletedEntry == old(deletedEntry)
    {
      entries := SortNewestFirst(JournalEntries(service.storage.items));
    }

    /** The new-entry buttons. */
    method StartWriting()
      requires Valid()
      modifies this
      ensures Valid() && isWriting
      ensures entries == old(entries) && editingEntry == old(editingEntry)
      ensures title == old(title) && content == old(content)
      ensures searchTerm == old(searchTerm) && deletedEntry == old(deletedEntry)
    {
      isWriting := true;
    }

    /** The title box's `onChange`. */
    method SetTitle(newTitle: string)
      requires Valid()
      modifies this
      ensures Valid() && title == newTitle
      ensures entries == old(entries) && isWriting == old(isWriting) && editingEntry == old(editingEntry)
      ensures content == old(content) && searchTerm == old(searchTerm) && deletedEntry == old(deletedEntry)
    {
      title := newTitle;
    }

    /** The content box's `onChange`. */
    method SetContent(newContent: string)
      requires Valid()
      modifies this
      ensures Valid() && content == newContent
      ensures entries == old(entries) && isWriting == old(isWriting) && editingEntry == old(editingEntry)
      ensures title == old(title) && searchTerm == old(searchTerm) && deletedEntry == old(deletedEntry)
    {
      content := newContent;
    }

    /** The search box's `onChange`. */
    method SetSearchTerm(newSearchTerm: string)
      requires Valid()
      modifies this
      ensures Valid() && searchTerm == newSearchTerm
      ensures entries == old(entries) && isWriting == old(isWriting) && editingEntry == old(editingEntry)
      ensures title == old(title) && content == old(content) && deletedEntry == old(deletedEntry)
    {
      searchTerm := newSearchTerm;
    }

    /** `startEditing()`: opens the editor on the entry's texts. */
    method StartEditing(entry: JournalEntry)
      requires Valid()
      modifies this
      ensures Valid() && isWriting && editingEntry == Some(entry)
      ensures title == entry.title && content == entry.content
      ensures entries == old(entries) && searchTerm == old(searchTerm) && deletedEntry == old(deletedEntry)
    {
      editingEntry := Some(entry);
      title := entry.title;
      content := entry.content;
      isWriting := true;
    }

    /** `cancelWriting()`: closes the editor and clears it. */
    method CancelWriting()
      requires Valid()
      modifies this
      ensures Valid() && !isWriting && editingEntry.None? && title == "" && content == ""
      ensures entries == old(entries) && searchTerm == old(searchTerm) && deletedEntry == old(deletedEntry)
    {
      title := "";
      content := "";
      isWriting := false;
      editingEntry := None;
    }

    /** `saveEntry()`: with a blank title or content nothing happens; otherwise
        the draft is upserted through the service (`freshId` and `now` are the
        id and clock it would draw), the editor closes and the list reloads. */
    method SaveEntry(freshId: string, now: Timestamp)
      requires Valid()
      modifies this, service.storage
      ensures Valid()
      ensures !Saveable(old(title), old(content)) ==>
        && service.storage.items == old(service.storage.items)
        && entries == old(entries) && isWriting == old(isWriting) && editingEntry == old(editingEntry)
        && title == old(title) && content == old(content)
      ensures Saveable(old(title), old(content)) ==>
        var saved := JournalFromDraft(DraftFor(old(editingEntry), old(title), old(content), now), freshId);
        && JournalEntries(service.storage.items) == Upsert(old(JournalEntries(service.storage.items)), saved)
        && service.storage.items == WithStats(old(service.storage.items)[JournalsKey := JournalsValue(Upsert(old(JournalEntries(service.storage.items)), saved))], now)
        && entries == Loaded()
        && !isWriting && editingEntry.None? && title == "" && content == ""
      ensures searchTerm == old(searchTerm) && deletedEntry == old(deletedEntry)
    {
      if Trim(title) == [] || Trim(content) == [] {
        return;
      }
      var draft := DraftFor(editingEntry, title, content, now);
      // The editor is cleared before the write rather than after it; in the
      // model the write cannot fail, so the order is not observable.
      title := "";
      content := "";
      isWriting := false;
      editingEntry := None;
      var saved := service.SaveJournalEntry(draft, freshId, now);
      LoadEntries();
    }

    /** `deleteEntry()`: an id on the list is remembered for undo, removed from
        storage and the list reloads; an unknown id changes nothing. */
    method DeleteEntry(id: string)
      requires Valid()
      modifies this, service.storage
      ensures Valid()
      ensures Find(old(entries), JournalId, id).None? ==>
        service.storage.items == old(service.storage.items) && entries == old(entries)
        && deletedEntry == old(deletedEntry)
      ensures Find(old(entries), JournalId, id).Some? ==>
        && deletedEntry == Find(old(entries), JournalId, id)
        && JournalEntries(service.storage.items) == RemoveKey(old(JournalEntries(service.storage.items)), JournalId, id)
        && service.storage.items == JournalRemoved(old(service.storage.items), id)
        && entries == Loaded()
      ensures isWriting == old(isWriting) && editingEntry == old(editingEntry)
      ensures title == old(title) && content == old(content) && searchTerm == old(searchTerm)
    {
      var entryToDelete := Find(entries, JournalId, id);
      if entryToDelete.Some? {
        deletedEntry := entryToDelete;
        var _ := service.DeleteJournalEntry(id);
        RemoveKeyFacts(old(JournalEntries(service.storage.items)), JournalId, id);
        LoadEntries();
      }
    }

    /** `undoDelete()`: the remembered entry is saved back, with its id, and
        lands at the end of the stored list when that id is gone. */
    method UndoDelete(now: Timestamp)
      requires Valid()
      modifies this, service.storage
      ensures Valid()
      ensures old(deletedEntry).None? ==>
        service.storage.items == old(service.storage.items) && entries == old(entries)
      ensures old(deletedEntry).Some? ==>
        && JournalEntries(service.storage.items) == Upsert(old(JournalEntries(service.storage.items)), old(deletedEntry).value)
        && service.storage.items == WithStats(old(service.storage.items)[JournalsKey := JournalsValue(Upsert(old(JournalEntries(service.storage.items)), old(deletedEntry).value))], now)
        && ((forall i :: 0 <= i < |old(JournalEntries(service.storage.items))| ==>
              old(JournalEntries(service.storage.items))[i].id != old(deletedEntry).value.id) ==>
            JournalEntries(service.storage.items) == old(JournalEntries(service.storage.items)) + [old(deletedEntry).value])
        && entries == Loaded()
      ensures deletedEntry.None?
      ensures isWriting == old(isWriting) && editingEntry == old(editingEntry)
      ensures title == old(title) && content == old(content) && searchTerm == old(searchTerm)
    {
      if deletedEntry.Some? {
        var e := deletedEntry.value;
        var saved := service.SaveJournalEntry(JournalDraft(Some(e.id), e.title, e.content, e.timestamp, e.mood), e.id, now);
        UpsertFacts(old(JournalEntries(service.storage.items)), e);
        deletedEntry := None;
        LoadEntries();
      }
    }

    /** The editor's delete button: after the user confirms, the edited entry
        is removed from storage, the editor closes and the list reloads. */
    method DeleteEditing(confirmed: bool)
      requires Valid() && editingEntry.Some?
      modifies this, service.storage
      ensures Valid()
      ensures !confirmed ==>
        && service.storage.items == old(service.storage.items) && editingEntry == old(editingEntry)
        && entries == old(entries) && isWriting == old(isWriting)
        && title == old(title) && content == old(content)
      ensures confirmed ==>
        && JournalEntries(service.storage.items) == RemoveKey(old(JournalEntries(service.storage.items)), JournalId, old(editingEntry).value.id)
        && service.storage.items == JournalRemoved(old(service.storage.items), old(editingEntry).value.id)
        && entries == Loaded()
        && !isWriting && editingEntry.None? && title == "" && content == ""
      ensures searchTerm == old(searchTerm) && deletedEntry == old(deletedEntry)
    {
      if confirmed {
        var id := editingEntry.value.id;
        var _ := service.DeleteJournalEntry(id);
        RemoveKeyFacts(old(JournalEntries(service.storage.items)), JournalId, id);
        CancelWriting();
        LoadEntries();
      }
    }

    /** What the list shows. */
    function Shown(): seq<JournalEntry>
      reads this
    {
      FilteredEntries(entries, searchTerm)
    }
  }
}
