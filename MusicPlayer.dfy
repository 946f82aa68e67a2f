/** The lofi player (src/components/MusicPlayer.tsx): a fixed catalogue of
    sixty tracks in four genres, a genre filter, next/previous/shuffle and
    repeat modes, and the favourite tracks kept in local storage under the
    same key as the data service uses. The audio element is not modelled; its
    events are methods the environment calls. */
module MusicPlayer {
  import opened Builtins
  import opened DataStore
  import Breathing

  /** A catalogue entry; the audio and cover URLs are not modelled. */
  datatype Track = Track(id: string, title: string, artist: string, genre: string)

  /** A block of tracks that share one genre, from (id, title, artist) rows. */
  function InGenre(genre: string, rows: seq<(string, string, string)>): (block: seq<Track>)
    ensures |block| == |rows|
    ensures forall i :: 0 <= i < |rows| ==>
      block[i] == Track(rows[i].0, rows[i].1, rows[i].2, genre)
  {
    seq(|rows|, i requires 0 <= i < |rows| => Track(rows[i].0, rows[i].1, rows[i].2, genre))
  }

  /** The ambient block. */
  const AmbientTracks: seq<Track> := InGenre("ambient", [
    ("ambient-1", "Asleep", "Tomh"),
    ("ambient-2", "Simulacra", "Scott Buckley"),
    ("ambient-3", "Solitude", "Clavier"),
    ("ambient-4", "Waiting for this Moment", "Vlad Gluschenko"),
    ("ambient-5", "Meanwhile", "Scott Buckley"),
    ("ambient-6", "With You", "Onycs"),
    ("ambient-7", "Voyager", "Onycs"),
    ("ambient-8", "Shine", "Onycs"),
    ("ambient-9", "Bloom", "Onycs"),
    ("ambient-10", "Ambient Background", "Anonymous"),
    ("ambient-11", "Cellar Door", "Tunetank"),
    ("ambient-12", "Two Places", "A Himitsu"),
    ("ambient-13", "The Flow of Time", "Alex Productions"),
    ("ambient-14", "2184", "Miguel Jhonson"),
    ("ambient-15", "A Horrid Discovery", "Aila Scott")
  ])

  /** The chill block. */
  const ChillTracks: seq<Track> := InGenre("chill", [
    ("chill-1", "Invented Rooms", "Savfk"),
    ("chill-2", "Serenity", "Roa"),
    ("chill-3", "Waters Edge", "Pyrosion"),
    ("chill-4", "Speechless", "Pyrosion"),
    ("chill-5", "Let Me Take You On A Ride", "Pyrosion"),
    ("chill-6", "Rebirth", "Onycs"),
    ("chill-7", "Momentum", "Nomyn"),
    ("chill-8", "You Always Carry the Sun in Your Hands For Me", "Nikos Spiliotis"),
    ("chill-9", "Vibe", "Mehul Choudhary"),
    ("chill-10", "Lofi Beat Chill", "Anonymous"),
    ("chill-11", "Bubbles", "Kaiji"),
    ("chill-12", "St. Francis", "Josh Lippi"),
    ("chill-13", "Train Robbery", "Hayden Folker"),
    ("chill-14", "Summer Breeze", "Aftertune"),
    ("chill-15", "3 A.M.", "Aftertune")
  ])

  /** The sleep block. */
  const SleepTracks: seq<Track> := InGenre("sleep", [
    ("sleep-1", "Relaxing Birds", "Anonymous"),
    ("sleep-2", "Sleep Music", "Anonymous"),
    ("sleep-3", "Relaxing Music", "Anonymous"),
    ("sleep-4", "The Cradle Of Your Soul", "Anonymous"),
    ("sleep-5", "Soft Piano Music", "Anonymous"),
    ("sleep-6", "Perfect Beauty", "Anonymous"),
    ("sleep-7", "Samurai Relaxing Flute", "Anonymous"),
    ("sleep-8", "Morning In The Forest", "Anonymous"),
    ("sleep-9", "Nature Walk", "Anonymous"),
    ("sleep-10", "Melody Of Nature", "Anonymous"),
    ("sleep-11", "Forest Lullaby", "Anonymous"),
    ("sleep-12", "Breath Of Life", "Anonymous"),
    ("sleep-13", "432Hz Meditation", "Anonymous"),
    ("sleep-14", "Soft Piano", "Anonymous"),
    ("sleep-15", "Meditation Music", "Anonymous")
  ])

  /** The study block. */
  const StudyTracks: seq<Track> := InGenre("study", [
    ("study-1", "Whip Afro Dancehall", "Anonymous"),
    ("study-2", "Study Time", "Anonymous"),
    ("study-3", "Study", "Anonymous"),
    ("study-4", "Simple Happy Life", "Anonymous"),
    ("study-5", "Sapphire", "Anonymous"),
    ("study-6", "Please Calm My Mind", "Anonymous"),
    ("study-7", "Majestic Sky", "Anonymous"),
    ("study-8", "Nothing But Time", "Anonymous"),
    ("study-9", "Just Relax", "Anonymous"),
    ("study-10", "Inner Peace", "Anonymous"),
    ("study-11", "Jungle Waves", "Anonymous"),
    ("study-12", "Gorila", "Anonymous"),
    ("study-13", "Gardens", "Anonymous"),
    ("study-14", "Calm Soft Music", "Anonymous"),
    ("study-15", "By The Riverside", "Anonymous")
  ])

  /** `tracks`, in catalogue order. */
  const Tracks: seq<Track> := AmbientTracks + ChillTracks + SleepTracks + StudyTracks

  /** `genres`, the filter buttons. */
  const Genres: seq<string> := ["all", "ambient", "chill", "sleep", "study"]

  /** The case-insensitive genre comparison of the filter. */
  predicate SameGenre(selected: string, t: Track)
  {
    ToLower(t.genre) == ToLower(selected)
  }

  /** `filteredTracks` over a catalogue: all of it for "all", otherwise the
      tracks whose genre matches the selection, ignoring case. */
  function Playlist(catalog: seq<Track>, selected: string): (playlist: seq<Track>)
    ensures forall i :: 0 <= i < |playlist| ==> selected == "all" || SameGenre(selected, playlist[i])
  {
    if selected == "all" then catalog else Filter(catalog, t => SameGenre(selected, t))
  }

  /** `filteredTracks` of the player's own catalogue. */
  function FilteredTracks(selected: string): seq<Track>
  {
    Playlist(Tracks, selected)
  }

  /** Distinct genre names of the catalogue stay distinct in lower case. */
  lemma GenreNamesDiffer()
    ensures ToLower("ambient") == "ambient" && ToLower("chill") == "chill"
    ensures ToLower("sleep") == "sleep" && ToLower("study") == "study"
  {
    assert ToLower("ambient") == "ambient" by {
      forall i | 0 <= i < 7 ensures ToLower("ambient")[i] == "ambient"[i] { }
    }
    assert ToLower("chill") == "chill" by {
      forall i | 0 <= i < 5 ensures ToLower("chill")[i] == "chill"[i] { }
    }
    assert ToLower("sleep") == "sleep" by {
      forall i | 0 <= i < 5 ensures ToLower("sleep")[i] == "sleep"[i] { }
    }
    assert ToLower("study") == "study" by {
      forall i | 0 <= i < 5 ensures ToLower("study")[i] == "study"[i] { }
    }
  }

  /** A block keeps all its tracks when its genre is selected and none when
      a genre with another lower-case name is. */
  lemma BlockFilter(block: seq<Track>, genre: string, g: string)
    requires forall i :: 0 <= i < |block| ==> block[i].genre == genre
    ensures ToLower(genre) == ToLower(g) ==> Filter(block, t => SameGenre(g, t)) == block
    ensures ToLower(genre) != ToLower(g) ==> Filter(block, t => SameGenre(g, t)) == []
  {
    var p := (t: Track) => SameGenre(g, t);
    if ToLower(genre) == ToLower(g) {
      FilterAll(block, p);
    } else {
      FilterNone(block, p);
    }
  }

  /** Four blocks of distinct genres: selecting one of the genres keeps exactly
      its block. */
  lemma SelectBlock(a: seq<Track>, c: seq<Track>, s: seq<Track>, t: seq<Track>, g: string)
    requires forall i :: 0 <= i < |a| ==> a[i].genre == "ambient"
    requires forall i :: 0 <= i < |c| ==> c[i].genre == "chill"
    requires forall i :: 0 <= i < |s| ==> s[i].genre == "sleep"
    requires forall i :: 0 <= i < |t| ==> t[i].genre == "study"
    requires g in ["ambient", "chill", "sleep", "study"]
    ensures Playlist(a + c + s + t, g) == (if g == "ambient" then a else if g == "chill" then c else if g == "sleep" then s else t)
  {
    var p := (x: Track) => SameGenre(g, x);
    FilterFour(a, c, s, t, p);
    GenreNamesDiffer();
    assert "chill"[0] != "sleep"[0] && "chill"[0] != "study"[0] && "sleep"[1] != "study"[1];
    BlockFilter(a, "ambient", g);
    BlockFilter(c, "chill", g);
    BlockFilter(s, "sleep", g);
    BlockFilter(t, "study", g);
  }

  lemma FilterFour<T>(a: seq<T>, c: seq<T>, s: seq<T>, t: seq<T>, p: T -> bool)
    ensures Filter(a + c + s + t, p) == Filter(a, p) + Filter(c, p) + Filter(s, p) + Filter(t, p)
  {
    FilterAppend(a + c + s, t, p);
    FilterAppend(a + c, s, p);
    FilterAppend(a, c, p);
  }

  /** Each genre button lists its fifteen tracks in catalogue order, and "all"
      lists all sixty. */
  lemma FilteredTracksByGenre()
    ensures FilteredTracks("all") == Tracks && |Tracks| == 60
    ensures FilteredTracks("ambient") == AmbientTracks
    ensures FilteredTracks("chill") == ChillTracks
    ensures FilteredTracks("sleep") == SleepTracks
    ensures FilteredTracks("study") == StudyTracks
  {
    SelectBlock(AmbientTracks, ChillTracks, SleepTracks, StudyTracks, "ambient");
    SelectBlock(AmbientTracks, ChillTracks, SleepTracks, StudyTracks, "chill");
    SelectBlock(AmbientTracks, ChillTracks, SleepTracks, StudyTracks, "sleep");
    SelectBlock(AmbientTracks, ChillTracks, SleepTracks, StudyTracks, "study");
  }

  /** Every button selects a non-empty playlist. */
  predicate PlaylistsNonEmpty(catalog: seq<Track>)
  {
    forall g :: g in Genres ==> |Playlist(catalog, g)| > 0
  }

  /** The catalogue gives every button a playlist of 15 tracks, 60 for "all". */
  lemma CatalogPlaylists()
    ensures forall g :: g in Genres ==> |FilteredTracks(g)| == (if g == "all" then 60 else 15)
    ensures PlaylistsNonEmpty(Tracks)
  {
    FilteredTracksByGenre();
  }

  /** The remainder of a number below twice the divisor. */
  lemma ModBelowTwice(a: int, n: int)
    requires n > 0 && 0 <= a < 2 * n
    ensures a % n == (if a < n then a else a - n)
  {
    if a < n {
      assert a == 0 * n + a;
    } else {
      assert a == 1 * n + (a - n);
    }
  }

  /** `(prev + 1) % length`. */
  function NextIndex(i: nat, n: nat): (j: nat)
    requires i < n
    ensures j == (if i == n - 1 then 0 else i + 1)
  {
    ModBelowTwice(i + 1, n);
    (i + 1) % n
  }

  /** `(prev - 1 + length) % length`. */
  function PrevIndex(i: nat, n: nat): (j: nat)
    requires i < n
    ensures j == (if i == 0 then n - 1 else i - 1)
  {
    ModBelowTwice(i - 1 + n, n);
    (i - 1 + n) % n
  }

  /** Previous undoes next and next undoes previous, and both stay inside
      the playlist. */
  lemma NextPrevInverse(i: nat, n: nat)
    requires i < n
    ensures NextIndex(i, n) < n && PrevIndex(i, n) < n
    ensures PrevIndex(NextIndex(i, n), n) == i
    ensures NextIndex(PrevIndex(i, n), n) == i
  {
  }

  /** `k` presses of next from the first track. */
  function NextIterated(n: nat, k: nat): (j: nat)
    requires n > 0
    ensures j < n
    decreases k
  {
    if k == 0 then 0 else NextIndex(NextIterated(n, k - 1), n)
  }

  /** Without shuffle, pressing next plays the playlist in order: the first
      `n - 1` presses reach each following track. */
  lemma {:induction false} NextVisitsInOrder(n: nat, k: nat)
    requires n > 0 && k < n
    ensures NextIterated(n, k) == k
  {
    if k > 0 {
      NextVisitsInOrder(n, k - 1);
    }
  }

  /** After `n` presses the playlist starts over, so the order repeats. */
  lemma {:induction false} NextWrapsAround(n: nat, k: nat)
    requires n > 0
    ensures NextIterated(n, k + n) == NextIterated(n, k)
  {
    if k == 0 {
      NextVisitsInOrder(n, n - 1);
    } else {
      NextWrapsAround(n, k - 1);
      assert k - 1 + n == k + n - 1;
    }
  }

  datatype RepeatMode = Off | One | All

  /** The repeat button: off, all, one, off. */
  function NextRepeat(m: RepeatMode): RepeatMode
  {
    match m
    case Off => All
    case All => One
    case One => Off
  }

  /** Three presses give back the mode, and each press changes it. */
  lemma RepeatCycles(m: RepeatMode)
    ensures NextRepeat(m) != m
    ensures NextRepeat(NextRepeat(m)) != m
    ensures NextRepeat(NextRepeat(NextRepeat(m))) == m
  {
  }

  /** `formatTime()` for the track clock: whole minutes and whole seconds. */
  function FormatTrackTime(time: real): string
    requires time >= 0.0
  {
    var minutes := (time / 60.0).Floor;
    var seconds := (time - 60.0 * (time / 60.0).Floor as real).Floor;
    FloorFacts(time);
    NatToString(minutes) + ":" + PadStart2(NatToString(seconds))
  }

  lemma FloorFacts(time: real)
    requires time >= 0.0
    ensures (time / 60.0).Floor == time.Floor / 60
    ensures (time - 60.0 * (time / 60.0).Floor as real).Floor == time.Floor % 60
    ensures 0 <= time.Floor % 60 < 60 && |NatToString(time.Floor % 60)| <= 2
  {
    var n := time.Floor;
    var m := n / 60;
    assert n as real <= time < n as real + 1.0;
    assert 60 * m <= n < 60 * m + 60;
    assert (60 * m) as real <= time < (60 * m + 60) as real;
    assert m as real <= time / 60.0 < (m + 1) as real;
    var r := time - 60.0 * m as real;
    assert (n - 60 * m) as real <= r < (n - 60 * m) as real + 1.0;
    Breathing.SmallNatToString(n % 60);
  }

  /** The track clock shows the same text as the breathing clock for the whole
      seconds played. */
  lemma FormatTrackTimeWholeSeconds(time: real)
    requires time >= 0.0
    ensures FormatTrackTime(time) == Breathing.FormatTime(time.Floor)
  {
    FloorFacts(time);
  }

  /** The position of the progress slider in percent: 0 while the duration is
      unknown (0), else the played fraction. */
  function SliderValue(currentTime: real, duration: real): real
  {
    if duration == 0.0 then 0.0 else (currentTime / duration) * 100.0
  }

  /** `handleSeek()`: the time a slider position stands for. */
  function SeekTime(percent: real, duration: real): real
  {
    (percent / 100.0) * duration
  }

  /** Seeking to a slider position puts the slider at that position, and the
      seek time stays within the track. */
  lemma SeekRoundTrip(percent: real, duration: real)
    requires duration > 0.0 && 0.0 <= percent <= 100.0
    ensures SliderValue(SeekTime(percent, duration), duration) == percent
    ensures 0.0 <= SeekTime(percent, duration) <= duration
  {
    var t := SeekTime(percent, duration);
    assert t / duration == percent / 100.0;
  }

  /** The player's state: one field per piece of component state, plus the
      storage the favourites live in. */
  class Player {
    const storage: LocalStorage
    const tracks: seq<Track>
    var isPlaying: bool
    var currentTrack: nat
    var volume: real
    var isMuted: bool
    var currentTime: real
    var duration: real
    var isShuffled: bool
    var repeatMode: RepeatMode
    var favorites: seq<string>
    var selectedGenre: string

    /** The genre is one of the buttons, the current index lies inside its
        playlist, and the volume is a fraction. */
    ghost predicate Valid()
      reads this, storage
    {
      && storage.Valid()
      && selectedGenre in Genres
      && PlaylistsNonEmpty(tracks)
      && currentTrack < |Playlist(tracks, selectedGenre)|
      && 0.0 <= volume <= 1.0
      && currentTime >= 0.0 && duration >= 0.0
    }

    /** `filteredTracks` of the current selection. */
    function CurrentPlaylist(): seq<Track>
      reads this
    {
      Playlist(tracks, selectedGenre)
    }

    /** The first render and the favourites loaded on mount. */
    constructor(storage: LocalStorage)
      requires storage.Valid()
      ensures Valid() && this.storage == storage && tracks == Tracks
      ensures !isPlaying && currentTrack == 0 && volume == 0.7 && !isMuted
      ensures currentTime == 0.0 && duration == 0.0
      ensures !isShuffled && repeatMode == Off && selectedGenre == "all"
      ensures favorites == Favorites(storage.items)
    {
      this.storage := storage;
      isPlaying := false;
      currentTrack := 0;
      volume := 0.7;
      isMuted := false;
      currentTime := 0.0;
      duration := 0.0;
      isShuffled := false;
      repeatMode := Off;
      favorites := Favorites(storage.items);
      selectedGenre := "all";
      tracks := Tracks;
      CatalogPlaylists();
    }

    /** `nextTrack()`: with shuffle the index the random draw gave (`pick`,
        which is below the playlist length), else the following track,
        wrapping around. */
    method NextTrack(pick: nat)
      requires Valid() && (isShuffled ==> pick < |CurrentPlaylist()|)
      modifies this
      ensures Valid()
      ensures currentTrack == (if isShuffled then pick else NextIndex(old(currentTrack), old(|CurrentPlaylist()|)))
      ensures isPlaying == old(isPlaying) && selectedGenre == old(selectedGenre) && isShuffled == old(isShuffled)
      ensures repeatMode == old(repeatMode) && favorites == old(favorites) && volume == old(volume)
      ensures isMuted == old(isMuted) && currentTime == old(currentTime) && duration == old(duration)
    {
      if isShuffled {
        currentTrack := pick;
      } else {
        currentTrack := NextIndex(currentTrack, |CurrentPlaylist()|);
      }
    }

    /** `prevTrack()`: the preceding track, wrapping around; shuffle does not
        apply. */
    method PrevTrack()
      requires Valid()
      modifies this
      ensures Valid()
      ensures currentTrack == PrevIndex(old(currentTrack), old(|CurrentPlaylist()|))
      ensures isPlaying == old(isPlaying) && selectedGenre == old(selectedGenre) && isShuffled == old(isShuffled)
      ensures repeatMode == old(repeatMode) && favorites == old(favorites) && volume == old(volume)
      ensures isMuted == old(isMuted) && currentTime == old(currentTime) && duration == old(duration)
    {
      currentTrack := PrevIndex(currentTrack, |CurrentPlaylist()|);
    }

    /** The end of a track: repeat-one replays it from the start, repeat-all
        or any track but the last moves on as next does, and the last track
        with repeat off stops playback. */
    method HandleEnded(pick: nat)
      requires Valid() && (isShuffled ==> pick < |CurrentPlaylist()|)
      modifies this
      ensures Valid()
      ensures old(repeatMode) == One ==> currentTrack == old(currentTrack) && isPlaying == old(isPlaying)
      ensures old(repeatMode) != One && (old(repeatMode) == All || old(currentTrack) < |CurrentPlaylist()| - 1) ==>
        currentTrack == (if isShuffled then pick else NextIndex(old(currentTrack), old(|CurrentPlaylist()|)))
        && isPlaying == old(isPlaying)
      ensures old(repeatMode) == Off && old(currentTrack) == |CurrentPlaylist()| - 1 ==>
        currentTrack == old(currentTrack) && !isPlaying
      ensures selectedGenre == old(selectedGenre) && isShuffled == old(isShuffled) && repeatMode == old(repeatMode)
      ensures favorites == old(favorites) && volume == old(volume) && isMuted == old(isMuted)
      ensures duration == old(duration)
      ensures currentTime == (if old(repeatMode) == One then 0.0 else old(currentTime))
    {
      if repeatMode == One {
        currentTime := 0.0;
      } else if repeatMode == All || currentTrack < |CurrentPlaylist()| - 1 {
        NextTrack(pick);
      } else {
        isPlaying := false;
      }
    }

    /** `togglePlay()`. */
    method TogglePlay()
      requires Valid()
      modifies this
      ensures Valid() && isPlaying == !old(isPlaying)
      ensures currentTrack == old(currentTrack) && selectedGenre == old(selectedGenre)
      ensures isShuffled == old(isShuffled) && repeatMode == old(repeatMode) && favorites == old(favorites)
      ensures volume == old(volume) && isMuted == old(isMuted)
      ensures currentTime == old(currentTime) && duration == old(duration)
    {
      isPlaying := !isPlaying;
    }

    /** The audio element's play and pause events. */
    method AudioPlaying(playing: bool)
      requires Valid()
      modifies this
      ensures Valid() && isPlaying == playing
      ensures currentTrack == old(currentTrack) && selectedGenre == old(selectedGenre)
      ensures isShuffled == old(isShuffled) && repeatMode == old(repeatMode) && favorites == old(favorites)
      ensures volume == old(volume) && isMuted == old(isMuted)
      ensures currentTime == old(currentTime) && duration == old(duration)
    {
      isPlaying := playing;
    }

    /** The audio element's time-update and loaded-metadata events. */
    method AudioProgress(time: real, length: real)
      requires Valid() && time >= 0.0 && length >= 0.0
      modifies this
      ensures Valid() && currentTime == time && duration == length
      ensures isPlaying == old(isPlaying) && currentTrack == old(currentTrack) && selectedGenre == old(selectedGenre)
      ensures isShuffled == old(isShuffled) && repeatMode == old(repeatMode) && favorites == old(favorites)
      ensures volume == old(volume) && isMuted == old(isMuted)
    {
      currentTime := time;
      duration := length;
    }

    /** `handleSeek()`: moves the clock to the slider position's time. */
    method Seek(percent: real)
      requires Valid() && 0.0 <= percent <= 100.0
      modifies this
      ensures Valid() && currentTime == SeekTime(percent, duration)
      ensures duration > 0.0 ==> SliderValue(currentTime, duration) == percent
      ensures isPlaying == old(isPlaying) && currentTrack == old(currentTrack) && selectedGenre == old(selectedGenre)
      ensures isShuffled == old(isShuffled) && repeatMode == old(repeatMode) && favorites == old(favorites)
      ensures volume == old(volume) && isMuted == old(isMuted) && duration == old(duration)
    {
      currentTime := SeekTime(percent, duration);
      if duration > 0.0 {
        SeekRoundTrip(percent, duration);
      }
    }

    /** `toggleMute()`: the slider then shows 0 while the volume is kept. */
    method ToggleMute()
      requires Valid()
      modifies this
      ensures Valid() && isMuted == !old(isMuted)
      ensures isPlaying == old(isPlaying) && currentTrack == old(currentTrack) && selectedGenre == old(selectedGenre)
      ensures isShuffled == old(isShuffled) && repeatMode == old(repeatMode) && favorites == old(favorites)
      ensures volume == old(volume) && currentTime == old(currentTime) && duration == old(duration)
    {
      isMuted := !isMuted;
    }

    /** The volume the slider shows. */
    function ShownVolume(): (v: real)
      requires Valid()
      reads this, storage
      ensures 0.0 <= v <= 1.0 && (isMuted ==> v == 0.0) && (!isMuted ==> v == volume)
    {
      if isMuted then 0.0 else volume
    }

    /** `handleVolumeChange()`: the slider runs from 0 to 1. */
    method SetVolume(v: real)
      requires Valid() && 0.0 <= v <= 1.0
      modifies this
      ensures Valid() && volume == v
      ensures isPlaying == old(isPlaying) && currentTrack == old(currentTrack) && selectedGenre == old(selectedGenre)
      ensures isShuffled == old(isShuffled) && repeatMode == old(repeatMode) && favorites == old(favorites)
      ensures isMuted == old(isMuted) && currentTime == old(currentTime) && duration == old(duration)
    {
      volume := v;
    }

    /** The shuffle button. */
    method ToggleShuffle()
      requires Valid()
      modifies this
      ensures Valid() && isShuffled == !old(isShuffled)
      ensures isPlaying == old(isPlaying) && currentTrack == old(currentTrack) && selectedGenre == old(selectedGenre)
      ensures repeatMode == old(repeatMode) && favorites == old(favorites) && volume == old(volume)
      ensures isMuted == old(isMuted) && currentTime == old(currentTime) && duration == old(duration)
    {
      isShuffled := !isShuffled;
    }

    /** The repeat button. */
    method CycleRepeatMode()
      requires Valid()
      modifies this
      ensures Valid() && repeatMode == NextRepeat(old(repeatMode))
      ensures isPlaying == old(isPlaying) && currentTrack == old(currentTrack) && selectedGenre == old(selectedGenre)
      ensures isShuffled == old(isShuffled) && favorites == old(favorites) && volume == old(volume)
      ensures isMuted == old(isMuted) && currentTime == old(currentTime) && duration == old(duration)
    {
      repeatMode := NextRepeat(repeatMode);
    }

    /** A genre button: a different genre selects its playlist from the first
        track; the current genre changes nothing. */
    method SelectGenre(g: string)
      requires Valid() && g in Genres
      modifies this
      ensures Valid() && selectedGenre == g
      ensures currentTrack == (if g == old(selectedGenre) then old(currentTrack) else 0)
      ensures isPlaying == old(isPlaying) && isShuffled == old(isShuffled) && repeatMode == old(repeatMode)
      ensures favorites == old(favorites) && volume == old(volume)
      ensures isMuted == old(isMuted) && currentTime == old(currentTime) && duration == old(duration)
    {
      if g != selectedGenre {
        selectedGenre := g;
        currentTrack := 0;
      }
    }

    /** A click on a playlist row. */
    method SelectTrack(index: nat)
      requires Valid() && index < |CurrentPlaylist()|
      modifies this
      ensures Valid() && currentTrack == index
      ensures isPlaying == old(isPlaying) && selectedGenre == old(selectedGenre)
      ensures isShuffled == old(isShuffled) && repeatMode == old(repeatMode) && favorites == old(favorites)
      ensures volume == old(volume) && isMuted == old(isMuted)
      ensures currentTime == old(currentTime) && duration == old(duration)
    {
      currentTrack := index;
    }

    /** `toggleFavorite()`: adds or removes the track id and stores the new
        list under the favourites key, where `getFavorites` reads it. */
    method ToggleFavorite(trackId: string)
      requires Valid()
      modifies this, storage
      ensures Valid()
      ensures favorites == Toggle(old(favorites), trackId)
      ensures trackId in favorites <==> trackId !in old(favorites)
      ensures storage.items == old(storage.items)[FavoritesKey := FavoritesValue(favorites)]
      ensures Favorites(storage.items) == favorites
      ensures isPlaying == old(isPlaying) && currentTrack == old(currentTrack) && selectedGenre == old(selectedGenre)
      ensures isShuffled == old(isShuffled) && repeatMode == old(repeatMode) && volume == old(volume)
      ensures isMuted == old(isMuted) && currentTime == old(currentTime) && duration == old(duration)
    {
      var newFavorites := if trackId in favorites then Filter(favorites, id => id != trackId) else favorites + [trackId];
      ToggleFacts(favorites, trackId);
      favorites := newFavorites;
      storage.SetItem(FavoritesKey, FavoritesValue(newFavorites));
    }
  }
}
