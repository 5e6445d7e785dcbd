/** The music filter editor: a local draft of genres, one mood, one activity and a list of artists,
    edited by chip toggles, select-or-clear options and an artist text box, then handed to the parent
    on Apply or cleared on Reset. Both buttons also close the editor. */
module MusicFilters {
  import opened Common

  datatype MusicFilters = MusicFilters(genres: seq<string>, mood: string, activity: string, artists: seq<string>)

  const GenreOptions: seq<string> :=
    ["Pop", "Rock", "Hip Hop", "R&B", "Country", "Electronic", "Jazz", "Classical", "Indie", "Folk", "Metal", "Reggae", "Latin"]
  const MoodOptions: seq<string> := ["Happy", "Sad", "Relaxed", "Energetic", "Focused", "Romantic", "Angry", "Nostalgic"]
  const ActivityOptions: seq<string> := ["Workout", "Study", "Relaxation", "Party", "Commute", "Sleep", "Work", "Meditation"]

  /** `resetFilters`: everything empty or unset. */
  const EmptyFilters := MusicFilters([], "", "", [])

  /** `prev.x === choice ? '' : choice`: picking the selected option clears it, picking another selects it. */
  function SelectOption(current: string, choice: string): (r: string)
    ensures r == "" || r == choice
    ensures current == choice ==> r == ""
    ensures current != choice ==> r == choice
  {
    if current == choice then "" else choice
  }

  /** For a non-empty option, "" is the result exactly when that option was already selected. */
  lemma SelectOptionClearsIffSelected(current: string, choice: string)
    requires choice != ""
    ensures SelectOption(current, choice) == "" <==> current == choice
  {
  }

  /** Picking the same option twice returns to where it started, from unset or from that option. */
  lemma SelectOptionTwice(current: string, choice: string)
    requires choice != ""
    requires current == "" || current == choice
    ensures SelectOption(SelectOption(current, choice), choice) == current
  {
  }

  /** The `toggleGenre(genre)` updater: only the genres change. */
  function ToggleGenre(f: MusicFilters, genre: string): (r: MusicFilters)
    ensures r.genres == Toggle(f.genres, genre)
    ensures r.mood == f.mood && r.activity == f.activity && r.artists == f.artists
  {
    f.(genres := Toggle(f.genres, genre))
  }

  /** The `selectMood(mood)` updater: only the mood changes. */
  function SelectMood(f: MusicFilters, mood: string): (r: MusicFilters)
    ensures r.mood == SelectOption(f.mood, mood)
    ensures r.genres == f.genres && r.activity == f.activity && r.artists == f.artists
  {
    f.(mood := SelectOption(f.mood, mood))
  }

  /** The `selectActivity(activity)` updater: only the activity changes. */
  function SelectActivity(f: MusicFilters, activity: string): (r: MusicFilters)
    ensures r.activity == SelectOption(f.activity, activity)
    ensures r.genres == f.genres && r.mood == f.mood && r.artists == f.artists
  {
    f.(activity := SelectOption(f.activity, activity))
  }

  /** Whether `addArtist()` accepts the text box: its trimmed text is non-empty and not yet listed. */
  predicate AcceptsArtist(f: MusicFilters, input: string)
  {
    Trim(input) != "" && Trim(input) !in f.artists
  }

  /** `addArtist()`: the new draft and the new text box. The trimmed text is appended and the box
      cleared when it is accepted; otherwise both stay as they were. */
  function AddArtist(f: MusicFilters, input: string): (r: (MusicFilters, string))
    ensures AcceptsArtist(f, input) ==> r.0.artists == f.artists + [Trim(input)] && r.1 == ""
    ensures !AcceptsArtist(f, input) ==> r.0 == f && r.1 == input
    ensures r.0.genres == f.genres && r.0.mood == f.mood && r.0.activity == f.activity
  {
    var name := Trim(input);
    if name != "" && name !in f.artists then (f.(artists := f.artists + [name]), "") else (f, input)
  }

  /** Adding an artist never creates a duplicate, and never adds blank text. */
  lemma AddArtistKeepsArtistsUnique(f: MusicFilters, input: string)
    requires NoDup(f.artists)
    ensures NoDup(AddArtist(f, input).0.artists)
    ensures forall a :: a in AddArtist(f, input).0.artists && a !in f.artists ==> a == Trim(input) && a != ""
  {
    if AcceptsArtist(f, input) {
      var xs := f.artists + [Trim(input)];
      forall i, j | 0 <= i < j < |xs| ensures xs[i] != xs[j] {
        if j == |f.artists| { assert xs[i] == f.artists[i]; } else { assert xs[i] == f.artists[i] && xs[j] == f.artists[j]; }
      }
    }
  }

  /** The `removeArtist(artist)` updater: every occurrence goes, the rest keep their order. */
  function RemoveArtist(f: MusicFilters, artist: string): (r: MusicFilters)
    ensures r.artists == Without(f.artists, artist)
    ensures r.genres == f.genres && r.mood == f.mood && r.activity == f.activity
  {
    f.(artists := Without(f.artists, artist))
  }

  /** An artist that was just added can be removed again, leaving the list as it was. */
  lemma AddThenRemoveArtist(f: MusicFilters, input: string)
    requires AcceptsArtist(f, input)
    ensures RemoveArtist(AddArtist(f, input).0, Trim(input)) == f
  {
    WithoutAppend(f.artists, [Trim(input)], Trim(input));
    assert Without([Trim(input)], Trim(input)) == [];
    assert f.artists + [] == f.artists;
  }

  /** The mounted editor: its local draft, the artist text box, the parent's filters (written by
      `setFilters`) and whether `onClose` has been called. */
  class MusicFilterModal {
    var localFilters: MusicFilters
    var newArtist: string
    var parentFilters: MusicFilters
    var closed: bool

    /** `useState({...filters})` and `useState('')`. */
    constructor (filters: MusicFilters)
      ensures localFilters == filters && parentFilters == filters
      ensures newArtist == "" && !closed
    {
      localFilters := filters;
      parentFilters := filters;
      newArtist := "";
      closed := false;
    }

    /** `onChangeText={setNewArtist}`. */
    method SetNewArtist(text: string)
      modifies this
      ensures newArtist == text
      ensures localFilters == old(localFilters) && parentFilters == old(parentFilters) && closed == old(closed)
    {
      newArtist := text;
    }

    method ToggleGenreChip(genre: string)
      modifies this
      ensures localFilters == ToggleGenre(old(localFilters), genre)
      ensures newArtist == old(newArtist) && parentFilters == old(parentFilters) && closed == old(closed)
    {
      localFilters := ToggleGenre(localFilters, genre);
    }

    method SelectMoodChip(mood: string)
      modifies this
      ensures localFilters == SelectMood(old(localFilters), mood)
      ensures newArtist == old(newArtist) && parentFilters == old(parentFilters) && closed == old(closed)
    {
      localFilters := SelectMood(localFilters, mood);
    }

    method SelectActivityChip(activity: string)
      modifies this
      ensures localFilters == SelectActivity(old(localFilters), activity)
      ensures newArtist == old(newArtist) && parentFilters == old(parentFilters) && closed == old(closed)
    {
      localFilters := SelectActivity(localFilters, activity);
    }

    /** `addArtist()`: the text box is cleared only when an artist was added. */
    method AddArtistFromInput() returns (added: bool)
      modifies this
      ensures added <==> AcceptsArtist(old(localFilters), old(newArtist))
      ensures (localFilters, newArtist) == AddArtist(old(localFilters), old(newArtist))
      ensures parentFilters == old(parentFilters) && closed == old(closed)
    {
      var name := Trim(newArtist);
      added := name != "" && name !in localFilters.artists;
      if added {
        localFilters := localFilters.(artists := localFilters.artists + [name]);
        newArtist := "";
      }
    }

    method RemoveArtistTag(artist: string)
      modifies this
      ensures localFilters == RemoveArtist(old(localFilters), artist)
      ensures newArtist == old(newArtist) && parentFilters == old(parentFilters) && closed == old(closed)
    {
      localFilters := RemoveArtist(localFilters, artist);
    }

    /** `handleApply()`: the draft goes to the parent unchanged. */
    method HandleApply()
      modifies this
      ensures parentFilters == old(localFilters) && localFilters == old(localFilters)
      ensures newArtist == old(newArtist) && closed
    {
      parentFilters := localFilters;
      closed := true;
    }

    /** `handleReset()`: draft and parent filters both become all-empty. */
    method HandleReset()
      modifies this
      ensures localFilters == EmptyFilters && parentFilters == EmptyFilters
      ensures newArtist == old(newArtist) && closed
    {
      localFilters := EmptyFilters;
      parentFilters := EmptyFilters;
      closed := true;
    }
  }
}
