/** The movie filter editor: a local draft of genres, streaming services and two two-ended ranges
    (release year and runtime) set by sliders, handed to the parent on Apply or replaced by fixed
    defaults on Reset. Both buttons also close the editor. Nothing keeps a range's lower end at or
    below its upper end. */
module MovieFilters {
  import opened Common

  /** A `[low, high]` slider pair. */
  datatype Range = Range(low: int, high: int)

  datatype MovieFilters = MovieFilters(genres: seq<string>, yearRange: Range, runtime: Range, streamingServices: seq<string>)

  const GenreOptions: seq<string> :=
    ["Action", "Adventure", "Animation", "Comedy", "Crime", "Documentary", "Drama", "Fantasy", "Horror", "Mystery", "Romance", "Sci-Fi", "Thriller"]
  const StreamingOptions: seq<string> := ["Netflix", "Amazon Prime", "Disney+", "Hulu", "HBO Max", "Apple TV+"]

  /** `resetFilters`. */
  const DefaultFilters := MovieFilters([], Range(1980, 2023), Range(60, 180), [])

  /** A value the year sliders can report: 1950 to 2023 in steps of 1. */
  predicate OnYearSlider(v: int)
  {
    1950 <= v <= 2023
  }

  /** A value the runtime sliders can report: 30 to 240 in steps of 5. */
  predicate OnRuntimeSlider(v: int)
  {
    30 <= v <= 240 && (v - 30) % 5 == 0
  }

  predicate OnSliders(f: MovieFilters)
  {
    && OnYearSlider(f.yearRange.low) && OnYearSlider(f.yearRange.high)
    && OnRuntimeSlider(f.runtime.low) && OnRuntimeSlider(f.runtime.high)
  }

  /** The defaults sit on the sliders. */
  lemma DefaultsOnSliders()
    ensures OnSliders(DefaultFilters)
    ensures DefaultFilters.yearRange == Range(1980, 2023) && DefaultFilters.runtime == Range(60, 180)
  {
  }

  /** The `k`-th stop of the runtime slider, counting from its minimum. */
  function RuntimeStop(k: int): int
  {
    30 + 5 * k
  }

  /** The runtime slider's positions are exactly the 43 stops 30, 35, ..., 240. */
  lemma RuntimeSliderPositions(v: int)
    ensures OnRuntimeSlider(v) <==> exists k :: 0 <= k <= 42 && v == RuntimeStop(k)
  {
    if OnRuntimeSlider(v) {
      var k := (v - 30) / 5;
      assert v == RuntimeStop(k);
    }
  }

  /** The `toggleGenre(genre)` updater: only the genres change. */
  function ToggleGenre(f: MovieFilters, genre: string): (r: MovieFilters)
    ensures r.genres == Toggle(f.genres, genre)
    ensures r.yearRange == f.yearRange && r.runtime == f.runtime && r.streamingServices == f.streamingServices
  {
    f.(genres := Toggle(f.genres, genre))
  }

  /** The `toggleStreamingService(service)` updater: only the services change. */
  function ToggleStreamingService(f: MovieFilters, service: string): (r: MovieFilters)
    ensures r.streamingServices == Toggle(f.streamingServices, service)
    ensures r.genres == f.genres && r.yearRange == f.yearRange && r.runtime == f.runtime
  {
    f.(streamingServices := Toggle(f.streamingServices, service))
  }

  /** Which slider moved. */
  datatype SliderEnd = YearFrom | YearTo | RuntimeFrom | RuntimeTo

  /** An `onValueChange(value)` updater: the one endpoint that slider controls is replaced, nothing else. */
  function MoveSlider(f: MovieFilters, which: SliderEnd, value: int): (r: MovieFilters)
    ensures r.genres == f.genres && r.streamingServices == f.streamingServices
    ensures which == YearFrom ==> r.yearRange == Range(value, f.yearRange.high) && r.runtime == f.runtime
    ensures which == YearTo ==> r.yearRange == Range(f.yearRange.low, value) && r.runtime == f.runtime
    ensures which == RuntimeFrom ==> r.runtime == Range(value, f.runtime.high) && r.yearRange == f.yearRange
    ensures which == RuntimeTo ==> r.runtime == Range(f.runtime.low, value) && r.yearRange == f.yearRange
  {
    match which
    case YearFrom => f.(yearRange := Range(value, f.yearRange.high))
    case YearTo => f.(yearRange := Range(f.yearRange.low, value))
    case RuntimeFrom => f.(runtime := Range(value, f.runtime.high))
    case RuntimeTo => f.(runtime := Range(f.runtime.low, value))
  }

  /** The value a slider end reports lies on that slider. */
  predicate OnSliderFor(which: SliderEnd, value: int)
  {
    if which == YearFrom || which == YearTo then OnYearSlider(value) else OnRuntimeSlider(value)
  }

  /** Every edit keeps a draft on the sliders: toggles do not touch the ranges, and a slider reports only its own positions. */
  lemma EditsStayOnSliders(f: MovieFilters, which: SliderEnd, value: int, chip: string)
    requires OnSliders(f)
    ensures OnSliderFor(which, value) ==> OnSliders(MoveSlider(f, which, value))
    ensures OnSliders(ToggleGenre(f, chip)) && OnSliders(ToggleStreamingService(f, chip))
  {
  }

  /** The two ends of a range are independent: the lower year can be moved past the upper one. */
  lemma RangeOrderNotEnforced()
    ensures var f := MoveSlider(MoveSlider(DefaultFilters, YearTo, 1950), YearFrom, 2023);
            OnSliders(f) && f.yearRange.low > f.yearRange.high
  {
  }

  /** The mounted editor: its local draft, the parent's filters and whether `onClose` has been called. */
  class MovieFilterModal {
    var localFilters: MovieFilters
    var parentFilters: MovieFilters
    var closed: bool

    constructor (filters: MovieFilters)
      ensures localFilters == filters && parentFilters == filters && !closed
    {
      localFilters := filters;
      parentFilters := filters;
      closed := false;
    }

    method ToggleGenreChip(genre: string)
      modifies this
      ensures localFilters == ToggleGenre(old(localFilters), genre)
      ensures parentFilters == old(parentFilters) && closed == old(closed)
    {
      localFilters := ToggleGenre(localFilters, genre);
    }

    method ToggleServiceRow(service: string)
      modifies this
      ensures localFilters == ToggleStreamingService(old(localFilters), service)
      ensures parentFilters == old(parentFilters) && closed == old(closed)
    {
      localFilters := ToggleStreamingService(localFilters, service);
    }

    /** A slider's `onValueChange(value)`; the slider only reports its own positions. */
    method SlideTo(which: SliderEnd, value: int)
      requires OnSliderFor(which, value)
      modifies this
      ensures localFilters == MoveSlider(old(localFilters), which, value)
      ensures OnSliders(old(localFilters)) ==> OnSliders(localFilters)
      ensures parentFilters == old(parentFilters) && closed == old(closed)
    {
      if OnSliders(localFilters) {
        EditsStayOnSliders(localFilters, which, value, "");
      }
      localFilters := MoveSlider(localFilters, which, value);
    }

    /** `handleApply()`: the draft goes to the parent unchanged. */
    method HandleApply()
      modifies this
      ensures parentFilters == old(localFilters) && localFilters == old(localFilters) && closed
    {
      parentFilters := localFilters;
      closed := true;
    }

    /** `handleReset()`: draft and parent filters both become the defaults. */
    method HandleReset()
      modifies this
      ensures localFilters == DefaultFilters && parentFilters == DefaultFilters && closed
    {
      localFilters := DefaultFilters;
      parentFilters := DefaultFilters;
      closed := true;
    }
  }
}
