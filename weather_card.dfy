/** The home screen's weather card: a fetch that asks for location permission and then stores a
    simulated snapshot, the loading and location-error flags around it, the condition icon, the
    capitalised condition label and which of four messages the card shows.

    The location calls are foreign I/O: their result is the parameter `outcome`. The three
    `Math.random()` draws are the parameters `uTemp`, `uCond` and `uHum`, each in [0, 1). */
module WeatherCard {
  import opened Common
  import opened WeatherState

  const Conditions: seq<string> := ["clear", "cloudy", "rainy", "stormy"]

  /** Scaling by a draw in [0, 1) keeps `n` below itself and non-negative. */
  lemma {:induction false} ScaledBelow(u: real, n: nat)
    requires 0.0 <= u < 1.0 && n > 0
    ensures 0.0 <= u * n as real < n as real
  {
    if n > 1 {
      ScaledBelow(u, n - 1);
      assert u * n as real == u * (n - 1) as real + u;
    }
  }

  /** `Math.floor(u * n)` for a draw `u` in [0, 1): an integer in [0, n). */
  function RandomIndex(u: real, n: nat): (k: int)
    requires 0.0 <= u < 1.0 && n > 0
    ensures 0 <= k < n
    ensures k as real <= u * n as real < k as real + 1.0
  {
    ScaledBelow(u, n);
    (u * n as real).Floor
  }

  /** `mockWeatherData`: temperature in [5, 34], humidity in [30, 69], one of the four conditions. */
  function MockWeather(uTemp: real, uCond: real, uHum: real): (w: Weather)
    requires 0.0 <= uTemp < 1.0 && 0.0 <= uCond < 1.0 && 0.0 <= uHum < 1.0
    ensures 5 <= w.temperature <= 34
    ensures w.humidity.Some? && 30 <= w.humidity.value <= 69
    ensures IsCondition(w.condition)
    ensures w.location == "Current Location"
  {
    Weather(RandomIndex(uTemp, 30) + 5, Conditions[RandomIndex(uCond, 4)], "Current Location",
            Some(RandomIndex(uHum, 40) + 30))
  }

  /** Every value in the stated ranges is produced by some draws, so the ranges are exact. */
  lemma MockWeatherCoversRanges(t: int, c: nat, h: int)
    requires 5 <= t <= 34 && c < 4 && 30 <= h <= 69
    ensures exists uT: real, uC: real, uH: real ::
      && 0.0 <= uT < 1.0 && 0.0 <= uC < 1.0 && 0.0 <= uH < 1.0
      && MockWeather(uT, uC, uH) == Weather(t, Conditions[c], "Current Location", Some(h))
  {
    var uT := (t - 5) as real / 30.0;
    var uC := c as real / 4.0;
    var uH := (h - 30) as real / 40.0;
    assert RandomIndex(uT, 30) == t - 5;
    assert RandomIndex(uC, 4) == c;
    assert RandomIndex(uH, 40) == h - 30;
    assert MockWeather(uT, uC, uH) == Weather(t, Conditions[c], "Current Location", Some(h));
  }

  // ---------------------------------------------------------------------------
  // Icon and label
  // ---------------------------------------------------------------------------

  datatype Glyph = SunDim | Cloud | CloudRain | Umbrella
  datatype IconColor = ThemeText | Hex(code: string)
  datatype WeatherIcon = WeatherIcon(glyph: Glyph, color: IconColor)

  /** `getWeatherIcon()`: one icon per known condition; no snapshot, or an unknown condition, shows a
      cloud in the theme's text colour. */
  function GetWeatherIcon(current: Option<Weather>): (r: WeatherIcon)
    ensures r.glyph == SunDim <==> current.Some? && current.value.condition == "clear"
    ensures r.glyph == CloudRain <==> current.Some? && current.value.condition == "rainy"
    ensures r.glyph == Umbrella <==> current.Some? && current.value.condition == "stormy"
    ensures r.glyph == Cloud <==> current.None? || current.value.condition !in ["clear", "rainy", "stormy"]
    ensures r.color == ThemeText <==> current.None? || !IsCondition(current.value.condition)
  {
    if current.None? then WeatherIcon(Cloud, ThemeText)
    else match current.value.condition
      case "clear" => WeatherIcon(SunDim, Hex("#FFB800"))
      case "cloudy" => WeatherIcon(Cloud, Hex("#8E9AAF"))
      case "rainy" => WeatherIcon(CloudRain, Hex("#4A6FA5"))
      case "stormy" => WeatherIcon(Umbrella, Hex("#4A6FA5"))
      case _ => WeatherIcon(Cloud, ThemeText)
  }

  /** `condition.charAt(0).toUpperCase() + condition.slice(1)`. */
  function ConditionLabel(condition: string): (r: string)
    ensures |r| == |condition|
    ensures condition != [] ==> r[0] == AsciiUpper(condition[0]) && r[1..] == condition[1..]
  {
    Capitalize(condition)
  }

  /** The four conditions read "Clear", "Cloudy", "Rainy" and "Stormy". */
  lemma ConditionLabels()
    ensures ConditionLabel("clear") == "Clear"
    ensures ConditionLabel("cloudy") == "Cloudy"
    ensures ConditionLabel("rainy") == "Rainy"
    ensures ConditionLabel("stormy") == "Stormy"
  {
  }

  // ---------------------------------------------------------------------------
  // What the card shows
  // ---------------------------------------------------------------------------

  datatype Display = GettingWeather | LocationDenied | ShowWeather(temperature: int, conditionText: string) | NoWeatherData

  /** The text area: loading wins over the location error, which wins over a snapshot. */
  function DisplayState(loading: bool, locationError: bool, current: Option<Weather>): (d: Display)
    ensures d == GettingWeather <==> loading
    ensures d == LocationDenied <==> !loading && locationError
    ensures d.ShowWeather? <==> !loading && !locationError && current.Some?
    ensures d.ShowWeather? ==> d == ShowWeather(current.value.temperature, ConditionLabel(current.value.condition))
    ensures d == NoWeatherData <==> !loading && !locationError && current.None?
  {
    if loading then GettingWeather
    else if locationError then LocationDenied
    else if current.Some? then ShowWeather(current.value.temperature, ConditionLabel(current.value.condition))
    else NoWeatherData
  }

  // ---------------------------------------------------------------------------
  // The fetch
  // ---------------------------------------------------------------------------

  /** What the expo-location calls do: permission granted and a position found, permission not
      granted, or one of the two calls throws. */
  datatype LocationOutcome = Located | PermissionNotGranted | LocationFailed

  class WeatherCardView {
    const provider: WeatherProvider
    var loading: bool
    var locationError: bool

    constructor (provider: WeatherProvider)
      ensures this.provider == provider && !loading && !locationError
    {
      this.provider := provider;
      loading := false;
      locationError := false;
    }

    /** The synchronous start of `fetchWeather()`, before the first await. */
    method BeginFetch()
      modifies this
      ensures loading && !locationError
    {
      loading := true;
      locationError := false;
    }

    /** The rest of `fetchWeather()`: the early return, the catch and the finally. */
    method FinishFetch(outcome: LocationOutcome, uTemp: real, uCond: real, uHum: real)
      requires 0.0 <= uTemp < 1.0 && 0.0 <= uCond < 1.0 && 0.0 <= uHum < 1.0
      requires loading && !locationError
      modifies this, provider
      ensures !loading
      ensures locationError <==> !outcome.Located?
      ensures outcome.Located? && provider.scope == InsideProvider ==>
                provider.currentWeather == Some(MockWeather(uTemp, uCond, uHum))
      ensures !outcome.Located? || provider.scope == DefaultContext ==>
                provider.currentWeather == old(provider.currentWeather)
      ensures old(provider.Valid()) ==> provider.Valid()
    {
      match outcome {
        case PermissionNotGranted =>
          locationError := true;
        case LocationFailed =>
          locationError := true;
        case Located =>
          provider.UpdateWeather(MockWeather(uTemp, uCond, uHum));
      }
      loading := false;
    }

    /** `fetchWeather()` as one step: loading ends false on every path, and only a found location
        replaces the snapshot, and only inside a provider. */
    method FetchWeather(outcome: LocationOutcome, uTemp: real, uCond: real, uHum: real)
      requires 0.0 <= uTemp < 1.0 && 0.0 <= uCond < 1.0 && 0.0 <= uHum < 1.0
      modifies this, provider
      ensures !loading
      ensures locationError <==> !outcome.Located?
      ensures outcome.Located? && provider.scope == InsideProvider ==>
                provider.currentWeather == Some(MockWeather(uTemp, uCond, uHum))
      ensures !outcome.Located? || provider.scope == DefaultContext ==>
                provider.currentWeather == old(provider.currentWeather)
      ensures old(provider.Valid()) ==> provider.Valid()
    {
      BeginFetch();
      FinishFetch(outcome, uTemp, uCond, uHum);
    }

    /** The mount effect: fetch only when there is no snapshot yet. Inside a provider there always is
        one, so only the default context fetches, and there the fetch cannot store its result. */
    method Mount(outcome: LocationOutcome, uTemp: real, uCond: real, uHum: real) returns (fetched: bool)
      requires 0.0 <= uTemp < 1.0 && 0.0 <= uCond < 1.0 && 0.0 <= uHum < 1.0
      modifies this, provider
      ensures fetched <==> old(provider.currentWeather).None?
      ensures !fetched ==> provider.currentWeather == old(provider.currentWeather)
                           && loading == old(loading) && locationError == old(locationError)
      ensures fetched ==> !loading && (locationError <==> !outcome.Located?)
      ensures fetched && outcome.Located? && provider.scope == InsideProvider ==>
                provider.currentWeather == Some(MockWeather(uTemp, uCond, uHum))
      ensures fetched && (!outcome.Located? || provider.scope == DefaultContext) ==>
                provider.currentWeather == old(provider.currentWeather)
      ensures old(provider.Valid()) && provider.scope == InsideProvider ==> !fetched
      ensures old(provider.Valid()) && provider.scope == DefaultContext ==> fetched && provider.currentWeather == None
      ensures old(provider.Valid()) ==> provider.Valid()
    {
      fetched := provider.currentWeather.None?;
      if fetched {
        FetchWeather(outcome, uTemp, uCond, uHum);
      }
    }
  }
}
