/** The weather provider: one snapshot, replaced whole by `updateWeather`; no history is kept.
    Outside a provider the context holds no snapshot and its update does nothing; both are the
    `DefaultContext` scope of `WeatherProvider`. */
module WeatherState {
  import opened Common

  /** `condition` is typed `'clear' | 'cloudy' | 'rainy' | 'stormy'` but is a plain string at run time,
      so it is kept as a string here and the type is the predicate `IsCondition`. */
  datatype Weather = Weather(temperature: int, condition: string, location: string, humidity: Option<int>)

  predicate IsCondition(c: string)
  {
    c == "clear" || c == "cloudy" || c == "rainy" || c == "stormy"
  }

  const InitialWeather := Weather(22, "clear", "Current Location", Some(60))

  /** The initial snapshot is a well-typed one. */
  lemma InitialWeatherWellTyped()
    ensures IsCondition(InitialWeather.condition)
    ensures InitialWeather.temperature == 22 && InitialWeather.humidity == Some(60)
  {
  }

  /** Where `useWeather()` is read: under a mounted `WeatherProvider`, or from the context's default
      value, whose snapshot is null and whose `updateWeather` is `() => {}`. */
  datatype Scope = InsideProvider | DefaultContext

  /** `WeatherProvider`'s `currentWeather` state, or the default context's. */
  class WeatherProvider {
    const scope: Scope
    var currentWeather: Option<Weather>

    /** Inside a provider there is always a snapshot, outside one never. */
    ghost predicate Valid()
      reads this
    {
      && (scope == InsideProvider ==> currentWeather.Some?)
      && (scope == DefaultContext ==> currentWeather == None)
    }

    constructor (scope: Scope)
      ensures this.scope == scope && Valid()
      ensures scope == InsideProvider ==> currentWeather == Some(InitialWeather)
      ensures scope == DefaultContext ==> currentWeather == None
    {
      this.scope := scope;
      currentWeather := if scope == InsideProvider then Some(InitialWeather) else None;
    }

    /** `updateWeather(weather)`: inside a provider the new snapshot replaces the old one entirely;
        the default context ignores it. */
    method UpdateWeather(weather: Weather)
      modifies this
      ensures scope == InsideProvider ==> currentWeather == Some(weather)
      ensures scope == DefaultContext ==> currentWeather == old(currentWeather)
      ensures old(Valid()) ==> Valid()
    {
      if scope == InsideProvider {
        currentWeather := Some(weather);
      }
    }
  }
}
