/** The weather toolset of the agent backend: its functions keep their state
    in attributes of the agent they serve, set up once by the toolset's init
    hook, and alerts are switched off module-wide. */
module WeatherToolset {
  import opened Outcomes
  import opened Text
  import opened JsonValue
  import opened OpenWeatherMap
  import opened WeatherFormat
  import opened LocationCache
  import opened Toolsets

  const ALERTS_ENABLED: bool := false

  /** The toolset's declaration. */
  const WEATHER_TOOLSET: Toolset := Toolset(
    "weather",
    "Enables access to current and forecast weather data",
    "A helpful assistant with access to weather data. Ask them to tell you about the current or forecast weather.",
    "You are a helpful AI assistant with access to weather data (via the provided functions). In fact, your only job is to lookup the weather, so please help out where you can.",
    "mistral",
    [],
    Some(Hook("_init")))

  /** The attributes the toolset attaches to an agent: the API client and the
      place-name table, each None until `_init` has run. */
  class AgentState {
    var openWeatherMap: Option<Api>
    var latLonCache: Option<LatLonCache>

    constructor()
      ensures openWeatherMap == None && latLonCache == None
    {
      openWeatherMap := None;
      latLonCache := None;
    }

    /** `_init(agent)`: does nothing when the client is already attached;
        otherwise attaches a metric, English client with the key from the
        environment and an empty table. */
    method Init(apiKey: Option<string>)
      modifies this
      ensures old(openWeatherMap).Some? ==>
        openWeatherMap == old(openWeatherMap) && latLonCache == old(latLonCache)
      ensures old(openWeatherMap).None? ==>
        && openWeatherMap == Some(Api(apiKey, Metric, "en"))
        && latLonCache.Some? && fresh(latLonCache.value)
        && latLonCache.value.entries == map[] && latLonCache.value.Valid()
    {
      if openWeatherMap.Some? {
        return;
      }
      var api := NewApi(apiKey, Metric, "en");
      assert api.Ok?;
      openWeatherMap := Some(api.value);
      var cache := new LatLonCache();
      latLonCache := Some(cache);
    }

    /** `_latlon(agent, location)`: reads the client, then the table, each of
        which is missing before `_init`, then looks the place up. */
    method LatLon(location: string, geocode: Geocoder) returns (r: Result<Coordinates>)
      requires latLonCache.Some? ==> latLonCache.value.Valid()
      modifies if latLonCache.Some? then {latLonCache.value} else {}
      ensures latLonCache.Some? ==> latLonCache.value.Valid()
      ensures openWeatherMap.None? ==> r == Err(AttributeError("_openweathermap"))
      ensures openWeatherMap.Some? && latLonCache.None? ==> r == Err(AttributeError("_openweathermap_latlon_cache"))
      ensures openWeatherMap.Some? && latLonCache.Some? ==>
        LookedUp(old(latLonCache.value.entries), location, geocode, r, latLonCache.value.entries)
      ensures openWeatherMap.Some? && latLonCache.Some? ==>
        latLonCache.value.geocodeQueries
          == QueriesAfter(old(latLonCache.value.entries), old(latLonCache.value.geocodeQueries), location)
      ensures openWeatherMap.None? && latLonCache.Some? ==> unchanged(latLonCache.value)
      ensures r.Err? && latLonCache.Some? ==> latLonCache.value.entries == old(latLonCache.value.entries)
    {
      if openWeatherMap.None? {
        return Err(AttributeError("_openweathermap"));
      }
      if latLonCache.None? {
        return Err(AttributeError("_openweathermap_latlon_cache"));
      }
      r := latLonCache.value.LatLon(location, geocode);
    }

    /** `current(agent, location)`: the current reading at the place, with
        minutely, hourly and daily data excluded; never with alerts. */
    method Current(location: string, geocode: Geocoder, oneCall: OneCallOracle)
      returns (r: Result<Formatted>, located: Result<Coordinates>)
      requires latLonCache.Some? ==> latLonCache.value.Valid()
      modifies if latLonCache.Some? then {latLonCache.value} else {}
      ensures latLonCache.Some? ==> latLonCache.value.Valid()
      ensures openWeatherMap.Some? && latLonCache.Some? ==>
        LookedUp(old(latLonCache.value.entries), location, geocode, located, latLonCache.value.entries)
      ensures openWeatherMap.Some? && latLonCache.Some? ==>
        latLonCache.value.geocodeQueries
          == QueriesAfter(old(latLonCache.value.entries), old(latLonCache.value.geocodeQueries), location)
      ensures openWeatherMap.None? && latLonCache.Some? ==> unchanged(latLonCache.value)
      ensures openWeatherMap.None? ==> r == Err(AttributeError("_openweathermap"))
      ensures located.Err? ==> r == Err(located.error)
      ensures located.Ok? ==>
        r == (var response :- oneCall(located.value.0, located.value.1, CURRENT_EXCLUDE);
              CurrentResult(response, ALERTS_ENABLED))
      ensures r.Ok? ==> "alerts" !in r.value
    {
      located := LatLon(location, geocode);
      if located.Err? {
        r := Err(located.error);
        return;
      }
      var response :- oneCall(located.value.0, located.value.1, CURRENT_EXCLUDE);
      if response.current.None? {
        r := Err(AttributeError("temp"));
        return;
      }
      r := FormatResponse(CurrentEntry(response.current.value), response.alerts, ALERTS_ENABLED);
    }

    /** `forecast_hourly(agent, location)`: one formatted entry per hour under
        "hourly"; never with alerts. */
    method ForecastHourly(location: string, geocode: Geocoder, oneCall: OneCallOracle)
      returns (r: Result<Formatted>, located: Result<Coordinates>)
      requires latLonCache.Some? ==> latLonCache.value.Valid()
      modifies if latLonCache.Some? then {latLonCache.value} else {}
      ensures latLonCache.Some? ==> latLonCache.value.Valid()
      ensures openWeatherMap.Some? && latLonCache.Some? ==>
        LookedUp(old(latLonCache.value.entries), location, geocode, located, latLonCache.value.entries)
      ensures openWeatherMap.Some? && latLonCache.Some? ==>
        latLonCache.value.geocodeQueries
          == QueriesAfter(old(latLonCache.value.entries), old(latLonCache.value.geocodeQueries), location)
      ensures openWeatherMap.None? && latLonCache.Some? ==> unchanged(latLonCache.value)
      ensures openWeatherMap.None? ==> r == Err(AttributeError("_openweathermap"))
      ensures located.Err? ==> r == Err(located.error)
      ensures located.Ok? ==>
        r == (var response :- oneCall(located.value.0, located.value.1, HOURLY_EXCLUDE);
              ForecastResult("hourly", HourlyEntries(response.hourly), response.alerts, ALERTS_ENABLED))
      ensures r.Ok? ==> r.value.Keys == {"hourly"}
    {
      located := LatLon(location, geocode);
      if located.Err? {
        r := Err(located.error);
        return;
      }
      var response :- oneCall(located.value.0, located.value.1, HOURLY_EXCLUDE);
      r := ForecastReport("hourly", HourlyEntries(response.hourly), response.alerts, ALERTS_ENABLED);
    }

    /** `forecast_daily(agent, location)`: one formatted entry per day under
        "daily"; never with alerts. */
    method ForecastDaily(location: string, geocode: Geocoder, oneCall: OneCallOracle)
      returns (r: Result<Formatted>, located: Result<Coordinates>)
      requires latLonCache.Some? ==> latLonCache.value.Valid()
      modifies if latLonCache.Some? then {latLonCache.value} else {}
      ensures latLonCache.Some? ==> latLonCache.value.Valid()
      ensures openWeatherMap.Some? && latLonCache.Some? ==>
        LookedUp(old(latLonCache.value.entries), location, geocode, located, latLonCache.value.entries)
      ensures openWeatherMap.Some? && latLonCache.Some? ==>
        latLonCache.value.geocodeQueries
          == QueriesAfter(old(latLonCache.value.entries), old(latLonCache.value.geocodeQueries), location)
      ensures openWeatherMap.None? && latLonCache.Some? ==> unchanged(latLonCache.value)
      ensures openWeatherMap.None? ==> r == Err(AttributeError("_openweathermap"))
      ensures located.Err? ==> r == Err(located.error)
      ensures located.Ok? ==>
        r == (var response :- oneCall(located.value.0, located.value.1, DAILY_EXCLUDE);
              ForecastResult("daily", DailyEntries(response.daily), response.alerts, ALERTS_ENABLED))
      ensures r.Ok? ==> r.value.Keys == {"daily"}
    {
      located := LatLon(location, geocode);
      if located.Err? {
        r := Err(located.error);
        return;
      }
      var response :- oneCall(located.value.0, located.value.1, DAILY_EXCLUDE);
      r := ForecastReport("daily", DailyEntries(response.daily), response.alerts, ALERTS_ENABLED);
    }
  }

  /** With alerts switched off, a formatted entry never has an "alerts" key,
      whatever alerts the response carries. */
  lemma FormattedEntriesHaveNoAlerts(entry: Entry, alerts: Option<seq<Alert>>)
    requires Format(entry, alerts, ALERTS_ENABLED).Ok?
    ensures "alerts" !in Format(entry, alerts, ALERTS_ENABLED).value
  {
  }
}
