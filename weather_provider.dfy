/** The class-based weather provider the weather agent calls: a metric,
    English client, a flag for alerts fixed at construction and its own
    place-name table. */
module WeatherProvider {
  import opened Outcomes
  import opened JsonValue
  import opened OpenWeatherMap
  import opened WeatherFormat
  import opened LocationCache

  class OpenWeatherMapProvider {
    const api: Api
    const alerts: bool
    const latLonCache: LatLonCache

    /** `OpenWeatherMapProvider(api_key, alerts)`. */
    constructor(apiKey: string, alerts: bool)
      ensures this.api == Api(Some(apiKey), Metric, "en") && this.alerts == alerts
      ensures fresh(latLonCache) && latLonCache.entries == map[] && latLonCache.Valid()
    {
      var client := NewApi(Some(apiKey), Metric, "en");
      assert client.Ok?;
      this.api := client.value;
      this.alerts := alerts;
      this.latLonCache := new LatLonCache();
    }

    /** `_latlon(location)`. */
    method LatLon(location: string, geocode: Geocoder) returns (r: Result<Coordinates>)
      requires latLonCache.Valid()
      modifies latLonCache
      ensures latLonCache.Valid()
      ensures LookedUp(old(latLonCache.entries), location, geocode, r, latLonCache.entries)
      ensures latLonCache.geocodeQueries == QueriesAfter(old(latLonCache.entries), old(latLonCache.geocodeQueries), location)
    {
      r := latLonCache.LatLon(location, geocode);
    }

    /** `current(location)`: the current reading at the place, with the
        response's alerts when the provider shows alerts. */
    method Current(location: string, geocode: Geocoder, oneCall: OneCallOracle)
      returns (r: Result<Formatted>, located: Result<Coordinates>)
      requires latLonCache.Valid()
      modifies latLonCache
      ensures latLonCache.Valid()
      ensures LookedUp(old(latLonCache.entries), location, geocode, located, latLonCache.entries)
      ensures latLonCache.geocodeQueries == QueriesAfter(old(latLonCache.entries), old(latLonCache.geocodeQueries), location)
      ensures located.Err? ==> r == Err(located.error)
      ensures located.Ok? ==>
        r == (var response :- oneCall(located.value.0, located.value.1, CURRENT_EXCLUDE);
              CurrentResult(response, alerts))
    {
      located := LatLon(location, geocode);
      if located.Err? {
        r := Err(located.error);
        return;
      }
      var response :- oneCall(located.value.0, located.value.1, CURRENT_EXCLUDE);
      if response.current.None? {
        r := Err(AttributeError("temp"));
        return;
      }
      r := FormatResponse(CurrentEntry(response.current.value), response.alerts, alerts);
    }

    /** `forecast_hourly(location)`: one entry per hour, in order, each
        without alerts; the alert descriptions beside them when shown. */
    method ForecastHourly(location: string, geocode: Geocoder, oneCall: OneCallOracle)
      returns (r: Result<Formatted>, located: Result<Coordinates>)
      requires latLonCache.Valid()
      modifies latLonCache
      ensures latLonCache.Valid()
      ensures LookedUp(old(latLonCache.entries), location, geocode, located, latLonCache.entries)
      ensures latLonCache.geocodeQueries == QueriesAfter(old(latLonCache.entries), old(latLonCache.geocodeQueries), location)
      ensures located.Err? ==> r == Err(located.error)
      ensures located.Ok? ==>
        r == (var response :- oneCall(located.value.0, located.value.1, HOURLY_EXCLUDE);
              ForecastResult("hourly", HourlyEntries(response.hourly), response.alerts, alerts))
    {
      located := LatLon(location, geocode);
      if located.Err? {
        r := Err(located.error);
        return;
      }
      var response :- oneCall(located.value.0, located.value.1, HOURLY_EXCLUDE);
      r := ForecastReport("hourly", HourlyEntries(response.hourly), response.alerts, alerts);
    }

    /** `forecast_daily(location)`: one entry per day, in order, each without
        alerts; the alert descriptions beside them when shown. */
    method ForecastDaily(location: string, geocode: Geocoder, oneCall: OneCallOracle)
      returns (r: Result<Formatted>, located: Result<Coordinates>)
      requires latLonCache.Valid()
      modifies latLonCache
      ensures latLonCache.Valid()
      ensures LookedUp(old(latLonCache.entries), location, geocode, located, latLonCache.entries)
      ensures latLonCache.geocodeQueries == QueriesAfter(old(latLonCache.entries), old(latLonCache.geocodeQueries), location)
      ensures located.Err? ==> r == Err(located.error)
      ensures located.Ok? ==>
        r == (var response :- oneCall(located.value.0, located.value.1, DAILY_EXCLUDE);
              ForecastResult("daily", DailyEntries(response.daily), response.alerts, alerts))
    {
      located := LatLon(location, geocode);
      if located.Err? {
        r := Err(located.error);
        return;
      }
      var response :- oneCall(located.value.0, located.value.1, DAILY_EXCLUDE);
      r := ForecastReport("daily", DailyEntries(response.daily), response.alerts, alerts);
    }
  }

  /** A forecast lists one entry per period of the response, in order: entry
      `i` is period `i` formatted without alerts. */
  lemma ForecastListsEveryPeriod(days: seq<Daily>, alerts: Option<seq<Alert>>, enabled: bool)
    requires ForecastResult("daily", DailyEntries(Some(days)), alerts, enabled).Ok?
    ensures var entries := ForecastResult("daily", DailyEntries(Some(days)), alerts, enabled).value["daily"].entries;
            |entries| == |days|
            && forall i :: 0 <= i < |days| ==> Ok(entries[i]) == Format(DailyEntry(days[i]), None, false)
  {
  }
}
