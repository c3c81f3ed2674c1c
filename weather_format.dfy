/** The result dictionaries both weather front ends hand back to the model:
    one formatted entry per current reading, hourly or daily period, with
    rain, snow and alerts keys that appear only under conditions, and the
    projection of alerts onto their descriptions. Whether alerts are shown is
    a parameter: the toolset switches them off for good, the provider takes a
    flag at construction. */
module WeatherFormat {
  import opened Outcomes
  import opened JsonValue
  import opened OpenWeatherMap

  /** A value of a result dictionary. */
  datatype Value =
    | Number(json: Json)
    | Temps(temps: DailyTemp)
    | Descriptions(items: seq<Json>)
    | Entries(entries: seq<map<string, Value>>)

  type Formatted = map<string, Value>

  /** A temperature: one reading, or a day's readings by period. */
  datatype Temperature = Scalar(value: Json) | PerPeriod(temps: DailyTemp)

  /** Rain or snow: a record with a last-hour amount (current and hourly
      readings), or the raw decoded value (daily readings). */
  datatype Precipitation = Record(record: Rain) | Raw(value: Json)

  /** What the formatter reads from a current, hourly or daily record. */
  datatype Entry = Entry(temp: Temperature, windSpeed: Json, weather: WeatherDetails,
                         rain: Precipitation, snow: Precipitation)

  function CurrentEntry(c: Current): Entry {
    Entry(Scalar(c.temp), c.windSpeed, c.weather, Record(c.rain), Record(c.snow))
  }

  function HourlyEntry(h: Hourly): Entry {
    Entry(Scalar(h.temp), h.windSpeed, h.weather, Record(h.rain), Record(h.snow))
  }

  function DailyEntry(d: Daily): Entry {
    Entry(PerPeriod(d.temp), d.windSpeed, d.weather, Raw(d.rain), Raw(d.snow))
  }

  function HourlyEntries(hours: Option<seq<Hourly>>): (r: Option<seq<Entry>>)
    ensures r.Some? <==> hours.Some?
    ensures r.Some? ==> |r.value| == |hours.value|
                        && forall i :: 0 <= i < |hours.value| ==> r.value[i] == HourlyEntry(hours.value[i])
  {
    match hours
    case None => None
    case Some(hs) => Some(seq(|hs|, i requires 0 <= i < |hs| => HourlyEntry(hs[i])))
  }

  function DailyEntries(days: Option<seq<Daily>>): (r: Option<seq<Entry>>)
    ensures r.Some? <==> days.Some?
    ensures r.Some? ==> |r.value| == |days.value|
                        && forall i :: 0 <= i < |days.value| ==> r.value[i] == DailyEntry(days.value[i])
  {
    match days
    case None => None
    case Some(ds) => Some(seq(|ds|, i requires 0 <= i < |ds| => DailyEntry(ds[i])))
  }

  function TempValue(t: Temperature): Value {
    match t
    case Scalar(v) => Number(v)
    case PerPeriod(temps) => Temps(temps)
  }

  /** Whether rain or snow gets a key: a float only when it is positive; a
      record always, being truthy; any other value when it is truthy. */
  predicate Reported(p: Precipitation) {
    match p
    case Record(_) => true
    case Raw(JFloat(x)) => x > 0.0
    case Raw(v) => Truthy(v)
  }

  /** Reading the amount fails for a truthy value that is neither a float nor
      a record: it has no `one_h`. */
  predicate Readable(p: Precipitation) {
    !(p.Raw? && !p.value.JFloat? && Truthy(p.value))
  }

  /** The amount reported for rain or snow: the float itself, or the record's
      last-hour amount, which may be None. */
  function Amount(p: Precipitation): Json {
    match p
    case Record(rec) => rec.oneH
    case Raw(v) => v
  }

  /** `_process_alerts`: no alerts, or an empty list, give no descriptions;
      otherwise the descriptions in the order of the alerts. */
  function ProcessAlerts(alerts: Option<seq<Alert>>): (r: seq<Json>)
    ensures alerts.None? ==> r == []
    ensures alerts.Some? ==> |r| == |alerts.value|
    ensures alerts.Some? ==> forall i :: 0 <= i < |r| ==> r[i] == alerts.value[i].description
    decreases if alerts.Some? then |alerts.value| else 0
  {
    match alerts
    case None => []
    case Some(list) =>
      if list == [] then [] else [list[0].description] + ProcessAlerts(Some(list[1..]))
  }

  /** Whether alerts are shown: they are enabled and there is at least one. */
  predicate ShowsAlerts(alerts: Option<seq<Alert>>, enabled: bool) {
    enabled && alerts.Some? && alerts.value != []
  }

  /** `m` with `key` set to `v` when `cond` holds, unchanged otherwise. */
  function PutIf(m: Formatted, cond: bool, key: string, v: Value): (r: Formatted)
    ensures key in r <==> cond || key in m
    ensures forall k :: k != key ==> (k in r <==> k in m)
    ensures forall k :: k in m && k != key ==> r[k] == m[k]
    ensures cond ==> r[key] == v
    ensures !cond && key in m ==> r[key] == m[key]
  {
    if cond then m[key := v] else m
  }

  const FORMATTED_KEYS: set<string> :=
    {"temp_c", "wind_meter_per_sec", "weather", "rain_mm_per_h", "snow_mm_per_h", "alerts"}

  /** The dictionary `_format_response` returns for an entry, described key by
      key: the temperature, wind speed and weather group always; rain and snow
      when reported, with their amount; the alert descriptions when shown. An
      unreadable rain or snow value raises instead. */
  function Format(entry: Entry, alerts: Option<seq<Alert>>, enabled: bool): (r: Result<Formatted>)
    ensures r.Ok? <==> Readable(entry.rain) && Readable(entry.snow)
    ensures r.Err? ==> r.error == AttributeError("one_h")
    ensures r.Ok? ==> {"temp_c", "wind_meter_per_sec", "weather"} <= r.value.Keys <= FORMATTED_KEYS
    ensures r.Ok? ==> r.value["temp_c"] == TempValue(entry.temp)
                      && r.value["wind_meter_per_sec"] == Number(entry.windSpeed)
                      && r.value["weather"] == Number(entry.weather.main)
    ensures r.Ok? ==> ("rain_mm_per_h" in r.value <==> Reported(entry.rain))
                      && ("snow_mm_per_h" in r.value <==> Reported(entry.snow))
                      && ("alerts" in r.value <==> ShowsAlerts(alerts, enabled))
    ensures r.Ok? && "rain_mm_per_h" in r.value ==> r.value["rain_mm_per_h"] == Number(Amount(entry.rain))
    ensures r.Ok? && "snow_mm_per_h" in r.value ==> r.value["snow_mm_per_h"] == Number(Amount(entry.snow))
    ensures r.Ok? && "alerts" in r.value ==> r.value["alerts"] == Descriptions(ProcessAlerts(alerts))
  {
    if !Readable(entry.rain) || !Readable(entry.snow) then Err(AttributeError("one_h"))
    else
      var base := map["temp_c" := TempValue(entry.temp),
                       "wind_meter_per_sec" := Number(entry.windSpeed),
                       "weather" := Number(entry.weather.main)];
      var withRain := PutIf(base, Reported(entry.rain), "rain_mm_per_h", Number(Amount(entry.rain)));
      var withSnow := PutIf(withRain, Reported(entry.snow), "snow_mm_per_h", Number(Amount(entry.snow)));
      Ok(PutIf(withSnow, ShowsAlerts(alerts, enabled), "alerts", Descriptions(ProcessAlerts(alerts))))
  }

  /** A float amount is reported exactly when it is positive, and reported as
      itself. */
  lemma FloatReportedWhenPositive(x: real)
    ensures Reported(Raw(JFloat(x))) <==> x > 0.0
    ensures Readable(Raw(JFloat(x))) && Amount(Raw(JFloat(x))) == JFloat(x)
  {
  }

  /** Adds the rain or snow key as `_format_response` does: a float only when
      positive, a record with its last-hour amount, any other truthy value
      fails on `one_h`. */
  method AddPrecipitation(result: Formatted, key: string, p: Precipitation) returns (r: Result<Formatted>)
    ensures r.Ok? <==> Readable(p)
    ensures r.Err? ==> r.error == AttributeError("one_h")
    ensures r.Ok? ==> r.value == PutIf(result, Reported(p), key, Number(Amount(p)))
  {
    match p {
      case Raw(JFloat(x)) =>
        if x > 0.0 {
          return Ok(result[key := Number(JFloat(x))]);
        }
      case Raw(v) =>
        if Truthy(v) {
          return Err(AttributeError("one_h"));
        }
      case Record(rec) =>
        return Ok(result[key := Number(rec.oneH)]);
    }
    return Ok(result);
  }

  /** `_format_response(entry, alerts)`: fills the dictionary one conditional
      key at a time. */
  method FormatResponse(entry: Entry, alerts: Option<seq<Alert>>, enabled: bool) returns (r: Result<Formatted>)
    ensures r == Format(entry, alerts, enabled)
  {
    var result: Formatted := map[
      "temp_c" := TempValue(entry.temp),
      "wind_meter_per_sec" := Number(entry.windSpeed),
      "weather" := Number(entry.weather.main)];
    result :- AddPrecipitation(result, "rain_mm_per_h", entry.rain);
    result :- AddPrecipitation(result, "snow_mm_per_h", entry.snow);
    if enabled && alerts.Some? && alerts.value != [] {
      result := result["alerts" := Descriptions(ProcessAlerts(alerts))];
    }
    return Ok(result);
  }

  /** `[_format_response(period, None) for period in periods]`: one entry per
      period, in order, each formatted without alerts. */
  function FormatPeriods(periods: seq<Entry>): (r: Result<seq<Formatted>>)
    ensures r.Ok? <==> forall i :: 0 <= i < |periods| ==> Readable(periods[i].rain) && Readable(periods[i].snow)
    ensures r.Ok? ==> |r.value| == |periods|
    ensures r.Ok? ==> forall i :: 0 <= i < |periods| ==> Ok(r.value[i]) == Format(periods[i], None, false)
    ensures r.Err? ==> r.error == AttributeError("one_h")
  {
    var format := (p: Entry) => Format(p, None, false);
    MapEach(periods, format)
  }

  /** A period formatted on its own never carries alerts, whatever the flag. */
  lemma PeriodsCarryNoAlerts(periods: seq<Entry>)
    requires FormatPeriods(periods).Ok?
    ensures forall i :: 0 <= i < |periods| ==> "alerts" !in FormatPeriods(periods).value[i]
  {
  }

  /** What `current` returns for a One Call response: the current reading
      formatted with the response's alerts. A response without a current
      section fails on `entry.temp`. */
  function CurrentResult(response: OneCallResponse, enabled: bool): (r: Result<Formatted>)
    ensures response.current.None? ==> r == Err(AttributeError("temp"))
    ensures response.current.Some? ==> r == Format(CurrentEntry(response.current.value), response.alerts, enabled)
  {
    match response.current
    case None => Err(AttributeError("temp"))
    case Some(c) => Format(CurrentEntry(c), response.alerts, enabled)
  }

  /** What `forecast_hourly`/`forecast_daily` return: the periods formatted
      under `key`, and the alert descriptions when shown. A missing section
      is None, which is not iterable. */
  function ForecastResult(key: string, periods: Option<seq<Entry>>, alerts: Option<seq<Alert>>, enabled: bool)
    : (r: Result<Formatted>)
    requires key != "alerts"
    ensures periods.None? ==> r == Err(TypeError)
    ensures periods.Some? ==> (r.Ok? <==> FormatPeriods(periods.value).Ok?)
    ensures r.Err? && periods.Some? ==> r.error == AttributeError("one_h")
    ensures r.Ok? ==> r.value.Keys == {key} + (if ShowsAlerts(alerts, enabled) then {"alerts"} else {})
    ensures r.Ok? ==> r.value[key] == Entries(FormatPeriods(periods.value).value)
    ensures r.Ok? && ShowsAlerts(alerts, enabled) ==> r.value["alerts"] == Descriptions(ProcessAlerts(alerts))
  {
    match periods
    case None => Err(TypeError)
    case Some(ps) =>
      var formatted :- FormatPeriods(ps);
      Ok(PutIf(map[key := Entries(formatted)], ShowsAlerts(alerts, enabled), "alerts",
               Descriptions(ProcessAlerts(alerts))))
  }

  /** The result dictionary of `forecast_hourly`/`forecast_daily`, built by
      conditional insertion. */
  method ForecastReport(key: string, periods: Option<seq<Entry>>, alerts: Option<seq<Alert>>, enabled: bool)
    returns (r: Result<Formatted>)
    requires key != "alerts"
    ensures r == ForecastResult(key, periods, alerts, enabled)
  {
    if periods.None? {
      return Err(TypeError);
    }
    var formatted :- FormatPeriods(periods.value);
    var result: Formatted := map[key := Entries(formatted)];
    if enabled && alerts.Some? && alerts.value != [] {
      result := result["alerts" := Descriptions(ProcessAlerts(alerts))];
    }
    return Ok(result);
  }

  /** `api.one_call(first, second, exclude)` on the configured client, as the
      front ends call it: positionally, so `first` lands in the parameter
      `one_call` names `lon`. */
  type OneCallOracle = (Json, Json, seq<ExcludeInfo>) -> Result<OneCallResponse>

  const CURRENT_EXCLUDE: seq<ExcludeInfo> := [MINUTELY, HOURLY, DAILY]
  const HOURLY_EXCLUDE: seq<ExcludeInfo> := [CURRENT, MINUTELY, DAILY]
  const DAILY_EXCLUDE: seq<ExcludeInfo> := [CURRENT, MINUTELY, HOURLY]

  /** With `one_call` as written, every call the front ends make raises
      before any request: each of their exclude lists is non-empty. */
  lemma FrontEndOneCallsRaise(lon: Json, lat: Json, fetch: (Json, Json, string) -> Result<OneCallResponse>)
    ensures OneCall(lon, lat, CURRENT_EXCLUDE, fetch) == Err(TypeError)
    ensures OneCall(lon, lat, HOURLY_EXCLUDE, fetch) == Err(TypeError)
    ensures OneCall(lon, lat, DAILY_EXCLUDE, fetch) == Err(TypeError)
  {
  }
}
