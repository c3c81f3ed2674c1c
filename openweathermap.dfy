/** The OpenWeatherMap client: the language allow-list checked at
    construction, the query string `_get` sends, the geocoding limit, the
    icon and weather-condition tables with their lookups, and the typed
    records built from a One Call response. HTTP itself is not modelled:
    what a request returns is an input. */
module OpenWeatherMap {
  import opened Outcomes
  import opened Text
  import opened JsonValue

  datatype Units = Standard | Metric | Imperial {
    /** The value the API expects in `units=`. */
    function Value(): string {
      match this
      case Standard => "standard"
      case Metric => "metric"
      case Imperial => "imperial"
    }
  }

  /** The sections a One Call request may exclude. */
  datatype ExcludeInfo = CURRENT | MINUTELY | HOURLY | DAILY | ALERTS {
    /** The section's name in an `exclude=` parameter. */
    function Value(): string {
      match this
      case CURRENT => "current"
      case MINUTELY => "minutely"
      case HOURLY => "hourly"
      case DAILY => "daily"
      case ALERTS => "alerts"
    }
  }

  const SUPPORTED_LANGUAGES: set<string> := {
    "sq", "af", "ar", "az", "eu", "be", "bg", "ca", "zh_cn",
    "zh_tw", "hr", "cz", "da", "nl", "en", "fi", "fr", "gl",
    "de", "el", "he", "hi", "hu", "is", "id", "it", "ja", "kr",
    "ku", "la", "lt", "mk", "no", "fa", "pl", "pt", "pt_br",
    "ro", "ru", "sr", "sk", "sl", "sp", "sv", "th", "tr", "ua",
    "vi", "zu"
  }

  /** A configured client. The key comes from the environment and may be
      missing (`None`). */
  datatype Api = Api(apiKey: Option<string>, units: Units, language: string)

  /** `OpenWeatherMapApi(api_key, units, language)`: the language must be on
      the allow-list. */
  function NewApi(apiKey: Option<string>, units: Units, language: string): (r: Result<Api>)
    ensures r.Ok? <==> language in SUPPORTED_LANGUAGES
    ensures r.Ok? ==> r.value.apiKey == apiKey && r.value.units == units && r.value.language == language
    ensures r.Err? ==> r.error == AssertionError("Unsupported language: " + language)
  {
    if language in SUPPORTED_LANGUAGES then Ok(Api(apiKey, units, language))
    else Err(AssertionError("Unsupported language: " + language))
  }

  /** How an f-string renders the key: a missing key becomes "None". */
  function KeyText(apiKey: Option<string>): string {
    match apiKey
    case None => "None"
    case Some(k) => k
  }

  /** The query string `_get` requests, given the query part of the URL it
      was called with: the caller's parameters, then the key, units and
      language, then the key a second time. */
  function RequestQuery(api: Api, query: string): string {
    var withSeparator := if query != [] then query + "&" else query;
    var withSettings := withSeparator + "appid=" + KeyText(api.apiKey) + "&units=" + api.units.Value()
                        + "&lang=" + api.language;
    withSettings + "&appid=" + KeyText(api.apiKey)
  }

  /** The parameters `_get` appends, in order. */
  function AddedParameters(api: Api): seq<string> {
    ["appid=" + KeyText(api.apiKey), "units=" + api.units.Value(), "lang=" + api.language,
     "appid=" + KeyText(api.apiKey)]
  }

  /** Read back as `&`-separated parameters, the requested query is the
      caller's parameters (none for an empty query) followed by the key,
      units, language and the key again. */
  lemma RequestParameters(api: Api, query: string)
    requires '&' !in KeyText(api.apiKey) && '&' !in api.language
    ensures Split(RequestQuery(api, query), '&') ==
      (if query == [] then [] else Split(query, '&')) + AddedParameters(api)
  {
    var k := KeyText(api.apiKey);
    var u := api.units.Value();
    var l := api.language;
    assert '&' !in u by {
      match api.units
      case Standard =>
      case Metric =>
      case Imperial =>
    }
    var added := ("appid=" + k) + "&" + (("units=" + u) + "&" + (("lang=" + l) + "&" + ("appid=" + k)));
    AddedParametersSplit(k, u, l, added);
    assert Split(added, '&') == AddedParameters(api);
    var prefix := if query != [] then query + "&" else query;
    RequestQueryShape(prefix, k, u, l, added);
    assert RequestQuery(api, query) == prefix + added;
    if query != [] {
      assert prefix + added == query + "&" + added;
      SplitAround(query, added, '&');
    } else {
      assert prefix + added == added;
      assert [] + AddedParameters(api) == AddedParameters(api);
    }
  }

  /** The four settings `_get` appends, read back. */
  lemma AddedParametersSplit(k: string, u: string, l: string, added: string)
    requires '&' !in k && '&' !in u && '&' !in l
    requires added == ("appid=" + k) + "&" + (("units=" + u) + "&" + (("lang=" + l) + "&" + ("appid=" + k)))
    ensures Split(added, '&') == ["appid=" + k, "units=" + u, "lang=" + l, "appid=" + k]
  {
    var last := ("lang=" + l) + "&" + ("appid=" + k);
    SplitPair("lang=" + l, "appid=" + k, '&');
    var middle := ("units=" + u) + "&" + last;
    SplitAround("units=" + u, last, '&');
    SplitWithoutSeparator("units=" + u, '&');
    SplitAround("appid=" + k, middle, '&');
    SplitWithoutSeparator("appid=" + k, '&');
  }

  /** The f-strings of `_get` put the settings, '&'-separated, after the prefix. */
  lemma RequestQueryShape(prefix: string, k: string, u: string, l: string, added: string)
    requires added == ("appid=" + k) + "&" + (("units=" + u) + "&" + (("lang=" + l) + "&" + ("appid=" + k)))
    ensures prefix + "appid=" + k + "&units=" + u + "&lang=" + l + "&appid=" + k == prefix + added
  {
    assert "&units=" + u == "&" + ("units=" + u);
    assert "&lang=" + l == "&" + ("lang=" + l);
    assert "&appid=" + k == "&" + ("appid=" + k);
  }

  lemma SplitPair(a: string, b: string, sep: char)
    requires sep !in a && sep !in b
    ensures Split(a + [sep] + b, sep) == [a, b]
  {
    SplitAround(a, b, sep);
    SplitWithoutSeparator(a, sep);
    SplitWithoutSeparator(b, sep);
  }

  /** The query `geocode` passes to `_get`; a limit above 5 fails its bare
      assertion. */
  function GeocodeQuery(query: string, limit: int): (r: Result<string>)
    ensures r.Ok? <==> limit <= 5
    ensures r.Err? ==> r.error == AssertionError("")
    ensures r.Ok? ==> StartsWith(r.value, "q=" + query)
  {
    if limit <= 5 then Ok("q=" + query + "&limit=" + IntToString(limit)) else Err(AssertionError(""))
  }

  /** `",".join(exclude)` as `one_call` writes it: `str.join` accepts only
      strings and the list holds enum members, so any non-empty list raises. */
  function ExcludeParameter(exclude: seq<ExcludeInfo>): (r: Result<string>)
    ensures r.Ok? <==> exclude == []
    ensures r.Ok? ==> r.value == ""
    ensures r.Err? ==> r.error == TypeError
  {
    if exclude == [] then Ok("") else Err(TypeError)
  }

  /** `one_call(lon, lat, exclude)` as written: the exclude list is joined
      before any request is made; `fetch` stands for the request and the
      decoding of its answer. */
  function OneCall(lon: Json, lat: Json, exclude: seq<ExcludeInfo>,
                   fetch: (Json, Json, string) -> Result<OneCallResponse>): (r: Result<OneCallResponse>)
    ensures exclude != [] ==> r == Err(TypeError)
    ensures exclude == [] ==> r == fetch(lon, lat, "")
  {
    var excludeText :- ExcludeParameter(exclude);
    fetch(lon, lat, excludeText)
  }

  function ExcludeValues(exclude: seq<ExcludeInfo>): (r: seq<string>)
    ensures |r| == |exclude|
    ensures forall i :: 0 <= i < |exclude| ==> r[i] == exclude[i].Value()
  {
    if exclude == [] then [] else [exclude[0].Value()] + ExcludeValues(exclude[1..])
  }

  /** The `exclude=` text `one_call` evidently means to send: the sections'
      names joined by commas. */
  function ExcludeText(exclude: seq<ExcludeInfo>): string {
    Join(ExcludeValues(exclude), ",")
  }

  /** Read back as comma-separated names, the exclude text lists the excluded
      sections in order. */
  lemma ExcludeTextNamesSections(exclude: seq<ExcludeInfo>)
    requires exclude != []
    ensures Split(ExcludeText(exclude), ',') == ExcludeValues(exclude)
  {
    var names := ExcludeValues(exclude);
    forall i | 0 <= i < |names| ensures ',' !in names[i] {
      match exclude[i]
      case CURRENT =>
      case MINUTELY =>
      case HOURLY =>
      case DAILY =>
      case ALERTS =>
    }
    assert [','] + [] == ",";
    SplitJoined(names, ',', []);
    var pieces := [names[0]] + seq(|names| - 1, i requires 0 <= i < |names| - 1 => [] + names[i + 1]);
    assert forall i :: 0 <= i < |names| ==> pieces[i] == names[i];
  }

  // ---------------------------------------------------------------- icons

  datatype Icon = Icon(day: string, night: string, description: string)

  const ALL_ICONS: map<string, Icon> := map[
    "01" := Icon("01d", "01n", "clear sky"),
    "02" := Icon("02d", "02n", "few clouds"),
    "03" := Icon("03d", "03n", "scattered clouds"),
    "04" := Icon("04d", "04n", "broken clouds"),
    "09" := Icon("09d", "09n", "shower rain"),
    "10" := Icon("10d", "10n", "rain"),
    "11" := Icon("11d", "11n", "thunderstorm"),
    "13" := Icon("13d", "13n", "snow"),
    "50" := Icon("50d", "50n", "mist ")
  ]

  const UNKNOWN_ICON: Icon := Icon("01d", "01n", "unknown")

  const ICON_URL_BASE: string := "http://openweathermap.org/img/wn/"

  /** `Icon.url(size, day)`: only sizes 2 and 4 exist; the day or night code
      is embedded. */
  function IconUrl(icon: Icon, size: int, day: bool): (r: Result<string>)
    ensures r.Ok? <==> size == 2 || size == 4
    ensures r.Err? ==> r.error == AssertionError("")
    ensures r.Ok? ==> StartsWith(r.value, ICON_URL_BASE)
  {
    if size == 2 || size == 4 then
      var code := if day then icon.day else icon.night;
      Ok(ICON_URL_BASE + code + "@" + IntToString(size) + "x.png")
    else Err(AssertionError(""))
  }

  /** The icon code an icon URL names: what follows the base, up to '@'. */
  function IconCodeOfUrl(url: string): string {
    if StartsWith(url, ICON_URL_BASE) then Split(url[|ICON_URL_BASE|..], '@')[0] else []
  }

  /** An icon URL names the day code when asked for day and the night code
      otherwise. */
  lemma IconUrlNamesCode(icon: Icon, size: int, day: bool)
    requires size == 2 || size == 4
    requires '@' !in icon.day && '@' !in icon.night
    ensures IconCodeOfUrl(IconUrl(icon, size, day).value) == if day then icon.day else icon.night
  {
    var code := if day then icon.day else icon.night;
    var url := IconUrl(icon, size, day).value;
    var rest := IntToString(size) + "x.png";
    assert url == ICON_URL_BASE + (code + "@" + rest);
    assert url[|ICON_URL_BASE|..] == code + [ '@' ] + rest;
    SplitAround(code, rest, '@');
    SplitWithoutSeparator(code, '@');
  }

  /** `Icon.find(code)`: only the first two characters of a code count; an
      unknown code gives the "unknown" icon. */
  function FindIcon(code: string): (r: Icon)
    ensures |code| >= 2 && code[..2] in ALL_ICONS ==> r == ALL_ICONS[code[..2]]
    ensures !(|code| >= 2 && code[..2] in ALL_ICONS) ==> r == UNKNOWN_ICON
  {
    var key := if |code| > 2 then code[..2] else code;
    assert |code| >= 2 ==> key == code[..2];
    assert |code| < 2 ==> key !in ALL_ICONS;
    if key in ALL_ICONS then ALL_ICONS[key] else UNKNOWN_ICON
  }

  /** Every icon of the table is found again from its own day or night code. */
  lemma FindIconInvertsCodes(key: string)
    requires key in ALL_ICONS
    ensures FindIcon(ALL_ICONS[key].day) == ALL_ICONS[key]
    ensures FindIcon(ALL_ICONS[key].night) == ALL_ICONS[key]
  {
    var icon := ALL_ICONS[key];
    assert icon.day == key + "d" && icon.night == key + "n";
    assert (key + "d")[..2] == key && (key + "n")[..2] == key;
  }

  // ----------------------------------------------------------- conditions

  datatype Condition = Condition(code: int, group: string, description: string, icon: Icon)

  /** The conditions the client knows, in the order they are listed. */
  const CONDITIONS: seq<Condition> := [
    Condition(200, "Thunderstorm", "thunderstorm with light rain", FindIcon("11")),
    Condition(201, "Thunderstorm", "thunderstorm with rain", FindIcon("11")),
    Condition(202, "Thunderstorm", "thunderstorm with heavy rain", FindIcon("11")),
    Condition(210, "Thunderstorm", "light thunderstorm", FindIcon("11")),
    Condition(211, "Thunderstorm", "thunderstorm", FindIcon("11")),
    Condition(212, "Thunderstorm", "heavy thunderstorm", FindIcon("11")),
    Condition(221, "Thunderstorm", "ragged thunderstorm", FindIcon("11")),
    Condition(230, "Thunderstorm", "thunderstorm with light drizzle", FindIcon("11")),
    Condition(231, "Thunderstorm", "thunderstorm with drizzle", FindIcon("11")),
    Condition(232, "Thunderstorm", "thunderstorm with heavy drizzle", FindIcon("11")),
    Condition(300, "Drizzle", "light intensity drizzle", FindIcon("09")),
    Condition(301, "Drizzle", "drizzle", FindIcon("09")),
    Condition(302, "Drizzle", "heavy intensity drizzle", FindIcon("09")),
    Condition(310, "Drizzle", "light intensity drizzle rain", FindIcon("09")),
    Condition(311, "Drizzle", "drizzle rain", FindIcon("09")),
    Condition(312, "Drizzle", "heavy intensity drizzle rain", FindIcon("09")),
    Condition(313, "Drizzle", "shower rain and drizzle", FindIcon("09")),
    Condition(314, "Drizzle", "heavy shower rain and drizzle", FindIcon("09")),
    Condition(321, "Drizzle", "shower drizzle", FindIcon("09")),
    Condition(500, "Rain", "light rain", FindIcon("10")),
    Condition(501, "Rain", "moderate rain", FindIcon("10")),
    Condition(502, "Rain", "heavy intensity rain", FindIcon("10")),
    Condition(503, "Rain", "very heavy rain", FindIcon("10")),
    Condition(504, "Rain", "extreme rain", FindIcon("10")),
    Condition(511, "Rain", "freezing rain", FindIcon("13")),
    Condition(520, "Rain", "light intensity shower rain", FindIcon("09")),
    Condition(521, "Rain", "shower rain", FindIcon("09")),
    Condition(522, "Rain", "heavy intensity shower rain", FindIcon("09")),
    Condition(531, "Rain", "ragged shower rain", FindIcon("09")),
    Condition(600, "Snow", "light snow", FindIcon("13")),
    Condition(601, "Snow", "snow", FindIcon("13")),
    Condition(602, "Snow", "heavy snow", FindIcon("13")),
    Condition(611, "Snow", "sleet", FindIcon("13")),
    Condition(612, "Snow", "light shower sleet", FindIcon("13")),
    Condition(613, "Snow", "shower sleet", FindIcon("13")),
    Condition(615, "Snow", "light rain and snow", FindIcon("13")),
    Condition(616, "Snow", "rain and snow", FindIcon("13")),
    Condition(620, "Snow", "light shower snow", FindIcon("13")),
    Condition(621, "Snow", "shower snow", FindIcon("13")),
    Condition(622, "Snow", "heavy shower snow", FindIcon("13")),
    Condition(701, "Mist", "mist", FindIcon("50")),
    Condition(711, "Smoke", "smoke", FindIcon("50")),
    Condition(721, "Haze", "haze", FindIcon("50")),
    Condition(731, "Dust", "sand/dust whirls", FindIcon("50")),
    Condition(741, "Fog", "fog", FindIcon("50")),
    Condition(751, "Sand", "sand", FindIcon("50")),
    Condition(761, "Dust", "dust", FindIcon("50")),
    Condition(762, "Ash", "volcanic ash", FindIcon("50")),
    Condition(771, "Squall", "squalls", FindIcon("50")),
    Condition(781, "Tornado", "tornado", FindIcon("50")),
    Condition(800, "Clear", "clear sky", FindIcon("01")),
    Condition(801, "Clouds", "few clouds: 11-25%", FindIcon("02")),
    Condition(802, "Clouds", "scattered clouds: 25-50%", FindIcon("03")),
    Condition(803, "Clouds", "broken clouds: 51-84%", FindIcon("04")),
    Condition(804, "Clouds", "overcast clouds: 85-100%", FindIcon("04"))
  ]

  /** `{cond.code: cond for cond in conds}`: every key holds the condition of
      that code. The 55 listed codes are distinct, so the order in which the
      conditions are entered does not matter. */
  function IndexByCode(conds: seq<Condition>): (m: map<int, Condition>)
    ensures forall c :: c in conds ==> c.code in m
    ensures forall k :: k in m ==> m[k].code == k && m[k] in conds
  {
    if conds == [] then map[]
    else
      var last := conds[|conds| - 1];
      var earlier := IndexByCode(conds[..|conds| - 1]);
      assert forall c :: c in conds ==> c == last || c in conds[..|conds| - 1];
      earlier[last.code := last]
  }

  const ALL_CONDITIONS: map<int, Condition> := IndexByCode(CONDITIONS)

  /** `Condition.find(code)`: the known condition, or an "Unknown" one that
      keeps the code asked for and shows the mist icon. */
  function FindCondition(code: int): (r: Condition)
    ensures r.code == code
    ensures code in ALL_CONDITIONS ==> r == ALL_CONDITIONS[code]
    ensures code !in ALL_CONDITIONS ==> r.group == "Unknown" && r.description == "unknown"
                                        && r.icon == ALL_ICONS["50"]
  {
    if code in ALL_CONDITIONS then ALL_CONDITIONS[code]
    else Condition(code, "Unknown", "unknown", FindIcon("50"))
  }

  // -------------------------------------------------------------- records

  datatype WeatherDetails = WeatherDetails(id: Json, main: Json, description: Json, icon: Json)

  /** `OneCallResponse.Rain`, and `Snow`, its subclass: the last hour's amount,
      None when the API leaves it out. */
  datatype Rain = Rain(oneH: Json)

  datatype Current = Current(
    dt: Json, sunrise: Json, sunset: Json, temp: Json, feelsLike: Json, pressure: Json,
    humidity: Json, dewPoint: Json, clouds: Json, uvi: Json, visibility: Json,
    windSpeed: Json, windGust: Json, windDeg: Json, rain: Rain, snow: Rain, weather: WeatherDetails)

  datatype Minutely = Minutely(dt: Json, precipitation: Json)

  datatype Hourly = Hourly(
    dt: Json, temp: Json, feelsLike: Json, pressure: Json, humidity: Json, dewPoint: Json,
    uvi: Json, clouds: Json, visibility: Json, windSpeed: Json, windGust: Json, windDeg: Json,
    pop: Json, rain: Rain, snow: Rain, weather: WeatherDetails)

  datatype DailyFeelsLike = DailyFeelsLike(morn: Json, day: Json, eve: Json, night: Json)

  datatype DailyTemp = DailyTemp(morn: Json, day: Json, eve: Json, night: Json, min: Json, max: Json)

  /** A day of the forecast. Unlike the current and hourly records, its rain
      and snow are the raw decoded values. */
  datatype Daily = Daily(
    dt: Json, sunrise: Json, sunset: Json, moonrise: Json, moonset: Json, moonPhase: Json,
    summary: Json, temp: DailyTemp, feelsLike: DailyFeelsLike, pressure: Json, humidity: Json,
    dewPoint: Json, windSpeed: Json, windGust: Json, windDeg: Json, clouds: Json, uvi: Json,
    pop: Json, rain: Json, snow: Json, weather: WeatherDetails)

  datatype Alert = Alert(senderName: Json, event: Json, start: Json, end: Json, description: Json, tags: Json)

  datatype OneCallResponse = OneCallResponse(
    lat: Json, lon: Json, timezone: Json, timezoneOffset: Json,
    current: Option<Current>, minutely: Option<seq<Minutely>>, hourly: Option<seq<Hourly>>,
    daily: Option<seq<Daily>>, alerts: Option<seq<Alert>>)

  datatype GeocodeResult = GeocodeResult(
    name: Json, localNames: Json, lat: Json, lon: Json, country: Json, state: Json)

  /** `WeatherDetails(data)`. */
  function ParseWeatherDetails(j: Json): (r: Result<WeatherDetails>)
    ensures r.Ok? <==> j.JObj? && {"id", "main", "description", "icon"} <= j.fields.Keys
    ensures r.Ok? ==> r.value.main == j.fields["main"]
  {
    var id :- Field(j, "id");
    var main :- Field(j, "main");
    var description :- Field(j, "description");
    var icon :- Field(j, "icon");
    Ok(WeatherDetails(id, main, description, icon))
  }

  /** `OneCallResponse.Rain(data)`: reads "1h" with `data.get`, which only a
      dict has. */
  function ParseRain(j: Json): (r: Result<Rain>)
    ensures r.Ok? <==> j.JObj?
    ensures r.Ok? && "1h" in j.fields ==> r.value.oneH == j.fields["1h"]
    ensures r.Ok? && "1h" !in j.fields ==> r.value.oneH == JNull
    ensures r.Err? ==> r.error == AttributeError("get")
  {
    match j
    case JObj(fields) => Ok(Rain(GetOrNull(fields, "1h")))
    case _ => Err(AttributeError("get"))
  }

  const CURRENT_KEYS: set<string> := {
    "dt", "sunrise", "sunset", "temp", "feels_like", "pressure", "humidity", "dew_point",
    "clouds", "uvi", "visibility", "wind_speed", "wind_deg", "rain", "snow", "weather"}

  /** `OneCallResponse.Current(data)`. */
  function ParseCurrent(j: Json): (r: Result<Current>)
    ensures r.Ok? <==>
      && j.JObj? && CURRENT_KEYS <= j.fields.Keys
      && j.fields["rain"].JObj? && j.fields["snow"].JObj?
      && ParseWeatherDetails(j.fields["weather"]).Ok?
    ensures r.Ok? ==> r.value.temp == j.fields["temp"] && r.value.windSpeed == j.fields["wind_speed"]
    ensures r.Ok? ==> ParseRain(j.fields["rain"]) == Ok(r.value.rain)
                      && ParseRain(j.fields["snow"]) == Ok(r.value.snow)
                      && ParseWeatherDetails(j.fields["weather"]) == Ok(r.value.weather)
  {
    var dt :- Field(j, "dt");
    var sunrise :- Field(j, "sunrise");
    var sunset :- Field(j, "sunset");
    var temp :- Field(j, "temp");
    var feelsLike :- Field(j, "feels_like");
    var pressure :- Field(j, "pressure");
    var humidity :- Field(j, "humidity");
    var dewPoint :- Field(j, "dew_point");
    var clouds :- Field(j, "clouds");
    var uvi :- Field(j, "uvi");
    var visibility :- Field(j, "visibility");
    var windSpeed :- Field(j, "wind_speed");
    var windGust := GetOrNull(j.fields, "wind_gust");
    var windDeg :- Field(j, "wind_deg");
    var rainData :- Field(j, "rain");
    var rain :- ParseRain(rainData);
    var snowData :- Field(j, "snow");
    var snow :- ParseRain(snowData);
    var weatherData :- Field(j, "weather");
    var weather :- ParseWeatherDetails(weatherData);
    Ok(Current(dt, sunrise, sunset, temp, feelsLike, pressure, humidity, dewPoint, clouds, uvi,
               visibility, windSpeed, windGust, windDeg, rain, snow, weather))
  }

  /** `OneCallResponse.Minutely(data)`. */
  function ParseMinutely(j: Json): (r: Result<Minutely>)
    ensures r.Ok? <==> j.JObj? && {"dt", "precipitation"} <= j.fields.Keys
  {
    var dt :- Field(j, "dt");
    var precipitation :- Field(j, "precipitation");
    Ok(Minutely(dt, precipitation))
  }

  const HOURLY_KEYS: set<string> := {
    "dt", "temp", "feels_like", "pressure", "humidity", "dew_point", "uvi", "clouds",
    "visibility", "wind_speed", "wind_deg", "pop", "rain", "snow", "weather"}

  /** `OneCallResponse.Hourly(data)`. */
  function ParseHourly(j: Json): (r: Result<Hourly>)
    ensures r.Ok? <==>
      && j.JObj? && HOURLY_KEYS <= j.fields.Keys
      && j.fields["rain"].JObj? && j.fields["snow"].JObj?
      && ParseWeatherDetails(j.fields["weather"]).Ok?
    ensures r.Ok? ==> r.value.temp == j.fields["temp"] && r.value.windSpeed == j.fields["wind_speed"]
    ensures r.Ok? ==> ParseRain(j.fields["rain"]) == Ok(r.value.rain)
                      && ParseRain(j.fields["snow"]) == Ok(r.value.snow)
                      && ParseWeatherDetails(j.fields["weather"]) == Ok(r.value.weather)
  {
    var dt :- Field(j, "dt");
    var temp :- Field(j, "temp");
    var feelsLike :- Field(j, "feels_like");
    var pressure :- Field(j, "pressure");
    var humidity :- Field(j, "humidity");
    var dewPoint :- Field(j, "dew_point");
    var uvi :- Field(j, "uvi");
    var clouds :- Field(j, "clouds");
    var visibility :- Field(j, "visibility");
    var windSpeed :- Field(j, "wind_speed");
    var windGust := GetOrNull(j.fields, "wind_gust");
    var windDeg :- Field(j, "wind_deg");
    var pop :- Field(j, "pop");
    var rainData :- Field(j, "rain");
    var rain :- ParseRain(rainData);
    var snowData :- Field(j, "snow");
    var snow :- ParseRain(snowData);
    var weatherData :- Field(j, "weather");
    var weather :- ParseWeatherDetails(weatherData);
    Ok(Hourly(dt, temp, feelsLike, pressure, humidity, dewPoint, uvi, clouds, visibility,
              windSpeed, windGust, windDeg, pop, rain, snow, weather))
  }

  /** `OneCallResponse.DailyFeelsLike(data)`. */
  function ParseDailyFeelsLike(j: Json): (r: Result<DailyFeelsLike>)
    ensures r.Ok? <==> j.JObj? && {"morn", "day", "eve", "night"} <= j.fields.Keys
  {
    var morn :- Field(j, "morn");
    var day :- Field(j, "day");
    var eve :- Field(j, "eve");
    var night :- Field(j, "night");
    Ok(DailyFeelsLike(morn, day, eve, night))
  }

  /** `OneCallResponse.DailyTemp(data)`: the four periods first, then the extremes. */
  function ParseDailyTemp(j: Json): (r: Result<DailyTemp>)
    ensures r.Ok? <==> j.JObj? && {"morn", "day", "eve", "night", "min", "max"} <= j.fields.Keys
  {
    var periods :- ParseDailyFeelsLike(j);
    var min :- Field(j, "min");
    var max :- Field(j, "max");
    Ok(DailyTemp(periods.morn, periods.day, periods.eve, periods.night, min, max))
  }

  const DAILY_KEYS: set<string> := {
    "dt", "sunrise", "sunset", "moonrise", "moonset", "moon_phase", "summary", "temp",
    "feels_like", "pressure", "humidity", "dew_point", "wind_speed", "wind_deg", "clouds",
    "uvi", "pop", "rain", "snow", "weather"}

  /** `OneCallResponse.Daily(data)`. */
  function ParseDaily(j: Json): (r: Result<Daily>)
    ensures r.Ok? <==>
      && j.JObj? && DAILY_KEYS <= j.fields.Keys
      && ParseDailyTemp(j.fields["temp"]).Ok? && ParseDailyFeelsLike(j.fields["feels_like"]).Ok?
      && ParseWeatherDetails(j.fields["weather"]).Ok?
    ensures r.Ok? ==> r.value.rain == j.fields["rain"] && r.value.snow == j.fields["snow"]
                      && r.value.windSpeed == j.fields["wind_speed"]
                      && ParseDailyTemp(j.fields["temp"]) == Ok(r.value.temp)
                      && ParseWeatherDetails(j.fields["weather"]) == Ok(r.value.weather)
  {
    var dt :- Field(j, "dt");
    var sunrise :- Field(j, "sunrise");
    var sunset :- Field(j, "sunset");
    var moonrise :- Field(j, "moonrise");
    var moonset :- Field(j, "moonset");
    var moonPhase :- Field(j, "moon_phase");
    var summary :- Field(j, "summary");
    var tempData :- Field(j, "temp");
    var temp :- ParseDailyTemp(tempData);
    var feelsLikeData :- Field(j, "feels_like");
    var feelsLike :- ParseDailyFeelsLike(feelsLikeData);
    var pressure :- Field(j, "pressure");
    var humidity :- Field(j, "humidity");
    var dewPoint :- Field(j, "dew_point");
    var windSpeed :- Field(j, "wind_speed");
    var windGust := GetOrNull(j.fields, "wind_gust");
    var windDeg :- Field(j, "wind_deg");
    var clouds :- Field(j, "clouds");
    var uvi :- Field(j, "uvi");
    var pop :- Field(j, "pop");
    var rain :- Field(j, "rain");
    var snow :- Field(j, "snow");
    var weatherData :- Field(j, "weather");
    var weather :- ParseWeatherDetails(weatherData);
    Ok(Daily(dt, sunrise, sunset, moonrise, moonset, moonPhase, summary, temp, feelsLike,
             pressure, humidity, dewPoint, windSpeed, windGust, windDeg, clouds, uvi, pop,
             rain, snow, weather))
  }

  /** `OneCallResponse.Alert(data)`. */
  function ParseAlert(j: Json): (r: Result<Alert>)
    ensures r.Ok? <==> j.JObj? && {"sender_name", "event", "start", "end", "description", "tags"} <= j.fields.Keys
    ensures r.Ok? ==> r.value.description == j.fields["description"]
  {
    var senderName :- Field(j, "sender_name");
    var event :- Field(j, "event");
    var start :- Field(j, "start");
    var end :- Field(j, "end");
    var description :- Field(j, "description");
    var tags :- Field(j, "tags");
    Ok(Alert(senderName, event, start, end, description, tags))
  }

  /** Parses an optional section: absent keys give None. */
  function ParseSection<T>(data: map<string, Json>, key: string, parse: Json -> Result<T>): (r: Result<Option<T>>)
    ensures key !in data ==> r == Ok(None)
    ensures key in data ==> (r.Ok? <==> parse(data[key]).Ok?)
    ensures key in data && r.Ok? ==> r.value == Some(parse(data[key]).value)
  {
    if key in data then
      var v :- parse(data[key]);
      Ok(Some(v))
    else Ok(None)
  }

  /** `OneCallResponse(data)`: each optional section is present exactly when
      its key is in the data, and each list section holds one record per item,
      in order. */
  function ParseOneCall(data: Json): (r: Result<OneCallResponse>)
    ensures r.Ok? <==>
      && data.JObj?
      && {"lat", "lon", "timezone", "timezone_offset"} <= data.fields.Keys
      && ("current" in data.fields ==> ParseCurrent(data.fields["current"]).Ok?)
      && ("minutely" in data.fields ==> ParseList(data.fields["minutely"], ParseMinutely).Ok?)
      && ("hourly" in data.fields ==> ParseList(data.fields["hourly"], ParseHourly).Ok?)
      && ("daily" in data.fields ==> ParseList(data.fields["daily"], ParseDaily).Ok?)
      && ("alerts" in data.fields ==> ParseList(data.fields["alerts"], ParseAlert).Ok?)
    ensures r.Ok? ==>
      && (r.value.current.Some? <==> "current" in data.fields)
      && (r.value.minutely.Some? <==> "minutely" in data.fields)
      && (r.value.hourly.Some? <==> "hourly" in data.fields)
      && (r.value.daily.Some? <==> "daily" in data.fields)
      && (r.value.alerts.Some? <==> "alerts" in data.fields)
    ensures r.Ok? ==>
      && r.value.lat == data.fields["lat"] && r.value.lon == data.fields["lon"]
      && r.value.timezone == data.fields["timezone"] && r.value.timezoneOffset == data.fields["timezone_offset"]
    ensures r.Ok? && "current" in data.fields ==>
      ParseCurrent(data.fields["current"]) == Ok(r.value.current.value)
    ensures r.Ok? && "minutely" in data.fields ==>
      ParseList(data.fields["minutely"], ParseMinutely) == Ok(r.value.minutely.value)
    ensures r.Ok? && "hourly" in data.fields ==>
      ParseList(data.fields["hourly"], ParseHourly) == Ok(r.value.hourly.value)
    ensures r.Ok? && "daily" in data.fields ==>
      ParseList(data.fields["daily"], ParseDaily) == Ok(r.value.daily.value)
    ensures r.Ok? && "alerts" in data.fields ==>
      ParseList(data.fields["alerts"], ParseAlert) == Ok(r.value.alerts.value)
  {
    var lat :- Field(data, "lat");
    var lon :- Field(data, "lon");
    var timezone :- Field(data, "timezone");
    var timezoneOffset :- Field(data, "timezone_offset");
    var current :- ParseSection(data.fields, "current", ParseCurrent);
    var minutely :- ParseSection(data.fields, "minutely", j => ParseList(j, ParseMinutely));
    var hourly :- ParseSection(data.fields, "hourly", j => ParseList(j, ParseHourly));
    var daily :- ParseSection(data.fields, "daily", j => ParseList(j, ParseDaily));
    var alerts :- ParseSection(data.fields, "alerts", j => ParseList(j, ParseAlert));
    Ok(OneCallResponse(lat, lon, timezone, timezoneOffset, current, minutely, hourly, daily, alerts))
  }

  /** `GeocodeResponse(data)`. */
  function ParseGeocodeResult(j: Json): (r: Result<GeocodeResult>)
    ensures r.Ok? <==> j.JObj? && {"name", "lat", "lon", "country"} <= j.fields.Keys
    ensures r.Ok? ==> r.value.lat == j.fields["lat"] && r.value.lon == j.fields["lon"]
  {
    var name :- Field(j, "name");
    var localNames := GetOrNull(j.fields, "local_names");
    var lat :- Field(j, "lat");
    var lon :- Field(j, "lon");
    var country :- Field(j, "country");
    var state := GetOrNull(j.fields, "state");
    Ok(GeocodeResult(name, localNames, lat, lon, country, state))
  }

  /** What `geocode` returns for the decoded body of its request: one result
      per item. */
  function ParseGeocode(data: Json): (r: Result<seq<GeocodeResult>>)
    ensures data.JList? ==> r == MapEach(data.items, ParseGeocodeResult)
    ensures r.Ok? && data.JList? ==> |r.value| == |data.items|
  {
    ParseList(data, ParseGeocodeResult)
  }
}
