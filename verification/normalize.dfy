/**
  The reshaping done by the `/aqi` and `/weather` handlers: nested
  OpenWeatherMap payloads are flattened into fixed flat objects, with
  Python's `dict.get` defaults and `or` fallbacks.  A lookup that Python
  would crash on yields the exception.
*/
module Normalize {
  import opened Results
  import opened PyJson

  /** The flat `/aqi` reply. */
  datatype AirQuality = AirQuality(aqi: Json, components: Json, timestamp: Json)

  const AirQualityKeys: set<string> := {"aqi", "components", "timestamp"}

  function AirQualityJson(a: AirQuality): (j: Json)
    ensures j.JObj? && j.fields.Keys == AirQualityKeys
  {
    JObj(map["aqi" := a.aqi, "components" := a.components, "timestamp" := a.timestamp])
  }

  /** The flat `/weather` reply. */
  datatype Weather = Weather(
    temperature: Json, feelsLike: Json, humidity: Json, pressure: Json,
    windSpeed: Json, condition: Json, city: Json, country: Json)

  const WeatherKeys: set<string> :=
    {"temperature", "feels_like", "humidity", "pressure", "wind_speed", "condition", "city", "country"}

  function WeatherJson(w: Weather): (j: Json)
    ensures j.JObj? && j.fields.Keys == WeatherKeys
  {
    JObj(map[
      "temperature" := w.temperature,
      "feels_like" := w.feelsLike,
      "humidity" := w.humidity,
      "pressure" := w.pressure,
      "wind_speed" := w.windSpeed,
      "condition" := w.condition,
      "city" := w.city,
      "country" := w.country])
  }

  /** The body of `get_aqi` after the upstream call: only `list[0]` is read. */
  function NormalizeAqi(payload: Json): (r: Result<Json, PyError>)
    ensures !payload.JObj? ==> r == Err(AttributeError)
    ensures r.Ok? ==> r.value.JObj? && r.value.fields.Keys == AirQualityKeys
  {
    // Each `if !x.JObj?` is the AttributeError of calling `x.get` on a non-dict.
    if !payload.JObj? then Err(AttributeError) else
    var entry :- First(Lookup(payload.fields, "list", JArr([EmptyObject])));
    if !entry.JObj? then Err(AttributeError) else
    var aqi :- Get(Lookup(entry.fields, "main", EmptyObject), "aqi", JNull);
    var components := Lookup(entry.fields, "components", EmptyObject);
    var timestamp := Lookup(entry.fields, "dt", JNull);
    Ok(AirQualityJson(AirQuality(aqi, components, timestamp)))
  }

  /** The body of `get_weather` after the upstream call, in the source's evaluation order. */
  function NormalizeWeather(payload: Json): (r: Result<Json, PyError>)
    ensures !payload.JObj? ==> r == Err(AttributeError)
    ensures r.Ok? ==> r.value.JObj? && r.value.fields.Keys == WeatherKeys
  {
    // Each `if !x.JObj?` is the AttributeError of calling `x.get` on a non-dict.
    if !payload.JObj? then Err(AttributeError) else
    var main := Lookup(payload.fields, "main", EmptyObject);
    var wind := Lookup(payload.fields, "wind", EmptyObject);
    var weather :- First(Or(Lookup(payload.fields, "weather", JNull), JArr([EmptyObject])));
    if !main.JObj? then Err(AttributeError) else
    var temperature := Lookup(main.fields, "temp", JNull);
    var feelsLike := Lookup(main.fields, "feels_like", JNull);
    var humidity := Lookup(main.fields, "humidity", JNull);
    var pressure := Lookup(main.fields, "pressure", JNull);
    if !wind.JObj? then Err(AttributeError) else
    var windSpeed := Lookup(wind.fields, "speed", JNull);
    if !weather.JObj? then Err(AttributeError) else
    var condition := Lookup(weather.fields, "description", JNull);
    var city := Lookup(payload.fields, "name", JNull);
    var country :- Get(Or(Lookup(payload.fields, "sys", JNull), EmptyObject), "country", JNull);
    Ok(WeatherJson(Weather(temperature, feelsLike, humidity, pressure, windSpeed, condition, city, country)))
  }

  // ---------------------------------------------------------------------------
  // Air quality

  /** A payload without `list` normalizes to the three defaults. */
  lemma AqiWithoutList(payload: Json)
    requires payload.JObj? && "list" !in payload.fields
    ensures NormalizeAqi(payload) == Ok(AirQualityJson(AirQuality(JNull, EmptyObject, JNull)))
  {
  }

  /** A present but empty `list` is indexed anyway and raises `IndexError`. */
  lemma AqiEmptyListRaises(payload: Json)
    requires payload.JObj? && "list" in payload.fields && payload.fields["list"] == JArr([])
    ensures NormalizeAqi(payload) == Err(IndexError)
  {
  }

  /**
    When `list[0]` is an object, what normalization yields in terms of that
    entry alone: it fails exactly when `main` is present and not an object,
    and otherwise each field is the entry's value or its default.
  */
  lemma AqiFromFirstEntry(payload: Json, rest: seq<Json>, entry: map<string, Json>)
    requires payload.JObj? && "list" in payload.fields
    requires payload.fields["list"] == JArr([JObj(entry)] + rest)
    ensures var r := NormalizeAqi(payload);
      && (r.Ok? <==> "main" !in entry || entry["main"].JObj?)
      && (r.Ok? ==> r.value == AirQualityJson(AirQuality(
            if "main" in entry && "aqi" in entry["main"].fields then entry["main"].fields["aqi"] else JNull,
            if "components" in entry then entry["components"] else EmptyObject,
            if "dt" in entry then entry["dt"] else JNull)))
  {
  }

  /** Nothing but `list[0]` matters: payloads whose lists start alike normalize alike. */
  lemma AqiReadsOnlyFirstEntry(p1: Json, p2: Json)
    requires p1.JObj? && p2.JObj? && "list" in p1.fields && "list" in p2.fields
    requires p1.fields["list"].JArr? && p2.fields["list"].JArr?
    requires p1.fields["list"].items != [] && p2.fields["list"].items != []
    requires p1.fields["list"].items[0] == p2.fields["list"].items[0]
    ensures NormalizeAqi(p1) == NormalizeAqi(p2)
  {
  }

  /** The shape of an OpenWeatherMap air-pollution reply carrying the given readings. */
  function AirPollutionDocument(a: AirQuality): Json {
    JObj(map["list" := JArr([JObj(map[
      "main" := JObj(map["aqi" := a.aqi]),
      "components" := a.components,
      "dt" := a.timestamp])])])
  }

  /** Normalizing a well-formed air-pollution reply recovers exactly the readings it carries. */
  lemma AqiRoundTrip(a: AirQuality)
    ensures NormalizeAqi(AirPollutionDocument(a)) == Ok(AirQualityJson(a))
  {
  }

  // ---------------------------------------------------------------------------
  // Weather

  /** Without `main`, the four readings taken from it are null. */
  lemma WeatherWithoutMain(payload: Json)
    requires payload.JObj? && "main" !in payload.fields
    requires NormalizeWeather(payload).Ok?
    ensures var out := NormalizeWeather(payload).value.fields;
      out["temperature"] == JNull && out["feels_like"] == JNull &&
      out["humidity"] == JNull && out["pressure"] == JNull
  {
  }

  /** Without `wind`, the wind speed is null. */
  lemma WeatherWithoutWind(payload: Json)
    requires payload.JObj? && "wind" !in payload.fields
    requires NormalizeWeather(payload).Ok?
    ensures NormalizeWeather(payload).value.fields["wind_speed"] == JNull
  {
  }

  /** `main` or `wind` present but not an object (null included) makes normalization raise. */
  lemma WeatherNonObjectMainOrWindRaises(payload: Json)
    requires payload.JObj?
    requires ("main" in payload.fields && !payload.fields["main"].JObj?)
          || ("wind" in payload.fields && !payload.fields["wind"].JObj?)
    ensures NormalizeWeather(payload).Err?
  {
  }

  /**
    `condition` is null when `weather` is missing or falsy (null, empty list,
    ...).  When `weather` is a list whose first element is an object, it is
    that object's `description` (null if absent); and a non-null `condition`
    can only come from there.
  */
  lemma WeatherConditionFromFirstEntry(payload: Json)
    requires payload.JObj? && NormalizeWeather(payload).Ok?
    ensures var condition := NormalizeWeather(payload).value.fields["condition"];
      && ("weather" !in payload.fields || !Truthy(payload.fields["weather"]) ==> condition == JNull)
      && ("weather" in payload.fields && payload.fields["weather"].JArr? &&
          payload.fields["weather"].items != [] && payload.fields["weather"].items[0].JObj? ==>
            condition == Lookup(payload.fields["weather"].items[0].fields, "description", JNull))
      && (condition != JNull ==>
            && "weather" in payload.fields
            && payload.fields["weather"].JArr?
            && payload.fields["weather"].items != []
            && payload.fields["weather"].items[0].JObj?
            && "description" in payload.fields["weather"].items[0].fields
            && condition == payload.fields["weather"].items[0].fields["description"])
  {
  }

  /**
    What the weather normalizer computes for any dict payload.  It succeeds
    exactly when `main` and `wind` are absent or objects, `weather` is falsy
    or a list starting with an object, and `sys` is falsy or an object; each
    of the 8 fields is then the matching lookup, null when absent.
  */
  lemma WeatherFromPayload(fields: map<string, Json>)
    ensures var r := NormalizeWeather(JObj(fields));
      var main := Lookup(fields, "main", EmptyObject);
      var wind := Lookup(fields, "wind", EmptyObject);
      var weather := Lookup(fields, "weather", JNull);
      var sys := Lookup(fields, "sys", JNull);
      && (r.Ok? <==>
            && main.JObj?
            && wind.JObj?
            && (!Truthy(weather) || (weather.JArr? && weather.items[0].JObj?))
            && (!Truthy(sys) || sys.JObj?))
      && (r.Ok? ==> r.value == WeatherJson(Weather(
            Lookup(main.fields, "temp", JNull),
            Lookup(main.fields, "feels_like", JNull),
            Lookup(main.fields, "humidity", JNull),
            Lookup(main.fields, "pressure", JNull),
            Lookup(wind.fields, "speed", JNull),
            if Truthy(weather) then Lookup(weather.items[0].fields, "description", JNull) else JNull,
            Lookup(fields, "name", JNull),
            if Truthy(sys) then Lookup(sys.fields, "country", JNull) else JNull)))
  {
  }

  /** A reply with a temperature and no `wind` normalizes without error: the temperature is kept, the rest is null. */
  lemma WeatherWithoutWindExample()
    ensures NormalizeWeather(JObj(map["main" := JObj(map["temp" := JNum(20.0)])])) ==
      Ok(WeatherJson(Weather(JNum(20.0), JNull, JNull, JNull, JNull, JNull, JNull, JNull)))
  {
  }

  /** A falsy `weather` (an empty list, say) is tolerated, unlike an empty AQI `list`. */
  lemma WeatherToleratesEmptyWeather(payload: Json)
    requires payload == JObj(map["weather" := JArr([])])
    ensures NormalizeWeather(payload) ==
      Ok(WeatherJson(Weather(JNull, JNull, JNull, JNull, JNull, JNull, JNull, JNull)))
    ensures NormalizeAqi(JObj(map["list" := JArr([])])) == Err(IndexError)
  {
  }

  /** `country` is null when `sys` is missing or falsy (null included); otherwise it is `sys.country`. */
  lemma WeatherCountry(payload: Json)
    requires payload.JObj? && NormalizeWeather(payload).Ok?
    ensures var country := NormalizeWeather(payload).value.fields["country"];
      && ("sys" !in payload.fields || !Truthy(payload.fields["sys"]) ==> country == JNull)
      && ("sys" in payload.fields && Truthy(payload.fields["sys"]) ==>
            && payload.fields["sys"].JObj?
            && country == (if "country" in payload.fields["sys"].fields
                           then payload.fields["sys"].fields["country"] else JNull))
  {
  }

  /** `city` is the payload's `name`, null when absent. */
  lemma WeatherCity(payload: Json)
    requires payload.JObj? && NormalizeWeather(payload).Ok?
    ensures NormalizeWeather(payload).value.fields["city"] ==
      if "name" in payload.fields then payload.fields["name"] else JNull
  {
  }

  /** The shape of an OpenWeatherMap current-weather reply carrying the given readings. */
  function CurrentWeatherDocument(w: Weather): Json {
    JObj(map[
      "main" := JObj(map[
        "temp" := w.temperature,
        "feels_like" := w.feelsLike,
        "humidity" := w.humidity,
        "pressure" := w.pressure]),
      "wind" := JObj(map["speed" := w.windSpeed]),
      "weather" := JArr([JObj(map["description" := w.condition])]),
      "name" := w.city,
      "sys" := JObj(map["country" := w.country])])
  }

  /**
    Normalizing a well-formed current-weather reply recovers exactly the
    readings it carries.  `sys` holds a key, so it is never falsy.
  */
  lemma WeatherRoundTrip(w: Weather)
    ensures NormalizeWeather(CurrentWeatherDocument(w)) == Ok(WeatherJson(w))
  {
  }
}
