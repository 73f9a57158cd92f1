/**
  The `/aqi` and `/weather` handlers: which upstream resource each calls,
  with which query parameters, and how the call's outcome and the
  normalizer combine into the reply.
*/
module Endpoints {
  import opened Results
  import opened PyJson
  import opened Upstream
  import opened Normalize

  const AirPollutionPath: string := "air_pollution"
  const WeatherPath: string := "weather"
  const DefaultUnits: string := "metric"

  /** The query parameters `/aqi` forwards. */
  function AqiParams(lat: real, lon: real): Query {
    map["lat" := QNum(lat), "lon" := QNum(lon)]
  }

  /** The query parameters `/weather` forwards; `units` is the caller's, or "metric" when omitted. */
  function WeatherParams(lat: real, lon: real, units: Option<string>): Query {
    map["lat" := QNum(lat), "lon" := QNum(lon),
        "units" := QStr(if units.Some? then units.value else DefaultUnits)]
  }

  /** Runs a normalizer on a successful call; a failed call is passed back as it is. */
  function Reply(call: Exchange, normalize: Json -> Result<Json, PyError>): (x: Exchange)
    ensures x.sent == call.sent
    ensures call.result.Err? ==> x.result == call.result
    ensures call.result.Ok? ==> x.result == normalize(call.result.value).MapErr(e => Raised(e))
  {
    match call.result
    case Err(_) => call
    case Ok(payload) => Exchange(call.sent, normalize(payload).MapErr(e => Raised(e)))
  }

  /** `GET /aqi?lat=..&lon=..`. */
  function GetAqi(apiKey: Option<string>, lat: real, lon: real, upstream: Outcome): (x: Exchange)
    ensures x.sent == CallOpenWeather(apiKey, AirPollutionPath, AqiParams(lat, lon), upstream).sent
  {
    Reply(CallOpenWeather(apiKey, AirPollutionPath, AqiParams(lat, lon), upstream), NormalizeAqi)
  }

  /** `GET /weather?lat=..&lon=..[&units=..]`. */
  function GetWeather(apiKey: Option<string>, lat: real, lon: real, units: Option<string>, upstream: Outcome): (x: Exchange)
    ensures x.sent == CallOpenWeather(apiKey, WeatherPath, WeatherParams(lat, lon, units), upstream).sent
  {
    Reply(CallOpenWeather(apiKey, WeatherPath, WeatherParams(lat, lon, units), upstream), NormalizeWeather)
  }

  /** With a key, `/aqi` sends one request: the air-pollution URL with exactly `appid`, `lat` and `lon`. */
  lemma AqiSendsCoordinatesAndKey(key: string, lat: real, lon: real, upstream: Outcome)
    requires key != ""
    ensures GetAqi(Some(key), lat, lon, upstream).sent == Some(Request(
      "https://api.openweathermap.org/data/2.5/air_pollution",
      map["appid" := QStr(key), "lat" := QNum(lat), "lon" := QNum(lon)]))
  {
    UrlIsBaseSlashPath(AirPollutionPath);
    assert UrlFor(AirPollutionPath) == "https://api.openweathermap.org/data/2.5/air_pollution";
    var q := WithKey(key, AqiParams(lat, lon));
    assert q.Keys == {"appid", "lat", "lon"};
    assert q == map["appid" := QStr(key), "lat" := QNum(lat), "lon" := QNum(lon)];
  }

  /**
    With a key, `/weather` sends one request: the current-weather URL with
    exactly `appid`, `lat`, `lon` and `units`, which is the caller's value
    unchanged or "metric" when omitted.
  */
  lemma WeatherSendsCoordinatesUnitsAndKey(key: string, lat: real, lon: real, units: Option<string>, upstream: Outcome)
    requires key != ""
    ensures GetWeather(Some(key), lat, lon, units, upstream).sent == Some(Request(
      "https://api.openweathermap.org/data/2.5/weather",
      map["appid" := QStr(key), "lat" := QNum(lat), "lon" := QNum(lon),
          "units" := QStr(if units == None then "metric" else units.value)]))
  {
    UrlIsBaseSlashPath(WeatherPath);
    assert UrlFor(WeatherPath) == "https://api.openweathermap.org/data/2.5/weather";
    var u := QStr(if units == None then "metric" else units.value);
    var q := WithKey(key, WeatherParams(lat, lon, units));
    assert q.Keys == {"appid", "lat", "lon", "units"};
    assert q == map["appid" := QStr(key), "lat" := QNum(lat), "lon" := QNum(lon), "units" := u];
  }

  /** Without a key both endpoints answer 500 and send nothing. */
  lemma MissingKeyOnBothEndpoints(apiKey: Option<string>, lat: real, lon: real, units: Option<string>, upstream: Outcome)
    requires !KeyConfigured(apiKey)
    ensures GetAqi(apiKey, lat, lon, upstream) == Exchange(None, Err(HttpError(500, MissingKeyDetail)))
    ensures GetWeather(apiKey, lat, lon, units, upstream) == Exchange(None, Err(HttpError(500, MissingKeyDetail)))
  {
  }

  /** Upstream failures reach the `/aqi` caller as they are; a 200 payload is normalized. */
  lemma AqiReply(key: string, lat: real, lon: real, upstream: Outcome)
    requires key != ""
    ensures var r := GetAqi(Some(key), lat, lon, upstream).result;
      && (upstream.TransportError? ==> r == Err(HttpError(503, TransportDetailPrefix + upstream.message)))
      && (upstream.Response? && upstream.status != 200 ==> r == Err(HttpError(upstream.status, upstream.text)))
      && (upstream.Response? && upstream.status == 200 && upstream.body.Some? ==>
            r == NormalizeAqi(upstream.body.value).MapErr(e => Raised(e)))
  {
  }

  /** Upstream failures reach the `/weather` caller as they are; a 200 payload is normalized. */
  lemma WeatherReply(key: string, lat: real, lon: real, units: Option<string>, upstream: Outcome)
    requires key != ""
    ensures var r := GetWeather(Some(key), lat, lon, units, upstream).result;
      && (upstream.TransportError? ==> r == Err(HttpError(503, TransportDetailPrefix + upstream.message)))
      && (upstream.Response? && upstream.status != 200 ==> r == Err(HttpError(upstream.status, upstream.text)))
      && (upstream.Response? && upstream.status == 200 && upstream.body.Some? ==>
            r == NormalizeWeather(upstream.body.value).MapErr(e => Raised(e)))
  {
  }
}
