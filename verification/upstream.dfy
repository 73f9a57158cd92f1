/**
  The gateway's one call to OpenWeatherMap (`_call_openweather`): the
  configuration check, the request it builds, and how the upstream's answer
  becomes either the decoded payload or an HTTP error.  The network is not
  modelled: what the upstream would answer is an input, `Outcome`, and the
  request that would go out is part of the result, `Exchange.sent`.
*/
module Upstream {
  import opened Results
  import opened PyJson

  const ApiBase: string := "https://api.openweathermap.org/data/2.5"
  const KeyParam: string := "appid"
  const MissingKeyDetail: string := "OPENWEATHER_API_KEY is missing"
  const TransportDetailPrefix: string := "Upstream error: "

  /** A query-string value: the handlers pass floats and strings. */
  datatype QueryValue = QStr(s: string) | QNum(n: real)

  type Query = map<string, QueryValue>

  /** The GET request sent upstream. */
  datatype Request = Request(url: string, query: Query)

  /**
    What the upstream does with the request: the transport fails with a
    message, or it answers with a status, the body text and, when that text
    is JSON, its decoding.
  */
  datatype Outcome =
    | TransportError(message: string)
    | Response(status: int, text: string, body: Option<Json>)

  /** Why a request yields no payload: an `HTTPException` raised on purpose, or any other exception. */
  datatype Failure =
    | HttpError(status: int, detail: string)
    | Raised(error: PyError)

  /** The request that went out, if any, and what the caller gets back. */
  datatype Exchange = Exchange(sent: Option<Request>, result: Result<Json, Failure>)

  /** `if not API_KEY`: an unset variable and an empty string both count as missing. */
  predicate KeyConfigured(apiKey: Option<string>) {
    apiKey.Some? && apiKey.value != ""
  }

  /** `{"appid": key, **params}`: the key is written first, so a caller's own `appid` replaces it. */
  function WithKey(key: string, params: Query): (q: Query)
    ensures q.Keys == params.Keys + {KeyParam}
    ensures forall k :: k in params ==> k in q && q[k] == params[k]
    ensures KeyParam !in params ==> q[KeyParam] == QStr(key)
  {
    map[KeyParam := QStr(key)] + params
  }

  /** The resource URL: the base URL, a slash, then the path. */
  function UrlFor(path: string): (url: string)
    ensures |url| == |ApiBase| + 1 + |path|
    ensures url[..|ApiBase|] == ApiBase && url[|ApiBase|] == '/'
    ensures url[|ApiBase| + 1..] == path
  {
    ApiBase + "/" + path
  }

  /** How an upstream outcome is reported to the caller once a request was sent. */
  function Classify(upstream: Outcome): (r: Result<Json, Failure>)
    ensures upstream.TransportError? ==>
              r == Err(HttpError(503, TransportDetailPrefix + upstream.message))
    ensures upstream.Response? && upstream.status != 200 ==>
              r == Err(HttpError(upstream.status, upstream.text))
    ensures r.Ok? <==> upstream.Response? && upstream.status == 200 && upstream.body.Some?
    ensures r.Ok? ==> r.value == upstream.body.value
  {
    match upstream
    case TransportError(message) => Err(HttpError(503, TransportDetailPrefix + message))
    case Response(status, text, body) =>
      if status != 200 then Err(HttpError(status, text))
      else if body.None? then Err(Raised(JSONDecodeError))
      else Ok(body.value)
  }

  /** `_call_openweather(path, params)` with the configured key passed in. */
  function CallOpenWeather(apiKey: Option<string>, path: string, params: Query, upstream: Outcome): (x: Exchange)
    ensures x.sent.Some? <==> KeyConfigured(apiKey)
    ensures x.sent.Some? ==> x.sent.value == Request(UrlFor(path), WithKey(apiKey.value, params))
    ensures !KeyConfigured(apiKey) ==> x.result == Err(HttpError(500, MissingKeyDetail))
    ensures KeyConfigured(apiKey) ==> x.result == Classify(upstream)
  {
    if !KeyConfigured(apiKey) then
      Exchange(None, Err(HttpError(500, MissingKeyDetail)))
    else
      Exchange(Some(Request(UrlFor(path), WithKey(apiKey.value, params))), Classify(upstream))
  }

  /**
    With no usable key the call fails with status 500 and sends nothing,
    whatever the upstream would have answered.
  */
  lemma MissingKeySendsNothing(apiKey: Option<string>, path: string, params: Query, u1: Outcome, u2: Outcome)
    requires apiKey == None || apiKey == Some("")
    ensures CallOpenWeather(apiKey, path, params, u1) == Exchange(None, Err(HttpError(500, MissingKeyDetail)))
    ensures CallOpenWeather(apiKey, path, params, u1) == CallOpenWeather(apiKey, path, params, u2)
  {
  }

  /**
    The query sent holds exactly the caller's keys plus `appid`; every caller
    value is sent unchanged, and `appid` is the key unless the caller gave one.
  */
  lemma QueryIsKeyPlusParams(key: string, path: string, params: Query, upstream: Outcome)
    requires key != ""
    ensures var q := CallOpenWeather(Some(key), path, params, upstream).sent.value.query;
      && q.Keys == params.Keys + {KeyParam}
      && (forall k :: k in params ==> q[k] == params[k])
      && q[KeyParam] == (if KeyParam in params then params[KeyParam] else QStr(key))
  {
  }

  /** The URL names the path: two calls reach the same URL only for the same path. */
  lemma UrlDeterminesPath(p1: string, p2: string)
    ensures UrlFor(p1) == UrlFor(p2) <==> p1 == p2
  {
  }

  /** The full URL for a path, spelled out. */
  lemma UrlIsBaseSlashPath(path: string)
    ensures UrlFor(path) == "https://api.openweathermap.org/data/2.5/" + path
  {
  }

  /** A transport failure becomes 503 with the transport's message after a fixed prefix. */
  lemma TransportFailureIs503(key: string, path: string, params: Query, message: string)
    requires key != ""
    ensures CallOpenWeather(Some(key), path, params, TransportError(message)).result
         == Err(HttpError(503, "Upstream error: " + message))
  {
  }

  /**
    Only status 200 yields a payload.  Any other status, 201 and 204
    included, is passed back with the body text unchanged.
  */
  lemma OnlyStatus200Succeeds(key: string, path: string, params: Query, status: int, text: string, body: Option<Json>)
    requires key != ""
    ensures var r := CallOpenWeather(Some(key), path, params, Response(status, text, body)).result;
      && (status != 200 ==> r == Err(HttpError(status, text)))
      && (status == 200 && body.Some? ==> r == Ok(body.value))
      && (status == 200 && body.None? ==> r == Err(Raised(JSONDecodeError)))
  {
  }
}
