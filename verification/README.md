# Weather/AQI gateway — Dafny model

A model of the backend of a small FastAPI gateway in front of OpenWeatherMap
(`backend/app/main.py`). The gateway exposes `/aqi` and `/weather`. Each one makes
a single authenticated GET to the OpenWeatherMap 2.5 API and flattens the nested JSON
reply into a fixed flat object. Everything is modelled as pure functions, as the
source is written. The configured API key is a parameter. The upstream's behaviour
is an abstract input (`Upstream.Outcome`). The request the gateway would send is
returned in the result (`Upstream.Exchange.sent`), so "no request was made" is a
statement about the result.

Files:

- `results.dfy`: `Option`, and `Result` usable with `:-`.
- `py_json.dfy`: the JSON value type and the Python operations the code applies to
  it. These are `dict.get` with its default used only for an absent key, `x or y`
  with Python truthiness, and `v[0]`. Where Python raises (`AttributeError`,
  `IndexError`, `KeyError`, `TypeError`), the model returns the exception.
- `upstream.dfy`: `_call_openweather`. It covers the missing-key check, the query
  merge, the URL, and how a transport error or an HTTP status is classified.
- `normalize.dfy`: the reshaping bodies of `get_aqi` and `get_weather`. For each
  one there is a reference upstream document and a round-trip lemma, plus lemmas
  on each edge case.
- `endpoints.dfy`: the two handlers. They fix which resource is called, with which
  parameters (`units` defaults to `"metric"`), and how failures and payloads reach
  the caller.

Every operation is a function of its inputs, so repeated calls with the same inputs
give the same reply. No state is hidden between requests.

Behaviour of the code worth noting:

- On an `appid` collision the caller's parameter wins, because it is spread after
  the key in `{"appid": API_KEY, **params}`. It does not lose.
- Only status 200 yields a payload. 201, 204 and every other 2xx are errors that
  carry their status and body text.
- `{"list": []}` makes `/aqi` raise `IndexError`. It does not return three nulls:
  the `[{}]` default applies only when `list` is absent.
- A 200 reply whose body is not JSON makes `resp.json()` raise. That is an
  unhandled exception, so the server answers 500, not 502.

## Model

| member | source | states |
|---|---|---|
| `PyJson.Get` | backend/app/main.py:55-59 | `d.get(k, default)` succeeds exactly on dicts. It yields the stored value when the key is present (null included) and the default only when the key is absent. On a non-dict it raises `AttributeError`. |
| `PyJson.First` | backend/app/main.py:55 | `v[0]` succeeds exactly on a non-empty list or string and yields the list's first element. An empty list or string raises `IndexError`. |
| `PyJson.Or` | backend/app/main.py:79 | `x or y` is `x` when `x` is truthy and `y` otherwise. |
| `Upstream.WithKey` | backend/app/main.py:34 | The merged query has exactly the caller's keys plus `appid`. Every caller value is kept unchanged. `appid` is the key when the caller gave none. |
| `Upstream.UrlFor` | backend/app/main.py:35 | The URL is the base, then `/`, then the path, with the path recoverable as its suffix. |
| `Upstream.Classify` | backend/app/main.py:37-46 | A transport error gives 503 with `"Upstream error: "` plus the message. Any status other than 200 gives that status with the body text. A payload is returned exactly when the status is 200 and the body is JSON. |
| `Upstream.CallOpenWeather` | backend/app/main.py:30-46 | A request is sent if and only if the key is set and non-empty. That request has the `UrlFor` URL and the `WithKey` query. Without a key the result is 500 "OPENWEATHER_API_KEY is missing". With a key the result is the classified outcome. |
| `Upstream.MissingKeySendsNothing` | backend/app/main.py:31-32 | With an absent or empty key, the result is 500 "OPENWEATHER_API_KEY is missing" and no request is sent, whatever the upstream would have answered. |
| `Upstream.QueryIsKeyPlusParams` | backend/app/main.py:34 | The query sent holds exactly the caller's keys plus `appid`, each caller value unchanged. `appid` is the caller's value if given, otherwise the key. |
| `Upstream.UrlDeterminesPath` | backend/app/main.py:35 | Two paths give the same URL if and only if they are equal. |
| `Upstream.UrlIsBaseSlashPath` | backend/app/main.py:12-35 | The URL is `https://api.openweathermap.org/data/2.5/` followed by the path. |
| `Upstream.TransportFailureIs503` | backend/app/main.py:37-41 | A transport failure yields status 503 with detail `"Upstream error: " + message`. |
| `Upstream.OnlyStatus200Succeeds` | backend/app/main.py:43-46 | A status other than 200 yields that status with the raw text. Status 200 yields the decoded body, or a `JSONDecodeError` when the body is not JSON. |
| `Normalize.NormalizeAqi` | backend/app/main.py:55-60 | A non-dict payload raises `AttributeError`. A successful reply has exactly the keys `aqi`, `components`, `timestamp`. |
| `Normalize.NormalizeWeather` | backend/app/main.py:77-89 | A non-dict payload raises `AttributeError`. A successful reply has exactly the 8 keys `temperature`, `feels_like`, `humidity`, `pressure`, `wind_speed`, `condition`, `city`, `country`. |
| `Normalize.AqiWithoutList` | backend/app/main.py:55-60 | Without `list` the reply is `aqi` null, `components` `{}`, `timestamp` null. |
| `Normalize.AqiEmptyListRaises` | backend/app/main.py:55 | A present but empty `list` raises `IndexError`. |
| `Normalize.AqiFromFirstEntry` | backend/app/main.py:55-60 | When `list[0]` is an object: normalization fails if and only if `main` is present and not an object. Otherwise `aqi` is `main.aqi` (null if absent), `components` defaults to `{}`, and `timestamp` is `dt` (null if absent). |
| `Normalize.AqiReadsOnlyFirstEntry` | backend/app/main.py:55 | Two payloads whose lists have the same first element normalize to the same result. |
| `Normalize.AqiRoundTrip` | backend/app/main.py:55-60 | Normalizing an air-pollution reply built from readings gives back exactly those readings. |
| `Normalize.WeatherWithoutMain` | backend/app/main.py:77-84 | Without `main`, `temperature`, `feels_like`, `humidity` and `pressure` are null. |
| `Normalize.WeatherWithoutWind` | backend/app/main.py:78-85 | Without `wind`, `wind_speed` is null. |
| `Normalize.WeatherNonObjectMainOrWindRaises` | backend/app/main.py:77-85 | A `main` or `wind` that is present but not an object (null included) makes normalization fail. |
| `Normalize.WeatherConditionFromFirstEntry` | backend/app/main.py:79-86 | `condition` is null when `weather` is missing or falsy. When `weather` is a non-empty list whose first element is an object, `condition` is that object's `description` (null if absent). A non-null `condition` can only come from there. |
| `Normalize.WeatherFromPayload` | backend/app/main.py:77-89 | For any dict payload: normalization succeeds if and only if `main` and `wind` are absent or objects, `weather` is falsy or a list starting with an object, and `sys` is falsy or an object. On success each of the 8 fields is the matching lookup: `main.temp`, `main.feels_like`, `main.humidity`, `main.pressure`, `wind.speed`, `weather[0].description`, `name`, `sys.country`, each null when absent. |
| `Normalize.WeatherWithoutWindExample` | backend/app/main.py:77-89 | `{"main": {"temp": 20}}` normalizes without error to temperature 20 with every other field null, `wind_speed` included. |
| `Normalize.WeatherToleratesEmptyWeather` | backend/app/main.py:55-86 | `{"weather": []}` normalizes to all nulls, while `{"list": []}` makes the AQI normalizer raise `IndexError`. |
| `Normalize.WeatherCountry` | backend/app/main.py:88 | `country` is null when `sys` is missing or falsy (null included). Otherwise `sys` is an object and `country` is its `country` field (null if absent). |
| `Normalize.WeatherCity` | backend/app/main.py:87 | `city` is the payload's `name`, null when absent. |
| `Normalize.WeatherRoundTrip` | backend/app/main.py:77-89 | Normalizing a current-weather reply built from any 8 readings gives back exactly those readings. |
| `Endpoints.Reply` | backend/app/main.py:54-60 | A failed upstream call is passed to the caller unchanged. A payload goes through the normalizer, and its exceptions become the reply's error. |
| `Endpoints.GetAqi` | backend/app/main.py:49-60 | `/aqi` sends what `_call_openweather("air_pollution", {lat, lon})` sends. |
| `Endpoints.GetWeather` | backend/app/main.py:63-89 | `/weather` sends what `_call_openweather("weather", {lat, lon, units})` sends. |
| `Endpoints.AqiSendsCoordinatesAndKey` | backend/app/main.py:54 | With a key, `/aqi` sends one request to `.../2.5/air_pollution` with exactly `appid`, `lat`, `lon`. |
| `Endpoints.WeatherSendsCoordinatesUnitsAndKey` | backend/app/main.py:67-76 | With a key, `/weather` sends one request to `.../2.5/weather` with exactly `appid`, `lat`, `lon`, `units`. `units` is the caller's value unchanged, or `"metric"` when omitted. |
| `Endpoints.MissingKeyOnBothEndpoints` | backend/app/main.py:30-32 | Without a key, both endpoints answer 500 "OPENWEATHER_API_KEY is missing" and send nothing. |
| `Endpoints.AqiReply` | backend/app/main.py:54-60 | `/aqi` passes on 503 transport errors and non-200 statuses unchanged. A 200 JSON payload is given to the AQI normalizer. |
| `Endpoints.WeatherReply` | backend/app/main.py:69-89 | `/weather` passes on 503 transport errors and non-200 statuses unchanged. A 200 JSON payload is given to the weather normalizer. |

## Left out

- The FastAPI app object, CORS middleware and the `/health` route (backend/app/main.py:14-27), and `Query` validation of `lat`/`lon` (backend/app/main.py:51-52, 65-67). These are framework plumbing. The model takes `lat`/`lon` as already-validated numbers.
- How FastAPI renders a failure. An `HttpError(status, detail)` becomes that status with a `{"detail": ...}` body. A `Raised` exception becomes a 500 from the server. Neither rendering is modelled.
- `httpx.AsyncClient`, the 10-second timeout, async/await and the network. The upstream's answer is the `Outcome` input, and a timeout is one kind of `TransportError`.
- Parsing of the response body by `resp.json()`. The outcome carries the decoded body, or `None` when the text is not JSON. The link between text and decoded body is not modelled.
- How httpx encodes query values into the URL string. The query is kept as a map.
- `load_dotenv` and `os.getenv`: environment I/O. The key is a parameter, `None` when unset.
- Float semantics of coordinates and JSON numbers. Numbers are `real`, so `-0.0`, NaN and rounding are not modelled. Only zero-ness matters, for truthiness.
- Key order and duplicate keys in JSON objects. Objects are maps.
- The TODO for diet routes (backend/app/main.py:92), which has no code.
- `frontend/src/App.jsx`: React UI state and concurrent axios calls. It is not part of this model.
