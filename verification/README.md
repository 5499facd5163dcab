# Weather proxy cache — a Dafny model

The system is a one-endpoint HTTP proxy (`GET /weather?lat=…&lon=…`). It forwards a
coordinate pair to one of three upstream weather providers: open-meteo, openweather or
weatherapi. It passes the upstream JSON back unchanged as `{data, cached}`. Each reply is
kept in an in-memory map keyed by the raw coordinate strings. A later request for the same
strings, made while that entry is strictly younger than the TTL, is answered from the map.

This project models that core, from `server.js`:

- `wrappers.dfy`: `Option` and `Result`. A `Result` failure stands for a thrown error and
  carries its message.
- `urls.dfy`: a reader for query URLs: endpoint, `?`, then `name=value` pairs joined by `&`.
  It defines, independently of the templates, what each provider URL string reads back as.
  Nothing is percent-encoded, by either the templates or this reader.
- `providers.dfy`: the three URL templates, exactly as the source concatenates them. It
  also has the provider-name dispatch `RequestUrl`, which yields no URL for an unknown name.
- `cache.dfy`: the cache key, the freshness test, `Serve` (getWeather as a function of the
  configuration, the cache before the call and the inputs) and the class `WeatherService`.
  That class holds the configuration, the mutable `cache` map and a ghost log of every
  upstream URL requested. Its `GetWeather` method updates the map in place and is proved to
  agree with `Serve`. The lemmas about `Serve` cover one call, two calls and whole runs of calls.
- `handler.dfy`: the `/weather` handler. It checks that both parameters are present and
  non-empty, maps the outcome of getWeather to 200, 400 or 500, and has a `HandleWeather`
  method proved against the function `Handle`.

Inputs that the source reads from its environment are parameters here:

- `Date.now()` is the parameter `now`, in milliseconds.
- The upstream is a function `string -> Result<T, string>`. It takes the request URL and
  gives either the decoded body, of opaque type `T`, or the message of the error that
  `axios.get` throws.
- Provider name, API key and TTL form the immutable `Config`. `DefaultConfig` holds the
  defaults: `open-meteo`, empty key, 600000 ms.

Four points about the code's behaviour, which the model follows:

- The key is not rounded; it is the raw strings joined by a comma.
- The key is not lossless. A comma inside the latitude lets two coordinate pairs share a
  key: `("1,2","3")` and `("1","2,3")` both give `"1,2,3"` (`KeyCollision`). The key is
  injective over comma-free latitudes (`KeyInjective`); by symmetry it is also injective
  over comma-free longitudes, which the model does not state.
- The coordinates and the API key go into the request URLs unencoded. The caller chooses
  the coordinates, so an `&` inside one adds query parameters of the caller's choosing; an
  `&` inside the operator-configured API key splits it the same way. The latitude `1&current_weather=false`
  puts `current_weather=false` ahead of the template's `current_weather=true`
  (`ParamInjection`, `ParamInjectionExample`). The URL read-back lemmas therefore assume
  inputs without `&`.
- An unknown provider name is not rejected at startup. It is detected on each request that
  misses the cache, and the error thrown is a plain `Error("Unknown provider")`.

## Model

| member | source | states |
|---|---|---|
| WeatherCache.KeySplitsBack | server.js:13-15 | the key is the latitude, one comma, then the longitude; splitting it at its first comma gives both back when the latitude has no comma |
| WeatherCache.KeyInjective | server.js:13-15 | over comma-free latitudes, two keys are equal if and only if both coordinate strings are equal |
| WeatherCache.TextualKeys | server.js:13-15 | the strings are not parsed: "1" and "1.0" give different keys |
| WeatherCache.KeyCollision | server.js:13-15 | a comma inside the latitude makes ("1,2","3") and ("1","2,3") share one key |
| Providers.OpenMeteoQuery | server.js:19 | for coordinates without '&', the open-meteo URL reads back as its endpoint with latitude, longitude (the raw strings) and current_weather=true, in that order |
| Providers.OpenWeatherQuery | server.js:26 | for coordinates and API key without '&', the openweather URL reads back as lat, lon, units=metric, exclude=minutely and appid=<API key> |
| Providers.WeatherApiQuery | server.js:33 | for coordinates and API key without '&', the weatherapi URL reads back as key=<API key> and q="lat,lon" |
| WeatherCache.WeatherApiQueryIsKey | server.js:33 | for coordinates and API key without '&', the weatherapi `q` value is exactly the cache key |
| Providers.ParamInjection | server.js:19 | the coordinates are spliced in unencoded: for `a` and the longitude without `&`, and `n` without `=` or `&`, a latitude `a&n=v` reads back as four parameters, latitude=a, then n=v, then longitude and current_weather=true |
| Providers.ParamInjectionExample | server.js:19 | the latitude "1&current_weather=false" adds current_weather=false to the open-meteo request, ahead of the template's current_weather=true |
| Providers.RequestUrl | server.js:48-57 | the dispatch yields a URL if and only if the provider name is one of the three known names |
| WeatherCache.WeatherService.constructor | server.js:6-11 | the service starts with the given configuration, an empty cache and no upstream request made |
| WeatherCache.WeatherService.Get | server.js:20-21 | an outbound GET records its URL and yields the upstream's answer for that URL |
| WeatherCache.WeatherService.GetWeather | server.js:38-61 | the result, the new cache and the requests made are exactly those of Serve on the old cache |
| WeatherCache.FreshHit | server.js:41-45 | an entry younger than the TTL is returned with cached=true, with no upstream request and the cache unchanged |
| WeatherCache.ExactTtlIsMiss | server.js:43 | an entry exactly TTL old is a miss: the provider's URL is requested and the reply is not a cached one |
| WeatherCache.MissStores | server.js:48-60 | on a miss with a successful fetch the reply is {data, cached=false} and the key's entry becomes {now, data}, replacing any old one |
| WeatherCache.UnknownProviderFails | server.js:49-57 | on a miss with an unknown provider the error is "Unknown provider", nothing is requested and the cache is unchanged |
| WeatherCache.UpstreamErrorPropagates | server.js:50-59 | an upstream error is returned unchanged and nothing is stored |
| WeatherCache.OnlyKeyChanges | server.js:41-59 | no key is ever removed, every other entry is kept, and the cache changes only by storing a freshly fetched reply under the computed key |
| WeatherCache.FetchesAtMostOnce | server.js:41-57 | a call makes at most one upstream request, exactly when it misses and the provider is known; a success is cached exactly when nothing was fetched |
| WeatherCache.RepeatWithinTtlIsCached | server.js:41-60 | after a fetched reply, the same coordinates asked less than a TTL later get the same payload with cached=true and no request |
| WeatherCache.RepeatAfterTtlRefetches | server.js:41-60 | the same coordinates asked a TTL or more after the fetch are requested upstream again and not served from the cache |
| WeatherCache.UnknownProviderAlwaysFails | server.js:49-57 | with an unknown provider and the initial empty cache, every call of a run fails with "Unknown provider", nothing is requested and the cache stays empty |
| WeatherCache.ServeAllFootprint | server.js:11 | over a run of calls: one result per call, each call adding at most one upstream request to those of the calls before it, no entry ever removed, and every new key is the key of a call in the run |
| Handler.HandleWeather | server.js:63-74 | the response, the new cache and the requests made are exactly those of Handle on the old cache |
| Handler.BadRequestIffMissing | server.js:67 | the status is 400 if and only if lat or lon is missing or empty; then the body is the fixed message, nothing is requested and the cache is unchanged |
| Handler.ValidRequestMirrorsGetWeather | server.js:69-73 | with both parameters given, a success of getWeather is a 200 with its data and cached flag, and a thrown error is a 500 with its message |
| Handler.StatusCodes | server.js:63-74 | every response is 200, 400 or 500, and only a 200 carries weather data |
| Handler.OpenMeteoExample | server.js:38-70 | with open-meteo, 52.52,13.41 gives 200 cached=false and then, immediately after, 200 cached=true with the same payload and no second request |

## Left out

- The Express application, routing, JSON serialisation and `app.listen` (server.js:2-4, 63, 77-79). They are HTTP plumbing; the handler is modelled as validation followed by a response value.
- What the HTTP client does to a URL before sending it (percent-encoding, dropping a `#` fragment). The URL lemmas are about the template string itself.
- The HTTP client: the 5000 ms timeouts and response decoding (server.js:20, 27, 34). The network is the `upstream` parameter; a timeout is one of its failures.
- The clock (server.js:40): `now` is a parameter.
- Reading the environment and `parseInt` (server.js:6-9). A TTL that parses to NaN, which would make every lookup a miss, is not modelled; the TTL is an integer.
- The listening port (server.js:6): it only affects `app.listen`.
- Concurrency: calls are modelled one at a time, so two overlapping requests that both miss and both fetch are not captured.
- Logging (server.js:72, 78).
- The upstream payload is opaque (`T`) and passed through unchanged.
- Repeated query parameters, which Express delivers as arrays rather than strings. Query values are modelled as absent or a string.
