/**
  The `/weather` request handler: it checks that both query parameters are present and
  non-empty, runs getWeather, and turns the outcome into a status code and a JSON body.
  A query parameter is None when absent; an empty string is present but, like an absent
  one, does not pass the check.
*/
module Handler {
  import opened Wrappers
  import opened WeatherCache

  /** The JSON body: `{data, cached}` on success, `{error}` otherwise. */
  datatype Body<T> = WeatherBody(data: T, cached: bool) | ErrorBody(error: string)

  datatype Response<T> = Response(status: int, body: Body<T>)

  const MissingParamsMessage := "Provide lat and lon query params"

  /** Whether a query value passes the handler's truthiness test. */
  predicate Provided(param: Option<string>)
  {
    param.Some? && param.value != ""
  }

  /** What the handler sends for getWeather's outcome: its value, or the thrown error's message. */
  function Respond<T>(outcome: Result<Reply<T>, string>): Response<T>
  {
    match outcome
    case Success(reply) => Response(200, WeatherBody(reply.data, reply.cached))
    case Failure(message) => Response(500, ErrorBody(message))
  }

  /** The handler as a function of the configuration, the cache before the request and the inputs. */
  function Handle<T>(config: Config, cache: Cache<T>, lat: Option<string>, lon: Option<string>, now: int,
                     upstream: string -> Result<T, string>): Step<Response<T>, T>
  {
    if !Provided(lat) || !Provided(lon) then
      Step(Response(400, ErrorBody(MissingParamsMessage)), cache, [])
    else
      var s := Serve(config, cache, lat.value, lon.value, now, upstream);
      Step(Respond(s.result), s.cache, s.fetched)
  }

  method HandleWeather<T>(service: WeatherService<T>, lat: Option<string>, lon: Option<string>, now: int,
                          upstream: string -> Result<T, string>)
    returns (response: Response<T>)
    modifies service
    ensures var s := Handle(service.config, old(service.cache), lat, lon, now, upstream);
            response == s.result && service.cache == s.cache
            && service.requests == old(service.requests) + s.fetched
  {
    if !Provided(lat) || !Provided(lon) {
      return Response(400, ErrorBody(MissingParamsMessage));
    }
    var outcome := service.GetWeather(lat.value, lon.value, now, upstream);
    response := Respond(outcome);
  }

  /**
    A 400 is sent exactly when a parameter is missing or empty; it carries the fixed message,
    and getWeather is not run: no upstream request, the cache untouched.
  */
  lemma BadRequestIffMissing<T>(config: Config, cache: Cache<T>, lat: Option<string>, lon: Option<string>,
                                now: int, upstream: string -> Result<T, string>)
    ensures var s := Handle(config, cache, lat, lon, now, upstream);
            s.result.status == 400 <==> !Provided(lat) || !Provided(lon)
    ensures var s := Handle(config, cache, lat, lon, now, upstream);
            s.result.status == 400 ==>
              s.result.body == ErrorBody(MissingParamsMessage) && s.cache == cache && s.fetched == []
  {
  }

  /**
    With both parameters given, the reply is getWeather's: 200 with its payload and cached
    flag when it succeeds, 500 with the error's message when it throws.
  */
  lemma ValidRequestMirrorsGetWeather<T>(config: Config, cache: Cache<T>, lat: string, lon: string,
                                         now: int, upstream: string -> Result<T, string>)
    requires lat != "" && lon != ""
    ensures var h := Handle(config, cache, Some(lat), Some(lon), now, upstream);
            var s := Serve(config, cache, lat, lon, now, upstream);
            && h.cache == s.cache && h.fetched == s.fetched
            && (h.result.status == 200 <==> s.result.Success?)
            && (h.result.status == 500 <==> s.result.Failure?)
            && (s.result.Success? ==>
                  h.result.body == WeatherBody(s.result.value.data, s.result.value.cached))
            && (s.result.Failure? ==> h.result.body == ErrorBody(s.result.error))
  {
  }

  /** Every response is 200, 400 or 500, and only a 200 carries weather data. */
  lemma StatusCodes<T>(config: Config, cache: Cache<T>, lat: Option<string>, lon: Option<string>,
                       now: int, upstream: string -> Result<T, string>)
    ensures var r := Handle(config, cache, lat, lon, now, upstream).result;
            (r.status == 200 || r.status == 400 || r.status == 500)
            && (r.body.WeatherBody? <==> r.status == 200)
  {
  }

  /**
    Example: with open-meteo and an upstream answering `payload`, the first
    request for 52.52,13.41 is a 200 with `cached: false` and the immediate second one a
    200 with `cached: true` and the same payload, without a second upstream request.
  */
  lemma OpenMeteoExample<T>(cache: Cache<T>, now: int, upstream: string -> Result<T, string>, payload: T)
    requires MakeCacheKey("52.52", "13.41") !in cache
    requires upstream(Providers.OpenMeteoUrl("52.52", "13.41")) == Success(payload)
    ensures var h1 := Handle(DefaultConfig, cache, Some("52.52"), Some("13.41"), now, upstream);
            var h2 := Handle(DefaultConfig, h1.cache, Some("52.52"), Some("13.41"), now, upstream);
            && h1.result == Response(200, WeatherBody(payload, false))
            && h2.result == Response(200, WeatherBody(payload, true))
            && h1.fetched == [Providers.OpenMeteoUrl("52.52", "13.41")] && h2.fetched == []
  {
  }
}
