/**
  The per-coordinate response cache and the cache-then-fetch procedure (getWeather).

  The cache maps a key built from the raw latitude and longitude strings to the time the
  payload was fetched and the payload itself. A lookup is a hit only while the entry is
  strictly younger than the TTL; a stale entry is ignored, never removed, until a
  successful fetch overwrites it. The clock is the parameter `now` (milliseconds), and the
  upstream is a function from the request URL to what the GET yields: the decoded body,
  or the message of the error it throws.
*/
module WeatherCache {
  import opened Wrappers
  import opened Urls
  import opened Providers

  /** The process-wide configuration, fixed at startup. */
  datatype Config = Config(provider: string, apiKey: string, ttl: int)

  /** The configuration used when no environment variable overrides it. */
  const DefaultConfig := Config(OpenMeteo, "", 600000)

  datatype Entry<T> = Entry(ts: int, data: T)

  /** What getWeather resolves to: the payload and whether it came from the cache. */
  datatype Reply<T> = Reply(data: T, cached: bool)

  const UnknownProviderMessage := "Unknown provider"

  type Cache<T> = map<string, Entry<T>>

  /** The outcome of one step: its result, the cache afterwards, the URLs requested upstream. */
  datatype Step<R, T> = Step(result: R, cache: Cache<T>, fetched: seq<string>)

  function MakeCacheKey(lat: string, lon: string): string
  {
    lat + "," + lon
  }

  /** The payload of the entry for `key` if it is fresh at time `now`. */
  function Lookup<T>(cache: Cache<T>, key: string, now: int, ttl: int): Option<T>
  {
    if key in cache && now - cache[key].ts < ttl then Some(cache[key].data) else None
  }

  /** getWeather as a function of the configuration, the cache before the call and the inputs. */
  function Serve<T>(config: Config, cache: Cache<T>, lat: string, lon: string, now: int,
                    upstream: string -> Result<T, string>): Step<Result<Reply<T>, string>, T>
  {
    var key := MakeCacheKey(lat, lon);
    match Lookup(cache, key, now, config.ttl)
    case Some(data) => Step(Success(Reply(data, true)), cache, [])
    case None =>
      match RequestUrl(config.provider, config.apiKey, lat, lon)
      case None => Step(Failure(UnknownProviderMessage), cache, [])
      case Some(url) =>
        match upstream(url)
        case Failure(message) => Step(Failure(message), cache, [url])
        case Success(data) => Step(Success(Reply(data, false)), cache[key := Entry(now, data)], [url])
  }

  /** The proxy's state: its configuration, the cache, and (ghost) every URL requested so far. */
  class WeatherService<T> {
    const config: Config
    var cache: Cache<T>
    ghost var requests: seq<string>

    constructor (config: Config)
      ensures this.config == config && cache == map[] && requests == []
    {
      this.config := config;
      cache := map[];
      requests := [];
    }

    /** One outbound GET: the request is recorded and its outcome is the upstream's answer. */
    method Get(url: string, upstream: string -> Result<T, string>) returns (r: Result<T, string>)
      modifies this`requests
      ensures requests == old(requests) + [url]
      ensures r == upstream(url)
    {
      requests := requests + [url];
      r := upstream(url);
    }

    method GetWeather(lat: string, lon: string, now: int, upstream: string -> Result<T, string>)
      returns (r: Result<Reply<T>, string>)
      modifies this
      ensures var s := Serve(config, old(cache), lat, lon, now, upstream);
              r == s.result && cache == s.cache && requests == old(requests) + s.fetched
    {
      var key := MakeCacheKey(lat, lon);
      if key in cache {
        var entry := cache[key];
        if now - entry.ts < config.ttl {
          return Success(Reply(entry.data, true));
        }
      }

      var fetched: Result<T, string>;
      if config.provider == OpenMeteo {
        fetched := Get(OpenMeteoUrl(lat, lon), upstream);
      } else if config.provider == OpenWeather {
        fetched := Get(OpenWeatherUrl(lat, lon, config.apiKey), upstream);
      } else if config.provider == WeatherApi {
        fetched := Get(WeatherApiUrl(lat, lon, config.apiKey), upstream);
      } else {
        return Failure(UnknownProviderMessage);
      }
      if fetched.Failure? {
        return Failure(fetched.error);
      }

      cache := cache[key := Entry(now, fetched.value)];
      return Success(Reply(fetched.value, false));
    }
  }

  // ---------------------------------------------------------------------------------
  // The cache key

  /** The key reads back as the latitude and longitude when the latitude holds no comma. */
  lemma {:induction false} KeySplitsBack(lat: string, lon: string)
    requires ',' !in lat
    ensures SplitAt(MakeCacheKey(lat, lon), ',') == (lat, Some(lon))
  {
    assert MakeCacheKey(lat, lon) == lat + [','] + lon;
    SplitAtFirst(lat, ',', lon);
  }

  /** Over comma-free latitudes, equal keys means equal coordinate strings, and conversely. */
  lemma KeyInjective(lat1: string, lon1: string, lat2: string, lon2: string)
    requires ',' !in lat1 && ',' !in lat2
    ensures MakeCacheKey(lat1, lon1) == MakeCacheKey(lat2, lon2) <==> lat1 == lat2 && lon1 == lon2
  {
    KeySplitsBack(lat1, lon1);
    KeySplitsBack(lat2, lon2);
  }

  /** No parsing: "1" and "1.0" are the same latitude but give different keys. */
  lemma TextualKeys(lon: string)
    ensures MakeCacheKey("1", lon) != MakeCacheKey("1.0", lon)
  {
  }

  /** A comma inside the latitude lets two different coordinate pairs share one key. */
  lemma KeyCollision(lat1: string, lon1: string, lat2: string, lon2: string)
    requires lat1 == "1,2" && lon1 == "3" && lat2 == "1" && lon2 == "2,3"
    ensures MakeCacheKey(lat1, lon1) == MakeCacheKey(lat2, lon2)
  {
  }

  /** The weatherapi request's `q` value is exactly the cache key. */
  lemma WeatherApiQueryIsKey(lat: string, lon: string, apiKey: string)
    requires '&' !in lat && '&' !in lon && '&' !in apiKey
    ensures Parse(WeatherApiUrl(lat, lon, apiKey)).query
         == [Param("key", apiKey), Param("q", MakeCacheKey(lat, lon))]
  {
    WeatherApiQuery(lat, lon, apiKey);
  }

  // ---------------------------------------------------------------------------------
  // One call

  /** A fresh entry is returned as cached, with no upstream request and the cache unchanged. */
  lemma FreshHit<T>(config: Config, cache: Cache<T>, lat: string, lon: string, now: int,
                    upstream: string -> Result<T, string>)
    requires MakeCacheKey(lat, lon) in cache
    requires now - cache[MakeCacheKey(lat, lon)].ts < config.ttl
    ensures Serve(config, cache, lat, lon, now, upstream)
         == Step(Success(Reply(cache[MakeCacheKey(lat, lon)].data, true)), cache, [])
  {
  }

  /** Freshness is strict: an entry exactly TTL old is a miss and the configured provider is asked. */
  lemma ExactTtlIsMiss<T>(config: Config, cache: Cache<T>, lat: string, lon: string, now: int,
                          upstream: string -> Result<T, string>)
    requires MakeCacheKey(lat, lon) in cache
    requires now - cache[MakeCacheKey(lat, lon)].ts == config.ttl
    requires KnownProvider(config.provider)
    ensures var s := Serve(config, cache, lat, lon, now, upstream);
            s.fetched == [RequestUrl(config.provider, config.apiKey, lat, lon).value]
            && !(s.result.Success? && s.result.value.cached)
  {
  }

  /** A miss with a successful fetch replaces the key's entry with the new payload stamped `now`. */
  lemma MissStores<T>(config: Config, cache: Cache<T>, lat: string, lon: string, now: int,
                      upstream: string -> Result<T, string>, data: T)
    requires Lookup(cache, MakeCacheKey(lat, lon), now, config.ttl).None?
    requires KnownProvider(config.provider)
    requires upstream(RequestUrl(config.provider, config.apiKey, lat, lon).value) == Success(data)
    ensures var s := Serve(config, cache, lat, lon, now, upstream);
            s.result == Success(Reply(data, false))
            && s.cache == cache[MakeCacheKey(lat, lon) := Entry(now, data)]
            && s.fetched == [RequestUrl(config.provider, config.apiKey, lat, lon).value]
  {
  }

  /** An unknown provider fails before any request, leaving the cache as it was. */
  lemma UnknownProviderFails<T>(config: Config, cache: Cache<T>, lat: string, lon: string, now: int,
                                upstream: string -> Result<T, string>)
    requires Lookup(cache, MakeCacheKey(lat, lon), now, config.ttl).None?
    requires !KnownProvider(config.provider)
    ensures Serve(config, cache, lat, lon, now, upstream) == Step(Failure(UnknownProviderMessage), cache, [])
  {
  }

  /** An upstream error propagates unchanged and nothing is stored. */
  lemma UpstreamErrorPropagates<T>(config: Config, cache: Cache<T>, lat: string, lon: string, now: int,
                                   upstream: string -> Result<T, string>, message: string)
    requires Lookup(cache, MakeCacheKey(lat, lon), now, config.ttl).None?
    requires KnownProvider(config.provider)
    requires upstream(RequestUrl(config.provider, config.apiKey, lat, lon).value) == Failure(message)
    ensures var s := Serve(config, cache, lat, lon, now, upstream);
            s.result == Failure(message) && s.cache == cache
  {
  }

  /**
    Only the computed key can change: every other entry, stale or fresh, is kept as it was,
    no key disappears, and the cache changes only together with a fetched reply.
  */
  lemma OnlyKeyChanges<T>(config: Config, cache: Cache<T>, lat: string, lon: string, now: int,
                          upstream: string -> Result<T, string>)
    ensures var s := Serve(config, cache, lat, lon, now, upstream);
            && s.cache.Keys == cache.Keys + (if s.cache == cache then {} else {MakeCacheKey(lat, lon)})
            && (forall k :: k in cache && k != MakeCacheKey(lat, lon) ==> s.cache[k] == cache[k])
            && (s.cache != cache ==>
                  s.result.Success? && !s.result.value.cached
                  && s.cache[MakeCacheKey(lat, lon)] == Entry(now, s.result.value.data))
  {
  }

  /** At most one upstream request per call, and none on a hit or an unknown provider. */
  lemma FetchesAtMostOnce<T>(config: Config, cache: Cache<T>, lat: string, lon: string, now: int,
                             upstream: string -> Result<T, string>)
    ensures var s := Serve(config, cache, lat, lon, now, upstream);
            && |s.fetched| <= 1
            && (|s.fetched| == 1 <==>
                  Lookup(cache, MakeCacheKey(lat, lon), now, config.ttl).None? && KnownProvider(config.provider))
            && (s.result.Success? && s.result.value.cached <==> s.fetched == [] && s.result.Success?)
  {
  }

  // ---------------------------------------------------------------------------------
  // Two calls

  /**
    After a fetched reply, the same coordinates asked again less than a TTL later are
    served from the cache with the same payload and no further request.
  */
  lemma RepeatWithinTtlIsCached<T>(config: Config, cache: Cache<T>, lat: string, lon: string,
                                   t1: int, t2: int,
                                   up1: string -> Result<T, string>, up2: string -> Result<T, string>)
    requires var s1 := Serve(config, cache, lat, lon, t1, up1);
             s1.result.Success? && !s1.result.value.cached
    requires t2 - t1 < config.ttl
    ensures var s1 := Serve(config, cache, lat, lon, t1, up1);
            Serve(config, s1.cache, lat, lon, t2, up2)
              == Step(Success(Reply(s1.result.value.data, true)), s1.cache, [])
  {
  }

  /** Once a TTL has passed since the fetch, the same coordinates are fetched again. */
  lemma RepeatAfterTtlRefetches<T>(config: Config, cache: Cache<T>, lat: string, lon: string,
                                   t1: int, t2: int,
                                   up1: string -> Result<T, string>, up2: string -> Result<T, string>)
    requires var s1 := Serve(config, cache, lat, lon, t1, up1);
             s1.result.Success? && !s1.result.value.cached
    requires t2 - t1 >= config.ttl
    ensures var s1 := Serve(config, cache, lat, lon, t1, up1);
            var s2 := Serve(config, s1.cache, lat, lon, t2, up2);
            s2.fetched == s1.fetched && !(s2.result.Success? && s2.result.value.cached)
  {
  }

  // ---------------------------------------------------------------------------------
  // Sequences of calls

  /** One call to getWeather: the coordinates, the clock, and how the upstream answers. */
  datatype Request<T> = Request(lat: string, lon: string, now: int, upstream: string -> Result<T, string>)

  /** A run of calls, one at a time, each seeing the cache the previous one left. */
  function ServeAll<T>(config: Config, cache: Cache<T>, reqs: seq<Request<T>>)
    : Step<seq<Result<Reply<T>, string>>, T>
    decreases |reqs|
  {
    if reqs == [] then Step([], cache, [])
    else
      var r := reqs[0];
      var s := Serve(config, cache, r.lat, r.lon, r.now, r.upstream);
      var rest := ServeAll(config, s.cache, reqs[1..]);
      Step([s.result] + rest.result, rest.cache, s.fetched + rest.fetched)
  }

  /**
    With an unknown provider configured, a process that starts with an empty cache answers
    every call with the "Unknown provider" error and never contacts an upstream.
  */
  lemma {:induction false} UnknownProviderAlwaysFails<T>(config: Config, reqs: seq<Request<T>>)
    requires !KnownProvider(config.provider)
    ensures var s := ServeAll(config, map[], reqs);
            && |s.result| == |reqs|
            && (forall i :: 0 <= i < |reqs| ==> s.result[i] == Failure(UnknownProviderMessage))
            && s.cache == map[] && s.fetched == []
    decreases |reqs|
  {
    if reqs != [] {
      UnknownProviderAlwaysFails(config, reqs[1..]);
    }
  }

  /** Appending a call to a run serves it on the cache the run left. */
  lemma {:induction false} ServeAllSnoc<T>(config: Config, cache: Cache<T>, reqs: seq<Request<T>>, r: Request<T>)
    ensures var s := ServeAll(config, cache, reqs);
            var t := Serve(config, s.cache, r.lat, r.lon, r.now, r.upstream);
            ServeAll(config, cache, reqs + [r]) == Step(s.result + [t.result], t.cache, s.fetched + t.fetched)
    decreases |reqs|
  {
    if reqs == [] {
      assert reqs + [r] == [r];
      var t := Serve(config, cache, r.lat, r.lon, r.now, r.upstream);
      assert [r][1..] == [];
      assert ServeAll(config, t.cache, []) == Step([], t.cache, []);
      assert ServeAll(config, cache, [r]) == Step([t.result] + [], t.cache, t.fetched + []);
      assert [t.result] + [] == [] + [t.result];
      assert t.fetched + [] == [] + t.fetched;
    } else {
      var first := Serve(config, cache, reqs[0].lat, reqs[0].lon, reqs[0].now, reqs[0].upstream);
      assert (reqs + [r])[0] == reqs[0];
      assert (reqs + [r])[1..] == reqs[1..] + [r];
      ServeAllSnoc(config, first.cache, reqs[1..], r);
      var rest := ServeAll(config, first.cache, reqs[1..]);
      var t := Serve(config, rest.cache, r.lat, r.lon, r.now, r.upstream);
      assert [first.result] + (rest.result + [t.result]) == ([first.result] + rest.result) + [t.result];
      assert first.fetched + (rest.fetched + t.fetched) == (first.fetched + rest.fetched) + t.fetched;
    }
  }

  /**
    Over a run: one reply per call, each call adding at most one upstream request to those
    of the calls before it, no entry ever removed, and every new key the key of some call.
  */
  lemma {:induction false} ServeAllFootprint<T>(config: Config, cache: Cache<T>, reqs: seq<Request<T>>)
    ensures var s := ServeAll(config, cache, reqs);
            && |s.result| == |reqs|
            && |s.fetched| <= |reqs|
            && cache.Keys <= s.cache.Keys
            && (forall k :: k in s.cache && k !in cache ==>
                  exists i :: 0 <= i < |reqs| && k == MakeCacheKey(reqs[i].lat, reqs[i].lon))
    ensures forall i :: 0 <= i < |reqs| ==>
              |ServeAll(config, cache, reqs[..i + 1]).fetched| <= |ServeAll(config, cache, reqs[..i]).fetched| + 1
    decreases |reqs|
  {
    if reqs != [] {
      var r := reqs[0];
      var s1 := Serve(config, cache, r.lat, r.lon, r.now, r.upstream);
      OnlyKeyChanges(config, cache, r.lat, r.lon, r.now, r.upstream);
      FetchesAtMostOnce(config, cache, r.lat, r.lon, r.now, r.upstream);
      ServeAllFootprint(config, s1.cache, reqs[1..]);
      var s := ServeAll(config, cache, reqs);
      forall k | k in s.cache && k !in cache
        ensures exists i :: 0 <= i < |reqs| && k == MakeCacheKey(reqs[i].lat, reqs[i].lon)
      {
        if k in s1.cache {
          assert k == MakeCacheKey(reqs[0].lat, reqs[0].lon);
        } else {
          var j :| 0 <= j < |reqs[1..]| && k == MakeCacheKey(reqs[1..][j].lat, reqs[1..][j].lon);
          assert reqs[1..][j] == reqs[j + 1];
        }
      }
    }
    forall i | 0 <= i < |reqs|
      ensures |ServeAll(config, cache, reqs[..i + 1]).fetched| <= |ServeAll(config, cache, reqs[..i]).fetched| + 1
    {
      assert reqs[..i + 1] == reqs[..i] + [reqs[i]];
      ServeAllSnoc(config, cache, reqs[..i], reqs[i]);
      var before := ServeAll(config, cache, reqs[..i]);
      FetchesAtMostOnce(config, before.cache, reqs[i].lat, reqs[i].lon, reqs[i].now, reqs[i].upstream);
    }
  }
}
