/**
  The three upstream integrations. Each builds its request URL by splicing the raw,
  unvalidated latitude and longitude strings (and, where needed, the configured API key)
  into a fixed template; the configured provider name selects one of them.
*/
module Providers {
  import opened Wrappers
  import opened Urls

  const OpenMeteo := "open-meteo"
  const OpenWeather := "openweather"
  const WeatherApi := "weatherapi"

  const OpenMeteoEndpoint := "https://api.open-meteo.com/v1/forecast"
  const OpenWeatherEndpoint := "https://api.openweathermap.org/data/2.5/onecall"
  const WeatherApiEndpoint := "http://api.weatherapi.com/v1/current.json"

  /** The names the dispatch in getWeather recognises. */
  predicate KnownProvider(provider: string)
  {
    provider == OpenMeteo || provider == OpenWeather || provider == WeatherApi
  }

  function OpenMeteoUrl(lat: string, lon: string): string
  {
    OpenMeteoEndpoint + "?latitude=" + lat + "&longitude=" + lon + "&current_weather=true"
  }

  function OpenWeatherUrl(lat: string, lon: string, apiKey: string): string
  {
    OpenWeatherEndpoint + "?lat=" + lat + "&lon=" + lon
      + "&units=metric&exclude=minutely&appid=" + apiKey
  }

  function WeatherApiUrl(lat: string, lon: string, apiKey: string): string
  {
    WeatherApiEndpoint + "?key=" + apiKey + "&q=" + lat + "," + lon
  }

  /**
    The URL the configured fetcher requests, or None for a provider name the dispatch
    does not know (getWeather then throws before any request is made).
  */
  function RequestUrl(provider: string, apiKey: string, lat: string, lon: string): (url: Option<string>)
    ensures url.None? <==> !KnownProvider(provider)
  {
    if provider == OpenMeteo then Some(OpenMeteoUrl(lat, lon))
    else if provider == OpenWeather then Some(OpenWeatherUrl(lat, lon, apiKey))
    else if provider == WeatherApi then Some(WeatherApiUrl(lat, lon, apiKey))
    else None
  }

  function OpenMeteoQueryParams(lat: string, lon: string): seq<Param>
  {
    [Param("latitude", lat), Param("longitude", lon), Param("current_weather", "true")]
  }

  function OpenWeatherQueryParams(lat: string, lon: string, apiKey: string): seq<Param>
  {
    [Param("lat", lat), Param("lon", lon), Param("units", "metric"),
     Param("exclude", "minutely"), Param("appid", apiKey)]
  }

  function WeatherApiQueryParams(lat: string, lon: string, apiKey: string): seq<Param>
  {
    [Param("key", apiKey), Param("q", lat + "," + lon)]
  }

  // The lemmas below show that each template is the formatted form of its parameter list.
  // Merging long string literals is costly for the solver, so the generic regrouping and
  // the literal facts are proved apart and combined at the end.

  lemma FormatNested(e: string, ps: seq<Param>)
    requires |ps| == 2 || |ps| == 3 || |ps| == 5
    ensures |ps| == 2 ==>
              Format(Url(e, ps)) == e + "?" + (FormatParam(ps[0]) + "&" + FormatParam(ps[1]))
    ensures |ps| == 3 ==>
              Format(Url(e, ps))
              == e + "?" + (FormatParam(ps[0]) + "&" + (FormatParam(ps[1]) + "&" + FormatParam(ps[2])))
    ensures |ps| == 5 ==>
              Format(Url(e, ps))
              == e + "?" + (FormatParam(ps[0]) + "&" + (FormatParam(ps[1]) + "&" + (FormatParam(ps[2]) + "&"
                             + (FormatParam(ps[3]) + "&" + FormatParam(ps[4])))))
  {
    FormatQueryCons(ps[0], ps[1..]);
    if |ps| >= 3 {
      FormatQueryCons(ps[1], ps[2..]);
    }
    if |ps| == 5 {
      FormatQueryCons(ps[2], ps[3..]);
      FormatQueryCons(ps[3], ps[4..]);
    }
  }

  lemma Regroup2(e: string, n1: string, v1: string, n2: string, a: string, b: string)
    ensures e + ("?" + n1 + "=") + v1 + ("&" + n2 + "=") + a + "," + b
         == e + "?" + ((n1 + "=" + v1) + "&" + (n2 + "=" + (a + "," + b)))
  {
  }

  lemma Regroup3(e: string, n1: string, v1: string, n2: string, v2: string, n3: string, v3: string)
    ensures e + ("?" + n1 + "=") + v1 + ("&" + n2 + "=") + v2 + ("&" + n3 + "=" + v3)
         == e + "?" + ((n1 + "=" + v1) + "&" + ((n2 + "=" + v2) + "&" + (n3 + "=" + v3)))
  {
  }

  lemma Regroup5(e: string, n1: string, v1: string, n2: string, v2: string, n3: string, v3: string,
                 n4: string, v4: string, n5: string, v5: string)
    ensures e + ("?" + n1 + "=") + v1 + ("&" + n2 + "=") + v2
              + ("&" + n3 + "=" + v3 + "&" + n4 + "=" + v4 + "&" + n5 + "=") + v5
         == e + "?" + ((n1 + "=" + v1) + "&" + ((n2 + "=" + v2) + "&" + ((n3 + "=" + v3) + "&"
                      + ((n4 + "=" + v4) + "&" + (n5 + "=" + v5)))))
  {
  }

  lemma OpenMeteoLiterals()
    ensures "?latitude=" == "?" + "latitude" + "="
    ensures "&longitude=" == "&" + "longitude" + "="
    ensures "&current_weather=true" == "&" + "current_weather" + "=" + "true"
  {
  }

  lemma OpenWeatherLiterals()
    ensures "?lat=" == "?" + "lat" + "="
    ensures "&lon=" == "&" + "lon" + "="
  {
  }

  lemma OpenWeatherTailLiteral()
    ensures "&units=metric&exclude=minutely&appid="
         == "&" + "units" + "=" + "metric" + "&" + "exclude" + "=" + "minutely" + "&" + "appid" + "="
  {
    OpenWeatherTailPieces();
    OpenWeatherTailSplit();
  }

  lemma OpenWeatherTailSplit()
    ensures "&units=metric&exclude=minutely&appid=" == "&units=metric" + ("&exclude=minutely" + "&appid=")
  {
    assert "&exclude=minutely&appid=" == "&exclude=minutely" + "&appid=";
  }

  lemma OpenWeatherTailPieces()
    ensures "&units=metric" == "&" + "units" + "=" + "metric"
    ensures "&exclude=minutely" == "&" + "exclude" + "=" + "minutely"
    ensures "&appid=" == "&" + "appid" + "="
  {
  }

  lemma WeatherApiLiterals()
    ensures "?key=" == "?" + "key" + "="
    ensures "&q=" == "&" + "q" + "="
  {
  }

  lemma OpenMeteoFormat(lat: string, lon: string)
    ensures Format(Url(OpenMeteoEndpoint, OpenMeteoQueryParams(lat, lon))) == OpenMeteoUrl(lat, lon)
  {
    FormatNested(OpenMeteoEndpoint, OpenMeteoQueryParams(lat, lon));
    Regroup3(OpenMeteoEndpoint, "latitude", lat, "longitude", lon, "current_weather", "true");
    OpenMeteoLiterals();
  }

  lemma OpenWeatherFormat(lat: string, lon: string, apiKey: string)
    ensures Format(Url(OpenWeatherEndpoint, OpenWeatherQueryParams(lat, lon, apiKey)))
         == OpenWeatherUrl(lat, lon, apiKey)
  {
    FormatNested(OpenWeatherEndpoint, OpenWeatherQueryParams(lat, lon, apiKey));
    Regroup5(OpenWeatherEndpoint, "lat", lat, "lon", lon, "units", "metric", "exclude", "minutely", "appid", apiKey);
    OpenWeatherLiterals();
    OpenWeatherTailLiteral();
  }

  lemma WeatherApiFormat(lat: string, lon: string, apiKey: string)
    ensures Format(Url(WeatherApiEndpoint, WeatherApiQueryParams(lat, lon, apiKey)))
         == WeatherApiUrl(lat, lon, apiKey)
  {
    FormatNested(WeatherApiEndpoint, WeatherApiQueryParams(lat, lon, apiKey));
    Regroup2(WeatherApiEndpoint, "key", apiKey, "q", lat, lon);
    WeatherApiLiterals();
  }

  lemma EndpointsHaveNoQuery()
    ensures '?' !in OpenMeteoEndpoint && '?' !in OpenWeatherEndpoint && '?' !in WeatherApiEndpoint
  {
    OpenMeteoEndpointHasNoQuery();
    OpenWeatherEndpointHasNoQuery();
    WeatherApiEndpointHasNoQuery();
  }

  lemma OpenMeteoEndpointHasNoQuery()
    ensures '?' !in OpenMeteoEndpoint
  {
  }

  lemma OpenWeatherEndpointHasNoQuery()
    ensures '?' !in OpenWeatherEndpoint
  {
    assert OpenWeatherEndpoint == "https://api.openweathermap.org" + "/data/2.5/onecall";
    assert '?' !in "https://api.openweathermap.org";
    assert '?' !in "/data/2.5/onecall";
  }

  lemma WeatherApiEndpointHasNoQuery()
    ensures '?' !in WeatherApiEndpoint
  {
  }

  lemma OpenMeteoParamsValid(lat: string, lon: string)
    requires '&' !in lat && '&' !in lon
    ensures forall p <- OpenMeteoQueryParams(lat, lon) :: ValidParam(p)
  {
    CurrentWeatherParamValid();
  }

  lemma CurrentWeatherParamValid()
    ensures ValidParam(Param("current_weather", "true"))
  {
  }

  lemma OpenWeatherParamsValid(lat: string, lon: string, apiKey: string)
    requires '&' !in lat && '&' !in lon && '&' !in apiKey
    ensures forall p <- OpenWeatherQueryParams(lat, lon, apiKey) :: ValidParam(p)
  {
    assert ValidParam(Param("units", "metric"));
    assert ValidParam(Param("exclude", "minutely"));
  }

  lemma WeatherApiParamsValid(lat: string, lon: string, apiKey: string)
    requires '&' !in lat && '&' !in lon && '&' !in apiKey
    ensures forall p <- WeatherApiQueryParams(lat, lon, apiKey) :: ValidParam(p)
  {
  }

  /** The open-meteo request carries the raw coordinates and asks for current weather. */
  lemma OpenMeteoQuery(lat: string, lon: string)
    requires '&' !in lat && '&' !in lon
    ensures Parse(OpenMeteoUrl(lat, lon)) == Url(OpenMeteoEndpoint, OpenMeteoQueryParams(lat, lon))
  {
    var u := Url(OpenMeteoEndpoint, OpenMeteoQueryParams(lat, lon));
    OpenMeteoParamsValid(lat, lon);
    EndpointsHaveNoQuery();
    OpenMeteoFormat(lat, lon);
    ParseFormat(u);
  }

  /** The openweather request carries the coordinates, metric units, no minutely data, and the key. */
  lemma OpenWeatherQuery(lat: string, lon: string, apiKey: string)
    requires '&' !in lat && '&' !in lon && '&' !in apiKey
    ensures Parse(OpenWeatherUrl(lat, lon, apiKey))
         == Url(OpenWeatherEndpoint, OpenWeatherQueryParams(lat, lon, apiKey))
  {
    var u := Url(OpenWeatherEndpoint, OpenWeatherQueryParams(lat, lon, apiKey));
    OpenWeatherParamsValid(lat, lon, apiKey);
    EndpointsHaveNoQuery();
    OpenWeatherFormat(lat, lon, apiKey);
    ParseFormat(u);
  }

  /** The weatherapi request carries the key and one `q` value holding "lat,lon". */
  lemma WeatherApiQuery(lat: string, lon: string, apiKey: string)
    requires '&' !in lat && '&' !in lon && '&' !in apiKey
    ensures Parse(WeatherApiUrl(lat, lon, apiKey))
         == Url(WeatherApiEndpoint, WeatherApiQueryParams(lat, lon, apiKey))
  {
    var u := Url(WeatherApiEndpoint, WeatherApiQueryParams(lat, lon, apiKey));
    WeatherApiParamsValid(lat, lon, apiKey);
    EndpointsHaveNoQuery();
    WeatherApiFormat(lat, lon, apiKey);
    ParseFormat(u);
  }

  /**
    The coordinates are spliced in unencoded: a latitude of the form `a&n=v` adds the
    parameter `n=v` to the open-meteo request, ahead of the template's own parameters.
  */
  lemma ParamInjection(a: string, n: string, v: string, lon: string)
    requires '&' !in a && '&' !in lon && ValidParam(Param(n, v))
    ensures Parse(OpenMeteoUrl(a + "&" + n + "=" + v, lon)).query
         == [Param("latitude", a), Param(n, v), Param("longitude", lon), Param("current_weather", "true")]
  {
    var q4 := [Param("latitude", a), Param(n, v), Param("longitude", lon), Param("current_weather", "true")];
    InjectedFormat(a, n, v, lon);
    InjectedParamsValid(a, n, v, lon);
    EndpointsHaveNoQuery();
    ParseFormat(Url(OpenMeteoEndpoint, q4));
  }

  lemma InjectedFormat(a: string, n: string, v: string, lon: string)
    ensures Format(Url(OpenMeteoEndpoint,
                       [Param("latitude", a), Param(n, v), Param("longitude", lon), Param("current_weather", "true")]))
         == OpenMeteoUrl(a + "&" + n + "=" + v, lon)
  {
    var lat := a + "&" + n + "=" + v;
    var q3 := OpenMeteoQueryParams(lat, lon);
    var q4 := [Param("latitude", a), Param(n, v), Param("longitude", lon), Param("current_weather", "true")];
    OpenMeteoFormat(lat, lon);
    FormatQueryCons(q3[0], q3[1..]);
    FormatQueryCons(q4[0], q4[1..]);
    FormatQueryCons(q4[1], q4[2..]);
    assert q4[2..] == q3[1..];
    assert FormatParam(q3[0]) == FormatParam(q4[0]) + "&" + FormatParam(q4[1]);
  }

  lemma InjectedParamsValid(a: string, n: string, v: string, lon: string)
    requires '&' !in a && '&' !in lon && ValidParam(Param(n, v))
    ensures forall p <- [Param("latitude", a), Param(n, v), Param("longitude", lon), Param("current_weather", "true")]
              :: ValidParam(p)
  {
    OpenMeteoParamsValid(a, lon);
    assert ValidParam(OpenMeteoQueryParams(a, lon)[0]) && ValidParam(OpenMeteoQueryParams(a, lon)[1]);
  }

  /** For instance, a latitude can switch off the current-weather flag the template sets. */
  lemma ParamInjectionExample(lat: string, lon: string)
    requires lat == "1&current_weather=false" && lon == "3"
    ensures |Parse(OpenMeteoUrl(lat, lon)).query| == 4
    ensures Parse(OpenMeteoUrl(lat, lon)).query[1] == Param("current_weather", "false")
  {
    InjectedLatitude();
    ParamInjection("1", "current_weather", "false", lon);
  }

  lemma InjectedLatitude()
    ensures "1&current_weather=false" == "1" + "&" + "current_weather" + "=" + "false"
    ensures ValidParam(Param("current_weather", "false"))
  {
    InjectedPair();
    assert "1&current_weather=false" == "1&" + "current_weather=false";
    assert ValidParam(Param("current_weather", "false")) by {
      CurrentWeatherParamValid();
      assert '&' !in "false";
    }
  }

  lemma InjectedPair()
    ensures "current_weather=false" == "current_weather" + "=" + "false"
  {
  }
}
