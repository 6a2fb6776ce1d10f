/**
 * get_current_weather (api_functions.py) up to the HTTP request: the units
 * are checked, then the OpenWeatherMap request URL is put together. The
 * request itself and the JSON it returns are not part of this model; a
 * successful call yields the GET request that would be issued.
 */
module WeatherApi {
  import opened Wrappers
  import opened PyStr

  const WeatherApiUrl := "https://api.openweathermap.org/data/2.5/weather"
  const ValidUnits := ["imperial", "metric", "standard"]
  const DefaultUnits := "imperial"
  const UnitsErrorMessage := "units must be either 'imperial' or 'metric'"

  datatype WeatherError = ValueError(message: string)

  datatype WeatherRequest = HttpGet(url: string)

  /**
   * How an f-string renders `WEATHER_API_KEY`, which is None when the
   * environment variable is not set.
   */
  function RenderKey(apiKey: Option<string>): string {
    match apiKey
    case None => "None"
    case Some(key) => key
  }

  /** The start of every request URL, up to the city. */
  function UrlHead(): string { WeatherApiUrl + "?q=" }

  /**
   * Validates `units` and builds the request; the city goes into the query
   * as it is, with no escaping.
   */
  function GetCurrentWeather(city: string, apiKey: Option<string>, units: string := DefaultUnits)
    : (r: Result<WeatherRequest, WeatherError>)
    ensures r.Ok? <==> units in ValidUnits
    ensures r.Err? ==> r.error == ValueError(UnitsErrorMessage)
    ensures r.Ok? ==>
      StartsWith(r.value.url, UrlHead() + city) &&
      r.value.url[|UrlHead() + city|..] == "&units=" + units + "&appid=" + RenderKey(apiKey)
  {
    if units !in ValidUnits then Err(ValueError(UnitsErrorMessage))
    else
      var url := WeatherApiUrl + "?q=" + city + "&units=" + units + "&appid=" + RenderKey(apiKey);
      assert url == (UrlHead() + city) + ("&units=" + units + "&appid=" + RenderKey(apiKey));
      Ok(HttpGet(url))
  }

  /**
   * For given units and key, the URL tells the city apart: two different
   * cities never produce the same request.
   */
  lemma RequestDeterminesCity(city1: string, city2: string, apiKey: Option<string>, units: string)
    requires units in ValidUnits
    requires GetCurrentWeather(city1, apiKey, units) == GetCurrentWeather(city2, apiKey, units)
    ensures city1 == city2
  {
    var url := GetCurrentWeather(city1, apiKey, units).value.url;
    var tail := "&units=" + units + "&appid=" + RenderKey(apiKey);
    assert |url| == |UrlHead() + city1| + |tail| == |UrlHead() + city2| + |tail|;
    assert city1 == url[|UrlHead()|..|UrlHead()| + |city1|];
    assert city2 == url[|UrlHead()|..|UrlHead()| + |city2|];
  }

  /** Leaving `units` out asks for imperial units. */
  lemma DefaultIsImperial(city: string, apiKey: Option<string>)
    ensures GetCurrentWeather(city, apiKey) == GetCurrentWeather(city, apiKey, "imperial")
    ensures GetCurrentWeather(city, apiKey).Ok?
  {
  }

  /**
   * "standard" is accepted although the error message names only
   * 'imperial' and 'metric'.
   */
  lemma StandardAcceptedButUnnamed(city: string, apiKey: Option<string>)
    ensures GetCurrentWeather(city, apiKey, "standard").Ok?
    ensures !Contains(UnitsErrorMessage, "standard")
  {
    // the message has no letter 'd' at all, and "standard" has one at index 4
    assert 'd' !in UnitsErrorMessage;
    forall j: nat | j <= |UnitsErrorMessage| ensures !OccursAt(UnitsErrorMessage, "standard", j) {
      if j + 8 <= |UnitsErrorMessage| {
        assert UnitsErrorMessage[j..j + 8][4] == UnitsErrorMessage[j + 4];
      }
    }
  }
}
