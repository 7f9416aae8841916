/**
 * The weather fast path of the agent loop (`_try_fast_weather` and
 * `_format_weather_line`): a simple current-weather question is answered from
 * one wttr.in request instead of a model and tool round trip.
 */
module Weather {
  import opened Wrappers
  import opened Strings

  const Keywords: seq<string> := ["weather", "wetter", "temperature", "temp"]

  const Blocklist: seq<string> :=
    ["forecast", "tomorrow", "next week", "this week", "compare", "historical", "yesterday", "rain tomorrow"]

  /** The compact wttr.in format: location, condition, temperature, humidity, wind. */
  const FormatQuery := "?format=%l:+%c+%t+%h+%w"

  /**
   * The fast path's collaborators: the location extracted from a question, URL
   * quoting, and the body a URL fetch returns (`None` when the request raises).
   */
  datatype WeatherService = WeatherService(
    locate: string -> string,
    quote: string -> string,
    fetch: string -> Option<string>)

  /** The question asks for current weather: it names a keyword and no blocklisted phrase. */
  predicate FastPathApplies(text: string) {
    var lowered := Lower(text);
    ContainsAny(lowered, Keywords) && !ContainsAny(lowered, Blocklist)
  }

  /** The wttr.in URL for a location; an empty location asks for the caller's own. */
  function WeatherUrl(service: WeatherService, location: string): (url: string)
    ensures StartsWith(url, "https://wttr.in/") && EndsWith(url, FormatQuery)
  {
    var encoded := if location != "" then service.quote(location) else "";
    var url := "https://wttr.in/" + encoded + FormatQuery;
    assert url[..16] == "https://wttr.in/";
    assert url[|url| - |FormatQuery|..] == FormatQuery;
    url
  }

  /** A trimmed body is a weather line unless it is empty or an HTML page. */
  predicate IsUsableBody(raw: string) {
    raw != "" && !StartsWith(raw, "<!DOCTYPE") && !StartsWith(raw, "<html")
  }

  /**
   * What `_format_weather_line(line)` writes after its leading
   * `"Current weather"`: `" in <location>:"` and the four fields on their own
   * lines, `" in <location>: <fields>"`, or `": <line>"` when there is no `:`.
   */
  function WeatherDetail(line: string): string {
    if ':' in line then
      var halves := SplitFirst(line, ':');
      var location := Strip(halves.0);
      var rest := CollapseSpaces(halves.1);
      var parts := Words(rest);
      if |parts| >= 4 then
        " in " + location + ":\n\n" + parts[0] + " **" + parts[1] + "**\nHumidity: " + parts[2]
        + "\nWind: " + Join(parts[3..], " ")
      else " in " + location + ": " + rest
    else ": " + line
  }

  /** `_format_weather_line(line)`: a reply that always starts with `"Current weather"`. */
  function FormatWeatherLine(line: string): (r: string)
    ensures StartsWith(r, "Current weather")
  {
    var prefix := "Current weather";
    assert (prefix + WeatherDetail(line))[..|prefix|] == prefix;
    prefix + WeatherDetail(line)
  }

  /**
   * The layout of a formatted line: the location is the trimmed text before the
   * first `:`; with at least four whitespace-separated fields after it, they
   * are condition, temperature, humidity and wind (the rest of the fields);
   * with fewer, the fields follow the location on one line, single-spaced.
   */
  lemma FormatWeatherLayout(line: string)
    ensures ':' !in line ==> WeatherDetail(line) == ": " + line
    ensures ':' in line ==>
      var location := Strip(SplitFirst(line, ':').0);
      var fields := Words(SplitFirst(line, ':').1);
      (|fields| >= 4 ==>
        WeatherDetail(line) ==
          " in " + location + ":\n\n" + fields[0] + " **" + fields[1] + "**\nHumidity: "
          + fields[2] + "\nWind: " + Join(fields[3..], " ")) &&
      (|fields| < 4 ==> WeatherDetail(line) == " in " + location + ": " + Join(fields, " "))
  {
    if ':' in line {
      var halves := SplitFirst(line, ':');
      assert Words(CollapseSpaces(halves.1)) == Words(halves.1);
    }
  }

  /** `_try_fast_weather(text)`: a formatted reply, or `None` to fall through to the model. */
  function FastWeather(service: WeatherService, text: string): (r: Option<string>)
    ensures !FastPathApplies(text) ==> r.None?
    ensures r.Some? ==> StartsWith(r.value, "Current weather")
  {
    if !FastPathApplies(text) then None
    else
      var body := service.fetch(WeatherUrl(service, service.locate(text)));
      match body
      case None => None
      case Some(b) =>
        var raw := Strip(b);
        if IsUsableBody(raw) then Some(FormatWeatherLine(raw)) else None
  }

  /**
   * The fast path answers exactly when the question qualifies and the fetch
   * returns a usable body, and its answer is that body formatted.
   */
  lemma FastWeatherSpec(service: WeatherService, text: string)
    ensures FastWeather(service, text).Some? <==>
      FastPathApplies(text) &&
      var body := service.fetch(WeatherUrl(service, service.locate(text)));
      body.Some? && IsUsableBody(Strip(body.value))
    ensures FastWeather(service, text).Some? ==>
      var body := service.fetch(WeatherUrl(service, service.locate(text)));
      FastWeather(service, text).value == FormatWeatherLine(Strip(body.value))
      && StartsWith(FastWeather(service, text).value, "Current weather")
  {
  }

  /**
   * In terms of the phrases: the fast path is taken only when some keyword
   * occurs in the lower-cased question and no blocklisted phrase does.
   */
  lemma {:induction false} FastPathPhrases(text: string)
    ensures FastPathApplies(text) <==>
      (exists k :: 0 <= k < |Keywords| && Contains(Lower(text), Keywords[k])) &&
      (forall b :: 0 <= b < |Blocklist| ==> !Contains(Lower(text), Blocklist[b]))
  {
    ContainsAnyMeans(Lower(text), Keywords);
    ContainsAnyMeans(Lower(text), Blocklist);
  }

  /** A question that mentions a forecast never takes the fast path, whatever the service. */
  lemma ForecastFallsThrough(service: WeatherService, text: string)
    requires Contains(Lower(text), "forecast")
    ensures FastWeather(service, text) == None
  {
    FastPathPhrases(text);
    assert Blocklist[0] == "forecast";
  }

  /** A question with no keyword never takes the fast path. */
  lemma NoKeywordFallsThrough(service: WeatherService, text: string)
    requires forall k :: 0 <= k < |Keywords| ==> !Contains(Lower(text), Keywords[k])
    ensures FastWeather(service, text) == None
  {
    FastPathPhrases(text);
  }

  /** A blank body, or an HTML page instead of a weather line, falls through to the model. */
  lemma UnusableBodyFallsThrough(service: WeatherService, text: string, body: string)
    requires service.fetch(WeatherUrl(service, service.locate(text))) == Some(body)
    requires AllSpace(body) || StartsWith(Strip(body), "<!DOCTYPE") || StartsWith(Strip(body), "<html")
    ensures FastWeather(service, text) == None
  {
    StripSpec(body);
  }
}
