/**
 * `get_weather`: one current-conditions lookup, mapped to a sentence.
 * A non-200 status is softened to a fixed apology; only the transport
 * itself or an unreadable 200 body raise.
 */
module Weather {
  import opened Wrappers

  /** `data['main']['temp']` (its rendering, kept opaque) and `data['weather'][0]['description']`. */
  datatype WeatherFields = WeatherFields(temp: string, description: string)

  /**
   * What the weather endpoint sends back: the status, and what reading
   * the two fields out of the JSON body gives (a parse error or a missing
   * key raises).
   */
  datatype WeatherHttp = WeatherHttp(status: int, body: Call<WeatherFields>)

  const SentencePrefix: string := "The current temperature in "

  /**
   * The unit after the temperature.  The source file holds the bytes of
   * U+00C2 U+00B0 followed by "C" (a doubly encoded degree sign), and that
   * is what the route sends.
   */
  const CelsiusSuffix: string := "Â°C"

  const WeatherApology: string :=
    "I'm sorry, " + "I couldn't retrieve the weather information for that location."

  /** The sentence sent for a successful lookup. */
  function WeatherSentence(location: string, fields: WeatherFields): (s: string)
    ensures |s| > |SentencePrefix| + |location|
    ensures s[..|SentencePrefix|] == SentencePrefix
    ensures s[|SentencePrefix|..|SentencePrefix| + |location|] == location
    ensures s[|s| - 1] == '.'
  {
    SentencePrefix + location + " is " + fields.temp + CelsiusSuffix + " with " + fields.description + "."
  }

  /**
   * `get_weather(location)` given what `requests.get` produced.  It raises
   * only when the request raised or a 200 body could not be read, and then
   * with that exception's own text; what it returns is the apology or a
   * sentence about `location`.
   */
  function GetWeather(location: string, reply: Call<WeatherHttp>): (r: Call<string>)
    ensures r.Raised? <==> reply.Raised? || (reply.value.status == 200 && reply.value.body.Raised?)
    ensures reply.Raised? ==> r == Raised(reply.detail)
    ensures reply.Returned? && reply.value.status == 200 && reply.value.body.Raised? ==>
      r == Raised(reply.value.body.detail)
    ensures r.Returned? ==>
      r.value == WeatherApology || exists fields :: r.value == WeatherSentence(location, fields)
  {
    match reply
    case Raised(d) => Raised(d)
    case Returned(http) =>
      if http.status == 200 then
        match http.body
        case Raised(d) => Raised(d)
        case Returned(fields) => Returned(WeatherSentence(location, fields))
      else Returned(WeatherApology)
  }

  /** Status 200 with a readable body gives exactly the formatted sentence. */
  lemma GetWeatherSuccess(location: string, fields: WeatherFields)
    ensures GetWeather(location, Returned(WeatherHttp(200, Returned(fields)))) ==
      Returned(SentencePrefix + location + " is " + fields.temp + CelsiusSuffix
               + " with " + fields.description + ".")
  {
  }

  /** Any other status gives the apology, whatever the body holds. */
  lemma GetWeatherNon200(location: string, http: WeatherHttp)
    requires http.status != 200
    ensures GetWeather(location, Returned(http)) == Returned(WeatherApology)
  {
  }

  /** The apology is never mistaken for a sentence. */
  lemma ApologyIsNotASentence(location: string, fields: WeatherFields)
    ensures WeatherSentence(location, fields) != WeatherApology
  {
    var s := WeatherSentence(location, fields);
    assert s[0] == SentencePrefix[0] == 'T';
    assert WeatherApology[0] == 'I';
  }
}
