/** The weather-intent classifier `is_weather_query`. */
module Intent {
  import opened Text

  /** The fixed keyword list, in the source's order. */
  const WeatherKeywords: seq<string> :=
    ["weather", "temperature", "forecast", "rain", "humidity", "climate"]

  /**
   * `is_weather_query`: some keyword is a substring of the lowered query,
   * that is, a keyword starts at some index of it.
   */
  predicate IsWeatherQuery(query: string)
    ensures IsWeatherQuery(query) <==>
      exists k, i :: k in WeatherKeywords && OccursAt(Lower(query), k, i)
  {
    var result := exists k :: k in WeatherKeywords && Contains(Lower(query), k);
    assert result ==> exists k, i :: k in WeatherKeywords && OccursAt(Lower(query), k, i) by {
      if result {
        var k :| k in WeatherKeywords && Contains(Lower(query), k);
        var i :| OccursAt(Lower(query), k, i);
        assert k in WeatherKeywords && OccursAt(Lower(query), k, i);
      }
    }
    result
  }

  /** Changing the case of ASCII letters never changes the verdict. */
  lemma CaseInsensitive(a: string, b: string)
    requires SameIgnoringCase(a, b)
    ensures IsWeatherQuery(a) <==> IsWeatherQuery(b)
  {
    SameIgnoringCaseLowerEqual(a, b);
  }

  /** In particular, upper-casing or lower-casing the whole query never changes it. */
  lemma CaseInsensitiveWhole(query: string)
    ensures IsWeatherQuery(Upper(query)) <==> IsWeatherQuery(query)
    ensures IsWeatherQuery(Lower(query)) <==> IsWeatherQuery(query)
  {
    UpperIsSameIgnoringCase(query);
    CaseInsensitive(query, Upper(query));
    CaseInsensitive(query, Lower(query));
  }

  /** Text added before or after a weather query leaves it a weather query. */
  lemma WeatherQueryExtends(query: string, extra: string)
    requires IsWeatherQuery(query)
    ensures IsWeatherQuery(query + extra) && IsWeatherQuery(extra + query)
  {
    var k :| k in WeatherKeywords && Contains(Lower(query), k);
    LowerAppend(query, extra);
    LowerAppend(extra, query);
    ContainsExtends(Lower(query), Lower(extra), k);
  }

  /** Keywords are already lower case. */
  lemma KeywordsAreLower(k: string)
    requires k in WeatherKeywords
    ensures Lower(k) == k
  {
    assert forall i :: 0 <= i < |k| ==> 'a' <= k[i] <= 'z';
  }

  /** Any text holding a keyword, wherever it sits, is a weather query. */
  lemma KeywordInsideIsWeather(before: string, k: string, after: string)
    requires k in WeatherKeywords
    ensures IsWeatherQuery(before + k + after)
  {
    KeywordsAreLower(k);
    assert OccursAt(Lower(k), k, 0);
    WeatherQueryExtends(k, after);
    WeatherQueryExtends(k + after, before);
    assert before + (k + after) == before + k + after;
  }

  /** The match is plain substring search: there is no negation handling. */
  lemma NoNegationHandling()
    ensures IsWeatherQuery("no rain expected")
  {
    var no, rain, expected := "no ", "rain", " expected";
    KeywordInsideIsWeather(no, rain, expected);
    assert no + rain + expected == "no rain expected";
  }

  /** The match is plain substring search: keywords match inside words ("Train"). */
  lemma KeywordInsideWord()
    ensures IsWeatherQuery("Train times")
  {
    var t, rain, times := "T", "rain", " times";
    KeywordInsideIsWeather(t, rain, times);
    assert t + rain + times == "Train times";
  }
}
