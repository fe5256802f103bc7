/**
 * The `/query` route: translate the message into the pivot language,
 * answer a weather question that names a location from the weather
 * service, answer anything else from the language model, and translate
 * the answer back.  Every failure is caught and answered, with status
 * 200, as a `response` carrying the step's prefix and the exception text.
 */
module QueryRoute {
  import opened Wrappers
  import opened Text
  import opened Intent
  import opened Location
  import opened Weather
  import opened Chat
  import opened Gateway

  /** The JSON body: both fields may be absent. */
  datatype QueryRequest = QueryRequest(message: Option<string>, language: Option<string>)

  const WeatherErrorPrefix: string := "Error processing weather query: "
  const ChatErrorPrefix: string := "Error processing chatbot query: "

  function Message(req: QueryRequest): string
  {
    req.message.GetOr("")
  }

  function Language(req: QueryRequest): string
  {
    req.language.GetOr(Pivot)
  }

  /** `jsonify({"response": text})`, status 200. */
  function ResponseReply(text: string): Reply
  {
    Json(200, ResponseField, text)
  }

  /** Step 1: the message in the pivot language. */
  function PivotInput(req: QueryRequest, svc: Services): Step
  {
    Translation(svc, Language(req), ToPivot, Message(req))
  }

  /** The weather branch is taken: the text asks about the weather and names a location. */
  predicate IsWeatherBranch(text: string)
  {
    IsWeatherQuery(text) && Search(text).Some?
  }

  /**
   * Steps 2 to 4 once the pivot-language text `text` is known.  Whatever
   * the services do it answers 200 with a `response`; it first asks the
   * weather service or the model, as the branch decides, then at most the
   * translator.
   */
  function Dispatch(svc: Services, language: string, text: string): (o: Outcome)
    ensures o.reply.Json? && o.reply.status == 200 && o.reply.field == ResponseField
    ensures 1 <= |o.calls| <= 2
    ensures o.calls[0] ==
      if IsWeatherBranch(text) then WeatherCall(Search(text).value.group) else ChatCall(QueryCompletion(text))
    ensures forall c :: c in o.calls[1..] ==> c.TranslateCall?
  {
    if IsWeatherBranch(text) then
      var location := Search(text).value.group;
      var calls := [WeatherCall(location)];
      match GetWeather(location, svc.weather(location))
      case Raised(d) => Outcome(calls, ResponseReply(WeatherErrorPrefix + d))
      case Returned(info) =>
        var output := Translation(svc, language, FromPivot, info);
        match output.result
        case Raised(d) => Outcome(calls + output.calls, ResponseReply(WeatherErrorPrefix + d))
        case Returned(r) => Outcome(calls + output.calls, ResponseReply(r))
    else
      var completion := QueryCompletion(text);
      var calls := [ChatCall(completion)];
      match CollectReply(svc.chat(completion))
      case Raised(d) => Outcome(calls, ResponseReply(ChatErrorPrefix + d))
      case Returned(reply) =>
        var output := Translation(svc, language, FromPivot, reply);
        match output.result
        case Raised(d) => Outcome(calls + output.calls, ResponseReply(OutputErrorPrefix + d))
        case Returned(r) => Outcome(calls + output.calls, ResponseReply(r))
  }

  /** The whole route.  It always answers with status 200 and a `response` field. */
  function Query(req: QueryRequest, svc: Services): (o: Outcome)
    ensures o.reply.Json? && o.reply.status == 200 && o.reply.field == ResponseField
  {
    var input := PivotInput(req, svc);
    match input.result
    case Raised(d) => Outcome(input.calls, ResponseReply(InputErrorPrefix + d))
    case Returned(text) =>
      var rest := Dispatch(svc, Language(req), text);
      Outcome(input.calls + rest.calls, rest.reply)
  }

  /** The weather service is consulted exactly when the weather branch is taken, and with the extracted location. */
  lemma WeatherConsultedIff(req: QueryRequest, svc: Services)
    ensures (exists c :: c in Query(req, svc).calls && c.WeatherCall?) <==>
      PivotInput(req, svc).result.Returned? && IsWeatherBranch(PivotInput(req, svc).result.value)
    ensures PivotInput(req, svc).result.Returned? && IsWeatherBranch(PivotInput(req, svc).result.value) ==>
      WeatherCall(Search(PivotInput(req, svc).result.value).value.group) in Query(req, svc).calls
  {
    var input := PivotInput(req, svc);
    if input.result.Returned? {
      var rest := Dispatch(svc, Language(req), input.result.value);
      if IsWeatherBranch(input.result.value) {
        var location := Search(input.result.value).value.group;
        assert rest.calls[0] == WeatherCall(location);
        assert Query(req, svc).calls[|input.calls|] == WeatherCall(location);
      }
    }
  }

  /** A text without a weather keyword never reaches the weather service. */
  lemma NoKeywordNoWeather(req: QueryRequest, svc: Services)
    requires PivotInput(req, svc).result.Returned? ==> !IsWeatherQuery(PivotInput(req, svc).result.value)
    ensures forall c :: c in Query(req, svc).calls ==> !c.WeatherCall?
  {
    WeatherConsultedIff(req, svc);
  }

  /** A weather question that names no location falls through to the language model. */
  lemma NoLocationFallsThrough(req: QueryRequest, svc: Services)
    requires PivotInput(req, svc).result.Returned?
    requires Search(PivotInput(req, svc).result.value).None?
    ensures ChatCall(QueryCompletion(PivotInput(req, svc).result.value)) in Query(req, svc).calls
    ensures forall c :: c in Query(req, svc).calls ==> !c.WeatherCall?
  {
    var input := PivotInput(req, svc);
    assert Query(req, svc).calls[|input.calls|] == ChatCall(QueryCompletion(input.result.value));
    WeatherConsultedIff(req, svc);
  }

  /** For the pivot language the translator is never called and the text is used as sent. */
  lemma PivotLanguageNeverTranslates(req: QueryRequest, svc: Services)
    requires Language(req) == Pivot
    ensures PivotInput(req, svc) == Step([], Returned(Message(req)))
    ensures forall c :: c in Query(req, svc).calls ==> !c.TranslateCall?
  {
  }

  /** For the pivot language a successful weather lookup is answered word for word, after that one call. */
  lemma PivotWeatherAnswer(svc: Services, text: string, info: string)
    requires IsWeatherBranch(text)
    requires GetWeather(Search(text).value.group, svc.weather(Search(text).value.group)) == Returned(info)
    ensures Dispatch(svc, Pivot, text) == Outcome([WeatherCall(Search(text).value.group)], ResponseReply(info))
  {
  }

  /** For the pivot language a successful chat reply is answered word for word: the chunks, concatenated. */
  lemma PivotChatAnswer(req: QueryRequest, svc: Services, chunks: seq<Chunk>)
    requires Language(req) == Pivot && !IsWeatherBranch(Message(req))
    requires svc.chat(QueryCompletion(Message(req))) == Returned(Stream(chunks, Finished))
    requires AllPresent(chunks)
    ensures Query(req, svc).reply.text == Concat(chunks)
    ensures Query(req, svc).calls == [ChatCall(QueryCompletion(Message(req)))]
  {
  }

  /**
   * For another language a successful weather lookup is translated back:
   * the weather call, then one translator call from the pivot language,
   * and the translation is the reply.
   */
  lemma WeatherAnswerTranslated(svc: Services, language: string, text: string, info: string, answer: string)
    requires language != Pivot && IsWeatherBranch(text)
    requires GetWeather(Search(text).value.group, svc.weather(Search(text).value.group)) == Returned(info)
    requires svc.translate(Pivot, language, info) == Returned(answer)
    ensures Dispatch(svc, language, text) ==
      Outcome([WeatherCall(Search(text).value.group), TranslateCall(Pivot, language, info)], ResponseReply(answer))
  {
  }

  /** A failed input translation is answered at once; nothing else is called. */
  lemma InputTranslationFails(req: QueryRequest, svc: Services, detail: string)
    requires Language(req) != Pivot
    requires svc.translate("auto", Pivot, Message(req)) == Raised(detail)
    ensures Query(req, svc) ==
      Outcome([TranslateCall("auto", Pivot, Message(req))], ResponseReply(InputErrorPrefix + detail))
  {
  }

  /** A failed weather lookup, or a failed translation of its sentence, ends the request with the weather prefix. */
  lemma WeatherStepFails(svc: Services, language: string, text: string, detail: string)
    requires IsWeatherBranch(text)
    requires var location := Search(text).value.group;
      var info := GetWeather(location, svc.weather(location));
      info == Raised(detail) ||
      (info.Returned? && Translation(svc, language, FromPivot, info.value).result == Raised(detail))
    ensures Dispatch(svc, language, text).reply == ResponseReply(WeatherErrorPrefix + detail)
    ensures CallFails(svc, Dispatch(svc, language, text).calls[|Dispatch(svc, language, text).calls| - 1])
  {
  }

  /** A failed model call, or a failed translation of its reply, ends the request with its own prefix. */
  lemma ChatStepFails(svc: Services, language: string, text: string, detail: string)
    requires !IsWeatherBranch(text)
    ensures CollectReply(svc.chat(QueryCompletion(text))) == Raised(detail) ==>
      Dispatch(svc, language, text) ==
        Outcome([ChatCall(QueryCompletion(text))], ResponseReply(ChatErrorPrefix + detail))
    ensures var reply := CollectReply(svc.chat(QueryCompletion(text)));
      reply.Returned? && Translation(svc, language, FromPivot, reply.value).result == Raised(detail) ==>
        Dispatch(svc, language, text) ==
          Outcome([ChatCall(QueryCompletion(text)), TranslateCall(Pivot, language, reply.value)],
                  ResponseReply(OutputErrorPrefix + detail))
  {
  }

  /** Every failure is the last step: no call follows one that failed. */
  lemma QueryStopsAtFirstFailure(req: QueryRequest, svc: Services)
    ensures StopsAtFirstFailure(svc, Query(req, svc).calls)
  {
    var input := PivotInput(req, svc);
    if input.result.Returned? {
      var text := input.result.value;
      var rest := Dispatch(svc, Language(req), text);
      assert forall c :: c in input.calls ==> !CallFails(svc, c);
      if IsWeatherBranch(text) {
        var location := Search(text).value.group;
        assert !CallFails(svc, WeatherCall(location)) || rest.calls == [WeatherCall(location)];
      } else {
        assert !CallFails(svc, ChatCall(QueryCompletion(text))) || rest.calls == [ChatCall(QueryCompletion(text))];
      }
    }
  }

  /** What a weather answer is made of. */
  function WeatherServiceFor(temp: string, description: string): string -> Call<WeatherHttp>
  {
    _ => Returned(WeatherHttp(200, Returned(WeatherFields(temp, description))))
  }

  /** "What's the weather in <place>?" */
  function WeatherQuestion(place: string): string
  {
    "What's the weather " + Anchor + place + "?"
  }

  /** The extractor finds the place after the first "in ". */
  lemma WeatherQuestionLocation(place: string)
    requires 0 < |place| && forall k :: 0 <= k < |place| ==> IsWordChar(place[k])
    ensures Search(WeatherQuestion(place)) == Some(Match(19, place))
  {
    var before, after := "What's the weather ", "?";
    var text := before + Anchor + place + after;
    assert forall j :: 1 <= j <= |before| ==> text[j] != 'n';
    forall j: nat | j < |before| ensures !MatchesAt(text, j) {
      assert text[j + 1] != 'n';
      assert j + 3 <= |text| ==> text[j..j + 3][1] == text[j + 1];
    }
    LocationAfterFirstAnchor(before, place, after);
  }

  /** The question is its opening, the keyword "weather", then the rest. */
  lemma WeatherQuestionPieces(place: string)
    ensures WeatherQuestion(place) == "What's the " + "weather" + (" " + Anchor + place + "?")
  {
    var text := WeatherQuestion(place);
    var pieces := "What's the " + "weather" + (" " + Anchor + place + "?");
    assert |text| == |pieces|;
    forall j | 0 <= j < |text|
      ensures text[j] == pieces[j]
    {
    }
  }

  lemma WeatherQuestionIsWeather(place: string)
    ensures IsWeatherQuery(WeatherQuestion(place))
  {
    WeatherQuestionPieces(place);
    KeywordInsideIsWeather("What's the ", "weather", " " + Anchor + place + "?");
  }

  /**
   * "What's the weather in <place>?" in English, with the weather service
   * reporting `temp` and `description`: one weather call, and the sentence.
   */
  lemma WeatherQuestionScenario(svc: Services, place: string, temp: string, description: string)
    requires 0 < |place| && forall k :: 0 <= k < |place| ==> IsWordChar(place[k])
    requires svc.weather == WeatherServiceFor(temp, description)
    ensures Query(QueryRequest(Some(WeatherQuestion(place)), Some(Pivot)), svc) ==
      Outcome([WeatherCall(place)],
              ResponseReply("The current temperature in " + place + " is " + temp + CelsiusSuffix
                            + " with " + description + "."))
  {
    WeatherQuestionLocation(place);
    WeatherQuestionIsWeather(place);
  }

  /** The Polokwane example, "What's the weather in Polokwane?": 25 degrees and a clear sky. */
  lemma PolokwaneScenario(svc: Services, place: string)
    requires place == "Polokwane"
    requires svc.weather == WeatherServiceFor("25", "clear sky")
    ensures Query(QueryRequest(Some(WeatherQuestion(place)), Some(Pivot)), svc) ==
      Outcome([WeatherCall(place)],
              ResponseReply("The current temperature in " + place + " is " + "25" + CelsiusSuffix
                            + " with " + "clear sky" + "."))
  {
    assert forall k :: 0 <= k < |place| ==> IsWordChar(place[k]);
    WeatherQuestionScenario(svc, place, "25", "clear sky");
  }

  /**
   * A message in another language ("Bonjour" with language "fr") that is
   * not a weather question: translated in, answered by the model,
   * translated back, in exactly three calls.
   */
  lemma TranslatedChatScenario(req: QueryRequest, svc: Services, text: string, chunks: seq<Chunk>, answer: string)
    requires Language(req) != Pivot
    requires svc.translate("auto", Pivot, Message(req)) == Returned(text)
    requires !IsWeatherBranch(text)
    requires svc.chat(QueryCompletion(text)) == Returned(Stream(chunks, Finished)) && AllPresent(chunks)
    requires svc.translate(Pivot, Language(req), Concat(chunks)) == Returned(answer)
    ensures Query(req, svc) ==
      Outcome([TranslateCall("auto", Pivot, Message(req)), ChatCall(QueryCompletion(text)),
               TranslateCall(Pivot, Language(req), Concat(chunks))],
              ResponseReply(answer))
  {
  }
}
