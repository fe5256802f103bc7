/**
 * What the request handlers share: the external services (passed in
 * rather than held in process-wide clients), the record of which service
 * was called with what, the JSON replies, and the translation step that
 * is skipped for the pivot language.
 */
module Gateway {
  import opened Wrappers
  import opened Weather
  import opened Chat

  type Bytes = seq<bv8>

  /** What the image host returns: the result's `secure_url`, which may be absent. */
  datatype UploadResult = UploadResult(secureUrl: Option<string>)

  /**
   * What the transcription endpoint sends back: the status, and what
   * `response.json().get("text")` gives (a body that is not JSON raises).
   */
  datatype TranscriptionHttp = TranscriptionHttp(status: int, text: Call<Option<string>>)

  /**
   * The external services.  Each is a function of what it is sent; a
   * `Raised` result is an exception thrown by the client library.
   */
  datatype Services = Services(
    translate: (string, string, string) -> Call<string>,  // source, target, text
    weather: string -> Call<WeatherHttp>,
    chat: Completion -> Call<Stream>,
    upload: Bytes -> Call<UploadResult>,
    transcribe: Bytes -> Call<TranscriptionHttp>)

  /** One call into an external service, with its arguments. */
  datatype ServiceCall =
    | TranslateCall(source: string, target: string, text: string)
    | WeatherCall(location: string)
    | ChatCall(completion: Completion)
    | UploadCall(image: Bytes)
    | TranscribeCall(audio: Bytes)

  /** The key of the one-entry JSON object a handler returns. */
  datatype Field = ResponseField | ErrorField | TextField

  /** A JSON reply with its HTTP status, or the framework's own error page for an uncaught exception. */
  datatype Reply = Json(status: nat, field: Field, text: string) | Unhandled(status: nat)

  /** What a request did: the services it called, in order, and what it answered. */
  datatype Outcome = Outcome(calls: seq<ServiceCall>, reply: Reply)

  /** The pivot language and the default of every `language` field. */
  const Pivot: string := "en"

  const InputErrorPrefix: string := "Error translating input: "
  const OutputErrorPrefix: string := "Error translating response: "

  /** Into the pivot language (source detected), or back out of it. */
  datatype Direction = ToPivot | FromPivot

  /** The calls a step made and what it produced. */
  datatype Step = Step(calls: seq<ServiceCall>, result: Call<string>)

  /**
   * One translation step of a handler whose user language is `language`:
   * skipped when that is the pivot, one translator call otherwise.
   */
  function Translation(svc: Services, language: string, dir: Direction, text: string): (s: Step)
    ensures forall c :: c in s.calls ==> c.TranslateCall?
    ensures |s.calls| <= 1
  {
    if language == Pivot then Step([], Returned(text))
    else
      var source := if dir == ToPivot then "auto" else Pivot;
      var target := if dir == ToPivot then Pivot else language;
      Step([TranslateCall(source, target, text)], svc.translate(source, target, text))
  }

  /** For the pivot language a translation step is the identity and calls nothing. */
  lemma PivotSkipsTranslator(svc: Services, dir: Direction, text: string)
    ensures Translation(svc, Pivot, dir, text) == Step([], Returned(text))
  {
  }

  /** For any other language the step calls the translator once and returns what it returned. */
  lemma OtherLanguageTranslates(svc: Services, language: string, dir: Direction, text: string)
    requires language != Pivot
    ensures Translation(svc, language, dir, text).calls ==
      [if dir == ToPivot then TranslateCall("auto", Pivot, text) else TranslateCall(Pivot, language, text)]
    ensures Translation(svc, language, dir, text).result ==
      if dir == ToPivot then svc.translate("auto", Pivot, text) else svc.translate(Pivot, language, text)
  {
  }

  /** The uploaded image's URL: `upload(...).get("secure_url")` when the upload returned a non-empty one. */
  function ImageUrl(uploaded: Call<UploadResult>): (r: Option<string>)
    ensures r.Some? <==> uploaded.Returned? && uploaded.value.secureUrl.Some? && uploaded.value.secureUrl.value != ""
    ensures r.Some? ==> uploaded.value.secureUrl == Some(r.value) && r.value != ""
  {
    match uploaded
    case Raised(_) => None
    case Returned(u) => if u.secureUrl.GetOr("") == "" then None else Some(u.secureUrl.value)
  }

  /** Whether a call, made with these services, ends the handler with an error. */
  predicate CallFails(svc: Services, c: ServiceCall)
  {
    match c
    case TranslateCall(s, t, x) => svc.translate(s, t, x).Raised?
    case WeatherCall(l) => GetWeather(l, svc.weather(l)).Raised?
    case ChatCall(completion) => CollectReply(svc.chat(completion)).Raised?
    case UploadCall(image) => ImageUrl(svc.upload(image)).None?
    case TranscribeCall(audio) =>
      svc.transcribe(audio).Raised? ||
      (svc.transcribe(audio).value.status == 200 && svc.transcribe(audio).value.text.Raised?)
  }

  /** No call but possibly the last one failed: a failure stops every later step. */
  ghost predicate StopsAtFirstFailure(svc: Services, calls: seq<ServiceCall>)
  {
    forall i :: 0 <= i < |calls| - 1 ==> !CallFails(svc, calls[i])
  }
}
