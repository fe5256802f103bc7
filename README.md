# SmartFarmBot request dispatch, modelled in Dafny

SmartFarmBot is a small Flask server (`app.py`) that answers farming
questions from a web page. Every route is a short script. It forwards to
a translator, a weather service, a vision-capable language model, an
image host and a speech-to-text endpoint, and it maps their failures to
JSON messages. This project models the logic that decides what happens
between those calls:

- the weather-intent classifier `is_weather_query`;
- the location extractor `re.search(r"in (\w+)", ...)`;
- the `/query` pipeline: translate in, weather or chat, translate out;
- `get_weather`'s mapping from status to sentence;
- how the streamed chat reply is collected;
- the validation and error order of `/vision_query`;
- the status mapping and temporary-file handling of `/voice_to_text`.

The external services are parameters. `Gateway.Services` holds one total
function per service. Each one returns `Returned(value)` or
`Raised(detail)`, where `detail` is the text `str(e)` of the exception.
The `/query` and `/vision_query` routes are functions that return an
`Outcome`: the list of service calls made, in order, and the reply. The
`/voice_to_text` route returns a `VoiceOutcome`, which also holds the set
of paths in the file store after the request. So "the weather service is
never called" and "nothing runs after a failure" are statements about the
call list.

Files, one module each:

| file | module | what it holds |
|---|---|---|
| wrappers.dfy | Wrappers | `Option` and `Call` (returned or raised) |
| text.dfy | Text | ASCII lower/upper, substring containment, `\w`, decimal digits |
| intent.dfy | Intent | `is_weather_query` and its properties |
| location.dfy | Location | the `in (\w+)` search and its specification |
| weather.dfy | Weather | `get_weather`'s mapping from the HTTP answer to text |
| chat.dfy | Chat | completion requests, streamed chunks, `"".join` of their contents |
| gateway.dfy | Gateway | services, call trace, replies, the translation step |
| query.dfy | QueryRoute | `/query` |
| vision.dfy | VisionRoute | `/vision_query` |
| voice.dfy | VoiceRoute | `/voice_to_text`, as written and with cleanup on every path |

Modelling assumptions:

- Python's `str.lower` is modelled on ASCII letters only.
- Python's Unicode `\w` is modelled as `Text.IsWordChar`: ASCII letters, digits and `_`.
- The temperature is an opaque string; how Python renders the JSON float is not modelled.
- The two system prompts appear as `Chat.Persona` values. Their wording has no effect on control flow.

Places where the code behaves differently from what a reader might expect. The model follows the code in each:

- The unit after the temperature is `Weather.CelsiusSuffix`. It is the literal `Â°C` found in app.py:48, a doubly encoded degree sign, not `°C`.
- A location comes from the leftmost `"in "` followed by a word character, and it is the whole word run there. So "Rain in Spain" gives `in`, because the match inside "Rain" comes first (`Location.RainInSpainExample`). It is not true that any "in X" in the text gives X.
- Translation is skipped only when the user's language is `"en"`. The skip does not test whether source and target are equal.
- `get_weather` raises on a 200 answer whose body cannot be read. `/query` reports this with the weather prefix.
- A failed translation of the weather sentence is inside the weather `try` (app.py:79-86). So it is reported as `"Error processing weather query: ..."`, not as `"Error translating response: ..."`.
- The temporary audio file is not removed when the transcription post raises (see Findings).

## Model

| member | source | states |
|---|---|---|
| Text.Lower | app.py:54 | `query.lower()` keeps the length and lowers each character on its own |
| Text.Contains | app.py:54 | `keyword in text` holds exactly when the keyword occurs at some index of the text |
| Text.ContainsExtends | app.py:54 | an occurrence stays an occurrence when text is added before or after |
| Text.DecimalRoundTrip | app.py:135 | the index printed in `str.join`'s error message reads back as the index |
| Intent.IsWeatherQuery | app.py:52-54 | a query is a weather query iff one of the six keywords starts at some index of the lowered query |
| Intent.CaseInsensitive | app.py:54 | strings that differ only in letter case get the same verdict |
| Intent.CaseInsensitiveWhole | app.py:54 | upper-casing or lower-casing a query never changes the verdict |
| Intent.WeatherQueryExtends | app.py:53-54 | adding text before or after a weather query keeps it a weather query |
| Intent.KeywordsAreLower | app.py:53 | the keyword list is already lower case |
| Intent.KeywordInsideIsWeather | app.py:53-54 | any text with a keyword anywhere in it is a weather query |
| Intent.NoNegationHandling | app.py:53-54 | there is no negation handling: "no rain expected" is a weather query |
| Intent.KeywordInsideWord | app.py:53-54 | keywords match inside words: "Train times" is a weather query |
| Location.RunEnd | app.py:73 | greedy `\w+`: every character up to the end is a word character, and the next one is not |
| Location.FindFrom | app.py:73 | the first index at or after `from` where `in ` is followed by a word character; no earlier index matches, and `None` means no index matches |
| Location.Search | app.py:73-75 | `None` iff the pattern matches nowhere; otherwise the start is the leftmost match and the group is the maximal non-empty word run after `"in "` |
| Location.MaximalWordRunUnique | app.py:73 | there is only one maximal word run at a given index |
| Location.SearchDetermined | app.py:73-75 | any leftmost match with a maximal run is exactly what the search returns |
| Location.LocationAfterFirstAnchor | app.py:73-75 | for text = before + "in " + X + after with no earlier match, X made of word characters and `after` not starting with one, the location is X |
| Location.CapitalInNeverMatches | app.py:73 | the match is case-sensitive: no match starts at a capital `I` |
| Location.CapitalInExample | app.py:73 | "In Paris" has no match |
| Location.RainInSpainExample | app.py:73-75 | "Rain in Spain" matches inside "Rain" and gives `in` |
| Weather.WeatherSentence | app.py:48 | the sentence starts with "The current temperature in ", then the location, and ends with "." |
| Weather.GetWeatherSuccess | app.py:44-48 | status 200 with a readable body gives exactly "The current temperature in " + location + " is " + temp + unit + " with " + description + "." |
| Weather.GetWeatherNon200 | app.py:49-50 | every other status gives the fixed apology, whatever the body holds |
| Weather.GetWeather | app.py:41-50 | `get_weather` raises iff the request raised or a 200 body could not be read, and then with that exception's own text; what it returns is the apology or a weather sentence about the location |
| Weather.ApologyIsNotASentence | app.py:48-50 | the apology never equals a weather sentence |
| Chat.ConcatEmpty | app.py:135 | an empty stream collects to "" |
| Chat.ConcatSingle | app.py:135 | one chunk collects to its own content |
| Chat.ConcatAppend | app.py:135 | collecting a + b gives collect(a) + collect(b) |
| Chat.FirstMissing | app.py:135 | `None` iff every chunk has content; otherwise the first chunk whose content is `None` |
| Chat.JoinContents | app.py:135 | the join succeeds iff every chunk carries a string |
| Chat.QueryCompletion | app.py:96-133 | the text request asks the configured model for at most 500 tokens, streamed, in exactly two messages: the system message with the text persona first, then one user message holding only the pivot-language text |
| Chat.VisionCompletion | app.py:202-243 | the image request is the same, in exactly two messages with the system one first: the image persona, then one user message holding the text followed by the image URL |
| Chat.Concat | app.py:135 | the collected reply is as long as all chunk contents together and starts with the first chunk's content |
| Chat.CollectReply | app.py:128-135 | a reply exists iff the create call returned, the stream finished and all chunks carry text; the reply is their in-order concatenation; a raising create call and a broken stream each raise with their own exception text |
| Chat.BrokenStreamDiscardsChunks | app.py:128-137 | a stream that breaks gives its own error, whatever chunks came before it |
| Chat.NoneContentReported | app.py:135 | a `None` content is reported as a TypeError naming the index of the first such chunk |
| Gateway.Translation | app.py:63-67 | a translation step calls only the translator, and at most once |
| Gateway.PivotSkipsTranslator | app.py:64-67 | for language "en" translation returns the text unchanged and calls nothing |
| Gateway.OtherLanguageTranslates | app.py:64-65 | for any other language translation makes one call, from "auto" into "en" or from "en" into the language, and returns its result |
| QueryRoute.Dispatch | app.py:71-146 | after the input translation the reply is always a 200 `response`; the first call is the weather service with the matched location on the weather branch and the model otherwise, and only a translation may follow it |
| QueryRoute.Query | app.py:57-148 | `/query` always answers with status 200 and a `response` field, whatever fails |
| QueryRoute.WeatherConsultedIff | app.py:72-76 | the weather service is called iff the input translation succeeded, the text is a weather query and a location matches; it is called with the matched location |
| QueryRoute.NoKeywordNoWeather | app.py:73-76 | without a weather keyword the weather service is never called |
| QueryRoute.NoLocationFallsThrough | app.py:74-135 | a weather question with no location match goes to the language model and never reaches the weather service |
| QueryRoute.PivotLanguageNeverTranslates | app.py:63-144 | for language "en" the translator is never called and the message is used as sent |
| QueryRoute.PivotWeatherAnswer | app.py:74-84 | for language "en" a successful weather lookup is answered word for word, after that single call |
| QueryRoute.PivotChatAnswer | app.py:128-148 | for language "en" the answer is the concatenation of the streamed chunks, after a single model call |
| QueryRoute.WeatherAnswerTranslated | app.py:74-84 | for another language a successful weather lookup makes the weather call and then one translation from "en" into the language, and the translation is the reply |
| QueryRoute.InputTranslationFails | app.py:63-69 | a failed input translation gives "Error translating input: " + detail, and nothing else is called |
| QueryRoute.WeatherStepFails | app.py:72-86 | a failed lookup, or a failed translation of its sentence, gives "Error processing weather query: " + detail, and the failing call is the last one |
| QueryRoute.ChatStepFails | app.py:89-146 | a failed model call gives "Error processing chatbot query: " + detail; a failed output translation gives "Error translating response: " + detail; nothing follows either |
| QueryRoute.QueryStopsAtFirstFailure | app.py:63-148 | no service call follows a call that failed |
| QueryRoute.WeatherQuestionLocation | app.py:73-75 | "What's the weather in P?" yields the location P for any word P |
| QueryRoute.WeatherQuestionIsWeather | app.py:52-54 | "What's the weather in P?" is a weather query |
| QueryRoute.WeatherQuestionScenario | app.py:57-84 | in English, "What's the weather in P?" makes one weather call with P and answers with the weather sentence |
| QueryRoute.PolokwaneScenario | app.py:57-84 | "What's the weather in Polokwane?" with 25 and "clear sky" answers "The current temperature in Polokwane is 25" + unit + " with clear sky." |
| QueryRoute.TranslatedChatScenario | app.py:57-148 | a non-weather message in another language is translated in, answered by the model and translated back, in exactly these three calls |
| VisionRoute.VisionQuery | app.py:156-262 | status 200 always comes with `response`, other statuses with `error`; status is 200, 400 or 500; a 400 calls no service |
| Gateway.ImageUrl | app.py:174-177 | the upload counts as giving a URL iff it returned a `secure_url` that is present and non-empty, and then that URL is used |
| VisionRoute.Answer | app.py:181-259 | past the upload only the translator and the model are called; the reply is a 200 `response` or a 500 `error`, and a 200 comes only after the model was asked about the image at the uploaded URL |
| VisionRoute.VisionStepFails | app.py:181-256 | past the upload, a failed prompt translation gives 500 "Error translating input: " + detail, a failed model call or stream gives 500 "Error processing vision query: " + detail, and a failed reply translation gives 500 "Error translating response: " + detail |
| VisionRoute.MissingImage | app.py:161-162 | no image part gives 400 "No image file uploaded" and no calls |
| VisionRoute.MissingPrompt | app.py:164-170 | an absent or empty prompt gives 400 "Text prompt is required" and no calls |
| VisionRoute.UploadFails | app.py:172-179 | an upload that raises gives 500 with the upload prefix; a missing or empty URL gives 500 "Failed to upload image to Cloudinary"; only the upload was called |
| VisionRoute.ChecksPrecedeTranslationAndModel | app.py:161-188 | the translator or the model is called only after an image, a non-empty prompt and a URL; the upload is the first call |
| VisionRoute.ModelSeesUploadedImage | app.py:182-245 | the model gets the prompt in English followed by the uploaded image's URL |
| VisionRoute.PivotLanguageNeverTranslates | app.py:183-254 | for language "en" the translator is never called |
| VisionRoute.PivotLanguageAnswer | app.py:236-259 | for language "en" a complete stream is answered as 200 with the concatenated chunks |
| VisionRoute.VisionAnswerTranslated | app.py:181-259 | for another language a complete model reply gives the prompt translation, the model call and the reply translation, in that order, and 200 with the translation |
| VisionRoute.VisionStopsAtFirstFailure | app.py:172-256 | no service call follows a call that failed |
| VoiceRoute.TranscriptionReply | app.py:280-288 | every JSON answer is a 200 `text`; the framework's 500 comes exactly when the post raised or a 200 body could not be read |
| VoiceRoute.VoiceToTextAsWritten | app.py:265-288 | a missing audio part is the framework's 400 with no call; otherwise one transcription call, and the reply is `TranscriptionReply` of its answer (a framework 500 when the post or the body read raised); no other path changes, and the temporary file remains exactly when the post raised |
| VoiceRoute.VoiceToText | app.py:265-288 | the same replies and calls, and the temporary file never remains unless it was there before a request without audio |
| VoiceRoute.ServiceErrorApology | app.py:285-286 | a non-200 status gives "Sorry, there was an error with the transcription service.", in the route as written and in the corrected one |
| VoiceRoute.TranscriptOrApology | app.py:283-284 | a 200 answer gives its `text`, or "Sorry, I couldn't transcribe the audio." if the key is missing, in the route as written and in the corrected one |
| VoiceRoute.SameAnswerAsWritten | app.py:267-288 | the corrected route answers and calls exactly as the route as written |
| VoiceRoute.TempFileLeaksWhenPostRaises | app.py:270-281 | as written, a post that raises leaves the temporary file behind (and the client gets a 500) |
| VoiceRoute.TempFileRemovedOnEveryPath | app.py:270-281 | with removal on every path, the temporary file is gone after any request with audio, and no other path changes |

## Findings

| source | as written | input that shows it | evidently intended | confidence | as-written member | corrected member |
|---|---|---|---|---|---|---|
| app.py:270-281 | `os.remove(audio_path)` runs after `requests.post`, outside any `finally` | any request with audio whose transcription post raises, such as a connection error | the temporary audio file is removed on every exit path, as the comment at app.py:281 says | medium; not executed | VoiceRoute.VoiceToTextAsWritten (exhibited by VoiceRoute.TempFileLeaksWhenPostRaises) | VoiceRoute.VoiceToText (proved by VoiceRoute.TempFileRemovedOnEveryPath) |

## Left out

- Network calls are not modelled: Google Translate, OpenWeatherMap, the Hugging Face inference client, Cloudinary and the Whisper endpoint (app.py:43, 65, 128-133, 174, 276-280). `Gateway.Services` replaces each with a function of what it is sent. Building the weather URL (the location is not URL-encoded; the API key) happens inside that function.
- Flask plumbing is not modelled: routing, `/chatbot` and its template (app.py:37-39), `jsonify`, and parsing `request.json`, `request.form` and `request.files`. A request is a record of optional string or byte fields. A body that is not a JSON object, and JSON values that are not strings, are not modelled, neither in requests nor in service answers. For example, a transcription answer with `"text": null` makes app.py:284 reply `{"text": null}`; the model has `text` as an optional string, so it cannot express that reply.
- The wording of the system prompts (app.py:102-114, 208-221) is not modelled. Each prompt is a `Chat.Persona` value.
- Exceptions raised while iterating the stream, including an empty `choices` list, are all one `Chat.StreamEnd.Broken(detail)`. A `None` delta content is modelled separately, as the TypeError that `str.join` raises.
- The outer `except` of `/vision_query` (app.py:261-262) is not modelled. Every step that can raise in this model is inside an inner `try`, so the reply "An error occurred: ..." cannot occur here.
- In `/voice_to_text`, writing and opening the temporary file (app.py:270-274) are assumed to succeed. The file store is a set of paths. Two concurrent requests that share the fixed path are not modelled.
- The unused `speech_recognition` recognizer (app.py:17) and the configuration code (app.py:19-34) are not modelled.
- static/script.js is not modelled. It is browser UI and asynchronous I/O. Its `sendTextMessage` never sends `language`, and the form built by `sendImageWithText` (static/script.js:61-63) holds only `image` and `text`, so in practice both `/query` and `/vision_query` always use the default "en".
- Python's Unicode `\w` and `str.lower` are both approximated by their ASCII parts, as described above.
