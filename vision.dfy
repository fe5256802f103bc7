/**
 * The `/vision_query` route: validate the form, upload the image, then
 * translate the prompt, ask the model about text and image together and
 * translate the answer.  Validation and upload failures return before
 * any translation or model call.
 */
module VisionRoute {
  import opened Wrappers
  import opened Chat
  import opened Gateway

  /** The multipart form: the image part and the two text fields may each be absent. */
  datatype VisionRequest = VisionRequest(image: Option<Bytes>, text: Option<string>, language: Option<string>)

  const NoImageError: string := "No image file uploaded"
  const NoPromptError: string := "Text prompt is required"
  const NoUrlError: string := "Failed to upload image to Cloudinary"
  const UploadErrorPrefix: string := "Cloudinary upload failed: "
  const VisionErrorPrefix: string := "Error processing vision query: "

  function Prompt(req: VisionRequest): string
  {
    req.text.GetOr("")
  }

  function Language(req: VisionRequest): string
  {
    req.language.GetOr(Pivot)
  }

  function ErrorReply(status: nat, text: string): Reply
  {
    Json(status, ErrorField, text)
  }

  /**
   * From the prompt translation on, once the image is at `url`.  It calls
   * only the translator and the model, answers 200 with a `response` or 500
   * with an `error`, and answers 200 only after the model was asked about
   * the image at `url`.
   */
  function Answer(svc: Services, language: string, prompt: string, url: string): (o: Outcome)
    ensures o.reply.Json? && o.reply.status in {200, 500}
    ensures o.reply.field == (if o.reply.status == 200 then ResponseField else ErrorField)
    ensures forall c :: c in o.calls ==> c.TranslateCall? || c.ChatCall?
    ensures o.reply.status == 200 ==> exists text :: ChatCall(VisionCompletion(text, url)) in o.calls
  {
    var input := Translation(svc, language, ToPivot, prompt);
    match input.result
    case Raised(d) => Outcome(input.calls, ErrorReply(500, InputErrorPrefix + d))
    case Returned(text) =>
      var completion := VisionCompletion(text, url);
      var calls := input.calls + [ChatCall(completion)];
      match CollectReply(svc.chat(completion))
      case Raised(d) => Outcome(calls, ErrorReply(500, VisionErrorPrefix + d))
      case Returned(reply) =>
        var output := Translation(svc, language, FromPivot, reply);
        match output.result
        case Raised(d) => Outcome(calls + output.calls, ErrorReply(500, OutputErrorPrefix + d))
        case Returned(r) => Outcome(calls + output.calls, Json(200, ResponseField, r))
  }

  /**
   * The whole route.  Status 200 comes only with a `response`, every other
   * status with an `error`; a 400 calls no service at all.
   */
  function VisionQuery(req: VisionRequest, svc: Services): (o: Outcome)
    ensures o.reply.Json? && o.reply.status in {200, 400, 500}
    ensures o.reply.status == 200 <==> o.reply.field == ResponseField
    ensures o.reply.status != 200 ==> o.reply.field == ErrorField
    ensures o.reply.status == 400 ==> o.calls == []
  {
    match req.image
    case None => Outcome([], ErrorReply(400, NoImageError))
    case Some(image) =>
      if Prompt(req) == "" then Outcome([], ErrorReply(400, NoPromptError))
      else
        var uploaded := svc.upload(image);
        if uploaded.Raised? then Outcome([UploadCall(image)], ErrorReply(500, UploadErrorPrefix + uploaded.detail))
        else
          match ImageUrl(uploaded)
          case None => Outcome([UploadCall(image)], ErrorReply(500, NoUrlError))
          case Some(url) =>
            var rest := Answer(svc, Language(req), Prompt(req), url);
            Outcome([UploadCall(image)] + rest.calls, rest.reply)
  }

  /** Check 1: no image part. */
  lemma MissingImage(req: VisionRequest, svc: Services)
    requires req.image.None?
    ensures VisionQuery(req, svc) == Outcome([], ErrorReply(400, NoImageError))
  {
  }

  /** Check 2: an image but an absent or empty prompt. */
  lemma MissingPrompt(req: VisionRequest, svc: Services)
    requires req.image.Some? && (req.text.None? || req.text.value == "")
    ensures VisionQuery(req, svc) == Outcome([], ErrorReply(400, NoPromptError))
  {
  }

  /** Check 3: the upload raised, or gave no URL or an empty one; only the upload was called. */
  lemma UploadFails(req: VisionRequest, svc: Services)
    requires req.image.Some? && Prompt(req) != ""
    requires ImageUrl(svc.upload(req.image.value)).None?
    ensures VisionQuery(req, svc).calls == [UploadCall(req.image.value)]
    ensures VisionQuery(req, svc).reply ==
      if svc.upload(req.image.value).Raised?
      then ErrorReply(500, UploadErrorPrefix + svc.upload(req.image.value).detail)
      else ErrorReply(500, NoUrlError)
  {
  }

  /**
   * The translator and the model are reached only past every check: an
   * image, a non-empty prompt, and a URL from an upload that came first.
   */
  lemma ChecksPrecedeTranslationAndModel(req: VisionRequest, svc: Services)
    requires exists c :: c in VisionQuery(req, svc).calls && (c.TranslateCall? || c.ChatCall?)
    ensures req.image.Some? && Prompt(req) != ""
    ensures ImageUrl(svc.upload(req.image.value)).Some?
    ensures VisionQuery(req, svc).calls[0] == UploadCall(req.image.value)
  {
  }

  /** The model is asked about the prompt in the pivot language together with the uploaded image. */
  lemma ModelSeesUploadedImage(req: VisionRequest, svc: Services, c: Completion)
    requires ChatCall(c) in VisionQuery(req, svc).calls
    ensures req.image.Some? && ImageUrl(svc.upload(req.image.value)).Some?
    ensures Translation(svc, Language(req), ToPivot, Prompt(req)).result.Returned?
    ensures c == VisionCompletion(Translation(svc, Language(req), ToPivot, Prompt(req)).result.value,
                                  ImageUrl(svc.upload(req.image.value)).value)
  {
    var image := req.image.value;
    var url := ImageUrl(svc.upload(image)).value;
    var input := Translation(svc, Language(req), ToPivot, Prompt(req));
    var rest := Answer(svc, Language(req), Prompt(req), url);
    assert ChatCall(c) in rest.calls;
  }

  /** For the pivot language the translator is never called. */
  lemma PivotLanguageNeverTranslates(req: VisionRequest, svc: Services)
    requires Language(req) == Pivot
    ensures forall c :: c in VisionQuery(req, svc).calls ==> !c.TranslateCall?
  {
  }

  /** For the pivot language and a complete stream the answer is the concatenated chunks. */
  lemma PivotLanguageAnswer(req: VisionRequest, svc: Services, chunks: seq<Chunk>)
    requires Language(req) == Pivot && req.image.Some? && Prompt(req) != ""
    requires ImageUrl(svc.upload(req.image.value)).Some?
    requires svc.chat(VisionCompletion(Prompt(req), ImageUrl(svc.upload(req.image.value)).value))
      == Returned(Stream(chunks, Finished))
    requires AllPresent(chunks)
    ensures VisionQuery(req, svc).reply == Json(200, ResponseField, Concat(chunks))
  {
  }

  /**
   * Past the upload, a failed prompt translation, a failed model call and a
   * failed translation of the model's reply each end the request with 500
   * and their own prefix.
   */
  lemma VisionStepFails(req: VisionRequest, svc: Services)
    requires req.image.Some? && Prompt(req) != ""
    requires ImageUrl(svc.upload(req.image.value)).Some?
    ensures var input := Translation(svc, Language(req), ToPivot, Prompt(req));
      input.result.Raised? ==>
        VisionQuery(req, svc).reply == Json(500, ErrorField, InputErrorPrefix + input.result.detail)
    ensures var input := Translation(svc, Language(req), ToPivot, Prompt(req));
      var url := ImageUrl(svc.upload(req.image.value)).value;
      input.result.Returned? && CollectReply(svc.chat(VisionCompletion(input.result.value, url))).Raised? ==>
        VisionQuery(req, svc).reply ==
          Json(500, ErrorField, VisionErrorPrefix + CollectReply(svc.chat(VisionCompletion(input.result.value, url))).detail)
    ensures var input := Translation(svc, Language(req), ToPivot, Prompt(req));
      var url := ImageUrl(svc.upload(req.image.value)).value;
      input.result.Returned? ==>
        var reply := CollectReply(svc.chat(VisionCompletion(input.result.value, url)));
        reply.Returned? && Translation(svc, Language(req), FromPivot, reply.value).result.Raised? ==>
          VisionQuery(req, svc).reply ==
            Json(500, ErrorField, OutputErrorPrefix + Translation(svc, Language(req), FromPivot, reply.value).result.detail)
  {
  }

  /**
   * For another language a complete model reply is translated back: the
   * prompt translation, the model, the reply translation, in that order,
   * and the translation is the 200 reply.
   */
  lemma VisionAnswerTranslated(svc: Services, language: string, prompt: string, url: string,
                                text: string, chunks: seq<Chunk>, answer: string)
    requires language != Pivot
    requires svc.translate("auto", Pivot, prompt) == Returned(text)
    requires svc.chat(VisionCompletion(text, url)) == Returned(Stream(chunks, Finished)) && AllPresent(chunks)
    requires svc.translate(Pivot, language, Concat(chunks)) == Returned(answer)
    ensures Answer(svc, language, prompt, url) ==
      Outcome([TranslateCall("auto", Pivot, prompt), ChatCall(VisionCompletion(text, url)),
               TranslateCall(Pivot, language, Concat(chunks))],
              Json(200, ResponseField, answer))
  {
  }

  /** No call follows one that failed. */
  lemma VisionStopsAtFirstFailure(req: VisionRequest, svc: Services)
    ensures StopsAtFirstFailure(svc, VisionQuery(req, svc).calls)
  {
  }
}
