/**
 * The `/voice_to_text` route: save the audio part to a fixed temporary
 * path, send it to the transcription endpoint, remove the file and map
 * the endpoint's answer to a `text` reply.  The file store is a set of
 * paths.
 */
module VoiceRoute {
  import opened Wrappers
  import opened Gateway

  const TempAudioPath: string := "temp_audio_file.wav"
  const NoTranscriptText: string := "Sorry, I couldn't transcribe the audio."
  const ServiceErrorText: string := "Sorry, there was an error with the transcription service."

  /** The multipart form: the audio part may be absent. */
  datatype VoiceRequest = VoiceRequest(audio: Option<Bytes>)

  /** What the route did, and which paths exist afterwards. */
  datatype VoiceOutcome = VoiceOutcome(calls: seq<ServiceCall>, reply: Reply, files: set<string>)

  /**
   * The reply for what `requests.post` produced.  An exception from the
   * post itself or from reading a 200 body is not caught by the route and
   * becomes the framework's status 500.
   */
  function TranscriptionReply(result: Call<TranscriptionHttp>): (r: Reply)
    ensures r.Json? ==> r.status == 200 && r.field == TextField
    ensures r.Unhandled? ==> r.status == 500
    ensures r.Unhandled? <==> result.Raised? || (result.value.status == 200 && result.value.text.Raised?)
  {
    match result
    case Raised(_) => Unhandled(500)
    case Returned(http) =>
      if http.status == 200 then
        match http.text
        case Raised(_) => Unhandled(500)
        case Returned(t) => Json(200, TextField, t.GetOr(NoTranscriptText))
      else Json(200, TextField, ServiceErrorText)
  }

  /**
   * The route as written: a missing audio part is rejected with 400 before
   * anything is saved; otherwise the endpoint is called once and its answer
   * mapped.  No other path is touched, but the temporary file is removed
   * after the post only if the post returned, so an exception leaves it
   * behind.
   */
  function VoiceToTextAsWritten(req: VoiceRequest, svc: Services, files: set<string>): (o: VoiceOutcome)
    ensures o.calls == if req.audio.None? then [] else [TranscribeCall(req.audio.value)]
    ensures o.reply.Unhandled? <==>
      req.audio.None? || TranscriptionReply(svc.transcribe(req.audio.value)).Unhandled?
    ensures o.reply.Unhandled? && req.audio.None? ==> o.reply.status == 400
    ensures o.reply.Json? ==> o.reply == TranscriptionReply(svc.transcribe(req.audio.value))
    ensures req.audio.Some? ==> o.reply == TranscriptionReply(svc.transcribe(req.audio.value))
    ensures o.files - {TempAudioPath} == files - {TempAudioPath}
    ensures TempAudioPath in o.files <==>
      (req.audio.None? && TempAudioPath in files) || (req.audio.Some? && svc.transcribe(req.audio.value).Raised?)
  {
    match req.audio
    case None => VoiceOutcome([], Unhandled(400), files)
    case Some(audio) =>
      var saved := files + {TempAudioPath};
      var result := svc.transcribe(audio);
      var after := if result.Raised? then saved else saved - {TempAudioPath};
      VoiceOutcome([TranscribeCall(audio)], TranscriptionReply(result), after)
  }

  /**
   * The route with the removal on every exit path, as in a `finally`
   * clause: it answers and calls as the route as written does, and the
   * temporary file survives only if it was there before a rejected request.
   */
  function VoiceToText(req: VoiceRequest, svc: Services, files: set<string>): (o: VoiceOutcome)
    ensures o.calls == if req.audio.None? then [] else [TranscribeCall(req.audio.value)]
    ensures o.reply.Unhandled? <==>
      req.audio.None? || TranscriptionReply(svc.transcribe(req.audio.value)).Unhandled?
    ensures o.reply.Unhandled? && req.audio.None? ==> o.reply.status == 400
    ensures o.reply.Json? ==> o.reply == TranscriptionReply(svc.transcribe(req.audio.value))
    ensures req.audio.Some? ==> o.reply == TranscriptionReply(svc.transcribe(req.audio.value))
    ensures o.files - {TempAudioPath} == files - {TempAudioPath}
    ensures TempAudioPath in o.files <==> req.audio.None? && TempAudioPath in files
  {
    match req.audio
    case None => VoiceOutcome([], Unhandled(400), files)
    case Some(audio) =>
      var result := svc.transcribe(audio);
      VoiceOutcome([TranscribeCall(audio)], TranscriptionReply(result), files + {TempAudioPath} - {TempAudioPath})
  }

  /** A non-200 status gives the service apology. */
  lemma ServiceErrorApology(req: VoiceRequest, svc: Services, files: set<string>)
    requires req.audio.Some? && svc.transcribe(req.audio.value).Returned?
    requires svc.transcribe(req.audio.value).value.status != 200
    ensures VoiceToTextAsWritten(req, svc, files).reply == Json(200, TextField, ServiceErrorText)
    ensures VoiceToText(req, svc, files).reply == Json(200, TextField, ServiceErrorText)
  {
  }

  /** A 200 answer without a `text` key gives the no-transcript apology; with one, the transcript itself. */
  lemma TranscriptOrApology(req: VoiceRequest, svc: Services, files: set<string>)
    requires req.audio.Some? && svc.transcribe(req.audio.value).Returned?
    requires svc.transcribe(req.audio.value).value.status == 200
    requires svc.transcribe(req.audio.value).value.text.Returned?
    ensures VoiceToTextAsWritten(req, svc, files).reply ==
      Json(200, TextField, svc.transcribe(req.audio.value).value.text.value.GetOr(NoTranscriptText))
    ensures VoiceToText(req, svc, files).reply ==
      Json(200, TextField, svc.transcribe(req.audio.value).value.text.value.GetOr(NoTranscriptText))
  {
  }

  /** The two versions answer alike and call alike; only the file store differs. */
  lemma SameAnswerAsWritten(req: VoiceRequest, svc: Services, files: set<string>)
    ensures VoiceToText(req, svc, files).reply == VoiceToTextAsWritten(req, svc, files).reply
    ensures VoiceToText(req, svc, files).calls == VoiceToTextAsWritten(req, svc, files).calls
  {
  }

  /** As written, a post that raises leaves the temporary file in the store. */
  lemma TempFileLeaksWhenPostRaises(req: VoiceRequest, svc: Services, files: set<string>)
    requires req.audio.Some? && svc.transcribe(req.audio.value).Raised?
    ensures TempAudioPath in VoiceToTextAsWritten(req, svc, files).files
    ensures VoiceToTextAsWritten(req, svc, files).reply == Unhandled(500)
  {
  }

  /**
   * With the removal on every path, no temporary file is left, whatever
   * the endpoint did, and no other path is touched.
   */
  lemma TempFileRemovedOnEveryPath(req: VoiceRequest, svc: Services, files: set<string>)
    ensures TempAudioPath !in VoiceToText(req, svc, files).files || (req.audio.None? && TempAudioPath in files)
    ensures VoiceToText(req, svc, files).files - {TempAudioPath} == files - {TempAudioPath}
  {
  }
}
