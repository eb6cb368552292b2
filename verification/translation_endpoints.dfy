/**
 * The HTTP front ends of speech translation: `/translate` of the standalone
 * translation API, `/predict` of the translation service built on the
 * `AudioProcessor` class, and `/translate` of the branch service.  The JSON
 * body is a record of optional fields; a body that is not JSON makes
 * `data.get` raise.
 */
module TranslationEndpoints {
  import opened Wrappers
  import opened Http
  import opened Translation

  /** The fields a translation request may carry (`None` when absent). */
  datatype TranslateRequest = TranslateRequest(
    prompt: Option<string>,
    language: Option<string>,
    transLang: Option<string>,
    audioPath: Option<string>,
    micPath: Option<string>,
    useMic: Option<bool>,
    voiceCleanup: Option<bool>,
    noAutoDetect: Option<bool>)

  /** The reference-voice settings of a request; both flags default to false. */
  function VoiceOf(r: TranslateRequest): Voice {
    Voice(r.audioPath, r.micPath, r.useMic.GetOr(false), r.voiceCleanup.GetOr(false))
  }

  const MISSING_PARAMETERS := "Missing required parameters."
  const NEED_AUDIO := "Audio file path is required when not using microphone."
  const NO_AUDIO := "No audio file provided."
  const NO_TRANSCRIPT := "Unable to transcribe audio."
  const NO_TRANSLATION := "Unable to translate text."
  const NO_SPEECH := "Unable to generate speech."

  /** How the standalone API calls `predict`: text, target language, reference voice, auto-detection switch. */
  type Speech = (Option<string>, Option<string>, Voice, bool) -> Prediction

  /** The request passes the standalone API's checks: prompt, language and target language, and an audio path unless the microphone is used. */
  predicate ApiValidated(body: Option<TranslateRequest>) {
    && body.Some?
    && Truthy(body.value.prompt) && Truthy(body.value.language) && Truthy(body.value.transLang)
    && (body.value.useMic.GetOr(false) || Truthy(body.value.audioPath))
  }

  /**
   * `/translate` of the standalone API, with the `predict` it calls as
   * `speak`.  Prompt, language and target language are required, and so
   * is an audio path unless the microphone is used.  The transcription
   * branch runs only for an empty prompt, which the first check has already
   * refused.  The text is translated (`None` or empty gives 400) and
   * synthesised in the target language; `None` from `predict` gives 500
   * and an exception escapes.
   */
  function ApiTranslateWith(body: Option<TranslateRequest>, transcribe: Option<string> -> Option<string>,
                            translate: (string, string, Option<string>) -> Option<string>, speak: Speech): (resp: Response)
    ensures body.None? ==> resp == Uncaught
    ensures body.Some? && (!Truthy(body.value.prompt) || !Truthy(body.value.language) || !Truthy(body.value.transLang)) ==>
              resp == Error(BAD_REQUEST, MISSING_PARAMETERS)
    ensures body.Some? && Truthy(body.value.prompt) && Truthy(body.value.language) && Truthy(body.value.transLang)
            && !body.value.useMic.GetOr(false) && !Truthy(body.value.audioPath) ==>
              resp == Error(BAD_REQUEST, NEED_AUDIO)
    ensures ApiValidated(body) ==>
              var r := body.value;
              var text := translate(r.prompt.value, r.language.value, r.transLang);
              && (!Truthy(text) ==> resp == Error(BAD_REQUEST, NO_TRANSLATION))
              && (Truthy(text) ==>
                    var p := speak(text, r.transLang, VoiceOf(r), r.noAutoDetect.GetOr(false));
                    && (p.Generated? <==> resp.status == OK)
                    && (p.Generated? ==> resp == Response(OK, FileDownload(p.path)))
                    && (p.NoResult? ==> resp == Error(SERVER_ERROR, NO_SPEECH))
                    && (p.PredictCrashed? ==> resp == Uncaught))
  {
    if body.None? then Uncaught
    else
      var r := body.value;
      var useMic := r.useMic.GetOr(false);
      if !Truthy(r.prompt) || !Truthy(r.language) || !Truthy(r.transLang) then
        Error(BAD_REQUEST, MISSING_PARAMETERS)
      else if !useMic && !Truthy(r.audioPath) then
        Error(BAD_REQUEST, NEED_AUDIO)
      else
        var transcribed: Option<string> :=
          if !Truthy(r.prompt) then transcribe(if useMic then r.micPath else r.audioPath) else None;
        if !Truthy(r.prompt) && !Truthy(r.audioPath) && !Truthy(r.micPath) then
          Error(BAD_REQUEST, NO_AUDIO)
        else if !Truthy(r.prompt) && !Truthy(transcribed) then
          Error(BAD_REQUEST, NO_TRANSCRIPT)
        else
          var source := if Truthy(transcribed) then transcribed.GetOr("") else r.prompt.GetOr("");
          var translated := translate(source, r.language.GetOr(""), r.transLang);
          if !Truthy(translated) then
            Error(BAD_REQUEST, NO_TRANSLATION)
          else
            match speak(translated, r.transLang, VoiceOf(r), r.noAutoDetect.GetOr(false))
            case Generated(path, _) => Response(OK, FileDownload(path))
            case NoResult => Error(SERVER_ERROR, NO_SPEECH)
            case PredictCrashed(_) => Uncaught
  }

  /** `/translate` of the standalone API with the merged audio exported to a file, as intended. */
  function ApiTranslate(body: Option<TranslateRequest>, transcribe: Option<string> -> Option<string>,
                        translate: (string, string, Option<string>) -> Option<string>, e: Engine): (resp: Response)
    ensures resp.status == OK <==>
              && ApiValidated(body)
              && var r := body.value;
                 var text := translate(r.prompt.value, r.language.value, r.transLang);
                 Truthy(text) && Predict(text, r.transLang, VoiceOf(r), r.noAutoDetect.GetOr(false), Api, e).Generated?
    ensures resp.status == OK ==> resp.body == FileDownload(API_OUTPUT)
  {
    ApiTranslateWith(body, transcribe, translate, (t, l, v, n) => Predict(t, l, v, n, Api, e))
  }

  /**
   * `/translate` of the standalone API as written: whenever the intended
   * handler would send the file, the export has raised instead, and every
   * other answer is the same.
   */
  function ApiTranslateAsWritten(body: Option<TranslateRequest>, transcribe: Option<string> -> Option<string>,
                                 translate: (string, string, Option<string>) -> Option<string>, e: Engine): (resp: Response)
    ensures resp.status != OK
    ensures ApiTranslate(body, transcribe, translate, e).status == OK ==> resp == Uncaught
    ensures ApiTranslate(body, transcribe, translate, e).status != OK ==> resp == ApiTranslate(body, transcribe, translate, e)
  {
    ApiTranslateWith(body, transcribe, translate, (t, l, v, n) => ApiPredictAsWritten(t, l, v, n, e))
  }

  /** The transcription branch of `/translate` is dead: no transcriber changes any answer. */
  lemma TranscriptionUnreachable(body: Option<TranslateRequest>, t1: Option<string> -> Option<string>,
                                 t2: Option<string> -> Option<string>,
                                 translate: (string, string, Option<string>) -> Option<string>, e: Engine)
    ensures ApiTranslate(body, t1, translate, e) == ApiTranslate(body, t2, translate, e)
  {
  }

  /** An unsupported target language is answered with 500 after the translation. */
  lemma ApiUnsupportedTarget(r: TranslateRequest, transcribe: Option<string> -> Option<string>,
                             translate: (string, string, Option<string>) -> Option<string>, e: Engine)
    requires Truthy(r.prompt) && Truthy(r.language) && Truthy(r.transLang)
    requires r.useMic.GetOr(false) || Truthy(r.audioPath)
    requires Truthy(translate(r.prompt.value, r.language.value, r.transLang))
    requires r.transLang.value !in e.supported
    ensures ApiTranslate(Some(r), transcribe, translate, e) == Error(SERVER_ERROR, NO_SPEECH)
  {
  }

  const NEED_PROMPT := "Prompt and language are required"
  const PROCESSING_ERROR := "Error processing the request"

  /**
   * `/predict` of the translation service.  Only prompt and language are
   * checked; the target language may be missing.  The translation (which
   * answers `None` on failure) runs before `predict`, whose exceptions are
   * caught and reported with their message.
   */
  function ServicePredict(body: Option<TranslateRequest>, translate: (string, string, Option<string>) -> Option<string>,
                          e: Engine): (resp: Response)
    ensures body.None? ==> resp == Uncaught
    ensures body.Some? && (!Truthy(body.value.prompt) || !Truthy(body.value.language)) ==>
              resp == Error(BAD_REQUEST, NEED_PROMPT)
    ensures body.Some? && Truthy(body.value.prompt) && Truthy(body.value.language) ==>
              var r := body.value;
              var p := Predict(translate(r.prompt.value, r.language.value, r.transLang), r.transLang,
                               VoiceOf(r), r.noAutoDetect.GetOr(false), Processor, e);
              && (p.Generated? <==> resp.status == OK)
              && (p.Generated? ==> resp.body == FileDownload(PROCESSOR_OUTPUT))
              && (p.NoResult? ==> resp == Error(SERVER_ERROR, PROCESSING_ERROR))
              && (p.PredictCrashed? ==> resp == Error(SERVER_ERROR, p.message))
  {
    if body.None? then Uncaught
    else
      var r := body.value;
      if !Truthy(r.prompt) || !Truthy(r.language) then
        Error(BAD_REQUEST, NEED_PROMPT)
      else
        var translated := translate(r.prompt.value, r.language.value, r.transLang);
        match Predict(translated, r.transLang, VoiceOf(r), r.noAutoDetect.GetOr(false), Processor, e)
        case Generated(path, _) => if path != "" then Response(OK, FileDownload(path)) else Error(SERVER_ERROR, PROCESSING_ERROR)
        case NoResult => Error(SERVER_ERROR, PROCESSING_ERROR)
        case PredictCrashed(m) => Error(SERVER_ERROR, m)
  }

  /** The service never lets an exception of `predict` escape: every answer past validation is 200 or 500. */
  lemma ServiceAnswersPastValidation(r: TranslateRequest, translate: (string, string, Option<string>) -> Option<string>, e: Engine)
    requires Truthy(r.prompt) && Truthy(r.language)
    ensures ServicePredict(Some(r), translate, e).status in {OK, SERVER_ERROR}
    ensures ServicePredict(Some(r), translate, e) != Uncaught
  {
  }

  /** A call into the branch service's `AudioProcessor`, which is not part of this model: a value, or an exception. */
  datatype Call<T> = Returned(value: T) | Threw(message: string)

  /** The branch service's processor, as seen by its endpoint. */
  datatype BranchProcessor = BranchProcessor(
    transcribe: (string, Option<string>, bool) -> Call<Option<string>>,
    translate: (Option<string>, Option<string>, string, bool) -> Call<Option<string>>,
    predict: (Option<string>, string, Voice, bool) -> Call<Option<string>>)

  const NEED_AUDIO_AND_TARGET := "Audio and translation language are required"

  /** The text the branch endpoint synthesises: the prompt, or for an empty prompt the transcribed audio, translated. */
  function BranchText(r: TranslateRequest, noAutoDetect: bool, bp: BranchProcessor): (c: Call<Option<string>>)
    requires Truthy(r.audioPath) && Truthy(r.transLang)
    ensures Truthy(r.prompt) ==> c == bp.translate(r.prompt, r.language, r.transLang.value, noAutoDetect)
    ensures !Truthy(r.prompt) && bp.transcribe(r.audioPath.value, r.language, noAutoDetect).Threw? ==>
              c == bp.transcribe(r.audioPath.value, r.language, noAutoDetect)
    ensures !Truthy(r.prompt) && bp.transcribe(r.audioPath.value, r.language, noAutoDetect).Returned? ==>
              c == bp.translate(bp.transcribe(r.audioPath.value, r.language, noAutoDetect).value,
                                r.language, r.transLang.value, noAutoDetect)
  {
    if !Truthy(r.prompt) then
      match bp.transcribe(r.audioPath.value, r.language, noAutoDetect)
      case Threw(m) => Threw(m)
      case Returned(transcript) => bp.translate(transcript, r.language, r.transLang.value, noAutoDetect)
    else
      bp.translate(r.prompt, r.language, r.transLang.value, noAutoDetect)
  }

  /**
   * `/translate` of the branch service.  Audio path and target language are
   * required; auto-detection is off unless the request turns it on; the
   * transcription and translation run outside the `try`, `predict` inside.
   */
  function BranchTranslate(body: Option<TranslateRequest>, bp: BranchProcessor): (resp: Response)
    ensures body.None? ==> resp == Uncaught
    ensures body.Some? && (!Truthy(body.value.audioPath) || !Truthy(body.value.transLang)) ==>
              resp == Error(BAD_REQUEST, NEED_AUDIO_AND_TARGET)
    ensures body.Some? && Truthy(body.value.audioPath) && Truthy(body.value.transLang) ==>
              var r := body.value;
              var noAuto := r.noAutoDetect.GetOr(true);
              var text := BranchText(r, noAuto, bp);
              && (text.Threw? ==> resp == Uncaught)
              && (text.Returned? ==>
                    var p := bp.predict(text.value, r.transLang.value, VoiceOf(r), noAuto);
                    && (p.Threw? ==> resp == Error(SERVER_ERROR, p.message))
                    && (p.Returned? && Truthy(p.value) ==> resp == Response(OK, FileDownload(p.value.value)))
                    && (p.Returned? && !Truthy(p.value) ==> resp == Error(SERVER_ERROR, PROCESSING_ERROR)))
  {
    if body.None? then Uncaught
    else
      var r := body.value;
      if !Truthy(r.audioPath) || !Truthy(r.transLang) then
        Error(BAD_REQUEST, NEED_AUDIO_AND_TARGET)
      else
        var noAuto := r.noAutoDetect.GetOr(true);
        match BranchText(r, noAuto, bp)
        case Threw(_) => Uncaught
        case Returned(text) =>
          match bp.predict(text, r.transLang.value, VoiceOf(r), noAuto)
          case Threw(m) => Error(SERVER_ERROR, m)
          case Returned(path) =>
            if Truthy(path) then Response(OK, FileDownload(path.value)) else Error(SERVER_ERROR, PROCESSING_ERROR)
  }

  /** With a prompt, the branch endpoint never consults the transcriber. */
  lemma BranchPromptSkipsTranscription(r: TranslateRequest, bp: BranchProcessor,
                                       other: (string, Option<string>, bool) -> Call<Option<string>>)
    requires Truthy(r.prompt)
    ensures BranchTranslate(Some(r), bp) == BranchTranslate(Some(r), bp.(transcribe := other))
  {
  }

  /** Without a prompt, a transcriber that raises brings the framework's 500. */
  lemma BranchTranscriptionFailureEscapes(r: TranslateRequest, bp: BranchProcessor)
    requires !Truthy(r.prompt) && Truthy(r.audioPath) && Truthy(r.transLang)
    requires bp.transcribe(r.audioPath.value, r.language, r.noAutoDetect.GetOr(true)).Threw?
    ensures BranchTranslate(Some(r), bp) == Uncaught
  {
  }
}
