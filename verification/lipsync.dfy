/**
 * The lip-sync service: the `lip_sync` helper that runs the model without the
 * HTTP layer, and the upload endpoint (`/lip_sync` in the branch service,
 * `/upload` in the standalone one; both handlers are the same code).  The
 * model run itself (`FaceSwapper(...).run()`, a subprocess) is an oracle.
 */
module LipSync {
  import opened Wrappers
  import opened Text
  import opened Http
  import opened Pads

  const UPLOAD_FOLDER := "/srv/uploads"
  /** `/srv/uploads/output_lip_sync.mp4`, the helper's output file. */
  const LOCAL_OUTPUT := PathJoin(UPLOAD_FOLDER, "output_lip_sync.mp4")
  /** `/srv/uploads/output.mp4`, the endpoint's output file. */
  const ENDPOINT_OUTPUT := PathJoin(UPLOAD_FOLDER, "output.mp4")

  const NO_FILES_LOCAL := "No face video or audio file uploaded."
  const INVALID_PADS := "Invalid padding input. Must be space-separated integers."
  const NO_FILES := "No face or audio file uploaded"
  const INVALID_TYPE := "Invalid file type"
  const COMPLETE := "Processing complete"

  /** The pads handed to the runner: the helper passes re-printed text, the endpoint the parsed list. */
  datatype PadsArg = PadsText(text: string) | PadsList(values: seq<int>)

  /** One run of the lip-sync model. */
  datatype Job = Job(face: string, audio: string, output: string, pads: PadsArg)

  /** What `lip_sync` gives back: a path, a message string, an error dict, or an escaping exception. */
  datatype LocalResult =
    | OutputPath(path: string)
    | Message(text: string)
    | ErrorDict(error: string)
    | Escaped

  /** A result together with the files saved under the upload folder and the run started, if any. */
  datatype LocalOutcome = LocalOutcome(result: LocalResult, saved: seq<string>, job: Option<Job>)

  datatype EndpointOutcome = EndpointOutcome(response: Response, saved: seq<string>, job: Option<Job>)

  /** Where an upload is stored: its sanitised name under the upload folder. */
  function StoredPath(u: Upload, secure: string -> string): string {
    PathJoin(UPLOAD_FOLDER, secure(u.filename))
  }

  /**
   * `lip_sync(face, audio, padding)`.  Falsy files come first; a missing
   * padding (`None.split()`) raises AttributeError, which the helper does not
   * catch; a non-integer token gives the padding message; otherwise both files
   * are saved and the model runs with the canonical text of the pads.
   */
  function LipSyncLocal(face: Option<Upload>, audio: Option<Upload>, padding: Option<string>,
                        secure: string -> string, run: Job -> RunOutcome): (o: LocalOutcome)
    ensures o.result == Message(NO_FILES_LOCAL) <==> !Present(face) || !Present(audio)
    ensures o.result == Escaped <==> Present(face) && Present(audio) && padding.None?
    ensures o.result == Message(INVALID_PADS) <==>
              Present(face) && Present(audio) && padding.Some? && ParsePads(padding.value).Failure?
    ensures o.job.Some? <==>
              Present(face) && Present(audio) && padding.Some? && ParsePads(padding.value).Success?
    ensures o.job.None? ==> o.saved == []
    ensures o.job.Some? ==>
              && o.job.value.pads.PadsText?
              && ParsePads(o.job.value.pads.text) == ParsePads(padding.value)
              && o.job.value.output == LOCAL_OUTPUT
              && o.saved == [o.job.value.face, o.job.value.audio]
              && o.result == (match run(o.job.value)
                              case Completed => OutputPath(LOCAL_OUTPUT)
                              case Raised(m) => ErrorDict(m))
  {
    if !Present(face) || !Present(audio) then
      LocalOutcome(Message(NO_FILES_LOCAL), [], None)
    else if padding.None? then
      LocalOutcome(Escaped, [], None)
    else
      match ParsePads(padding.value)
      case Failure(_) => LocalOutcome(Message(INVALID_PADS), [], None)
      case Success(pads) =>
        var padsText := PrintPads(pads);
        ParsePrintPads(pads);
        var output := LOCAL_OUTPUT;
        // Always taken: the files were checked for truthiness above.
        if Present(face) && Present(audio) then
          var job := Job(StoredPath(face.value, secure), StoredPath(audio.value, secure), output, PadsText(padsText));
          var saved := [job.face, job.audio];
          match run(job)
          case Completed => LocalOutcome(OutputPath(output), saved, Some(job))
          case Raised(m) => LocalOutcome(ErrorDict(m), saved, Some(job))
        else
          LocalOutcome(ErrorDict(INVALID_TYPE), [], None)
  }

  /**
   * The upload endpoint.  `face` and `audio` are the multipart parts (`None`
   * when the part is absent), `pads` the form field.  The pads are parsed
   * after both files are saved and outside the handler's `try`, so a
   * non-integer token escapes as the framework's 500.
   */
  function UploadFile(face: Option<Upload>, audio: Option<Upload>, pads: Option<string>,
                      secure: string -> string, run: Job -> RunOutcome): (o: EndpointOutcome)
    ensures face.None? || audio.None? ==>
              o == EndpointOutcome(Error(BAD_REQUEST, NO_FILES), [], None)
    ensures face.Some? && audio.Some? && (!Present(face) || !Present(audio)) ==>
              o == EndpointOutcome(Error(BAD_REQUEST, INVALID_TYPE), [], None)
    ensures o.response.status == OK <==> o.job.Some? && run(o.job.value) == Completed
    ensures o.job.Some? <==>
              Present(face) && Present(audio) && ParsePads(pads.GetOr(DEFAULT_PADS)).Success?
    ensures Present(face) && Present(audio) && ParsePads(pads.GetOr(DEFAULT_PADS)).Failure? ==>
              o.response == Uncaught && |o.saved| == 2
    ensures o.job.Some? ==>
              && o.saved == [o.job.value.face, o.job.value.audio]
              && o.job.value.output == ENDPOINT_OUTPUT
              && o.job.value.pads == PadsList(ParsePads(pads.GetOr(DEFAULT_PADS)).value)
              && o.response == (match run(o.job.value)
                                case Completed =>
                                  Response(OK, Json(map["message" := COMPLETE, "output" := ENDPOINT_OUTPUT]))
                                case Raised(m) => Error(SERVER_ERROR, m))
  {
    if face.None? || audio.None? then
      EndpointOutcome(Error(BAD_REQUEST, NO_FILES), [], None)
    else
      var text := pads.GetOr(DEFAULT_PADS);
      var output := ENDPOINT_OUTPUT;
      if Present(face) && Present(audio) then
        var facePath := StoredPath(face.value, secure);
        var audioPath := StoredPath(audio.value, secure);
        var saved := [facePath, audioPath];
        match ParsePads(text)
        case Failure(_) => EndpointOutcome(Uncaught, saved, None)
        case Success(values) =>
          var job := Job(facePath, audioPath, output, PadsList(values));
          match run(job)
          case Completed =>
            EndpointOutcome(Response(OK, Json(map["message" := COMPLETE, "output" := output])), saved, Some(job))
          case Raised(m) => EndpointOutcome(Error(SERVER_ERROR, m), saved, Some(job))
      else
        EndpointOutcome(Error(BAD_REQUEST, INVALID_TYPE), [], None)
  }

  /** Without a `pads` field the model runs with the paddings 0, 10, 0, 0. */
  lemma DefaultPadsReachRunner(face: Upload, audio: Upload, secure: string -> string, run: Job -> RunOutcome)
    requires face.filename != "" && audio.filename != ""
    ensures UploadFile(Some(face), Some(audio), None, secure, run).job.Some?
    ensures UploadFile(Some(face), Some(audio), None, secure, run).job.value.pads == PadsList([0, 10, 0, 0])
  {
    DefaultPadsValues();
  }

  /** The helper's "Invalid file type" fallback is never the helper's own verdict. */
  lemma LocalTypeFallbackUnreachable(face: Option<Upload>, audio: Option<Upload>, padding: Option<string>,
                                     secure: string -> string, run: Job -> RunOutcome)
    requires forall j :: run(j) != Raised(INVALID_TYPE)
    ensures LipSyncLocal(face, audio, padding, secure, run).result != ErrorDict(INVALID_TYPE)
  {
  }
}
