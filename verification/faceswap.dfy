/**
 * The face-swap services: the first service's `/upload` (validate, store,
 * then forward to the swap service found through ngrok), the swap service's
 * `/swap` and `/status`, and the branch service that downloads its inputs
 * from Google Drive.  The swap model, ngrok, Drive downloads and the
 * forwarding HTTP call are parameters.
 */
module FaceSwap {
  import opened Wrappers
  import opened Text
  import opened Http
  import opened Registry
  import opened Uploads
  import opened Tunnels
  import opened Drive

  const APP1_DIRS := Dirs("/content/srv/videos", "/content/srv/backgrounds", "/content/srv/uploads")

  /** The local port of the swap service, whose ngrok tunnel the first service looks up. */
  const SWAP_PORT := 5001

  const REQUIRED_KEYS: set<string> := {"image_path", "text_data", "audio_path", "chosen_video_path", "chosen_background_path"}

  const INVALID_INPUT := "Invalid input data."
  const SWAP_DONE := "Face swapping completed"
  const NO_TUNNEL := "Unable to retrieve ngrok URL for App 2."
  const NO_CONTACT := "Failed to contact second Flask app."

  /**
   * A JSON request body as the swap service sees it: `None` when there is
   * none, otherwise the top-level keys of the object.
   */
  type SwapBody = Option<set<string>>

  /**
   * `POST /swap` of the swap service: the body must be a non-empty object
   * holding the five record keys; the swap itself reads paths fixed at
   * start-up and writes `outputPath`.
   */
  function SwapFaces(body: SwapBody, swap: RunOutcome, outputPath: string): (resp: Response)
    ensures resp.status == BAD_REQUEST <==> body.None? || !(REQUIRED_KEYS <= body.value)
    ensures resp.status == BAD_REQUEST ==> resp == Error(BAD_REQUEST, INVALID_INPUT)
    ensures resp.status == OK <==> body.Some? && REQUIRED_KEYS <= body.value && swap.Completed?
    ensures resp.status == OK ==> resp.body == Json(map["message" := SWAP_DONE, "output_path" := outputPath])
    ensures resp.status == SERVER_ERROR ==> swap.Raised? && resp == Error(SERVER_ERROR, swap.message)
  {
    if body.None? || body.value == {} || !(REQUIRED_KEYS <= body.value) then
      Error(BAD_REQUEST, INVALID_INPUT)
    else
      match swap
      case Completed => Response(OK, Json(map["message" := SWAP_DONE, "output_path" := outputPath]))
      case Raised(m) => Error(SERVER_ERROR, m)
  }

  /** Once the body is accepted, what it holds beyond the keys makes no difference. */
  lemma SwapIgnoresBody(a: set<string>, b: set<string>, swap: RunOutcome, outputPath: string)
    requires REQUIRED_KEYS <= a && REQUIRED_KEYS <= b
    ensures SwapFaces(Some(a), swap, outputPath) == SwapFaces(Some(b), swap, outputPath)
  {
  }

  /** `GET /status` of either swap service. */
  function Status(): (resp: Response)
    ensures resp.status == OK
  {
    Response(OK, Json(map["status" := "Server is running"]))
  }

  /** What the first service sends to the swap service. */
  datatype Payload =
    | Wrapped(data: Record)   // {'data': record}, as the first service builds it
    | Bare(data: Record)      // the record itself

  function KeysOf(p: Payload): (keys: set<string>)
    ensures p.Wrapped? ==> keys == {"data"}
    ensures p.Bare? ==> keys == p.data.Keys
  {
    match p
    case Wrapped(_) => {"data"}
    case Bare(data) => data.Keys
  }

  /** The reply of the forwarding `requests.post`, or an exception while making it or decoding it. */
  datatype PostReply = Replied(response: Response) | PostFailed

  /** The end of the first service's `/upload` once the record is saved: find the tunnel, forward, relay. */
  function Forward(payload: Payload, reply: TunnelReply, post: (string, Payload) -> PostReply): (resp: Response)
    ensures !Truthy(GetNgrokUrl(reply, SWAP_PORT)) ==> resp == Error(SERVER_ERROR, NO_TUNNEL)
    ensures Truthy(GetNgrokUrl(reply, SWAP_PORT)) ==>
              var sent := post(GetNgrokUrl(reply, SWAP_PORT).value + "/swap", payload);
              resp == (if sent.Replied? then sent.response else Error(SERVER_ERROR, NO_CONTACT))
  {
    var url := GetNgrokUrl(reply, SWAP_PORT);
    if !Truthy(url) then
      Error(SERVER_ERROR, NO_TUNNEL)
    else
      match post(url.value + "/swap", payload)
      case Replied(resp) => resp
      case PostFailed => Error(SERVER_ERROR, NO_CONTACT)
  }

  /**
   * The first service's `POST /upload` as written: validation, `save_metadata`
   * (exceptions escape), then the record forwarded wrapped as `{'data': record}`.
   */
  function App1Upload(form: UploadForm, disk: set<string>, secure: string -> string, meta: MetaFile,
                      reply: TunnelReply, post: (string, Payload) -> PostReply): (h: Handled)
    ensures CheckUpload(form, APP1_DIRS, disk, secure).Refused? ==>
              h == Handled(CheckUpload(form, APP1_DIRS, disk, secure).response,
                           CheckUpload(form, APP1_DIRS, disk, secure).saved, meta)
    ensures CheckUpload(form, APP1_DIRS, disk, secure).Accepted? ==>
              var record := CheckUpload(form, APP1_DIRS, disk, secure).record;
              && (SaveMetadata(meta, record).Failure? ==> h.response == Uncaught && h.meta == meta)
              && (SaveMetadata(meta, record).Success? ==>
                    && h.meta == SaveMetadata(meta, record).value
                    && h.response == Forward(Wrapped(record), reply, post))
  {
    match CheckUpload(form, APP1_DIRS, disk, secure)
    case Refused(resp, saved) => Handled(resp, saved, meta)
    case Accepted(record, saved) =>
      match SaveMetadata(meta, record)
      case Failure(_) => Handled(Uncaught, saved, meta)
      case Success(meta') => Handled(Forward(Wrapped(record), reply, post), saved, meta')
  }

  /** The first service's `/upload` forwarding the record itself, which is what the swap service checks. */
  function App1UploadCorrected(form: UploadForm, disk: set<string>, secure: string -> string, meta: MetaFile,
                               reply: TunnelReply, post: (string, Payload) -> PostReply): (h: Handled)
    ensures CheckUpload(form, APP1_DIRS, disk, secure).Refused? ==>
              h == Handled(CheckUpload(form, APP1_DIRS, disk, secure).response,
                           CheckUpload(form, APP1_DIRS, disk, secure).saved, meta)
    ensures CheckUpload(form, APP1_DIRS, disk, secure).Accepted? ==>
              var record := CheckUpload(form, APP1_DIRS, disk, secure).record;
              && (SaveMetadata(meta, record).Failure? ==> h.response == Uncaught && h.meta == meta)
              && (SaveMetadata(meta, record).Success? ==>
                    && h.meta == SaveMetadata(meta, record).value
                    && h.response == Forward(Bare(record), reply, post))
  {
    match CheckUpload(form, APP1_DIRS, disk, secure)
    case Refused(resp, saved) => Handled(resp, saved, meta)
    case Accepted(record, saved) =>
      match SaveMetadata(meta, record)
      case Failure(_) => Handled(Uncaught, saved, meta)
      case Success(meta') => Handled(Forward(Bare(record), reply, post), saved, meta')
  }

  /** The forwarding call reaches this deployment's swap service, whose swap ends with `swap`. */
  ghost predicate ReachesSwapService(post: (string, Payload) -> PostReply, swap: RunOutcome, outputPath: string) {
    forall url, p :: post(url, p) == Replied(SwapFaces(Some(KeysOf(p)), swap, outputPath))
  }

  /** An upload that gets as far as forwarding. */
  predicate ForwardsRecord(form: UploadForm, disk: set<string>, secure: string -> string, meta: MetaFile, reply: TunnelReply) {
    && CheckUpload(form, APP1_DIRS, disk, secure).Accepted?
    && SaveMetadata(meta, CheckUpload(form, APP1_DIRS, disk, secure).record).Success?
    && Truthy(GetNgrokUrl(reply, SWAP_PORT))
  }

  /** An upload that gets as far as forwarding answers with whatever the forwarding answers. */
  lemma ForwardedResponses(form: UploadForm, disk: set<string>, secure: string -> string, meta: MetaFile,
                           reply: TunnelReply, post: (string, Payload) -> PostReply)
    requires ForwardsRecord(form, disk, secure, meta, reply)
    ensures var record := CheckUpload(form, APP1_DIRS, disk, secure).record;
            && App1Upload(form, disk, secure, meta, reply, post).response == Forward(Wrapped(record), reply, post)
            && App1UploadCorrected(form, disk, secure, meta, reply, post).response == Forward(Bare(record), reply, post)
  {
  }

  /**
   * As written, the swap service always refuses what the first service
   * forwards: the five keys sit under 'data', not at the top level.
   */
  lemma ForwardedUploadRejected(form: UploadForm, disk: set<string>, secure: string -> string, meta: MetaFile,
                                reply: TunnelReply, post: (string, Payload) -> PostReply,
                                swap: RunOutcome, outputPath: string)
    requires ReachesSwapService(post, swap, outputPath)
    requires ForwardsRecord(form, disk, secure, meta, reply)
    ensures App1Upload(form, disk, secure, meta, reply, post).response == Error(BAD_REQUEST, INVALID_INPUT)
  {
    var url := GetNgrokUrl(reply, SWAP_PORT).value + "/swap";
    var record := CheckUpload(form, APP1_DIRS, disk, secure).record;
    var resp := App1Upload(form, disk, secure, meta, reply, post).response;
    ForwardedResponses(form, disk, secure, meta, reply, post);
    assert post(url, Wrapped(record)) == Replied(SwapFaces(Some({"data"}), swap, outputPath));
    assert "image_path" in REQUIRED_KEYS && "image_path" !in {"data"};
  }

  /** Forwarding the record itself, the swap service accepts it and its own outcome comes back. */
  lemma CorrectedUploadSwaps(form: UploadForm, disk: set<string>, secure: string -> string, meta: MetaFile,
                             reply: TunnelReply, post: (string, Payload) -> PostReply,
                             swap: RunOutcome, outputPath: string)
    requires ReachesSwapService(post, swap, outputPath)
    requires ForwardsRecord(form, disk, secure, meta, reply)
    ensures App1UploadCorrected(form, disk, secure, meta, reply, post).response.status == OK <==> swap.Completed?
    ensures App1UploadCorrected(form, disk, secure, meta, reply, post).response.status != BAD_REQUEST
  {
    var url := GetNgrokUrl(reply, SWAP_PORT).value + "/swap";
    var record := CheckUpload(form, APP1_DIRS, disk, secure).record;
    AcceptedRecordKeys(form, APP1_DIRS, disk, secure);
    var resp := App1UploadCorrected(form, disk, secure, meta, reply, post).response;
    ForwardedResponses(form, disk, secure, meta, reply, post);
    assert post(url, Bare(record)) == Replied(SwapFaces(Some(record.Keys), swap, outputPath));
    assert resp == SwapFaces(Some(record.Keys), swap, outputPath);
    assert record.Keys == REQUIRED_KEYS;
  }

  const INPUT_IMAGE := "/srv/input_images/input_image.jpg"
  const INPUT_VIDEO := "/srv/input_videos/input_video.mp4"
  const MISSING_URLS := "All inputs (image and video) are required."

  /** `https://drive.google.com/uc?id=<id>`, the URL handed to gdown. */
  function DownloadUrl(id: string): string {
    "https://drive.google.com/uc?id=" + id
  }

  /** The record the branch service stores: the two fixed download targets. */
  function BranchRecord(): (r: Record)
    ensures r.Keys == {"image_path", "chosen_video_path"}
    ensures r["image_path"] == INPUT_IMAGE && r["chosen_video_path"] == INPUT_VIDEO
  {
    map["image_path" := INPUT_IMAGE, "chosen_video_path" := INPUT_VIDEO]
  }

  /**
   * `download_from_google_drive(url, path)`: the id is cut out of the share
   * link (IndexError without "/d/") and handed to gdown, here `download`,
   * which may raise.  On success the path is returned as written.
   */
  function DownloadFromDrive(url: string, path: string, download: (string, string) -> RunOutcome): (r: Option<string>)
    ensures r.Some? <==> DriveFileId(url).Success? && download(DownloadUrl(DriveFileId(url).value), path).Completed?
    ensures r.Some? ==> r.value == path
  {
    match DriveFileId(url)
    case Failure(_) => None
    case Success(id) =>
      match download(DownloadUrl(id), path)
      case Completed => Some(path)
      case Raised(_) => None
  }

  /**
   * The branch service's `POST /user_input_data_faceSwap`: both URLs are
   * required; the image and then the video are downloaded to fixed paths
   * (every error escapes); the fixed two-path record is stored and returned.
   */
  function BranchUpload(imageUrl: Option<string>, videoUrl: Option<string>,
                        download: (string, string) -> RunOutcome, meta: MetaFile): (h: Handled)
    ensures !Truthy(imageUrl) || !Truthy(videoUrl) ==>
              h == Handled(Error(BAD_REQUEST, MISSING_URLS), [], meta)
    ensures h.response.status == OK <==>
              && Truthy(imageUrl) && Truthy(videoUrl)
              && DownloadFromDrive(imageUrl.value, INPUT_IMAGE, download).Some?
              && DownloadFromDrive(videoUrl.value, INPUT_VIDEO, download).Some?
              && SaveMetadata(meta, BranchRecord()).Success?
    ensures h.response.status == OK ==>
              && h.response.body == Json(BranchRecord())
              && h.meta == Stored(LoadOrEmpty(meta) + [BranchRecord()])
              && h.saved == [INPUT_IMAGE, INPUT_VIDEO]
    ensures h.response.status != OK ==> h.meta == meta
    ensures Truthy(imageUrl) && Truthy(videoUrl) && h.response.status != OK ==> h.response == Uncaught
  {
    if !Truthy(imageUrl) || !Truthy(videoUrl) then
      Handled(Error(BAD_REQUEST, MISSING_URLS), [], meta)
    else
      match DownloadFromDrive(imageUrl.value, INPUT_IMAGE, download)
      case None => Handled(Uncaught, [], meta)
      case Some(imagePath) =>
        match DownloadFromDrive(videoUrl.value, INPUT_VIDEO, download)
        case None => Handled(Uncaught, [imagePath], meta)
        case Some(videoPath) =>
          var data := map["image_path" := imagePath, "chosen_video_path" := videoPath];
          match SaveMetadata(meta, data)
          case Failure(_) => Handled(Uncaught, [imagePath, videoPath], meta)
          case Success(meta') => Handled(Response(OK, Json(data)), [imagePath, videoPath], meta')
  }

  /** An image link without "/d/" fails before anything is downloaded. */
  lemma BranchUploadNeedsFileMark(imageUrl: string, videoUrl: Option<string>,
                                  download: (string, string) -> RunOutcome, meta: MetaFile)
    requires imageUrl != "" && Truthy(videoUrl) && !Contains(imageUrl, FILE_MARK)
    ensures BranchUpload(Some(imageUrl), videoUrl, download, meta) == Handled(Uncaught, [], meta)
  {
  }

  /** Whatever the links, every successful branch upload stores the same record. */
  lemma BranchRecordIgnoresUrls(i1: Option<string>, v1: Option<string>, i2: Option<string>, v2: Option<string>,
                                download: (string, string) -> RunOutcome, meta: MetaFile)
    requires BranchUpload(i1, v1, download, meta).response.status == OK
    requires BranchUpload(i2, v2, download, meta).response.status == OK
    ensures BranchUpload(i1, v1, download, meta) == BranchUpload(i2, v2, download, meta)
  {
  }

  /** The branch service's `POST /swap`: no input check at all. */
  function BranchSwap(swap: RunOutcome, outputPath: string): (resp: Response)
    ensures resp.status == OK <==> swap.Completed?
    ensures resp.status == OK ==> resp.body == Json(map["message" := SWAP_DONE, "output_path" := outputPath])
    ensures swap.Raised? ==> resp == Error(SERVER_ERROR, swap.message)
  {
    match swap
    case Completed => Response(OK, Json(map["message" := SWAP_DONE, "output_path" := outputPath]))
    case Raised(m) => Error(SERVER_ERROR, m)
  }

  /** For an accepted body the checked swap service answers like the unchecked branch one. */
  lemma SwapAgreesWithBranch(keys: set<string>, swap: RunOutcome, outputPath: string)
    requires REQUIRED_KEYS <= keys
    ensures SwapFaces(Some(keys), swap, outputPath) == BranchSwap(swap, outputPath)
  {
  }
}
