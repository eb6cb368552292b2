/**
 * The background-replacement services: `/change_background` (and its
 * polling endpoints `/get_video_output_bg`, `/get_path_change_bg`) and the
 * older `/process_video` with `/status`.  A request clears the frames
 * directory, validates its two Drive links, opens the video and the new
 * background, writes the frames, reassembles them into the output video
 * and finally writes a completion flag that nothing ever removes.
 */
module Background {
  import opened Wrappers
  import opened Text
  import opened Http
  import opened Drive
  import opened Directory
  import opened Frames

  /** Where a service keeps its frames, its output video and its completion flag. */
  datatype Paths = Paths(frames: string, video: string, flag: string)

  const CHANGE_BG := Paths("/tmp/change_bg/output_frames", "/tmp/change_bg/output_video.mp4",
                           "/tmp/change_bg/processing_complete.txt")
  const PROCESS_VIDEO := Paths("/content/output_frames", "/content/output_video.mp4",
                               "/content/processing_complete.txt")

  const INPUT_VIDEO := PathJoin("/content", "input_video.mp4")
  const NEW_BACKGROUND := PathJoin("/content", "new_background.jpg")

  const MISSING_URLS := "Both video URL and background URL are required."
  const STARTED := "Video processing started. Check the status for completion."
  const IN_PROGRESS := "Processing is still in progress. Please wait."
  const PATH_FOUND := "Output file path retrieved successfully"
  const PATH_MISSING := "Output file not found"

  function CouldNotOpen(): string { "Could not open video " + INPUT_VIDEO }
  function CouldNotLoad(): string { "Could not load background image " + NEW_BACKGROUND }

  /** An exception that ends a request, with Python's text for it. */
  datatype Fault = FsFault(error: FsError) | FileExists(path: string) | IsADirectory(path: string)

  /**
   * Python's text for each fault, as `str(e)` gives it.  The TypeError text
   * is listed for completeness: the one call that raises it
   * (`/process_video`) has no handler, so no response carries it.
   */
  function Describe(f: Fault): string {
    match f
    case FsFault(NotADirectory(p)) => "[Errno 20] Not a directory: '" + p + "'"
    case FsFault(TypeError) => "stat: path should be string, bytes, os.PathLike or integer, not list"
    case FileExists(p) => "[Errno 17] File exists: '" + p + "'"
    case IsADirectory(p) => "[Errno 21] Is a directory: '" + p + "'"
  }

  /** `os.makedirs(path, exist_ok=True)`: creates a missing directory; an existing non-directory raises. */
  function MakeDirs(fs: Fs, path: string): (r: Result<Fs, Fault>)
    ensures r.Success? <==> path !in fs || fs[path].Dir?
    ensures r.Success? ==> path in r.value && r.value[path].Dir?
    ensures r.Success? && path in fs ==> r.value == fs
    ensures r.Success? ==> forall p :: p in fs && p != path ==> p in r.value && r.value[p] == fs[p]
  {
    if path !in fs then Success(fs[path := Dir(map[])])
    else if fs[path].Dir? then Success(fs)
    else Failure(FileExists(path))
  }

  /** How a request ended: the response, the files afterwards, and the frame order of the video it wrote, if any. */
  datatype Run = Run(response: Response, fs: Fs, video: Option<seq<string>>)

  /**
   * What lies outside the service: which removals fail while clearing,
   * how a Drive download ends, what the video reader makes of the input
   * video (`None` when it cannot open it) and whether the image reader can
   * read the new background.  The last two are given whether this
   * request's download completed: when it did not, the reader sees
   * whatever the path held before.
   */
  datatype World = World(fails: string -> bool, download: (string, string) -> RunOutcome,
                         open: bool -> Option<Capture>, loads: bool -> bool)

  /** The two form fields of a request. */
  datatype Links = Links(video: Option<string>, background: Option<string>)

  predicate LinksGiven(links: Links) {
    Truthy(links.video) && Truthy(links.background)
  }

  /** `download_from_google_drive` completes: the link has an id and the download of that id completes. */
  predicate Downloads(url: string, path: string, download: (string, string) -> RunOutcome) {
    match DriveFileId(url)
    case Failure(_) => false
    case Success(id) => download("https://drive.google.com/uc?id=" + id, path) == Completed
  }

  /** An exception raised part way through a request, with the files as they stand when it is raised. */
  datatype Halt = Halt(fault: Fault, fs: Fs)

  /** The files once the frames are written into the frames directory and the video writer has created the output video. */
  function Written(fs: Fs, paths: Paths, cap: Capture): (after: Fs)
    requires paths.frames in fs && fs[paths.frames].Dir?
    requires paths.frames != paths.video
    ensures after.Keys == fs.Keys + {paths.video}
    ensures after[paths.video] == File
    ensures after[paths.frames] == Dir(fs[paths.frames].children + NewFrames(WrittenFrames(cap)))
    ensures forall p :: p in fs && p != paths.frames && p != paths.video ==> after[p] == fs[p]
  {
    fs[paths.frames := Dir(fs[paths.frames].children + NewFrames(WrittenFrames(cap)))][paths.video := File]
  }

  /**
   * Everything after the downloads: the video must open and the background
   * load (else 400), then the frames are written, reassembled into the
   * output video, and the flag is written last.  A flag path that is a
   * directory makes that last write raise, after the frames and the video
   * are on disk.
   */
  function Render(fs: Fs, paths: Paths, cap: Option<Capture>, backgroundLoads: bool): (r: Result<Run, Halt>)
    requires paths.frames in fs && fs[paths.frames].Dir?
    requires paths.frames != paths.video && paths.frames != paths.flag && paths.video != paths.flag
    ensures r.Failure? <==> cap.Some? && backgroundLoads && paths.flag in fs && fs[paths.flag].Dir?
    ensures r.Failure? ==> r.error == Halt(IsADirectory(paths.flag), Written(fs, paths, cap.value))
    ensures r.Success? ==> r.value.response.status == ACCEPTED || r.value.response.status == BAD_REQUEST
    ensures cap.None? ==> r == Success(Run(Error(BAD_REQUEST, CouldNotOpen()), fs, None))
    ensures cap.Some? && !backgroundLoads ==> r == Success(Run(Error(BAD_REQUEST, CouldNotLoad()), fs, None))
    ensures r.Success? && r.value.response.status == ACCEPTED ==>
              r.value.fs == Written(fs, paths, cap.value)[paths.flag := File]
              && r.value.fs.Keys == fs.Keys + {paths.video, paths.flag}
              && r.value.fs[paths.flag] == File
              && r.value.video.Some? && r.value.fs[paths.frames].Dir?
              && r.value.video.value == Reassembly(r.value.fs[paths.frames].children)
    ensures r.Success? && r.value.response.status != ACCEPTED ==> r.value.fs == fs && r.value.video.None?
  {
    if cap.None? then Success(Run(Error(BAD_REQUEST, CouldNotOpen()), fs, None))
    else if !backgroundLoads then Success(Run(Error(BAD_REQUEST, CouldNotLoad()), fs, None))
    else
      var written := Written(fs, paths, cap.value);
      var order := Reassembly(written[paths.frames].children);
      if paths.flag in fs && fs[paths.flag].Dir? then Failure(Halt(IsADirectory(paths.flag), written))
      else
        Success(Run(Response(ACCEPTED, Json(map["message" := STARTED])), written[paths.flag := File], Some(order)))
  }

  /** Once the frames directory is ready, the request gets to the frame loop: both links are given, the video opens and the background loads. */
  predicate Renders(links: Links, w: World) {
    && LinksGiven(links)
    && w.open(Downloads(links.video.value, INPUT_VIDEO, w.download)).Some?
    && w.loads(Downloads(links.background.value, NEW_BACKGROUND, w.download))
  }

  /** `Render` inside the request's try block: the exception it raises becomes a 500 carrying its text and the files as they stand. */
  function Rendered(ready: Fs, cap: Option<Capture>, backgroundLoads: bool): (r: Run)
    requires CHANGE_BG.frames in ready && ready[CHANGE_BG.frames].Dir?
    ensures r.response.status == ACCEPTED <==> cap.Some? && backgroundLoads && !(CHANGE_BG.flag in ready && ready[CHANGE_BG.flag].Dir?)
    ensures r.response.status == SERVER_ERROR <==> cap.Some? && backgroundLoads && CHANGE_BG.flag in ready && ready[CHANGE_BG.flag].Dir?
    ensures r.response.status == SERVER_ERROR ==>
              r.response == Error(SERVER_ERROR, Describe(IsADirectory(CHANGE_BG.flag))) && r.fs == Written(ready, CHANGE_BG, cap.value)
    ensures r.response.status != ACCEPTED && r.response.status != SERVER_ERROR ==> r.response.status == BAD_REQUEST && r.fs == ready
  {
    match Render(ready, CHANGE_BG, cap, backgroundLoads)
    case Failure(h) => Run(Error(SERVER_ERROR, Describe(h.fault)), h.fs, None)
    case Success(run) => run
  }

  /**
   * `/change_background` once the frames directory is ready: the links are
   * checked, both downloads run, and `Render` does the rest inside the same
   * try block.
   */
  function Started(ready: Fs, links: Links, w: World): (r: Run)
    requires CHANGE_BG.frames in ready && ready[CHANGE_BG.frames].Dir?
    ensures r.response.status == ACCEPTED || r.response.status == BAD_REQUEST || r.response.status == SERVER_ERROR
    ensures r.response.status == ACCEPTED <==> Renders(links, w) && !(CHANGE_BG.flag in ready && ready[CHANGE_BG.flag].Dir?)
    ensures r.response.status == SERVER_ERROR <==> Renders(links, w) && CHANGE_BG.flag in ready && ready[CHANGE_BG.flag].Dir?
    ensures r.response.status == SERVER_ERROR ==>
              && r.response == Error(SERVER_ERROR, Describe(IsADirectory(CHANGE_BG.flag)))
              && r.fs == Written(ready, CHANGE_BG, w.open(Downloads(links.video.value, INPUT_VIDEO, w.download)).value)
              && r.fs.Keys == ready.Keys + {CHANGE_BG.video}
              && r.fs[CHANGE_BG.video] == File && r.fs[CHANGE_BG.flag] == ready[CHANGE_BG.flag]
    ensures r.response.status == BAD_REQUEST ==> r.fs == ready
  {
    if !LinksGiven(links) then
      Run(Error(BAD_REQUEST, MISSING_URLS), ready, None)
    else
      Rendered(ready, w.open(Downloads(links.video.value, INPUT_VIDEO, w.download)),
               w.loads(Downloads(links.background.value, NEW_BACKGROUND, w.download)))
  }

  /**
   * `/change_background` once `clear_directories` has succeeded: the cleared
   * frames directory is a directory (or absent), so `os.makedirs` cannot
   * raise, and `Started` does the rest.
   */
  function AfterClear(fs: Fs, cleared: Fs, links: Links, w: World): (r: Run)
    requires cleared.Keys == fs.Keys
    requires CHANGE_BG.frames in fs ==> cleared[CHANGE_BG.frames].Dir?
    requires forall p :: p in fs && p != CHANGE_BG.frames ==> cleared[p] == fs[p]
    ensures r.response.status == ACCEPTED || r.response.status == BAD_REQUEST || r.response.status == SERVER_ERROR
    ensures r.response.status == ACCEPTED <==> Renders(links, w) && !(CHANGE_BG.flag in fs && fs[CHANGE_BG.flag].Dir?)
    ensures r.response.status == SERVER_ERROR <==> Renders(links, w) && CHANGE_BG.flag in fs && fs[CHANGE_BG.flag].Dir?
    ensures r.response.status == SERVER_ERROR ==>
              && r.response == Error(SERVER_ERROR, Describe(IsADirectory(CHANGE_BG.flag)))
              && r.fs.Keys == fs.Keys + {CHANGE_BG.frames, CHANGE_BG.video}
              && r.fs[CHANGE_BG.video] == File && r.fs[CHANGE_BG.flag] == fs[CHANGE_BG.flag]
  {
    var ready := MakeDirs(cleared, CHANGE_BG.frames).value;
    assert ready.Keys == fs.Keys + {CHANGE_BG.frames};
    assert CHANGE_BG.flag in fs ==> ready[CHANGE_BG.flag] == fs[CHANGE_BG.flag];
    Started(ready, links, w)
  }

  /** The request gets as far as the frame loop: the directory clears, both links are given, the video opens and the background loads. */
  predicate ChangeBackgroundProceeds(fs: Fs, links: Links, w: World) {
    ClearAll(fs, [CHANGE_BG.frames], w.fails).Success? && Renders(links, w)
  }

  /**
   * `/change_background`: everything runs inside one try block whose
   * handler answers 500 with the exception's text.  The frames directory is
   * cleared before the links are checked; a failed download (a link
   * without "/d/" included) is printed and ignored.
   */
  function ChangeBackground(fs: Fs, links: Links, w: World): (r: Run)
    ensures r.response.status == ACCEPTED || r.response.status == BAD_REQUEST || r.response.status == SERVER_ERROR
    ensures r.response.status == SERVER_ERROR ==> r.response.body.ErrorMessage?
    ensures ClearAll(fs, [CHANGE_BG.frames], w.fails).Failure? ==> r.response.status == SERVER_ERROR && r.fs == fs
    ensures r.response.status == ACCEPTED <==>
              ChangeBackgroundProceeds(fs, links, w) && !(CHANGE_BG.flag in fs && fs[CHANGE_BG.flag].Dir?)
    ensures ChangeBackgroundProceeds(fs, links, w) && CHANGE_BG.flag in fs && fs[CHANGE_BG.flag].Dir? ==>
              && r.response == Error(SERVER_ERROR, Describe(IsADirectory(CHANGE_BG.flag)))
              && r.fs.Keys == fs.Keys + {CHANGE_BG.frames, CHANGE_BG.video}
              && r.fs[CHANGE_BG.video] == File && r.fs[CHANGE_BG.flag] == fs[CHANGE_BG.flag]
    ensures r.response.status == SERVER_ERROR ==>
              ClearAll(fs, [CHANGE_BG.frames], w.fails).Failure?
              || (ChangeBackgroundProceeds(fs, links, w) && CHANGE_BG.flag in fs && fs[CHANGE_BG.flag].Dir?)
  {
    var paths := CHANGE_BG;
    match ClearAll(fs, [paths.frames], w.fails)
    case Failure(e) => Run(Error(SERVER_ERROR, Describe(FsFault(e))), fs, None)
    case Success(cleared) =>
      AfterClear(fs, cleared, links, w)
  }

  /** `/get_video_output_bg` and `/status`: the video once the flag exists, else 202; sending a missing video raises. */
  function VideoOutput(fs: Fs, paths: Paths): (r: Response)
    ensures paths.flag in fs && paths.video in fs <==> r == Response(OK, FileDownload(paths.video))
    ensures paths.flag !in fs <==> r == Response(ACCEPTED, Json(map["message" := IN_PROGRESS]))
  {
    if paths.flag in fs then
      if paths.video in fs then Response(OK, FileDownload(paths.video)) else Uncaught
    else Response(ACCEPTED, Json(map["message" := IN_PROGRESS]))
  }

  /** `/get_path_change_bg`: always 200, reporting whether the output video exists. */
  function OutputPath(fs: Fs): (r: Response)
    ensures r.status == OK && r.body.Json?
    ensures "status" in r.body.fields && (r.body.fields["status"] == "success" <==> CHANGE_BG.video in fs)
    ensures CHANGE_BG.video in fs ==> "output_path" in r.body.fields && r.body.fields["output_path"] == CHANGE_BG.video
    ensures CHANGE_BG.video !in fs ==> r.body.fields == map["status" := "error", "message" := PATH_MISSING]
  {
    if CHANGE_BG.video in fs then
      Response(OK, Json(map["status" := "success", "message" := PATH_FOUND, "output_path" := CHANGE_BG.video]))
    else
      Response(OK, Json(map["status" := "error", "message" := PATH_MISSING]))
  }

  /** A 202 from `/change_background` makes the polling endpoint serve the new video, and the path endpoint report it. */
  lemma StartedThenServed(fs: Fs, links: Links, w: World)
    requires ChangeBackground(fs, links, w).response.status == ACCEPTED
    ensures var after := ChangeBackground(fs, links, w).fs;
            VideoOutput(after, CHANGE_BG) == Response(OK, FileDownload(CHANGE_BG.video))
            && OutputPath(after).body.fields == map["status" := "success", "message" := PATH_FOUND, "output_path" := CHANGE_BG.video]
  {
  }

  /** The flag is never removed: whatever a later request does, an earlier flag and video stay, and polling serves that video. */
  lemma {:induction false} FlagOutlivesLaterRequests(fs: Fs, links: Links, w: World)
    requires CHANGE_BG.flag in fs && CHANGE_BG.video in fs
    ensures var after := ChangeBackground(fs, links, w).fs;
            VideoOutput(after, CHANGE_BG) == Response(OK, FileDownload(CHANGE_BG.video))
  {
    var r := ChangeBackground(fs, links, w);
    var cleared := ClearAll(fs, [CHANGE_BG.frames], w.fails);
    if cleared.Success? {
      assert [CHANGE_BG.frames][1..] == [];
      assert CHANGE_BG.flag !in [CHANGE_BG.frames] && CHANGE_BG.video !in [CHANGE_BG.frames];
    }
    assert CHANGE_BG.flag in r.fs && CHANGE_BG.video in r.fs;
  }

  /** Even a request refused for its links has emptied the frames directory first. */
  lemma MissingLinksStillClear(fs: Fs, links: Links, w: World)
    requires !LinksGiven(links)
    requires CHANGE_BG.frames in fs && fs[CHANGE_BG.frames].Dir?
    ensures var r := ChangeBackground(fs, links, w);
            r.response == Error(BAD_REQUEST, MISSING_URLS)
            && r.fs[CHANGE_BG.frames] == Dir(Survivors(fs[CHANGE_BG.frames].children, CHANGE_BG.frames, w.fails))
  {
    assert [CHANGE_BG.frames][1..] == [];
    var cleared := ClearOne(fs, CHANGE_BG.frames, w.fails);
    assert ClearAll(fs, [CHANGE_BG.frames], w.fails) == ClearAll(cleared.value, [], w.fails);
    assert MakeDirs(cleared.value, CHANGE_BG.frames) == Success(cleared.value);
  }

  /** A video link without "/d/" is not refused: the request goes on with whatever the input path already holds. */
  lemma BadVideoLinkIgnored(fs: Fs, links: Links, w: World)
    requires LinksGiven(links) && !Contains(links.video.value, FILE_MARK)
    requires ClearAll(fs, [CHANGE_BG.frames], w.fails).Success?
    requires w.open(false).Some? && w.loads(Downloads(links.background.value, NEW_BACKGROUND, w.download))
    requires CHANGE_BG.flag !in fs
    ensures ChangeBackground(fs, links, w).response.status == ACCEPTED
  {
    assert !Downloads(links.video.value, INPUT_VIDEO, w.download);
  }

  /**
   * With a frames directory that clears completely and at most 10000
   * frames read, a started job's video holds exactly the frames whose
   * background was replaced, in frame order.
   */
  lemma VideoHoldsWrittenFrames(fs: Fs, links: Links, w: World)
    requires CHANGE_BG.frames !in fs
             || (fs[CHANGE_BG.frames].Dir?
                 && forall n :: n in fs[CHANGE_BG.frames].children ==>
                      !Survives(fs[CHANGE_BG.frames].children[n], PathJoin(CHANGE_BG.frames, n), w.fails))
    requires ChangeBackground(fs, links, w).response.status == ACCEPTED
    requires LoopBound(w.open(Downloads(links.video.value, INPUT_VIDEO, w.download)).value) <= 10000
    ensures var written := WrittenFrames(w.open(Downloads(links.video.value, INPUT_VIDEO, w.download)).value);
            ChangeBackground(fs, links, w).video
              == Some(seq(|written|, k requires 0 <= k < |written| => FrameName(written[k])))
  {
    var paths := CHANGE_BG;
    assert [paths.frames][1..] == [];
    var cleared := ClearAll(fs, [paths.frames], w.fails).value;
    var ready := MakeDirs(cleared, paths.frames).value;
    var empty := ready[paths.frames].children;
    if paths.frames in fs {
      assert cleared[paths.frames] == Dir(Survivors(fs[paths.frames].children, paths.frames, w.fails));
    }
    assert empty == map[];
    var written := WrittenFrames(w.open(Downloads(links.video.value, INPUT_VIDEO, w.download)).value);
    assert PngNames(empty) == {};
    ReassemblyInFrameOrder(empty, written);
  }

  /**
   * `/process_video` from the clearing call on.  Nothing is caught: a
   * failed clear, a link without "/d/" or a failed download reaches the
   * framework as a 500.  The video properties are read before `isOpened`
   * is asked, which changes nothing observable.
   */
  function ProcessVideoWith(fs: Fs, clearing: PathArg, links: Links, w: World): (r: Run)
    ensures r.response.status == ACCEPTED || r.response.status == BAD_REQUEST || r.response == Uncaught
    ensures r.response.status == ACCEPTED ==>
              && LinksGiven(links)
              && Downloads(links.video.value, INPUT_VIDEO, w.download)
              && Downloads(links.background.value, NEW_BACKGROUND, w.download)
              && PROCESS_VIDEO.flag in r.fs && r.fs[PROCESS_VIDEO.flag] == File
  {
    var paths := PROCESS_VIDEO;
    match ClearDirectoryArg(fs, clearing, w.fails)
    case Failure(_) => Run(Uncaught, fs, None)
    case Success(cleared) =>
      match MakeDirs(cleared, paths.frames)
      case Failure(_) => Run(Uncaught, fs, None)
      case Success(ready) =>
        if !LinksGiven(links) then
          Run(Error(BAD_REQUEST, MISSING_URLS), ready, None)
        else if !Downloads(links.video.value, INPUT_VIDEO, w.download) then Run(Uncaught, ready, None)
        else if !Downloads(links.background.value, NEW_BACKGROUND, w.download) then Run(Uncaught, ready, None)
        else
          match Render(ready, paths, w.open(true), w.loads(true))
          case Failure(h) => Run(Uncaught, h.fs, None)
          case Success(run) => run
  }

  /** `/process_video` as written: the frames directory is handed to `clear_directory` inside a list. */
  function ProcessVideo(fs: Fs, links: Links, w: World): (r: Run)
    ensures r.response.status == ACCEPTED || r.response.status == BAD_REQUEST || r.response == Uncaught
  {
    ProcessVideoWith(fs, PathList([PROCESS_VIDEO.frames]), links, w)
  }

  /** Every `/process_video` request fails with the framework's 500 page, before any file is touched or link read. */
  lemma ProcessVideoAlwaysFails(fs: Fs, links: Links, w: World)
    ensures ProcessVideo(fs, links, w) == Run(Uncaught, fs, None)
  {
  }

  /** `/process_video` with the directory passed as a string, as intended. */
  function ProcessVideoCorrected(fs: Fs, links: Links, w: World): (r: Run)
    ensures r.response.status == ACCEPTED || r.response.status == BAD_REQUEST || r.response == Uncaught
  {
    ProcessVideoWith(fs, PathText(PROCESS_VIDEO.frames), links, w)
  }

  /**
   * The corrected `/process_video` starts a job exactly when the directory
   * clears, both links are given, both downloads complete, the fetched
   * video opens and the fetched background loads.
   */
  lemma CorrectedProcessVideoStarts(fs: Fs, links: Links, w: World)
    requires PROCESS_VIDEO.flag !in fs || !fs[PROCESS_VIDEO.flag].Dir?
    ensures ProcessVideoCorrected(fs, links, w).response.status == ACCEPTED <==>
              && ClearOne(fs, PROCESS_VIDEO.frames, w.fails).Success?
              && LinksGiven(links)
              && Downloads(links.video.value, INPUT_VIDEO, w.download)
              && Downloads(links.background.value, NEW_BACKGROUND, w.download)
              && w.open(true).Some? && w.loads(true)
  {
    var paths := PROCESS_VIDEO;
    var cleared := ClearOne(fs, paths.frames, w.fails);
    assert ClearDirectoryArg(fs, PathText(paths.frames), w.fails) == cleared;
    var r := ProcessVideoCorrected(fs, links, w);
    if cleared.Success? {
      var ready := MakeDirs(cleared.value, paths.frames);
      assert ready.Success?;
      assert paths.flag in ready.value ==> paths.flag in fs && ready.value[paths.flag] == fs[paths.flag];
      if LinksGiven(links) && Downloads(links.video.value, INPUT_VIDEO, w.download)
         && Downloads(links.background.value, NEW_BACKGROUND, w.download) {
        var rendered := Render(ready.value, paths, w.open(true), w.loads(true));
        assert rendered.Success?;
        assert r == rendered.value;
      } else {
        assert r.response.status != ACCEPTED;
      }
    } else {
      assert r == Run(Uncaught, fs, None);
    }
  }

  /** Unlike `/change_background`, the corrected `/process_video` answers a video link without "/d/" with the framework's 500. */
  lemma CorrectedProcessVideoBadLink(fs: Fs, links: Links, w: World)
    requires LinksGiven(links) && !Contains(links.video.value, FILE_MARK)
    requires ClearOne(fs, PROCESS_VIDEO.frames, w.fails).Success?
    ensures ProcessVideoCorrected(fs, links, w).response == Uncaught
  {
    assert !Downloads(links.video.value, INPUT_VIDEO, w.download);
  }
}
