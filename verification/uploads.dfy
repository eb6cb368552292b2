/**
 * The user-input upload services: the extension whitelist, the validation
 * order of `POST /upload` (shared by the user-input service and the first
 * face-swap service) and the user-input service's own `/upload` handler.
 * `secure_filename` is a parameter; the server's files are a set of paths.
 */
module Uploads {
  import opened Wrappers
  import opened Text
  import opened Http
  import opened Registry

  const ALLOWED_EXTENSIONS: set<string> := {"png", "jpg", "jpeg", "mp3", "wav", "mp4"}

  /** Index `i` holds the last '.' of `name`. */
  predicate LastDotAt(name: string, i: int) {
    0 <= i < |name| && name[i] == '.' && forall k :: i < k < |name| ==> name[k] != '.'
  }

  /** The extension, lower-cased, is whitelisted. */
  predicate AllowedExtension(ext: string) {
    Lower(ext) in ALLOWED_EXTENSIONS
  }

  /**
   * `allowed_file(name)`: the name holds a '.', and the text after the last
   * '.', lower-cased, is a whitelisted extension.
   */
  function AllowedFile(name: string): (ok: bool)
    ensures ok <==> exists i :: LastDotAt(name, i) && AllowedExtension(name[i + 1..])
  {
    match LastIndexOf(name, '.')
    case None => false
    case Some(i) =>
      assert LastDotAt(name, i);
      AllowedExtension(name[i + 1..])
  }

  /** Only the last extension counts, whatever the stem holds and in any letter case. */
  lemma AllowedFileOfExtension(stem: string, ext: string)
    requires '.' !in ext
    ensures AllowedFile(stem + "." + ext) <==> AllowedExtension(ext)
  {
    var name := stem + "." + ext;
    assert name[|stem|] == '.';
    assert name[|stem| + 1..] == ext;
    forall k | |stem| < k < |name|
      ensures name[k] != '.'
    {
      assert name[k] == ext[k - |stem| - 1];
    }
    assert LastDotAt(name, |stem|);
    if AllowedFile(name) {
      var i :| LastDotAt(name, i) && AllowedExtension(name[i + 1..]);
      assert i == |stem|;
    }
  }

  /** A name without any '.' is refused. */
  lemma NoDotRefused(name: string)
    requires '.' !in name
    ensures !AllowedFile(name)
  {
  }

  /** The fields of an upload request; a part or field that was not sent is `None`. */
  datatype UploadForm = UploadForm(
    image: Option<Upload>,
    text: Option<string>,
    audio: Option<Upload>,
    video: Option<string>,
    background: Option<string>)

  /** The directories one service uses. */
  datatype Dirs = Dirs(videos: string, backgrounds: string, uploads: string)

  const USER_INPUTS_DIRS := Dirs("/srv/videos", "/srv/backgrounds", "/srv/uploads")

  /** Every input is truthy. */
  predicate Complete(form: UploadForm) {
    Present(form.image) && Truthy(form.text) && Present(form.audio) && Truthy(form.video) && Truthy(form.background)
  }

  /** Where an upload is saved: its sanitised name under the upload folder. */
  function SavedPath(u: Upload, dirs: Dirs, secure: string -> string): string {
    PathJoin(dirs.uploads, secure(u.filename))
  }

  /** The result of validation: a refusal, or the record to store; either way the files saved so far. */
  datatype Checked =
    | Refused(response: Response, saved: seq<string>)
    | Accepted(record: Record, saved: seq<string>)

  const MISSING_INPUTS := "All inputs (image, text, audio, video, and background) are required."
  const INVALID_IMAGE := "Invalid image file."
  const INVALID_AUDIO := "Invalid audio file."

  function MissingVideo(name: string): string {
    "Chosen video " + name + " does not exist on server."
  }

  function MissingBackground(name: string): string {
    "Chosen background " + name + " does not exist on server."
  }

  /** The five-key record stored for an accepted upload. */
  function UploadRecord(imagePath: string, text: string, audioPath: string, videoPath: string, backgroundPath: string): (r: Record)
    ensures r.Keys == {"image_path", "text_data", "audio_path", "chosen_video_path", "chosen_background_path"}
    ensures r["image_path"] == imagePath && r["text_data"] == text && r["audio_path"] == audioPath
    ensures r["chosen_video_path"] == videoPath && r["chosen_background_path"] == backgroundPath
  {
    map["image_path" := imagePath, "text_data" := text, "audio_path" := audioPath,
        "chosen_video_path" := videoPath, "chosen_background_path" := backgroundPath]
  }

  /**
   * The validation part of `upload()`: all inputs are required; the image
   * is checked and saved before the audio is looked at, the audio checked
   * and saved, and only then are the chosen video and background looked up
   * among the server's files `disk`.
   */
  function CheckUpload(form: UploadForm, dirs: Dirs, disk: set<string>, secure: string -> string): (c: Checked)
    ensures !Complete(form) ==> c == Refused(Error(BAD_REQUEST, MISSING_INPUTS), [])
    ensures Complete(form) && !AllowedFile(form.image.value.filename) ==>
              c == Refused(Error(BAD_REQUEST, INVALID_IMAGE), [])
    ensures Complete(form) && AllowedFile(form.image.value.filename) && !AllowedFile(form.audio.value.filename) ==>
              c == Refused(Error(BAD_REQUEST, INVALID_AUDIO), [SavedPath(form.image.value, dirs, secure)])
    ensures c.Refused? ==> c.response.status == BAD_REQUEST
    ensures c.Accepted? <==>
              && Complete(form)
              && AllowedFile(form.image.value.filename) && AllowedFile(form.audio.value.filename)
              && PathJoin(dirs.videos, form.video.value) in disk
              && PathJoin(dirs.backgrounds, form.background.value) in disk
    ensures c.Accepted? ==>
              && c.saved == [SavedPath(form.image.value, dirs, secure), SavedPath(form.audio.value, dirs, secure)]
              && c.record == UploadRecord(c.saved[0], form.text.value, c.saved[1],
                                          PathJoin(dirs.videos, form.video.value),
                                          PathJoin(dirs.backgrounds, form.background.value))
    ensures Complete(form) && AllowedFile(form.image.value.filename) && AllowedFile(form.audio.value.filename) ==>
              |c.saved| == 2
  {
    if !Complete(form) then
      Refused(Error(BAD_REQUEST, MISSING_INPUTS), [])
    else if !AllowedFile(form.image.value.filename) then
      Refused(Error(BAD_REQUEST, INVALID_IMAGE), [])
    else
      var imagePath := SavedPath(form.image.value, dirs, secure);
      if !AllowedFile(form.audio.value.filename) then
        Refused(Error(BAD_REQUEST, INVALID_AUDIO), [imagePath])
      else
        var audioPath := SavedPath(form.audio.value, dirs, secure);
        var saved := [imagePath, audioPath];
        var videoPath := PathJoin(dirs.videos, form.video.value);
        var backgroundPath := PathJoin(dirs.backgrounds, form.background.value);
        if videoPath !in disk then
          Refused(Error(BAD_REQUEST, MissingVideo(form.video.value)), saved)
        else if backgroundPath !in disk then
          Refused(Error(BAD_REQUEST, MissingBackground(form.background.value)), saved)
        else
          Accepted(UploadRecord(imagePath, form.text.value, audioPath, videoPath, backgroundPath), saved)
  }

  /** An absolute chosen-video name is looked up as given, outside the videos directory. */
  lemma AbsoluteChoiceEscapesDirectory(form: UploadForm, dirs: Dirs, disk: set<string>, secure: string -> string)
    requires Complete(form) && StartsWith(form.video.value, "/")
    requires AllowedFile(form.image.value.filename) && AllowedFile(form.audio.value.filename)
    requires form.video.value in disk && PathJoin(dirs.backgrounds, form.background.value) in disk
    ensures CheckUpload(form, dirs, disk, secure).Accepted?
    ensures CheckUpload(form, dirs, disk, secure).record["chosen_video_path"] == form.video.value
  {
  }

  /** An accepted upload's record holds exactly the five metadata keys. */
  lemma AcceptedRecordKeys(form: UploadForm, dirs: Dirs, disk: set<string>, secure: string -> string)
    requires CheckUpload(form, dirs, disk, secure).Accepted?
    ensures CheckUpload(form, dirs, disk, secure).record.Keys ==
              {"image_path", "text_data", "audio_path", "chosen_video_path", "chosen_background_path"}
  {
  }

  /** What a handler returns together with the metadata file it leaves. */
  datatype Handled = Handled(response: Response, saved: seq<string>, meta: MetaFile)

  /**
   * The user-input service's `POST /upload`: validation, then
   * `save_metadata` (whose exceptions escape), then the record with 200.
   */
  function UserInputsUpload(form: UploadForm, disk: set<string>, secure: string -> string, meta: MetaFile): (h: Handled)
    ensures CheckUpload(form, USER_INPUTS_DIRS, disk, secure).Refused? ==>
              h.response.status == BAD_REQUEST && h.meta == meta
    ensures h.response.status == OK <==>
              CheckUpload(form, USER_INPUTS_DIRS, disk, secure).Accepted? && (meta.Missing? || meta.Stored?)
    ensures h.response.status == OK ==>
              && h.response.body == Json(CheckUpload(form, USER_INPUTS_DIRS, disk, secure).record)
              && h.meta == Stored(LoadOrEmpty(meta) + [CheckUpload(form, USER_INPUTS_DIRS, disk, secure).record])
    ensures h.response.status != OK ==> h.meta == meta
    ensures h.saved == CheckUpload(form, USER_INPUTS_DIRS, disk, secure).saved
  {
    match CheckUpload(form, USER_INPUTS_DIRS, disk, secure)
    case Refused(resp, saved) => Handled(resp, saved, meta)
    case Accepted(record, saved) =>
      match SaveMetadata(meta, record)
      case Failure(_) => Handled(Uncaught, saved, meta)
      case Success(meta') => Handled(Response(OK, Json(record)), saved, meta')
  }

  /** A refused upload never touches the metadata file; an accepted one adds exactly its record. */
  lemma UploadAppendsOnlyOnSuccess(form: UploadForm, disk: set<string>, secure: string -> string, meta: MetaFile)
    ensures var h := UserInputsUpload(form, disk, secure, meta);
            |LoadOrEmpty(h.meta)| == |LoadOrEmpty(meta)| + (if h.response.status == OK then 1 else 0)
  {
  }
}
