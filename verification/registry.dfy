/**
 * The metadata registry: a JSON file holding a list of records, appended to
 * by the upload services and read by the model services.  The file is a
 * value; every operation returns the file it leaves behind.
 */
module Registry {
  import opened Wrappers
  import opened Http

  /** One stored upload: a JSON object with string values. */
  type Record = Fields

  /** What a metadata file holds on disk. */
  datatype MetaFile =
    | Missing                        // no such file: FileNotFoundError
    | Unreadable                     // exists but cannot be opened (permissions, a directory)
    | Blank                          // exists and is empty, as after a truncation
    | Corrupt                        // holds text that is not JSON
    | Stored(records: seq<Record>)   // a JSON list of records

  /** `json.load` of the file succeeds. */
  predicate Loads(f: MetaFile) {
    f.Stored?
  }

  /**
   * The read-only loaders (`get_uploaded_data`, `get_meta_data_file_face_swap`):
   * the stored list, and `[]` for a missing file, undecodable JSON or any
   * other error.
   */
  function LoadOrEmpty(f: MetaFile): (rs: seq<Record>)
    ensures Loads(f) ==> rs == f.records
    ensures !Loads(f) ==> rs == []
  {
    match f
    case Stored(records) => records
    case _ => []
  }

  /** Why `save_metadata` raised: `open` failed or `json.load` could not decode the file. */
  datatype SaveError = OpenFailed | DecodeFailed

  /**
   * `save_metadata(data)`: a missing file is first created holding `[]`; the
   * file is then loaded, `data` appended and the list written back.  When
   * the load raises, the file is left as it was and the error escapes.
   */
  function SaveMetadata(f: MetaFile, data: Record): (r: Result<MetaFile, SaveError>)
    ensures r.Success? <==> f.Missing? || f.Stored?
    ensures r.Success? ==> r.value.Stored? && r.value.records == LoadOrEmpty(f) + [data]
    ensures f.Unreadable? ==> r == Failure(OpenFailed)
    ensures f.Blank? || f.Corrupt? ==> r == Failure(DecodeFailed)
  {
    var current := if f.Missing? then Stored([]) else f;
    match current
    case Stored(records) => Success(Stored(records + [data]))
    case Unreadable => Failure(OpenFailed)
    case _ => Failure(DecodeFailed)
  }

  /** Saving adds exactly one record at the end and keeps the earlier ones in order. */
  lemma SaveThenLoad(f: MetaFile, data: Record)
    requires SaveMetadata(f, data).Success?
    ensures var after := LoadOrEmpty(SaveMetadata(f, data).value);
            && |after| == |LoadOrEmpty(f)| + 1
            && after[..|LoadOrEmpty(f)|] == LoadOrEmpty(f)
            && after[|after| - 1] == data
  {
  }

  /** Two saves in a row store both records, in call order. */
  lemma SaveTwice(f: MetaFile, a: Record, b: Record)
    requires SaveMetadata(f, a).Success?
    ensures SaveMetadata(SaveMetadata(f, a).value, b).Success?
    ensures LoadOrEmpty(SaveMetadata(SaveMetadata(f, a).value, b).value) == LoadOrEmpty(f) + [a, b]
  {
    assert LoadOrEmpty(f) + [a] + [b] == LoadOrEmpty(f) + [a, b];
  }

  /**
   * `GET /get_uploaded_data`: 404 when the file does not exist, otherwise the
   * whole list; a file that exists but does not load makes `json.load`
   * raise inside the handler.
   */
  function GetUploadedData(f: MetaFile): (resp: Response)
    ensures resp.status == NOT_FOUND <==> f.Missing?
    ensures resp.status == OK <==> Loads(f)
    ensures Loads(f) ==> resp.body == JsonList(LoadOrEmpty(f))
    ensures !f.Missing? && !Loads(f) ==> resp == Uncaught
  {
    match f
    case Missing => Error(NOT_FOUND, "No metadata found.")
    case Stored(records) => Response(OK, JsonList(records))
    case _ => Uncaught
  }

  /** After a successful save the endpoint lists the new record last. */
  lemma SavedRecordIsListed(f: MetaFile, data: Record)
    requires SaveMetadata(f, data).Success?
    ensures var resp := GetUploadedData(SaveMetadata(f, data).value);
            && resp.status == OK
            && resp.body.JsonList?
            && |resp.body.records| > 0
            && resp.body.records[|resp.body.records| - 1] == data
  {
  }

  const NOT_AVAILABLE := "Not available"

  /** `data.get(key, 'Not available')`. */
  function FieldOr(r: Record, key: string): (v: string)
    ensures key in r ==> v == r[key]
    ensures key !in r ==> v == NOT_AVAILABLE
  {
    if key in r then r[key] else NOT_AVAILABLE
  }

  /**
   * `clear_metadata_file(path)`: `open(path, 'w')` truncates the file (or
   * creates it empty); when that fails the error is logged and the file is
   * left as it was.  Whether the open succeeds is a parameter.
   */
  function ClearMetadataFile(f: MetaFile, writable: bool): (g: MetaFile)
    ensures writable ==> g == Blank
    ensures !writable ==> g == f
  {
    if writable then Blank else f
  }

  /** The two paths the face-swap model reads. */
  datatype SwapPaths = SwapPaths(image: string, video: string)

  /**
   * `get_face_swap_data()`: load (errors give `[]`); an empty list gives
   * `(None, None)` and leaves the file alone; otherwise the first record's
   * image and video paths (each defaulting to 'Not available') are returned
   * and the file is truncated.
   */
  function GetFaceSwapData(f: MetaFile, writable: bool): (r: (Option<SwapPaths>, MetaFile))
    ensures r.0.None? <==> LoadOrEmpty(f) == []
    ensures r.0.None? ==> r.1 == f
    ensures r.0.Some? ==>
              && r.0.value.image == FieldOr(LoadOrEmpty(f)[0], "image_path")
              && r.0.value.video == FieldOr(LoadOrEmpty(f)[0], "chosen_video_path")
              && r.1 == (if writable then Blank else f)
  {
    var records := LoadOrEmpty(f);
    if |records| > 0 then
      var data := records[0];
      (Some(SwapPaths(FieldOr(data, "image_path"), FieldOr(data, "chosen_video_path"))),
       ClearMetadataFile(f, writable))
    else
      (None, f)
  }

  /** The read is destructive: right after a successful one, a second read finds nothing. */
  lemma {:induction false} SecondReadFindsNothing(f: MetaFile, w1: bool, w2: bool)
    requires GetFaceSwapData(f, w1).0.Some? && w1
    ensures GetFaceSwapData(GetFaceSwapData(f, w1).1, w2).0.None?
    ensures GetFaceSwapData(GetFaceSwapData(f, w1).1, w2).1 == Blank
  {
    assert GetFaceSwapData(f, w1).1 == Blank;
    assert LoadOrEmpty(Blank) == [];
  }

  /** When truncation fails, the next read returns the same first record again. */
  lemma ReadRepeatsWhenNotCleared(f: MetaFile)
    requires GetFaceSwapData(f, true).0.Some?
    ensures GetFaceSwapData(f, false).1 == f
    ensures GetFaceSwapData(GetFaceSwapData(f, false).1, true).0 == GetFaceSwapData(f, true).0
  {
  }

  /** The five fields the user-input loader publishes as module-level names. */
  datatype InputFields = InputFields(image: string, text: string, audio: string, video: string, background: string)

  function FieldsOf(r: Record): (fs: InputFields)
    ensures fs.image == FieldOr(r, "image_path") && fs.text == FieldOr(r, "text_data")
    ensures fs.audio == FieldOr(r, "audio_path") && fs.video == FieldOr(r, "chosen_video_path")
    ensures fs.background == FieldOr(r, "chosen_background_path")
  {
    InputFields(FieldOr(r, "image_path"), FieldOr(r, "text_data"), FieldOr(r, "audio_path"),
                FieldOr(r, "chosen_video_path"), FieldOr(r, "chosen_background_path"))
  }

  /**
   * The module-level loop of the user-input loader: every record is visited
   * and overwrites the five names, so they end up holding the last record's
   * fields.  For an empty list the names are never bound (`None`).
   */
  method LastRecordFields(f: MetaFile) returns (fields: Option<InputFields>)
    ensures LoadOrEmpty(f) == [] <==> fields.None?
    ensures fields.Some? ==> fields.value == FieldsOf(LoadOrEmpty(f)[|LoadOrEmpty(f)| - 1])
  {
    var records := LoadOrEmpty(f);
    fields := None;
    var i := 0;
    while i < |records|
      invariant 0 <= i <= |records|
      invariant i == 0 <==> fields.None?
      invariant i > 0 ==> fields == Some(FieldsOf(records[i - 1]))
    {
      var data := records[i];
      fields := Some(InputFields(FieldOr(data, "image_path"), FieldOr(data, "text_data"),
                                 FieldOr(data, "audio_path"), FieldOr(data, "chosen_video_path"),
                                 FieldOr(data, "chosen_background_path")));
      i := i + 1;
    }
  }
}
