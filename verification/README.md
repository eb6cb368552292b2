# VLabs media pipeline — a Dafny model of its decision logic

VLabs chains several Flask services into one media pipeline:

- an orchestrator (`/process`) that calls face swap, speech translation, background replacement and lip sync in turn;
- upload services that validate user files and append a record to a JSON metadata registry;
- the model services themselves.

The machine-learning work in these services is out of scope. This project models the logic around it:

- **Uploads** (`uploads.dfy`, `registry.dfy`): the upload validators, the extension whitelist, and the metadata file with its appending writer, its forgiving loaders and its destructive first-record read.
- **Face swap** (`faceswap.dfy`, `drive.dfy`, `tunnels.dfy`): the face-swap front ends, the Google-Drive file-id extraction and the ngrok tunnel selection.
- **Lip sync** (`lipsync.dfy`, `pads.dfy`): the lip-sync endpoints and the parsing and re-printing of their `pads` option.
- **Speech translation** (`translation.dfy`, `translation_endpoints.dfy`): language gating, chunking and the per-chunk synthesis loop in both copies of `predict`, and the three request handlers in front of them.
- **Background replacement** (`background.dfy`, `frames.dfy`, `directory.dfy`):
  - directory clearing over a map from paths to entries;
  - the frame loop;
  - zero-padded frame naming and the sorted reassembly;
  - the completion flag and the polling endpoints.
- **Orchestrator** (`orchestrator.dfy`): the four-stage call chain.
- **Python building blocks** (`text.dfy`, `numerals.dfy`, `ordering.dfy`): `str.split`, `str.split()`, `os.path.join`, `int`/`str` on integers, `{i:04d}` and string ordering.

Everything the code hands to a library, a model or the network becomes a parameter of the Dafny function that models it:

| parameter | stands for |
|---|---|
| `swap`, `run` | the face swapper and the lip-sync runner |
| `Engine` | langid, the ffmpeg clean-up, the TTS model |
| `translate`, `transcribe`, `BranchProcessor` | the Google translator, speech recognition, the branch `AudioProcessor` |
| `download` | gdown |
| `World.open`, `World.loads`, `Capture` | `cv2.VideoCapture`, `cv2.imread`, the frame reader and `rembg` |
| `post` | `requests.post` |
| `TunnelReply` | the ngrok API reply |
| `secure` | `secure_filename` |
| `disk`, `Fs` | the server's files |
| `fails` | which deletions fail |
| `writable` | whether the metadata file can be truncated |

A handler returns a `Response` (status and body), together with the state it leaves behind: the metadata file, the saved uploads or the file map. An exception that escapes a handler is `Http.Uncaught`, Flask's 500 page.

## Model

| member | source | states |
|---|---|---|
| Uploads.AllowedFile | UserInputs/user_inputs.py:40-41 | a name is accepted iff it holds a '.' and the text after its last '.', lower-cased, is one of png, jpg, jpeg, mp3, wav, mp4 |
| Uploads.AllowedFileOfExtension | FaceSwap/app1.py:30-31 | for `stem.ext` with a dot-free `ext`, acceptance depends on `ext` alone, whatever the stem holds |
| Uploads.NoDotRefused | Branch/FaceSwap/app.py:50-51 | a name without '.' is refused |
| Uploads.UploadRecord | UserInputs/user_inputs.py:103-109 | the stored record has exactly the five keys image_path, text_data, audio_path, chosen_video_path, chosen_background_path, holding the given values |
| Uploads.CheckUpload | UserInputs/user_inputs.py:67-100 | any missing input gives 400 with nothing saved; a bad image gives 400 with nothing saved; a bad audio gives 400 with only the image saved; acceptance iff all inputs are given, both names pass the whitelist and both chosen files exist; an accepted upload saved image then audio and yields the five-key record |
| Uploads.AbsoluteChoiceEscapesDirectory | FaceSwap/app1.py:88-91 | an absolute chosen-video name is looked up and recorded as given, outside the videos directory |
| Uploads.UserInputsUpload | UserInputs/user_inputs.py:57-112 | a refused upload leaves the metadata file alone; 200 iff validation passes and the file loads or is missing; on 200 the body is the record and the file gains exactly that record at its end |
| Uploads.UploadAppendsOnlyOnSuccess | UserInputs/user_inputs.py:106-112 | the registry grows by one record on 200 and by none otherwise |
| Registry.LoadOrEmpty | UserInputs/user_inputs_data.py:19-33 | a file that loads gives its list; a missing, unreadable, blank or corrupt file gives `[]` |
| Registry.SaveMetadata | UserInputs/user_inputs.py:44-54 | saving succeeds iff the file is missing or holds a list; the result is the old list (`[]` for a missing file) with the record appended; an unreadable or undecodable file is an error and is left unchanged |
| Registry.SaveThenLoad | FaceSwap/app1.py:33-43 | after a save the list is one longer, keeps the old records as a prefix and ends with the new one |
| Registry.SaveTwice | Branch/FaceSwap/app.py:54-64 | two saves in a row append both records in call order |
| Registry.GetUploadedData | UserInputs/user_inputs.py:115-124 | 404 iff the file is missing; 200 with the whole list iff it loads; a file that exists but does not load escapes as a 500 |
| Registry.SavedRecordIsListed | FaceSwap/app1.py:121-130 | after a successful save, the listing endpoint answers 200 with the saved record last |
| Registry.FieldOr | UserInputs/user_inputs_data.py:39-43 | a field's value when present, 'Not available' otherwise |
| Registry.ClearMetadataFile | Branch/UserInputs/get_user_inputs_data.py:20-28 | a writable file becomes blank; a failed truncation is swallowed and leaves the file as it was |
| Registry.GetFaceSwapData | Branch/UserInputs/get_user_inputs_data.py:51-65 | nothing is returned iff the loaded list is empty, and then the file is untouched; otherwise the first record's image and video paths (defaulting to 'Not available') are returned and the file is truncated when writable |
| Registry.SecondReadFindsNothing | Branch/UserInputs/get_user_inputs_data.py:35-65 | right after a successful read that truncated the file, a second read returns nothing, because the blank file does not decode |
| Registry.ReadRepeatsWhenNotCleared | Branch/UserInputs/get_user_inputs_data.py:24-28 | when truncation fails, the next read returns the same first record again |
| Registry.FieldsOf | UserInputs/user_inputs_data.py:38-43 | each of the five names takes its record field, or 'Not available' |
| Registry.LastRecordFields | UserInputs/user_inputs_data.py:36-47 | the loop over the loaded list leaves the five names with the last record's fields; an empty list leaves them unbound |
| Drive.DriveFileId | Branch/FaceSwap/app.py:68 | IndexError iff the URL has no "/d/"; otherwise the id is the longest prefix of the text after the first "/d/" that contains no "/d/" or "/view", ending at the next such marker or at the end |
| Drive.DriveIdOfShareLink | Background/app.py:23 | for a link `p + "/d/" + id + tail` whose first "/d/" follows `p`, with a slash-free id and a tail that is empty or starts with "/view" or "/d/", the extracted id is `id` |
| Tunnels.SelectTunnel | FaceSwap/app1.py:51-53 | a URL is returned iff some tunnel's address ends in ":port", has a public URL, and every tunnel before it has an address for another port; the URL returned is that tunnel's |
| Tunnels.GetNgrokUrl | FaceSwap/app1.py:45-56 | an unreachable or non-JSON API gives None; otherwise the choice of the tunnel scan |
| Tunnels.SkipsOtherPorts | FaceSwap/app1.py:51-53 | tunnels for other ports in front of a matching tunnel do not change the answer |
| Pads.ParseAll | Branch/LipSync/app.py:26 | parsing succeeds iff every token is an integer literal; the values are the tokens' values in order; a failure names a bad token |
| Pads.ParsePads | LipSync/app.py:38 | any number of whitespace-separated integers is accepted, with one value per token |
| Pads.ParsePrintPads | Branch/LipSync/app.py:26-29 | printing a list of pads and parsing the text gives the list back |
| Pads.PrintedPadsCanonical | Branch/LipSync/app.py:29 | the re-printed text of any accepted padding parses to the same values and prints to itself |
| Pads.DefaultPadsValues | LipSync/app.py:26 | the default "0 10 0 0" parses to [0, 10, 0, 0] |
| LipSync.LipSyncLocal | Branch/LipSync/app.py:19-53 | falsy files give the message string; a missing padding escapes; a non-integer token gives the padding message; otherwise both files are saved and the runner gets re-printed pads that parse to the same values, with the result being the output path or the runner's error dict |
| LipSync.UploadFile | Branch/LipSync/app.py:63-95 | absent parts give 400; falsy files give 400 "Invalid file type"; the runner starts iff both files are truthy and the pads (default "0 10 0 0") parse; bad pads escape as a 500 after both files were saved; 200 iff the runner completes |
| LipSync.DefaultPadsReachRunner | LipSync/app.py:26-38 | without a pads field the runner gets [0, 10, 0, 0] |
| LipSync.LocalTypeFallbackUnreachable | Branch/LipSync/app.py:53 | the helper's "Invalid file type" fallback is never reached |
| FaceSwap.SwapFaces | FaceSwap/app2.py:16-28 | 400 iff the body is missing or lacks one of the five record keys; 200 with the output path iff the body is accepted and the swap completes; 500 only with the swap's error message |
| FaceSwap.SwapIgnoresBody | FaceSwap/app2.py:25 | once accepted, the body's contents make no difference |
| FaceSwap.Status | FaceSwap/app2.py:30-32 | status always answers 200 |
| FaceSwap.Forward | FaceSwap/app1.py:108-119 | no tunnel URL gives 500; otherwise the swap service's reply is relayed, or 500 when the post fails |
| FaceSwap.App1Upload | FaceSwap/app1.py:58-119 | refusals and saved files are those of the shared validation; a failed save escapes with the file unchanged; after a save the record is forwarded wrapped under 'data' |
| FaceSwap.ForwardedUploadRejected | FaceSwap/app1.py:114 | whenever the swap service is reached, it refuses what the first service forwards with 400 |
| FaceSwap.App1UploadCorrected | FaceSwap/app1.py:113-116 | as the first service, but forwarding the record itself |
| FaceSwap.CorrectedUploadSwaps | FaceSwap/app2.py:20-26 | forwarding the record itself, the answer is 200 iff the swap completes, and never 400 |
| FaceSwap.BranchRecord | Branch/FaceSwap/app.py:84-95 | the branch record has exactly the two fixed download targets |
| FaceSwap.DownloadFromDrive | Branch/FaceSwap/app.py:67-70 | a download succeeds iff the link has a file id and gdown completes on that id's URL |
| FaceSwap.BranchUpload | Branch/FaceSwap/app.py:73-98 | missing URLs give 400; 200 iff both downloads and the save succeed, storing and returning the fixed record; any failure after validation escapes with the file unchanged |
| FaceSwap.BranchUploadNeedsFileMark | Branch/FaceSwap/app.py:88 | an image link without "/d/" escapes before anything is downloaded |
| FaceSwap.BranchRecordIgnoresUrls | Branch/FaceSwap/app.py:92-96 | every successful branch upload stores and returns the same record |
| FaceSwap.BranchSwap | Branch/FaceSwap/app.py:102-109 | 200 with the output path iff the swap completes, else 500 with its message |
| FaceSwap.SwapAgreesWithBranch | Branch/FaceSwap/app.py:102-113 | for an accepted body the checked swap service answers exactly like the unchecked branch one |
| Translation.MaxLength | APIs/Translation/app.py:138 | the table's limit for a listed language, 200 for any other, so never below 200 |
| Translation.MaxLengthTable | APIs/Translation/app.py:70-74 | 1000 for en, es, fr, de, it, pt, pl, tr, ru, nl, cs; 500 for ar, zh-cn, ja; never below 200 |
| Translation.ChunksAreChop | APIs/Translation/app.py:139 | the slicing comprehension equals the reference chunking (fixed-size leading chunks) on every prompt |
| Translation.ChopConcat | Translation/audio_processing.py:96 | concatenating the chunks gives the prompt back |
| Translation.ChopBounds | Translation/audio_processing.py:95-96 | every chunk is at most the limit, every chunk but the last exactly the limit, and no chunk of a non-empty prompt is empty |
| Translation.ChunksFacts | APIs/Translation/app.py:138-139 | the chunks of `predict` concatenate to the prompt, are bounded as above, and a prompt within the limit (the empty one included) is the single chunk `[prompt]` |
| Translation.NormaliseDetected | APIs/Translation/app.py:128-130 | the detected label is stripped, and "zh" is read as "zh-cn" |
| Translation.Speaker | APIs/Translation/app.py:141 | the reference voice is the microphone path iff the microphone is used |
| Translation.GatePrompt | APIs/Translation/app.py:124-145 | unsupported iff the language is missing or unsupported; mismatched iff supported and a long prompt's detected language differs with auto-detection on; microphone-missing iff it passes those and the microphone is chosen without a recording; a cleared prompt carries the reference chunks and the selected voice |
| Translation.ShortPromptNeverMismatched | Translation/audio_processing.py:90 | a prompt of at most 15 characters is never rejected for its detected language |
| Translation.ChineseDetectionMatches | Translation/audio_processing.py:85-87 | a detected "zh", blanks around it included, matches a chosen "zh-cn" |
| Translation.Voiced | Translation/audio_processing.py:129-137 | the kept chunks are attempted chunks with audio, drawn from the prompt's chunks |
| Translation.ChunkOutcomeMeaning | APIs/Translation/app.py:161-211 | the loop runs to the end iff no attempted chunk fails its latents or inference, and then keeps exactly the voiced chunks in chunk order |
| Translation.FailureOf | APIs/Translation/app.py:170-211 | a latents error gives None in the standalone API whatever its class, and in the class only when it is a RuntimeError; an inference RuntimeError gives None in both; any other exception escapes with its message |
| Translation.FirstFailureDecides | Translation/audio_processing.py:110-140 | the first attempted chunk whose latents or inference raise decides how the loop ends, whatever the later chunks would do |
| Translation.RuntimeFailuresNeverEscape | Translation/audio_processing.py:138-140 | when every exception the model raises is a RuntimeError, the loop never lets one escape |
| Translation.ShortChunksSkipped | APIs/Translation/app.py:163-165 | chunks shorter than 2 characters never reach the model in the standalone API |
| Translation.RunChunks | Translation/audio_processing.py:110-140 | the loop method's result is the chunk-loop outcome, for either copy |
| Translation.CleanSpeaker | APIs/Translation/app.py:147-156 | without clean-up the reference voice is unchanged; a completed clean-up substitutes its output file; a failed one is a failure |
| Translation.Predict | Translation/audio_processing.py:63-151 | a missing or unsupported language gives None; a missing prompt raises in language detection; a mismatch or a missing microphone recording gives None; past those checks a failed clean-up gives None in the standalone API and escapes from the class; after a clean-up, a file iff no attempted chunk fails, None iff the loop ends with None, an escaping exception (with its message) iff the loop lets one escape; a file holds the voiced chunks in order |
| Translation.PredictAtFirstFailure | APIs/Translation/app.py:170-211 | past the checks and the clean-up, `predict` gives None when the first failing chunk's error is one the loop catches, and otherwise raises that error |
| Translation.ApiPredictAsWritten | APIs/Translation/app.py:219-220 | the standalone API's `predict` as written never returns a file: where the intended one would, exporting to the path made a directory at start-up raises |
| Translation.ReferenceVoiceChoice | Translation/audio_processing.py:104-107 | without clean-up the model is conditioned on the microphone path iff the microphone is used |
| Translation.ProcessorAttemptsEveryChunk | Translation/audio_processing.py:110-126 | the class sends every chunk, however short, to the model |
| TranslationEndpoints.ApiTranslateWith | APIs/Translation/app.py:244-287 | a non-JSON body escapes; a missing prompt, language or target gives 400; no microphone and no audio path gives 400; past those checks a falsy translation gives 400, None from `predict` gives 500 "Unable to generate speech.", an exception from `predict` escapes, and a file from `predict` is sent with 200, which happens iff `predict` returns a file |
| TranslationEndpoints.ApiTranslate | APIs/Translation/app.py:279-287 | with the intended `predict`, 200 iff the request passes the checks, the translation is truthy and `predict` generates its output file, which is what is sent |
| TranslationEndpoints.ApiTranslateAsWritten | APIs/Translation/app.py:283-287 | as written the handler never answers 200: where the intended handler sends the file, the export has raised and the framework answers 500; every other answer is the same |
| TranslationEndpoints.TranscriptionUnreachable | APIs/Translation/app.py:263-274 | the transcriber never changes the answer |
| TranslationEndpoints.ApiUnsupportedTarget | APIs/Translation/app.py:283-285 | a request passing validation whose target language is unsupported gets 500 "Unable to generate speech." |
| TranslationEndpoints.ServicePredict | Translation/flask_app.py:35-73 | a missing prompt or language gives 400, the target is not checked; past that, 200 iff `predict` generated a file; None gives 500 with the fixed message; an exception gives 500 with its message |
| TranslationEndpoints.ServiceAnswersPastValidation | Translation/flask_app.py:53-73 | past validation every answer is 200 or 500, never an escaping exception |
| TranslationEndpoints.BranchText | Branch/Translation/app.py:70-99 | with a prompt, the prompt is translated; without, a raising transcriber raises, and otherwise its transcript is translated |
| TranslationEndpoints.BranchTranslate | Branch/Translation/app.py:51-120 | a missing audio path or target gives 400; auto-detection is off unless the request says otherwise; a raising transcribe or translate escapes; a raising `predict` gives 500 with its message; a falsy result gives 500; a path gives 200 with that file |
| TranslationEndpoints.BranchPromptSkipsTranscription | Branch/Translation/app.py:97-99 | with a prompt, the transcriber never affects the answer |
| TranslationEndpoints.BranchTranscriptionFailureEscapes | Branch/Translation/app.py:70-76 | without a prompt, a raising transcriber brings the framework's 500 |
| Directory.Survivors | Background/clear_dir.py:15-23 | the children kept are exactly the special entries and the ones whose deletion failed, unchanged |
| Directory.ClearOne | Background/clear_dir.py:4-26 | a missing path changes nothing; a non-directory fails listing; clearing a directory keeps the directory, leaves in it exactly the children the pass does not remove, and changes no other path |
| Directory.ClearDirectory | Background/clear_dir.py:14-24 | the loop over the entries computes the one-step clearing, continuing past failed deletions |
| Directory.ClearDirectoryArg | Background/clear_dir.py:14 | a list argument raises TypeError before anything is touched; a path clears that path |
| Directory.ClearAll | APIs/ChangeBackground/app.py:27-51 | on success every path keeps existing, every path not listed is unchanged, and every listed path that exists was a directory and now holds exactly the children a clearing pass keeps, even when it is listed twice |
| Directory.ClearDirectories | APIs/ChangeBackground/app.py:37-51 | the loop over the paths computes the clearing of all of them in order |
| Directory.ClearedHoldsOnlySpecial | APIs/ChangeBackground/app.py:43-46 | when no deletion fails, only entries that are neither file, link nor directory remain |
| Directory.SurvivorsIdempotent | Background/clear_dir.py:15-23 | a second pass over what a first pass kept removes nothing |
| Directory.ClearIdempotent | Background/clear_dir.py:14-23 | clearing a cleared directory changes nothing |
| Directory.ClearAllSkipsMissing | APIs/ChangeBackground/app.py:37-51 | a nonexistent path in the list is skipped |
| Frames.FrameName | APIs/ChangeBackground/app.py:149 | a frame's file name ends in ".png" |
| Frames.FrameNamesOrdered | APIs/ChangeBackground/app.py:149-155 | below 10000, string order of the frame names is frame order |
| Frames.FrameTenThousandSortsEarly | Background/app.py:93-100 | "10000.png" sorts before "1001.png" |
| Frames.Width | APIs/ChangeBackground/app.py:149 | the corrected width is at least 4 and wide enough for every index below the frame count |
| Frames.FrameNameFor | APIs/ChangeBackground/app.py:149 | a corrected frame name ends in ".png" |
| Frames.CorrectedNamesOrdered | APIs/ChangeBackground/app.py:155 | for any frame count, string order of the corrected names is frame order |
| Frames.CorrectedNamesAgreeUpToTenThousand | Background/app.py:93 | for at most 10000 frames the corrected names are the four-digit names |
| Frames.FramesBelow | APIs/ChangeBackground/app.py:128-137 | the indices below a bound whose removal succeeds, increasing, and all of them |
| Frames.LoopBound | APIs/ChangeBackground/app.py:128-131 | the loop reaches an index iff it is below the frame count and every earlier read succeeded |
| Frames.WrittenFrames | Background/app.py:68-94 | the frames written are exactly the reached, readable frames whose removal succeeded, in increasing order |
| Frames.FrameLoop | APIs/ChangeBackground/app.py:128-150 | the loop breaking on a failed read and skipping failed removals writes exactly those frames |
| Frames.NewFrames | APIs/ChangeBackground/app.py:149-150 | the new directory entries are exactly the names of the written frames |
| Frames.PngNames | APIs/ChangeBackground/app.py:155 | the names ending in ".png" |
| Frames.Reassembly | Background/app.py:100 | the reassembly order is strictly sorted and lists exactly the ".png" entries |
| Frames.ReassemblyInFrameOrder | APIs/ChangeBackground/app.py:149-162 | in a directory with no ".png" left, frames below 10000 are reassembled in frame order |
| Frames.ReassemblyMisordersLongVideos | APIs/ChangeBackground/app.py:155 | when frames 1001 and 10000 were both written, 10000 is reassembled first |
| Frames.CorrectedReassemblyInFrameOrder | Background/app.py:93-100 | with count-wide names, any number of frames is reassembled in frame order |
| Background.MakeDirs | APIs/ChangeBackground/app.py:92 | succeeds iff the path is missing or a directory; afterwards it is a directory and nothing else changed |
| Background.Written | APIs/ChangeBackground/app.py:148-164 | after the frame loop and the reassembly the frames directory holds its old entries plus exactly the written frames, the output video exists, and no other path changes |
| Background.Render | APIs/ChangeBackground/app.py:110-170 | no capture gives 400 "Could not open video", an unloadable background 400 "Could not load background image", both with nothing changed; a flag path that is a directory raises IsADirectoryError after the frames and the video are written; otherwise 202 with the frames and video written and a flag file added, and the video is the sorted ".png" entries of the frames directory |
| Background.Rendered | APIs/ChangeBackground/app.py:110-173 | 202 iff the video opens, the background loads and the flag path is not a directory; a 500 iff the same holds but the flag path is a directory, and it carries IsADirectoryError's text and the files with the frames and the video written; anything else is a 400 that changes no file |
| Background.Started | APIs/ChangeBackground/app.py:94-173 | once the frames directory exists: 202 iff both links are given, the video opens, the background loads and the flag path is not a directory; a 500 iff the flag path is a directory instead, with the frames and the video written; every 400 leaves the files as they were |
| Background.AfterClear | APIs/ChangeBackground/app.py:91-173 | once the frames directory has cleared, `os.makedirs` cannot raise; 202 iff both links are given, the video opens, the background loads and the flag path is not a directory; a 500 iff the flag path is a directory instead, with the frames directory and the video added and the flag path as it was |
| Background.ChangeBackground | APIs/ChangeBackground/app.py:74-173 | the answer is 202, 400 or 500, and a 500 carries the error's text; a failed clear gives 500 and changes no file; a 500 comes only from a failed clear or from a flag path that is a directory, and the latter leaves the frames and the video written and the flag path as it was; 202 iff the directory clears, both links are given, the video opens, the background loads and the flag path is not a directory |
| Background.VideoOutput | APIs/ChangeBackground/app.py:208-219 | the video is served iff the flag and the video exist; 202 iff there is no flag |
| Background.OutputPath | APIs/ChangeBackground/app.py:175-206 | always 200; status "success" iff the output video exists, with its path |
| Background.StartedThenServed | APIs/ChangeBackground/app.py:164-170 | after a 202, polling serves the video and the path endpoint reports it |
| Background.FlagOutlivesLaterRequests | APIs/ChangeBackground/app.py:24 | whatever a later request does, an existing flag and video stay and polling keeps serving that video |
| Background.MissingLinksStillClear | APIs/ChangeBackground/app.py:91-100 | a request refused for missing links has already emptied the frames directory |
| Background.BadVideoLinkIgnored | APIs/ChangeBackground/app.py:65-71 | a video link without "/d/" is swallowed and the job still starts when the capture opens |
| Background.VideoHoldsWrittenFrames | APIs/ChangeBackground/app.py:128-164 | with a fully cleared directory and at most 10000 frames, a started job's video holds exactly the written frames in frame order |
| Background.ProcessVideoWith | Background/app.py:28-119 | the answer is 202, 400 or the framework's 500; 202 implies the links were given, both downloads completed and the flag file exists |
| Background.ProcessVideoAlwaysFails | Background/app.py:31 | every `/process_video` request as written is the framework's 500, with no file changed |
| Background.CorrectedProcessVideoStarts | Background/app.py:31-119 | passing the path itself, a job starts iff the directory clears, both links are given and download, the video opens and the background loads |
| Background.CorrectedProcessVideoBadLink | Background/app.py:22-25 | a video link without "/d/" escapes as the framework's 500 |
| Orchestrator.ProcessRequest | main.py:31-68 | 400 with no call iff an input is missing or empty; calls go to face swap, translation, background, lip sync in that order; only the last call may raise, and any answer but 200, and any chain of fewer than four calls, ends at a call that raised; 200 iff four calls were made and the last did not raise; each stage's payload carries the previous outputs as written; success returns final_output |
| Orchestrator.FirstFailureStops | main.py:43-68 | the first raising call is the last one made, and the answer is the fixed 500 |
| Orchestrator.MissingFaceSwapOutputForwardsNull | main.py:47-55 | a face-swap reply without its output key sends null to the background stage |
| Orchestrator.AllStagesAnswer | main.py:43-64 | when no service raises and the inputs are given, all four stages run and the answer is 200 |
| Text.Split | Branch/FaceSwap/app.py:68 | `str.split(sep)`: the pieces re-joined give the string, no piece holds the separator, and there are at least two pieces iff the separator occurs |
| Text.WordsOfJoin | Branch/LipSync/app.py:29 | `str.split()` of a space-joined list of words gives the words back |
| Text.PathJoin | APIs/ChangeBackground/app.py:103-104 | an absolute second part replaces the directory; otherwise the result ends with it |
| Numerals.ParseInt | Branch/LipSync/app.py:26 | `int(token)` accepts exactly an optional sign followed by digits |
| Numerals.ParseShowInt | Branch/LipSync/app.py:29 | `int(str(i)) == i` for every integer |
| Numerals.FormatPaddedIsFixed | APIs/ChangeBackground/app.py:149 | below 10^w, the `0w` format is exactly the w low digits |
| Ordering.SortedNames | APIs/ChangeBackground/app.py:155 | `sorted` of distinct names is strictly increasing and holds exactly the names |
| Ordering.SortedUnique | Background/app.py:100 | a strictly sorted list is determined by its elements |

## Left out

- Machine learning is left out. The model does not cover the face swapper, rembg, the TTS model and its latents, speech recognition, the Google translator, langid or the ffmpeg clean-up command. Each is a parameter whose answer is taken as given.
- Pixel work is left out: alpha compositing, resizing, frame decode and encode, `VideoWriter`, and audio merging with pydub/torchaudio. The model keeps which frames and chunks are used, and in what order. The one merge failure it keeps is the standalone API's export into a directory (see Findings).
- The standalone translation API never creates `/tmp/translated/bf_merged` or `/tmp/translated/voice_cleanup`, so on a fresh machine saving a chunk's audio and the ffmpeg clean-up fail. Those failures are part of what the `infer` and `denoise` parameters answer.
- The chunk regex (`re.sub` on sentence punctuation) is not modelled. It rewrites a chunk after the length check, and the model passes chunks to inference unchanged.
- The `print`/`logging` calls, timings and metrics texts have no observable effect on a response.
- `os.chdir("xtts2-hf")` in `AudioProcessor` is left out, because its effect depends on the working directory of the deployment.
- The services that answer on ports 5001-5004 are a matter of deployment. The orchestrator's replies are a parameter.
- Flask transport is left out: routing, `jsonify`, the multipart parsing and file saving.
  - A request body that is not JSON is read as JSON `null`; newer Flask versions answer 415 instead.
  - `send_file(..., attachment_filename=...)` is taken to work, as it does before Flask 2.2.
  - JSON values that are not strings are not modelled.
  - A non-object JSON body is not modelled.
- Disk errors while saving uploads, and `imwrite` failures, are not modelled.
- `save_metadata` rewinds but does not truncate. Because the list only grows, the trailing-garbage case cannot arise and is not modelled.
- A metadata file whose JSON is not a list is not modelled.
- Registry.LoadOrEmpty: only the five file states of `MetaFile` are distinguished, not the exception classes that lead to `[]`.
- Directory.ClearOne: entries carry no link targets, so a symbolic link at the cleared path is reported as not a directory. The source follows it: `os.path.exists` and `os.listdir` clear a linked directory's contents and skip a dangling link as missing.
- Directory.Survivors: a subdirectory whose `shutil.rmtree` fails part-way is modelled as left unchanged, not as partly deleted.
- Background.ChangeBackground: downloads are folded into the `open` and `loads` oracles. Whether each download completed is passed to them, so a failed download means the file keeps whatever it held before.
- Background.ProcessVideoWith: the video properties are read before `isOpened` is asked. This changes nothing observable, and the model asks `open` once.
- Numerals.ParseInt: `int()` also accepts underscores between digits, Unicode digits and surrounding whitespace. Tokens come from `str.split()`, so they have no whitespace; the other two are not modelled.
- Text.Words: only ASCII whitespace separates tokens; Unicode whitespace is not modelled.
- Uploads.AllowedFile: lower-casing is ASCII only.
- Orchestrator.ProcessRequest: a reply whose JSON is not an object is not modelled. A body that does not parse counts as a `RequestException` (`requests` 2.27 and later).
- `get_path_translated` in the standalone translation API is not modelled. It is a file-existence report like `get_path_change_bg`.
- `run_face_swap_loacl` in the branch face-swap service is not modelled. It is a print-and-return wrapper around the swapper.
- `main_local.py`, the `model_setup.py` files, `face_swapper.py` files and config modules are setup or thin wrappers, and are not part of this model. So is the module-level demo code of the loaders.

## Findings

| source | as written | input that shows it | evidently intended | confidence | as-written member | corrected member |
|---|---|---|---|---|---|---|
| APIs/Translation/app.py:32 | `os.makedirs(Final_OUTPUT_AUIDO, exist_ok=True)` makes the output file's path a directory at start-up, so `combined.export` into it raises IsADirectoryError, which nothing catches | any `/translate` request whose synthesis finishes: the export raises and the answer is the framework's 500, so the handler never answers 200 | create only the storage directory, so the merged audio is written as a file | not executed | TranslationEndpoints.ApiTranslateAsWritten | TranslationEndpoints.ApiTranslate |
| Background/app.py:31 | `clear_directory([OUTPUT_FRAMES_DIR])` passes a list; `os.path.exists` on a list raises TypeError, which nothing catches | any POST to `/process_video` | pass the directory path itself, as `clear_directory` expects | not executed | Background.ProcessVideoAlwaysFails | Background.CorrectedProcessVideoStarts |
| FaceSwap/app1.py:114 | the record is forwarded as `{'data': record}`; the swap service checks the five keys at the top level | any upload that reaches the forwarding step | forward the record itself | not executed | FaceSwap.ForwardedUploadRejected | FaceSwap.CorrectedUploadSwaps |
| APIs/ChangeBackground/app.py:149 | frames are named `{i:04d}.png` and reassembled in string order | a video of at least 10001 readable frames: "10000.png" sorts before "1001.png" | pad to the width of the largest index, so string order is frame order | not executed | Frames.ReassemblyMisordersLongVideos | Frames.CorrectedReassemblyInFrameOrder |
