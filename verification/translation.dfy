/**
 * Speech generation for a translated text (`predict`, in the standalone
 * translation API and in the `AudioProcessor` class): language gating,
 * splitting the text into chunks, choosing the reference voice, and the
 * per-chunk synthesis loop.  Language detection, the ffmpeg clean-up, the
 * TTS model and audio merging are parameters.
 */
module Translation {
  import opened Wrappers
  import opened Text
  import opened Http

  /** `MAX_TEXT_LENGTH`: the longest chunk handed to the TTS model, per language. */
  const MAX_TEXT_LENGTH: map<string, nat> := map[
    "en" := 1000, "es" := 1000, "fr" := 1000, "de" := 1000, "it" := 1000,
    "pt" := 1000, "pl" := 1000, "tr" := 1000, "ru" := 1000, "nl" := 1000,
    "cs" := 1000, "ar" := 500, "zh-cn" := 500, "ja" := 500]

  const DEFAULT_MAX_LENGTH: nat := 200

  /** `MAX_TEXT_LENGTH.get(language, 200)`. */
  function MaxLength(language: string): (n: nat)
    ensures language in MAX_TEXT_LENGTH ==> n == MAX_TEXT_LENGTH[language]
    ensures language !in MAX_TEXT_LENGTH ==> n == DEFAULT_MAX_LENGTH
    ensures n >= DEFAULT_MAX_LENGTH
  {
    if language in MAX_TEXT_LENGTH then MAX_TEXT_LENGTH[language] else DEFAULT_MAX_LENGTH
  }

  /** 1000 for the European languages, 500 for Arabic, Chinese and Japanese, 200 otherwise. */
  lemma MaxLengthTable(language: string)
    ensures language in {"en", "es", "fr", "de", "it", "pt", "pl", "tr", "ru", "nl", "cs"} ==> MaxLength(language) == 1000
    ensures language in {"ar", "zh-cn", "ja"} ==> MaxLength(language) == 500
    ensures MaxLength(language) != DEFAULT_MAX_LENGTH ==> MaxLength(language) >= 500
    ensures MaxLength(language) >= DEFAULT_MAX_LENGTH
  {
  }

  // ----- chunking -----

  function Min(a: int, b: int): int {
    if a < b then a else b
  }

  /** `[prompt[i:i + n] for i in range(k, len(prompt), n)]`, with Python's clamped slicing. */
  function SlicesFrom(prompt: string, n: nat, k: nat): (cs: seq<string>)
    requires n > 0
    decreases |prompt| - k
  {
    if k >= |prompt| then [] else [prompt[k..Min(k + n, |prompt|)]] + SlicesFrom(prompt, n, k + n)
  }

  /** The chunking expression of `predict`, as written: slices when the prompt is too long, else `[prompt]`. */
  function Chunks(prompt: string, n: nat): seq<string>
    requires n > 0
  {
    if |prompt| > n then SlicesFrom(prompt, n, 0) else [prompt]
  }

  /** The reference chunking: a first chunk of exactly `n` characters for as long as more than `n` remain. */
  function Chop(prompt: string, n: nat): (cs: seq<string>)
    requires n > 0
    ensures |cs| >= 1
    decreases |prompt|
  {
    if |prompt| <= n then [prompt] else [prompt[..n]] + Chop(prompt[n..], n)
  }

  function Concat(cs: seq<string>): string {
    if |cs| == 0 then "" else cs[0] + Concat(cs[1..])
  }

  lemma {:induction false} SlicesFromIsChop(prompt: string, n: nat, k: nat)
    requires n > 0 && k < |prompt|
    ensures SlicesFrom(prompt, n, k) == Chop(prompt[k..], n)
    decreases |prompt| - k
  {
    if k + n >= |prompt| {
      assert Min(k + n, |prompt|) == |prompt|;
      assert prompt[k..|prompt|] == prompt[k..];
      assert SlicesFrom(prompt, n, k + n) == [];
    } else {
      assert prompt[k..][..n] == prompt[k..k + n];
      assert prompt[k..][n..] == prompt[k + n..];
      SlicesFromIsChop(prompt, n, k + n);
    }
  }

  /** The comprehension in `predict` agrees with the reference chunking on every prompt. */
  lemma ChunksAreChop(prompt: string, n: nat)
    requires n > 0
    ensures Chunks(prompt, n) == Chop(prompt, n)
  {
    if |prompt| > n {
      SlicesFromIsChop(prompt, n, 0);
      assert prompt[0..] == prompt;
    }
  }

  /** Concatenating the chunks gives the prompt back. */
  lemma {:induction false} ChopConcat(prompt: string, n: nat)
    requires n > 0
    ensures Concat(Chop(prompt, n)) == prompt
    decreases |prompt|
  {
    if |prompt| <= n {
      assert Concat([prompt]) == prompt + Concat([]);
    } else {
      ChopConcat(prompt[n..], n);
      assert prompt == prompt[..n] + prompt[n..];
    }
  }

  /** Every chunk fits in `n` characters, and every chunk but the last has exactly `n`. */
  lemma {:induction false} ChopBounds(prompt: string, n: nat)
    requires n > 0
    ensures forall k :: 0 <= k < |Chop(prompt, n)| ==> |Chop(prompt, n)[k]| <= n
    ensures forall k :: 0 <= k < |Chop(prompt, n)| - 1 ==> |Chop(prompt, n)[k]| == n
    ensures |prompt| > 0 ==> forall k :: 0 <= k < |Chop(prompt, n)| ==> |Chop(prompt, n)[k]| > 0
    decreases |prompt|
  {
    if |prompt| > n {
      var cs := Chop(prompt, n);
      ChopBounds(prompt[n..], n);
      assert forall k :: 1 <= k < |cs| ==> cs[k] == Chop(prompt[n..], n)[k - 1];
    }
  }

  /** What `predict` does to a prompt: concatenation recovers it, and the chunks are bounded as above. */
  lemma ChunksFacts(prompt: string, n: nat)
    requires n > 0
    ensures Concat(Chunks(prompt, n)) == prompt
    ensures forall k :: 0 <= k < |Chunks(prompt, n)| ==> |Chunks(prompt, n)[k]| <= n
    ensures forall k :: 0 <= k < |Chunks(prompt, n)| - 1 ==> |Chunks(prompt, n)[k]| == n
    ensures |prompt| <= n ==> Chunks(prompt, n) == [prompt]
  {
    ChunksAreChop(prompt, n);
    ChopConcat(prompt, n);
    ChopBounds(prompt, n);
  }

  // ----- gating -----

  /** `langid.classify(prompt)[0].strip()`, with "zh" read as "zh-cn". */
  function NormaliseDetected(raw: string): (d: string)
    ensures Strip(raw) == "zh" ==> d == "zh-cn"
    ensures Strip(raw) != "zh" ==> d == Strip(raw)
  {
    var d := Strip(raw);
    if d == "zh" then "zh-cn" else d
  }

  /** The mismatch rule: only prompts longer than 15 characters, and only with auto-detection on. */
  predicate Mismatch(prompt: string, language: string, raw: string, noAutoDetect: bool) {
    |prompt| > 15 && NormaliseDetected(raw) != language && !noAutoDetect
  }

  /** Where the reference voice comes from. */
  datatype Voice = Voice(audioPath: Option<string>, micPath: Option<string>, useMic: bool, cleanup: bool)

  /** `mic_file_path if use_mic else audio_file_pth`. */
  function Speaker(v: Voice): (s: Option<string>)
    ensures v.useMic ==> s == v.micPath
    ensures !v.useMic ==> s == v.audioPath
  {
    if v.useMic then v.micPath else v.audioPath
  }

  /** The outcome of the checks that run before any synthesis. */
  datatype Gate =
    | Unsupported
    | Mismatched
    | MicMissing
    | Cleared(chunks: seq<string>, speaker: Option<string>)

  /**
   * The checks of `predict`, in order: the target language must be
   * supported; a detected language that differs rejects a long prompt
   * unless auto-detection is off; the prompt is chunked by the language's
   * length limit; using the microphone needs a recording.
   */
  function GatePrompt(prompt: string, language: Option<string>, supported: set<string>, raw: string,
                      v: Voice, noAutoDetect: bool): (g: Gate)
    ensures g == Unsupported <==> language.None? || language.value !in supported
    ensures g == Mismatched <==> language.Some? && language.value in supported && Mismatch(prompt, language.value, raw, noAutoDetect)
    ensures g == MicMissing <==>
              language.Some? && language.value in supported && !Mismatch(prompt, language.value, raw, noAutoDetect)
              && v.useMic && !Truthy(v.micPath)
    ensures g.Cleared? ==> g.chunks == Chop(prompt, MaxLength(language.value)) && g.speaker == Speaker(v)
    ensures g.Cleared? ==> v.useMic ==> Truthy(g.speaker)
  {
    if language.None? || language.value !in supported then Unsupported
    else if Mismatch(prompt, language.value, raw, noAutoDetect) then Mismatched
    else
      var chunks := Chunks(prompt, MaxLength(language.value));
      ChunksAreChop(prompt, MaxLength(language.value));
      var speaker := Speaker(v);
      if v.useMic && !Truthy(v.micPath) then MicMissing else Cleared(chunks, speaker)
  }

  /** A short prompt is never rejected for its detected language. */
  lemma ShortPromptNeverMismatched(prompt: string, language: string, raw: string, noAutoDetect: bool)
    requires |prompt| <= 15
    ensures !Mismatch(prompt, language, raw, noAutoDetect)
  {
  }

  /** A detected "zh" (with any surrounding blanks) matches a chosen "zh-cn". */
  lemma ChineseDetectionMatches(prompt: string, raw: string, noAutoDetect: bool)
    requires Strip(raw) == "zh"
    ensures !Mismatch(prompt, "zh-cn", raw, noAutoDetect)
  {
  }

  // ----- the synthesis loop -----

  /** `get_conditioning_latents` on the reference voice: fine, or raising (a RuntimeError or another exception). */
  datatype Step = StepOk | StepFailed(runtime: bool, message: string)

  /** `model.inference` on a chunk: audio, no audio, or raising. */
  datatype Inference = Wav | NoWav | InferFailed(runtime: bool, message: string)

  /** The collaborators of `predict`. */
  datatype Engine = Engine(
    supported: set<string>,                  // the model's languages
    detect: string -> string,                // langid's label for a text
    detectFault: string,                     // what langid raises on a missing text
    denoise: Option<string> -> RunOutcome,   // the ffmpeg clean-up of the reference voice
    cleanedPath: string,                     // where the class's clean-up writes its output
    latents: Option<string> -> Step,         // conditioning latents of the reference voice
    infer: string -> Inference)              // synthesis of one chunk

  /** The two copies of the loop: the standalone API skips short chunks and turns any latent error into `None`. */
  datatype Variant = Api | Processor

  function MinChunk(variant: Variant): nat {
    if variant.Api? then 2 else 0
  }

  /** The outcome of the chunk loop: the chunks whose audio was kept, in order, or an early exit. */
  datatype ChunkRun = Finished(voiced: seq<string>) | Declined | Crashed(message: string)

  /** The chunk is long enough to be synthesised. */
  predicate Attempted(c: string, variant: Variant) {
    |c| >= MinChunk(variant)
  }

  /** Prepends kept audio to the outcome of the remaining chunks. */
  function After(voiced: seq<string>, rest: ChunkRun): ChunkRun {
    if rest.Finished? then Finished(voiced + rest.voiced) else rest
  }

  /**
   * The loop over chunks, one chunk at a time: skipped when too short;
   * latents are computed (a failure ends the call with `None`, except that
   * the class lets non-RuntimeErrors escape); inference raising a
   * RuntimeError ends the call with `None`, any other exception escapes;
   * no audio skips the chunk; audio is kept.
   */
  function ChunkOutcome(chunks: seq<string>, variant: Variant, speaker: Option<string>, e: Engine): ChunkRun
    decreases |chunks|
  {
    if |chunks| == 0 then Finished([])
    else
      var c := chunks[0];
      var rest := ChunkOutcome(chunks[1..], variant, speaker, e);
      if !Attempted(c, variant) then rest
      else match e.latents(speaker)
        case StepFailed(runtime, m) =>
          if runtime || variant.Api? then Declined else Crashed(m)
        case StepOk =>
          match e.infer(c)
          case InferFailed(runtime, m) => if runtime then Declined else Crashed(m)
          case NoWav => rest
          case Wav => After([c], rest)
  }

  /** The chunks that produce audio, in chunk order. */
  function Voiced(chunks: seq<string>, variant: Variant, e: Engine): (vs: seq<string>)
    ensures |vs| <= |chunks|
    ensures forall x :: x in vs ==> x in chunks && Attempted(x, variant) && e.infer(x) == Wav
  {
    if |chunks| == 0 then []
    else
      var rest := Voiced(chunks[1..], variant, e);
      if Attempted(chunks[0], variant) && e.infer(chunks[0]) == Wav then [chunks[0]] + rest else rest
  }

  /** The chunk makes the loop exit early: it is attempted, and the latents or the inference raise. */
  predicate FailsAt(c: string, variant: Variant, speaker: Option<string>, e: Engine) {
    Attempted(c, variant) && (e.latents(speaker).StepFailed? || e.infer(c).InferFailed?)
  }

  /** No attempted chunk makes the loop exit early. */
  predicate Smooth(chunks: seq<string>, variant: Variant, speaker: Option<string>, e: Engine) {
    forall k :: 0 <= k < |chunks| ==> !FailsAt(chunks[k], variant, speaker, e)
  }

  /**
   * How a failing chunk ends the call.  The latents are computed first: in
   * the standalone API any exception there gives `None`, in the class only
   * a RuntimeError does.  Inference raising a RuntimeError gives `None` in
   * both copies; any other exception escapes with its message.
   */
  function FailureOf(c: string, variant: Variant, speaker: Option<string>, e: Engine): (r: ChunkRun)
    requires FailsAt(c, variant, speaker, e)
    ensures r.Declined? || r.Crashed?
    ensures e.latents(speaker).StepFailed? ==>
              && (r.Declined? <==> e.latents(speaker).runtime || variant.Api?)
              && (r.Crashed? ==> r.message == e.latents(speaker).message)
    ensures e.latents(speaker) == StepOk ==>
              && (r.Declined? <==> e.infer(c).runtime)
              && (r.Crashed? ==> r.message == e.infer(c).message)
  {
    match e.latents(speaker)
    case StepFailed(runtime, m) => if runtime || variant.Api? then Declined else Crashed(m)
    case StepOk => if e.infer(c).runtime then Declined else Crashed(e.infer(c).message)
  }

  /** Chunk `k` is the first attempted chunk whose latents or inference raise. */
  predicate FirstFailure(chunks: seq<string>, variant: Variant, speaker: Option<string>, e: Engine, k: nat) {
    && k < |chunks| && FailsAt(chunks[k], variant, speaker, e)
    && forall j :: 0 <= j < k ==> !FailsAt(chunks[j], variant, speaker, e)
  }

  /** The first chunk that fails decides how the loop ends; the chunks after it are never reached. */
  lemma {:induction false} FirstFailureDecides(chunks: seq<string>, variant: Variant, speaker: Option<string>,
                                               e: Engine, k: nat)
    requires FirstFailure(chunks, variant, speaker, e, k)
    ensures ChunkOutcome(chunks, variant, speaker, e) == FailureOf(chunks[k], variant, speaker, e)
    decreases k
  {
    if k > 0 {
      assert !FailsAt(chunks[0], variant, speaker, e);
      assert chunks[1..][k - 1] == chunks[k];
      assert forall j :: 0 <= j < k - 1 ==> chunks[1..][j] == chunks[j + 1];
      FirstFailureDecides(chunks[1..], variant, speaker, e, k - 1);
    }
  }

  /** When every exception the model raises is a RuntimeError, the loop never lets one escape. */
  lemma {:induction false} RuntimeFailuresNeverEscape(chunks: seq<string>, variant: Variant, speaker: Option<string>, e: Engine)
    requires e.latents(speaker).StepFailed? ==> e.latents(speaker).runtime
    requires forall c :: e.infer(c).InferFailed? ==> e.infer(c).runtime
    ensures !ChunkOutcome(chunks, variant, speaker, e).Crashed?
    decreases |chunks|
  {
    if |chunks| > 0 {
      RuntimeFailuresNeverEscape(chunks[1..], variant, speaker, e);
    }
  }

  /** The loop runs to the end exactly when no attempted chunk fails, and then keeps the voiced chunks in order. */
  lemma {:induction false} ChunkOutcomeMeaning(chunks: seq<string>, variant: Variant, speaker: Option<string>, e: Engine)
    ensures ChunkOutcome(chunks, variant, speaker, e).Finished? <==> Smooth(chunks, variant, speaker, e)
    ensures ChunkOutcome(chunks, variant, speaker, e).Finished? ==>
              ChunkOutcome(chunks, variant, speaker, e).voiced == Voiced(chunks, variant, e)
    decreases |chunks|
  {
    if |chunks| > 0 {
      ChunkOutcomeMeaning(chunks[1..], variant, speaker, e);
      assert forall k :: 1 <= k < |chunks| ==> chunks[k] == chunks[1..][k - 1];
      if Smooth(chunks[1..], variant, speaker, e) && !Smooth(chunks, variant, speaker, e) {
        assert Attempted(chunks[0], variant);
      }
    }
  }

  /** Chunks too short for the API loop never reach the model. */
  lemma ShortChunksSkipped(chunks: seq<string>, speaker: Option<string>, e: Engine)
    requires forall k :: 0 <= k < |chunks| ==> |chunks[k]| < 2
    ensures ChunkOutcome(chunks, Api, speaker, e) == Finished([])
  {
    ChunkOutcomeMeaning(chunks, Api, speaker, e);
    NothingVoiced(chunks, e);
  }

  lemma {:induction false} NothingVoiced(chunks: seq<string>, e: Engine)
    requires forall k :: 0 <= k < |chunks| ==> |chunks[k]| < 2
    ensures Voiced(chunks, Api, e) == []
  {
    if |chunks| > 0 {
      NothingVoiced(chunks[1..], e);
    }
  }

  lemma AfterAfter(a: seq<string>, b: seq<string>, r: ChunkRun)
    ensures After(a, After(b, r)) == After(a + b, r)
  {
    if r.Finished? {
      assert a + (b + r.voiced) == (a + b) + r.voiced;
    }
  }

  /** The loop as a method: the chunks are visited in order and the kept ones collected. */
  method RunChunks(chunks: seq<string>, variant: Variant, speaker: Option<string>, e: Engine) returns (r: ChunkRun)
    ensures r == ChunkOutcome(chunks, variant, speaker, e)
  {
    var kept: seq<string> := [];
    var i := 0;
    while i < |chunks|
      invariant 0 <= i <= |chunks|
      invariant ChunkOutcome(chunks, variant, speaker, e) == After(kept, ChunkOutcome(chunks[i..], variant, speaker, e))
    {
      var c := chunks[i];
      assert chunks[i..][1..] == chunks[i + 1..];
      if Attempted(c, variant) {
        var latents := e.latents(speaker);
        if latents.StepFailed? {
          if latents.runtime || variant.Api? {
            return Declined;
          }
          return Crashed(latents.message);
        }
        var out := e.infer(c);
        if out.InferFailed? {
          if out.runtime {
            return Declined;
          }
          return Crashed(out.message);
        }
        if out == Wav {
          AfterAfter(kept, [c], ChunkOutcome(chunks[i + 1..], variant, speaker, e));
          kept := kept + [c];
        }
      }
      i := i + 1;
    }
    assert kept + [] == kept;
    r := Finished(kept);
  }

  // ----- predict -----

  /** What `predict` returns: the merged file (with the chunks whose audio it holds), `None`, or an escaping exception. */
  datatype Prediction = Generated(path: string, voiced: seq<string>) | NoResult | PredictCrashed(message: string)

  const API_OUTPUT := "/tmp/translated/output_translated.wav"
  const API_CLEANED := "/tmp/translated/voice_cleanup/output_translated.wav"
  const PROCESSOR_OUTPUT := "/content/merged_output.wav"

  /** The reference voice after the optional clean-up; `None` inside means the clean-up failed. */
  datatype Cleaned = CleanedVoice(speaker: Option<string>) | CleanupFailed(message: string)

  /**
   * The clean-up step: the standalone API writes a fixed file and answers a
   * failed ffmpeg run with `None`; the class writes a fresh file and lets
   * the failure escape.
   */
  function CleanSpeaker(speaker: Option<string>, v: Voice, variant: Variant, e: Engine): (c: Cleaned)
    ensures !v.cleanup ==> c == CleanedVoice(speaker)
    ensures v.cleanup && e.denoise(speaker).Completed? ==>
              c == CleanedVoice(Some(if variant.Api? then API_CLEANED else e.cleanedPath))
    ensures v.cleanup && e.denoise(speaker).Raised? ==> c.CleanupFailed?
  {
    if !v.cleanup then CleanedVoice(speaker)
    else match e.denoise(speaker)
      case Completed => CleanedVoice(Some(if variant.Api? then API_CLEANED else e.cleanedPath))
      case Raised(m) => CleanupFailed(m)
  }

  /** The checks before any synthesis pass: a supported language, a prompt, no language mismatch, a recording when the microphone is used. */
  predicate GatesPass(prompt: Option<string>, language: Option<string>, v: Voice, noAutoDetect: bool, e: Engine) {
    && language.Some? && language.value in e.supported && prompt.Some?
    && !Mismatch(prompt.value, language.value, e.detect(prompt.value), noAutoDetect)
    && !(v.useMic && !Truthy(v.micPath))
  }

  /**
   * `predict(prompt, language, ...)` of either copy.  A missing prompt (the
   * class is handed a failed translation as `None`) makes language
   * detection raise once the language check has passed.
   */
  function Predict(prompt: Option<string>, language: Option<string>, v: Voice, noAutoDetect: bool,
                   variant: Variant, e: Engine): (p: Prediction)
    ensures language.None? || language.value !in e.supported ==> p == NoResult
    ensures language.Some? && language.value in e.supported && prompt.None? ==> p == PredictCrashed(e.detectFault)
    ensures prompt.Some? && language.Some? && Mismatch(prompt.value, language.value, e.detect(prompt.value), noAutoDetect) ==>
              p == NoResult
    ensures v.useMic && !Truthy(v.micPath) && prompt.Some? ==> p == NoResult
    ensures GatesPass(prompt, language, v, noAutoDetect, e) && CleanSpeaker(Speaker(v), v, variant, e).CleanupFailed? ==>
              p == (if variant.Api? then NoResult else PredictCrashed(CleanSpeaker(Speaker(v), v, variant, e).message))
    ensures GatesPass(prompt, language, v, noAutoDetect, e) && CleanSpeaker(Speaker(v), v, variant, e).CleanedVoice? ==>
              var run := ChunkOutcome(Chop(prompt.value, MaxLength(language.value)), variant,
                                      CleanSpeaker(Speaker(v), v, variant, e).speaker, e);
              && (p.Generated? <==> Smooth(Chop(prompt.value, MaxLength(language.value)), variant,
                                           CleanSpeaker(Speaker(v), v, variant, e).speaker, e))
              && (p.NoResult? <==> run.Declined?)
              && (p.PredictCrashed? <==> run.Crashed?)
              && (p.PredictCrashed? ==> p.message == run.message)
    ensures p.Generated? ==>
              && GatesPass(prompt, language, v, noAutoDetect, e)
              && p.path == (if variant.Api? then API_OUTPUT else PROCESSOR_OUTPUT)
              && CleanSpeaker(Speaker(v), v, variant, e).CleanedVoice?
              && Smooth(Chop(prompt.value, MaxLength(language.value)), variant,
                        CleanSpeaker(Speaker(v), v, variant, e).speaker, e)
              && p.voiced == Voiced(Chop(prompt.value, MaxLength(language.value)), variant, e)
  {
    if language.None? || language.value !in e.supported then NoResult
    else if prompt.None? then PredictCrashed(e.detectFault)
    else
      match GatePrompt(prompt.value, language, e.supported, e.detect(prompt.value), v, noAutoDetect)
      case Cleared(chunks, speaker) =>
        (match CleanSpeaker(speaker, v, variant, e)
         case CleanupFailed(m) => if variant.Api? then NoResult else PredictCrashed(m)
         case CleanedVoice(reference) =>
           ChunkOutcomeMeaning(chunks, variant, reference, e);
           match ChunkOutcome(chunks, variant, reference, e)
           case Finished(voiced) => Generated(if variant.Api? then API_OUTPUT else PROCESSOR_OUTPUT, voiced)
           case Declined => NoResult
           case Crashed(m) => PredictCrashed(m))
      case _ => NoResult
  }

  /** What exporting the merged audio raises in the standalone API: its output path is a directory. */
  const API_EXPORT_FAULT := "[Errno 21] Is a directory: '" + API_OUTPUT + "'"

  /**
   * The standalone API's `predict` as written.  At start-up the module runs
   * `os.makedirs` on the output file's own path, so once the chunk loop has
   * finished, exporting the merged audio to that path raises
   * IsADirectoryError, which nothing catches.
   */
  function ApiPredictAsWritten(prompt: Option<string>, language: Option<string>, v: Voice, noAutoDetect: bool,
                               e: Engine): (p: Prediction)
    ensures !p.Generated?
    ensures Predict(prompt, language, v, noAutoDetect, Api, e).Generated? ==> p == PredictCrashed(API_EXPORT_FAULT)
    ensures !Predict(prompt, language, v, noAutoDetect, Api, e).Generated? ==>
              p == Predict(prompt, language, v, noAutoDetect, Api, e)
  {
    match Predict(prompt, language, v, noAutoDetect, Api, e)
    case Generated(_, _) => PredictCrashed(API_EXPORT_FAULT)
    case NoResult => NoResult
    case PredictCrashed(m) => PredictCrashed(m)
  }

  /**
   * Past the checks and the clean-up, the first failing chunk decides: `None`
   * for a RuntimeError (and in the standalone API for any latents error),
   * the escaping exception otherwise.
   */
  lemma PredictAtFirstFailure(prompt: Option<string>, language: Option<string>, v: Voice, noAutoDetect: bool,
                              variant: Variant, e: Engine, k: nat)
    requires GatesPass(prompt, language, v, noAutoDetect, e)
    requires CleanSpeaker(Speaker(v), v, variant, e).CleanedVoice?
    requires FirstFailure(Chop(prompt.value, MaxLength(language.value)), variant,
                          CleanSpeaker(Speaker(v), v, variant, e).speaker, e, k)
    ensures var failure := FailureOf(Chop(prompt.value, MaxLength(language.value))[k], variant,
                                     CleanSpeaker(Speaker(v), v, variant, e).speaker, e);
            Predict(prompt, language, v, noAutoDetect, variant, e)
              == (if failure.Declined? then NoResult else PredictCrashed(failure.message))
  {
    FirstFailureDecides(Chop(prompt.value, MaxLength(language.value)), variant,
                        CleanSpeaker(Speaker(v), v, variant, e).speaker, e, k);
  }

  /** Without clean-up the model is conditioned on the microphone recording exactly when the microphone is used. */
  lemma ReferenceVoiceChoice(v: Voice, variant: Variant, e: Engine)
    requires !v.cleanup
    ensures CleanSpeaker(Speaker(v), v, variant, e).speaker == (if v.useMic then v.micPath else v.audioPath)
  {
  }

  /** The class sends every chunk to the model: no chunk is too short for it. */
  lemma ProcessorAttemptsEveryChunk(c: string)
    ensures Attempted(c, Processor)
  {
  }
}
