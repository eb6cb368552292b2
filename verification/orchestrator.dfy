/**
 * The orchestrator's `/process`: it checks the five user inputs, then
 * posts to the face-swap, translation, background and lip-sync services in
 * that order, threading each stage's output path into the next, and
 * answers with the lip-sync result or with one fixed error.
 */
module Orchestrator {
  import opened Wrappers
  import opened Http

  const FACE_SWAP_API := "http://localhost:5001/swap"
  const TRANSLATION_API := "http://localhost:5002/translate"
  const BACKGROUND_API := "http://localhost:5003/change_background"
  const LIP_SYNC_API := "http://localhost:5004/lip_sync"

  /** The services in the order they are called. */
  const STAGES := [FACE_SWAP_API, TRANSLATION_API, BACKGROUND_API, LIP_SYNC_API]

  const FACE_SWAP_KEY := "output_path_video_faceswap"
  const TRANSLATION_KEY := "output_audio_translated"
  const BACKGROUND_KEY := "output_path_video_background"
  const LIP_SYNC_KEY := "output_path_video_lipSync"

  const MISSING_FIELDS := "Missing required fields"
  const PROCESSING_FAILED := "An error occurred during processing"

  /** A JSON request body; a value taken with `.get` of a missing key is sent as null. */
  type Payload = map<string, Option<string>>

  datatype Call = Call(url: string, payload: Payload)

  /** A service's answer: no connection, or a status with a body that may not parse as a JSON object. */
  datatype Reply = Unreachable | Answered(status: nat, body: Option<Fields>)

  /** The post raises a RequestException: no connection, `raise_for_status` on 4xx/5xx, or a body that is not JSON. */
  predicate Raises(r: Reply) {
    r.Unreachable? || r.status >= 400 || r.body.None?
  }

  /** Python's `d.get(key)`. */
  function Get(d: Fields, key: string): (v: Option<string>)
    ensures v.Some? <==> key in d
    ensures v.Some? ==> v.value == d[key]
  {
    if key in d then Some(d[key]) else None
  }

  /** `response.json().get(key)` on a reply that did not raise. */
  function Output(r: Reply, key: string): Option<string>
    requires !Raises(r)
  {
    Get(r.body.value, key)
  }

  /** All five inputs are present and non-empty. */
  predicate AllGiven(data: Fields) {
    && Truthy(Get(data, "image")) && Truthy(Get(data, "video")) && Truthy(Get(data, "text"))
    && Truthy(Get(data, "audio")) && Truthy(Get(data, "background"))
  }

  datatype Outcome = Outcome(response: Response, calls: seq<Call>)

  /** The fixed 500 answer, with the calls made up to and including the one that raised. */
  function Failed(calls: seq<Call>): Outcome {
    Outcome(Error(SERVER_ERROR, PROCESSING_FAILED), calls)
  }

  /** `process_request`: the services are `post`, which answers each call. */
  function ProcessRequest(data: Fields, post: Call -> Reply): (o: Outcome)
    ensures !AllGiven(data) <==> o == Outcome(Error(BAD_REQUEST, MISSING_FIELDS), [])
    ensures AllGiven(data) ==> 1 <= |o.calls| <= 4
    ensures forall k :: 0 <= k < |o.calls| ==> o.calls[k].url == STAGES[k]
    ensures forall k :: 0 <= k < |o.calls| - 1 ==> !Raises(post(o.calls[k]))
    ensures AllGiven(data) ==>
              (o.response.status == OK <==> |o.calls| == 4 && !Raises(post(o.calls[3])))
    ensures AllGiven(data) && o.response.status != OK ==> o == Failed(o.calls)
    ensures AllGiven(data) && o.response.status != OK ==> Raises(post(o.calls[|o.calls| - 1]))
    ensures AllGiven(data) && |o.calls| < 4 ==> Raises(post(o.calls[|o.calls| - 1]))
    ensures |o.calls| >= 1 ==> o.calls[0].payload == map["image" := Get(data, "image"), "video" := Get(data, "video")]
    ensures |o.calls| >= 2 ==> o.calls[1].payload == map["text" := Get(data, "text"), "audio" := Get(data, "audio")]
    ensures |o.calls| >= 3 ==>
              o.calls[2].payload == map["background" := Get(data, "background"),
                                        "face_swap_video" := Output(post(o.calls[0]), FACE_SWAP_KEY)]
    ensures |o.calls| == 4 ==>
              o.calls[3].payload == map["background_video" := Output(post(o.calls[2]), BACKGROUND_KEY),
                                        "translated_audio" := Output(post(o.calls[1]), TRANSLATION_KEY)]
    ensures o.response.status == OK ==>
              o.response == Response(OK, JsonNullable(map["final_output" := Output(post(o.calls[3]), LIP_SYNC_KEY)]))
  {
    if !AllGiven(data) then Outcome(Error(BAD_REQUEST, MISSING_FIELDS), [])
    else
      var swapCall := Call(FACE_SWAP_API, map["image" := Get(data, "image"), "video" := Get(data, "video")]);
      var swapReply := post(swapCall);
      if Raises(swapReply) then Failed([swapCall])
      else
        var faceSwapResult := Output(swapReply, FACE_SWAP_KEY);
        var translateCall := Call(TRANSLATION_API, map["text" := Get(data, "text"), "audio" := Get(data, "audio")]);
        var translateReply := post(translateCall);
        if Raises(translateReply) then Failed([swapCall, translateCall])
        else
          var translationResult := Output(translateReply, TRANSLATION_KEY);
          var backgroundCall := Call(BACKGROUND_API,
                                     map["background" := Get(data, "background"), "face_swap_video" := faceSwapResult]);
          var backgroundReply := post(backgroundCall);
          if Raises(backgroundReply) then Failed([swapCall, translateCall, backgroundCall])
          else
            var backgroundResult := Output(backgroundReply, BACKGROUND_KEY);
            var lipSyncCall := Call(LIP_SYNC_API,
                                    map["background_video" := backgroundResult, "translated_audio" := translationResult]);
            var lipSyncReply := post(lipSyncCall);
            var calls := [swapCall, translateCall, backgroundCall, lipSyncCall];
            if Raises(lipSyncReply) then Failed(calls)
            else Outcome(Response(OK, JsonNullable(map["final_output" := Output(lipSyncReply, LIP_SYNC_KEY)])), calls)
  }

  /** The first stage that raises is the last one called: no later service is contacted. */
  lemma {:induction false} FirstFailureStops(data: Fields, post: Call -> Reply, k: nat)
    requires k < |ProcessRequest(data, post).calls|
    requires Raises(post(ProcessRequest(data, post).calls[k]))
    ensures |ProcessRequest(data, post).calls| == k + 1
    ensures ProcessRequest(data, post).response == Error(SERVER_ERROR, PROCESSING_FAILED)
  {
    assert AllGiven(data);
  }

  /** A stage that answers without its output key passes null on to the next stage, and the request still succeeds. */
  lemma MissingFaceSwapOutputForwardsNull(data: Fields, post: Call -> Reply)
    requires |ProcessRequest(data, post).calls| >= 3
    requires FACE_SWAP_KEY !in post(ProcessRequest(data, post).calls[0]).body.value
    ensures ProcessRequest(data, post).calls[2].payload["face_swap_video"] == None
  {
  }

  /** When every service answers, the request succeeds with the lip-sync service's output. */
  lemma {:induction false} AllStagesAnswer(data: Fields, post: Call -> Reply)
    requires AllGiven(data)
    requires forall c: Call :: !Raises(post(c))
    ensures ProcessRequest(data, post).response.status == OK
    ensures |ProcessRequest(data, post).calls| == 4
  {
    var o := ProcessRequest(data, post);
    assert !Raises(post(o.calls[|o.calls| - 1]));
  }
}
