/**
 * `VideoService`: submits first/last-frame transition jobs to the video
 * generation API, polls them, and offers a local fallback. The HTTP
 * exchange is an input.
 */
module VideoService {
  import opened Wrappers
  import opened JsonValue
  import opened Http

  const DEFAULT_MODEL := "doubao-seedance-1-0-pro-fast-251015"
  const DEFAULT_PROMPT := "平滑过渡动画，添加魔法光效效果"
  const ESTIMATED_SECONDS := 60
  const UNKNOWN_ERROR := "未知错误"

  /** `_call_video_api`: the JSON body of a 200 response; None for anything else. */
  function CallVideoApi(reply: Reply): (r: Json)
    ensures IsOk(reply) && reply.body.Some? ==> r == reply.body.value
    ensures !(IsOk(reply) && reply.body.Some?) ==> r == JNull
  {
    if IsOk(reply) && reply.body.Some? then reply.body.value else JNull
  }

  /** The statuses a caller ever sees. */
  const UNIFIED_STATUSES: set<string> := {"processing", "completed", "failed", "unknown"}

  /**
   * `_map_status`: the API's five statuses folded into three, anything else
   * "unknown"; a list or dict status cannot be a dict key and raises.
   */
  function MapStatus(s: Json): (r: Result<string>)
    ensures r.Ok? <==> !(s.JArr? || s.JObj?)
    ensures r.Raised? ==> r.message == "unhashable type: '" + TypeName(s) + "'"
    ensures r.Ok? ==> r.value in UNIFIED_STATUSES
    ensures r == Ok("processing") <==> s == JStr("processing") || s == JStr("running")
    ensures r == Ok("completed") <==> s == JStr("success")
    ensures r == Ok("failed") <==> s == JStr("failed") || s == JStr("error")
  {
    match s
    case JArr(_) => Raised("unhashable type: 'list'")
    case JObj(_) => Raised("unhashable type: 'dict'")
    case JStr(t) =>
      if t == "processing" || t == "running" then Ok("processing")
      else if t == "success" then Ok("completed")
      else if t == "failed" || t == "error" then Ok("failed")
      else Ok("unknown")
    case _ => Ok("unknown")
  }

  /** `_default_config`. */
  const DEFAULT_CONFIG: Dict := map[
    "duration" := JInt(8),
    "resolution" := JStr("720p"),
    "ratio" := JStr("4:3"),
    "prompt" := JStr(DEFAULT_PROMPT),
    "service_tier" := JStr("flex")
  ]

  /** The two frames, first then last, each tagged with its role. */
  function Images(first: string, last: string): Json {
    JArr([JObj(map["url" := JStr(first), "role" := JStr("first_frame")]),
          JObj(map["url" := JStr(last), "role" := JStr("last_frame")])])
  }

  /**
   * The request body `create_transition_video` submits: the config's
   * choices where given, otherwise 8 seconds, 720p, 4:3, the default prompt
   * and the flex tier; audio generation and watermark always off.
   */
  function TransitionPayload(first: string, last: string, config: Option<Dict>): (p: Dict)
    ensures p.Keys == {"model", "images", "prompt", "duration", "resolution", "ratio",
                       "generate_audio", "watermark", "service_tier"}
    ensures p["model"] == JStr(DEFAULT_MODEL) && p["images"] == Images(first, last)
    ensures p["generate_audio"] == JBool(false) && p["watermark"] == JBool(false)
    ensures config.Some? && "duration" in config.value ==> p["duration"] == config.value["duration"]
    ensures config.Some? && "prompt" in config.value ==> p["prompt"] == config.value["prompt"]
    ensures config.Some? && "resolution" in config.value ==> p["resolution"] == config.value["resolution"]
    ensures config.Some? && "ratio" in config.value ==> p["ratio"] == config.value["ratio"]
    ensures config.Some? && "service_tier" in config.value ==> p["service_tier"] == config.value["service_tier"]
    ensures config.None? || "duration" !in config.value ==> p["duration"] == JInt(8)
    ensures config.None? || "prompt" !in config.value ==> p["prompt"] == JStr(DEFAULT_PROMPT)
    ensures config.None? || "resolution" !in config.value ==> p["resolution"] == JStr("720p")
    ensures config.None? || "ratio" !in config.value ==> p["ratio"] == JStr("4:3")
    ensures config.None? || "service_tier" !in config.value ==> p["service_tier"] == JStr("flex")
  {
    var c := config.GetOr(DEFAULT_CONFIG);
    map[
      "model" := JStr(DEFAULT_MODEL),
      "images" := Images(first, last),
      "prompt" := GetOr(c, "prompt", JStr(DEFAULT_PROMPT)),
      "duration" := GetOr(c, "duration", JInt(8)),
      "resolution" := GetOr(c, "resolution", JStr("720p")),
      "ratio" := GetOr(c, "ratio", JStr("4:3")),
      "generate_audio" := JBool(false),
      "watermark" := JBool(false),
      "service_tier" := GetOr(c, "service_tier", JStr("flex"))
    ]
  }

  /** No config and an empty config submit the same request: the per-key defaults repeat `_default_config`. */
  lemma DefaultsAgree(first: string, last: string)
    ensures TransitionPayload(first, last, None) == TransitionPayload(first, last, Some(map[]))
    ensures TransitionPayload(first, last, None)["duration"] == JInt(8)
    ensures TransitionPayload(first, last, None)["resolution"] == JStr("720p")
    ensures TransitionPayload(first, last, None)["ratio"] == JStr("4:3")
  {
  }

  /** A failed submission: the error and the flag that tells the caller to fall back. */
  function SubmitFailed(error: string): Dict {
    map["status" := JStr("failed"), "error" := JStr(error), "fallback" := JBool(true)]
  }

  /** The body of the submission's `try`, raising where `.get` meets a non-dict. */
  function SubmitOutcome(response: Json): Result<Dict> {
    if !Truthy(response) then Ok(SubmitFailed(UNKNOWN_ERROR))
    else
      var code :- MethodGet(response, "code", JNull);
      if EqualsZero(code) then
        var data :- MethodGet(response, "data", JObj(map[]));
        var taskId :- MethodGet(data, "task_id", JNull);
        Ok(map["task_id" := taskId, "status" := JStr("processing"),
               "estimated_time" := JInt(ESTIMATED_SECONDS), "model" := JStr(DEFAULT_MODEL)])
      else
        Ok(map["status" := JStr("failed"), "error" := Get(response.fields, "message"), "fallback" := JBool(true)])
  }

  /**
   * `create_transition_video` given the API's answer: code 0 (or anything
   * equal to it) reports the task as processing with a 60-second estimate;
   * every other outcome fails with the fallback flag set.
   */
  function CreateTransitionVideo(reply: Reply): (r: Dict)
    ensures "status" in r && (r["status"] == JStr("processing") || r["status"] == JStr("failed"))
    ensures r["status"] == JStr("processing") <==>
      var resp := CallVideoApi(reply);
      resp.JObj? && |resp.fields| > 0 && EqualsZero(Get(resp.fields, "code"))
      && GetOr(resp.fields, "data", JObj(map[])).JObj?
    ensures r["status"] == JStr("processing") ==>
      r.Keys == {"task_id", "status", "estimated_time", "model"} && r["estimated_time"] == JInt(ESTIMATED_SECONDS)
    ensures r["status"] == JStr("failed") ==> r.Keys == {"status", "error", "fallback"} && r["fallback"] == JBool(true)
    ensures !Truthy(CallVideoApi(reply)) ==> r == SubmitFailed(UNKNOWN_ERROR)
    ensures var resp := CallVideoApi(reply);
      Truthy(resp) && !resp.JObj? ==> r == SubmitFailed(NoGetMessage(resp))
    ensures var resp := CallVideoApi(reply);
      r["status"] == JStr("processing") ==>
        r["task_id"] == Get(GetOr(resp.fields, "data", JObj(map[])).fields, "task_id")
    ensures var resp := CallVideoApi(reply);
      resp.JObj? && |resp.fields| > 0 && !EqualsZero(Get(resp.fields, "code")) ==>
        r["status"] == JStr("failed") && r["error"] == Get(resp.fields, "message")
    ensures var resp := CallVideoApi(reply);
      resp.JObj? && |resp.fields| > 0 && EqualsZero(Get(resp.fields, "code")) ==>
        var data := GetOr(resp.fields, "data", JObj(map[]));
        !data.JObj? ==> r == SubmitFailed(NoGetMessage(data))
  {
    match SubmitOutcome(CallVideoApi(reply))
    case Ok(d) => d
    case Raised(e) => SubmitFailed(e)
  }

  /** A poll that could not be read. */
  function QueryUnknown(error: Json): Dict {
    map["status" := JStr("unknown"), "error" := error]
  }

  /**
   * An answer the poll can read to the end: a non-empty dict with code 0
   * whose `data` is a dict, whose status can be looked up in the status
   * table, and which, once the job succeeded, carries its output as a dict.
   */
  predicate ReadablePoll(response: Json) {
    && response.JObj? && |response.fields| > 0
    && EqualsZero(Get(response.fields, "code"))
    && var data := GetOr(response.fields, "data", JObj(map[]));
    && data.JObj?
    && var status := Get(data.fields, "status");
    && !(status.JArr? || status.JObj?)
    && (status == JStr("success") ==> GetOr(data.fields, "output", JObj(map[])).JObj?)
  }

  /** The body of the poll's `try`, raising where `.get` meets a non-dict or the status is unhashable. */
  function QueryOutcome(taskId: string, response: Json): (r: Result<Dict>)
    ensures !Truthy(response) ==> r == Ok(QueryUnknown(JStr(UNKNOWN_ERROR)))
    ensures Truthy(response) && !response.JObj? ==> r == Raised(NoGetMessage(response))
    ensures response.JObj? && |response.fields| > 0 && !EqualsZero(Get(response.fields, "code")) ==>
      r == Ok(QueryUnknown(Get(response.fields, "message")))
    ensures response.JObj? && |response.fields| > 0 && EqualsZero(Get(response.fields, "code")) ==>
      var data := GetOr(response.fields, "data", JObj(map[]));
      !data.JObj? ==> r == Raised(NoGetMessage(data))
    ensures r.Ok? && "task_id" in r.value <==> ReadablePoll(response)
    ensures r.Ok? && "task_id" !in r.value ==> r.value.Keys == {"status", "error"} && r.value["status"] == JStr("unknown")
  {
    if !Truthy(response) then Ok(QueryUnknown(JStr(UNKNOWN_ERROR)))
    else if !response.JObj? then Raised(NoGetMessage(response))
    else if !EqualsZero(Get(response.fields, "code")) then Ok(QueryUnknown(Get(response.fields, "message")))
    else
      var data := GetOr(response.fields, "data", JObj(map[]));
      if !data.JObj? then Raised(NoGetMessage(data))
      else
        var apiStatus := Get(data.fields, "status");
        match MapStatus(apiStatus)
        case Raised(e) => Raised(e)
        case Ok(status) =>
          var result := map["task_id" := JStr(taskId), "status" := JStr(status),
                            "progress" := GetOr(data.fields, "progress", JInt(0)),
                            "cost" := GetOr(data.fields, "cost", JNull)];
          if apiStatus == JStr("success") then
            var output := GetOr(data.fields, "output", JObj(map[]));
            if !output.JObj? then Raised(NoGetMessage(output))
            else Ok(result["video_url" := Get(output.fields, "video_url")])
          else if apiStatus == JStr("failed") then
            Ok(result["error" := GetOr(data.fields, "error_msg", JNull)])
          else
            Ok(result)
  }

  /**
   * `query_video_task` given the API's answer: an unreadable answer is
   * "unknown" with an error; a readable one reports the unified status,
   * the progress (0 when absent), the URL once the job succeeded and the
   * API's error text once it failed.
   */
  function QueryVideoTask(taskId: string, reply: Reply): (r: Dict)
    ensures "status" in r && r["status"].JStr? && r["status"].s in UNIFIED_STATUSES
    ensures !Truthy(CallVideoApi(reply)) ==> r == QueryUnknown(JStr(UNKNOWN_ERROR))
    ensures var resp := CallVideoApi(reply);
      Truthy(resp) && !resp.JObj? ==> r == QueryUnknown(JStr(NoGetMessage(resp)))
    ensures var resp := CallVideoApi(reply);
      resp.JObj? && |resp.fields| > 0 && !EqualsZero(Get(resp.fields, "code")) ==>
        r == QueryUnknown(Get(resp.fields, "message"))
    ensures var resp := CallVideoApi(reply);
      resp.JObj? && |resp.fields| > 0 && EqualsZero(Get(resp.fields, "code")) ==>
        var data := GetOr(resp.fields, "data", JObj(map[]));
        !data.JObj? ==> r == QueryUnknown(JStr(NoGetMessage(data)))
    ensures "task_id" in r <==> ReadablePoll(CallVideoApi(reply))
    ensures "task_id" in r ==>
      && CallVideoApi(reply).JObj?
      && var data := GetOr(CallVideoApi(reply).fields, "data", JObj(map[]));
      && data.JObj?
      && r["task_id"] == JStr(taskId)
      && MapStatus(Get(data.fields, "status")) == Ok(r["status"].s)
      && "progress" in r && r["progress"] == GetOr(data.fields, "progress", JInt(0))
      && "cost" in r && r["cost"] == Get(data.fields, "cost")
      && ("video_url" in r <==> Get(data.fields, "status") == JStr("success"))
      && ("video_url" in r ==> r["video_url"] == Get(GetOr(data.fields, "output", JObj(map[])).fields, "video_url"))
      && ("error" in r <==> Get(data.fields, "status") == JStr("failed"))
      && ("error" in r ==> r["error"] == Get(data.fields, "error_msg"))
    ensures "task_id" !in r ==> r.Keys == {"status", "error"} && r["status"] == JStr("unknown")
  {
    match QueryOutcome(taskId, CallVideoApi(reply))
    case Ok(d) => d
    case Raised(e) => QueryUnknown(JStr(e))
  }

  /** A finished job's URL comes from `data.output.video_url`. */
  lemma CompletedTaskReportsUrl(taskId: string, data: Dict, output: Dict)
    requires Get(data, "status") == JStr("success") && GetOr(data, "output", JObj(map[])) == JObj(output)
    ensures var r := QueryVideoTask(taskId, Response(200, Some(JObj(map["code" := JInt(0), "data" := JObj(data)]))));
      r["status"] == JStr("completed") && r["video_url"] == Get(output, "video_url")
  {
  }

  /** An accepted submission hands back the API's task id, the one the poll then asks about. */
  lemma SubmittedTaskIdReported(taskId: string)
    ensures var r := CreateTransitionVideo(Response(200, Some(JObj(map["code" := JInt(0),
              "data" := JObj(map["task_id" := JStr(taskId)])]))));
      r["status"] == JStr("processing") && r["task_id"] == JStr(taskId)
  {
  }

  /** A config that sets only the ratio keeps every other default. */
  lemma PartialConfigKeepsDefaults(first: string, last: string, ratio: Json)
    ensures var p := TransitionPayload(first, last, Some(map["ratio" := ratio]));
      p["ratio"] == ratio && p["duration"] == JInt(8) && p["resolution"] == JStr("720p")
      && p["prompt"] == JStr(DEFAULT_PROMPT) && p["service_tier"] == JStr("flex")
  {
  }

  /** A job the API reports as failed carries the API's `error_msg`. */
  lemma FailedTaskReportsError(taskId: string, data: Dict)
    requires Get(data, "status") == JStr("failed")
    ensures var r := QueryVideoTask(taskId, Response(200, Some(JObj(map["code" := JInt(0), "data" := JObj(data)]))));
      r["status"] == JStr("failed") && r["error"] == Get(data, "error_msg") && r["task_id"] == JStr(taskId)
  {
  }

  /** A refused poll reports "unknown" with the API's message, whatever else the answer holds. */
  lemma RefusedPollReportsMessage(taskId: string, fields: Dict, code: int)
    requires code != 0 && Get(fields, "code") == JInt(code)
    ensures QueryVideoTask(taskId, Response(200, Some(JObj(fields)))) == QueryUnknown(Get(fields, "message"))
  {
    assert "code" in fields;
  }

  /** A status the API sends as a list cannot be looked up, and the poll degrades to "unknown". */
  lemma ListStatusIsUnknown(taskId: string, items: seq<Json>)
    ensures QueryVideoTask(taskId, Response(200, Some(JObj(map["code" := JInt(0),
              "data" := JObj(map["status" := JArr(items)])]))))
      == QueryUnknown(JStr("unhashable type: 'list'"))
  {
  }

  /** `create_simple_transition`: the local fallback, five seconds between the two frames. */
  function CreateSimpleTransition(first: string, last: string): (r: Dict)
    ensures r.Keys == {"status", "message", "first_frame", "last_frame", "duration"}
    ensures r["status"] == JStr("fallback") && r["message"] == JStr("使用简化过渡效果")
    ensures r["first_frame"] == JStr(first) && r["last_frame"] == JStr(last) && r["duration"] == JInt(5)
  {
    map["status" := JStr("fallback"), "message" := JStr("使用简化过渡效果"),
        "first_frame" := JStr(first), "last_frame" := JStr(last), "duration" := JInt(5)]
  }
}
