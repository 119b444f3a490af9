/**
 * `CozeService`: runs the music, comment and video workflows through the
 * streaming workflow API and reshapes what they return. The stream is an
 * input (the events the SDK delivered, or the exception it raised) and
 * `json.loads` is a parameter that yields `None` where it would raise
 * `JSONDecodeError`.
 */
module CozeService {
  import opened Wrappers
  import opened JsonValue
  import Text

  const DEFAULT_MUSIC_WORKFLOW := "7601786439168229386"
  const DEFAULT_COMMENT_WORKFLOW := "7601786024813445158"
  const DEFAULT_VIDEO_WORKFLOW := "7602166946105556998"

  const NO_DATA_MESSAGE := "工作流执行完成但未返回数据"
  const UNKNOWN_ERROR := "未知错误"
  const NO_TOKEN_MESSAGE := "请配置 COZE_API_TOKEN"

  /**
   * The token the constructor keeps: a string value stripped of surrounding
   * whitespace; a missing, falsy or non-string value becomes "".
   */
  function ApiToken(config: Dict): (t: string)
    ensures (Get(config, "api_token").JStr? ==> t == Text.Strip(Get(config, "api_token").s))
    ensures !Get(config, "api_token").JStr? ==> t == ""
  {
    match Or(Get(config, "api_token"), JStr(""))
    case JStr(s) => Text.Strip(s)
    case _ => ""
  }

  /** A client is created, and the workflows may run, only for a non-empty token. */
  predicate Configured(config: Dict) {
    ApiToken(config) != ""
  }

  /** The three workflow ids, each taken from the config or defaulted. */
  datatype Workflows = Workflows(music: Json, comment: Json, video: Json)

  function WorkflowIds(config: Dict): (w: Workflows)
    ensures "workflow_id" !in config ==> w.music == JStr(DEFAULT_MUSIC_WORKFLOW)
    ensures "comment_workflow_id" !in config ==> w.comment == JStr(DEFAULT_COMMENT_WORKFLOW)
    ensures "video_workflow_id" !in config ==> w.video == JStr(DEFAULT_VIDEO_WORKFLOW)
    ensures "workflow_id" in config ==> w.music == config["workflow_id"]
    ensures "comment_workflow_id" in config ==> w.comment == config["comment_workflow_id"]
    ensures "video_workflow_id" in config ==> w.video == config["video_workflow_id"]
  {
    Workflows(
      GetOr(config, "workflow_id", JStr(DEFAULT_MUSIC_WORKFLOW)),
      GetOr(config, "comment_workflow_id", JStr(DEFAULT_COMMENT_WORKFLOW)),
      GetOr(config, "video_workflow_id", JStr(DEFAULT_VIDEO_WORKFLOW)))
  }

  /** The result every feature returns when no token is configured. */
  function NotConfigured(feature: string): (r: Dict)
    ensures r.Keys == {"status", "error"} && r["status"] == JStr("failed")
    ensures r["error"] == JStr("请先在 .env 中配置 COZE_API_TOKEN 和 COZE_BOT_ID 后再使用" + feature)
  {
    map["status" := JStr("failed"),
        "error" := JStr("请先在 .env 中配置 COZE_API_TOKEN 和 COZE_BOT_ID 后再使用" + feature)]
  }

  /** A failure dict. */
  function Failed(error: Json): Dict {
    map["status" := JStr("failed"), "error" := error]
  }

  // ---------------------------------------------------------------------------
  // The event stream

  datatype WorkflowEvent =
    | Message(content: string)
    | ErrorEvent(error: string)
    | OtherEvent

  /** What iterating the stream produced: every event, or an exception with its text. */
  datatype StreamRun = Delivered(events: seq<WorkflowEvent>) | Raised(message: string)

  /** A MESSAGE event whose non-empty content parses. */
  predicate Parses(e: WorkflowEvent, parse: string -> Option<Json>) {
    e.Message? && |e.content| > 0 && parse(e.content).Some?
  }

  /** Reference reading of the loop: the value of the last MESSAGE that parsed, or None. */
  function LastData(events: seq<WorkflowEvent>, parse: string -> Option<Json>): Json {
    if |events| == 0 then JNull
    else if Parses(events[|events| - 1], parse) then parse(events[|events| - 1].content).value
    else LastData(events[..|events| - 1], parse)
  }

  /** Reference reading of the loop: the text of the last ERROR event, or None. */
  function LastError(events: seq<WorkflowEvent>): Json {
    if |events| == 0 then JNull
    else if events[|events| - 1].ErrorEvent? then JStr(events[|events| - 1].error)
    else LastError(events[..|events| - 1])
  }

  /**
   * The dict built once the stream is drained: truthy dict data gives
   * success with the three URL keys resolved by precedence and the data kept
   * as `raw_data`; truthy data of any other shape fails on its missing
   * `.get`; falsy data fails with the recorded error, or with the no-data
   * message when that is absent or empty.
   */
  function Outcome(data: Json, error: Json): (r: Dict)
    ensures "status" in r && (r["status"] == JStr("success") <==> Truthy(data) && data.JObj?)
    ensures Truthy(data) && data.JObj? ==>
      && r.Keys == {"status", "music_url", "emotion", "comment_url", "comment_text", "video_url", "raw_data"}
      && r["raw_data"] == data
    ensures !(Truthy(data) && data.JObj?) ==> r.Keys == {"status", "error"} && r["status"] == JStr("failed")
    ensures Truthy(data) && !data.JObj? ==> r["error"] == JStr(NoGetMessage(data))
    ensures !Truthy(data) ==> r["error"] == (if Truthy(error) then error else JStr(NO_DATA_MESSAGE))
  {
    if Truthy(data) then
      match data
      case JObj(d) =>
        map["status" := JStr("success"),
            "music_url" := Or(Get(d, "AudioUrl"), Get(d, "music_url")),
            "emotion" := Get(d, "emotion"),
            "comment_url" := Or(Get(d, "comment_audio"), Get(d, "comment_url")),
            "comment_text" := Get(d, "comment_text"),
            "video_url" := Or(Get(d, "video_url"), Get(d, "VideoUrl")),
            "raw_data" := data]
      case _ => Failed(JStr(NoGetMessage(data)))
    else
      Failed(Or(error, JStr(NO_DATA_MESSAGE)))
  }

  /**
   * `_execute_workflow_stream`: fold the events, keeping the last parsed
   * MESSAGE as the data and the last ERROR as the error, then shape the
   * outcome. An exception from the stream fails with its text.
   */
  method ExecuteWorkflowStream(configured: bool, run: StreamRun, parse: string -> Option<Json>) returns (r: Dict)
    ensures !configured ==> r == Failed(JStr(NO_TOKEN_MESSAGE))
    ensures configured && run.Raised? ==> r == Failed(JStr(run.message))
    ensures configured && run.Delivered? ==> r == Outcome(LastData(run.events, parse), LastError(run.events))
  {
    if !configured {
      return Failed(JStr(NO_TOKEN_MESSAGE));
    }
    if run.Raised? {
      return Failed(JStr(run.message));
    }
    var events := run.events;
    var data, error := JNull, JNull;
    var i := 0;
    while i < |events|
      invariant 0 <= i <= |events|
      invariant data == LastData(events[..i], parse)
      invariant error == LastError(events[..i])
    {
      assert events[..i + 1][..i] == events[..i];
      match events[i] {
        case Message(content) =>
          if |content| > 0 && parse(content).Some? {
            data := parse(content).value;
          }
        case ErrorEvent(e) =>
          error := JStr(e);
        case OtherEvent =>
      }
      i := i + 1;
    }
    assert events[..|events|] == events;
    r := Outcome(data, error);
  }

  // ---------------------------------------------------------------------------
  // The three features

  /** `result.get("error") if result else "未知错误"` for a non-success result. */
  function FailureOf(result: Dict): Dict {
    Failed(if |result| > 0 then Get(result, "error") else JStr(UNKNOWN_ERROR))
  }

  predicate Succeeded(result: Dict) {
    |result| > 0 && Get(result, "status") == JStr("success")
  }

  /** `generate_music_from_image` given what the workflow returned. */
  function GenerateMusic(configured: bool, workflowId: Json, result: Dict): (r: Dict)
    ensures !configured ==> r == NotConfigured("音乐生成")
    ensures configured && Succeeded(result) ==>
      r == map["music_url" := Get(result, "music_url"), "emotion" := Get(result, "emotion"),
               "status" := JStr("success"), "workflow_id" := workflowId]
    ensures configured && !Succeeded(result) ==> r == FailureOf(result)
  {
    if !configured then NotConfigured("音乐生成")
    else if Succeeded(result) then
      map["music_url" := Get(result, "music_url"), "emotion" := Get(result, "emotion"),
          "status" := JStr("success"), "workflow_id" := workflowId]
    else FailureOf(result)
  }

  /** `generate_voice_comment` given what the workflow returned. */
  function GenerateComment(configured: bool, result: Dict): (r: Dict)
    ensures !configured ==> r == NotConfigured("点评")
    ensures configured && Succeeded(result) ==>
      r == map["comment_url" := Get(result, "comment_url"), "comment_text" := Get(result, "comment_text"),
               "status" := JStr("success")]
    ensures configured && !Succeeded(result) ==> r == FailureOf(result)
  {
    if !configured then NotConfigured("点评")
    else if Succeeded(result) then
      map["comment_url" := Get(result, "comment_url"), "comment_text" := Get(result, "comment_text"),
          "status" := JStr("success")]
    else FailureOf(result)
  }

  /** `generate_video_from_image` given what the workflow returned. */
  function GenerateVideo(configured: bool, result: Dict): (r: Dict)
    ensures !configured ==> r == NotConfigured("视频生成")
    ensures configured && Succeeded(result) ==>
      r == map["video_url" := Get(result, "video_url"), "status" := JStr("success")]
    ensures configured && !Succeeded(result) ==> r == FailureOf(result)
  {
    if !configured then NotConfigured("视频生成")
    else if Succeeded(result) then map["video_url" := Get(result, "video_url"), "status" := JStr("success")]
    else FailureOf(result)
  }

  /** `upload_image_to_coze`: no file id without a client, otherwise whatever the upload returned (None on failure). */
  function UploadImage(configured: bool, uploaded: Option<string>): (r: Option<string>)
    ensures !configured ==> r.None?
    ensures configured ==> r == uploaded
  {
    if configured then uploaded else None
  }

  // ---------------------------------------------------------------------------
  // Properties of the whole workflow

  /** Appending a MESSAGE that parses makes its value the data, whatever came before. */
  lemma LaterMessageOverwrites(events: seq<WorkflowEvent>, content: string, parse: string -> Option<Json>)
    requires |content| > 0 && parse(content).Some?
    ensures LastData(events + [Message(content)], parse) == parse(content).value
  {
    assert (events + [Message(content)])[|events|] == Message(content);
  }

  /** An ERROR event leaves the data alone, so it cannot undo an earlier success. */
  lemma ErrorKeepsData(events: seq<WorkflowEvent>, error: string, parse: string -> Option<Json>)
    ensures LastData(events + [ErrorEvent(error)], parse) == LastData(events, parse)
    ensures LastError(events + [ErrorEvent(error)]) == JStr(error)
  {
    assert (events + [ErrorEvent(error)])[..|events|] == events;
  }

  /**
   * Key precedence end to end: when the data's `AudioUrl` is truthy the
   * music feature reports it; otherwise it reports `music_url`.
   */
  lemma MusicUrlPrecedence(d: Dict, error: Json, workflowId: Json)
    requires |d| > 0
    ensures GenerateMusic(true, workflowId, Outcome(JObj(d), error))["music_url"]
      == (if Truthy(Get(d, "AudioUrl")) then Get(d, "AudioUrl") else Get(d, "music_url"))
  {
    var res := Outcome(JObj(d), error);
    assert res["status"] == JStr("success");
  }

  /** The comment feature prefers `comment_audio` over `comment_url`. */
  lemma CommentUrlPrecedence(d: Dict, error: Json)
    requires |d| > 0
    ensures GenerateComment(true, Outcome(JObj(d), error))["comment_url"]
      == (if Truthy(Get(d, "comment_audio")) then Get(d, "comment_audio") else Get(d, "comment_url"))
  {
    var res := Outcome(JObj(d), error);
    assert res["status"] == JStr("success");
  }

  /** The video feature prefers lower-case `video_url` over `VideoUrl`. */
  lemma VideoUrlPrecedence(d: Dict, error: Json)
    requires |d| > 0
    ensures GenerateVideo(true, Outcome(JObj(d), error))["video_url"]
      == (if Truthy(Get(d, "video_url")) then Get(d, "video_url") else Get(d, "VideoUrl"))
  {
    var res := Outcome(JObj(d), error);
    assert res["status"] == JStr("success");
  }

  /** With no usable data the feature reports the stream's error text, or the no-data message. */
  lemma NoDataReachesFeature(error: Json)
    ensures GenerateVideo(true, Outcome(JNull, error))
      == Failed(if Truthy(error) then error else JStr(NO_DATA_MESSAGE))
  {
    var res := Outcome(JNull, error);
    assert |res| > 0 by {
      assert "status" in res;
    }
  }
}
