/**
 * `MultimodalService`: the five-dimension drawing analysis and the spirit's
 * spoken feedback, both asked of a chat-completions endpoint. The HTTP
 * exchange is an input and `json.loads` is a parameter.
 */
module MultimodalService {
  import opened Wrappers
  import opened JsonValue
  import Text
  import opened Http

  /** `data['choices'][0]['message']['content']`, or None where any step raises. */
  function ReplyContent(body: Json): Option<Json> {
    var choices :- Lookup(body, "choices");
    var first :- Index(choices, 0);
    var message :- Lookup(first, "message");
    Lookup(message, "content")
  }

  /**
   * `_call_qwen_omini`: the message content of a 200 reply; "" for any
   * other status, a transport error, or a body without that path.
   */
  function CallQwen(reply: Reply): (r: Json)
    ensures !IsOk(reply) ==> r == JStr("")
    ensures IsOk(reply) && reply.body.Some? && ReplyContent(reply.body.value).Some?
      ==> r == ReplyContent(reply.body.value).value
    ensures IsOk(reply) && (reply.body.None? || ReplyContent(reply.body.value).None?)
      ==> r == JStr("")
  {
    match reply
    case TransportError => JStr("")
    case Response(code, body) =>
      if code != 200 || body.None? then JStr("")
      else ReplyContent(body.value).GetOr(JStr(""))
  }

  /** The fallback analysis: five dimensions, with a composition balance score of 70. */
  function DefaultAnalysis(): (r: Json)
    ensures r.JObj? && r.fields.Keys == {"theme_analysis", "color_analysis", "composition_analysis",
                                         "emotional_analysis", "development_analysis"}
    ensures Lookup(r.fields["composition_analysis"], "balance_score") == Some(JInt(70))
  {
    JObj(map[
      "theme_analysis" := JObj(map[
        "main_theme" := JStr("创意作品"),
        "elements" := JArr([JStr("色彩"), JStr("形状")]),
        "story_hint" := JStr("等待发现...")]),
      "color_analysis" := JObj(map[
        "dominant_colors" := JArr([JStr("未检测")]),
        "emotional_tone" := JStr("正面"),
        "color_psychology" := JStr("色彩丰富")]),
      "composition_analysis" := JObj(map[
        "composition_type" := JStr("自由构图"),
        "balance_score" := JInt(70),
        "focus_point" := JStr("整体作品")]),
      "emotional_analysis" := JObj(map[
        "primary_emotions" := JArr([JStr("快乐"), JStr("创意")]),
        "expression_style" := JStr("自由表达"),
        "confidence_level" := JStr("有信心")]),
      "development_analysis" := JObj(map[
        "stage" := JStr("创意期"),
        "age_range" := JStr("4-8岁"),
        "milestones" := JArr([JStr("大胆创作")]),
        "suggestions" := JArr([JStr("继续探索"), JStr("尝试新元素")])])
    ])
  }

  /** The span from the first `{` to the last `}` inclusive, when the last comes at or after the first. */
  function ObjectSpan(s: string): (r: Option<(nat, nat)>)
    ensures r.Some? ==> r.value.0 < r.value.1 <= |s| && s[r.value.0] == '{' && s[r.value.1 - 1] == '}'
    ensures r.Some? ==> (forall k :: 0 <= k < r.value.0 ==> s[k] != '{')
                        && (forall k :: r.value.1 <= k < |s| ==> s[k] != '}')
    ensures r.None? ==> forall i, j :: 0 <= i <= j < |s| && s[i] == '{' ==> s[j] != '}'
  {
    var start := Text.Find(s, "{");
    var end := Text.RFind(s, '}') + 1;
    if start >= 0 && end > start then
      assert s[start..start + 1] == "{";
      forall k | 0 <= k < start
        ensures s[k] != '{'
      {
        assert !Text.OccursAt(s, "{", k);
        assert s[k..k + 1] == [s[k]];
      }
      Some((start, end))
    else
      assert forall k :: 0 <= k < |s| ==> !Text.OccursAt(s, "{", k) || start <= k;
      forall i, j | 0 <= i <= j < |s| && s[i] == '{'
        ensures s[j] != '}'
      {
        assert s[i..i + 1] == "{";
        assert Text.OccursAt(s, "{", i);
        assert 0 <= start <= i;
      }
      None
  }

  /**
   * `_parse_analysis_response`: whatever `json.loads` makes of the span
   * from the first `{` to the last `}`, not necessarily a dict; the default
   * analysis when there is no such span, the span does not parse, or the
   * response is not a string at all.
   */
  function ParseAnalysisResponse(response: Json, parse: string -> Option<Json>): (r: Json)
    ensures !response.JStr? ==> r == DefaultAnalysis()
    ensures response.JStr? && ObjectSpan(response.s).None? ==> r == DefaultAnalysis()
    ensures response.JStr? && ObjectSpan(response.s).Some? ==>
      var (a, b) := ObjectSpan(response.s).value;
      r == parse(response.s[a..b]).GetOr(DefaultAnalysis())
  {
    match response
    case JStr(s) =>
      (match ObjectSpan(s)
       case None => DefaultAnalysis()
       case Some((a, b)) => parse(s[a..b]).GetOr(DefaultAnalysis()))
    case _ => DefaultAnalysis()
  }

  /**
   * A reply that wraps one object in prose free of braces hands exactly
   * that object to the JSON parser.
   */
  lemma EmbeddedObjectIsParsed(prefix: string, body: string, suffix: string, parse: string -> Option<Json>)
    requires |body| >= 2 && body[0] == '{' && body[|body| - 1] == '}'
    requires '{' !in prefix && '}' !in suffix
    ensures ParseAnalysisResponse(JStr(prefix + body + suffix), parse)
      == parse(body).GetOr(DefaultAnalysis())
  {
    var s := prefix + body + suffix;
    assert s[|prefix|] == '{';
    assert s[|prefix| + |body| - 1] == '}';
    var span := ObjectSpan(s);
    assert span.Some?;
    var (a, b) := span.value;
    assert forall k :: 0 <= k < |prefix| ==> s[k] == prefix[k] && s[k] != '{';
    assert a == |prefix|;
    assert forall k :: |prefix| + |body| <= k < |s| ==> s[k] == suffix[k - |prefix| - |body|] && s[k] != '}';
    assert b == |prefix| + |body|;
    assert s[a..b] == body;
  }

  /** A reply with no `{` at all, the empty reply of a failed call among them, gives the default analysis. */
  lemma NoBraceGivesDefault(s: string, parse: string -> Option<Json>)
    requires '{' !in s
    ensures ParseAnalysisResponse(JStr(s), parse) == DefaultAnalysis()
  {
    assert forall k :: 0 <= k < |s| ==> s[k] != '{';
  }

  /**
   * `analyze_drawing`: what `json.loads` makes of the brace span of the
   * reply's content. A failed call yields "", and a content without a span,
   * with a span that does not parse, or that is not a string at all falls
   * back to the default analysis.
   */
  function AnalyzeDrawing(reply: Reply, parse: string -> Option<Json>): (r: Json)
    ensures !IsOk(reply) || reply.body.None? ==> r == DefaultAnalysis()
    ensures IsOk(reply) && reply.body.Some? ==>
      match ReplyContent(reply.body.value)
      case None => r == DefaultAnalysis()
      case Some(content) =>
        if !content.JStr? || ObjectSpan(content.s).None? then r == DefaultAnalysis()
        else
          var (a, b) := ObjectSpan(content.s).value;
          if parse(content.s[a..b]).Some? then r == parse(content.s[a..b]).value
          else r == DefaultAnalysis()
  {
    ParseAnalysisResponse(CallQwen(reply), parse)
  }

  /** A reply whose content is an object wrapped in brace-free prose is analysed as that object. */
  lemma WrappedReplyIsAnalysed(prefix: string, body: string, suffix: string, analysis: Json,
                               parse: string -> Option<Json>)
    requires |body| >= 2 && body[0] == '{' && body[|body| - 1] == '}'
    requires '{' !in prefix && '}' !in suffix
    requires parse(body) == Some(analysis)
    ensures AnalyzeDrawing(Response(200, Some(ContentReply(prefix + body + suffix))), parse) == analysis
  {
    var reply := ContentReply(prefix + body + suffix);
    assert ReplyContent(reply) == Some(JStr(prefix + body + suffix)) by {
      assert reply.fields["choices"].items[0] == JObj(map["message" := JObj(map["content" := JStr(prefix + body + suffix)])]);
    }
    EmbeddedObjectIsParsed(prefix, body, suffix, parse);
  }

  /** A 200 reply carrying `content` as its first choice's message. */
  function ContentReply(content: string): Json {
    JObj(map["choices" := JArr([JObj(map["message" := JObj(map["content" := JStr(content)])])])])
  }

  const SPIRIT_FALLBACK := "哇！你的画真有趣！继续加油！"

  /**
   * `generate_spirit_feedback`: the stripped reply text, so "" when the call
   * failed; the cheerful fallback only when the content is not a string
   * and `.strip()` raises.
   */
  function SpiritFeedback(reply: Reply): (r: string)
    ensures !IsOk(reply) ==> r == ""
    ensures CallQwen(reply).JStr? ==> r == Text.Strip(CallQwen(reply).s)
    ensures !CallQwen(reply).JStr? ==> r == SPIRIT_FALLBACK
  {
    match CallQwen(reply)
    case JStr(s) => Text.Strip(s)
    case _ => SPIRIT_FALLBACK
  }

  /** The three drawing facts both prompts interpolate, each 0 when absent. */
  datatype PromptFacts = PromptFacts(duration: Json, strokeCount: Json, revisionCount: Json)

  function PromptFactsOf(drawingInfo: Dict): (f: PromptFacts)
    ensures "duration" !in drawingInfo ==> f.duration == JInt(0)
    ensures "stroke_count" !in drawingInfo ==> f.strokeCount == JInt(0)
    ensures "revision_count" !in drawingInfo ==> f.revisionCount == JInt(0)
    ensures "duration" in drawingInfo ==> f.duration == drawingInfo["duration"]
    ensures "stroke_count" in drawingInfo ==> f.strokeCount == drawingInfo["stroke_count"]
    ensures "revision_count" in drawingInfo ==> f.revisionCount == drawingInfo["revision_count"]
  {
    PromptFacts(GetOr(drawingInfo, "duration", JInt(0)),
                GetOr(drawingInfo, "stroke_count", JInt(0)),
                GetOr(drawingInfo, "revision_count", JInt(0)))
  }
}
