/**
 * The records of `drawing_model`: strokes, a drawing session, a saved
 * artwork and an analysis, with the dictionaries their `to_dict` methods
 * produce. Clock readings are parameters: an `Instant` carries the seconds
 * `datetime` arithmetic works with and the text `isoformat()` gives.
 */
module DrawingModel {
  import opened Wrappers
  import opened JsonValue

  datatype Instant = Instant(seconds: real, iso: string)

  datatype Stroke = Stroke(x: seq<real>, y: seq<real>, color: string, width: real, timestamp: real, tool: string)

  const DEFAULT_TOOL := "pen"

  /** A stroke as constructed without a tool: a pen stroke. */
  function NewStroke(x: seq<real>, y: seq<real>, color: string, width: real, timestamp: real): (s: Stroke)
    ensures s.tool == DEFAULT_TOOL
  {
    Stroke(x, y, color, width, timestamp, DEFAULT_TOOL)
  }

  function Floats(xs: seq<real>): (j: Json)
    ensures j.JArr? && |j.items| == |xs|
  {
    JArr(seq(|xs|, i requires 0 <= i < |xs| => JFloat(xs[i])))
  }

  /** `Stroke.to_dict`: the six fields under their own names. */
  function StrokeToDict(s: Stroke): (d: Dict)
    ensures d.Keys == {"x", "y", "color", "width", "timestamp", "tool"}
  {
    map["x" := Floats(s.x), "y" := Floats(s.y), "color" := JStr(s.color),
        "width" := JFloat(s.width), "timestamp" := JFloat(s.timestamp), "tool" := JStr(s.tool)]
  }

  /** Reads a list of floats back. */
  function FloatsOf(j: Json): Option<seq<real>> {
    if j.JArr? && forall i :: 0 <= i < |j.items| ==> j.items[i].JFloat?
    then Some(seq(|j.items|, i requires 0 <= i < |j.items| && j.items[i].JFloat? => j.items[i].f))
    else None
  }

  /** Reads a stroke dictionary back: the inverse of `StrokeToDict`. */
  function StrokeFromDict(d: Dict): Option<Stroke> {
    if "x" in d && "y" in d && "color" in d && "width" in d && "timestamp" in d && "tool" in d
       && d["color"].JStr? && d["width"].JFloat? && d["timestamp"].JFloat? && d["tool"].JStr?
    then
      var x :- FloatsOf(d["x"]);
      var y :- FloatsOf(d["y"]);
      Some(Stroke(x, y, d["color"].s, d["width"].f, d["timestamp"].f, d["tool"].s))
    else None
  }

  lemma FloatsRoundTrip(xs: seq<real>)
    ensures FloatsOf(Floats(xs)) == Some(xs)
  {
    var j := Floats(xs);
    assert forall i :: 0 <= i < |j.items| ==> j.items[i] == JFloat(xs[i]);
    var back := seq(|j.items|, i requires 0 <= i < |j.items| && j.items[i].JFloat? => j.items[i].f);
    assert back == xs;
  }

  /** A stroke's dictionary holds everything about it. */
  lemma StrokeRoundTrip(s: Stroke)
    ensures StrokeFromDict(StrokeToDict(s)) == Some(s)
  {
    FloatsRoundTrip(s.x);
    FloatsRoundTrip(s.y);
  }

  datatype DrawingData = DrawingData(
    userId: string,
    strokes: seq<Stroke>,
    backgroundColor: string,
    startTime: Instant,
    endTime: Option<Instant>,
    duration: real,
    revisionCount: int,
    strokeCount: int,
    canvasWidth: int,
    canvasHeight: int)

  /** A drawing as constructed from a user id, started at `now`: white 800x600 canvas, nothing drawn. */
  function NewDrawing(userId: string, now: Instant): (d: DrawingData)
    ensures d.strokes == [] && d.strokeCount == 0 && d.revisionCount == 0 && d.endTime.None?
    ensures d.backgroundColor == "#FFFFFF" && d.canvasWidth == 800 && d.canvasHeight == 600
  {
    DrawingData(userId, [], "#FFFFFF", now, None, 0.0, 0, 0, 800, 600)
  }

  /** The stroke counter agrees with the stroke list. */
  predicate Counted(d: DrawingData) {
    d.strokeCount == |d.strokes|
  }

  /** `add_stroke`: the stroke goes at the end, the counter goes up by one, and nothing else changes. */
  function AddStroke(d: DrawingData, s: Stroke): (r: DrawingData)
    ensures r.strokes == d.strokes + [s] && r.strokeCount == d.strokeCount + 1
    ensures r.(strokes := d.strokes, strokeCount := d.strokeCount) == d
    ensures Counted(d) ==> Counted(r)
  {
    d.(strokes := d.strokes + [s], strokeCount := d.strokeCount + 1)
  }

  function AddStrokes(d: DrawingData, ss: seq<Stroke>): DrawingData
    decreases |ss|
  {
    if |ss| == 0 then d else AddStrokes(AddStroke(d, ss[0]), ss[1..])
  }

  /** Starting fresh and adding strokes one by one, the counter equals the number added and the strokes keep their order. */
  lemma {:induction false} AddStrokesCounts(d: DrawingData, ss: seq<Stroke>)
    requires Counted(d)
    ensures AddStrokes(d, ss).strokes == d.strokes + ss
    ensures Counted(AddStrokes(d, ss))
    decreases |ss|
  {
    if |ss| > 0 {
      AddStrokesCounts(AddStroke(d, ss[0]), ss[1..]);
      assert d.strokes + [ss[0]] + ss[1..] == d.strokes + ss;
    }
  }

  /** `get_duration`: seconds from the start to the end time, or to now while the drawing is open. */
  function GetDuration(d: DrawingData, now: Instant): (r: real)
    ensures d.endTime.Some? ==> r + d.startTime.seconds == d.endTime.value.seconds
    ensures d.endTime.None? ==> r + d.startTime.seconds == now.seconds
  {
    match d.endTime
    case Some(e) => e.seconds - d.startTime.seconds
    case None => now.seconds - d.startTime.seconds
  }

  /** `DrawingData.to_dict`: nine keys, the end time not among them; the duration is computed afresh. */
  function DrawingToDict(d: DrawingData, now: Instant): (r: Dict)
    ensures r.Keys == {"user_id", "strokes", "background_color", "start_time", "duration",
                       "revision_count", "stroke_count", "canvas_width", "canvas_height"}
    ensures r["duration"] == JFloat(GetDuration(d, now))
    ensures r["strokes"].JArr? && |r["strokes"].items| == |d.strokes|
    ensures forall i :: 0 <= i < |d.strokes| ==> r["strokes"].items[i] == JObj(StrokeToDict(d.strokes[i]))
  {
    map["user_id" := JStr(d.userId),
        "strokes" := JArr(seq(|d.strokes|, i requires 0 <= i < |d.strokes| => JObj(StrokeToDict(d.strokes[i])))),
        "background_color" := JStr(d.backgroundColor),
        "start_time" := JStr(d.startTime.iso),
        "duration" := JFloat(GetDuration(d, now)),
        "revision_count" := JInt(d.revisionCount),
        "stroke_count" := JInt(d.strokeCount),
        "canvas_width" := JInt(d.canvasWidth),
        "canvas_height" := JInt(d.canvasHeight)]
  }

  /** Once the drawing is closed its dictionary no longer depends on the clock. */
  lemma ClosedDrawingIsStable(d: DrawingData, now1: Instant, now2: Instant)
    requires d.endTime.Some?
    ensures DrawingToDict(d, now1) == DrawingToDict(d, now2)
  {
  }

  /** The five analysis dimensions, as stored on an artwork and in `AnalysisResult`. */
  datatype Analyses = Analyses(theme: Dict, color: Dict, composition: Dict, emotional: Dict, development: Dict)

  const ANALYSIS_KEYS: set<string> :=
    {"theme_analysis", "color_analysis", "composition_analysis", "emotional_analysis", "development_analysis"}

  /** `AnalysisResult.to_dict`. */
  function AnalysisToDict(a: Analyses): (r: Dict)
    ensures r.Keys == ANALYSIS_KEYS
  {
    map["theme_analysis" := JObj(a.theme), "color_analysis" := JObj(a.color),
        "composition_analysis" := JObj(a.composition), "emotional_analysis" := JObj(a.emotional),
        "development_analysis" := JObj(a.development)]
  }

  function AnalysisFromDict(d: Dict): Option<Analyses> {
    if ANALYSIS_KEYS <= d.Keys && d["theme_analysis"].JObj? && d["color_analysis"].JObj?
       && d["composition_analysis"].JObj? && d["emotional_analysis"].JObj? && d["development_analysis"].JObj?
    then Some(Analyses(d["theme_analysis"].fields, d["color_analysis"].fields, d["composition_analysis"].fields,
                       d["emotional_analysis"].fields, d["development_analysis"].fields))
    else None
  }

  /** An analysis dictionary holds the five dimensions unchanged. */
  lemma AnalysisRoundTrip(a: Analyses)
    ensures AnalysisFromDict(AnalysisToDict(a)) == Some(a)
  {
    var d := AnalysisToDict(a);
    assert "theme_analysis" in d && "color_analysis" in d && "composition_analysis" in d
      && "emotional_analysis" in d && "development_analysis" in d;
  }

  datatype Artwork = Artwork(
    artworkId: string,
    userId: string,
    title: string,
    description: string,
    drawingData: Option<DrawingData>,
    imagePath: Option<string>,
    createdAt: Instant,
    analyses: Analyses,
    musicUrl: Option<string>,
    musicPath: Option<string>,
    musicFileId: Option<string>,
    voiceFeedback: Option<string>,
    voiceFeedbackUrl: Option<string>,
    videoUrl: Option<string>,
    videoPath: Option<string>,
    videoTaskId: Option<string>,
    tags: seq<string>,
    isPublic: bool)

  /** An artwork as constructed from its ids at `now`: untitled, private, nothing generated yet. */
  function NewArtwork(artworkId: string, userId: string, now: Instant): (a: Artwork)
    ensures a.title == "未命名作品" && a.description == "" && !a.isPublic && a.tags == []
    ensures a.drawingData.None? && a.musicUrl.None? && a.videoTaskId.None?
  {
    Artwork(artworkId, userId, "未命名作品", "", None, None, now, Analyses(map[], map[], map[], map[], map[]),
            None, None, None, None, None, None, None, None, [], false)
  }

  const IDENTITY_KEYS: set<string> :=
    {"artwork_id", "user_id", "title", "description", "drawing_data", "image_path", "created_at"}

  const PRODUCT_KEYS: set<string> :=
    {"music_url", "music_path", "voice_feedback", "voice_feedback_url", "video_url", "video_path", "tags", "is_public"}

  /** The twenty keys of an artwork's dictionary. */
  const ARTWORK_KEYS: set<string> := IDENTITY_KEYS + ANALYSIS_KEYS + PRODUCT_KEYS

  /**
   * `Artwork.to_dict`: twenty keys, leaving out the music file id and the
   * video task id; a missing drawing is None, a present one its own dict.
   */
  function ArtworkToDict(a: Artwork, now: Instant): (r: Dict)
    ensures r.Keys == ARTWORK_KEYS
    ensures a.drawingData.None? ==> r["drawing_data"] == JNull
    ensures a.drawingData.Some? ==> r["drawing_data"] == JObj(DrawingToDict(a.drawingData.value, now))
  {
    assert "drawing_data" !in ANALYSIS_KEYS + PRODUCT_KEYS;
    Identity(a, now) + AnalysisToDict(a.analyses) + Products(a)
  }

  /** The music file id and the video task id stay out of an artwork's dictionary. */
  lemma ArtworkDictOmitsIds(a: Artwork, now: Instant)
    ensures "music_file_id" !in ArtworkToDict(a, now) && "video_task_id" !in ArtworkToDict(a, now)
  {
    assert "music_file_id" !in IDENTITY_KEYS && "music_file_id" !in ANALYSIS_KEYS && "music_file_id" !in PRODUCT_KEYS;
    assert "video_task_id" !in IDENTITY_KEYS && "video_task_id" !in ANALYSIS_KEYS && "video_task_id" !in PRODUCT_KEYS;
  }

  /** The descriptive fields of an artwork's dictionary. */
  function Identity(a: Artwork, now: Instant): (r: Dict)
    ensures r.Keys == IDENTITY_KEYS
    ensures a.drawingData.None? ==> r["drawing_data"] == JNull
    ensures a.drawingData.Some? ==> r["drawing_data"] == JObj(DrawingToDict(a.drawingData.value, now))
  {
    map["artwork_id" := JStr(a.artworkId),
        "user_id" := JStr(a.userId),
        "title" := JStr(a.title),
        "description" := JStr(a.description),
        "drawing_data" := (match a.drawingData case Some(d) => JObj(DrawingToDict(d, now)) case None => JNull),
        "image_path" := OptStr(a.imagePath),
        "created_at" := JStr(a.createdAt.iso)]
  }

  /** The generated media, tags and visibility of an artwork's dictionary. */
  function Products(a: Artwork): (r: Dict)
    ensures r.Keys == PRODUCT_KEYS
  {
    map["music_url" := OptStr(a.musicUrl),
        "music_path" := OptStr(a.musicPath),
        "voice_feedback" := OptStr(a.voiceFeedback),
        "voice_feedback_url" := OptStr(a.voiceFeedbackUrl),
        "video_url" := OptStr(a.videoUrl),
        "video_path" := OptStr(a.videoPath),
        "tags" := JArr(seq(|a.tags|, i requires 0 <= i < |a.tags| => JStr(a.tags[i]))),
        "is_public" := JBool(a.isPublic)]
  }

  /** Two artworks that differ only in the music file id and the video task id serialise alike. */
  lemma ArtworkDictIgnoresIds(a: Artwork, musicFileId: Option<string>, videoTaskId: Option<string>, now: Instant)
    ensures ArtworkToDict(a.(musicFileId := musicFileId, videoTaskId := videoTaskId), now) == ArtworkToDict(a, now)
  {
  }
}
