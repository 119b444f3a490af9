/**
 * The per-visitor session state of `session_manager`: a dictionary whose
 * standard keys are filled in on first use and never overwritten after.
 * The fresh identifier `uuid.uuid4()` would mint is a parameter.
 */
module SessionManager {
  import opened JsonValue

  type State = map<string, Json>

  /** The eight keys every initialised session holds. */
  const SESSION_KEYS: set<string> := {
    "user_id", "initialized", "drawing_data", "chat_history",
    "current_artwork", "generated_music", "generated_video", "settings"}

  /** The canvas defaults: eight keys, a white background and a black 5-pixel pen. */
  const DRAWING_DEFAULTS: Dict := map[
    "strokes" := JArr([]),
    "current_canvas" := JNull,
    "undo_stack" := JArr([]),
    "redo_stack" := JArr([]),
    "background_color" := JStr("#FFFFFF"),
    "stroke_width" := JInt(5),
    "stroke_color" := JStr("#000000"),
    "revision_count" := JInt(0)]

  const SETTINGS_DEFAULTS: Dict := map[
    "voice_enabled" := JBool(true),
    "bgm_enabled" := JBool(true),
    "theme" := JStr("light")]

  /** The value each standard key starts with in a new session. */
  function Defaults(freshId: string): (d: State)
    ensures d.Keys == SESSION_KEYS
    ensures d["user_id"] == JStr(freshId)
    ensures d["initialized"] == JBool(true)
  {
    map["user_id" := JStr(freshId),
        "initialized" := JBool(true),
        "drawing_data" := JObj(DRAWING_DEFAULTS),
        "chat_history" := JArr([]),
        "current_artwork" := JNull,
        "generated_music" := JNull,
        "generated_video" := JNull,
        "settings" := JObj(SETTINGS_DEFAULTS)]
  }

  /**
   * `init_session_state`: every standard key that is absent gets its default;
   * every key already present, standard or not, keeps its value.
   */
  function InitSessionState(state: State, freshId: string): (r: State)
    ensures r.Keys == state.Keys + SESSION_KEYS
    ensures forall k :: k in state ==> r[k] == state[k]
    ensures forall k :: k in SESSION_KEYS && k !in state ==> r[k] == Defaults(freshId)[k]
  {
    var defaults := Defaults(freshId);
    map k | k in state.Keys + SESSION_KEYS :: if k in state then state[k] else defaults[k]
  }

  /** Initialising twice is initialising once, whatever identifier the second call would mint. */
  lemma InitIdempotent(state: State, id1: string, id2: string)
    ensures InitSessionState(InitSessionState(state, id1), id2) == InitSessionState(state, id1)
  {
    var once := InitSessionState(state, id1);
    var twice := InitSessionState(once, id2);
    assert twice.Keys == once.Keys;
    assert forall k :: k in once ==> twice[k] == once[k];
  }

  /** A new visitor's session is exactly the defaults. */
  lemma FreshSessionIsDefaults(freshId: string)
    ensures InitSessionState(map[], freshId) == Defaults(freshId)
  {
  }

  /** `get_state`: the stored value, or the caller's default when the key is absent. */
  function GetState(state: State, key: string, default: Json): (r: Json)
    ensures key in state ==> r == state[key]
    ensures key !in state ==> r == default
  {
    GetOr(state, key, default)
  }

  /** `set_state`: binds one key. */
  function SetState(state: State, key: string, value: Json): (r: State)
    ensures r.Keys == state.Keys + {key}
    ensures forall k :: k in state && k != key ==> r[k] == state[k]
  {
    state[key := value]
  }

  /** Reading a key just set gives the value set; other keys read as before. */
  lemma GetAfterSet(state: State, key: string, other: string, value: Json, default: Json)
    ensures GetState(SetState(state, key, value), key, default) == value
    ensures other != key ==> GetState(SetState(state, key, value), other, default) == GetState(state, other, default)
  {
  }

  /**
   * `clear_session`: everything is dropped except the user id, which is
   * carried over — as None when there was none, and a None id is then kept
   * by the re-initialisation, since the key is present.
   */
  function ClearSession(state: State, freshId: string): (r: State)
    ensures r.Keys == SESSION_KEYS
    ensures r["user_id"] == GetState(state, "user_id", JNull)
    ensures forall k :: k in SESSION_KEYS && k != "user_id" ==> r[k] == Defaults(freshId)[k]
  {
    InitSessionState(map["user_id" := GetState(state, "user_id", JNull)], freshId)
  }

  /** Only the user id depends on the freshly minted identifier. */
  lemma DefaultsDifferOnlyInUser(id1: string, id2: string)
    ensures forall k :: k in SESSION_KEYS && k != "user_id" ==> Defaults(id1)[k] == Defaults(id2)[k]
  {
  }

  /** Clearing twice is clearing once. */
  lemma ClearIdempotent(state: State, id1: string, id2: string)
    ensures ClearSession(ClearSession(state, id1), id2) == ClearSession(state, id1)
  {
    var once := ClearSession(state, id1);
    var twice := ClearSession(once, id2);
    DefaultsDifferOnlyInUser(id1, id2);
    assert twice["user_id"] == once["user_id"];
    assert forall k :: k in once ==> twice[k] == once[k];
  }

  /** Clearing an initialised session keeps the id it was given. */
  lemma ClearKeepsUser(state: State, id1: string, id2: string)
    ensures ClearSession(InitSessionState(state, id1), id2)["user_id"] == InitSessionState(state, id1)["user_id"]
  {
    assert "user_id" in InitSessionState(state, id1);
  }
}
