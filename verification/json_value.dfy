/**
 * JSON documents as Python's `json` module hands them to the application,
 * together with the bits of Python semantics the services lean on:
 * truthiness, `dict.get`, `a or b`, and the text of the AttributeError raised
 * when `.get` is called on something that is not a dict.
 */
module JsonValue {
  import opened Wrappers

  datatype Json =
    | JNull
    | JBool(b: bool)
    | JInt(i: int)
    | JFloat(f: real)
    | JStr(s: string)
    | JArr(items: seq<Json>)
    | JObj(fields: map<string, Json>)

  /** A Python dict with string keys, as the services build and return them. */
  type Dict = map<string, Json>

  /** Python's `bool(x)` for a JSON value. */
  predicate Truthy(j: Json) {
    match j
    case JNull => false
    case JBool(b) => b
    case JInt(i) => i != 0
    case JFloat(f) => f != 0.0
    case JStr(s) => |s| > 0
    case JArr(items) => |items| > 0
    case JObj(fields) => |fields| > 0
  }

  /** Python's `a or b`: the first operand when it is truthy, else the second. */
  function Or(a: Json, b: Json): Json {
    if Truthy(a) then a else b
  }

  /** `d.get(k)`: the value under `k`, or None. */
  function Get(d: Dict, k: string): Json {
    if k in d then d[k] else JNull
  }

  /** `d.get(k, default)`. */
  function GetOr(d: Dict, k: string, default: Json): Json {
    if k in d then d[k] else default
  }

  /** `j[k]` on a dict; every other shape raises or fails the membership test. */
  function Lookup(j: Json, k: string): Option<Json> {
    if j.JObj? && k in j.fields then Some(j.fields[k]) else None
  }

  /** `x[k]` on a JSON list with an integer index; anything else raises. */
  function Index(j: Json, k: nat): Option<Json> {
    if j.JArr? && k < |j.items| then Some(j.items[k]) else None
  }

  /** Python's `==` against the integer 0: `0`, `0.0` and `False` all compare equal. */
  predicate EqualsZero(j: Json) {
    j == JInt(0) || j == JFloat(0.0) || j == JBool(false)
  }

  /** `type(x).__name__` for a JSON value. */
  function TypeName(j: Json): string {
    match j
    case JNull => "NoneType"
    case JBool(_) => "bool"
    case JInt(_) => "int"
    case JFloat(_) => "float"
    case JStr(_) => "str"
    case JArr(_) => "list"
    case JObj(_) => "dict"
  }

  /** The message of the AttributeError raised by `x.get(...)` when `x` is not a dict. */
  function NoGetMessage(j: Json): string {
    "'" + TypeName(j) + "' object has no attribute 'get'"
  }

  /** `JStr` of a Python `Optional[str]`. */
  function OptStr(s: Option<string>): Json {
    match s
    case Some(t) => JStr(t)
    case None => JNull
  }

  /** `x.get(k, default)` on any value: dicts answer, everything else raises AttributeError. */
  function MethodGet(j: Json, k: string, default: Json): (r: Result<Json>)
    ensures r.Ok? <==> j.JObj?
    ensures j.JObj? && k in j.fields ==> r == Ok(j.fields[k])
    ensures j.JObj? && k !in j.fields ==> r == Ok(default)
    ensures !j.JObj? ==> r == Raised(NoGetMessage(j))
  {
    if j.JObj? then Ok(GetOr(j.fields, k, default)) else Raised(NoGetMessage(j))
  }
}
