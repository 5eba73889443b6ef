/**
 * Values produced by `json.loads`, Python's truthiness on them, and the
 * exceptions the research code can raise while reading them.
 */
module JsonValues {
  import opened Wrappers

  /** A decoded JSON document. Numbers are integers here. */
  datatype Json =
    | JNull
    | JBool(b: bool)
    | JNum(n: int)
    | JStr(s: string)
    | JArr(items: seq<Json>)
    | JObj(fields: map<string, Json>)

  /** The exceptions that can leave a call, named after the Python exception they stand for. */
  datatype Error =
    | ChatFailed           // the chat backend raised (transport failure, rate limit)
    | AllModelsFailed      // Gemini: the failure at attempt index 2 is re-raised
    | DecodeFailed         // json.loads raised JSONDecodeError
    | KeyMissing(key: string)  // KeyError on a dict subscript
    | WrongType(fault: Fault)  // TypeError or AttributeError: a value has the wrong shape

  /** Which wrong shape a TypeError or AttributeError is about. */
  datatype Fault =
    | NotSubscriptable     // `v[key]` on a value that is not a dict
    | StringIndex          // `s["query"]` on a string yielded by iterating a dict or a string
    | NotIterable          // `for q in v` on a number, a boolean or null
    | NotAString           // a value used as a string is not one
    | NotAList             // a value sliced and used as a list of strings is not one
    | NoGetMethod          // `.get` on a value that is not a dict

  /** `bool(j)` in Python: null, false, 0, "", [] and {} are false. */
  predicate Truthy(j: Json)
    ensures !Truthy(j) <==> j == JNull || j == JBool(false) || j == JNum(0) || j == JStr("") || j == JArr([]) || j == JObj(map[])
  {
    match j
    case JNull => false
    case JBool(b) => b
    case JNum(n) => n != 0
    case JStr(s) => s != ""
    case JArr(a) => a != []
    case JObj(m) => m != map[]
  }

  /** `j[key]`: a dict lookup, KeyError for a missing key, TypeError on anything but a dict. */
  function Subscript(j: Json, key: string): (r: Result<Json, Error>)
    ensures r.Ok? <==> j.JObj? && key in j.fields
    ensures r.Ok? ==> r.value == j.fields[key]
    ensures j.JObj? && key !in j.fields ==> r == Err(KeyMissing(key))
  {
    match j
    case JObj(m) => if key in m then Ok(m[key]) else Err(KeyMissing(key))
    case _ => Err(WrongType(NotSubscriptable))
  }

  /**
   * `m.get(key, default)` on a dict; also `getattr(obj, key, default)` on an
   * object given by its attribute map.
   */
  function Get(m: map<string, Json>, key: string, default: Json): (r: Json)
    ensures key in m ==> r == m[key]
    ensures key !in m ==> r == default
  {
    if key in m then m[key] else default
  }

  /** Reads a JSON array whose elements are all strings. */
  function StringItems(items: seq<Json>): (r: Result<seq<string>, Error>)
    ensures r.Ok? <==> forall i :: 0 <= i < |items| ==> items[i].JStr?
    ensures r.Ok? ==> |r.value| == |items| && forall i :: 0 <= i < |items| ==> items[i] == JStr(r.value[i])
  {
    if items == [] then Ok([])
    else
      match StringItems(items[1..])
      case Err(e) => Err(e)
      case Ok(rest) =>
        if items[0].JStr? then Ok([items[0].s] + rest)
        else Err(WrongType(NotAString))
  }
}
