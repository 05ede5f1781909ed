/** Values shared by every module of the model: optional values, results and
    the JSON values that the JavaScript and Python parsers produce. */
module Common {

  datatype Option<+T> = None | Some(value: T) {
    function GetOr(default: T): T {
      match this
      case Some(v) => v
      case None => default
    }
  }

  datatype Result<+R, +E> = Ok(value: R) | Err(error: E)

  /** The index of the first element satisfying `p`, as a loop with an early
      return finds it. */
  function FirstIndexWhere<T>(xs: seq<T>, p: T -> bool): (r: Option<nat>)
    ensures r.Some? ==> r.value < |xs| && p(xs[r.value])
    ensures r.Some? ==> forall j :: 0 <= j < r.value ==> !p(xs[j])
    ensures r.None? <==> forall j :: 0 <= j < |xs| ==> !p(xs[j])
  {
    if xs == [] then None
    else if p(xs[0]) then Some(0)
    else
      match FirstIndexWhere(xs[1..], p)
      case None => None
      case Some(k) => Some(k + 1)
  }

  /** A loop that stops at the first element satisfying `p` finds what
      `FirstIndexWhere` names. */
  lemma FirstIndexWhereAt<T>(xs: seq<T>, p: T -> bool, i: nat)
    requires i < |xs| && p(xs[i])
    requires forall j :: 0 <= j < i ==> !p(xs[j])
    ensures FirstIndexWhere(xs, p) == Some(i)
  {
  }

  /** A parsed JSON document. Numbers are kept as integers: the model never
      inspects a number, it only passes parsed values along. */
  datatype Json =
    | JNull
    | JBool(b: bool)
    | JNumber(n: int)
    | JString(s: string)
    | JArray(items: seq<Json>)
    | JObject(fields: map<string, Json>)

  /** A JSON parser (`JSON.parse`, `json.loads`): None when it throws. */
  type JsonParser = string -> Option<Json>

  /** The result of a JavaScript property read `value.key`: reading a
      property of `null` throws a TypeError, a missing property is
      `undefined`. */
  datatype Property = Throws | Undefined | Defined(value: Json)

  function GetProperty(value: Json, key: string): (p: Property)
    ensures p.Throws? <==> value.JNull?
    ensures p.Defined? ==> value.JObject? && key in value.fields && p.value == value.fields[key]
  {
    match value
    case JNull => Throws
    case JObject(fields) => if key in fields then Defined(fields[key]) else Undefined
    case _ => Undefined
  }
}
