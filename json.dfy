/** The JSON values that a jsonpath query can hand back, and JavaScript truthiness on them. */
module Json {
  import opened Wrappers

  /** A JSON value. Numbers are integers here: floating point is not modelled. */
  datatype Value =
    | Null
    | Bool(b: bool)
    | Number(n: int)
    | String(s: string)
    | Array(items: seq<Value>)
    | Object(fields: seq<(string, Value)>)

  /** What `assert(x)` accepts: everything except undefined, null, false, 0 and "". */
  predicate Truthy(v: Option<Value>)
  {
    match v
    case None => false
    case Some(Null) => false
    case Some(Bool(b)) => b
    case Some(Number(n)) => n != 0
    case Some(String(s)) => s != ""
    case Some(_) => true
  }

  /** `matches?.[0]`: the first match, or undefined when there is none. */
  function First(matches: seq<Value>): (r: Option<Value>)
    ensures r.Some? <==> matches != []
    ensures r.Some? ==> r.value == matches[0]
  {
    if matches == [] then None else Some(matches[0])
  }
}
