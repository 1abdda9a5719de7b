/** Python values as the client sees them once `json.loads` has decoded them,
    the exceptions its operations raise, and the few Python operators it applies
    to such values (truth testing, `d[k]`, `xs[0]`, `s[n:]`). */
module Py {

  /** The exceptions the client's code can raise, by kind. */
  datatype Error =
    | KeyError                 // d[k] on a dict without k
    | IndexError               // xs[i] past the end of a list or string
    | TypeError                // subscript, `**` or `+` on the wrong kind of value
    | ValueError(msg: string)  // raised explicitly by the client
    | HttpError(status: int)   // raise_for_status on a 4xx or 5xx reply
    | TransportError           // the HTTP call itself failed
    | DecodeError              // json.loads on text that is not JSON

  /** A call that either returns a value or raises. */
  datatype Result<+T> = Ok(value: T) | Err(error: Error) {
    predicate IsFailure() { Err? }
    function PropagateFailure<U>(): Result<U> requires Err? { Err(error) }
    function Extract(): T requires Ok? { value }
  }

  datatype Option<+T> = None | Some(value: T)

  /** A JSON value as decoded by Python; JNull is None. Only integer numbers
      are represented. */
  datatype Json =
    | JNull
    | JBool(b: bool)
    | JInt(i: int)
    | JStr(s: string)
    | JArr(items: seq<Json>)
    | JObj(fields: map<string, Json>)

  /** Python truth testing (`if x:`, `if not x:`): None, False, 0, "", [] and {}
      are false, everything else is true. */
  function Truthy(j: Json): (t: bool)
    ensures !t <==>
      j == JNull || j == JBool(false) || j == JInt(0) || j == JStr("") || j == JArr([]) || j == JObj(map[])
  {
    match j
    case JNull => false
    case JBool(b) => b
    case JInt(i) => i != 0
    case JStr(s) => s != ""
    case JArr(items) => items != []
    case JObj(fields) => fields != map[]
  }

  /** `j[key]` with a string key: only a dict can be indexed by a string. */
  function Subscript(j: Json, key: string): (r: Result<Json>)
    ensures r.Ok? <==> j.JObj? && key in j.fields
    ensures r.Ok? ==> r.value == j.fields[key]
    ensures r.Err? ==> r.error == (if j.JObj? then KeyError else TypeError)
  {
    match j
    case JObj(fields) => if key in fields then Ok(fields[key]) else Err(KeyError)
    case _ => Err(TypeError)
  }

  /** `j[i]` with a non-negative integer index: a list gives its element, a
      string its one-character substring, a dict (whose JSON keys are strings)
      has no integer key, anything else is not subscriptable. */
  function Item(j: Json, i: nat): (r: Result<Json>)
    ensures r.Ok? <==> (j.JArr? && i < |j.items|) || (j.JStr? && i < |j.s|)
    ensures r.Ok? && j.JArr? ==> r.value == j.items[i]
    ensures r.Ok? && j.JStr? ==> r.value == JStr([j.s[i]])
  {
    match j
    case JArr(items) => if i < |items| then Ok(items[i]) else Err(IndexError)
    case JStr(s) => if i < |s| then Ok(JStr([s[i]])) else Err(IndexError)
    case JObj(_) => Err(KeyError)
    case _ => Err(TypeError)
  }

  /** Python's slice `s[n:]`, which never raises: past the end it is empty. */
  function DropPrefix(s: string, n: nat): (r: string)
    ensures |s| <= n ==> r == ""
    ensures n < |s| ==> |r| == |s| - n && s == s[..n] + r
  {
    if |s| <= n then "" else s[n..]
  }
}
