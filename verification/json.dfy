/**
 * JSON values as Python's `json.loads` produces them, and the handful of
 * Python operations the core performs on them (`in`, `[]`, `.get`,
 * iteration, truthiness).  Numbers are modelled as integers.
 */
module JsonValue {
  import opened Wrappers
  import opened Text

  datatype Json =
    | JNull
    | JBool(b: bool)
    | JNum(n: int)
    | JStr(s: string)
    | JArr(items: seq<Json>)
    | JObj(fields: map<string, Json>)

  /**
   * `json.loads` (and `response.json()`), which the model does not implement:
   * every caller receives it as a parameter.  `Err` carries the decoder's message.
   */
  type Parser = string -> Result<Json, string>

  /**
   * The message of the Python `TypeError`/`AttributeError` raised when an operation
   * meets a JSON value of the wrong type.  Python's wording names the type; the
   * model uses this one message, which contains none of the phrases the error
   * classification looks for.
   */
  const TypeMismatch := "operation not supported for this value type"

  /** Python truthiness: `None`, `False`, `0`, `""`, `[]` and `{}` are false. */
  predicate Truthy(j: Json) {
    match j
    case JNull => false
    case JBool(b) => b
    case JNum(n) => n != 0
    case JStr(s) => s != []
    case JArr(xs) => xs != []
    case JObj(m) => m != map[]
  }

  /** Python's `key in j`; `None` when Python raises (the value is not a container). */
  function PyIn(key: string, j: Json): (r: Option<bool>)
    ensures r.Some? <==> (j.JObj? || j.JArr? || j.JStr?)
    ensures j.JObj? ==> r == Some(key in j.fields)
  {
    match j
    case JObj(m) => Some(key in m)
    case JArr(xs) => Some(JStr(key) in xs)
    case JStr(s) => Some(Contains(s, key))
    case _ => None
  }

  /** The message of Python's `KeyError(key)`: the key in quotes. */
  function KeyErrorMessage(key: string): string {
    "'" + key + "'"
  }

  /** The message of `KeyError(0)`. */
  const KeyZeroMessage := "0"

  /**
   * Python's `j[0]`: the first item of a list, the first character of a
   * string, and `KeyError(0)`, whose text is "0", on a dictionary.
   */
  function FirstItem(j: Json): (r: Result<Json, string>)
    ensures j.JArr? && j.items != [] ==> r == Ok(j.items[0])
    ensures j.JStr? && j.s != [] ==> r == Ok(JStr([j.s[0]]))
    ensures j.JObj? ==> r == Err(KeyZeroMessage)
    ensures r.Ok? <==> (j.JArr? && j.items != []) || (j.JStr? && j.s != [])
  {
    match j
    case JArr(xs) => if xs != [] then Ok(xs[0]) else Err("list index out of range")
    case JStr(s) => if s != [] then Ok(JStr([s[0]])) else Err("string index out of range")
    case JObj(_) => Err(KeyZeroMessage)
    case _ => Err(TypeMismatch)
  }

  /** Python's `j[key]` with a string key. */
  function Index(j: Json, key: string): (r: Result<Json, string>)
    ensures r.Ok? <==> j.JObj? && key in j.fields
    ensures r.Ok? ==> r.value == j.fields[key]
  {
    match j
    case JObj(m) => if key in m then Ok(m[key]) else Err(KeyErrorMessage(key))
    case _ => Err(TypeMismatch)
  }

  /** Python's `j.get(key, default)`, which only dictionaries have. */
  function Get(j: Json, key: string, default: Json): (r: Result<Json, string>)
    ensures r.Ok? <==> j.JObj?
    ensures j.JObj? && key in j.fields ==> r == Ok(j.fields[key])
    ensures j.JObj? && key !in j.fields ==> r == Ok(default)
  {
    match j
    case JObj(m) => Ok(if key in m then m[key] else default)
    case _ => Err(TypeMismatch)
  }

  /**
   * The elements `for x in j` visits.  A string yields its characters; a
   * dictionary yields its keys, which are strings too, and the model gives
   * none of them because every caller skips string elements anyway.
   */
  function Iterate(j: Json): (r: Result<seq<Json>, string>)
    ensures r.Ok? <==> (j.JArr? || j.JObj? || j.JStr?)
    ensures j.JArr? ==> r == Ok(j.items)
    ensures r.Ok? ==> forall x :: x in r.value && !j.JArr? ==> x.JStr?
  {
    match j
    case JArr(xs) => Ok(xs)
    case JStr(s) => Ok(seq(|s|, i requires 0 <= i < |s| => JStr([s[i]])))
    case JObj(_) => Ok([])
    case _ => Err(TypeMismatch)
  }

  /** Strings pydantic's lax mode reads as `True`/`False` (compared after lower-casing). */
  const TrueWords: set<string> := {"1", "on", "t", "true", "y", "yes"}
  const FalseWords: set<string> := {"0", "off", "f", "false", "n", "no"}

  /** Pydantic's lax `bool` validation. */
  function AsBool(j: Json): (r: Option<bool>)
    ensures j.JBool? ==> r == Some(j.b)
    ensures j.JNull? || j.JArr? || j.JObj? ==> r == None
    ensures r == Some(true) <==> j == JBool(true) || j == JNum(1) || (j.JStr? && Lower(j.s) in TrueWords)
    ensures r == Some(false) <==> j == JBool(false) || j == JNum(0) || (j.JStr? && Lower(j.s) in FalseWords)
  {
    match j
    case JBool(b) => Some(b)
    case JNum(n) => if n == 0 then Some(false) else if n == 1 then Some(true) else None
    case JStr(s) =>
      if Lower(s) in TrueWords then Some(true)
      else if Lower(s) in FalseWords then Some(false)
      else None
    case _ => None
  }

  /** Case does not matter for the words; numbers other than 0 and 1 and other words are refused. */
  lemma LaxBoolExamples()
    ensures AsBool(JStr("ON")) == Some(true) && AsBool(JStr("Off")) == Some(false)
    ensures AsBool(JNum(2)) == None && AsBool(JStr("maybe")) == None
  {
    assert Lower("ON") == "on" && Lower("Off") == "off" && Lower("maybe") == "maybe";
  }

  /** Pydantic's `str` validation: only strings are accepted. */
  function AsStr(j: Json): (r: Option<string>)
    ensures r.Some? <==> j.JStr?
    ensures r.Some? ==> j == JStr(r.value)
  {
    if j.JStr? then Some(j.s) else None
  }
}
