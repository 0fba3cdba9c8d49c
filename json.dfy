/**
 * JSON-like values as the Python code sees them after `json.loads` or `vars(obj)`:
 * None, booleans, integers, strings, lists and dicts. Python exceptions raised
 * while indexing such values are the `PyError` cases.
 */
module Json {
  import opened Wrappers

  datatype Json =
    | JNull
    | JBool(b: bool)
    | JNum(n: int)
    | JStr(s: string)
    | JArr(items: seq<Json>)
    | JObj(fields: map<string, Json>)

  type Object = map<string, Json>

  /** The exceptions Python raises when a value does not have the expected shape. */
  datatype PyError =
    | KeyError(key: string)   // `d[k]` with k not a key of the dict d
    | TypeError               // indexing, iterating or ranging over a value of the wrong type
    | IndexError(index: int)  // `xs[i]` with i outside the list
    | AttributeError          // a method called on a value that does not have it, such as `.get` on a non-dict

  /** Python truthiness: None, False, 0, "", [] and {} are false, everything else is true. */
  predicate Truthy(j: Json) {
    match j
    case JNull => false
    case JBool(b) => b
    case JNum(n) => n != 0
    case JStr(s) => s != ""
    case JArr(items) => items != []
    case JObj(fields) => fields != map[]
  }

  /** `d.get(key)`: the value under `key`, or None when the key is absent. */
  function GetOrNull(d: Object, key: string): (r: Json)
    ensures key in d ==> r == d[key]
    ensures key !in d ==> r == JNull
  {
    if key in d then d[key] else JNull
  }

  /** `value[key]` for a string key: a KeyError for a dict without the key, a TypeError for a non-dict. */
  function Index(value: Json, key: string): (r: Result<Json, PyError>)
    ensures r.Success? <==> value.JObj? && key in value.fields
    ensures r.Success? ==> r.value == value.fields[key]
    ensures value.JObj? && key !in value.fields ==> r == Failure(KeyError(key))
  {
    match value
    case JObj(fields) => if key in fields then Success(fields[key]) else Failure(KeyError(key))
    case _ => Failure(TypeError)
  }

  /** `d[key]` on a value already known to be a dict. */
  function Lookup(d: Object, key: string): (r: Result<Json, PyError>)
    ensures r.Success? <==> key in d
    ensures r.Success? ==> r.value == d[key]
    ensures r.Failure? ==> r.error == KeyError(key)
  {
    if key in d then Success(d[key]) else Failure(KeyError(key))
  }

  /** `value[key1][key2]`. */
  function Index2(value: Json, key1: string, key2: string): (r: Result<Json, PyError>)
    ensures r.Success? <==> Index(value, key1).Success? && Index(Index(value, key1).value, key2).Success?
    ensures r.Success? ==> r.value == value.fields[key1].fields[key2]
  {
    var inner :- Index(value, key1);
    Index(inner, key2)
  }

  /** `d.pop(key)` without a default: removes the key, a KeyError when it is absent. */
  function Pop(d: Object, key: string): (r: Result<Object, PyError>)
    ensures r.Success? <==> key in d
    ensures r.Success? ==> r.value.Keys == d.Keys - {key}
  {
    if key in d then Success(d - {key}) else Failure(KeyError(key))
  }
}
