/**
  What the Python runtime does with decoded JSON values in the bridge's code:
  str() and repr(), truthiness, `key in v`, `v[key]`, `v.get(key, default)`,
  iteration, and the text str(e) gives for the exceptions these raise.
  Exception texts follow CPython 3.11 and later.
*/
module Py {
  import opened Wrappers
  import opened Json
  import Text

  /** The exceptions the modelled code can raise. */
  datatype PyError =
    | KeyError(key: string)          // d[key] on a dict without that key
    | TypeError(message: string)
    | AttributeError(message: string)
    | RuntimeError(message: string)

  /** str(e) */
  function ErrorText(e: PyError): string {
    match e
    case KeyError(k) => Repr(JStr(k))      // str(KeyError(k)) is repr(k)
    case TypeError(m) => m
    case AttributeError(m) => m
    case RuntimeError(m) => m
  }

  /** type(v).__name__ */
  function TypeName(v: Json): string {
    match v
    case JNull => "NoneType"
    case JBool(_) => "bool"
    case JInt(_) => "int"
    case JFloat(_) => "float"
    case JStr(_) => "str"
    case JArr(_) => "list"
    case JObj(_) => "dict"
  }

  /** bool(v) */
  predicate Truthy(v: Json) {
    match v
    case JNull => false
    case JBool(b) => b
    case JInt(i) => i != 0
    case JFloat(t) => t != "0.0" && t != "-0.0"
    case JStr(s) => |s| > 0
    case JArr(items) => |items| > 0
    case JObj(fields) => |fields| > 0
  }

  /** repr(v); a string is shown between single quotes, without escaping. */
  function Repr(v: Json): string
    decreases v
  {
    match v
    case JNull => "None"
    case JBool(b) => if b then "True" else "False"
    case JInt(i) => Text.IntToString(i)
    case JFloat(t) => t
    case JStr(s) => "'" + s + "'"
    case JArr(items) =>
      "[" + Text.Join(", ", seq(|items|, k requires 0 <= k < |items| => Repr(items[k]))) + "]"
    case JObj(fields) =>
      "{" + Text.Join(", ", seq(|fields|, k requires 0 <= k < |fields| =>
        "'" + fields[k].0 + "': " + Repr(fields[k].1))) + "}"
  }

  /** str(v), which is what an f-string interpolates. */
  function Str(v: Json): (r: string)
    ensures v.JStr? ==> r == v.s
    ensures !v.JStr? ==> r == Repr(v)
  {
    if v.JStr? then v.s else Repr(v)
  }

  /** v[key] with a string key. */
  function Subscript(v: Json, key: string): (r: Result<Json, PyError>)
    ensures v.JObj? ==> (r.Success? <==> HasKey(v.fields, key))
    ensures v.JObj? && r.Failure? ==> r.error == KeyError(key)
    ensures !v.JObj? ==> r.Failure? && r.error.TypeError?
  {
    match v
    case JObj(fields) =>
      (match Lookup(fields, key)
       case Some(x) => Success(x)
       case None => Failure(KeyError(key)))
    case JArr(_) => Failure(TypeError("list indices must be integers or slices, not str"))
    case JStr(_) => Failure(TypeError("string indices must be integers, not 'str'"))
    case _ => Failure(TypeError("'" + TypeName(v) + "' object is not subscriptable"))
  }

  /** v.get(key, default) */
  function Get(v: Json, key: string, default: Json): (r: Result<Json, PyError>)
    ensures r.Success? <==> v.JObj?
    ensures v.JObj? ==> r.value == Lookup(v.fields, key).GetOr(default)
  {
    match v
    case JObj(fields) => Success(Lookup(fields, key).GetOr(default))
    case _ => Failure(AttributeError("'" + TypeName(v) + "' object has no attribute 'get'"))
  }

  /** `key in v` with a string on the left. */
  function Contains(v: Json, key: string): (r: Result<bool, PyError>)
    ensures v.JObj? ==> r == Success(HasKey(v.fields, key))
  {
    match v
    case JObj(fields) => Success(HasKey(fields, key))
    case JArr(items) => Success(JStr(key) in items)
    case JStr(s) => Success(Text.Contains(s, key))
    case _ => Failure(TypeError("argument of type '" + TypeName(v) + "' is not iterable"))
  }

  /** The elements `for x in v` visits. */
  function Iterate(v: Json): (r: Result<seq<Json>, PyError>)
    ensures v.JArr? ==> r == Success(v.items)
  {
    match v
    case JArr(items) => Success(items)
    case JObj(fields) => Success(seq(|fields|, k requires 0 <= k < |fields| => JStr(fields[k].0)))
    case JStr(s) => Success(seq(|s|, k requires 0 <= k < |s| => JStr([s[k]])))
    case _ => Failure(TypeError("'" + TypeName(v) + "' object is not iterable"))
  }
}
