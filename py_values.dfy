/**
 * The Python values the gateway handles: JSON documents as `json.loads` returns them,
 * Python truthiness, `dict.get`, the `or` operator, `str()` and the exceptions that
 * cross function boundaries.
 */
module PyValues {
  import opened Wrappers
  import opened Text

  /** A JSON value (`None`, `bool`, `int`, `str`, `list`, `dict`). */
  datatype Json =
    | JNull
    | JBool(b: bool)
    | JNum(n: int)
    | JStr(s: string)
    | JArr(items: seq<Json>)
    | JObj(fields: map<string, Json>)

  /** `bool(j)`: `None`, `False`, `0`, `""`, `[]` and `{}` are false, everything else true. */
  predicate Truthy(j: Json)
  {
    match j
    case JNull => false
    case JBool(b) => b
    case JNum(n) => n != 0
    case JStr(s) => s != ""
    case JArr(items) => items != []
    case JObj(fields) => fields != map[]
  }

  /** `d.get(key)`: the value under `key`, or `None`. */
  function Get(d: map<string, Json>, key: string): (r: Json)
    ensures key !in d ==> r == JNull
  {
    if key in d then d[key] else JNull
  }

  /** `d.get(key, default)`. */
  function GetDefault(d: map<string, Json>, key: string, default: Json): Json
  {
    if key in d then d[key] else default
  }

  /** `a or b`: `a` when it is truthy, otherwise `b`. */
  function Or(a: Json, b: Json): (r: Json)
    ensures Truthy(r) <==> Truthy(a) || Truthy(b)
    ensures Truthy(a) ==> r == a
    ensures !Truthy(a) ==> r == b
  {
    if Truthy(a) then a else b
  }

  /** The number a `bool` or `int` stands for in Python comparisons (`True == 1`); None for other values. */
  function NumericValue(j: Json): Option<int>
  {
    match j
    case JBool(b) => Some(if b then 1 else 0)
    case JNum(n) => Some(n)
    case _ => None
  }

  /**
   * Python `a == b` on JSON values: `bool` and `int` compare as numbers, everything else
   * structurally.
   */
  predicate PyEq(a: Json, b: Json)
  {
    if NumericValue(a).Some? && NumericValue(b).Some? then NumericValue(a) == NumericValue(b) else a == b
  }

  /** Python `x in xs` for a list: some item equals `x`. */
  predicate PyIn(x: Json, xs: seq<Json>)
  {
    exists i :: 0 <= i < |xs| && PyEq(xs[i], x)
  }

  /**
   * Python equality is symmetric, agrees with structural equality on strings, and lets `True`
   * equal `1` and `False` equal `0`.
   */
  lemma PyEqFacts(a: Json, b: Json, s: string)
    ensures PyEq(a, b) <==> PyEq(b, a)
    ensures a == b ==> PyEq(a, b)
    ensures PyEq(a, JStr(s)) <==> a == JStr(s)
    ensures PyEq(JBool(true), JNum(1)) && PyEq(JBool(false), JNum(0)) && !PyEq(JBool(true), JNum(2))
  {
  }

  /** `type(j).__name__`. */
  function TypeName(j: Json): string
  {
    match j
    case JNull => "NoneType"
    case JBool(_) => "bool"
    case JNum(_) => "int"
    case JStr(_) => "str"
    case JArr(_) => "list"
    case JObj(_) => "dict"
  }

  /**
   * `str(j)`. Scalars and empty containers are rendered here; the `repr` of a non-empty
   * list or dict is Python's own formatting and is taken as a parameter.
   */
  function Str(j: Json, repr: Json -> string): string
  {
    match j
    case JNull => "None"
    case JBool(b) => if b then "True" else "False"
    case JNum(n) => IntToDecimal(n)
    case JStr(s) => s
    case JArr(items) => if items == [] then "[]" else repr(j)
    case JObj(fields) => if fields == map[] then "{}" else repr(j)
  }

  /** The exceptions that leave a function of the gateway, with the text `str(e)` gives. */
  datatype Exception =
    | HttpException(status: int, detail: string, bearerChallenge: bool)
    | ValueError(message: string)      // ValueError and its subclasses (UnicodeEncodeError)
    | AttributeError(message: string)
}
