/**
  Decoded JSON values, as the transport hands them to the parsers, together with
  the few pieces of Python semantics the adapters rely on: truthiness, `x or None`,
  `==` against an integer or a string literal, `len`, and `dict.get`.
 */
module PyJson {
  import opened Wrappers

  datatype Json =
    | JNull
    | JBool(b: bool)
    | JInt(i: int)
    | JReal(r: real)
    | JStr(s: string)
    | JArr(items: seq<Json>)
    | JObj(fields: map<string, Json>)

  /** Python's `bool(v)`: null, false, zero and empty containers are falsy. */
  predicate Truthy(v: Json) {
    match v
    case JNull => false
    case JBool(b) => b
    case JInt(i) => i != 0
    case JReal(r) => r != 0.0
    case JStr(s) => |s| > 0
    case JArr(items) => |items| > 0
    case JObj(fields) => |fields| > 0
  }

  /** Python's `v or None`, with `None` written as JSON null. */
  function OrNone(v: Json): Json {
    if Truthy(v) then v else JNull
  }

  /** The number a value stands for under Python's `==`; `True == 1` and `False == 0`. */
  function NumericValue(v: Json): Option<real> {
    match v
    case JBool(b) => Some(if b then 1.0 else 0.0)
    case JInt(i) => Some(i as real)
    case JReal(r) => Some(r)
    case _ => None
  }

  /** Python's `v == n` for an integer literal `n`. */
  predicate EqualsInt(v: Json, n: int) {
    NumericValue(v) == Some(n as real)
  }

  /** Python's `v == s` for a string literal `s`. */
  predicate EqualsStr(v: Json, s: string) {
    v == JStr(s)
  }

  /** Python's `len(v)`; None where `len` raises a TypeError. */
  function Len(v: Json): Option<nat> {
    match v
    case JStr(s) => Some(|s|)
    case JArr(items) => Some(|items|)
    case JObj(fields) => Some(|fields|)
    case _ => None
  }

  /** Python's `d.get(k, default)`. */
  function GetOr(d: map<string, Json>, k: string, default: Json): Json {
    if k in d then d[k] else default
  }
}
