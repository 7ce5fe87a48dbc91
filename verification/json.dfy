/** The decoded JSON document, as Python's `json` module hands it to the tool. */
module Json {

  /** One JSON value. `JNull` is Python's `None`, `JArr` a `list`, `JObj` a `dict`.
      Integers and floats are both `JNum`; they differ in nothing the tool inspects. */
  datatype Value =
    | JNull
    | JBool(b: bool)
    | JNum(n: real)
    | JStr(s: string)
    | JArr(items: seq<Value>)
    | JObj(fields: map<string, Value>)

  /** Python truthiness (`bool(v)`): `None`, `False`, zero and empty
      strings, lists and dicts are false; everything else is true. */
  predicate Truthy(v: Value)
    ensures !Truthy(v) <==>
              v == JNull || v == JBool(false) || v == JNum(0.0) ||
              v == JStr("") || v == JArr([]) || v == JObj(map[])
  {
    match v
    case JNull => false
    case JBool(b) => b
    case JNum(n) => n != 0.0
    case JStr(s) => s != []
    case JArr(a) => a != []
    case JObj(m) => m != map[]
  }

  /** Python's `key in s` for two strings: `key` occurs in `s` as a
      contiguous substring. */
  predicate IsInfix(key: string, s: string)
    decreases |s|
  {
    |key| <= |s| && (s[..|key|] == key || IsInfix(key, s[1..]))
  }
}
