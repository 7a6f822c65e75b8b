/**
 * Decoded JSON documents, and the few Python operations the webhook applies to
 * them (`d.get(k, default)`, `x[0]`, `s.strip()`, truthiness), each of which
 * either yields a value or raises an exception.
 */
module Json {
  import Text

  datatype Json =
    | JNull
    | JBool(b: bool)
    | JNum(n: int)
    | JStr(s: string)
    | JList(items: seq<Json>)
    | JObject(fields: map<string, Json>)

  /** A Python evaluation: a value, or an exception that was raised. */
  datatype Py<+T> = Value(v: T) | Raised {
    predicate IsFailure() { Raised? }

    function PropagateFailure<U>(): Py<U>
      requires Raised?
    {
      Raised
    }

    function Extract(): T
      requires Value?
    {
      v
    }
  }

  /** Python's `bool(x)` on a decoded JSON value. */
  predicate Truthy(j: Json) {
    match j
    case JNull => false
    case JBool(b) => b
    case JNum(n) => n != 0
    case JStr(s) => s != []
    case JList(xs) => xs != []
    case JObject(m) => m != map[]
  }

  /** `j.get(key, default)`: only a dict has `get`; anything else raises AttributeError. */
  function Get(j: Json, key: string, default: Json): (r: Py<Json>)
    ensures r.Value? <==> j.JObject?
    ensures j.JObject? && key in j.fields ==> r == Value(j.fields[key])
    ensures j.JObject? && key !in j.fields ==> r == Value(default)
  {
    match j
    case JObject(m) => Value(if key in m then m[key] else default)
    case _ => Raised
  }

  /**
   * `j[0]`: the first element of a non-empty list, the first character of a
   * non-empty string; IndexError on empty ones, KeyError on a dict (JSON keys
   * are strings), TypeError on the rest.
   */
  function Index0(j: Json): (r: Py<Json>)
    ensures j.JList? && j.items != [] ==> r == Value(j.items[0])
    ensures r.Value? ==> (j.JList? || j.JStr?) && Truthy(j)
  {
    match j
    case JList(xs) => if xs == [] then Raised else Value(xs[0])
    case JStr(s) => if s == [] then Raised else Value(JStr([s[0]]))
    case _ => Raised
  }

  /** `j.strip()`: only a string has `strip`. */
  function StripText(j: Json): (r: Py<string>)
    ensures r.Value? <==> j.JStr?
    ensures j.JStr? ==> r.v == Text.Strip(j.s)
  {
    match j
    case JStr(s) => Value(Text.Strip(s))
    case _ => Raised
  }

  /** The empty dict `{}`. */
  const EmptyObject: Json := JObject(map[])

  /** The empty list `[]`. */
  const EmptyList: Json := JList([])
}
