/**
 * A document as `json.loads` hands it to the MQTT message handler, and the
 * few Python operations the handler applies to it. An operation yields
 * `Raised` where Python raises (TypeError, ValueError, KeyError,
 * AttributeError, ZeroDivisionError): the handler catches all of them alike.
 *
 * JSON `true`/`false` are carried as `Num(1.0)`/`Num(0.0)`: `float()` turns
 * them into those numbers and `in` rejects them exactly as it rejects numbers.
 */
module PyJson {
  import opened Optional

  datatype Json =
    | Num(x: real)
    | Text(s: string)
    | Null
    | List(items: seq<Json>)
    | Object(fields: map<string, Json>)

  /** The value of a Python expression, or the fact that it raised. */
  datatype Eval<T> = Value(v: T) | Raised

  /** `k in s` for two Python strings. */
  predicate Substring(k: string, s: string)
    decreases |s|
  {
    k <= s || (s != [] && Substring(k, s[1..]))
  }

  /** `key in j`: key lookup on a dict, substring on a str, element on a list. */
  function Contains(j: Json, key: string): Eval<bool>
  {
    match j
    case Object(f) => Value(key in f)
    case Text(s) => Value(Substring(key, s))
    case List(items) => Value(Text(key) in items)
    case _ => Raised
  }

  /** `j[key]` with a string key: only a dict holding the key answers. */
  function Index(j: Json, key: string): Eval<Json>
  {
    if j.Object? && key in j.fields then Value(j.fields[key]) else Raised
  }

  /** `float(j)`; `parse` is Python's conversion of a string. */
  function ToFloat(j: Json, parse: string -> Option<real>): Eval<real>
  {
    match j
    case Num(x) => Value(x)
    case Text(s) => if parse(s).Some? then Value(parse(s).value) else Raised
    case _ => Raised
  }

  /** `x / y` on floats. */
  function Div(x: real, y: real): Eval<real>
  {
    if y == 0.0 then Raised else Value(x / y)
  }

  /** `float(f[key]) if key in f else default`, which is also `float(f.get(key, default))`. */
  function FloatOr(f: map<string, Json>, key: string, default: real, parse: string -> Option<real>): Eval<real>
  {
    if key in f then ToFloat(f[key], parse) else Value(default)
  }

  /** `float(f[key]) if key in f else None`. */
  function FloatIfPresent(f: map<string, Json>, key: string, parse: string -> Option<real>): Eval<Option<real>>
  {
    if key !in f then Value(None)
    else if ToFloat(f[key], parse).Raised? then Raised
    else Value(Some(ToFloat(f[key], parse).v))
  }

  /** An optional key converts when it is absent or `float()` accepts it. */
  predicate Converts(f: map<string, Json>, key: string, parse: string -> Option<real>)
  {
    key !in f || ToFloat(f[key], parse).Value?
  }
}
