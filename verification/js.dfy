/** The slice of JavaScript semantics the tool pipeline depends on: values that come out of
    `JSON.parse` (or arrive already structured), `undefined`, truthiness, property reads and
    the `String(...)` / `Number(...)` coercions. */
module Js {
  import opened Outcomes
  import Text

  /** A JSON value, as produced by `JSON.parse` or carried by a structured argument map. */
  datatype Value =
    | Null
    | Bool(b: bool)
    | Number(n: real)
    | Str(s: string)
    | Array(items: seq<Value>)
    | Object(fields: map<string, Value>)

  /** A JavaScript number after coercion: a finite value or NaN. */
  datatype Num = Finite(r: real) | NaN

  /** The host-runtime primitives the model leaves abstract: `JSON.parse` (None is a
      SyntaxError), the decimal printing of a number, and the numeric-string grammar of `Number(s)`. */
  datatype Host = Host(
    parseJson: string -> Option<Value>,
    numberToString: real -> string,
    parseNumber: string -> Num)

  /** JavaScript truthiness of a value that may be `undefined` (None). */
  predicate Truthy(v: Option<Value>)
    ensures v == None || v == Some(Null) || v == Some(Str("")) || v == Some(Number(0.0)) ==> !Truthy(v)
    ensures v.Some? && (v.value.Array? || v.value.Object?) ==> Truthy(v)
    ensures v.Some? && v.value.Str? && v.value.s != "" ==> Truthy(v)
  {
    match v
    case None => false
    case Some(Null) => false
    case Some(Bool(b)) => b
    case Some(Number(n)) => n != 0.0
    case Some(Str(s)) => s != ""
    case Some(Array(_)) => true
    case Some(Object(_)) => true
  }

  /** Reading `target[key]`: a missing key reads as `undefined`, a primitive has none of the
      keys read here, and reading any key of `null` raises a TypeError. */
  datatype PropertyRead = Read(v: Option<Value>) | NullDereference

  function Property(target: Value, key: string): (r: PropertyRead)
    ensures r.NullDereference? <==> target.Null?
    ensures target.Object? && key in target.fields ==> r == Read(Some(target.fields[key]))
    ensures !(target.Object? && key in target.fields) && !target.Null? ==> r == Read(None)
  {
    match target
    case Null => NullDereference
    case Object(fields) => if key in fields then Read(Some(fields[key])) else Read(None)
    case _ => Read(None)
  }

  /** `String(v)` for a defined value; arrays print their elements joined by ",",
      with `null` elements printed as empty text. */
  function ToStr(v: Value, host: Host): string
    decreases v
  {
    match v
    case Null => "null"
    case Bool(b) => if b then "true" else "false"
    case Number(n) => host.numberToString(n)
    case Str(s) => s
    case Array(items) =>
      Text.Join(seq(|items|, i requires 0 <= i < |items| =>
        if items[i].Null? then "" else ToStr(items[i], host)), ",")
    case Object(_) => "[object Object]"
  }

  /** `String(v)` where `v` may be `undefined`. */
  function StringOf(v: Option<Value>, host: Host): (r: string)
    ensures v == None ==> r == "undefined"
    ensures v.Some? && v.value.Str? ==> r == v.value.s
  {
    match v
    case None => "undefined"
    case Some(x) => ToStr(x, host)
  }

  /** `Number(v)` where `v` may be `undefined`: `undefined` and plain objects are NaN, `null` is 0,
      booleans are 0/1, strings go through the numeric-string grammar, arrays through their text. */
  function NumberOf(v: Option<Value>, host: Host): (r: Num)
    ensures v == None ==> r == NaN
    ensures v.Some? && v.value.Number? ==> r == Finite(v.value.n)
    ensures v.Some? && v.value.Str? ==> r == host.parseNumber(v.value.s)
  {
    match v
    case None => NaN
    case Some(Null) => Finite(0.0)
    case Some(Bool(b)) => Finite(if b then 1.0 else 0.0)
    case Some(Number(n)) => Finite(n)
    case Some(Str(s)) => host.parseNumber(s)
    case Some(Array(_)) => host.parseNumber(ToStr(v.value, host))
    case Some(Object(_)) => NaN
  }
}
