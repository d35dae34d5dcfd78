/** The small part of PHP's value semantics that the request-shaping layer
    relies on: decoded JSON values, configuration lookups, the `??` operator,
    `empty()`, string conversion, `array_merge` on string keys and the
    coercion performed when a value is stored in a `string`-typed property. */
module Php {

  /** A JSON-compatible PHP value. A PHP array whose keys are 0..n-1 is a list
      (`JArr`); any other array is associative (`JObj`). A float is kept opaque
      as the text PHP prints for it (`0.2` is `JFloat("0.2")`). */
  datatype Json =
    | JNull
    | JBool(b: bool)
    | JInt(i: int)
    | JFloat(repr: string)
    | JStr(s: string)
    | JArr(items: seq<Json>)
    | JObj(fields: map<string, Json>)

  /** A PHP array with string keys: per-call options, header arrays, payloads. */
  type Fields = map<string, Json>

  /** Laravel's configuration repository, keyed by the full dotted key. */
  type Config = map<string, Json>

  /** An uncaught throwable leaving a PHP call. */
  datatype Thrown =
    | InvalidArgument(message: string)  // \InvalidArgumentException
    | ExceptionThrown(message: string)  // any other \Exception
    | TypeError(subject: string)        // a typed property or return type refused a value
    | ClassNotFound(name: string)       // \Error raised by `new` or `throw new` on a missing class
    | EngineError(message: string)      // any other \Error, which `catch (Exception $e)` lets through
    | Fatal(message: string)            // a fatal error: the script ends and no `catch` sees it

  /** How a PHP call ends: with a value, or with a throwable escaping it. */
  datatype Outcome<T> = Returned(value: T) | Threw(thrown: Thrown)

  /** `is_array($v)` */
  predicate IsArray(v: Json) {
    v.JArr? || v.JObj?
  }

  /** `config($key)`: the value stored under exactly this key, null when absent. */
  function Setting(cfg: Config, key: string): Json {
    if key in cfg then cfg[key] else JNull
  }

  /** `$array[$key]` read on a string-keyed array: the entry, or null (with a
      warning) when the key is missing. */
  function Entry(a: Fields, key: string): Json {
    if key in a then a[key] else JNull
  }

  /** `$array[$key] ?? $fallback` */
  function Coalesce(a: Fields, key: string, fallback: Json): (v: Json)
    ensures key in a && a[key] != JNull ==> v == a[key]
    ensures !(key in a && a[key] != JNull) ==> v == fallback
  {
    if key in a && a[key] != JNull then a[key] else fallback
  }

  /** `$v[$key]` on an arbitrary value: missing keys and non-array
      containers read as null. */
  function Index(v: Json, key: string): Json {
    if v.JObj? && key in v.fields then v.fields[key] else JNull
  }

  /** `$list[$i]` on an arbitrary value. */
  function At(v: Json, i: nat): Json {
    if v.JArr? && i < |v.items| then v.items[i] else JNull
  }

  /** `empty($v)` */
  predicate Empty(v: Json) {
    match v
    case JNull => true
    case JBool(b) => !b
    case JInt(i) => i == 0
    case JFloat(r) => r == "0" || r == "-0"
    case JStr(s) => EmptyString(s)
    case JArr(items) => |items| == 0
    case JObj(fields) => |fields| == 0
  }

  /** `empty($s)` and `!$s` on a string: only "" and "0" are falsy. */
  predicate EmptyString(s: string) {
    s == "" || s == "0"
  }

  /** The values a `string`-typed property accepts in coercive mode. */
  predicate Scalar(v: Json) {
    !(v.JNull? || v.JArr? || v.JObj?)
  }

  function DigitChar(d: nat): char
    requires d < 10
  {
    ('0' as int + d) as char
  }

  /** Decimal rendering of a natural number, most significant digit first. */
  function NatToString(n: nat): string
    decreases n
  {
    if n < 10 then [DigitChar(n)] else NatToString(n / 10) + [DigitChar(n % 10)]
  }

  /** `(string)$v`, as used by `.`, `"{$v}"` and `sprintf('%s', $v)`. */
  function ToStr(v: Json): string {
    match v
    case JNull => ""
    case JBool(b) => if b then "1" else ""
    case JInt(i) => if i < 0 then "-" + NatToString(-i) else NatToString(i)
    case JFloat(r) => r
    case JStr(s) => s
    case JArr(_) => "Array"
    case JObj(_) => "Array"
  }

  /** Storing `v` in a property declared `string`: scalars are converted,
      null and arrays raise a TypeError naming the property. */
  function AssignString(v: Json, property: string): (r: Outcome<string>)
    ensures r.Returned? <==> Scalar(v)
    ensures r.Returned? ==> r.value == ToStr(v)
    ensures r.Threw? ==> r.thrown == TypeError(property)
  {
    if Scalar(v) then Returned(ToStr(v)) else Threw(TypeError(property))
  }

  /** `array_merge($a, $b)` on string-keyed arrays: every key of either side
      is present and `b` wins where both have the key. */
  function ArrayMerge(a: Fields, b: Fields): (r: Fields)
    ensures r.Keys == a.Keys + b.Keys
    ensures forall k :: k in b ==> r[k] == b[k]
    ensures forall k :: k in a && k !in b ==> r[k] == a[k]
  {
    a + b
  }

  /** `['error' => $message]` */
  function ErrorResult(message: string): Json {
    JObj(map["error" := JStr(message)])
  }
}
