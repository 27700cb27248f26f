/** JSON values as the application's JavaScript code sees them after
    `JSON.parse` / `response.json()`, with truthiness, property access and
    `String(value)`. Numbers are integers here. */
module JsonData {
  import opened Js

  datatype Json =
    | JNull
    | JBool(b: bool)
    | JNum(n: int)
    | JStr(s: string)
    | JArr(items: seq<Json>)
    | JObj(fields: map<string, Json>)

  /** JavaScript truthiness of a JSON value. */
  predicate Truthy(v: Json)
  {
    match v
    case JNull => false
    case JBool(b) => b
    case JNum(n) => n != 0
    case JStr(s) => s != ""
    case JArr(_) => true
    case JObj(_) => true
  }

  /** The result of reading `v.key`: a value, `undefined`, or a TypeError
      (reading a property of `null`). */
  datatype Access = Undefined | Found(value: Json) | TypeError(message: string)

  /** V8's message for reading a property of `null`. */
  function NullPropertyMessage(key: string): string
  {
    "Cannot read properties of null (reading '" + key + "')"
  }

  /** `v.key`. Arrays and strings answer `length`; objects their own fields;
      other primitives have no such property. */
  function Member(v: Json, key: string): (a: Access)
    ensures a.TypeError? <==> v.JNull?
    ensures v.JObj? ==> (a.Found? <==> key in v.fields)
  {
    match v
    case JNull => TypeError(NullPropertyMessage(key))
    case JObj(m) => if key in m then Found(m[key]) else Undefined
    case JArr(items) => if key == "length" then Found(JNum(|items|)) else Undefined
    case JStr(s) => if key == "length" then Found(JNum(|s|)) else Undefined
    case _ => Undefined
  }

  /** The message of `undefined` for a property read. */
  function UndefinedPropertyMessage(key: string): string
  {
    "Cannot read properties of undefined (reading '" + key + "')"
  }

  /** `a.key` on a value that may be `undefined`; `key == "0"` on an array
      or a string reads the first element. */
  function Get(a: Access, key: string): (r: Access)
    ensures a.TypeError? ==> r == a
    ensures a.Undefined? ==> r == TypeError(UndefinedPropertyMessage(key))
    ensures a.Found? && a.value.JNull? ==> r == TypeError(NullPropertyMessage(key))
  {
    match a
    case TypeError(_) => a
    case Undefined => TypeError(UndefinedPropertyMessage(key))
    case Found(v) =>
      if key == "0" && v.JArr? then (if |v.items| > 0 then Found(v.items[0]) else Undefined)
      else if key == "0" && v.JStr? then (if |v.s| > 0 then Found(JStr([v.s[0]])) else Undefined)
      else Member(v, key)
  }

  /** A property value as the database driver stores it: `undefined` becomes `null`. */
  function StoredValue(a: Access): Json
  {
    if a.Found? then a.value else JNull
  }

  /** Truthiness of a property read that did not throw. */
  predicate TruthyAccess(a: Access)
  {
    a.Found? && Truthy(a.value)
  }

  /** `a.length > 0` for a property value `a` that is truthy. Only a numeric
      `length` is compared. */
  predicate NonEmptyLength(v: Json)
  {
    var len := Member(v, "length");
    len.Found? && len.value.JNum? && len.value.n > 0
  }

  /** `String(v)` for a value inside an array being joined: `null` becomes "". */
  function ElementString(v: Json): string
    decreases v, 1
  {
    if v.JNull? then "" else StringOf(v)
  }

  /** `String(v)`: arrays join their elements with commas, objects print as
      `[object Object]`. */
  function StringOf(v: Json): string
    decreases v, 0
  {
    match v
    case JNull => "null"
    case JBool(b) => if b then "true" else "false"
    case JNum(n) => IntToDecimal(n)
    case JStr(s) => s
    case JArr(items) => Join(seq(|items|, i requires 0 <= i < |items| => ElementString(items[i])), ",")
    case JObj(_) => "[object Object]"
  }

  /** `{ error: message }`, the error envelope of every endpoint. */
  function ErrorJson(message: string): Json
  {
    JObj(map["error" := JStr(message)])
  }
}
