/** The JavaScript values the application keeps in React state and in
    localStorage: parsed JSON documents, their truthiness, property access,
    and the JSON built-ins, which this model treats as given functions. */
module Js {
  import opened Common

  /** A value produced by `JSON.parse` (numbers restricted to integers). */
  datatype JsonValue =
    | JNull
    | JBool(b: bool)
    | JNumber(n: int)
    | JString(s: string)
    | JArray(items: seq<JsonValue>)
    | JObject(fields: map<string, JsonValue>)

  /** JavaScript truthiness: `null`, `false`, `0` and `""` are falsy. */
  predicate Truthy(v: JsonValue)
  {
    match v
    case JNull => false
    case JBool(b) => b
    case JNumber(n) => n != 0
    case JString(s) => s != ""
    case _ => true
  }

  /** What reading a property yields: `undefined`, a value, or a TypeError
      (reading a property of `null`). */
  datatype Property = Undefined | Defined(value: JsonValue) | TypeError

  /** `v.name` */
  function GetProperty(v: JsonValue, name: string): (p: Property)
    ensures p.TypeError? <==> v.JNull?
    ensures p.Defined? ==> v.JObject? && name in v.fields && p.value == v.fields[name]
  {
    match v
    case JNull => TypeError
    case JObject(fields) => if name in fields then Defined(fields[name]) else Undefined
    case _ => Undefined
  }

  /** What a React error state holds: the strings the handlers set, or an
      `Error` object passed to the setter as is. */
  datatype ErrorValue = ErrorText(text: string) | ErrorObject(message: string)

  /** `{error && …}`: an empty string is falsy, an `Error` object is truthy. */
  predicate ErrorShown(e: ErrorValue)
  {
    e.ErrorObject? || e.text != ""
  }

  /** `JSON.parse` (a Failure is a thrown SyntaxError) and `JSON.stringify`. */
  datatype JsonCodec = JsonCodec(parse: string -> Result<JsonValue>, stringify: JsonValue -> string)

  /** The property of the JSON built-ins that persistence relies on. */
  ghost predicate RoundTrips(codec: JsonCodec)
  {
    forall v :: codec.parse(codec.stringify(v)) == Success(v)
  }
}
