/**
 * Parsed JSON documents as the extension's scripts see them, with the two
 * JavaScript operations the source applies to them: truthiness and property reads.
 * Numbers are integers here; floating point is not modelled.
 */
module Json {
  import opened Wrappers

  datatype JsonValue =
    | JNull
    | JBool(b: bool)
    | JNumber(n: int)
    | JString(s: string)
    | JArray(items: seq<JsonValue>)
    | JObject(members: map<string, JsonValue>)

  /** JavaScript's ToBoolean: `null`, `false`, `0` and `""` are falsy, everything else is truthy. */
  function Truthy(v: JsonValue): (b: bool)
    ensures !b <==> v == JNull || v == JBool(false) || v == JNumber(0) || v == JString("")
  {
    match v
    case JNull => false
    case JBool(b) => b
    case JNumber(n) => n != 0
    case JString(s) => s != ""
    case JArray(_) => true
    case JObject(_) => true
  }

  /**
   * The property read `v.name` on a truthy document, for a member name that
   * no string, number, array or boolean has as a property (not `length`,
   * nor a method of their prototypes). `None` is `undefined`: only an object
   * that has the member yields a value.
   */
  function Property(v: JsonValue, name: string): (r: Option<JsonValue>)
    requires Truthy(v)
    ensures r.Some? <==> v.JObject? && name in v.members
    ensures r.Some? ==> r.value == v.members[name]
  {
    if v.JObject? && name in v.members then Some(v.members[name]) else None
  }
}
