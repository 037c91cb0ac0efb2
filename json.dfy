/**
 * JSON-like values as they flow through the service: the generated analysis
 * objects that are redacted, and the result payload a job stores.
 */
module JsonValue {

  /**
   * A closed set of variants: strings, arrays, objects and the other scalars.
   * An object is the list of its own entries in `Object.entries` order; its keys
   * are distinct, as in every JavaScript object. Numbers are kept as integers.
   */
  datatype Json =
    | JNull
    | JBool(b: bool)
    | JNumber(n: int)
    | JString(s: string)
    | JArray(items: seq<Json>)
    | JObject(fields: seq<Field>)

  datatype Field = Field(key: string, value: Json)

  function Keys(fields: seq<Field>): (ks: seq<string>)
    ensures |ks| == |fields|
    ensures forall i :: 0 <= i < |fields| ==> ks[i] == fields[i].key
  {
    seq(|fields|, i requires 0 <= i < |fields| => fields[i].key)
  }
}
