/** The plain JavaScript objects the handler builds and returns. */
module Records {

  /** A property value: `undefined` (an optional-chained lookup that found nothing) or a string. */
  datatype JsValue = Undefined | Str(text: string)

  /** JavaScript truthiness of a property value: only a non-empty string is truthy. */
  predicate Truthy(v: JsValue) {
    v.Str? && v.text != ""
  }

  /** An object as a map from property names to values (enumeration order is not modelled). */
  type Record = map<string, JsValue>

  /** `{...a, ...b}`: every property of either object, with `b`'s value where both have one. */
  function Spread(a: Record, b: Record): (r: Record)
    ensures r.Keys == a.Keys + b.Keys
    ensures forall k :: k in b ==> r[k] == b[k]
    ensures forall k :: k in a && k !in b ==> r[k] == a[k]
  {
    a + b
  }
}
