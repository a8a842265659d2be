/** JSON values as read from an override file, and the shallow merge
    `Object.assign({}, base, overrides)` the provider layers them with. */
module Json {

  datatype Value =
    | JNull
    | JBool(b: bool)
    | JNumber(n: real)
    | JString(s: string)
    | JArray(items: seq<Value>)
    | JObject(fields: map<string, Value>)

  /** A plain JavaScript object: capability sets, tunnel options, override files. */
  type Object = map<string, Value>

  /** `Object.assign({}, base, overrides)`: right-biased, one level deep. Every
      key of `overrides` carries the override's value; every other key of `base`
      keeps its own. */
  function Assign(base: Object, overrides: Object): (r: Object)
    ensures r.Keys == base.Keys + overrides.Keys
    ensures forall k :: k in overrides ==> r[k] == overrides[k]
    ensures forall k :: k in base && k !in overrides ==> r[k] == base[k]
  {
    base + overrides
  }

  /** A missing or unreadable override file is read as `{}` and changes nothing. */
  lemma AssignNothing(base: Object)
    ensures Assign(base, map[]) == base
  {
  }
}
