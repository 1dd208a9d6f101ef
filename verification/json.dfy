/**
 * Request bodies and table rows as field maps. Only the shape the handlers
 * look at is kept: scalar values, and everything else as `Compound`.
 * A field that is `undefined` is simply absent from the map.
 */
module Json {

  datatype Value = Null | Bool(b: bool) | Num(n: int) | Str(s: string) | Compound

  type Object = map<string, Value>

  /** JavaScript truthiness: `null`, `false`, `0` and `""` are falsy (NaN is not modelled). */
  predicate Truthy(v: Value) {
    match v
    case Null => false
    case Bool(b) => b
    case Num(n) => n != 0
    case Str(s) => s != ""
    case Compound => true
  }

  /** `!!body.k`: an absent field reads as `undefined`, which is falsy. */
  predicate Present(o: Object, k: string) {
    k in o && Truthy(o[k])
  }

  /**
   * An object literal `{ k1: body.k1, k2: body.k2, ... }` copying the listed fields:
   * exactly the listed fields the body has, with the body's values.
   */
  function Pick(o: Object, keys: set<string>): (r: Object)
    ensures r.Keys == o.Keys * keys
    ensures forall k :: k in r ==> r[k] == o[k]
  {
    map k | k in o.Keys * keys :: o[k]
  }

  /** Setting a key outside the picked ones does not change the pick. */
  lemma PickIgnores(o: Object, keys: set<string>, k: string, v: Value)
    requires k !in keys
    ensures Pick(o[k := v], keys) == Pick(o, keys)
  {
  }
}
