/**
 * Plain JavaScript objects used as records: string keys in insertion order,
 * each mapped to one value. `Object.entries` and `Object.keys` visit `keys`
 * in order; `obj[k] = v` is `Set`.
 */
module Records {

  datatype Record<T> = Record(keys: seq<string>, values: map<string, T>) {

    /** Every key is listed once, and the listed keys are exactly the properties. */
    ghost predicate Valid() {
      (forall i, j :: 0 <= i < j < |keys| ==> keys[i] != keys[j]) &&
      (forall k :: k in values <==> k in keys)
    }

    /** `obj[k] = v`: a new key goes to the end of the order, an existing one keeps its place. */
    function Set(k: string, v: T): (r: Record<T>)
      requires Valid()
      ensures r.Valid()
      ensures r.values == values[k := v]
      ensures r.keys == if k in values then keys else keys + [k]
    {
      if k in values then Record(keys, values[k := v]) else Record(keys + [k], values[k := v])
    }
  }

  /** The object literal `{}`. */
  function Empty<T>(): (r: Record<T>)
    ensures r.Valid() && r.keys == [] && r.values == map[]
  {
    Record([], map[])
  }

  /** Two well-formed records with the same key order have the same properties. */
  lemma SameKeysSameProperties<T>(r1: Record<T>, r2: Record<T>)
    requires r1.Valid() && r2.Valid() && r1.keys == r2.keys
    ensures r1.values.Keys == r2.values.Keys
  {
  }
}
