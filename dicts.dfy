/** Python's dict as the composition core uses it: string keys, iteration in
    insertion order, and assignment to a key already present keeps that key's
    place in the order. */
module Dicts {

  datatype RawDict<V> = RawDict(keys: seq<string>, entries: map<string, V>)

  /** Every key in the iteration order has an entry. */
  ghost predicate Listed<V>(d: RawDict<V>) {
    forall i :: 0 <= i < |d.keys| ==> d.keys[i] in d.entries
  }

  type Dict<V> = d: RawDict<V> | Listed(d) witness RawDict([], map[])

  /** The rest of what a Python dict guarantees: the iteration order lists
      every key, and lists it once. */
  ghost predicate Wellformed<V>(d: Dict<V>) {
    && (forall k :: k in d.entries ==> k in d.keys)
    && (forall i, j :: 0 <= i < j < |d.keys| ==> d.keys[i] != d.keys[j])
  }

  function Empty<V>(): (r: Dict<V>)
    ensures r.entries == map[] && Wellformed(r)
  {
    RawDict([], map[])
  }

  /** `d[k] = v` */
  function Put<V>(d: Dict<V>, k: string, v: V): (r: Dict<V>)
    ensures r.entries == d.entries[k := v]
    ensures k in d.entries ==> r.keys == d.keys
    ensures k !in d.entries ==> r.keys == d.keys + [k]
    ensures Wellformed(d) ==> Wellformed(r)
  {
    RawDict(if k in d.entries then d.keys else d.keys + [k], d.entries[k := v])
  }

  /** `d.values()`, in insertion order. */
  function Values<V>(d: Dict<V>): (vs: seq<V>)
    ensures |vs| == |d.keys|
    ensures forall i :: 0 <= i < |d.keys| ==> vs[i] == d.entries[d.keys[i]]
  {
    seq(|d.keys|, i requires 0 <= i < |d.keys| => d.entries[d.keys[i]])
  }
}
