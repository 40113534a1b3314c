/**
 * `pick(obj, keys)`: a copy of the object that keeps only the listed keys the
 * object itself has.  Controllers use it to take the filter and paging fields
 * out of a query string.
 */
module Pick {
  import opened Api

  /** The object, or None for null and undefined. */
  type Obj<V> = Option<map<string, V>>

  /** What `pick` returns: the listed own keys, each with its value. */
  function Picked<V>(obj: Obj<V>, keys: seq<string>): (r: map<string, V>)
    ensures forall k :: k in r <==> obj.Some? && k in obj.value && k in keys
    ensures forall k :: k in r ==> r[k] == obj.value[k]
  {
    if obj.None? then map[]
    else map k | k in obj.value && k in keys :: obj.value[k]
  }

  /** The loop of `pick`: copy each listed key the object has into a fresh object. */
  method PickKeys<V>(obj: Obj<V>, keys: seq<string>) returns (result: map<string, V>)
    ensures result == Picked(obj, keys)
  {
    result := map[];
    for i := 0 to |keys|
      invariant result == Picked(obj, keys[..i])
    {
      var key := keys[i];
      if obj.Some? && key in obj.value {
        result := result[key := obj.value[key]];
      }
      assert keys[..i + 1] == keys[..i] + [key];
    }
    assert keys[..|keys|] == keys;
  }

  /** Null or undefined gives an empty object. */
  lemma NoObject<V>(keys: seq<string>)
    ensures Picked<V>(None, keys) == map[]
  {
  }

  /** Picking again with the same keys changes nothing. */
  lemma PickIdempotent<V>(obj: Obj<V>, keys: seq<string>)
    ensures Picked(Some(Picked(obj, keys)), keys) == Picked(obj, keys)
  {
  }

  /** Only the set of listed keys matters: order and repetition do not. */
  lemma KeyOrderIrrelevant<V>(obj: Obj<V>, keys1: seq<string>, keys2: seq<string>)
    requires forall k :: k in keys1 <==> k in keys2
    ensures Picked(obj, keys1) == Picked(obj, keys2)
  {
  }
}
