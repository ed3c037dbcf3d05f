/**
 * The part of `java.util` the library's collections rely on: a
 * `ConcurrentHashMap` enumerates its keys (or values) each once, in an order
 * that the model leaves open.
 */
module JavaUtil {

  /** One enumeration of a key set: every key exactly once, in some order. */
  ghost predicate EnumerationOf<K>(order: seq<K>, keys: set<K>) {
    && |order| == |keys|
    && (forall i :: 0 <= i < |order| ==> order[i] in keys)
    && (forall i, j :: 0 <= i < j < |order| ==> order[i] != order[j])
    && (forall k :: k in keys ==> k in order)
  }

  /** The order in which a `ConcurrentHashMap` enumerates `keys`. */
  method Enumerate<K>(keys: set<K>) returns (order: seq<K>)
    ensures EnumerationOf(order, keys)
  {
    order := [];
    var remaining := keys;
    while remaining != {}
      invariant remaining <= keys && |order| + |remaining| == |keys|
      invariant forall k :: k in order <==> k in keys && k !in remaining
      invariant forall i, j :: 0 <= i < j < |order| ==> order[i] != order[j]
      decreases |remaining|
    {
      var k :| k in remaining;
      order := order + [k];
      remaining := remaining - {k};
    }
  }

  /** `map.putIfAbsent(k, v)`: the key is bound afterwards, and an entry already present is kept. */
  function PutIfAbsent<K, V>(m: map<K, V>, k: K, v: V): (r: map<K, V>)
    ensures r.Keys == m.Keys + {k}
    ensures forall j :: j in m ==> r[j] == m[j]
    ensures k !in m ==> r[k] == v
  {
    if k in m then m else m[k := v]
  }
}
