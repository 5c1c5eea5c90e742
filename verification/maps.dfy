/** Ranging over a Go map. */
module Maps {

  /** The values of `m`, one per key, in an unspecified order (Go's map
      iteration order is not fixed). */
  method Values<K, V(==)>(m: map<K, V>) returns (r: seq<V>)
    ensures |r| == |m.Keys|
    ensures forall k :: k in m ==> m[k] in r
    ensures forall i :: 0 <= i < |r| ==> r[i] in m.Values
  {
    r := [];
    var visited: set<K> := {};
    var remaining := m.Keys;
    while remaining != {}
      invariant remaining !! visited && remaining + visited == m.Keys
      invariant |r| == |visited|
      invariant forall k :: k in visited ==> m[k] in r
      invariant forall i :: 0 <= i < |r| ==> r[i] in m.Values
      decreases |remaining|
    {
      var k :| k in remaining;
      r := r + [m[k]];
      remaining := remaining - {k};
      visited := visited + {k};
    }
  }
}
