/**
 * The map-backed set used for the downloader's dedup bookkeeping. The Go type keeps
 * a `map[A]*struct{}` whose values carry no information, so the model keeps the set
 * of its keys. The mutex that makes every operation atomic is not modelled: here the
 * operations run one at a time.
 */
module Utils {

  /** No element occurs twice. */
  predicate Distinct<K(==)>(vs: seq<K>) {
    forall i, j :: 0 <= i < j < |vs| ==> vs[i] != vs[j]
  }

  class ConcurrentSet<K(==)> {
    /** The keys currently present. */
    var m: set<K>

    /** NewConcurrentSet: a set with no keys. */
    constructor ()
      ensures m == {}
    {
      m := {};
    }

    /** Adds `k`; adding a key that is already present changes nothing. */
    method Set(k: K)
      modifies this
      ensures m == old(m) + {k}
      ensures k in m
      ensures forall x :: x != k ==> (x in m <==> x in old(m))
      ensures k in old(m) ==> m == old(m)
    {
      m := m + {k};
    }

    /** Removes `k`; removing an absent key changes nothing. */
    method Delete(k: K)
      modifies this
      ensures m == old(m) - {k}
      ensures k !in m
      ensures forall x :: x != k ==> (x in m <==> x in old(m))
      ensures k !in old(m) ==> m == old(m)
    {
      m := m - {k};
    }

    /** Reports whether `k` is present, changing nothing. */
    method Exists(k: K) returns (present: bool)
      ensures present <==> k in m
    {
      present := k in m;
    }

    /** The keys, each exactly once, in no particular order (Go's map iteration order). */
    method Values() returns (vs: seq<K>)
      ensures Distinct(vs)
      ensures forall x :: x in vs <==> x in m
      ensures |vs| == |m|
    {
      vs := [];
      var rest := m;
      while rest != {}
        invariant rest <= m
        invariant forall x :: x in vs <==> x in m && x !in rest
        invariant Distinct(vs)
        invariant |vs| + |rest| == |m|
        decreases |rest|
      {
        var x :| x in rest;
        vs := vs + [x];
        rest := rest - {x};
      }
    }

    /** The number of keys, computed as the length of Values(). */
    method Len() returns (n: int)
      ensures n == |m|
    {
      var vs := Values();
      n := |vs|;
    }

    /** Replaces the map with an empty one. */
    method Reset()
      modifies this
      ensures m == {}
      ensures forall x :: x !in m
    {
      m := {};
    }
  }
}
