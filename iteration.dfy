/** Go ranges over a map in an unspecified order. The model lets the method
    that iterates choose the order, and the functions that specify the output
    take that order as an argument: any sequence that lists every key exactly
    once. */
module Iteration {

  /** order lists every element of keys exactly once, and nothing else. */
  predicate Enumerates<K>(order: seq<K>, keys: set<K>) {
    && (forall i, j | 0 <= i < j < |order| :: order[i] != order[j])
    && (forall i | 0 <= i < |order| :: order[i] in keys)
    && (forall k | k in keys :: k in order)
  }

  /** An enumeration is as long as the set it enumerates. */
  lemma {:induction false} EnumerationSize<K>(order: seq<K>, keys: set<K>)
    requires Enumerates(order, keys)
    ensures |order| == |keys|
    decreases |order|
  {
    if order != [] {
      var n := |order| - 1;
      var last := order[n];
      assert Enumerates(order[..n], keys - {last}) by {
        forall i | 0 <= i < n ensures order[..n][i] in keys - {last} {
          assert order[i] != order[n];
        }
        forall k | k in keys - {last} ensures k in order[..n] {
          var i :| 0 <= i < |order| && order[i] == k;
          assert i != n;
        }
      }
      EnumerationSize(order[..n], keys - {last});
    }
  }

  /** Extending an enumeration of done by a key not yet in it. */
  lemma Extend<K>(order: seq<K>, done: set<K>, k: K)
    requires Enumerates(order, done) && k !in done
    ensures Enumerates(order + [k], done + {k})
  {
  }
}
