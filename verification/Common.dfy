/** Shared by all models: optional values, versions, sequences, and the order of a hash map's walk. */
module Common {

  datatype Option<+T> = None | Some(value: T)

  /** A version of a base or of a delta. */
  datatype Version = Version(name: string)

  lemma Regroup<T>(a: seq<T>, b: seq<T>, c: seq<T>)
    ensures a + b + c == a + (b + c)
  {
  }

  /** Every element of a set exactly once, in some order. */
  ghost predicate Enumerates<T(!new)>(order: seq<T>, s: set<T>) {
    (forall a, b | 0 <= a < b < |order| :: order[a] != order[b]) && (forall x :: x in order <==> x in s)
  }

  predicate Ascending(at: seq<nat>) {
    forall a, b | 0 <= a < b < |at| :: at[a] < at[b]
  }

  /** An ascending list is determined by what it contains. */
  lemma {:induction false} AscendingUnique(p: seq<nat>, q: seq<nat>)
    requires Ascending(p) && Ascending(q) && forall i :: i in p <==> i in q
    ensures p == q
    decreases |p|
  {
    if p == [] {
      assert forall k | 0 <= k < |q| :: q[k] in q;
    } else {
      assert p[0] in p && p[0] in q;
      assert q[0] in q && q[0] in p;
      assert p[0] == q[0];
      assert p == [p[0]] + p[1..] && q == [q[0]] + q[1..];
      forall i
        ensures i in p[1..] <==> i in q[1..]
      {
        assert i in p <==> i == p[0] || i in p[1..];
        assert i in q <==> i == q[0] || i in q[1..];
      }
      AscendingUnique(p[1..], q[1..]);
    }
  }
}
