/** Sums and collections over a sequence, and how one changed element moves them.
    The state machines keep their threads in a sequence and count them with these. */
module Tally {

  function Sum<T>(f: T -> nat, ts: seq<T>): nat
  {
    if ts == [] then 0 else f(ts[0]) + Sum(f, ts[1..])
  }

  lemma {:induction false} SumUpdate<T>(f: T -> nat, ts: seq<T>, i: nat, t: T)
    requires i < |ts|
    ensures Sum(f, ts[i := t]) + f(ts[i]) == Sum(f, ts) + f(t)
  {
    if i == 0 {
      assert ts[i := t][1..] == ts[1..];
    } else {
      assert ts[i := t][1..] == ts[1..][i - 1 := t];
      SumUpdate(f, ts[1..], i - 1, t);
    }
  }

  lemma {:induction false} SumAppend<T>(f: T -> nat, ts: seq<T>, t: T)
    ensures Sum(f, ts + [t]) == Sum(f, ts) + f(t)
  {
    if ts == [] {
      assert ts + [t] == [t];
      assert [t][1..] == [];
    } else {
      assert (ts + [t])[1..] == ts[1..] + [t];
      SumAppend(f, ts[1..], t);
    }
  }

  /** One summand never exceeds the sum. */
  lemma {:induction false} SumAtLeast<T>(f: T -> nat, ts: seq<T>, i: nat)
    requires i < |ts|
    ensures f(ts[i]) <= Sum(f, ts)
  {
    if i > 0 {
      SumAtLeast(f, ts[1..], i - 1);
    }
  }

  /** Two different summands never exceed the sum. */
  lemma {:induction false} SumAtLeastTwo<T>(f: T -> nat, ts: seq<T>, i: nat, j: nat)
    requires i < j < |ts|
    ensures f(ts[i]) + f(ts[j]) <= Sum(f, ts)
  {
    if i > 0 {
      SumAtLeastTwo(f, ts[1..], i - 1, j - 1);
    } else {
      SumAtLeast(f, ts[1..], j - 1);
    }
  }

  /** A positive sum has a positive summand. */
  lemma {:induction false} SumWitness<T>(f: T -> nat, ts: seq<T>) returns (i: nat)
    requires Sum(f, ts) > 0
    ensures i < |ts| && f(ts[i]) > 0
  {
    if f(ts[0]) > 0 {
      i := 0;
    } else {
      i := SumWitness(f, ts[1..]);
      i := i + 1;
    }
  }

  function Gather<T, U>(f: T -> multiset<U>, ts: seq<T>): multiset<U>
  {
    if ts == [] then multiset{} else f(ts[0]) + Gather(f, ts[1..])
  }

  lemma {:induction false} GatherUpdate<T, U>(f: T -> multiset<U>, ts: seq<T>, i: nat, t: T)
    requires i < |ts|
    ensures Gather(f, ts[i := t]) + f(ts[i]) == Gather(f, ts) + f(t)
  {
    if i == 0 {
      assert ts[i := t][1..] == ts[1..];
    } else {
      assert ts[i := t][1..] == ts[1..][i - 1 := t];
      GatherUpdate(f, ts[1..], i - 1, t);
      var head, changed, tail := f(ts[0]), Gather(f, ts[1..][i - 1 := t]), Gather(f, ts[1..]);
      assert head + changed + f(ts[i]) == head + (changed + f(ts[i]));
      assert head + (tail + f(t)) == head + tail + f(t);
    }
  }

  lemma {:induction false} GatherAppend<T, U>(f: T -> multiset<U>, ts: seq<T>, t: T)
    ensures Gather(f, ts + [t]) == Gather(f, ts) + f(t)
  {
    if ts == [] {
      assert ts + [t] == [t];
      assert [t][1..] == [];
    } else {
      assert (ts + [t])[1..] == ts[1..] + [t];
      GatherAppend(f, ts[1..], t);
    }
  }

  lemma {:induction false} GatherNothing<T, U>(f: T -> multiset<U>, ts: seq<T>)
    requires forall i | 0 <= i < |ts| :: f(ts[i]) == multiset{}
    ensures Gather(f, ts) == multiset{}
  {
    if ts != [] {
      GatherNothing(f, ts[1..]);
    }
  }
}
