/** The order in which the storage engine meets encoded keys, and what range scans over it return
    (common/laser/format.h, common/laser/format.cc, server/engine/rocksdb.cc). */
module KeyOrder {
  import opened Common
  import opened Bytes
  import opened KeyCodec

  // ---------------------------------------------------------------- expiry keys

  lemma LittleSorts(m: nat, n: nat, k: nat)
    requires m < 256 && n < 256 && k > 0 && m != n
    ensures Little(m, k) != Little(n, k)
    ensures Before(Little(m, k), Little(n, k)) <==> m < n
  {
    assert Little(m, k)[0] == m && Little(n, k)[0] == n;
  }

  lemma PackedSorts(a: Text, b: Text, x: Text, y: Text)
    requires 0 < |a| < 256 && 0 < |b| < 256 && a != b
    ensures Before(PackString(a) + x, PackString(b) + y) <==> |a| < |b| || (|a| == |b| && Before(a, b))
  {
    var m, n := Little(|a|, 4), Little(|b|, 4);
    assert PackString(a) + x == m + (a + x) && PackString(b) + y == n + (b + y);
    if |a| == |b| {
      BeforeSkip(m, a + x, b + y);
      BeforeExtend(a, b, x, y);
    } else {
      LittleSorts(|a|, |b|, 4);
      BeforeExtend(m, n, a + x, b + y);
    }
  }

  /** Expiry keys sort by time, whatever keys they carry: a one-byte length of a decimal number
      comes first, then its digits. */
  lemma TtlKeysSortByTime(k1: Key, t1: nat, k2: Key, t2: nat)
    requires t1 < U64 && t2 < U64 && t1 != t2
    ensures Before(EncodeTtl(k1, t1), EncodeTtl(k2, t2)) <==> t1 < t2
  {
    var d1, d2 := Decimal(t1), Decimal(t2);
    var x, y := PackString(EncodeKey(Default, k1)), PackString(EncodeKey(Default, k2));
    U64HasTwentyDigits(t1);
    U64HasTwentyDigits(t2);
    if d1 == d2 {
      DecimalInjective(t1, t2);
    }
    BeforeSkip([TypeByte(TtlSort)], PackString(d1) + x, PackString(d2) + y);
    PackedSorts(d1, d2, x, y);
    if t1 < t2 {
      DecimalLength(t1, t2);
    } else {
      DecimalLength(t2, t1);
    }
    if |d1| == |d2| {
      DecimalSorts(t1, t2);
    }
  }

  // ---------------------------------------------------------------- scores and list indices

  lemma IndexedKeysSort(k: Key, a: Int64, b: Int64)
    ensures Before(EncodeIndexed(k, a), EncodeIndexed(k, b)) <==> Unsigned(a) < Unsigned(b)
  {
    Widths();
    BeforeSkip(EncodeKey(Composite, k), Big(Unsigned(a), 8), Big(Unsigned(b), 8));
    BigSorts(Unsigned(a), Unsigned(b), 8);
  }

  /** Under one key the byte order is the numeric order exactly between numbers of the same sign. */
  lemma IndexedKeysSortWithinSign(k: Key, a: Int64, b: Int64)
    requires a < b
    ensures Before(EncodeIndexed(k, a), EncodeIndexed(k, b)) <==> (a < 0 <==> b < 0)
  {
    IndexedKeysSort(k, a, b);
  }

  // ---------------------------------------------------------------- iterator scans

  /** The keys of a store in iterator order. */
  ghost predicate Sorted(db: seq<Text>) {
    forall i, j | 0 <= i < j < |db| :: Before(db[i], db[j])
  }

  predicate Within(x: Text, lo: Text, hi: Option<Text>) {
    !Before(x, lo) && (hi.Some? ==> !Before(hi.value, x))
  }

  function Select(db: seq<Text>, lo: Text, hi: Option<Text>): seq<Text> {
    if db == [] then []
    else (if Within(db[0], lo, hi) then [db[0]] else []) + Select(db[1..], lo, hi)
  }

  lemma {:induction false} SelectContains(db: seq<Text>, lo: Text, hi: Option<Text>, x: Text)
    ensures x in Select(db, lo, hi) <==> x in db && Within(x, lo, hi)
  {
    if db != [] {
      SelectContains(db[1..], lo, hi, x);
      assert x in db <==> x == db[0] || x in db[1..];
    }
  }

  lemma {:induction false} SelectSorted(db: seq<Text>, lo: Text, hi: Option<Text>)
    requires Sorted(db)
    ensures Sorted(Select(db, lo, hi))
  {
    if db != [] {
      SelectSorted(db[1..], lo, hi);
      var rest := Select(db[1..], lo, hi);
      forall j | 0 <= j < |rest|
        ensures Before(db[0], rest[j])
      {
        SelectContains(db[1..], lo, hi, rest[j]);
      }
    }
  }

  lemma {:induction false} SelectNothing(db: seq<Text>, lo: Text, hi: Option<Text>)
    requires forall i | 0 <= i < |db| :: !Within(db[i], lo, hi)
    ensures Select(db, lo, hi) == []
  {
    if db != [] {
      SelectNothing(db[1..], lo, hi);
    }
  }

  lemma {:induction false} SelectAppend(xs: seq<Text>, ys: seq<Text>, lo: Text, hi: Option<Text>)
    ensures Select(xs + ys, lo, hi) == Select(xs, lo, hi) + Select(ys, lo, hi)
  {
    if xs == [] {
      assert xs + ys == ys;
    } else {
      assert (xs + ys)[1..] == xs[1..] + ys;
      SelectAppend(xs[1..], ys, lo, hi);
    }
  }

  // Beyond the first key past the upper bound nothing is within it any more.
  lemma PastTheEnd(db: seq<Text>, end: nat, j: nat, lo: Text, hi: Option<Text>)
    requires Sorted(db) && end <= j < |db| && hi.Some? && Before(hi.value, db[end])
    ensures !Within(db[j], lo, hi)
  {
    if end < j {
      BeforeTransitive(hi.value, db[end], db[j]);
    }
  }

  lemma {:induction false} SelectAll(xs: seq<Text>, lo: Text, hi: Option<Text>)
    requires forall i | 0 <= i < |xs| :: Within(xs[i], lo, hi)
    ensures Select(xs, lo, hi) == xs
  {
    if xs != [] {
      SelectAll(xs[1..], lo, hi);
    }
  }

  lemma SelectMiddle(a: seq<Text>, b: seq<Text>, c: seq<Text>, lo: Text, hi: Option<Text>)
    requires forall i | 0 <= i < |a| :: !Within(a[i], lo, hi)
    requires forall i | 0 <= i < |b| :: Within(b[i], lo, hi)
    requires forall i | 0 <= i < |c| :: !Within(c[i], lo, hi)
    ensures Select(a + b + c, lo, hi) == b
  {
    SelectNothing(a, lo, hi);
    SelectAll(b, lo, hi);
    SelectNothing(c, lo, hi);
    SelectAppend(a, b, lo, hi);
    SelectAppend(a + b, c, lo, hi);
  }

  lemma CutInThree(xs: seq<Text>, i: nat, j: nat)
    requires i <= j <= |xs|
    ensures xs[..i] + xs[i..j] + xs[j..] == xs
  {
  }

  lemma SliceIsSelected(db: seq<Text>, start: nat, end: nat, lo: Text, hi: Option<Text>)
    requires Sorted(db) && start <= end <= |db|
    requires forall j | 0 <= j < start :: Before(db[j], lo)
    requires forall j | start <= j < end :: Within(db[j], lo, hi)
    requires end < |db| ==> hi.Some? && Before(hi.value, db[end])
    ensures db[start..end] == Select(db, lo, hi)
  {
    var c := db[end..];
    forall j | 0 <= j < |c|
      ensures !Within(c[j], lo, hi)
    {
      PastTheEnd(db, end, end + j, lo, hi);
    }
    SelectMiddle(db[..start], db[start..end], c, lo, hi);
    CutInThree(db, start, end);
  }

  /** The first key not before `lo`. */
  method Seek(db: seq<Text>, lo: Text) returns (i: nat)
    ensures i <= |db| && (i < |db| ==> !Before(db[i], lo))
    ensures forall j | 0 <= j < i :: Before(db[j], lo)
  {
    i := 0;
    while i < |db| && Before(db[i], lo)
      invariant i <= |db|
      invariant forall j | 0 <= j < i :: Before(db[j], lo)
    {
      i := i + 1;
    }
  }

  /** Seek, then step until a key leaves the range. */
  method Scan(db: seq<Text>, lo: Text, hi: Option<Text>) returns (visited: seq<Text>)
    requires Sorted(db)
    ensures visited == Select(db, lo, hi)
  {
    var start := Seek(db, lo);
    var i := start;
    visited := [];
    while i < |db| && !Before(db[i], lo) && (hi.None? || !Before(hi.value, db[i]))
      invariant start <= i <= |db| && visited == db[start..i]
      invariant forall j | start <= j < i :: Within(db[j], lo, hi)
    {
      visited := visited + [db[i]];
      i := i + 1;
    }
    if i < |db| {
      BeforeTransitiveIndex(db, start, i, lo);
    }
    SliceIsSelected(db, start, i, lo, hi);
  }

  // A key after the seek position is never before the seek key again.
  lemma BeforeTransitiveIndex(db: seq<Text>, start: nat, i: nat, lo: Text)
    requires Sorted(db) && start <= i < |db| && !Before(db[start], lo)
    ensures !Before(db[i], lo)
  {
    if start < i && Before(db[i], lo) {
      BeforeTransitive(db[start], db[i], lo);
    }
  }

  // ---------------------------------------------------------------- sorted-set ranges

  /** What rangeZset visits: between a negative and a non-negative bound it makes two scans, the
      first of which has no upper end. */
  function ZRange(db: seq<Text>, k: Key, min: Int64, max: Int64): seq<Text> {
    var lo, hi := EncodeIndexed(k, min), EncodeIndexed(k, max);
    if min < 0 && max >= 0
    then Select(db, lo, None) + Select(db, EncodeIndexed(k, 0), Some(hi))
    else Select(db, lo, Some(hi))
  }

  method RangeZset(db: seq<Text>, k: Key, min: Int64, max: Int64) returns (visited: seq<Text>)
    requires Sorted(db)
    ensures visited == ZRange(db, k, min, max)
  {
    var lo, hi := EncodeIndexed(k, min), EncodeIndexed(k, max);
    if max < 0 {
      visited := Scan(db, lo, Some(hi));
    } else if min < 0 && max >= 0 {
      var negative := Scan(db, lo, None);
      var rest := Scan(db, EncodeIndexed(k, 0), Some(hi));
      visited := negative + rest;
    } else {
      visited := Scan(db, lo, Some(hi));
    }
  }

  /** All data stored under k belongs to its sorted set. */
  ghost predicate OnlyScores(db: seq<Text>, k: Key) {
    forall x | x in db && EncodeKey(Composite, k) <= x :: exists s: Int64 :: x == EncodeIndexed(k, s)
  }

  ghost predicate IsScore(x: Text, k: Key, min: Int64, max: Int64) {
    exists s: Int64 :: x == EncodeIndexed(k, s) && min <= s <= max
  }

  /** The scores of k in the range are what is visited, all of them and nothing else. */
  ghost predicate Exact(db: seq<Text>, k: Key, min: Int64, max: Int64) {
    forall x :: x in ZRange(db, k, min, max) <==> x in db && IsScore(x, k, min, max)
  }

  /** Between two strings with a common start there are only strings with that start. */
  lemma {:induction false} BetweenSharesStart(p: Text, a: Text, b: Text, x: Text)
    requires !Before(x, p + a) && !Before(p + b, x)
    ensures p <= x
  {
    if p != [] {
      assert (p + a)[0] == p[0] && (p + b)[0] == p[0];
      assert (p + a)[1..] == p[1..] + a && (p + b)[1..] == p[1..] + b;
      assert x != [] && x[0] == p[0];
      BetweenSharesStart(p[1..], a, b, x[1..]);
      assert p == [p[0]] + p[1..] && x == [x[0]] + x[1..];
    }
  }

  lemma IndexedInjective(k: Key, a: Int64, b: Int64)
    requires EncodeIndexed(k, a) == EncodeIndexed(k, b)
    ensures a == b
  {
    var p := |EncodeKey(Composite, k)|;
    assert EncodeIndexed(k, a)[p..] == Big(Unsigned(a), 8) && EncodeIndexed(k, b)[p..] == Big(Unsigned(b), 8);
    Widths();
    FromBigOfBig(Unsigned(a), 8);
    FromBigOfBig(Unsigned(b), 8);
  }

  /** A key of k lies within two bounds of k exactly when its unsigned value does. */
  lemma WithinByValue(k: Key, s: Int64, min: Int64, max: Int64)
    ensures Within(EncodeIndexed(k, s), EncodeIndexed(k, min), None) <==> Unsigned(min) <= Unsigned(s)
    ensures Within(EncodeIndexed(k, s), EncodeIndexed(k, min), Some(EncodeIndexed(k, max)))
      <==> Unsigned(min) <= Unsigned(s) <= Unsigned(max)
  {
    IndexedKeysSort(k, s, min);
    IndexedKeysSort(k, max, s);
  }

  /** Bounded by two keys of k, a scan meets exactly the scores between them. */
  lemma BoundedScan(db: seq<Text>, k: Key, min: Int64, max: Int64, x: Text)
    requires OnlyScores(db, k) && min <= max && (min < 0 <==> max < 0)
    ensures x in Select(db, EncodeIndexed(k, min), Some(EncodeIndexed(k, max)))
      <==> x in db && IsScore(x, k, min, max)
  {
    var lo, hi := EncodeIndexed(k, min), EncodeIndexed(k, max);
    SelectContains(db, lo, Some(hi), x);
    if x in db && Within(x, lo, Some(hi)) {
      BetweenSharesStart(EncodeKey(Composite, k), Big(Unsigned(min), 8), Big(Unsigned(max), 8), x);
      var s: Int64 :| x == EncodeIndexed(k, s);
      WithinByValue(k, s, min, max);
    }
    if x in db && IsScore(x, k, min, max) {
      var s: Int64 :| x == EncodeIndexed(k, s) && min <= s <= max;
      WithinByValue(k, s, min, max);
    }
  }

  /** A range of scores of one sign visits exactly the stored scores in it. */
  lemma SameSignRangeIsExact(db: seq<Text>, k: Key, min: Int64, max: Int64)
    requires OnlyScores(db, k) && min <= max && (min < 0 <==> max < 0)
    ensures Exact(db, k, min, max)
  {
    forall x
      ensures x in ZRange(db, k, min, max) <==> x in db && IsScore(x, k, min, max)
    {
      BoundedScan(db, k, min, max, x);
    }
  }

  /** No key of the store from the lower bound on belongs to anything but k. */
  ghost predicate NothingAfter(db: seq<Text>, k: Key, min: Int64) {
    forall x | x in db && !Before(x, EncodeIndexed(k, min)) :: EncodeKey(Composite, k) <= x
  }

  /** A range across zero is exact exactly when k owns every key from its lower bound to the end of
      the store; otherwise data of other keys is visited with it. */
  lemma MixedSignRange(db: seq<Text>, k: Key, min: Int64, max: Int64)
    requires OnlyScores(db, k) && min < 0 <= max
    ensures Exact(db, k, min, max) <==> NothingAfter(db, k, min)
  {
    var lo := EncodeIndexed(k, min);
    forall x | x in db && IsScore(x, k, min, max)
      ensures x in ZRange(db, k, min, max)
    {
      ScoreIsVisited(db, k, min, max, x);
    }
    if NothingAfter(db, k, min) {
      forall x | x in ZRange(db, k, min, max)
        ensures x in db && IsScore(x, k, min, max)
      {
        VisitedIsScore(db, k, min, max, x);
      }
    }
    if Exact(db, k, min, max) {
      forall x | x in db && !Before(x, lo)
        ensures EncodeKey(Composite, k) <= x
      {
        SelectContains(db, lo, None, x);
        assert x in ZRange(db, k, min, max);
        assert IsScore(x, k, min, max);
      }
    }
  }

  lemma ScoreIsVisited(db: seq<Text>, k: Key, min: Int64, max: Int64, x: Text)
    requires OnlyScores(db, k) && min < 0 <= max && x in db && IsScore(x, k, min, max)
    ensures x in ZRange(db, k, min, max)
  {
    var s: Int64 :| x == EncodeIndexed(k, s) && min <= s <= max;
    if s < 0 {
      SelectContains(db, EncodeIndexed(k, min), None, x);
      WithinByValue(k, s, min, max);
    } else {
      BoundedScan(db, k, 0, max, x);
      assert IsScore(x, k, 0, max);
    }
  }

  lemma VisitedIsScore(db: seq<Text>, k: Key, min: Int64, max: Int64, x: Text)
    requires OnlyScores(db, k) && min < 0 <= max && NothingAfter(db, k, min) && x in ZRange(db, k, min, max)
    ensures x in db && IsScore(x, k, min, max)
  {
    var lo := EncodeIndexed(k, min);
    if x in Select(db, lo, None) {
      SelectContains(db, lo, None, x);
      var s: Int64 :| x == EncodeIndexed(k, s);
      WithinByValue(k, s, min, max);
    } else {
      BoundedScan(db, k, 0, max, x);
      var s: Int64 :| x == EncodeIndexed(k, s) && 0 <= s <= max;
    }
  }

  /** Whenever the range is exact its scores come out in ascending order, although the bytes of
      negative scores sort last. */
  lemma RangeAscends(db: seq<Text>, k: Key, min: Int64, max: Int64, i: nat, j: nat, s: Int64, t: Int64)
    requires Sorted(db) && OnlyScores(db, k) && min <= max && Exact(db, k, min, max)
    requires i < j < |ZRange(db, k, min, max)|
    requires ZRange(db, k, min, max)[i] == EncodeIndexed(k, s) && ZRange(db, k, min, max)[j] == EncodeIndexed(k, t)
    ensures s < t
  {
    if min < 0 <= max {
      MixedSignAscends(db, k, min, max, i, j, s, t);
    } else {
      VisitedScore(db, k, min, max, i, s);
      VisitedScore(db, k, min, max, j, t);
      SelectSorted(db, EncodeIndexed(k, min), Some(EncodeIndexed(k, max)));
      IndexedKeysSort(k, s, t);
    }
  }

  lemma MixedSignAscends(db: seq<Text>, k: Key, min: Int64, max: Int64, i: nat, j: nat, s: Int64, t: Int64)
    requires Sorted(db) && min < 0 <= max && i < j < |ZRange(db, k, min, max)|
    requires ZRange(db, k, min, max)[i] == EncodeIndexed(k, s) && ZRange(db, k, min, max)[j] == EncodeIndexed(k, t)
    ensures s < t
  {
    var p := Select(db, EncodeIndexed(k, min), None);
    var q := Select(db, EncodeIndexed(k, 0), Some(EncodeIndexed(k, max)));
    var n := |p|;
    VisitedAt(db, k, min, max, i);
    VisitedAt(db, k, min, max, j);
    if j < n {
      FirstScanAscends(db, k, min, max, i, j, s, t);
    } else if i < n {
      FirstScanIsNegative(db, k, min, max, i, s);
      SecondScanIsNot(db, k, max, j - n, t);
    } else {
      SecondScanAscends(db, k, max, i - n, j - n, s, t);
    }
  }

  lemma ConcatAt(p: seq<Text>, q: seq<Text>, i: nat)
    requires i < |p| + |q|
    ensures (p + q)[i] == if i < |p| then p[i] else q[i - |p|]
  {
  }

  lemma VisitedAt(db: seq<Text>, k: Key, min: Int64, max: Int64, i: nat)
    requires min < 0 <= max && i < |ZRange(db, k, min, max)|
    ensures var p := Select(db, EncodeIndexed(k, min), None);
      var q := Select(db, EncodeIndexed(k, 0), Some(EncodeIndexed(k, max)));
      if i < |p| then ZRange(db, k, min, max)[i] == p[i] else i - |p| < |q| && ZRange(db, k, min, max)[i] == q[i - |p|]
  {
    ConcatAt(Select(db, EncodeIndexed(k, min), None), Select(db, EncodeIndexed(k, 0), Some(EncodeIndexed(k, max))), i);
  }

  lemma FirstScanAscends(db: seq<Text>, k: Key, min: Int64, max: Int64, i: nat, j: nat, s: Int64, t: Int64)
    requires Sorted(db) && min < 0 <= max && i < j < |Select(db, EncodeIndexed(k, min), None)|
    requires Select(db, EncodeIndexed(k, min), None)[i] == EncodeIndexed(k, s)
    requires Select(db, EncodeIndexed(k, min), None)[j] == EncodeIndexed(k, t)
    ensures s < t
  {
    SelectSorted(db, EncodeIndexed(k, min), None);
    FirstScanIsNegative(db, k, min, max, i, s);
    FirstScanIsNegative(db, k, min, max, j, t);
    IndexedKeysSort(k, s, t);
  }

  lemma SecondScanAscends(db: seq<Text>, k: Key, max: Int64, i: nat, j: nat, s: Int64, t: Int64)
    requires Sorted(db) && 0 <= max && i < j < |Select(db, EncodeIndexed(k, 0), Some(EncodeIndexed(k, max)))|
    requires Select(db, EncodeIndexed(k, 0), Some(EncodeIndexed(k, max)))[i] == EncodeIndexed(k, s)
    requires Select(db, EncodeIndexed(k, 0), Some(EncodeIndexed(k, max)))[j] == EncodeIndexed(k, t)
    ensures s < t
  {
    SelectSorted(db, EncodeIndexed(k, 0), Some(EncodeIndexed(k, max)));
    SecondScanIsNot(db, k, max, i, s);
    SecondScanIsNot(db, k, max, j, t);
    IndexedKeysSort(k, s, t);
  }

  lemma VisitedScore(db: seq<Text>, k: Key, min: Int64, max: Int64, i: nat, s: Int64)
    requires Exact(db, k, min, max) && i < |ZRange(db, k, min, max)|
    requires ZRange(db, k, min, max)[i] == EncodeIndexed(k, s)
    ensures min <= s <= max
  {
    var x := ZRange(db, k, min, max)[i];
    assert x in ZRange(db, k, min, max);
    assert IsScore(x, k, min, max);
    var u: Int64 :| x == EncodeIndexed(k, u) && min <= u <= max;
    IndexedInjective(k, s, u);
  }

  lemma FirstScanIsNegative(db: seq<Text>, k: Key, min: Int64, max: Int64, i: nat, s: Int64)
    requires min < 0 <= max && i < |Select(db, EncodeIndexed(k, min), None)|
    requires Select(db, EncodeIndexed(k, min), None)[i] == EncodeIndexed(k, s)
    ensures s < 0
  {
    SelectContains(db, EncodeIndexed(k, min), None, EncodeIndexed(k, s));
    WithinByValue(k, s, min, max);
  }

  lemma SecondScanIsNot(db: seq<Text>, k: Key, max: Int64, i: nat, s: Int64)
    requires 0 <= max && i < |Select(db, EncodeIndexed(k, 0), Some(EncodeIndexed(k, max)))|
    requires Select(db, EncodeIndexed(k, 0), Some(EncodeIndexed(k, max)))[i] == EncodeIndexed(k, s)
    ensures s >= 0
  {
    SelectContains(db, EncodeIndexed(k, 0), Some(EncodeIndexed(k, max)), EncodeIndexed(k, s));
    WithinByValue(k, s, 0, max);
  }
}
