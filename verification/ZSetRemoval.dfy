/** Removing a range of scores (zremRangeByScore, server/engine/rocksdb.cc): every key the range scan
    visits is deleted if it can be decoded as a sorted-set key, whoever it belongs to. */
module ZSetRemoval {
  import opened Bytes
  import opened Common
  import opened KeyCodec
  import opened KeyOrder

  predicate Decodable(x: Text) { DecodeScored(x).Got? }

  /** The keys that are deleted. */
  predicate Removed(db: seq<Text>, k: Key, min: Int64, max: Int64, x: Text) {
    min <= max && x in ZRange(db, k, min, max) && Decodable(x)
  }

  function Without(db: seq<Text>, gone: seq<Text>): seq<Text> {
    if db == [] then []
    else (if db[0] in gone then [] else [db[0]]) + Without(db[1..], gone)
  }

  lemma {:induction false} WithoutContains(db: seq<Text>, gone: seq<Text>, x: Text)
    ensures x in Without(db, gone) <==> x in db && x !in gone
  {
    if db != [] {
      WithoutContains(db[1..], gone, x);
      assert x in db <==> x == db[0] || x in db[1..];
    }
  }

  /** The batch of deletions collected over the scan. */
  method Batch(visited: seq<Text>, decodable: Text -> bool) returns (batch: seq<Text>)
    ensures forall x :: x in batch <==> x in visited && decodable(x)
  {
    batch := [];
    for i := 0 to |visited|
      invariant forall x :: x in batch <==> x in visited[..i] && decodable(x)
    {
      assert visited[..i + 1] == visited[..i] + [visited[i]];
      if decodable(visited[i]) {
        batch := batch + [visited[i]];
      }
    }
    assert visited[..|visited|] == visited;
  }

  method ZRemRangeByScore(db: seq<Text>, k: Key, min: Int64, max: Int64) returns (rest: seq<Text>)
    requires Sorted(db)
    ensures forall x :: x in rest <==> x in db && !Removed(db, k, min, max, x)
  {
    if min > max {
      return db;
    }
    var visited := RangeZset(db, k, min, max);
    var batch := Batch(visited, Decodable);
    rest := Without(db, batch);
    forall x
      ensures x in rest <==> x in db && !Removed(db, k, min, max, x)
    {
      WithoutContains(db, batch, x);
    }
  }

  /** The removal hits the scores of k in the range, all of them and nothing else. */
  ghost predicate RemovesExactly(db: seq<Text>, k: Key, min: Int64, max: Int64) {
    forall x | x in db :: Removed(db, k, min, max, x) <==> IsScore(x, k, min, max)
  }

  /** No foreign key that looks like a sorted-set key lies behind the lower bound. */
  ghost predicate NoForeignScore(db: seq<Text>, k: Key, min: Int64) {
    forall x | x in db && !Before(x, EncodeIndexed(k, min)) && Decodable(x) :: EncodeKey(Composite, k) <= x
  }

  lemma ScoreIsDecodable(k: Key, x: Text, min: Int64, max: Int64)
    requires Proper(k) && |EncodeKey(Composite, k)| + 8 < U32 && IsScore(x, k, min, max)
    ensures Decodable(x) && EncodeKey(Composite, k) <= x
  {
    var s: Int64 :| x == EncodeIndexed(k, s) && min <= s <= max;
    DecodeScoredOfEncode(k, s);
  }

  lemma ScoreIsRemoved(db: seq<Text>, k: Key, min: Int64, max: Int64, x: Text)
    requires Proper(k) && |EncodeKey(Composite, k)| + 8 < U32
    requires OnlyScores(db, k) && min <= max && x in db && IsScore(x, k, min, max)
    ensures Removed(db, k, min, max, x)
  {
    ScoreIsDecodable(k, x, min, max);
    if min < 0 <= max {
      ScoreIsVisited(db, k, min, max, x);
    } else {
      BoundedScan(db, k, min, max, x);
    }
  }

  lemma RemovedIsScore(db: seq<Text>, k: Key, min: Int64, max: Int64, x: Text)
    requires OnlyScores(db, k) && min <= max && Removed(db, k, min, max, x)
    requires min < 0 <= max ==> NoForeignScore(db, k, min)
    ensures IsScore(x, k, min, max)
  {
    var lo := EncodeIndexed(k, min);
    if !(min < 0 <= max) {
      BoundedScan(db, k, min, max, x);
    } else if x in Select(db, lo, None) {
      SelectContains(db, lo, None, x);
      var s: Int64 :| x == EncodeIndexed(k, s);
      WithinByValue(k, s, min, max);
    } else {
      BoundedScan(db, k, 0, max, x);
      var s: Int64 :| x == EncodeIndexed(k, s) && 0 <= s <= max;
    }
  }

  /** The store afterwards is the store without exactly this key's scores in the range, if and only if
      the range does not reach across zero or no decodable key of anybody else follows its lower
      bound: otherwise the data of another key is deleted with it. */
  lemma RemovalIsExact(db: seq<Text>, k: Key, min: Int64, max: Int64)
    requires Proper(k) && |EncodeKey(Composite, k)| + 8 < U32 && OnlyScores(db, k) && min <= max
    ensures RemovesExactly(db, k, min, max) <==> (min < 0 <= max ==> NoForeignScore(db, k, min))
  {
    forall x | x in db && IsScore(x, k, min, max)
      ensures Removed(db, k, min, max, x)
    {
      ScoreIsRemoved(db, k, min, max, x);
    }
    if min < 0 <= max ==> NoForeignScore(db, k, min) {
      forall x | x in db && Removed(db, k, min, max, x)
        ensures IsScore(x, k, min, max)
      {
        RemovedIsScore(db, k, min, max, x);
      }
    }
    if RemovesExactly(db, k, min, max) && min < 0 <= max {
      forall x | x in db && !Before(x, EncodeIndexed(k, min)) && Decodable(x)
        ensures EncodeKey(Composite, k) <= x
      {
        SelectContains(db, EncodeIndexed(k, min), None, x);
        assert Removed(db, k, min, max, x);
        ScoreIsDecodable(k, x, min, max);
      }
    }
  }

  /** A score of another sorted set that sorts behind the range is lost. */
  lemma ForeignScoreIsRemoved(k: Key, other: Key, s: Int64)
    requires Proper(other) && |EncodeIndexed(other, s)| < U32
    requires Before(EncodeIndexed(k, -1), EncodeIndexed(other, s))
    ensures Removed([EncodeIndexed(other, s)], k, -1, 0, EncodeIndexed(other, s))
  {
    var x, lo := EncodeIndexed(other, s), EncodeIndexed(k, -1);
    if Before(x, lo) {
      BeforeTransitive(lo, x, lo);
      BeforeIrreflexive(lo);
    }
    SelectContains([x], lo, None, x);
    DecodeScoredOfEncode(other, s);
  }
}
