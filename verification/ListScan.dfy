/** Reading a range of a list (lrange, server/engine/rocksdb.cc): a prefix scan over the store that
    keeps the elements whose index lies in the range, in the order in which the iterator meets them. */
module ListScan {
  import opened Bytes
  import opened Common
  import opened KeyCodec
  import KeyOrder
  import opened ListKeys
  import ListMeta

  datatype Entry = Entry(key: Text, value: Text)

  ghost predicate Sorted(db: seq<Entry>) {
    forall i, j | 0 <= i < j < |db| :: Before(db[i].key, db[j].key)
  }

  // ---------------------------------------------------------------- the scan

  /** The keys of a list, and how keys and values are decoded. */
  datatype Codec = Codec(
    prefix: Text,
    key: Int64 -> Text,
    index: Text -> Option<Int64>,
    value: Text -> Option<Text>)

  /** Keys start with the prefix and sort by their index as an unsigned number. */
  ghost predicate Lawful(c: Codec) {
    && (forall i: Int64 :: c.prefix <= c.key(i))
    && (forall i: Int64, j: Int64 :: Before(c.key(i), c.key(j)) <==> Unsigned(i) < Unsigned(j))
  }

  lemma KeysDiffer(c: Codec, i: Int64, j: Int64)
    requires Lawful(c) && c.key(i) == c.key(j)
    ensures i == j
  {
    BeforeIrreflexive(c.key(i));
  }

  function IndexOf(x: Text): Option<Int64> {
    var d := DecodeListData(x);
    if d.Got? then Some(d.value.index) else None
  }

  function ValueOf(x: Text): Option<Text> {
    var d := DecodeRawString(x);
    if d.Got? then Some(d.value.1) else None
  }

  function CodecOf(k: Key): Codec {
    Codec(EncodeKey(Composite, k), i => EncodeIndexed(k, i), IndexOf, ValueOf)
  }

  lemma CodecIsLawful(k: Key)
    ensures Lawful(CodecOf(k))
  {
    forall i: Int64, j: Int64
      ensures Before(CodecOf(k).key(i), CodecOf(k).key(j)) <==> Unsigned(i) < Unsigned(j)
    {
      KeyOrder.IndexedKeysSort(k, i, j);
    }
  }

  /** What an entry adds: its value, if its key and value decode and its index is in the range. */
  function Chosen(c: Codec, e: Entry, lo: int, hi: int): seq<Text> {
    var i, v := c.index(e.key), c.value(e.value);
    if c.prefix <= e.key && i.Some? && lo <= i.value <= hi && v.Some? then [v.value] else []
  }

  /** What the first m entries add. */
  function CollectTo(c: Codec, db: seq<Entry>, m: nat, lo: int, hi: int): seq<Text>
    requires m <= |db|
  {
    if m == 0 then [] else CollectTo(c, db, m - 1, lo, hi) + Chosen(c, db[m - 1], lo, hi)
  }

  function Collect(c: Codec, db: seq<Entry>, lo: int, hi: int): seq<Text> {
    CollectTo(c, db, |db|, lo, hi)
  }

  /** A key before the prefix does not start with it. */
  lemma {:induction false} BeforeHasNoPrefix(x: Text, p: Text)
    requires Before(x, p)
    ensures !(p <= x)
  {
    if p <= x {
      assert x == p + x[|p|..];
      assert p == p + [];
      BeforeSkip(p, x[|p|..], []);
    }
  }

  /** Once a key behind the prefix does not start with it, none does. */
  lemma PrefixIsOver(db: seq<Entry>, i: nat, j: nat, p: Text)
    requires Sorted(db) && i <= j < |db| && !Before(db[i].key, p) && !(p <= db[i].key)
    ensures !(p <= db[j].key)
  {
    if p <= db[j].key {
      var x, y := db[i].key, db[j].key;
      assert y == p + y[|p|..] && p + [] == p;
      if Before(y, x) {
        BeforeTransitive(x, y, x);
        BeforeIrreflexive(x);
      }
      KeyOrder.BetweenSharesStart(p, [], y[|p|..], x);
    }
  }

  /** Entries without the prefix add nothing. */
  lemma {:induction false} CollectNothing(c: Codec, db: seq<Entry>, i: nat, m: nat, lo: int, hi: int)
    requires i <= m <= |db| && forall j | i <= j < m :: !(c.prefix <= db[j].key)
    ensures CollectTo(c, db, m, lo, hi) == CollectTo(c, db, i, lo, hi)
    decreases m - i
  {
    if i < m {
      CollectNothing(c, db, i, m - 1, lo, hi);
    }
  }

  method Seek(db: seq<Entry>, p: Text) returns (i: nat)
    ensures i <= |db| && (i < |db| ==> !Before(db[i].key, p))
    ensures forall j | 0 <= j < i :: Before(db[j].key, p)
  {
    i := 0;
    while i < |db| && Before(db[i].key, p)
      invariant i <= |db| && forall j | 0 <= j < i :: Before(db[j].key, p)
    {
      i := i + 1;
    }
  }

  method Visit(c: Codec, e: Entry, lo: int, hi: int, values0: seq<Text>) returns (values: seq<Text>)
    requires c.prefix <= e.key
    ensures values == values0 + Chosen(c, e, lo, hi)
  {
    values := values0;
    var index, value := c.index(e.key), c.value(e.value);
    if index.None? || index.value < lo || index.value > hi || value.None? {
      return;
    }
    values := values + [value.value];
  }

  /** The loop of the scan: from where the iterator stands to the first key without the prefix. */
  method Walk(c: Codec, db: seq<Entry>, start: nat, lo: int, hi: int) returns (values: seq<Text>, i: nat)
    requires start <= |db| && CollectTo(c, db, start, lo, hi) == []
    ensures start <= i <= |db| && (i < |db| ==> !(c.prefix <= db[i].key))
    ensures values == CollectTo(c, db, i, lo, hi)
  {
    values, i := [], start;
    while i < |db| && c.prefix <= db[i].key
      invariant start <= i <= |db| && values == CollectTo(c, db, i, lo, hi)
    {
      values := Visit(c, db[i], lo, hi, values);
      i := i + 1;
    }
  }

  method Scan(c: Codec, db: seq<Entry>, lo: int, hi: int) returns (values: seq<Text>)
    requires Sorted(db)
    ensures values == Collect(c, db, lo, hi)
  {
    var start := Seek(db, c.prefix);
    NothingBefore(c, db, start, lo, hi);
    var i;
    values, i := Walk(c, db, start, lo, hi);
    NothingBehind(c, db, start, i, lo, hi);
  }

  lemma NothingBehind(c: Codec, db: seq<Entry>, start: nat, i: nat, lo: int, hi: int)
    requires Sorted(db) && start <= i <= |db| && (start < |db| ==> !Before(db[start].key, c.prefix))
    requires i < |db| ==> !(c.prefix <= db[i].key)
    ensures Collect(c, db, lo, hi) == CollectTo(c, db, i, lo, hi)
  {
    forall j | i <= j < |db|
      ensures !(c.prefix <= db[j].key)
    {
      StaysBehind(db, start, i, c.prefix);
      PrefixIsOver(db, i, j, c.prefix);
    }
    CollectNothing(c, db, i, |db|, lo, hi);
  }

  lemma NothingBefore(c: Codec, db: seq<Entry>, start: nat, lo: int, hi: int)
    requires start <= |db| && forall j | 0 <= j < start :: Before(db[j].key, c.prefix)
    ensures CollectTo(c, db, start, lo, hi) == []
  {
    forall j | 0 <= j < start
      ensures !(c.prefix <= db[j].key)
    {
      BeforeHasNoPrefix(db[j].key, c.prefix);
    }
    CollectNothing(c, db, 0, start, lo, hi);
  }

  lemma StaysBehind(db: seq<Entry>, start: nat, i: nat, p: Text)
    requires Sorted(db) && start <= i < |db| && !Before(db[start].key, p)
    ensures !Before(db[i].key, p)
  {
    if start < i && Before(db[i].key, p) {
      BeforeTransitive(db[start].key, db[i].key, p);
    }
  }

  /** The indices asked for, unless the arguments are refused. A `to` of 0 means up to the end. */
  function Window(start: int, end: int, from: nat, to: nat): Option<(int, int)> {
    var lo, hi := start + from + 1, if to > 0 then start + to else end - 1;
    if (to > 0 && to <= from) || lo > end || hi > end then None else Some((lo, hi))
  }

  method Lrange(c: Codec, db: seq<Entry>, start: int, end: int, from: nat, to: nat) returns (r: Option<seq<Text>>)
    requires Sorted(db)
    ensures var w := Window(start, end, from, to);
      r == if w.None? then None else Some(Collect(c, db, w.value.0, w.value.1))
    ensures start == end ==> r.None?
    ensures start < end ==> (r.Some? <==> from < end - start && (to == 0 || from < to <= end - start))
    ensures forall list: ListMeta.ListState<Text> | ListMeta.Valid(list) && list.start == start < end == list.end ::
      var n := |ListMeta.Contents(list)|;
      r.Some? <==> from <= n && (to == 0 || from < to <= n + 1)
  {
    var lo := start + from + 1;
    var hi := end - 1;
    if to > 0 {
      if to <= from {
        return None;
      }
      hi := start + to;
    }
    if lo > end || hi > end {
      return None;
    }
    var values := Scan(c, db, lo, hi);
    r := Some(values);
  }

  // ---------------------------------------------------------------- a stored list

  /** An entry holds one element of a list. An empty element is stored but cannot be read back. */
  ghost predicate Holds(c: Codec, e: Entry, i: Int64, v: Text) {
    && e.key == c.key(i) && c.index(e.key) == Some(i)
    && c.value(e.value) == if v == [] then None else Some(v)
  }

  predicate InRange(i: int) { -0x8000_0000_0000_0000 <= i < 0x8000_0000_0000_0000 }

  /** Every entry under the key holds an element of the list, and every element has an entry. */
  ghost predicate Stores(c: Codec, db: seq<Entry>, list: ListMeta.ListState<Text>) {
    && Lawful(c) && Sorted(db) && ListMeta.Valid(list) && InRange(list.start) && InRange(list.end)
    && (forall n | 0 <= n < |db| && c.prefix <= db[n].key :: HoldsSome(c, db[n], list))
    && (forall i: Int64 | i in list.data :: HasEntry(c, db, i))
  }

  ghost predicate HoldsSome(c: Codec, e: Entry, list: ListMeta.ListState<Text>) {
    exists i: Int64 :: i in list.data && Holds(c, e, i, list.data[i])
  }

  ghost predicate HasEntry(c: Codec, db: seq<Entry>, i: Int64) {
    exists n :: 0 <= n < |db| && db[n].key == c.key(i)
  }

  /** The index of every entry of the list, in the order of the store. */
  function Row(c: Codec, e: Entry): Option<Int64> {
    if c.prefix <= e.key then c.index(e.key) else None
  }

  function Rows(c: Codec, db: seq<Entry>): seq<Option<Int64>> {
    seq(|db|, n requires 0 <= n < |db| => Row(c, db[n]))
  }

  lemma RowIs(c: Codec, db: seq<Entry>, list: ListMeta.ListState<Text>, n: nat)
    requires Stores(c, db, list) && n < |db|
    ensures var r := Row(c, db[n]);
      if c.prefix <= db[n].key
      then r.Some? && r.value in list.data && Holds(c, db[n], r.value, list.data[r.value])
      else r.None?
  {
    if c.prefix <= db[n].key {
      assert HoldsSome(c, db[n], list);
    }
  }

  /** The indices ascend as unsigned numbers. */
  ghost predicate Rising(rows: seq<Option<Int64>>) {
    forall m, n | 0 <= m < n < |rows| && rows[m].Some? && rows[n].Some? ::
      Unsigned(rows[m].value) < Unsigned(rows[n].value)
  }

  lemma RowsRise(c: Codec, db: seq<Entry>, list: ListMeta.ListState<Text>)
    requires Stores(c, db, list)
    ensures Rising(Rows(c, db))
  {
    var rows := Rows(c, db);
    forall m, n | 0 <= m < n < |rows| && rows[m].Some? && rows[n].Some?
      ensures Unsigned(rows[m].value) < Unsigned(rows[n].value)
    {
      RowIs(c, db, list, m);
      RowIs(c, db, list, n);
      KeysRise(c, db, m, n, rows[m].value, rows[n].value);
    }
  }

  lemma KeysRise(c: Codec, db: seq<Entry>, m: nat, n: nat, i: Int64, j: Int64)
    requires Lawful(c) && Sorted(db) && m < n < |db| && db[m].key == c.key(i) && db[n].key == c.key(j)
    ensures Unsigned(i) < Unsigned(j)
  {
    assert Before(c.key(i), c.key(j));
  }

  lemma ElementHasRow(c: Codec, db: seq<Entry>, list: ListMeta.ListState<Text>, i: Int64)
    requires Stores(c, db, list) && i in list.data
    ensures Some(i) in Rows(c, db)
  {
    assert HasEntry(c, db, i);
    var n :| 0 <= n < |db| && db[n].key == c.key(i);
    RowIs(c, db, list, n);
    KeysDiffer(c, i, Row(c, db[n]).value);
    assert Rows(c, db)[n] == Some(i);
  }

  /** Exactly the elements of the list have a row. */
  lemma RowsCover(c: Codec, db: seq<Entry>, list: ListMeta.ListState<Text>, i: Int64)
    requires Stores(c, db, list)
    ensures Some(i) in Rows(c, db) <==> i in list.data
  {
    if Some(i) in Rows(c, db) {
      var n :| 0 <= n < |db| && Rows(c, db)[n] == Some(i);
      RowIs(c, db, list, n);
    }
    if i in list.data {
      ElementHasRow(c, db, list, i);
    }
  }

  /** The readable elements of a list at some indices. */
  function ValuesAt(data: map<int, Text>, q: seq<nat>, lo: int, hi: int): seq<Text>
    decreases q
  {
    if q == [] then []
    else ValuesAt(data, q[..|q| - 1], lo, hi) + ValueAt(data, q[|q| - 1], lo, hi)
  }

  function ValueAt(data: map<int, Text>, u: nat, lo: int, hi: int): seq<Text> {
    if u < U64 && Signed(u) in data && lo <= Signed(u) <= hi && data[Signed(u)] != [] then [data[Signed(u)]] else []
  }

  lemma SignedOf(i: Int64)
    ensures Unsigned(i) < U64 && Signed(Unsigned(i)) == i
  {
  }

  lemma ValuesAppend(data: map<int, Text>, q: seq<nat>, u: nat, lo: int, hi: int)
    ensures ValuesAt(data, q + [u], lo, hi) == ValuesAt(data, q, lo, hi) + ValueAt(data, u, lo, hi)
  {
    assert (q + [u])[..|q|] == q;
  }

  function Indices(rows: seq<Option<Int64>>): seq<nat>
    decreases rows
  {
    if rows == [] then []
    else
      var n := |rows| - 1;
      Indices(rows[..n]) + if rows[n].Some? then [Unsigned(rows[n].value)] else []
  }

  lemma EntryAdds(c: Codec, db: seq<Entry>, list: ListMeta.ListState<Text>, n: nat, lo: int, hi: int)
    requires Stores(c, db, list) && n < |db|
    ensures var r := Row(c, db[n]);
      Chosen(c, db[n], lo, hi) == if r.Some? then ValueAt(list.data, Unsigned(r.value), lo, hi) else []
  {
    RowIs(c, db, list, n);
    var r := Row(c, db[n]);
    if r.Some? {
      SignedOf(r.value);
    }
  }

  lemma IndicesStep(rows: seq<Option<Int64>>, m: nat)
    requires 0 < m <= |rows|
    ensures Indices(rows[..m]) ==
      if rows[m - 1].Some? then Indices(rows[..m - 1]) + [Unsigned(rows[m - 1].value)] else Indices(rows[..m - 1])
  {
    assert rows[..m][..m - 1] == rows[..m - 1];
  }

  lemma IndexAdds(data: map<int, Text>, rows: seq<Option<Int64>>, m: nat, lo: int, hi: int)
    requires 0 < m <= |rows|
    ensures ValuesAt(data, Indices(rows[..m]), lo, hi) ==
      ValuesAt(data, Indices(rows[..m - 1]), lo, hi) +
      if rows[m - 1].Some? then ValueAt(data, Unsigned(rows[m - 1].value), lo, hi) else []
  {
    IndicesStep(rows, m);
    if rows[m - 1].Some? {
      ValuesAppend(data, Indices(rows[..m - 1]), Unsigned(rows[m - 1].value), lo, hi);
    }
  }

  lemma RowAdds(c: Codec, db: seq<Entry>, list: ListMeta.ListState<Text>, m: nat, lo: int, hi: int)
    requires Stores(c, db, list) && 0 < m <= |db|
    ensures ValuesAt(list.data, Indices(Rows(c, db)[..m]), lo, hi) ==
      ValuesAt(list.data, Indices(Rows(c, db)[..m - 1]), lo, hi) + Chosen(c, db[m - 1], lo, hi)
  {
    EntryAdds(c, db, list, m - 1, lo, hi);
    IndexAdds(list.data, Rows(c, db), m, lo, hi);
    assert Rows(c, db)[m - 1] == Row(c, db[m - 1]);
  }

  /** The first m entries of the store return the elements at their indices. */
  lemma {:induction false} CollectsRows(c: Codec, db: seq<Entry>, list: ListMeta.ListState<Text>, m: nat, lo: int,
                                        hi: int)
    requires Stores(c, db, list) && m <= |db|
    ensures CollectTo(c, db, m, lo, hi) == ValuesAt(list.data, Indices(Rows(c, db)[..m]), lo, hi)
  {
    if m == 0 {
      assert Rows(c, db)[..0] == [];
    } else {
      CollectsRows(c, db, list, m - 1, lo, hi);
      RowAdds(c, db, list, m, lo, hi);
    }
  }

  lemma {:induction false} IndicesContain(rows: seq<Option<Int64>>, u: nat)
    ensures u in Indices(rows) <==> exists n :: 0 <= n < |rows| && rows[n].Some? && u == Unsigned(rows[n].value)
    decreases rows
  {
    if rows != [] {
      var n := |rows| - 1;
      IndicesContain(rows[..n], u);
      if k :| 0 <= k < |rows| && rows[k].Some? && u == Unsigned(rows[k].value) {
        assert k < n ==> rows[..n][k] == rows[k];
      }
      if k :| 0 <= k < n && rows[..n][k].Some? && u == Unsigned(rows[..n][k].value) {
        assert rows[k] == rows[..n][k];
      }
    }
  }

  lemma {:induction false} IndicesAscend(rows: seq<Option<Int64>>)
    requires Rising(rows)
    ensures Ascending(Indices(rows))
    decreases rows
  {
    if rows != [] {
      var n := |rows| - 1;
      var q := Indices(rows[..n]);
      IndicesAscend(rows[..n]);
      if rows[n].Some? {
        forall a | 0 <= a < |q|
          ensures q[a] < Unsigned(rows[n].value)
        {
          assert q[a] in q;
          IndicesContain(rows[..n], q[a]);
          var k :| 0 <= k < n && rows[..n][k].Some? && q[a] == Unsigned(rows[..n][k].value);
          assert rows[k] == rows[..n][k];
        }
      }
    }
  }

  // ---------------------------------------------------------------- what is returned

  /** The numbers from a on, up to but not including b. */
  function Up(a: int, b: int): seq<nat>
    requires a >= 0
    decreases b - a
  {
    if a >= b then [] else Up(a, b - 1) + [b - 1]
  }

  function Max(a: int, b: int): int { if a < b then b else a }

  function Min(a: int, b: int): int { if a < b then a else b }

  /** The indices between two exclusive bounds as unsigned numbers, non-negative ones first. */
  function StoreOrder(start: int, end: int): seq<nat>
    requires InRange(start) && InRange(end)
  {
    Up(Max(start + 1, 0), end) + Up(U64 + Min(start + 1, 0), U64 + Min(end, 0))
  }

  lemma {:induction false} UpContains(a: int, b: int, u: nat)
    requires a >= 0
    ensures u in Up(a, b) <==> a <= u < b
    decreases b - a
  {
    if a < b {
      UpContains(a, b - 1, u);
    }
  }

  lemma {:induction false} UpAscends(a: int, b: int)
    requires a >= 0
    ensures Ascending(Up(a, b))
    decreases b - a
  {
    if a < b {
      UpAscends(a, b - 1);
      var q := Up(a, b - 1);
      forall i | 0 <= i < |q|
        ensures q[i] < b - 1
      {
        assert q[i] in q;
        UpContains(a, b - 1, q[i]);
      }
    }
  }

  lemma AscendingConcat(p: seq<nat>, q: seq<nat>, m: nat)
    requires Ascending(p) && Ascending(q)
    requires (forall x | x in p :: x < m) && (forall x | x in q :: m <= x)
    ensures Ascending(p + q)
  {
    var r := p + q;
    forall a, b | 0 <= a < b < |r|
      ensures r[a] < r[b]
    {
      assert a < |p| ==> r[a] == p[a] && p[a] in p;
      assert b >= |p| ==> r[b] == q[b - |p|] && q[b - |p|] in q;
    }
  }

  lemma StoreOrderAscends(start: int, end: int)
    requires InRange(start) && InRange(end)
    ensures Ascending(StoreOrder(start, end))
  {
    var a, b := Max(start + 1, 0), U64 + Min(start + 1, 0);
    var p, q := Up(a, end), Up(b, U64 + Min(end, 0));
    UpAscends(a, end);
    UpAscends(b, U64 + Min(end, 0));
    forall x | x in p
      ensures x < 0x8000_0000_0000_0000
    {
      UpContains(a, end, x);
    }
    forall x | x in q
      ensures 0x8000_0000_0000_0000 <= x
    {
      UpContains(b, U64 + Min(end, 0), x);
    }
    AscendingConcat(p, q, 0x8000_0000_0000_0000);
  }

  lemma StoreOrderIs(start: int, end: int, u: nat)
    requires InRange(start) && InRange(end)
    ensures u in StoreOrder(start, end) <==> u < U64 && start < Signed(u) < end
  {
    var a, b := Max(start + 1, 0), U64 + Min(start + 1, 0);
    UpContains(a, end, u);
    UpContains(b, U64 + Min(end, 0), u);
    assert u in StoreOrder(start, end) <==> u in Up(a, end) || u in Up(b, U64 + Min(end, 0));
  }

  lemma IndicesAre(c: Codec, db: seq<Entry>, list: ListMeta.ListState<Text>)
    requires Stores(c, db, list)
    ensures Indices(Rows(c, db)) == StoreOrder(list.start, list.end)
  {
    var rows := Rows(c, db);
    RowsRise(c, db, list);
    IndicesAscend(rows);
    StoreOrderAscends(list.start, list.end);
    forall u: nat
      ensures u in Indices(rows) <==> u in StoreOrder(list.start, list.end)
    {
      IndexIsStored(c, db, list, u);
    }
    AscendingUnique(Indices(rows), StoreOrder(list.start, list.end));
  }

  lemma IndexIsStored(c: Codec, db: seq<Entry>, list: ListMeta.ListState<Text>, u: nat)
    requires Stores(c, db, list)
    ensures u in Indices(Rows(c, db)) <==> u in StoreOrder(list.start, list.end)
  {
    var rows := Rows(c, db);
    IndicesContain(rows, u);
    StoreOrderIs(list.start, list.end, u);
    if n :| 0 <= n < |rows| && rows[n].Some? && u == Unsigned(rows[n].value) {
      RowsCover(c, db, list, rows[n].value);
      SignedOf(rows[n].value);
    }
    if u < U64 && list.start < Signed(u) < list.end {
      RowsCover(c, db, list, Signed(u));
      var n :| 0 <= n < |rows| && rows[n] == Some(Signed(u));
    }
  }

  /** The readable elements of a list from one index to another, in list order. */
  function Between(data: map<int, Text>, a: int, b: int): seq<Text>
    decreases b - a
  {
    if a > b then []
    else Between(data, a, b - 1) + if b in data && data[b] != [] then [data[b]] else []
  }

  /** The element at an index, if it is in the range and readable. */
  function Element(data: map<int, Text>, i: int, lo: int, hi: int): seq<Text> {
    if i in data && lo <= i <= hi && data[i] != [] then [data[i]] else []
  }

  lemma ValueIs(data: map<int, Text>, i: int, lo: int, hi: int, offset: nat)
    requires InRange(i) && offset == if i < 0 then U64 else 0
    ensures ValueAt(data, i + offset, lo, hi) == Element(data, i, lo, hi)
  {
    assert i + offset < U64 && Signed(i + offset) == i;
  }

  function Elements(data: map<int, Text>, a: int, b: int, lo: int, hi: int): seq<Text>
    decreases b - a
  {
    if a >= b then [] else Elements(data, a, b - 1, lo, hi) + Element(data, b - 1, lo, hi)
  }

  function Picked(data: map<int, Text>, a: int, b: int, lo: int, hi: int): seq<Text>
    requires a >= 0
    decreases b - a
  {
    if a >= b then [] else Picked(data, a, b - 1, lo, hi) + ValueAt(data, b - 1, lo, hi)
  }

  ghost predicate Counts(q: seq<nat>, a: nat) {
    forall i | 0 <= i < |q| :: q[i] == a + i
  }

  lemma {:induction false} UpCounts(a: nat, b: int)
    ensures Counts(Up(a, b), a) && |Up(a, b)| == if a < b then b - a else 0
    decreases b - a
  {
    if a < b {
      UpCounts(a, b - 1);
    }
  }

  lemma {:induction false} ValuesCount(data: map<int, Text>, q: seq<nat>, a: nat, lo: int, hi: int)
    requires Counts(q, a)
    ensures ValuesAt(data, q, lo, hi) == Picked(data, a, a + |q|, lo, hi)
    decreases q
  {
    if q != [] {
      ValuesCount(data, q[..|q| - 1], a, lo, hi);
    }
  }

  lemma ValuesOf(data: map<int, Text>, q: seq<nat>, a: nat, b: int, lo: int, hi: int)
    requires Counts(q, a) && |q| == if a < b then b - a else 0
    ensures ValuesAt(data, q, lo, hi) == Picked(data, a, b, lo, hi)
  {
    ValuesCount(data, q, a, lo, hi);
    if a < b {
      assert a + |q| == b;
    }
  }

  lemma ValuesUp(data: map<int, Text>, a: nat, b: int, lo: int, hi: int)
    ensures ValuesAt(data, Up(a, b), lo, hi) == Picked(data, a, b, lo, hi)
  {
    UpCounts(a, b);
    ValuesOf(data, Up(a, b), a, b, lo, hi);
  }

  lemma {:induction false} PickedAre(data: map<int, Text>, a: int, b: int, lo: int, hi: int, offset: nat)
    requires 0 <= a + offset && (offset == 0 || offset == U64)
    requires a < b ==> InRange(a) && InRange(b - 1) && (if offset == 0 then a >= 0 else b <= 0)
    ensures Picked(data, a + offset, b + offset, lo, hi) == Elements(data, a, b, lo, hi)
    decreases b - a
  {
    if a < b {
      PickedAre(data, a, b - 1, lo, hi, offset);
      ValueIs(data, b - 1, lo, hi, offset);
    }
  }

  lemma {:induction false} ElementsAre(data: map<int, Text>, a: int, b: int, lo: int, hi: int)
    ensures Elements(data, a, b, lo, hi) == Between(data, Max(a, lo), Min(b - 1, hi))
    decreases b - a
  {
    if a < b {
      ElementsAre(data, a, b - 1, lo, hi);
      BetweenStep(data, a, b - 1, lo, hi);
    } else {
      NothingBetween(data, Max(a, lo), Min(b - 1, hi));
    }
  }

  lemma NothingBetween(data: map<int, Text>, a: int, b: int)
    requires a > b
    ensures Between(data, a, b) == []
  {
  }

  lemma BetweenStep(data: map<int, Text>, a: int, i: int, lo: int, hi: int)
    requires a <= i
    ensures Between(data, Max(a, lo), Min(i, hi)) ==
      Between(data, Max(a, lo), Min(i - 1, hi)) + Element(data, i, lo, hi)
  {
  }

  lemma ConcatLast(p: seq<nat>, q: seq<nat>)
    requires q != []
    ensures (p + q)[..|p + q| - 1] == p + q[..|q| - 1] && (p + q)[|p + q| - 1] == q[|q| - 1]
  {
  }

  lemma {:induction false} ValuesConcat(data: map<int, Text>, p: seq<nat>, q: seq<nat>, lo: int, hi: int)
    ensures ValuesAt(data, p + q, lo, hi) == ValuesAt(data, p, lo, hi) + ValuesAt(data, q, lo, hi)
    decreases q
  {
    if q == [] {
      assert p + q == p;
    } else {
      var n := |q| - 1;
      ValuesConcat(data, p, q[..n], lo, hi);
      ConcatLast(p, q);
      Regroup(ValuesAt(data, p, lo, hi), ValuesAt(data, q[..n], lo, hi), ValueAt(data, q[n], lo, hi));
    }
  }

  /** The exclusive upper bound holds no element. */
  lemma ClipEnd(data: map<int, Text>, end: int, a: int, hi: int)
    requires end !in data && hi <= end
    ensures Between(data, a, Min(end - 1, hi)) == Between(data, a, hi)
  {
  }

  lemma PartIs(data: map<int, Text>, a: int, b: int, lo: int, hi: int, offset: nat)
    requires 0 <= a + offset && (offset == 0 || offset == U64)
    requires a < b ==> InRange(a) && InRange(b - 1) && (if offset == 0 then a >= 0 else b <= 0)
    ensures ValuesAt(data, Up(a + offset, b + offset), lo, hi) == Between(data, Max(a, lo), Min(b - 1, hi))
  {
    ValuesUp(data, a + offset, b + offset, lo, hi);
    PickedAre(data, a, b, lo, hi, offset);
    ElementsAre(data, a, b, lo, hi);
  }

  lemma UpAre(data: map<int, Text>, a: int, b: int, lo: int, hi: int)
    requires a >= 0 && (a < b ==> InRange(b - 1))
    ensures ValuesAt(data, Up(a, b), lo, hi) == Between(data, Max(a, lo), Min(b - 1, hi))
  {
    PartIs(data, a, b, lo, hi, 0);
  }

  lemma NonNegativePart(data: map<int, Text>, start: int, end: int, lo: int, hi: int)
    requires InRange(end) && start < lo && hi <= end && end !in data
    ensures ValuesAt(data, Up(Max(start + 1, 0), end), lo, hi) == Between(data, Max(lo, 0), hi)
  {
    UpAre(data, Max(start + 1, 0), end, lo, hi);
    ClipEnd(data, end, Max(lo, 0), hi);
  }

  lemma NegativePart(data: map<int, Text>, start: int, end: int, lo: int, hi: int)
    requires InRange(start) && InRange(end) && start < lo && hi <= end && end !in data
    ensures ValuesAt(data, Up(U64 + Min(start + 1, 0), U64 + Min(end, 0)), lo, hi) == Between(data, lo, Min(hi, -1))
  {
    PartIs(data, Min(start + 1, 0), Min(end, 0), lo, hi, U64);
    ClipEnd(data, end, lo, Min(hi, -1));
  }

  lemma InStoreOrder(list: ListMeta.ListState<Text>, lo: int, hi: int)
    requires ListMeta.Valid(list) && InRange(list.start) && InRange(list.end)
    requires list.start < lo && hi <= list.end
    ensures ValuesAt(list.data, StoreOrder(list.start, list.end), lo, hi) ==
      Between(list.data, Max(lo, 0), hi) + Between(list.data, lo, Min(hi, -1))
  {
    var a := Up(Max(list.start + 1, 0), list.end);
    var b := Up(U64 + Min(list.start + 1, 0), U64 + Min(list.end, 0));
    ValuesConcat(list.data, a, b, lo, hi);
    NonNegativePart(list.data, list.start, list.end, lo, hi);
    NegativePart(list.data, list.start, list.end, lo, hi);
  }

  lemma ScanIsOrdered(c: Codec, db: seq<Entry>, list: ListMeta.ListState<Text>, lo: int, hi: int)
    requires Stores(c, db, list)
    ensures Collect(c, db, lo, hi) == ValuesAt(list.data, StoreOrder(list.start, list.end), lo, hi)
  {
    assert Rows(c, db)[..|db|] == Rows(c, db);
    CollectsRows(c, db, list, |db|, lo, hi);
    IndicesAre(c, db, list);
  }

  /** What the scan of a stored list returns: the elements at non-negative indices, then those at
      negative ones. */
  lemma ScanReturns(c: Codec, db: seq<Entry>, list: ListMeta.ListState<Text>, lo: int, hi: int)
    requires Stores(c, db, list) && list.start < lo && hi <= list.end
    ensures Collect(c, db, lo, hi) == Between(list.data, Max(lo, 0), hi) + Between(list.data, lo, Min(hi, -1))
  {
    ScanIsOrdered(c, db, list, lo, hi);
    InStoreOrder(list, lo, hi);
  }

  // ---------------------------------------------------------------- in list order or not

  lemma {:induction false} BetweenSplit(data: map<int, Text>, a: int, m: int, b: int)
    requires a <= m <= b + 1
    ensures Between(data, a, b) == Between(data, a, m - 1) + Between(data, m, b)
    decreases b - m
  {
    if m <= b {
      BetweenSplit(data, a, m, b - 1);
    }
  }

  /** The readable elements among some. */
  function Readable(vs: seq<Text>): seq<Text>
    decreases vs
  {
    if vs == [] then []
    else Readable(vs[..|vs| - 1]) + if vs[|vs| - 1] != [] then [vs[|vs| - 1]] else []
  }

  /** The part of a list that is asked for: from one position up to, but not including, another. */
  ghost function Asked(list: ListMeta.ListState<Text>, from: nat, to: nat): seq<Text>
    requires ListMeta.Valid(list)
  {
    var all := ListMeta.Contents(list);
    var upto := if 0 < to < |all| then to else |all|;
    if from <= upto then all[from..upto] else []
  }

  lemma {:induction false} BetweenIsSlice(list: ListMeta.ListState<Text>, from: nat, upto: nat)
    requires ListMeta.Valid(list) && from <= upto <= |ListMeta.Contents(list)|
    ensures Between(list.data, list.start + 1 + from, list.start + upto) ==
      Readable(ListMeta.Contents(list)[from..upto])
    decreases upto
  {
    var all := ListMeta.Contents(list);
    if from < upto {
      BetweenIsSlice(list, from, upto - 1);
      assert all[from..upto][..upto - from - 1] == all[from..upto - 1];
    }
  }

  lemma AskedIsBetween(list: ListMeta.ListState<Text>, from: nat, to: nat)
    requires ListMeta.Valid(list) && Window(list.start, list.end, from, to).Some?
    ensures var (lo, hi) := Window(list.start, list.end, from, to).value;
      Between(list.data, lo, hi) == Readable(Asked(list, from, to))
  {
    var (lo, hi) := Window(list.start, list.end, from, to).value;
    var n := |ListMeta.Contents(list)|;
    var upto := if 0 < to < n then to else n;
    ClipEnd(list.data, list.end, lo, hi);
    if from <= upto {
      BetweenIsSlice(list, from, upto);
    } else {
      NothingBetween(list.data, lo, list.start + upto);
    }
  }

  /** The two halves of a range, in store order, against the whole range. */
  lemma Halves(data: map<int, Text>, lo: int, hi: int)
    ensures lo < 0 <= hi ==>
      Between(data, lo, hi) == Between(data, lo, -1) + Between(data, 0, hi)
    ensures !(lo < 0 <= hi) ==>
      Between(data, Max(lo, 0), hi) + Between(data, lo, Min(hi, -1)) == Between(data, lo, hi)
  {
    if lo < 0 <= hi {
      BetweenSplit(data, lo, 0, hi);
    } else if lo < 0 {
      NothingBetween(data, 0, hi);
    } else {
      NothingBetween(data, lo, Min(hi, -1));
    }
  }

  /** lrange on a stored list. The readable elements asked for come back in list order, unless the
      range reaches from negative to non-negative indices; then those at non-negative indices come
      first. */
  lemma RangeReturns(c: Codec, db: seq<Entry>, list: ListMeta.ListState<Text>, from: nat, to: nat)
    requires Stores(c, db, list) && Window(list.start, list.end, from, to).Some?
    ensures var (lo, hi) := Window(list.start, list.end, from, to).value;
      var negative, rest := Between(list.data, lo, -1), Between(list.data, 0, hi);
      if lo < 0 <= hi
      then Collect(c, db, lo, hi) == rest + negative && Readable(Asked(list, from, to)) == negative + rest
      else Collect(c, db, lo, hi) == Readable(Asked(list, from, to))
  {
    var (lo, hi) := Window(list.start, list.end, from, to).value;
    ScanReturns(c, db, list, lo, hi);
    AskedIsBetween(list, from, to);
    Halves(list.data, lo, hi);
  }

  // ---------------------------------------------------------------- the store of the engine

  /** The store holds exactly this list under the key, as listPush writes it. */
  ghost predicate StoredAs(db: seq<Entry>, k: Key, list: ListMeta.ListState<Text>) {
    && Sorted(db) && ListMeta.Valid(list) && InRange(list.start) && InRange(list.end)
    && Proper(k) && |EncodeKey(Composite, k)| + 8 < U32
    && (forall n | 0 <= n < |db| && EncodeKey(Composite, k) <= db[n].key :: IsElement(db[n], k, list))
    && (forall i: Int64 | i in list.data :: exists n :: 0 <= n < |db| && db[n].key == EncodeIndexed(k, i))
  }

  ghost predicate IsElement(e: Entry, k: Key, list: ListMeta.ListState<Text>) {
    exists i: Int64, timestamp: nat :: i in list.data && timestamp < U64 && 13 + |list.data[i]| < U32 &&
      e == Entry(EncodeIndexed(k, i), EncodeRawString(timestamp, list.data[i]))
  }

  lemma ElementDecodes(k: Key, i: Int64, timestamp: nat, v: Text)
    requires Proper(k) && |EncodeKey(Composite, k)| + 8 < U32 && timestamp < U64 && 13 + |v| < U32
    ensures IndexOf(EncodeIndexed(k, i)) == Some(i)
    ensures ValueOf(EncodeRawString(timestamp, v)) == if v == [] then None else Some(v)
  {
    ListRoundTrip(k, i);
    RawStringRoundTrip(timestamp, v);
  }

  lemma ElementHolds(e: Entry, k: Key, list: ListMeta.ListState<Text>)
    requires Proper(k) && |EncodeKey(Composite, k)| + 8 < U32 && IsElement(e, k, list)
    ensures HoldsSome(CodecOf(k), e, list)
  {
    var i: Int64, timestamp: nat :| i in list.data && timestamp < U64 && 13 + |list.data[i]| < U32 &&
      e == Entry(EncodeIndexed(k, i), EncodeRawString(timestamp, list.data[i]));
    ElementDecodes(k, i, timestamp, list.data[i]);
    assert Holds(CodecOf(k), e, i, list.data[i]);
  }

  lemma EntryIs(db: seq<Entry>, k: Key, i: Int64)
    requires exists n :: 0 <= n < |db| && db[n].key == EncodeIndexed(k, i)
    ensures HasEntry(CodecOf(k), db, i)
  {
    var n :| 0 <= n < |db| && db[n].key == EncodeIndexed(k, i);
    assert CodecOf(k).key(i) == EncodeIndexed(k, i);
  }

  lemma StoredIsStores(db: seq<Entry>, k: Key, list: ListMeta.ListState<Text>)
    requires StoredAs(db, k, list)
    ensures Stores(CodecOf(k), db, list)
  {
    CodecIsLawful(k);
    forall n | 0 <= n < |db| && CodecOf(k).prefix <= db[n].key
      ensures HoldsSome(CodecOf(k), db[n], list)
    {
      ElementHolds(db[n], k, list);
    }
    forall i: Int64 | i in list.data
      ensures HasEntry(CodecOf(k), db, i)
    {
      EntryIs(db, k, i);
    }
  }

  /** lrange answers the readable elements asked for, in list order, if and only if the range does not
      reach across zero or its two halves commute. */
  lemma LrangeOrder(db: seq<Entry>, k: Key, list: ListMeta.ListState<Text>, from: nat, to: nat)
    requires StoredAs(db, k, list) && Window(list.start, list.end, from, to).Some?
    ensures var (lo, hi) := Window(list.start, list.end, from, to).value;
      var negative, rest := Between(list.data, lo, -1), Between(list.data, 0, hi);
      Collect(CodecOf(k), db, lo, hi) == Readable(Asked(list, from, to)) <==>
      (lo < 0 <= hi ==> rest + negative == negative + rest)
  {
    StoredIsStores(db, k, list);
    RangeReturns(CodecOf(k), db, list, from, to);
  }

  ghost function TwiceFront(v: Text, w: Text): (s: ListMeta.ListState<Text>)
    ensures ListMeta.Valid(s)
  {
    var once := ListMeta.Apply(ListMeta.Empty(), ListMeta.PushFront(v)).0;
    ListMeta.PushFrontRefines(ListMeta.Empty(), v);
    ListMeta.PushFrontRefines(once, w);
    ListMeta.Apply(once, ListMeta.PushFront(w)).0
  }

  lemma TwiceFrontIs(v: Text, w: Text)
    ensures TwiceFront(v, w) == ListMeta.ListState(-2, 1, map[0 := v, -1 := w])
    ensures ListMeta.Contents(TwiceFront(v, w)) == [w, v]
  {
  }

  lemma BetweenOne(data: map<int, Text>, i: int)
    requires i in data && data[i] != []
    ensures Between(data, i, i) == [data[i]]
  {
    NothingBetween(data, i, i - 1);
  }

  lemma FrontTwice(c: Codec, db: seq<Entry>, list: ListMeta.ListState<Text>)
    requires Stores(c, db, list) && list.start == -2 && list.end == 1
    requires 0 in list.data && -1 in list.data && list.data[0] != [] && list.data[-1] != []
    ensures Collect(c, db, -1, 0) == [list.data[0], list.data[-1]]
  {
    ScanReturns(c, db, list, -1, 0);
    BetweenOne(list.data, 0);
    BetweenOne(list.data, -1);
  }

  lemma StoredFrontTwice(db: seq<Entry>, k: Key, list: ListMeta.ListState<Text>)
    requires StoredAs(db, k, list) && list.start == -2 && list.end == 1
    requires 0 in list.data && -1 in list.data && list.data[0] != [] && list.data[-1] != []
    ensures Collect(CodecOf(k), db, -1, 0) == [list.data[0], list.data[-1]]
  {
    StoredIsStores(db, k, list);
    FrontTwice(CodecOf(k), db, list);
  }

  /** Two elements pushed to the front of a new list come back in the wrong order. */
  lemma LpushTwice(db: seq<Entry>, k: Key, list: ListMeta.ListState<Text>, v: Text, w: Text)
    requires v != [] && w != [] && list == TwiceFront(v, w) && StoredAs(db, k, list)
    ensures ListMeta.Contents(list) == [w, v]
    ensures Window(list.start, list.end, 0, 0) == Some((-1, 0)) && Collect(CodecOf(k), db, -1, 0) == [v, w]
  {
    TwiceFrontIs(v, w);
    StoredFrontTwice(db, k, list);
  }
}
