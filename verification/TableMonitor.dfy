/** Which partitions of a table are watched (server/table_monitor.cc). A node downloads base and delta
    files only for the partitions it leads: the ids it monitors, the filters of the base monitor and
    those of the delta monitor have to move together. */
module TableMonitors {
  import opened Bytes
  import opened Common
  import opened HdfsMonitors
  import opened HdfsSync

  const SLASH: Byte := 47

  /** The directory of a partition. */
  function Prefix(id: nat): Text { Decimal(id) + [SLASH] }

  datatype Watch = Watch(partitions: set<nat>, started: bool, base: seq<Text>, delta: Option<seq<Text>>)

  /** The partition a directory belongs to. */
  function IdOf(dir: Text): nat {
    if dir != [] && forall i | 0 <= i < |dir| - 1 :: IsDigit(dir[i]) then
      assert forall i | 0 <= i < |dir| - 1 :: dir[..|dir| - 1][i] == dir[i];
      ParseDigits(dir[..|dir| - 1])
    else 0
  }

  /** The filters are the directories of these partitions, each once. */
  ghost predicate Exactly(filters: seq<Text>, ids: set<nat>) {
    && (forall i, j | 0 <= i < j < |filters| :: filters[i] != filters[j])
    && (forall p | p in filters :: p == Prefix(IdOf(p)) && IdOf(p) in ids)
    && (forall id | id in ids :: Prefix(id) in filters)
  }

  /** A watch that follows the led partitions. Before the first partition is added the base monitor
      matches everything, but it has not been started. */
  ghost predicate Follows(w: Watch, led: set<nat>) {
    && w.partitions == led
    && (if w.started then Exactly(w.base, led) else w.base == [ALL] && led == {})
    && (w.delta.Some? ==> Exactly(w.delta.value, led))
  }

  function Added(w: Watch, id: nat): Watch {
    Watch(w.partitions + {id}, true, AddFilters(w.base, [Prefix(id)]),
          if w.delta.Some? then Some(AddFilters(w.delta.value, [Prefix(id)])) else None)
  }

  function Removed(w: Watch, id: nat): Watch {
    Watch(w.partitions - {id}, w.started, WithoutAll(w.base, [Prefix(id)]),
          if w.delta.Some? then Some(WithoutAll(w.delta.value, [Prefix(id)])) else None)
  }

  /** A new base version brings a new delta monitor with these filters. */
  function Rebased(w: Watch, filters: seq<Text>): Watch {
    w.(delta := Some(filters))
  }

  // ---------------------------------------------------------------- partition directories

  lemma {:induction false} DigitsEnd(a: Text, b: Text, x: Text, y: Text)
    requires (forall i | 0 <= i < |a| :: IsDigit(a[i])) && (forall i | 0 <= i < |b| :: IsDigit(b[i]))
    requires a + [SLASH] + x == b + [SLASH] + y
    ensures a == b
  {
    var t := a + [SLASH] + x;
    assert t[|a|] == SLASH && t[|b|] == SLASH;
    assert |a| < |b| ==> t[|a|] == b[|a|] && IsDigit(b[|a|]);
    assert |b| < |a| ==> t[|b|] == a[|b|] && IsDigit(a[|b|]);
    assert a == t[..|a|] && b == t[..|b|];
  }

  /** A name lies in the directory of at most one partition. */
  lemma PrefixesAreFree(i: nat, j: nat, name: Text)
    requires Prefix(i) <= name && Prefix(j) <= name
    ensures i == j
  {
    assert name == Decimal(i) + [SLASH] + name[|Prefix(i)|..];
    assert name == Decimal(j) + [SLASH] + name[|Prefix(j)|..];
    DigitsEnd(Decimal(i), Decimal(j), name[|Prefix(i)|..], name[|Prefix(j)|..]);
    DecimalInjective(i, j);
  }

  lemma IdOfPrefix(id: nat)
    ensures IdOf(Prefix(id)) == id
  {
    assert Prefix(id)[..|Prefix(id)| - 1] == Decimal(id);
    ParseOfDecimal(id);
  }

  lemma NotAll(id: nat)
    ensures Prefix(id) != ALL
  {
    assert Prefix(id)[|Prefix(id)| - 1] == SLASH;
  }

  /** A metadata file is selected exactly when it lies in the directory of a led partition. */
  lemma SelectsLedOnly(filters: seq<Text>, led: set<nat>, name: Text)
    requires Exactly(filters, led)
    ensures Selected(filters, name) <==> exists id: nat :: id in led && Prefix(id) <= name
  {
    if Selected(filters, name) {
      var i :| 0 <= i < |filters| && (filters[i] == ALL || filters[i] <= name);
      assert filters[i] in filters;
      NotAll(IdOf(filters[i]));
    }
    if id: nat :| id in led && Prefix(id) <= name {
      assert Prefix(id) in filters;
    }
  }

  /** So a file of partition `id` is downloaded exactly when the node leads `id`. */
  lemma FileOfPartition(filters: seq<Text>, led: set<nat>, id: nat, rest: Text)
    requires Exactly(filters, led)
    ensures Selected(filters, Prefix(id) + rest) <==> id in led
  {
    SelectsLedOnly(filters, led, Prefix(id) + rest);
    forall k: nat | Prefix(k) <= Prefix(id) + rest
      ensures k == id
    {
      PrefixesAreFree(k, id, Prefix(id) + rest);
    }
  }

  // ---------------------------------------------------------------- adding and removing

  lemma WithoutLast(filters: seq<Text>, prefix: Text)
    requires forall i, j | 0 <= i < j < |filters| :: filters[i] != filters[j]
    ensures var rest := Without(filters, prefix);
      && (forall i, j | 0 <= i < j < |rest| :: rest[i] != rest[j])
      && (forall p :: p in rest <==> p in filters && p != prefix)
  {
    var k, rest := IndexOf(filters, prefix), Without(filters, prefix);
    forall p
      ensures p in rest <==> p in filters && p != prefix
    {
      if p in filters && p != prefix {
        var i :| 0 <= i < |filters| && filters[i] == p;
        assert p in filters[..k] || p in filters[k + 1..] by {
          assert i < k ==> filters[..k][i] == p;
          assert i > k ==> filters[k + 1..][i - k - 1] == p;
        }
      }
    }
  }

  lemma OnePrefix(filters: seq<Text>, prefix: Text)
    ensures WithAll(filters, [prefix]) == With(filters, prefix)
    ensures WithoutAll(filters, [prefix]) == Without(filters, prefix)
  {
    var none := [prefix][..0];
    assert WithAll(filters, none) == filters && WithoutAll(filters, none) == filters;
  }

  lemma AddingFollows(filters: seq<Text>, led: set<nat>, id: nat)
    requires Exactly(filters, led) || (filters == [ALL] && led == {})
    ensures Exactly(AddFilters(filters, [Prefix(id)]), led + {id})
  {
    var rest := Without(filters, ALL);
    if filters == [ALL] {
      assert rest == [];
    } else {
      NotAll(IdOf(ALL));
      assert ALL !in filters;
      assert rest == filters;
    }
    OnePrefix(rest, Prefix(id));
    WithOne(rest, led, id);
  }

  lemma WithOne(filters: seq<Text>, led: set<nat>, id: nat)
    requires Exactly(filters, led)
    ensures Exactly(With(filters, Prefix(id)), led + {id})
  {
    IdOfPrefix(id);
  }

  lemma RemovingFollows(filters: seq<Text>, led: set<nat>, id: nat)
    requires Exactly(filters, led)
    ensures Exactly(WithoutAll(filters, [Prefix(id)]), led - {id})
  {
    var rest := Without(filters, Prefix(id));
    OnePrefix(filters, Prefix(id));
    WithoutLast(filters, Prefix(id));
    forall k | k in led - {id}
      ensures Prefix(k) in rest
    {
      IdOfPrefix(k);
      IdOfPrefix(id);
    }
  }

  lemma AddedFollows(w: Watch, led: set<nat>, id: nat)
    requires Follows(w, led)
    ensures Follows(Added(w, id), led + {id})
  {
    AddingFollows(w.base, led, id);
    if w.delta.Some? {
      AddingFollows(w.delta.value, led, id);
    }
  }

  lemma RemovedFollows(w: Watch, led: set<nat>, id: nat)
    requires Follows(w, led)
    ensures Follows(Removed(w, id), led - {id})
  {
    if w.started {
      RemovingFollows(w.base, led, id);
    } else {
      NotAll(id);
      OnePrefix(w.base, Prefix(id));
    }
    if w.delta.Some? {
      RemovingFollows(w.delta.value, led, id);
    }
  }

  lemma RebasedFollows(w: Watch, led: set<nat>, filters: seq<Text>)
    requires Follows(w, led) && Exactly(filters, w.partitions)
    ensures Follows(Rebased(w, filters), led)
  {
  }

  // ---------------------------------------------------------------- base versions

  /** The version a downloaded file belongs to: the path is the directory, a partition id and the
      version. */
  function VersionOf(dir: Text, file: File): Option<Text> {
    if !(dir <= file) then None
    else
      var info := Split(file[|dir|..], SLASH);
      if |info| != 2 || ParseUnsigned(info[0], U32).None? then None else Some(info[1])
  }

  /** All files of a batch have the same version; an empty batch has the empty one. */
  predicate OneVersion(dir: Text, files: seq<File>, version: Text) {
    if files == [] then version == []
    else forall i | 0 <= i < |files| :: VersionOf(dir, files[i]) == Some(version)
  }

  /** The file of a partition in a version's directory has that version. */
  lemma VersionOfFile(dir: Text, id: nat, version: Text)
    requires id < U32 && version != [] && SLASH !in version
    ensures VersionOf(dir, dir + Decimal(id) + [SLASH] + version) == Some(version)
  {
    var path := Decimal(id) + [SLASH] + version;
    assert dir + Decimal(id) + [SLASH] + version == dir + path;
    assert (dir + path)[|dir|..] == path;
    SplitAtSeparator(Decimal(id), version, SLASH);
    SplitOnePiece(Decimal(id), SLASH);
    SplitOnePiece(version, SLASH);
    ParseUnsignedOfDecimal(id, U32);
  }

  /** A file outside the directory has none, nor has one directly in it, nor one deeper down. */
  lemma NoVersionElsewhere(dir: Text, a: Text, b: Text, c: Text)
    requires a != [] && b != [] && c != [] && SLASH !in a && SLASH !in b && SLASH !in c
    ensures VersionOf(dir, dir + a) == None
    ensures VersionOf(dir, dir + (a + [SLASH] + (b + [SLASH] + c))) == None
    ensures ParseUnsigned(a, U32).None? ==> VersionOf(dir, dir + (a + [SLASH] + b)) == None
    ensures forall file | !(dir <= file) :: VersionOf(dir, file) == None
  {
    SplitOnePiece(a, SLASH);
    SplitOnePiece(b, SLASH);
    SplitOnePiece(c, SLASH);
    SplitAtSeparator(a, b, SLASH);
    SplitAtSeparator(b, c, SLASH);
    SplitAtSeparator(a, b + [SLASH] + c, SLASH);
    var x, y := a + [SLASH] + (b + [SLASH] + c), a + [SLASH] + b;
    assert (dir + a)[|dir|..] == a && (dir + x)[|dir|..] == x && (dir + y)[|dir|..] == y;
  }

  lemma VersionsAreNonEmpty(dir: Text, file: File)
    requires VersionOf(dir, file).Some?
    ensures VersionOf(dir, file).value != []
  {
    SplitNonEmpty(file[|dir|..], SLASH);
  }

  lemma {:induction false} SplitNonEmpty(t: Text, sep: Byte)
    ensures forall i | 0 <= i < |Split(t, sep)| :: Split(t, sep)[i] != []
    decreases t
  {
    if t == [] {
    } else if t[0] == sep {
      SplitNonEmpty(t[1..], sep);
    } else {
      SplitNonEmpty(t[Piece(t, sep)..], sep);
    }
  }

  // ---------------------------------------------------------------- the object

  class TableMonitor {
    const base: HdfsMonitor
    var delta: HdfsMonitor?
    var partitions: set<nat>
    var version: Text

    ghost function Repr(): set<object>
      reads this
    {
      {this, base} + if delta == null then {} else {delta}
    }

    ghost predicate Valid()
      reads this
    {
      base != delta
    }

    ghost function View(): Watch
      reads this, base, delta
    {
      Watch(partitions, base.started, base.filters, if delta == null then None else Some(delta.filters))
    }

    constructor (dir: Text)
      ensures Valid() && fresh(Repr()) && delta == null && version == []
      ensures Follows(View(), {})
    {
      base := new HdfsMonitor(dir);
      delta := null;
      partitions := {};
      version := [];
    }

    method AddPartition(id: nat, accept: File -> bool)
      requires Valid()
      modifies Repr()
      ensures Valid() && Repr() == old(Repr()) && version == old(version)
      ensures View() == Added(old(View()), id)
    {
      partitions := partitions + {id};
      base.AddFilter([Prefix(id)], accept);
      base.started := true;
      if delta != null {
        delta.AddFilter([Prefix(id)], accept);
      }
    }

    method RemovePartition(id: nat)
      requires Valid()
      modifies Repr()
      ensures Valid() && Repr() == old(Repr()) && version == old(version)
      ensures View() == Removed(old(View()), id)
    {
      partitions := partitions - {id};
      base.DelFilter([Prefix(id)]);
      if delta != null {
        delta.DelFilter([Prefix(id)]);
      }
    }

    /** A load notice goes to every monitored partition exactly once, in the order of the set's walk. */
    method UpdateBase() returns (notified: seq<nat>)
      ensures Enumerates(notified, partitions)
    {
      notified := [];
      var todo := partitions;
      while todo != {}
        invariant todo <= partitions
        invariant Enumerates(notified, partitions - todo)
        decreases todo
      {
        var id :| id in todo;
        notified := notified + [id];
        todo := todo - {id};
      }
    }

    method Prefixes() returns (filters: seq<Text>)
      ensures Exactly(filters, partitions)
    {
      filters := [];
      var todo := partitions;
      while todo != {}
        invariant todo <= partitions
        invariant Exactly(filters, partitions - todo)
        decreases todo
      {
        var id :| id in todo;
        IdOfPrefix(id);
        assert Prefix(id) !in filters;
        WithOne(filters, partitions - todo, id);
        assert partitions - (todo - {id}) == partitions - todo + {id};
        filters := filters + [Prefix(id)];
        todo := todo - {id};
      }
      assert partitions - todo == partitions;
    }

    /** The base version of a finished batch: there is one exactly when all its files have it. */
    static method ParseBaseFiles(dir: Text, files: seq<File>) returns (parsed: Option<Text>)
      ensures forall v :: parsed == Some(v) <==> OneVersion(dir, files, v)
      ensures files == [] ==> parsed == Some([])
    {
      var found: Text := [];
      for n := 0 to |files|
        invariant n == 0 ==> found == []
        invariant n > 0 ==> found != []
        invariant forall i | 0 <= i < n :: VersionOf(dir, files[i]) == Some(found)
      {
        var next := VersionOf(dir, files[n]);
        if next.None? {
          assert forall v :: VersionOf(dir, files[n]) != Some(v);
          return None;
        }
        VersionsAreNonEmpty(dir, files[n]);
        if found != [] && found != next.value {
          assert forall v | OneVersion(dir, files, v) :: VersionOf(dir, files[0]) == VersionOf(dir, files[n]);
          return None;
        }
        found := next.value;
      }
      assert files != [] ==> VersionOf(dir, files[0]) == Some(found);
      return Some(found);
    }

    /** A batch of one base version is passed on to every monitored partition; any other batch is
        dropped. A version that is new also brings a new delta monitor, filtered to the partitions
        led at that moment. */
    method UpdateHdfsBaseData(baseDir: Text, files: seq<File>, deltaDir: Text, accept: File -> bool)
      returns (notified: seq<nat>)
      requires Valid()
      modifies this`version, this`delta
      ensures Valid() && fresh(Repr() - old(Repr()))
      ensures forall led | old(Follows(View(), led)) :: Follows(View(), led)
      ensures forall v | OneVersion(baseDir, files, v) ::
        && version == v && Enumerates(notified, partitions) && (v == old(version) ==> delta == old(delta))
        && (v != old(version) ==>
          && delta != null && fresh(delta) && delta.dir == deltaDir && delta.started
          && Exactly(delta.filters, partitions) && View() == Rebased(old(View()), delta.filters))
      ensures (forall v :: !OneVersion(baseDir, files, v)) ==>
        notified == [] && version == old(version) && delta == old(delta)
    {
      var parsed := ParseBaseFiles(baseDir, files);
      if parsed.None? {
        return [];
      }
      assert OneVersion(baseDir, files, parsed.value);
      notified := UpdateBase();
      if version != parsed.value {
        version := parsed.value;
        var monitor := new HdfsMonitor(deltaDir);
        var filters := Prefixes();
        monitor.SetFilter(filters, accept);
        monitor.started := true;
        delta := monitor;
      }
    }
  }
}
