/** Mounting and unmounting partitions (server/database_manager.cc). Every change of role has to reach
    the monitor of the table, or the node would download files for partitions it does not lead. */
module DatabaseManagers {
  import opened Bytes
  import opened Common
  import opened HdfsSync
  import opened TableMonitors

  type Table = Text
  datatype Role = Leader | Follower
  datatype Partition = Partition(table: Table, id: nat)
  datatype Mounted = Mounted(role: Role, dc: Text)
  datatype Mount = Mount(partition: Partition, info: Mounted)

  /** A handler per mounted partition and a monitor per table ever seen. */
  datatype Node = Node(handlers: map<Partition, Mounted>, monitors: map<Table, Watch>)

  /** The partitions of a table that this node leads. */
  function Led(handlers: map<Partition, Mounted>, table: Table): set<nat> {
    set p | p in handlers && p.table == table && handlers[p].role == Leader :: p.id
  }

  /** Every monitor watches exactly the led partitions of its table, and every table with a mounted
      partition has one. */
  ghost predicate AllFollow(n: Node) {
    && (forall t | t in n.monitors :: Follows(n.monitors[t], Led(n.handlers, t)))
    && (forall p | p in n.handlers :: p.table in n.monitors)
  }

  // ---------------------------------------------------------------- one partition

  const NEW_WATCH := Watch({}, false, [ALL], None)

  function WatchOf(n: Node, table: Table): Watch {
    if table in n.monitors then n.monitors[table] else NEW_WATCH
  }

  function MountOne(n: Node, p: Partition, info: Mounted): Node {
    var w := WatchOf(n, p.table);
    var w' := if info.role == Leader then Added(w, p.id)
              else if p in n.handlers && n.handlers[p].role == Leader then Removed(w, p.id)
              else w;
    Node(n.handlers[p := info], n.monitors[p.table := w'])
  }

  function Drop(handlers: map<Partition, Mounted>, p: Partition): map<Partition, Mounted> {
    map q | q in handlers && q != p :: handlers[q]
  }

  function UnmountOne(n: Node, p: Partition): Node {
    Node(Drop(n.handlers, p), n.monitors[p.table := Removed(WatchOf(n, p.table), p.id)])
  }

  lemma LedIs(handlers: map<Partition, Mounted>, table: Table, id: nat)
    ensures id in Led(handlers, table) <==>
            Partition(table, id) in handlers && handlers[Partition(table, id)].role == Leader
  {
  }

  lemma LedAfterMount(handlers: map<Partition, Mounted>, p: Partition, info: Mounted, table: Table)
    ensures Led(handlers[p := info], table) ==
            if p.table != table then Led(handlers, table)
            else if info.role == Leader then Led(handlers, table) + {p.id}
            else Led(handlers, table) - {p.id}
  {
    forall id: nat
      ensures id in Led(handlers[p := info], table) <==>
              if p == Partition(table, id) then info.role == Leader else id in Led(handlers, table)
    {
      LedIs(handlers, table, id);
      LedIs(handlers[p := info], table, id);
    }
  }

  lemma LedAfterDrop(handlers: map<Partition, Mounted>, p: Partition, table: Table)
    ensures Led(Drop(handlers, p), table) ==
            if p.table != table then Led(handlers, table) else Led(handlers, table) - {p.id}
  {
    forall id: nat
      ensures id in Led(Drop(handlers, p), table) <==> id in Led(handlers, table) && p != Partition(table, id)
    {
      LedIs(handlers, table, id);
      LedIs(Drop(handlers, p), table, id);
    }
  }

  lemma WatchFollows(n: Node, table: Table)
    requires AllFollow(n)
    ensures Follows(WatchOf(n, table), Led(n.handlers, table))
  {
    if table !in n.monitors {
      assert Led(n.handlers, table) == {};
    }
  }

  lemma ReplaceFollows(n: Node, n': Node, table: Table)
    requires AllFollow(n) && table in n'.monitors && n'.monitors == n.monitors[table := n'.monitors[table]]
    requires Follows(n'.monitors[table], Led(n'.handlers, table))
    requires forall t: Table | t != table :: Led(n'.handlers, t) == Led(n.handlers, t)
    requires forall p | p in n'.handlers :: p in n.handlers || p.table == table
    ensures AllFollow(n')
  {
    forall t | t in n'.monitors
      ensures Follows(n'.monitors[t], Led(n'.handlers, t))
    {
      if t != table {
        assert t in n.monitors && n'.monitors[t] == n.monitors[t];
      }
    }
  }

  lemma MountFollows(n: Node, p: Partition, info: Mounted)
    requires AllFollow(n)
    ensures AllFollow(MountOne(n, p, info))
  {
    var led, w := Led(n.handlers, p.table), WatchOf(n, p.table);
    WatchFollows(n, p.table);
    LedAfterMount(n.handlers, p, info, p.table);
    if info.role == Leader {
      AddedFollows(w, led, p.id);
    } else if p in n.handlers && n.handlers[p].role == Leader {
      RemovedFollows(w, led, p.id);
    } else {
      LedIs(n.handlers, p.table, p.id);
      assert led - {p.id} == led;
    }
    forall t: Table | t != p.table {
      LedAfterMount(n.handlers, p, info, t);
    }
    ReplaceFollows(n, MountOne(n, p, info), p.table);
  }

  lemma UnmountFollows(n: Node, p: Partition)
    requires AllFollow(n)
    ensures AllFollow(UnmountOne(n, p))
  {
    WatchFollows(n, p.table);
    RemovedFollows(WatchOf(n, p.table), Led(n.handlers, p.table), p.id);
    LedAfterDrop(n.handlers, p, p.table);
    forall t: Table | t != p.table {
      LedAfterDrop(n.handlers, p, t);
    }
    ReplaceFollows(n, UnmountOne(n, p), p.table);
  }

  // ---------------------------------------------------------------- updates

  /** An update of the mounted partitions, or a new base version of a table, whose delta monitor then
      starts out with the filters the table monitor walked its partitions for
      (`TableMonitor.UpdateHdfsBaseData` does exactly this). */
  datatype Event =
    | Update(mounts: seq<Mount>, unmounts: seq<Partition>)
    | NewBase(table: Table, filters: seq<Text>)

  ghost predicate Enabled(n: Node, e: Event) {
    e.NewBase? ==> e.table in n.monitors && Exactly(e.filters, n.monitors[e.table].partitions)
  }

  function MountAll(n: Node, mounts: seq<Mount>): Node
    decreases mounts
  {
    if mounts == [] then n
    else
      var last := mounts[|mounts| - 1];
      MountOne(MountAll(n, mounts[..|mounts| - 1]), last.partition, last.info)
  }

  function UnmountAll(n: Node, unmounts: seq<Partition>): Node
    decreases unmounts
  {
    if unmounts == [] then n
    else UnmountOne(UnmountAll(n, unmounts[..|unmounts| - 1]), unmounts[|unmounts| - 1])
  }

  function Apply(n: Node, e: Event): Node {
    match e
    case Update(mounts, unmounts) => UnmountAll(MountAll(n, mounts), unmounts)
    case NewBase(table, filters) =>
      n.(monitors := n.monitors[table := Rebased(WatchOf(n, table), filters)])
  }

  ghost predicate ValidRun(n: Node, es: seq<Event>)
    decreases es
  {
    es == [] || (Enabled(n, es[0]) && ValidRun(Apply(n, es[0]), es[1..]))
  }

  function Run(n: Node, es: seq<Event>): Node
    decreases es
  {
    if es == [] then n else Run(Apply(n, es[0]), es[1..])
  }

  lemma {:induction false} MountAllFollows(n: Node, mounts: seq<Mount>)
    requires AllFollow(n)
    ensures AllFollow(MountAll(n, mounts))
    decreases mounts
  {
    if mounts != [] {
      var k := |mounts| - 1;
      MountAllFollows(n, mounts[..k]);
      MountFollows(MountAll(n, mounts[..k]), mounts[k].partition, mounts[k].info);
    }
  }

  lemma {:induction false} UnmountAllFollows(n: Node, unmounts: seq<Partition>)
    requires AllFollow(n)
    ensures AllFollow(UnmountAll(n, unmounts))
    decreases unmounts
  {
    if unmounts != [] {
      var k := |unmounts| - 1;
      UnmountAllFollows(n, unmounts[..k]);
      UnmountFollows(UnmountAll(n, unmounts[..k]), unmounts[k]);
    }
  }

  lemma ApplyFollows(n: Node, e: Event)
    requires AllFollow(n) && Enabled(n, e)
    ensures AllFollow(Apply(n, e))
  {
    match e
    case Update(mounts, unmounts) =>
      MountAllFollows(n, mounts);
      UnmountAllFollows(MountAll(n, mounts), unmounts);
    case NewBase(table, filters) =>
      RebasedFollows(WatchOf(n, table), Led(n.handlers, table), filters);
      ReplaceFollows(n, Apply(n, e), table);
  }

  const EMPTY := Node(map[], map[])

  lemma {:induction false} RunFollows(n: Node, es: seq<Event>)
    requires AllFollow(n) && ValidRun(n, es)
    ensures AllFollow(Run(n, es))
    decreases es
  {
    if es != [] {
      ApplyFollows(n, es[0]);
      RunFollows(Apply(n, es[0]), es[1..]);
    }
  }

  /** After any sequence of mounts, unmounts, changes of role and new base versions: a table's
      monitored set is exactly the partitions the node leads, and once its base monitor is running a
      base or delta file of a partition is taken exactly when the node leads that partition. */
  lemma MonitorsFollowLeadership(es: seq<Event>, table: Table, id: nat, rest: Text)
    requires ValidRun(EMPTY, es) && table in Run(EMPTY, es).monitors
    ensures var n := Run(EMPTY, es);
      var w := n.monitors[table];
      var leads := Partition(table, id) in n.handlers && n.handlers[Partition(table, id)].role == Leader;
      && (id in w.partitions <==> leads)
      && (w.started ==> (Selected(w.base, Prefix(id) + rest) <==> leads))
      && (w.delta.Some? ==> (Selected(w.delta.value, Prefix(id) + rest) <==> leads))
      && (!w.started ==> !leads)
  {
    RunFollows(EMPTY, es);
    var n := Run(EMPTY, es);
    var w, led := n.monitors[table], Led(n.handlers, table);
    LedIs(n.handlers, table, id);
    assert Follows(w, led);
    if w.started {
      FileOfPartition(w.base, led, id, rest);
    }
    if w.delta.Some? {
      FileOfPartition(w.delta.value, led, id, rest);
    }
  }

  ghost predicate DeltaWatched(n: Node, table: Table) {
    table in n.monitors && n.monitors[table].delta.Some?
  }

  lemma {:induction false} MountsKeepDelta(n: Node, mounts: seq<Mount>, table: Table)
    requires DeltaWatched(n, table)
    ensures DeltaWatched(MountAll(n, mounts), table)
    decreases mounts
  {
    if mounts != [] {
      MountsKeepDelta(n, mounts[..|mounts| - 1], table);
    }
  }

  lemma {:induction false} UnmountsKeepDelta(n: Node, unmounts: seq<Partition>, table: Table)
    requires DeltaWatched(n, table)
    ensures DeltaWatched(UnmountAll(n, unmounts), table)
    decreases unmounts
  {
    if unmounts != [] {
      UnmountsKeepDelta(n, unmounts[..|unmounts| - 1], table);
    }
  }

  /** Once a table has had a base version, the deltas of its led partitions are watched from then on,
      whatever is mounted and unmounted. */
  lemma {:induction false} DeltasStayWatched(n: Node, es: seq<Event>, table: Table)
    requires ValidRun(n, es)
    requires DeltaWatched(n, table) || exists i :: 0 <= i < |es| && es[i].NewBase? && es[i].table == table
    ensures DeltaWatched(Run(n, es), table)
    decreases es
  {
    if es != [] {
      var n' := Apply(n, es[0]);
      if DeltaWatched(n, table) && es[0].Update? {
        MountsKeepDelta(n, es[0].mounts, table);
        UnmountsKeepDelta(MountAll(n, es[0].mounts), es[0].unmounts, table);
      }
      if !DeltaWatched(n', table) {
        var i :| 0 <= i < |es| && es[i].NewBase? && es[i].table == table;
        assert es[1..][i - 1] == es[i];
      }
      DeltasStayWatched(n', es[1..], table);
    }
  }

  /** The role last asked for is the role a mounted partition has; an unmounted one is gone. */
  lemma {:induction false} RoleIsLastMounted(n: Node, mounts: seq<Mount>, unmounts: seq<Partition>, k: nat)
    requires k < |mounts| && forall j | k < j < |mounts| :: mounts[j].partition != mounts[k].partition
    ensures var p := mounts[k].partition;
      var n' := Apply(n, Update(mounts, unmounts));
      if p in unmounts then p !in n'.handlers
      else p in n'.handlers && n'.handlers[p] == mounts[k].info
  {
    MountedLast(n, mounts, k);
    UnmountedGone(MountAll(n, mounts), unmounts, mounts[k].partition);
  }

  /** A partition that an update does not mount keeps its role, unless it is unmounted. */
  lemma OthersKeepRole(n: Node, mounts: seq<Mount>, unmounts: seq<Partition>, p: Partition)
    requires forall j | 0 <= j < |mounts| :: mounts[j].partition != p
    ensures var n' := Apply(n, Update(mounts, unmounts));
      (p in n'.handlers <==> p in n.handlers && p !in unmounts) &&
      (p in n'.handlers ==> n'.handlers[p] == n.handlers[p])
  {
    UnmentionedStays(n, mounts, p);
    UnmountedGone(MountAll(n, mounts), unmounts, p);
  }

  lemma {:induction false} UnmentionedStays(n: Node, mounts: seq<Mount>, p: Partition)
    requires forall j | 0 <= j < |mounts| :: mounts[j].partition != p
    ensures var n' := MountAll(n, mounts);
      (p in n'.handlers <==> p in n.handlers) && (p in n.handlers ==> n'.handlers[p] == n.handlers[p])
    decreases mounts
  {
    if mounts != [] {
      UnmentionedStays(n, mounts[..|mounts| - 1], p);
    }
  }

  lemma {:induction false} MountedLast(n: Node, mounts: seq<Mount>, k: nat)
    requires k < |mounts| && forall j | k < j < |mounts| :: mounts[j].partition != mounts[k].partition
    ensures var p := mounts[k].partition;
      p in MountAll(n, mounts).handlers && MountAll(n, mounts).handlers[p] == mounts[k].info
    decreases mounts
  {
    if k < |mounts| - 1 {
      MountedLast(n, mounts[..|mounts| - 1], k);
    }
  }

  lemma {:induction false} UnmountedGone(n: Node, unmounts: seq<Partition>, p: Partition)
    ensures p in UnmountAll(n, unmounts).handlers <==> p in n.handlers && p !in unmounts
    ensures p in UnmountAll(n, unmounts).handlers ==> UnmountAll(n, unmounts).handlers[p] == n.handlers[p]
    decreases unmounts
  {
    if unmounts != [] {
      var k := |unmounts| - 1;
      UnmountedGone(n, unmounts[..k], p);
      assert unmounts == unmounts[..k] + [unmounts[k]];
    }
  }

  // ---------------------------------------------------------------- the object

  lemma SetTwice<K, V>(m: map<K, V>, k: K, v: V, w: V)
    ensures m[k := v][k := w] == m[k := w]
  {
  }

  class DatabaseManager {
    var handlers: map<Partition, Mounted>
    var monitors: map<Table, Watch>

    function View(): Node
      reads this
    {
      Node(handlers, monitors)
    }

    constructor ()
      ensures View() == Node(map[], map[])
    {
      handlers := map[];
      monitors := map[];
    }

    method GetOrCreateTableMonitor(table: Table) returns (monitor: Watch)
      modifies this`monitors
      ensures monitor == WatchOf(old(View()), table)
      ensures monitors == old(monitors)[table := monitor]
    {
      if table !in monitors {
        monitors := monitors[table := NEW_WATCH];
      }
      monitor := monitors[table];
    }

    method GetOrCreatePartitionHandler(p: Partition, info: Mounted) returns (handler: Mounted)
      modifies this`handlers
      ensures handler == if p in old(handlers) then old(handlers)[p] else info
      ensures handlers == old(handlers)[p := handler]
    {
      if p !in handlers {
        handlers := handlers[p := info];
      }
      handler := handlers[p];
    }

    method MountPartition(p: Partition, info: Mounted)
      modifies this
      ensures View() == MountOne(old(View()), p, info)
      ensures handlers == old(handlers)[p := info]
    {
      var handler := GetOrCreatePartitionHandler(p, info);
      var monitor := GetOrCreateTableMonitor(p.table);
      if handler.role != info.role {
        if info.role == Leader {
          monitor := Added(monitor, p.id);
        } else {
          monitor := Removed(monitor, p.id);
        }
        SetPartition(p, info);
      } else if info.role == Leader {
        monitor := Added(monitor, p.id);
      }
      monitors := monitors[p.table := monitor];
      if handlers[p].dc != info.dc {
        SetPartition(p, info);
      }
      SetTwice(old(handlers), p, handler, info);
      SetTwice(old(monitors), p.table, WatchOf(old(View()), p.table), monitor);
    }

    method SetPartition(p: Partition, info: Mounted)
      requires p in handlers
      modifies this`handlers
      ensures handlers == old(handlers)[p := info]
    {
      handlers := handlers[p := info];
    }

    method UnmountPartition(p: Partition)
      modifies this
      ensures View() == UnmountOne(old(View()), p)
      ensures p !in handlers && handlers.Keys == old(handlers).Keys - {p}
      ensures forall q | q in handlers :: handlers[q] == old(handlers)[q]
    {
      var monitor := GetOrCreateTableMonitor(p.table);
      monitors := monitors[p.table := Removed(monitor, p.id)];
      handlers := Drop(handlers, p);
    }

    method UpdatePartitions(mounts: seq<Mount>, unmounts: seq<Partition>)
      modifies this
      ensures View() == Apply(old(View()), Update(mounts, unmounts))
    {
      ghost var n := View();
      for i := 0 to |mounts|
        invariant View() == MountAll(n, mounts[..i])
      {
        assert mounts[..i + 1][..i] == mounts[..i];
        MountPartition(mounts[i].partition, mounts[i].info);
      }
      assert mounts[..|mounts|] == mounts;
      ghost var m := View();
      for i := 0 to |unmounts|
        invariant View() == UnmountAll(m, unmounts[..i])
      {
        assert unmounts[..i + 1][..i] == unmounts[..i];
        UnmountPartition(unmounts[i]);
      }
      assert unmounts[..|unmounts|] == unmounts;
    }
  }
}
