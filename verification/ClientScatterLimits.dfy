/** Exactly which requests the client scatters correctly (mutilCallDispatchRequest,
    client/laser_client.cc): the dispatch keeps route ids and shard ids in one map, and so it is right
    for every answer of the discovery if and only if the two kinds of ids do not meet. */
module ClientScatterLimits {
  import opened Common
  import opened ClientScatter

  const EDGE := Server("edge", 0)
  const MAIN := Server("main", 1)
  const OTHER := Server("other", 2)

  /** The pieces of one dispatch. */
  ghost function Fallen(routes: seq<Route>, d: Discovery, walk: set<int> -> seq<int>): Routing
    requires Walk(walk)
  {
    var g := CollectAll(routes, |routes|);
    var order := walk(Elements(g.hashes));
    assert Enumerates(order, Elements(g.hashes));
    FallAll(d, g, order, |order|)
  }

  // ---------------------------------------------------------------- positions that stay together

  ghost predicate Together(groups: map<int, seq<nat>>, i: nat, j: nat) {
    forall id | id in groups :: i in groups[id] <==> j in groups[id]
  }

  ghost predicate SameBuckets(buckets: map<int, Bucket>, i: nat, j: nat) {
    forall a | a in buckets :: i in buckets[a].indexes <==> j in buckets[a].indexes
  }

  function RouteId(r: Route): int { if r.edge then r.hash else r.shard }

  lemma {:induction false} Collects(routes: seq<Route>, n: nat, i: nat, id: int)
    requires n <= |routes|
    ensures i in GroupAt(CollectAll(routes, n).groups, id) <==> i < n && RouteId(routes[i]) == id
  {
    if n > 0 {
      Collects(routes, n - 1, i, id);
    }
  }

  lemma {:induction false} FallTogether(d: Discovery, g: Grouping, order: seq<int>, m: nat, i: nat, j: nat)
    requires m <= |order| && (forall h | h in order :: h in g.shardOf) && Together(g.groups, i, j)
    ensures Together(FallAll(d, g, order, m).groups, i, j)
  {
    if m > 0 {
      FallTogether(d, g, order, m - 1, i, j);
    }
  }

  lemma {:induction false} MergeTogether(d: Discovery, f: Routing, order: seq<int>, m: nat, i: nat, j: nat)
    requires m <= |order| && Together(f.groups, i, j)
    ensures SameBuckets(MergeAll(d, f, order, m), i, j)
  {
    if m > 0 {
      MergeTogether(d, f, order, m - 1, i, j);
    }
  }

  /** Positions with one route id end in one bucket or in none. */
  lemma OneIdOneBucket(routes: seq<Route>, d: Discovery, walk: set<int> -> seq<int>, i: nat, j: nat)
    requires Walk(walk) && i < |routes| && j < |routes| && RouteId(routes[i]) == RouteId(routes[j])
    ensures SameBuckets(Dispatch(routes, d, walk), i, j)
  {
    var g := CollectAll(routes, |routes|);
    forall id | id in g.groups
      ensures i in g.groups[id] <==> j in g.groups[id]
    {
      Collects(routes, |routes|, i, id);
      Collects(routes, |routes|, j, id);
    }
    var order := walk(Elements(g.hashes));
    assert Enumerates(order, Elements(g.hashes));
    FallTogether(d, g, order, |order|, i, j);
    var f := Fallen(routes, d, walk);
    var ids := walk(ServerIds(d, f.shards, g.hashes));
    MergeTogether(d, f, ids, |ids|, i, j);
  }

  /** A bucket that holds positions of two servers is wrong. */
  lemma TwoServersInOneBucket(d: Discovery, routes: seq<Route>, buckets: map<int, Bucket>, a: int, i: nat, j: nat)
    requires i < |routes| && j < |routes| && ServerOf(d, routes[i]) != ServerOf(d, routes[j])
    requires a in buckets && i in buckets[a].indexes && j in buckets[a].indexes
    ensures !Scattered(d, routes, buckets)
  {
    if Scattered(d, routes, buckets) {
      PositionsAreConserved(d, routes, buckets, i);
      PositionsAreConserved(d, routes, buckets, j);
    }
  }

  lemma SplitFails(routes: seq<Route>, d: Discovery, walk: set<int> -> seq<int>, i: nat, j: nat)
    requires Walk(walk) && i < |routes| && j < |routes| && RouteId(routes[i]) == RouteId(routes[j])
    requires ServerOf(d, routes[i]).Some? && ServerOf(d, routes[i]) != ServerOf(d, routes[j])
    ensures !Scattered(d, routes, Dispatch(routes, d, walk))
  {
    var buckets := Dispatch(routes, d, walk);
    OneIdOneBucket(routes, d, walk, i, j);
    if Scattered(d, routes, buckets) {
      PositionsAreConserved(d, routes, buckets, i);
    }
  }

  // ---------------------------------------------------------------- a fallback that meets another hash

  lemma {:induction false} MergeHolds(d: Discovery, f: Routing, order: seq<int>, m: nat, id: int, k: nat)
    requires m <= |order| && id in order[..m] && k in GroupAt(f.groups, id) && ServerFor(d, f.shards, id).Some?
    ensures var a := d.address(ServerFor(d, f.shards, id).value);
      a in MergeAll(d, f, order, m) && k in MergeAll(d, f, order, m)[a].indexes
    decreases m
  {
    if id != order[m - 1] {
      assert order[..m] == order[..m - 1] + [order[m - 1]];
      MergeHolds(d, f, order, m - 1, id, k);
    }
  }

  /** The node of h is found, that of h' is not, and the shard of h' looks like h: the two positions
      meet in the group of h. */
  lemma {:induction false} FallMeets(d: Discovery, g: Grouping, order: seq<int>, m: nat, h: int, h': int, i: nat,
                                     j: nat)
    requires m <= |order| && (forall x | x in order :: x in g.shardOf)
    requires d.edge(h).Some? && d.edge(h').None? && h' in g.shardOf && g.shardOf[h'] == h
    requires i in GroupAt(g.groups, h) && j in GroupAt(g.groups, h')
    ensures var f := FallAll(d, g, order, m);
      i in GroupAt(f.groups, h) && j in GroupAt(f.groups, if h' in order[..m] then h else h')
    decreases m
  {
    if m > 0 {
      var x := order[m - 1];
      assert x in order;
      assert order[..m] == order[..m - 1] + [x];
      FallMeets(d, g, order, m - 1, h, h', i, j);
    }
  }

  lemma LoopFails(routes: seq<Route>, d: Discovery, walk: set<int> -> seq<int>, i: nat, j: nat)
    requires Walk(walk) && Regular(routes) && i < |routes| && j < |routes|
    requires routes[i].edge && routes[j].edge && routes[j].shard == routes[i].hash != routes[j].hash
    requires d.edge(routes[i].hash).Some? && d.edge(routes[j].hash).None? && d.main(routes[i].hash).Some?
    requires ServerOf(d, routes[i]) != ServerOf(d, routes[j])
    ensures !Scattered(d, routes, Dispatch(routes, d, walk))
  {
    var h, h' := routes[i].hash, routes[j].hash;
    var g := CollectAll(routes, |routes|);
    AllCollected(d, routes, |routes|);
    assert h in g.shardOf && h' in g.shardOf && g.shardOf[h'] == h;
    assert h in g.hashes && h' in g.hashes;
    Collects(routes, |routes|, i, h);
    Collects(routes, |routes|, j, h');
    var order := walk(Elements(g.hashes));
    assert Enumerates(order, Elements(g.hashes));
    assert h' in order && order[..|order|] == order;
    FallMeets(d, g, order, |order|, h, h', i, j);
    var f := Fallen(routes, d, walk);
    var ids := walk(ServerIds(d, f.shards, g.hashes));
    assert Enumerates(ids, ServerIds(d, f.shards, g.hashes));
    assert h in ids && ids[..|ids|] == ids;
    MergeHolds(d, f, ids, |ids|, h, i);
    MergeHolds(d, f, ids, |ids|, h, j);
    TwoServersInOneBucket(d, routes, Dispatch(routes, d, walk), d.address(ServerFor(d, f.shards, h).value), i, j);
  }

  // ---------------------------------------------------------------- a hash that is its own shard

  ghost predicate OnlyAt(groups: map<int, seq<nat>>, j: nat, h: int) {
    forall id | id in groups :: j in groups[id] ==> id == h
  }

  ghost predicate Nowhere(groups: map<int, seq<nat>>, j: nat) {
    forall id | id in groups :: j !in groups[id]
  }

  lemma {:induction false} FallLoses(d: Discovery, g: Grouping, order: seq<int>, m: nat, h: int, j: nat)
    requires m <= |order| && (forall x | x in order :: x in g.shardOf)
    requires d.edge(h).None? && h in g.shardOf && g.shardOf[h] == h && OnlyAt(g.groups, j, h)
    ensures var f := FallAll(d, g, order, m);
      OnlyAt(f.groups, j, h) && (h in order[..m] ==> Nowhere(f.groups, j))
    decreases m
  {
    if m > 0 {
      var x := order[m - 1];
      assert x in order;
      assert order[..m] == order[..m - 1] + [x];
      FallLoses(d, g, order, m - 1, h, j);
      LookUpLoses(d, x, g.shardOf[x], FallAll(d, g, order, m - 1), h, j);
    }
  }

  lemma LookUpLoses(d: Discovery, x: int, shard: int, f: Routing, h: int, j: nat)
    requires d.edge(h).None? && (x == h ==> shard == h) && OnlyAt(f.groups, j, h)
    ensures var f' := LookedUp(d, x, shard, f);
      OnlyAt(f'.groups, j, h) && (x == h || Nowhere(f.groups, j) ==> Nowhere(f'.groups, j))
  {
    var f' := LookedUp(d, x, shard, f);
    if d.edge(x).None? {
      assert shard in f'.groups ==> f'.groups[shard] == GroupAt(f.groups, shard) + GroupAt(f.groups, x);
      assert forall id | id in f'.groups && id != shard :: f'.groups[id] == f.groups[id];
    }
  }

  lemma {:induction false} MergeHasOnly(d: Discovery, f: Routing, order: seq<int>, m: nat, k: nat)
    requires m <= |order| && Nowhere(f.groups, k)
    ensures forall a | a in MergeAll(d, f, order, m) :: k !in MergeAll(d, f, order, m)[a].indexes
  {
    if m > 0 {
      MergeHasOnly(d, f, order, m - 1, k);
    }
  }

  /** A position whose hash is its own shard is merged with itself, erased, and asked of nobody. */
  lemma CollidingHashLosesPosition(routes: seq<Route>, d: Discovery, walk: set<int> -> seq<int>, j: nat)
    requires Walk(walk) && Regular(routes) && j < |routes|
    requires routes[j].edge && routes[j].hash == routes[j].shard && d.edge(routes[j].hash).None?
    ensures forall a | a in Dispatch(routes, d, walk) :: j !in Dispatch(routes, d, walk)[a].indexes
  {
    var h := routes[j].hash;
    var g := CollectAll(routes, |routes|);
    AllCollected(d, routes, |routes|);
    assert h in g.shardOf && g.shardOf[h] == h && h in g.hashes;
    forall id | id in g.groups
      ensures j in g.groups[id] ==> id == h
    {
      Collects(routes, |routes|, j, id);
    }
    var order := walk(Elements(g.hashes));
    assert Enumerates(order, Elements(g.hashes));
    assert h in order && order[..|order|] == order;
    FallLoses(d, g, order, |order|, h, j);
    var f := Fallen(routes, d, walk);
    var ids := walk(ServerIds(d, f.shards, g.hashes));
    MergeHasOnly(d, f, ids, |ids|, j);
  }

  // ---------------------------------------------------------------- the exact condition

  function PortOf(s: Server): int { s.port }

  /** Every edge node is found, and a shard is somewhere else. */
  const FOUND := Discovery(_ => Some(EDGE), _ => Some(MAIN), PortOf)

  /** No edge node is found, and one shard is in a different place from the others. */
  function Missing(shard: int): Discovery {
    Discovery(_ => None, x => if x == shard then Some(OTHER) else Some(MAIN), PortOf)
  }

  /** Only one edge node is found. */
  function OnlyFound(h: int): Discovery {
    Discovery(x => if x == h then Some(EDGE) else None, _ => Some(MAIN), PortOf)
  }

  /** Routes whose ids collide are scattered wrongly for some answer of the discovery, in whatever
      order the maps are walked. */
  lemma InconsistentFails(routes: seq<Route>) returns (d: Discovery)
    requires !Consistent(routes)
    ensures DistinctAnswers(d, routes)
    ensures forall walk | Walk(walk) :: !Scattered(d, routes, Dispatch(routes, d, walk))
  {
    if !Separate(routes) {
      var i, j :| 0 <= i < |routes| && 0 <= j < |routes| && routes[i].edge && !routes[j].edge &&
        routes[i].hash == routes[j].shard;
      d := FOUND;
      forall walk | Walk(walk)
        ensures !Scattered(d, routes, Dispatch(routes, d, walk))
      {
        SplitFails(routes, d, walk, i, j);
      }
    } else if !OneShard(routes) {
      var i, j :| 0 <= i < |routes| && 0 <= j < |routes| &&
        routes[i].edge && routes[j].edge && routes[i].hash == routes[j].hash && routes[i].shard != routes[j].shard;
      d := Missing(routes[i].shard);
      forall walk | Walk(walk)
        ensures !Scattered(d, routes, Dispatch(routes, d, walk))
      {
        SplitFails(routes, d, walk, i, j);
      }
    } else {
      d := RegularFails(routes);
    }
  }

  lemma RegularFails(routes: seq<Route>) returns (d: Discovery)
    requires Regular(routes) && !Consistent(routes)
    ensures DistinctAnswers(d, routes)
    ensures forall walk | Walk(walk) :: !Scattered(d, routes, Dispatch(routes, d, walk))
  {
    var i, j :| 0 <= i < |routes| && 0 <= j < |routes| && routes[i].edge && routes[i].hash == routes[j].shard;
    var h := routes[i].hash;
    if routes[j].hash == h {
      d := Missing(h);
      forall walk | Walk(walk)
        ensures !Scattered(d, routes, Dispatch(routes, d, walk))
      {
        CollidingHashLosesPosition(routes, d, walk, j);
        LostFails(d, routes, Dispatch(routes, d, walk), j);
      }
    } else {
      d := OnlyFound(h);
      forall walk | Walk(walk)
        ensures !Scattered(d, routes, Dispatch(routes, d, walk))
      {
        LoopFails(routes, d, walk, i, j);
      }
    }
  }

  lemma LostFails(d: Discovery, routes: seq<Route>, buckets: map<int, Bucket>, j: nat)
    requires j < |routes| && ServerOf(d, routes[j]).Some? && forall a | a in buckets :: j !in buckets[a].indexes
    ensures !Scattered(d, routes, buckets)
  {
    if Scattered(d, routes, buckets) {
      PositionsAreConserved(d, routes, buckets, j);
    }
  }

  /** Some order to walk a set in. */
  ghost function Listed(s: set<int>): (q: seq<int>)
    ensures Enumerates(q, s)
  {
    if x :| x in s then Listed(s - {x}) + [x] else []
  }

  lemma WalkExists() returns (walk: set<int> -> seq<int>)
    ensures Walk(walk)
  {
    walk := Listed;
  }

  lemma InconsistentSomewhere(routes: seq<Route>) returns (d: Discovery, walk: set<int> -> seq<int>)
    requires !Consistent(routes)
    ensures Walk(walk) && DistinctAnswers(d, routes) && !Scattered(d, routes, Dispatch(routes, d, walk))
  {
    walk := WalkExists();
    d := InconsistentFails(routes);
  }

  /** The dispatch is right for every answer of the discovery, with different servers at different
      addresses, and for every order the maps are walked in, if and only if the hashes of edge routes
      are no shard ids and each belongs to one shard. */
  lemma DispatchIsExact(routes: seq<Route>)
    ensures Consistent(routes) <==>
      forall d, walk | Walk(walk) && DistinctAnswers(d, routes) :: Scattered(d, routes, Dispatch(routes, d, walk))
  {
    if Consistent(routes) {
      forall d, walk | Walk(walk) && DistinctAnswers(d, routes)
        ensures Scattered(d, routes, Dispatch(routes, d, walk))
      {
        ConsistentIsScattered(routes, d, walk);
      }
    } else {
      var d, walk := InconsistentSomewhere(routes);
    }
  }

  /** And for consistent routes it is right if and only if the discovered servers have different
      address hashes. */
  lemma AddressesDecide(routes: seq<Route>, d: Discovery, walk: set<int> -> seq<int>)
    requires Walk(walk) && Consistent(routes)
    ensures Scattered(d, routes, Dispatch(routes, d, walk)) <==> DistinctAnswers(d, routes)
  {
    var buckets := Dispatch(routes, d, walk);
    if DistinctAnswers(d, routes) {
      ConsistentIsScattered(routes, d, walk);
    }
    if Scattered(d, routes, buckets) {
      forall i, j | 0 <= i < |routes| && 0 <= j < |routes|
        ensures var s, t := ServerOf(d, routes[i]), ServerOf(d, routes[j]);
          s.Some? && t.Some? && d.address(s.value) == d.address(t.value) ==> s == t
      {
        var s, t := ServerOf(d, routes[i]), ServerOf(d, routes[j]);
        assert s.Some? ==> HasBucket(d, buckets, s.value);
        assert t.Some? ==> HasBucket(d, buckets, t.value);
      }
    }
  }
}
