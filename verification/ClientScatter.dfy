/** How the client spreads the positions of a multi-key request over servers
    (mutilCallDispatchRequest, client/laser_client.cc).

    Positions are grouped by route, groups whose edge node is not found fall back to the main
    cluster, and the groups are then merged by server address. Hash maps are iterated in any order. */
module ClientScatter {
  import opened Common

  datatype Server = Server(host: string, port: nat)

  /** getRouteInfo: the shard of a key, the hash of its partition, and whether an edge node was drawn. */
  datatype Route = Route(shard: int, hash: int, edge: bool)

  /** What service discovery answers in the two batch calls, and the hash of a server address. */
  datatype Discovery = Discovery(edge: int -> Option<Server>, main: int -> Option<Server>, address: Server -> int)

  datatype Bucket = Bucket(server: Server, indexes: seq<nat>)

  /** No partition hash of an edge route is the shard of a route that stays in the main cluster. */
  ghost predicate Separate(routes: seq<Route>) {
    forall i, j | 0 <= i < |routes| && 0 <= j < |routes| ::
      routes[i].edge && !routes[j].edge ==> routes[i].hash != routes[j].shard
  }

  /** One partition hash means one shard. */
  ghost predicate OneShard(routes: seq<Route>) {
    forall i, j | 0 <= i < |routes| && 0 <= j < |routes| ::
      routes[i].edge && routes[j].edge && routes[i].hash == routes[j].hash ==> routes[i].shard == routes[j].shard
  }

  ghost predicate Regular(routes: seq<Route>) {
    Separate(routes) && OneShard(routes)
  }

  /** Partition hashes never look like shard ids, and a partition lives in one shard. */
  ghost predicate Consistent(routes: seq<Route>) {
    && Regular(routes)
    && forall i, j | 0 <= i < |routes| && 0 <= j < |routes| :: routes[i].edge ==> routes[i].hash != routes[j].shard
  }

  /** The server a route ends at. */
  function ServerOf(d: Discovery, r: Route): Option<Server> {
    if r.edge && d.edge(r.hash).Some? then d.edge(r.hash) else d.main(r.shard)
  }

  /** The servers discovered for this request have different address hashes. */
  ghost predicate DistinctAnswers(d: Discovery, routes: seq<Route>) {
    forall i, j | 0 <= i < |routes| && 0 <= j < |routes| ::
      var s, t := ServerOf(d, routes[i]), ServerOf(d, routes[j]);
      s.Some? && t.Some? && d.address(s.value) == d.address(t.value) ==> s == t
  }

  // ---------------------------------------------------------------- lists of positions

  function Elements(q: seq<int>): set<int> { set x | x in q }

  predicate Distinct(q: seq<nat>) {
    forall a, b | 0 <= a < b < |q| :: q[a] != q[b]
  }

  /** Positions with the same route keep their order. */
  predicate InOrder(q: seq<nat>, routes: seq<Route>) {
    forall a, b | 0 <= a < b < |q| && q[a] < |routes| && q[b] < |routes| && routes[q[a]] == routes[q[b]] :: q[a] < q[b]
  }

  ghost predicate ListOf(q: seq<nat>, s: set<nat>, routes: seq<Route>) {
    Distinct(q) && InOrder(q, routes) && (forall i :: i in q <==> i in s) && (forall i | i in s :: i < |routes|)
  }

  lemma ListOfNothing(routes: seq<Route>)
    ensures ListOf([], {}, routes)
  {
  }

  /** Two lists that share no route can be put behind each other. */
  lemma ListConcat(p: seq<nat>, s: set<nat>, q: seq<nat>, t: set<nat>, routes: seq<Route>)
    requires ListOf(p, s, routes) && ListOf(q, t, routes)
    requires forall i, j | i in s && j in t :: routes[i] != routes[j]
    ensures ListOf(p + q, s + t, routes)
  {
    var r := p + q;
    forall a, b | 0 <= a < b < |r|
      ensures r[a] != r[b]
      ensures r[a] < |routes| && r[b] < |routes| && routes[r[a]] == routes[r[b]] ==> r[a] < r[b]
    {
      if a < |p| <= b {
        assert r[a] in s && r[b] in t;
      } else if b < |p| {
        assert r[a] == p[a] && r[b] == p[b];
      } else {
        assert r[a] == q[a - |p|] && r[b] == q[b - |p|];
      }
    }
    forall i
      ensures i in r <==> i in s + t
    {
      assert i in r <==> i in p || i in q;
    }
  }

  // ---------------------------------------------------------------- grouping by route

  /** Whether a route still goes to its edge node when the nodes in `asked` have been looked up. */
  predicate AtEdge(d: Discovery, asked: set<int>, r: Route) {
    r.edge && (r.hash in asked ==> d.edge(r.hash).Some?)
  }

  function GroupId(d: Discovery, asked: set<int>, r: Route): int {
    if AtEdge(d, asked, r) then r.hash else r.shard
  }

  /** The positions below n whose route is in one group. */
  function Group(d: Discovery, asked: set<int>, routes: seq<Route>, n: nat, id: int): set<nat> {
    set i: nat | i < n && i < |routes| && GroupId(d, asked, routes[i]) == id
  }

  ghost predicate Grouped(d: Discovery, asked: set<int>, routes: seq<Route>, n: nat, groups: map<int, seq<nat>>) {
    && (forall i | 0 <= i < |routes| && i < n :: GroupId(d, asked, routes[i]) in groups)
    && (forall id | id in groups :: groups[id] != [] && ListOf(groups[id], Group(d, asked, routes, n, id), routes))
  }

  /** The shard ids to be looked up in the main cluster. */
  ghost predicate ShardsOf(d: Discovery, asked: set<int>, routes: seq<Route>, n: nat, shards: seq<int>) {
    forall id :: id in shards <==>
      exists i :: 0 <= i < |routes| && i < n && !AtEdge(d, asked, routes[i]) && routes[i].shard == id
  }

  /** The partition hashes to be looked up among the edge nodes, each with its shard. */
  ghost predicate HashesOf(routes: seq<Route>, n: nat, hashes: seq<int>, shardOf: map<int, int>) {
    && (forall h :: h in hashes <==> h in shardOf)
    && (forall h :: h in shardOf <==> exists i :: 0 <= i < |routes| && i < n && routes[i].edge && routes[i].hash == h)
    && (forall i | 0 <= i < |routes| && routes[i].edge && routes[i].hash in shardOf ::
      shardOf[routes[i].hash] == routes[i].shard)
  }

  lemma UnknownGroupIsEmpty(d: Discovery, routes: seq<Route>, n: nat, groups: map<int, seq<nat>>, id: int)
    requires Grouped(d, {}, routes, n, groups) && id !in groups
    ensures ListOf([], Group(d, {}, routes, n, id), routes)
  {
    assert Group(d, {}, routes, n, id) == {};
    ListOfNothing(routes);
  }

  lemma GroupStep(d: Discovery, routes: seq<Route>, n: nat, id: int)
    requires n < |routes|
    ensures Group(d, {}, routes, n + 1, id) ==
      if GroupId(d, {}, routes[n]) == id then Group(d, {}, routes, n, id) + {n} else Group(d, {}, routes, n, id)
  {
  }

  lemma GroupGrows(d: Discovery, routes: seq<Route>, n: nat, groups: map<int, seq<nat>>)
    requires Grouped(d, {}, routes, n, groups) && n < |routes|
    ensures var id := GroupId(d, {}, routes[n]);
      Grouped(d, {}, routes, n + 1, groups[id := (if id in groups then groups[id] else []) + [n]])
  {
    var id := GroupId(d, {}, routes[n]);
    var before := if id in groups then groups[id] else [];
    var groups' := groups[id := before + [n]];
    forall other | other in groups'
      ensures groups'[other] != [] && ListOf(groups'[other], Group(d, {}, routes, n + 1, other), routes)
    {
      GroupStep(d, routes, n, other);
      if other == id {
        if id !in groups {
          UnknownGroupIsEmpty(d, routes, n, groups, id);
        }
        ListExtends(before, Group(d, {}, routes, n, id), n, routes);
      } else {
        assert groups'[other] == groups[other];
      }
    }
  }

  lemma ListExtends(q: seq<nat>, s: set<nat>, n: nat, routes: seq<Route>)
    requires ListOf(q, s, routes) && n < |routes| && forall i | i in s :: i < n
    ensures ListOf(q + [n], s + {n}, routes)
  {
    var r := q + [n];
    forall a, b | 0 <= a < b < |r|
      ensures r[a] < r[b] || (b < |q| && r[a] == q[a] && r[b] == q[b])
    {
      if b == |q| {
        assert q[a] in s;
      }
    }
    forall i
      ensures i in r <==> i in s + {n}
    {
      assert i in r <==> i in q || i == n;
    }
  }

  lemma SameKind(d: Discovery, routes: seq<Route>, n: nat, groups: map<int, seq<nat>>, shards: seq<int>,
                 hashes: seq<int>, shardOf: map<int, int>)
    requires Regular(routes) && n < |routes| && Grouped(d, {}, routes, n, groups)
    requires ShardsOf(d, {}, routes, n, shards) && HashesOf(routes, n, hashes, shardOf)
    ensures routes[n].edge ==> (routes[n].hash in groups <==> routes[n].hash in shardOf)
    ensures !routes[n].edge ==> (routes[n].shard in groups <==> routes[n].shard in shards)
  {
    var id := GroupId(d, {}, routes[n]);
    if id in groups {
      var i := groups[id][0];
      assert i in groups[id];
      assert i in Group(d, {}, routes, n, id);
    }
  }

  lemma ShardsGrow(d: Discovery, routes: seq<Route>, n: nat, shards: seq<int>, shards': seq<int>)
    requires n < |routes| && ShardsOf(d, {}, routes, n, shards)
    requires shards' == if !routes[n].edge && routes[n].shard !in shards then shards + [routes[n].shard] else shards
    ensures ShardsOf(d, {}, routes, n + 1, shards')
  {
    forall id
      ensures id in shards' <==>
        exists i :: 0 <= i < |routes| && i < n + 1 && !AtEdge(d, {}, routes[i]) && routes[i].shard == id
    {
      if id in shards {
        var i :| 0 <= i < |routes| && i < n && !AtEdge(d, {}, routes[i]) && routes[i].shard == id;
        assert i < n + 1;
      }
      if id in shards' && id !in shards {
        assert !AtEdge(d, {}, routes[n]) && routes[n].shard == id;
      }
    }
  }

  lemma HashesGrow(routes: seq<Route>, n: nat, hashes: seq<int>, shardOf: map<int, int>, hashes': seq<int>,
                   shardOf': map<int, int>)
    requires Regular(routes) && n < |routes| && HashesOf(routes, n, hashes, shardOf)
    requires var r := routes[n];
      if r.edge && r.hash !in shardOf
      then hashes' == hashes + [r.hash] && shardOf' == shardOf[r.hash := r.shard]
      else hashes' == hashes && shardOf' == shardOf
    ensures HashesOf(routes, n + 1, hashes', shardOf')
  {
    forall h
      ensures h in shardOf' <==> exists i :: 0 <= i < |routes| && i < n + 1 && routes[i].edge && routes[i].hash == h
    {
      if h in shardOf {
        var i :| 0 <= i < |routes| && i < n && routes[i].edge && routes[i].hash == h;
        assert i < n + 1;
      }
      if h in shardOf' && h !in shardOf {
        assert routes[n].edge && routes[n].hash == h;
      }
    }
  }

  /** What one pass over the routes has collected. */
  datatype Grouping = Grouping(shards: seq<int>, hashes: seq<int>, groups: map<int, seq<nat>>, shardOf: map<int, int>)

  ghost predicate Collected(d: Discovery, routes: seq<Route>, n: nat, g: Grouping) {
    && Grouped(d, {}, routes, n, g.groups)
    && ShardsOf(d, {}, routes, n, g.shards)
    && HashesOf(routes, n, g.hashes, g.shardOf)
  }

  method Collect(g: Grouping, r: Route, i: nat) returns (g': Grouping)
    ensures g' == Collecting(g, r, i)
  {
    var shards, hashes, groups, shardOf := g.shards, g.hashes, g.groups, g.shardOf;
    var id := if r.edge then r.hash else r.shard;
    if id !in groups {
      groups := groups[id := []];
      if r.edge {
        hashes := hashes + [id];
        shardOf := shardOf[r.hash := r.shard];
      } else {
        shards := shards + [id];
      }
    }
    groups := groups[id := groups[id] + [i]];
    g' := Grouping(shards, hashes, groups, shardOf);
  }

  function Collecting(g: Grouping, r: Route, i: nat): Grouping {
    var id := if r.edge then r.hash else r.shard;
    var known := id in g.groups;
    Grouping(
      if known || r.edge then g.shards else g.shards + [id],
      if known || !r.edge then g.hashes else g.hashes + [id],
      g.groups[id := (if known then g.groups[id] else []) + [i]],
      if known || !r.edge then g.shardOf else g.shardOf[r.hash := r.shard])
  }

  lemma CollectingKeeps(d: Discovery, routes: seq<Route>, n: nat, g: Grouping)
    requires Regular(routes) && n < |routes| && Collected(d, routes, n, g)
    ensures Collected(d, routes, n + 1, Collecting(g, routes[n], n))
  {
    var g' := Collecting(g, routes[n], n);
    SameKind(d, routes, n, g.groups, g.shards, g.hashes, g.shardOf);
    GroupGrows(d, routes, n, g.groups);
    ShardsGrow(d, routes, n, g.shards, g'.shards);
    HashesGrow(routes, n, g.hashes, g.shardOf, g'.hashes, g'.shardOf);
  }

  function CollectAll(routes: seq<Route>, n: nat): (g: Grouping)
    requires n <= |routes|
    ensures forall h | h in g.hashes :: h in g.shardOf
  {
    if n == 0 then Grouping([], [], map[], map[]) else Collecting(CollectAll(routes, n - 1), routes[n - 1], n - 1)
  }

  lemma NothingCollected(d: Discovery, routes: seq<Route>, g: Grouping)
    requires g == Grouping([], [], map[], map[])
    ensures Collected(d, routes, 0, g)
  {
  }

  lemma OneMoreCollected(d: Discovery, routes: seq<Route>, n: nat, g: Grouping, g': Grouping)
    requires Regular(routes) && n < |routes| && Collected(d, routes, n, g) && g' == Collecting(g, routes[n], n)
    ensures Collected(d, routes, n + 1, g')
  {
    CollectingKeeps(d, routes, n, g);
  }

  lemma {:induction false} AllCollected(d: Discovery, routes: seq<Route>, n: nat)
    requires Regular(routes) && n <= |routes|
    ensures Collected(d, routes, n, CollectAll(routes, n))
  {
    if n == 0 {
      NothingCollected(d, routes, CollectAll(routes, 0));
    } else {
      AllCollected(d, routes, n - 1);
      OneMoreCollected(d, routes, n - 1, CollectAll(routes, n - 1), CollectAll(routes, n));
    }
  }

  /** The first loop: positions by route id, and the ids to be looked up. */
  method GroupRoutes(routes: seq<Route>) returns (g: Grouping)
    ensures g == CollectAll(routes, |routes|)
  {
    g := Grouping([], [], map[], map[]);
    for i := 0 to |routes|
      invariant g == CollectAll(routes, i)
    {
      g := Collect(g, routes[i], i);
    }
  }

  // ---------------------------------------------------------------- falling back to the main cluster

  /** An edge node that was found leaves every group as it is. */
  lemma FoundNodeKeepsGroups(d: Discovery, asked: set<int>, routes: seq<Route>, groups: map<int, seq<nat>>,
                             shards: seq<int>, h: int)
    requires Grouped(d, asked, routes, |routes|, groups) && ShardsOf(d, asked, routes, |routes|, shards)
    requires d.edge(h).Some?
    ensures Grouped(d, asked + {h}, routes, |routes|, groups) && ShardsOf(d, asked + {h}, routes, |routes|, shards)
  {
    forall r: Route
      ensures AtEdge(d, asked + {h}, r) == AtEdge(d, asked, r)
    {
    }
    forall id
      ensures Group(d, asked + {h}, routes, |routes|, id) == Group(d, asked, routes, |routes|, id)
    {
    }
  }

  function GroupAt(groups: map<int, seq<nat>>, id: int): seq<nat> {
    if id in groups then groups[id] else []
  }

  /** The groups after the edge node of h was not found: its positions join those of its shard. */
  function Merge(groups: map<int, seq<nat>>, h: int, shard: int): map<int, seq<nat>> {
    groups[shard := GroupAt(groups, shard) + GroupAt(groups, h)] - {h}
  }

  lemma MovedGroup(d: Discovery, asked: set<int>, routes: seq<Route>, h: int, shard: int)
    requires Consistent(routes) && h !in asked && d.edge(h).None?
    requires exists i :: 0 <= i < |routes| && routes[i].edge && routes[i].hash == h && routes[i].shard == shard
    ensures h != shard
    ensures Group(d, asked + {h}, routes, |routes|, h) == {}
    ensures Group(d, asked + {h}, routes, |routes|, shard) ==
      Group(d, asked, routes, |routes|, shard) + Group(d, asked, routes, |routes|, h)
    ensures forall id | id != h && id != shard ::
      Group(d, asked + {h}, routes, |routes|, id) == Group(d, asked, routes, |routes|, id)
  {
    var k :| 0 <= k < |routes| && routes[k].edge && routes[k].hash == h && routes[k].shard == shard;
    assert h != routes[k].shard;
    forall i | 0 <= i < |routes|
      ensures GroupId(d, asked + {h}, routes[i]) ==
        if GroupId(d, asked, routes[i]) == h then shard else GroupId(d, asked, routes[i])
    {
      GroupIdMoves(d, asked, routes, h, shard, i);
    }
  }

  lemma MissingNodeMergesGroups(d: Discovery, asked: set<int>, routes: seq<Route>, groups: map<int, seq<nat>>, h: int,
                                shard: int)
    requires Consistent(routes) && h !in asked && d.edge(h).None?
    requires exists i :: 0 <= i < |routes| && routes[i].edge && routes[i].hash == h && routes[i].shard == shard
    requires Grouped(d, asked, routes, |routes|, groups)
    ensures h in groups && Grouped(d, asked + {h}, routes, |routes|, Merge(groups, h, shard))
  {
    var n := |routes|;
    var k :| 0 <= k < n && routes[k].edge && routes[k].hash == h && routes[k].shard == shard;
    assert GroupId(d, asked, routes[k]) == h;
    var groups' := Merge(groups, h, shard);
    MovedGroup(d, asked, routes, h, shard);
    forall id | id in groups'
      ensures groups'[id] != [] && ListOf(groups'[id], Group(d, asked + {h}, routes, n, id), routes)
    {
      if id == shard {
        MergedGroup(d, asked, routes, groups, h, shard);
      } else {
        assert groups'[id] == groups[id];
      }
    }
    forall i | 0 <= i < n
      ensures GroupId(d, asked + {h}, routes[i]) in groups'
    {
      GroupIdMoves(d, asked, routes, h, shard, i);
    }
  }

  lemma GroupIdMoves(d: Discovery, asked: set<int>, routes: seq<Route>, h: int, shard: int, i: nat)
    requires Consistent(routes) && h !in asked && d.edge(h).None? && i < |routes|
    requires exists k :: 0 <= k < |routes| && routes[k].edge && routes[k].hash == h && routes[k].shard == shard
    ensures GroupId(d, asked + {h}, routes[i]) ==
      if GroupId(d, asked, routes[i]) == h then shard else GroupId(d, asked, routes[i])
  {
    var k :| 0 <= k < |routes| && routes[k].edge && routes[k].hash == h && routes[k].shard == shard;
    assert routes[k].edge ==> routes[k].hash != routes[i].shard;
  }

  lemma MergedGroup(d: Discovery, asked: set<int>, routes: seq<Route>, groups: map<int, seq<nat>>, h: int, shard: int)
    requires Consistent(routes) && h !in asked && d.edge(h).None?
    requires exists i :: 0 <= i < |routes| && routes[i].edge && routes[i].hash == h && routes[i].shard == shard
    requires Grouped(d, asked, routes, |routes|, groups) && h in groups
    ensures ListOf(Merge(groups, h, shard)[shard], Group(d, asked + {h}, routes, |routes|, shard), routes)
  {
    var n := |routes|;
    MovedGroup(d, asked, routes, h, shard);
    var mine := if shard in groups then groups[shard] else [];
    var s, t := Group(d, asked, routes, n, shard), Group(d, asked, routes, n, h);
    if shard !in groups {
      assert s == {};
      ListOfNothing(routes);
    }
    ListConcat(mine, s, groups[h], t, routes);
    assert Merge(groups, h, shard)[shard] == mine + groups[h];
  }

  lemma MissingNodeAddsShard(d: Discovery, asked: set<int>, routes: seq<Route>, shards: seq<int>, shards': seq<int>,
                             h: int, shard: int)
    requires Consistent(routes) && h !in asked && d.edge(h).None?
    requires exists i :: 0 <= i < |routes| && routes[i].edge && routes[i].hash == h && routes[i].shard == shard
    requires ShardsOf(d, asked, routes, |routes|, shards)
    requires forall x :: x in shards' <==> x in shards || x == shard
    ensures ShardsOf(d, asked + {h}, routes, |routes|, shards')
  {
    var n := |routes|;
    var k :| 0 <= k < n && routes[k].edge && routes[k].hash == h && routes[k].shard == shard;
    forall id
      ensures id in shards' <==>
        exists i :: 0 <= i < |routes| && i < n && !AtEdge(d, asked + {h}, routes[i]) && routes[i].shard == id
    {
      if id in shards {
        var i :| 0 <= i < |routes| && i < n && !AtEdge(d, asked, routes[i]) && routes[i].shard == id;
        assert !AtEdge(d, asked + {h}, routes[i]);
      }
      assert !AtEdge(d, asked + {h}, routes[k]);
      if i :| 0 <= i < |routes| && i < n && !AtEdge(d, asked + {h}, routes[i]) && routes[i].shard == id {
        if AtEdge(d, asked, routes[i]) {
          assert routes[i].hash == h && routes[i].shard == shard;
        }
      }
    }
  }

  // A shard id has a group exactly when it is among the ids to be looked up.
  lemma ShardIsListed(d: Discovery, asked: set<int>, routes: seq<Route>, groups: map<int, seq<nat>>, shards: seq<int>,
                      k: nat)
    requires Consistent(routes) && k < |routes| && routes[k].edge
    requires Grouped(d, asked, routes, |routes|, groups) && ShardsOf(d, asked, routes, |routes|, shards)
    ensures routes[k].shard in groups <==> routes[k].shard in shards
  {
    var id := routes[k].shard;
    if id in groups {
      var i := groups[id][0];
      assert i in groups[id];
      assert i in Group(d, asked, routes, |routes|, id);
      assert routes[i].edge ==> routes[i].hash != routes[k].shard;
    }
    if id in shards {
      var i :| 0 <= i < |routes| && !AtEdge(d, asked, routes[i]) && routes[i].shard == id;
      assert GroupId(d, asked, routes[i]) in groups;
    }
  }

  ghost predicate Settled(d: Discovery, asked: set<int>, routes: seq<Route>, groups: map<int, seq<nat>>,
                          shards: seq<int>) {
    Grouped(d, asked, routes, |routes|, groups) && ShardsOf(d, asked, routes, |routes|, shards)
  }

  /** What is known before the main cluster is asked. */
  datatype Routing = Routing(shards: seq<int>, groups: map<int, seq<nat>>)

  /** One edge node: nothing to do if it was found, else its positions go to its shard. */
  function LookedUp(d: Discovery, h: int, shard: int, f: Routing): Routing {
    if d.edge(h).Some? then f
    else Routing(if shard in f.groups then f.shards else f.shards + [shard], Merge(f.groups, h, shard))
  }

  function FallAll(d: Discovery, g: Grouping, order: seq<int>, m: nat): Routing
    requires m <= |order| && forall h | h in order :: h in g.shardOf
  {
    if m == 0 then Routing(g.shards, g.groups)
    else
      assert order[m - 1] in order;
      LookedUp(d, order[m - 1], g.shardOf[order[m - 1]], FallAll(d, g, order, m - 1))
  }

  lemma LookUpOne(d: Discovery, asked: set<int>, routes: seq<Route>, f: Routing, h: int, shard: int)
    requires Consistent(routes) && h !in asked && Settled(d, asked, routes, f.groups, f.shards)
    requires exists i :: 0 <= i < |routes| && routes[i].edge && routes[i].hash == h && routes[i].shard == shard
    ensures var f' := LookedUp(d, h, shard, f);
      Settled(d, asked + {h}, routes, f'.groups, f'.shards)
  {
    if d.edge(h).None? {
      var k :| 0 <= k < |routes| && routes[k].edge && routes[k].hash == h && routes[k].shard == shard;
      var f' := LookedUp(d, h, shard, f);
      ShardIsListed(d, asked, routes, f.groups, f.shards, k);
      MissingNodeMergesGroups(d, asked, routes, f.groups, h, shard);
      MissingNodeAddsShard(d, asked, routes, f.shards, f'.shards, h, shard);
    } else {
      FoundNodeKeepsGroups(d, asked, routes, f.groups, f.shards, h);
    }
  }

  lemma HashIsRecorded(routes: seq<Route>, g: Grouping, h: int)
    requires HashesOf(routes, |routes|, g.hashes, g.shardOf) && h in g.hashes
    ensures h in g.shardOf
    ensures exists i :: 0 <= i < |routes| && routes[i].edge && routes[i].hash == h && routes[i].shard == g.shardOf[h]
  {
    var k :| 0 <= k < |routes| && routes[k].edge && routes[k].hash == h;
    assert routes[k].shard == g.shardOf[h];
  }

  lemma {:induction false} AllSettled(d: Discovery, routes: seq<Route>, g: Grouping, order: seq<int>, m: nat)
    requires Consistent(routes) && Collected(d, routes, |routes|, g) && m <= |order|
    requires Enumerates(order, Elements(g.hashes))
    ensures forall h | h in order :: h in g.shardOf
    ensures var f := FallAll(d, g, order, m);
      Settled(d, Elements(order[..m]), routes, f.groups, f.shards)
  {
    if m == 0 {
      assert Elements(order[..0]) == {};
    } else {
      var h := order[m - 1];
      assert h in order;
      AllSettled(d, routes, g, order, m - 1);
      HashIsRecorded(routes, g, h);
      LookUpOne(d, Elements(order[..m - 1]), routes, FallAll(d, g, order, m - 1), h, g.shardOf[h]);
      assert order[..m] == order[..m - 1] + [h];
      assert Elements(order[..m]) == Elements(order[..m - 1]) + {h};
    }
  }

  method LookUp(d: Discovery, h: int, shard: int, f: Routing) returns (f': Routing)
    ensures f' == LookedUp(d, h, shard, f)
  {
    var shards, groups := f.shards, f.groups;
    if d.edge(h).None? {
      if shard !in groups {
        groups := groups[shard := []];
        shards := shards + [shard];
      }
      groups := groups[shard := groups[shard] + GroupAt(groups, h)];
      groups := groups - {h};
    }
    f' := Routing(shards, groups);
  }

  /** The loop over the edge nodes that were looked up, in some order. It would stall on a hash
      without a recorded shard; there is none, whatever the routes are. */
  method FallBack(d: Discovery, order: seq<int>, g: Grouping) returns (f: Routing)
    requires forall h | h in order :: h in g.shardOf
    ensures f == FallAll(d, g, order, |order|)
  {
    f := Routing(g.shards, g.groups);
    for m := 0 to |order|
      invariant f == FallAll(d, g, order, m)
    {
      assert order[m] in order;
      f := LookUp(d, order[m], g.shardOf[order[m]], f);
    }
  }

  // ---------------------------------------------------------------- merging by server

  /** The positions of the groups in `done` that end at one server. */
  function Served(d: Discovery, asked: set<int>, routes: seq<Route>, done: set<int>, server: Server): set<nat> {
    set i: nat | i < |routes| && GroupId(d, asked, routes[i]) in done && ServerOf(d, routes[i]) == Some(server)
  }

  predicate HasBucket(d: Discovery, buckets: map<int, Bucket>, server: Server) {
    d.address(server) in buckets && buckets[d.address(server)].server == server
  }

  ghost predicate Merged(d: Discovery, asked: set<int>, routes: seq<Route>, done: set<int>, buckets: map<int, Bucket>) {
    && (forall a | a in buckets ::
      d.address(buckets[a].server) == a && buckets[a].indexes != [] &&
      ListOf(buckets[a].indexes, Served(d, asked, routes, done, buckets[a].server), routes))
    && (forall i | 0 <= i < |routes| && GroupId(d, asked, routes[i]) in done && ServerOf(d, routes[i]).Some? ::
      HasBucket(d, buckets, ServerOf(d, routes[i]).value))
  }

  /** The server of a group, as the two batch answers put together say. */
  function ServerFor(d: Discovery, shards: seq<int>, id: int): Option<Server> {
    if id in shards then d.main(id) else d.edge(id)
  }

  lemma GroupHasOneServer(d: Discovery, asked: set<int>, routes: seq<Route>, groups: map<int, seq<nat>>,
                          shards: seq<int>, i: nat)
    requires Consistent(routes) && Settled(d, asked, routes, groups, shards) && i < |routes|
    requires forall j | 0 <= j < |routes| && routes[j].edge :: routes[j].hash in asked
    ensures ServerFor(d, shards, GroupId(d, asked, routes[i])) == ServerOf(d, routes[i])
  {
    var id := GroupId(d, asked, routes[i]);
    if AtEdge(d, asked, routes[i]) {
      forall j | 0 <= j < |routes| && !AtEdge(d, asked, routes[j])
        ensures routes[j].shard != id
      {
        assert routes[i].hash != routes[j].shard;
      }
    } else {
      assert id in shards;
    }
  }

  lemma UnservedGroup(d: Discovery, asked: set<int>, routes: seq<Route>, groups: map<int, seq<nat>>, shards: seq<int>,
                      done: set<int>, id: int, buckets: map<int, Bucket>)
    requires Consistent(routes) && Settled(d, asked, routes, groups, shards)
    requires forall j | 0 <= j < |routes| && routes[j].edge :: routes[j].hash in asked
    requires Merged(d, asked, routes, done, buckets) && ServerFor(d, shards, id).None?
    ensures Merged(d, asked, routes, done + {id}, buckets)
  {
    forall i | 0 <= i < |routes| && GroupId(d, asked, routes[i]) == id
      ensures ServerOf(d, routes[i]).None?
    {
      GroupHasOneServer(d, asked, routes, groups, shards, i);
    }
    forall a | a in buckets
      ensures Served(d, asked, routes, done + {id}, buckets[a].server) ==
        Served(d, asked, routes, done, buckets[a].server)
    {
    }
  }

  function AddTo(buckets: map<int, Bucket>, a: int, server: Server, indexes: seq<nat>): map<int, Bucket> {
    var b := if a in buckets then buckets[a] else Bucket(server, []);
    buckets[a := b.(indexes := b.indexes + indexes)]
  }

  lemma ServedGrows(d: Discovery, asked: set<int>, routes: seq<Route>, groups: map<int, seq<nat>>, shards: seq<int>,
                    done: set<int>, id: int, server: Server)
    requires Consistent(routes) && Settled(d, asked, routes, groups, shards)
    requires forall j | 0 <= j < |routes| && routes[j].edge :: routes[j].hash in asked
    requires ServerFor(d, shards, id).Some?
    ensures Served(d, asked, routes, done + {id}, server) ==
      if ServerFor(d, shards, id) == Some(server)
      then Served(d, asked, routes, done, server) + Group(d, asked, routes, |routes|, id)
      else Served(d, asked, routes, done, server)
  {
    forall i | 0 <= i < |routes| && GroupId(d, asked, routes[i]) == id
      ensures ServerOf(d, routes[i]) == ServerFor(d, shards, id)
    {
      GroupHasOneServer(d, asked, routes, groups, shards, i);
    }
  }

  /** A bucket that has the address of a group's server is the bucket of that server. */
  lemma SameServer(d: Discovery, asked: set<int>, routes: seq<Route>, groups: map<int, seq<nat>>, shards: seq<int>,
                   done: set<int>, id: int, buckets: map<int, Bucket>)
    requires Consistent(routes) && DistinctAnswers(d, routes) && Settled(d, asked, routes, groups, shards)
    requires forall j | 0 <= j < |routes| && routes[j].edge :: routes[j].hash in asked
    requires Merged(d, asked, routes, done, buckets) && id in groups && ServerFor(d, shards, id).Some?
    ensures var server := ServerFor(d, shards, id).value;
      d.address(server) in buckets ==> buckets[d.address(server)].server == server
  {
    var server := ServerFor(d, shards, id).value;
    var a := d.address(server);
    if a in buckets {
      var i, j := buckets[a].indexes[0], groups[id][0];
      assert i in buckets[a].indexes && i in Served(d, asked, routes, done, buckets[a].server);
      assert j in groups[id] && j in Group(d, asked, routes, |routes|, id);
      GroupHasOneServer(d, asked, routes, groups, shards, j);
      assert ServerOf(d, routes[i]) == Some(buckets[a].server) && ServerOf(d, routes[j]) == Some(server);
    }
  }

  lemma NewList(d: Discovery, asked: set<int>, routes: seq<Route>, groups: map<int, seq<nat>>, shards: seq<int>,
                done: set<int>, id: int, buckets: map<int, Bucket>)
    requires Consistent(routes) && DistinctAnswers(d, routes) && Settled(d, asked, routes, groups, shards)
    requires forall j | 0 <= j < |routes| && routes[j].edge :: routes[j].hash in asked
    requires Merged(d, asked, routes, done, buckets) && id !in done && id in groups && ServerFor(d, shards, id).Some?
    ensures var server := ServerFor(d, shards, id).value;
      var a := d.address(server);
      var b := AddTo(buckets, a, server, groups[id])[a];
      b.server == server && ListOf(b.indexes, Served(d, asked, routes, done + {id}, server), routes)
  {
    var server := ServerFor(d, shards, id).value;
    var a := d.address(server);
    var old' := if a in buckets then buckets[a].indexes else [];
    var s, t := Served(d, asked, routes, done, server), Group(d, asked, routes, |routes|, id);
    SameServer(d, asked, routes, groups, shards, done, id, buckets);
    ServedGrows(d, asked, routes, groups, shards, done, id, server);
    if a !in buckets {
      assert s == {};
      ListOfNothing(routes);
    }
    assert ListOf(old', s, routes);
    ListConcat(old', s, groups[id], t, routes);
  }

  lemma ServedGroup(d: Discovery, asked: set<int>, routes: seq<Route>, groups: map<int, seq<nat>>, shards: seq<int>,
                    done: set<int>, id: int, buckets: map<int, Bucket>)
    requires Consistent(routes) && DistinctAnswers(d, routes) && Settled(d, asked, routes, groups, shards)
    requires forall j | 0 <= j < |routes| && routes[j].edge :: routes[j].hash in asked
    requires Merged(d, asked, routes, done, buckets) && id !in done && id in groups && ServerFor(d, shards, id).Some?
    ensures var server := ServerFor(d, shards, id).value;
      Merged(d, asked, routes, done + {id}, AddTo(buckets, d.address(server), server, groups[id]))
  {
    var server := ServerFor(d, shards, id).value;
    var buckets' := AddTo(buckets, d.address(server), server, groups[id]);
    NewList(d, asked, routes, groups, shards, done, id, buckets);
    forall a | a in buckets'
      ensures d.address(buckets'[a].server) == a && buckets'[a].indexes != []
      ensures ListOf(buckets'[a].indexes, Served(d, asked, routes, done + {id}, buckets'[a].server), routes)
    {
      if a != d.address(server) {
        ServedGrows(d, asked, routes, groups, shards, done, id, buckets[a].server);
      }
    }
    forall i | 0 <= i < |routes| && GroupId(d, asked, routes[i]) in done + {id} && ServerOf(d, routes[i]).Some?
      ensures HasBucket(d, buckets', ServerOf(d, routes[i]).value)
    {
      if GroupId(d, asked, routes[i]) == id {
        GroupHasOneServer(d, asked, routes, groups, shards, i);
      } else {
        assert HasBucket(d, buckets, ServerOf(d, routes[i]).value);
      }
    }
  }

  /** The ids for which one of the two batch answers is used. */
  function ServerIds(d: Discovery, shards: seq<int>, hashes: seq<int>): set<int> {
    Elements(shards) + (set h | h in hashes && d.edge(h).Some?)
  }

  lemma IdHasGroup(d: Discovery, routes: seq<Route>, g: Grouping, groups: map<int, seq<nat>>, shards: seq<int>, id: int)
    requires Collected(d, routes, |routes|, g)
    requires Settled(d, Elements(g.hashes), routes, groups, shards) && id in ServerIds(d, shards, g.hashes)
    ensures id in groups
  {
    var asked := Elements(g.hashes);
    if id in shards {
      var i :| 0 <= i < |routes| && !AtEdge(d, asked, routes[i]) && routes[i].shard == id;
      assert GroupId(d, asked, routes[i]) == id;
    } else {
      var i :| 0 <= i < |routes| && routes[i].edge && routes[i].hash == id;
      assert GroupId(d, asked, routes[i]) == id;
    }
  }

  lemma AllAsked(d: Discovery, routes: seq<Route>, g: Grouping)
    requires Collected(d, routes, |routes|, g)
    ensures forall j | 0 <= j < |routes| && routes[j].edge :: routes[j].hash in g.hashes
  {
    forall j | 0 <= j < |routes| && routes[j].edge
      ensures routes[j].hash in g.hashes
    {
      assert routes[j].hash in g.shardOf;
    }
  }

  function MergeOne(d: Discovery, f: Routing, id: int, buckets: map<int, Bucket>): map<int, Bucket> {
    match ServerFor(d, f.shards, id)
    case None => buckets
    case Some(server) => AddTo(buckets, d.address(server), server, GroupAt(f.groups, id))
  }

  function MergeAll(d: Discovery, f: Routing, order: seq<int>, m: nat): map<int, Bucket>
    requires m <= |order|
  {
    if m == 0 then map[] else MergeOne(d, f, order[m - 1], MergeAll(d, f, order, m - 1))
  }

  lemma MergeOneKeeps(d: Discovery, routes: seq<Route>, g: Grouping, f: Routing,
                      done: set<int>, id: int, buckets: map<int, Bucket>)
    requires Consistent(routes) && DistinctAnswers(d, routes) && Collected(d, routes, |routes|, g)
    requires Settled(d, Elements(g.hashes), routes, f.groups, f.shards)
    requires id in ServerIds(d, f.shards, g.hashes) && id !in done
    requires Merged(d, Elements(g.hashes), routes, done, buckets)
    ensures Merged(d, Elements(g.hashes), routes, done + {id}, MergeOne(d, f, id, buckets))
  {
    var asked := Elements(g.hashes);
    AllAsked(d, routes, g);
    IdHasGroup(d, routes, g, f.groups, f.shards, id);
    if ServerFor(d, f.shards, id).Some? {
      ServedGroup(d, asked, routes, f.groups, f.shards, done, id, buckets);
    } else {
      UnservedGroup(d, asked, routes, f.groups, f.shards, done, id, buckets);
    }
  }

  lemma {:induction false} AllMerged(d: Discovery, routes: seq<Route>, g: Grouping, f: Routing, order: seq<int>, m: nat)
    requires Consistent(routes) && DistinctAnswers(d, routes) && Collected(d, routes, |routes|, g)
    requires Settled(d, Elements(g.hashes), routes, f.groups, f.shards)
    requires Enumerates(order, ServerIds(d, f.shards, g.hashes)) && m <= |order|
    ensures Merged(d, Elements(g.hashes), routes, Elements(order[..m]), MergeAll(d, f, order, m))
  {
    if m > 0 {
      var id := order[m - 1];
      assert id in order;
      AllMerged(d, routes, g, f, order, m - 1);
      MergeOneKeeps(d, routes, g, f, Elements(order[..m - 1]), id, MergeAll(d, f, order, m - 1));
      assert order[..m] == order[..m - 1] + [id];
      assert Elements(order[..m]) == Elements(order[..m - 1]) + {id};
    }
  }

  method MergeGroup(d: Discovery, f: Routing, id: int, buckets0: map<int, Bucket>) returns (buckets: map<int, Bucket>)
    ensures buckets == MergeOne(d, f, id, buckets0)
  {
    buckets := buckets0;
    var server := ServerFor(d, f.shards, id);
    if server.None? {
      return;
    }
    var a := d.address(server.value);
    var group := GroupAt(f.groups, id);
    var bucket := if a in buckets then buckets[a] else Bucket(server.value, []);
    ghost var start := bucket;
    for k := 0 to |group|
      invariant bucket == start.(indexes := start.indexes + group[..k])
    {
      assert group[..k + 1] == group[..k] + [group[k]];
      bucket := bucket.(indexes := bucket.indexes + [group[k]]);
    }
    assert group[..|group|] == group;
    buckets := buckets[a := bucket];
  }

  /** The last loop: the groups of all ids that have a server, by server address. */
  method MergeServers(d: Discovery, order: seq<int>, f: Routing) returns (buckets: map<int, Bucket>)
    ensures buckets == MergeAll(d, f, order, |order|)
  {
    buckets := map[];
    for m := 0 to |order|
      invariant buckets == MergeAll(d, f, order, m)
    {
      buckets := MergeGroup(d, f, order[m], buckets);
    }
  }

  // ---------------------------------------------------------------- the dispatch

  function Positions(d: Discovery, routes: seq<Route>, server: Server): set<nat> {
    set i: nat | i < |routes| && ServerOf(d, routes[i]) == Some(server)
  }

  /** Every position whose route ends at a server is in the bucket of that server, exactly once and
      in request order among equal routes; positions without a server are in no bucket. */
  ghost predicate Scattered(d: Discovery, routes: seq<Route>, buckets: map<int, Bucket>) {
    && (forall a | a in buckets ::
      d.address(buckets[a].server) == a && buckets[a].indexes != [] &&
      ListOf(buckets[a].indexes, Positions(d, routes, buckets[a].server), routes))
    && (forall i | 0 <= i < |routes| && ServerOf(d, routes[i]).Some? ::
      HasBucket(d, buckets, ServerOf(d, routes[i]).value))
  }

  lemma IdIsServed(d: Discovery, routes: seq<Route>, g: Grouping, groups: map<int, seq<nat>>, shards: seq<int>, i: nat)
    requires Collected(d, routes, |routes|, g) && i < |routes|
    requires Settled(d, Elements(g.hashes), routes, groups, shards)
    ensures GroupId(d, Elements(g.hashes), routes[i]) in ServerIds(d, shards, g.hashes)
  {
    AllAsked(d, routes, g);
    var asked := Elements(g.hashes);
    if !AtEdge(d, asked, routes[i]) {
      assert routes[i].shard in shards;
    }
  }

  lemma MergedIsScattered(d: Discovery, routes: seq<Route>, g: Grouping, groups: map<int, seq<nat>>, shards: seq<int>,
                          buckets: map<int, Bucket>)
    requires Collected(d, routes, |routes|, g)
    requires Settled(d, Elements(g.hashes), routes, groups, shards)
    requires Merged(d, Elements(g.hashes), routes, ServerIds(d, shards, g.hashes), buckets)
    ensures Scattered(d, routes, buckets)
  {
    var asked := Elements(g.hashes);
    forall i | 0 <= i < |routes|
      ensures GroupId(d, asked, routes[i]) in ServerIds(d, shards, g.hashes)
    {
      IdIsServed(d, routes, g, groups, shards, i);
    }
    forall a | a in buckets
      ensures Served(d, asked, routes, ServerIds(d, shards, g.hashes), buckets[a].server) ==
        Positions(d, routes, buckets[a].server)
    {
    }
  }

  /** An order in which hash maps are walked. */
  ghost predicate Walk(walk: set<int> -> seq<int>) {
    forall ids :: Enumerates(walk(ids), ids)
  }

  ghost function Dispatch(routes: seq<Route>, d: Discovery, walk: set<int> -> seq<int>): map<int, Bucket>
    requires Walk(walk)
  {
    var g := CollectAll(routes, |routes|);
    assert Enumerates(walk(Elements(g.hashes)), Elements(g.hashes));
    var f := FallAll(d, g, walk(Elements(g.hashes)), |walk(Elements(g.hashes))|);
    var order := walk(ServerIds(d, f.shards, g.hashes));
    MergeAll(d, f, order, |order|)
  }

  lemma ConsistentIsScattered(routes: seq<Route>, d: Discovery, walk: set<int> -> seq<int>)
    requires Walk(walk) && Consistent(routes) && DistinctAnswers(d, routes)
    ensures Scattered(d, routes, Dispatch(routes, d, walk))
  {
    var g := CollectAll(routes, |routes|);
    var asked := Elements(g.hashes);
    var order := walk(asked);
    assert Enumerates(order, asked);
    AllCollected(d, routes, |routes|);
    AllSettled(d, routes, g, order, |order|);
    assert order[..|order|] == order && Elements(order) == asked;
    var f := FallAll(d, g, order, |order|);
    var ids := walk(ServerIds(d, f.shards, g.hashes));
    assert Enumerates(ids, ServerIds(d, f.shards, g.hashes));
    AllMerged(d, routes, g, f, ids, |ids|);
    assert ids[..|ids|] == ids && Elements(ids) == ServerIds(d, f.shards, g.hashes);
    MergedIsScattered(d, routes, g, f.groups, f.shards, MergeAll(d, f, ids, |ids|));
  }

  /** mutilCallDispatchRequest, for any routes and any answers of the discovery. */
  method DispatchRequest(infos: Option<seq<Route>>, d: Discovery, walk: set<int> -> seq<int>)
    returns (buckets: map<int, Bucket>)
    requires Walk(walk)
    ensures infos.None? ==> buckets == map[]
    ensures infos.Some? ==> buckets == Dispatch(infos.value, d, walk)
    ensures infos.Some? ==> Fits(buckets, |infos.value|)
    ensures infos.Some? && Consistent(infos.value) && DistinctAnswers(d, infos.value) ==>
      Scattered(d, infos.value, buckets)
  {
    if infos.None? {
      return map[];
    }
    var routes := infos.value;
    var g := GroupRoutes(routes);
    assert Enumerates(walk(Elements(g.hashes)), Elements(g.hashes));
    var f := FallBack(d, walk(Elements(g.hashes)), g);
    buckets := MergeServers(d, walk(ServerIds(d, f.shards, g.hashes)), f);
    DispatchFits(routes, d, walk);
    if Consistent(routes) && DistinctAnswers(d, routes) {
      ConsistentIsScattered(routes, d, walk);
    }
  }

  // ---------------------------------------------------------------- what scattering means

  /** Positions are conserved: one with a server is in exactly one bucket and there once, one
      without is in none, and no bucket holds anything else. */
  lemma PositionsAreConserved(d: Discovery, routes: seq<Route>, buckets: map<int, Bucket>, i: nat)
    requires Scattered(d, routes, buckets)
    ensures forall a | a in buckets :: i in buckets[a].indexes <==>
      i < |routes| && ServerOf(d, routes[i]) == Some(buckets[a].server)
    ensures (exists a :: a in buckets && i in buckets[a].indexes) <==> i < |routes| && ServerOf(d, routes[i]).Some?
    ensures forall a, b | a in buckets && b in buckets && i in buckets[a].indexes && i in buckets[b].indexes :: a == b
    ensures forall a | a in buckets :: multiset(buckets[a].indexes)[i] <= 1
  {
    forall a | a in buckets
      ensures i in buckets[a].indexes <==> i < |routes| && ServerOf(d, routes[i]) == Some(buckets[a].server)
      ensures multiset(buckets[a].indexes)[i] <= 1
    {
      assert i in buckets[a].indexes <==> i in Positions(d, routes, buckets[a].server);
      DistinctMeansOnce(buckets[a].indexes, i);
    }
    if i < |routes| && ServerOf(d, routes[i]).Some? {
      var a := d.address(ServerOf(d, routes[i]).value);
      assert a in buckets && i in buckets[a].indexes;
    }
  }

  lemma {:induction false} DistinctMeansOnce(q: seq<nat>, i: nat)
    requires Distinct(q)
    ensures multiset(q)[i] <= 1
  {
    if q != [] {
      DistinctMeansOnce(q[1..], i);
      assert q == [q[0]] + q[1..];
      if q[0] == i {
        assert i !in q[1..];
      }
    }
  }

  // ---------------------------------------------------------------- positions stay in range

  ghost predicate GroupsFit(groups: map<int, seq<nat>>, n: nat) {
    forall id, i | id in groups && i in groups[id] :: i < n
  }

  ghost predicate Fits(buckets: map<int, Bucket>, n: nat) {
    forall a, i | a in buckets && i in buckets[a].indexes :: i < n
  }

  lemma {:induction false} CollectFits(routes: seq<Route>, n: nat)
    requires n <= |routes|
    ensures GroupsFit(CollectAll(routes, n).groups, n)
  {
    if n > 0 {
      CollectFits(routes, n - 1);
    }
  }

  lemma {:induction false} FallFits(d: Discovery, g: Grouping, order: seq<int>, m: nat, n: nat)
    requires m <= |order| && (forall h | h in order :: h in g.shardOf) && GroupsFit(g.groups, n)
    ensures GroupsFit(FallAll(d, g, order, m).groups, n)
  {
    if m > 0 {
      FallFits(d, g, order, m - 1, n);
    }
  }

  lemma {:induction false} MergeFits(d: Discovery, f: Routing, order: seq<int>, m: nat, n: nat)
    requires m <= |order| && GroupsFit(f.groups, n)
    ensures Fits(MergeAll(d, f, order, m), n)
  {
    if m > 0 {
      MergeFits(d, f, order, m - 1, n);
    }
  }

  lemma DispatchFits(routes: seq<Route>, d: Discovery, walk: set<int> -> seq<int>)
    requires Walk(walk)
    ensures Fits(Dispatch(routes, d, walk), |routes|)
  {
    var g := CollectAll(routes, |routes|);
    var order := walk(Elements(g.hashes));
    assert Enumerates(order, Elements(g.hashes));
    CollectFits(routes, |routes|);
    FallFits(d, g, order, |order|, |routes|);
    var f := FallAll(d, g, order, |order|);
    var ids := walk(ServerIds(d, f.shards, g.hashes));
    MergeFits(d, f, ids, |ids|, |routes|);
  }

}
