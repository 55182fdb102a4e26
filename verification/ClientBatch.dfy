/** Multi-key requests end to end: the client scatters them over servers, each server over its
    engines, and the answers are written back by position (mget, mgetDetail and mset of
    client/laser_client.cc over those of server/laser_service.cc). */
module ClientBatch {
  import opened Common
  import opened ClientScatter
  import Dispatch = ServerDispatch

  datatype Status =
    | OK | NotFound | KeyExpire | PartFailed | Error | TrafficRestriction | CallError | UnknownError
    | Other(code: int)

  /** What becomes of the package of one server: answered, executed but the answer was lost, or
      turned away as a whole. */
  datatype Fate = Answered | Lost(status: Status) | Rejected(status: Status)

  /** The servers as a request meets them. Engines of different servers are different values of L. */
  datatype Backend<!K, !L> = Backend(
    engineOf: (Server, K) -> Option<L>,
    fate: Server -> Fate,
    callable: Server -> bool)

  /** What a caller is told: nothing found, refused by traffic restriction, or a failed package. */
  datatype Replies<!V> = Replies(absent: V, refused: V, failed: Status -> V)

  ghost predicate EngineWalk<L(!new)>(walk: set<L> -> seq<L>) {
    forall es :: Enumerates(walk(es), es)
  }

  /** Requests the client scatters as it should. */
  ghost predicate Sound(d: Discovery, infos: Option<seq<Route>>) {
    infos.Some? ==> Consistent(infos.value) && DistinctAnswers(d, infos.value)
  }

  /** The buckets of a request; without route information there are none. */
  ghost predicate Packed(d: Discovery, infos: Option<seq<Route>>, buckets: map<int, Bucket>) {
    if infos.Some? then Scattered(d, infos.value, buckets) else buckets == map[]
  }

  lemma BucketIndexes(d: Discovery, infos: Option<seq<Route>>, buckets: map<int, Bucket>, a: int, i: nat)
    requires Packed(d, infos, buckets) && a in buckets
    ensures infos.Some?
    ensures i in buckets[a].indexes <==>
      i < |infos.value| && ServerOf(d, infos.value[i]) == Some(buckets[a].server)
  {
    assert i in buckets[a].indexes <==> i in Positions(d, infos.value, buckets[a].server);
  }

  /** The address a position is sent to. */
  function AddressOf(d: Discovery, r: Route): Option<int> {
    var server := ServerOf(d, r);
    if server.Some? then Some(d.address(server.value)) else None
  }

  lemma ServerOfBucket(d: Discovery, infos: Option<seq<Route>>, buckets: map<int, Bucket>, i: nat)
    requires Packed(d, infos, buckets) && infos.Some? && i < |infos.value| && ServerOf(d, infos.value[i]).Some?
    ensures var a := AddressOf(d, infos.value[i]).value;
      a in buckets && Some(buckets[a].server) == ServerOf(d, infos.value[i])
  {
    assert HasBucket(d, buckets, ServerOf(d, infos.value[i]).value);
  }

  // ---------------------------------------------------------------- reading

  /** The answer one server gives to one key, or what stands for it when the package failed. */
  function Given<K, L, V>(b: Backend<K, L>, get: (L, K) -> V, replies: Replies<V>, server: Server,
                          key: K, denied: bool): V
  {
    match b.fate(server)
    case Answered => Dispatch.Answer(b.engineOf(server, key), key, denied, replies.absent, replies.refused, get)
    case Lost(status) => replies.failed(status)
    case Rejected(status) => replies.failed(status)
  }

  /** The answer at one position, without any scattering. */
  function Expected<K, L, V>(d: Discovery, b: Backend<K, L>, get: (L, K) -> V, replies: Replies<V>,
                             route: Option<Route>, key: K, denied: bool): V
  {
    if route.Some? && ServerOf(d, route.value).Some?
    then Given(b, get, replies, ServerOf(d, route.value).value, key, denied)
    else replies.absent
  }

  /** What a position is told does not depend on the others: the default without a server or an
      engine, the failure of its package, the refusal, or what its engine holds. */
  ghost predicate AnsweredAlone<K, L, V>(d: Discovery, b: Backend<K, L>, get: (L, K) -> V, replies: Replies<V>,
                                         route: Option<Route>, key: K, denied: bool, value: V)
  {
    && (route.None? || ServerOf(d, route.value).None? ==> value == replies.absent)
    && (route.Some? && ServerOf(d, route.value).Some? ==>
      var server := ServerOf(d, route.value).value;
      var engine := b.engineOf(server, key);
      && (b.fate(server).Lost? || b.fate(server).Rejected? ==> value == replies.failed(b.fate(server).status))
      && (b.fate(server).Answered? && engine.None? ==> value == replies.absent)
      && (b.fate(server).Answered? && engine.Some? && denied ==> value == replies.refused)
      && (b.fate(server).Answered? && engine.Some? && !denied ==> value == get(engine.value, key)))
  }

  lemma AllAnsweredAlone<K, L, V>(d: Discovery, b: Backend<K, L>, get: (L, K) -> V, replies: Replies<V>,
                                  infos: Option<seq<Route>>, keys: seq<K>, deny: nat -> bool)
    requires infos.Some? ==> |infos.value| == |keys|
    ensures forall i | 0 <= i < |keys| ::
      AnsweredAlone(d, b, get, replies, RouteAt(infos, i), keys[i], deny(i),
                    AllExpected(d, b, get, replies, infos, keys, deny)[i])
  {
  }

  function RouteAt(infos: Option<seq<Route>>, i: nat): Option<Route>
    requires infos.Some? ==> i < |infos.value|
  {
    if infos.Some? then Some(infos.value[i]) else None
  }

  function AllExpected<K, L, V>(d: Discovery, b: Backend<K, L>, get: (L, K) -> V, replies: Replies<V>,
                                infos: Option<seq<Route>>, keys: seq<K>, deny: nat -> bool): (r: seq<V>)
    requires infos.Some? ==> |infos.value| == |keys|
    ensures |r| == |keys|
  {
    seq(|keys|, i requires 0 <= i < |keys| => Expected(d, b, get, replies, RouteAt(infos, i), keys[i], deny(i)))
  }

  /** Answers of one package written to the positions they belong to; a later one wins. */
  method WriteBack<V>(values0: seq<V>, indexes: seq<nat>, list: seq<V>) returns (values: seq<V>)
    requires |list| == |indexes| && forall j | 0 <= j < |indexes| :: indexes[j] < |values0|
    ensures |values| == |values0|
    ensures forall i | 0 <= i < |values| && i !in indexes :: values[i] == values0[i]
    ensures forall i | i in indexes :: exists j :: 0 <= j < |indexes| && indexes[j] == i && values[i] == list[j]
  {
    values := values0;
    for j := 0 to |indexes|
      invariant |values| == |values0|
      invariant forall i | 0 <= i < |values| && i !in indexes[..j] :: values[i] == values0[i]
      invariant forall i | i in indexes[..j] :: exists k :: 0 <= k < j && indexes[k] == i && values[i] == list[k]
    {
      assert indexes[..j + 1] == indexes[..j] + [indexes[j]];
      values := values[indexes[j] := list[j]];
    }
    assert indexes[..|indexes|] == indexes;
  }

  /** One package: the keys at the positions of a bucket, asked from its server. */
  method AskServer<K, L(==, !new), V>(keys: seq<K>, deny: nat -> bool, bucket: Bucket, b: Backend<K, L>,
                                      get: (L, K) -> V, replies: Replies<V>, walk: set<L> -> seq<L>)
    returns (list: seq<V>)
    requires EngineWalk(walk) && forall j | 0 <= j < |bucket.indexes| :: bucket.indexes[j] < |keys|
    ensures |list| == |bucket.indexes|
    ensures forall j | 0 <= j < |list| ::
      list[j] == Given(b, get, replies, bucket.server, keys[bucket.indexes[j]], deny(bucket.indexes[j]))
  {
    var indexes := bucket.indexes;
    match b.fate(bucket.server)
    case Answered =>
      var package := seq(|indexes|, j requires 0 <= j < |indexes| => keys[indexes[j]]);
      list := Dispatch.MGet(package, k => b.engineOf(bucket.server, k), (j: nat) => j < |indexes| && deny(indexes[j]),
                            replies.absent, replies.refused, get, walk);
    case Lost(status) =>
      list := seq(|indexes|, _ => replies.failed(status));
    case Rejected(status) =>
      list := seq(|indexes|, _ => replies.failed(status));
  }

  /** Some position is routed to a server that cannot be called. */
  ghost predicate Unreachable<K, L>(d: Discovery, b: Backend<K, L>, infos: Option<seq<Route>>) {
    infos.Some? && exists i | 0 <= i < |infos.value| && ServerOf(d, infos.value[i]).Some? ::
      !b.callable(ServerOf(d, infos.value[i]).value)
  }

  predicate Callable<K, L>(b: Backend<K, L>, buckets: map<int, Bucket>) {
    forall a | a in buckets :: b.callable(buckets[a].server)
  }

  /** The calls are made one after the other and stop at a server that cannot be called. */
  method AllCallable<K, L>(b: Backend<K, L>, buckets: map<int, Bucket>, order: seq<int>) returns (all: bool)
    requires Enumerates(order, buckets.Keys)
    ensures all <==> Callable(b, buckets)
  {
    for m := 0 to |order|
      invariant forall a | a in order[..m] :: a in buckets && b.callable(buckets[a].server)
    {
      assert order[m] in order;
      assert order[..m + 1] == order[..m] + [order[m]];
      if !b.callable(buckets[order[m]].server) {
        return false;
      }
    }
    assert order[..|order|] == order;
    return true;
  }

  /** So they stop exactly when some position needs such a server. */
  lemma CallableIsReachable<K, L>(d: Discovery, b: Backend<K, L>, infos: Option<seq<Route>>, buckets: map<int, Bucket>)
    requires Packed(d, infos, buckets)
    ensures Callable(b, buckets) <==> !Unreachable(d, b, infos)
  {
    forall a | a in buckets
      ensures infos.Some? &&
        exists i :: 0 <= i < |infos.value| && ServerOf(d, infos.value[i]) == Some(buckets[a].server)
    {
      var i := buckets[a].indexes[0];
      BucketIndexes(d, infos, buckets, a, i);
      assert i in buckets[a].indexes;
    }
    if infos.Some? {
      forall i | 0 <= i < |infos.value| && ServerOf(d, infos.value[i]).Some?
        ensures exists a :: a in buckets && Some(buckets[a].server) == ServerOf(d, infos.value[i])
      {
        ServerOfBucket(d, infos, buckets, i);
      }
    }
  }

  /** Position i belongs to a package that has been written back. */
  predicate Done(d: Discovery, infos: Option<seq<Route>>, done: seq<int>, i: nat)
    requires infos.Some? ==> i < |infos.value|
  {
    infos.Some? && AddressOf(d, infos.value[i]).Some? && AddressOf(d, infos.value[i]).value in done
  }

  /** The values when the packages of some addresses have been written back. */
  ghost predicate Gathered<V>(d: Discovery, infos: Option<seq<Route>>, done: seq<int>, expected: seq<V>,
                              absent: V, values: seq<V>)
    requires infos.Some? ==> |infos.value| == |expected|
  {
    && |values| == |expected|
    && forall i | 0 <= i < |values| :: values[i] == if Done(d, infos, done, i) then expected[i] else absent
  }

  lemma GatheredOneMore<V>(d: Discovery, infos: Option<seq<Route>>, buckets: map<int, Bucket>, done: seq<int>, a: int,
                           expected: seq<V>, absent: V, values: seq<V>, values': seq<V>)
    requires Packed(d, infos, buckets) && a in buckets && (infos.Some? ==> |infos.value| == |expected|)
    requires Gathered(d, infos, done, expected, absent, values) && |values'| == |values|
    requires forall i | 0 <= i < |values'| :: values'[i] == if i in buckets[a].indexes then expected[i] else values[i]
    ensures Gathered(d, infos, done + [a], expected, absent, values')
  {
    forall i | 0 <= i < |values'|
      ensures values'[i] == if Done(d, infos, done + [a], i) then expected[i] else absent
    {
      BucketIndexes(d, infos, buckets, a, i);
      if ServerOf(d, infos.value[i]).Some? {
        ServerOfBucket(d, infos, buckets, i);
      }
    }
  }

  lemma ListIsExpected<K, L, V>(d: Discovery, b: Backend<K, L>, get: (L, K) -> V, replies: Replies<V>,
                                infos: Option<seq<Route>>, keys: seq<K>, deny: nat -> bool,
                                buckets: map<int, Bucket>, a: int, i: nat)
    requires Packed(d, infos, buckets) && a in buckets && i in buckets[a].indexes
    requires infos.Some? ==> |infos.value| == |keys|
    ensures i < |keys|
    ensures AllExpected(d, b, get, replies, infos, keys, deny)[i] ==
      Given(b, get, replies, buckets[a].server, keys[i], deny(i))
  {
    BucketIndexes(d, infos, buckets, a, i);
  }

  lemma GatheredAll<K, L, V>(d: Discovery, b: Backend<K, L>, get: (L, K) -> V, replies: Replies<V>,
                             infos: Option<seq<Route>>, keys: seq<K>, deny: nat -> bool,
                             buckets: map<int, Bucket>, done: seq<int>, values: seq<V>)
    requires Packed(d, infos, buckets) && Enumerates(done, buckets.Keys)
    requires infos.Some? ==> |infos.value| == |keys|
    requires Gathered(d, infos, done, AllExpected(d, b, get, replies, infos, keys, deny), replies.absent, values)
    ensures values == AllExpected(d, b, get, replies, infos, keys, deny)
  {
    forall i | 0 <= i < |values|
      ensures values[i] == AllExpected(d, b, get, replies, infos, keys, deny)[i]
    {
      assert AllExpected(d, b, get, replies, infos, keys, deny)[i] ==
        Expected(d, b, get, replies, RouteAt(infos, i), keys[i], deny(i));
      if infos.Some? && ServerOf(d, infos.value[i]).Some? {
        ServerOfBucket(d, infos, buckets, i);
        assert AddressOf(d, infos.value[i]).value in done;
      }
    }
  }

  lemma BucketFits(buckets: map<int, Bucket>, a: int, n: nat)
    requires Fits(buckets, n) && a in buckets
    ensures forall j | 0 <= j < |buckets[a].indexes| :: buckets[a].indexes[j] < n
  {
    forall j | 0 <= j < |buckets[a].indexes|
      ensures buckets[a].indexes[j] < n
    {
      assert buckets[a].indexes[j] in buckets[a].indexes;
    }
  }

  /** mget and mgetDetail. For a request that is scattered as it should be, whatever the split over
      servers and engines and the order the maps are walked in, every position gets the answer it
      would get alone; if a server that is needed cannot be called, every position keeps the default. */
  method MGet<K, L(==, !new), V>(keys: seq<K>, infos: Option<seq<Route>>, d: Discovery, b: Backend<K, L>,
                                 get: (L, K) -> V, replies: Replies<V>, deny: nat -> bool,
                                 walk: set<int> -> seq<int>, walkEngines: set<L> -> seq<L>)
    returns (sent: bool, values: seq<V>)
    requires infos.Some? ==> |infos.value| == |keys|
    requires Walk(walk) && EngineWalk(walkEngines)
    ensures |values| == |keys|
    ensures !sent ==> values == seq(|keys|, _ => replies.absent)
    ensures Sound(d, infos) ==> (sent <==> !Unreachable(d, b, infos))
    ensures Sound(d, infos) && sent ==> values == AllExpected(d, b, get, replies, infos, keys, deny)
    ensures Sound(d, infos) && sent ==> forall i | 0 <= i < |keys| ::
      AnsweredAlone(d, b, get, replies, RouteAt(infos, i), keys[i], deny(i), values[i])
  {
    var buckets := DispatchRequest(infos, d, walk);
    assert Fits(buckets, |keys|) && (Sound(d, infos) ==> Packed(d, infos, buckets));
    values := seq(|keys|, _ => replies.absent);
    var order := walk(buckets.Keys);
    assert Enumerates(order, buckets.Keys);
    sent := AllCallable(b, buckets, order);
    if Sound(d, infos) {
      CallableIsReachable(d, b, infos, buckets);
    }
    if !sent {
      return;
    }
    ghost var expected := AllExpected(d, b, get, replies, infos, keys, deny);
    for m := 0 to |order|
      invariant |values| == |keys|
      invariant Packed(d, infos, buckets) ==> Gathered(d, infos, order[..m], expected, replies.absent, values)
    {
      var a := order[m];
      assert a in order;
      values := GatherServer(keys, infos, d, b, get, replies, deny, buckets, a, walkEngines, order[..m], values);
      assert order[..m + 1] == order[..m] + [a];
    }
    assert order[..|order|] == order;
    if Packed(d, infos, buckets) {
      GatheredAll(d, b, get, replies, infos, keys, deny, buckets, order, values);
      AllAnsweredAlone(d, b, get, replies, infos, keys, deny);
    }
  }

  method GatherServer<K, L(==, !new), V>(
      keys: seq<K>, ghost infos: Option<seq<Route>>, ghost d: Discovery, b: Backend<K, L>, get: (L, K) -> V,
      replies: Replies<V>, deny: nat -> bool, buckets: map<int, Bucket>, a: int,
      walkEngines: set<L> -> seq<L>, ghost done: seq<int>, values0: seq<V>)
    returns (values: seq<V>)
    requires (infos.Some? ==> |infos.value| == |keys|) && EngineWalk(walkEngines)
    requires a in buckets && Fits(buckets, |keys|) && |values0| == |keys|
    ensures |values| == |keys|
    ensures var expected := AllExpected(d, b, get, replies, infos, keys, deny);
      Packed(d, infos, buckets) && Gathered(d, infos, done, expected, replies.absent, values0) ==>
      Gathered(d, infos, done + [a], expected, replies.absent, values)
  {
    ghost var expected := AllExpected(d, b, get, replies, infos, keys, deny);
    BucketFits(buckets, a, |keys|);
    var list := AskServer(keys, deny, buckets[a], b, get, replies, walkEngines);
    values := WriteBack(values0, buckets[a].indexes, list);
    if Packed(d, infos, buckets) && Gathered(d, infos, done, expected, replies.absent, values0) {
      forall i | 0 <= i < |values| && i in buckets[a].indexes
        ensures values[i] == expected[i]
      {
        ListIsExpected(d, b, get, replies, infos, keys, deny, buckets, a, i);
      }
      GatheredOneMore(d, infos, buckets, done, a, expected, replies.absent, values0, values);
    }
  }

  // ---------------------------------------------------------------- overall status

  datatype Entry<+V> = Entry(status: Status, value: Option<V>)

  predicate Failed<V>(e: Entry<V>) {
    e.status != OK && e.status != NotFound && e.status != KeyExpire
  }

  /** mgetDetail's overall status depends on nothing but the outcome of each key: OK when none
      failed, an error when all did, partly failed in between. */
  method OverallStatus<V>(entries: seq<Entry<V>>) returns (status: Status)
    ensures status == OK <==> forall i | 0 <= i < |entries| :: !Failed(entries[i])
    ensures status == Error <==> entries != [] && forall i | 0 <= i < |entries| :: Failed(entries[i])
    ensures status == PartFailed <==>
      (exists i :: 0 <= i < |entries| && Failed(entries[i])) && (exists i :: 0 <= i < |entries| && !Failed(entries[i]))
    ensures status in {OK, Error, PartFailed}
    ensures status == OK <==> forall i | 0 <= i < |entries| :: entries[i].status in {OK, NotFound, KeyExpire}
  {
    var failed := 0;
    for n := 0 to |entries|
      invariant 0 <= failed <= n
      invariant failed == 0 <==> forall i | 0 <= i < n :: !Failed(entries[i])
      invariant failed == n <==> forall i | 0 <= i < n :: Failed(entries[i])
    {
      if !(entries[n].status == OK || entries[n].status == NotFound || entries[n].status == KeyExpire) {
        failed := failed + 1;
      }
    }
    status := OK;
    if failed > 0 {
      status := if failed == |entries| then Error else PartFailed;
    }
  }

  // ---------------------------------------------------------------- writing

  /** An mset request and the world it meets: which batches go through, and which sets are refused. */
  datatype Job<!K, !L, V> = Job(
    d: Discovery,
    b: Backend<K, L>,
    ok: L -> bool,
    routes: seq<Route>,
    kvs: seq<(K, V)>,
    deny: nat -> bool)
  {
    ghost predicate Valid() { |routes| == |kvs| }
  }

  predicate Executed(f: Fate) {
    f.Answered? || f.Lost?
  }

  /** The engine a position would write to, if its route ends at a server that has one. */
  function EngineAt<K, L, V>(w: Job<K, L, V>, i: nat): Option<L>
    requires i < |w.routes| && i < |w.kvs|
  {
    match ServerOf(w.d, w.routes[i])
    case None => None
    case Some(server) => w.b.engineOf(server, w.kvs[i].0)
  }

  /** A position is admitted when its package was sent to its server and executed, it was not
      refused, and the batch of its engine went through. */
  function Admitted<K, L, V>(w: Job<K, L, V>, called: seq<int>, i: nat): Option<L>
    requires i < |w.routes| && i < |w.kvs|
  {
    match ServerOf(w.d, w.routes[i])
    case None => None
    case Some(server) =>
      var engine := w.b.engineOf(server, w.kvs[i].0);
      if w.d.address(server) in called && Executed(w.b.fate(server)) && !w.deny(i) &&
         engine.Some? && w.ok(engine.value)
      then engine else None
  }

  function AllAdmitted<K, L, V>(w: Job<K, L, V>, called: seq<int>): (places: seq<Option<L>>)
    requires w.Valid()
    ensures |places| == |w.kvs|
  {
    seq(|w.kvs|, i requires 0 <= i < |w.kvs| => Admitted(w, called, i))
  }

  /** An engine serves one partition, and writes go to the leader of its shard. */
  ghost predicate OneRoutePerEngine<K, L, V>(w: Job<K, L, V>)
    requires w.Valid()
  {
    forall i, j | 0 <= i < |w.kvs| && 0 <= j < |w.kvs| ::
      EngineAt(w, i).Some? && EngineAt(w, i) == EngineAt(w, j) ==> w.routes[i] == w.routes[j]
  }

  /** The positions of a package that write to one engine, as positions of the whole request. */
  function Lift(indexes: seq<nat>, at: seq<nat>): seq<nat>
    requires forall j | j in at :: j < |indexes|
  {
    seq(|at|, k requires 0 <= k < |at| => assert at[k] in at; indexes[at[k]])
  }

  function Package<K, V>(kvs: seq<(K, V)>, indexes: seq<nat>): (r: seq<(K, V)>)
    requires forall j | 0 <= j < |indexes| :: indexes[j] < |kvs|
    ensures |r| == |indexes|
  {
    seq(|indexes|, j requires 0 <= j < |indexes| => kvs[indexes[j]])
  }

  lemma LiftedWrites<K, V>(kvs: seq<(K, V)>, indexes: seq<nat>, at: seq<nat>)
    requires (forall j | j in at :: j < |indexes|) && (forall j | 0 <= j < |indexes| :: indexes[j] < |kvs|)
    ensures forall i | i in Lift(indexes, at) :: i < |kvs|
    ensures Dispatch.Writes(Package(kvs, indexes), at) == Dispatch.Writes(kvs, Lift(indexes, at))
  {
    forall k | 0 <= k < |at|
      ensures Lift(indexes, at)[k] < |kvs|
    {
      assert at[k] in at;
    }
    var l, r := Dispatch.Writes(Package(kvs, indexes), at), Dispatch.Writes(kvs, Lift(indexes, at));
    forall k | 0 <= k < |at|
      ensures l[k] == r[k]
    {
      assert at[k] in at;
    }
  }

  /** What the server of one bucket is given. */
  function PackageEngines<K, L, V>(w: Job<K, L, V>, bucket: Bucket): (engines: seq<Option<L>>)
    requires forall j | 0 <= j < |bucket.indexes| :: bucket.indexes[j] < |w.kvs|
    ensures |engines| == |bucket.indexes|
  {
    seq(|bucket.indexes|, j requires 0 <= j < |bucket.indexes| =>
      w.b.engineOf(bucket.server, w.kvs[bucket.indexes[j]].0))
  }

  function PackageDeny(bucket: Bucket, deny: nat -> bool): nat -> bool {
    (j: nat) => j < |bucket.indexes| && deny(bucket.indexes[j])
  }

  function PackagePlaces<K, L, V>(w: Job<K, L, V>, bucket: Bucket): (places: seq<Option<L>>)
    requires forall j | 0 <= j < |bucket.indexes| :: bucket.indexes[j] < |w.kvs|
    ensures |places| == |bucket.indexes|
  {
    Dispatch.Places(PackageEngines(w, bucket), PackageDeny(bucket, w.deny), w.ok)
  }

  /** What is known about one executed package while the packages in `done` have been executed. */
  ghost predicate PackageReady<K, L, V>(w: Job<K, L, V>, buckets: map<int, Bucket>, done: seq<int>, a: int) {
    && w.Valid() && Packed(w.d, Some(w.routes), buckets) && OneRoutePerEngine(w) && Fits(buckets, |w.kvs|)
    && a in buckets && a !in done && Executed(w.b.fate(buckets[a].server))
    && forall j | 0 <= j < |buckets[a].indexes| :: buckets[a].indexes[j] < |w.kvs|
  }

  lemma InPackage<K, L, V>(w: Job<K, L, V>, buckets: map<int, Bucket>, done: seq<int>, a: int)
    requires PackageReady(w, buckets, done, a)
    ensures forall j | 0 <= j < |buckets[a].indexes| ::
      ServerOf(w.d, w.routes[buckets[a].indexes[j]]) == Some(buckets[a].server)
  {
    forall j | 0 <= j < |buckets[a].indexes|
      ensures ServerOf(w.d, w.routes[buckets[a].indexes[j]]) == Some(buckets[a].server)
    {
      BucketIndexes(w.d, Some(w.routes), buckets, a, buckets[a].indexes[j]);
    }
  }

  /** In a package a position is placed where it is admitted. */
  lemma PackagePlace<K, L, V>(w: Job<K, L, V>, buckets: map<int, Bucket>, done: seq<int>, a: int, j: nat)
    requires PackageReady(w, buckets, done, a) && j < |buckets[a].indexes|
    ensures PackagePlaces(w, buckets[a])[j] == Admitted(w, done + [a], buckets[a].indexes[j])
    ensures Admitted(w, done, buckets[a].indexes[j]).None?
  {
    InPackage(w, buckets, done, a);
    var i := buckets[a].indexes[j];
    assert PackageEngines(w, buckets[a])[j] == w.b.engineOf(buckets[a].server, w.kvs[i].0);
    assert PackageDeny(buckets[a], w.deny)(j) == w.deny(i);
    assert w.d.address(buckets[a].server) == a;
  }

  /** Outside the package nothing changes. */
  lemma OutsidePackage<K, L, V>(w: Job<K, L, V>, buckets: map<int, Bucket>, done: seq<int>, a: int, i: nat)
    requires w.Valid() && Packed(w.d, Some(w.routes), buckets) && a in buckets && i < |w.kvs|
    requires i !in buckets[a].indexes || !Executed(w.b.fate(buckets[a].server))
    ensures Admitted(w, done + [a], i) == Admitted(w, done, i)
  {
    BucketIndexes(w.d, Some(w.routes), buckets, a, i);
    if ServerOf(w.d, w.routes[i]).Some? {
      ServerOfBucket(w.d, Some(w.routes), buckets, i);
    }
  }

  lemma LiftContains<K, L, V>(w: Job<K, L, V>, buckets: map<int, Bucket>, done: seq<int>, a: int, e: L, i: nat)
    requires PackageReady(w, buckets, done, a)
    ensures var q := buckets[a].indexes;
      i in Lift(q, Dispatch.At(PackagePlaces(w, buckets[a]), |q|, e)) <==>
      i in q && i < |w.kvs| && Admitted(w, done + [a], i) == Some(e)
  {
    var q := buckets[a].indexes;
    var places := PackagePlaces(w, buckets[a]);
    var at := Dispatch.At(places, |q|, e);
    if i in Lift(q, at) {
      var k :| 0 <= k < |at| && Lift(q, at)[k] == i;
      assert at[k] in at;
      Dispatch.AtContains(places, |q|, e, at[k]);
      PackagePlace(w, buckets, done, a, at[k]);
    }
    if i in q && i < |w.kvs| && Admitted(w, done + [a], i) == Some(e) {
      var j :| 0 <= j < |q| && q[j] == i;
      PackagePlace(w, buckets, done, a, j);
      Dispatch.AtContains(places, |q|, e, j);
      var k :| 0 <= k < |at| && at[k] == j;
      assert Lift(q, at)[k] == i;
    }
  }

  lemma LiftAscends<K, L, V>(w: Job<K, L, V>, buckets: map<int, Bucket>, done: seq<int>, a: int, e: L)
    requires PackageReady(w, buckets, done, a)
    ensures var q := buckets[a].indexes;
      Ascending(Lift(q, Dispatch.At(PackagePlaces(w, buckets[a]), |q|, e)))
  {
    var q := buckets[a].indexes;
    var places := PackagePlaces(w, buckets[a]);
    var at := Dispatch.At(places, |q|, e);
    Dispatch.AtAscends(places, |q|, e);
    forall k, l | 0 <= k < l < |at|
      ensures Lift(q, at)[k] < Lift(q, at)[l]
    {
      assert at[k] in at && at[l] in at;
      Dispatch.AtContains(places, |q|, e, at[k]);
      Dispatch.AtContains(places, |q|, e, at[l]);
      PackagePlace(w, buckets, done, a, at[k]);
      PackagePlace(w, buckets, done, a, at[l]);
      assert EngineAt(w, q[at[k]]) == EngineAt(w, q[at[l]]);
      assert InOrder(q, w.routes);
    }
  }

  /** A position writes to e afterwards if it did before or the package brings it. */
  lemma AtAfter<K, L, V>(w: Job<K, L, V>, buckets: map<int, Bucket>, done: seq<int>, a: int, e: L, i: nat)
    requires PackageReady(w, buckets, done, a)
    ensures var q := buckets[a].indexes;
      i in Dispatch.At(AllAdmitted(w, done + [a]), |w.kvs|, e) <==>
      i in Dispatch.At(AllAdmitted(w, done), |w.kvs|, e) ||
      i in Lift(q, Dispatch.At(PackagePlaces(w, buckets[a]), |q|, e))
  {
    Dispatch.AtContains(AllAdmitted(w, done), |w.kvs|, e, i);
    Dispatch.AtContains(AllAdmitted(w, done + [a]), |w.kvs|, e, i);
    LiftContains(w, buckets, done, a, e, i);
    if i < |w.kvs| {
      AdmittedBefore(w, buckets, done, a, i);
    }
  }

  /** Executing a package: an engine either had no writes before and now has those of the package, in
      request order, or the package has none for it. */
  lemma PackagePerEngine<K, L, V>(w: Job<K, L, V>, buckets: map<int, Bucket>, done: seq<int>, a: int, e: L)
    requires PackageReady(w, buckets, done, a)
    ensures var q := buckets[a].indexes;
      var at := Dispatch.At(PackagePlaces(w, buckets[a]), |q|, e);
      var before := Dispatch.At(AllAdmitted(w, done), |w.kvs|, e);
      var after := Dispatch.At(AllAdmitted(w, done + [a]), |w.kvs|, e);
      if at == [] then after == before else before == [] && after == Lift(q, at)
  {
    var q := buckets[a].indexes;
    var at := Dispatch.At(PackagePlaces(w, buckets[a]), |q|, e);
    var p0, p1 := AllAdmitted(w, done), AllAdmitted(w, done + [a]);
    var before, after := Dispatch.At(p0, |w.kvs|, e), Dispatch.At(p1, |w.kvs|, e);
    Dispatch.AtAscends(p0, |w.kvs|, e);
    Dispatch.AtAscends(p1, |w.kvs|, e);
    LiftAscends(w, buckets, done, a, e);
    forall i
      ensures i in after <==> i in before || i in Lift(q, at)
    {
      AtAfter(w, buckets, done, a, e, i);
    }
    if at != [] {
      NothingBefore(w, buckets, done, a, e);
    }
    AscendingUnique(after, if at == [] then before else Lift(q, at));
  }

  lemma NothingBefore<K, L, V>(w: Job<K, L, V>, buckets: map<int, Bucket>, done: seq<int>, a: int, e: L)
    requires PackageReady(w, buckets, done, a)
    requires Dispatch.At(PackagePlaces(w, buckets[a]), |buckets[a].indexes|, e) != []
    ensures Dispatch.At(AllAdmitted(w, done), |w.kvs|, e) == []
  {
    forall i | 0 <= i < |w.kvs|
      ensures AllAdmitted(w, done)[i] != Some(e)
    {
      NotBefore(w, buckets, done, a, e, i);
    }
    Dispatch.AtNothing(AllAdmitted(w, done), |w.kvs|, e);
  }

  // A position of the package was not admitted before; any other keeps what it had.
  lemma AdmittedBefore<K, L, V>(w: Job<K, L, V>, buckets: map<int, Bucket>, done: seq<int>, a: int, i: nat)
    requires PackageReady(w, buckets, done, a) && i < |w.kvs|
    ensures if i in buckets[a].indexes then Admitted(w, done, i).None?
            else Admitted(w, done + [a], i) == Admitted(w, done, i)
  {
    if i in buckets[a].indexes {
      var j :| 0 <= j < |buckets[a].indexes| && buckets[a].indexes[j] == i;
      PackagePlace(w, buckets, done, a, j);
    } else {
      OutsidePackage(w, buckets, done, a, i);
    }
  }

  // An engine of this package cannot have been written by another one.
  lemma NotBefore<K, L, V>(w: Job<K, L, V>, buckets: map<int, Bucket>, done: seq<int>, a: int, e: L, i: nat)
    requires PackageReady(w, buckets, done, a) && i < |w.kvs|
    requires Dispatch.At(PackagePlaces(w, buckets[a]), |buckets[a].indexes|, e) != []
    ensures Admitted(w, done, i) != Some(e)
  {
    var q := buckets[a].indexes;
    var places := PackagePlaces(w, buckets[a]);
    var j := Dispatch.At(places, |q|, e)[0];
    assert j in Dispatch.At(places, |q|, e);
    Dispatch.AtContains(places, |q|, e, j);
    PackagePlace(w, buckets, done, a, j);
    InPackage(w, buckets, done, a);
    assert EngineAt(w, q[j]) == Some(e);
    assert EngineAt(w, i) == Some(e) ==> w.routes[i] == w.routes[q[j]];
  }

  /** Every engine holds what the admitted sets, run one by one in request order, leave in it. */
  ghost predicate AsSequential<K, L(!new), V>(world0: map<L, map<K, V>>, kvs: seq<(K, V)>, places: seq<Option<L>>,
                                              world: map<L, map<K, V>>)
    requires |places| == |kvs|
  {
    forall e :: Dispatch.DbAt(world, e) == Dispatch.DbAt(Dispatch.Sequential(world0, kvs, places, |kvs|), e)
  }

  lemma PackageKeepsSequential<K, L(!new), V>(w: Job<K, L, V>, buckets: map<int, Bucket>, done: seq<int>, a: int,
                                              world0: map<L, map<K, V>>, world: map<L, map<K, V>>,
                                              world': map<L, map<K, V>>)
    requires PackageReady(w, buckets, done, a)
    requires AsSequential(world0, w.kvs, AllAdmitted(w, done), world)
    requires AsSequential(world, Package(w.kvs, buckets[a].indexes), PackagePlaces(w, buckets[a]), world')
    ensures AsSequential(world0, w.kvs, AllAdmitted(w, done + [a]), world')
  {
    var q := buckets[a].indexes;
    var package, places := Package(w.kvs, q), PackagePlaces(w, buckets[a]);
    var p0, p1 := AllAdmitted(w, done), AllAdmitted(w, done + [a]);
    forall e
      ensures Dispatch.DbAt(world', e) == Dispatch.DbAt(Dispatch.Sequential(world0, w.kvs, p1, |w.kvs|), e)
    {
      Dispatch.SequentialPerEngine(world0, w.kvs, p0, |w.kvs|, e);
      Dispatch.SequentialPerEngine(world0, w.kvs, p1, |w.kvs|, e);
      Dispatch.SequentialPerEngine(world, package, places, |q|, e);
      PackagePerEngine(w, buckets, done, a, e);
      LiftedWrites(w.kvs, q, Dispatch.At(places, |q|, e));
    }
  }

  lemma TurnedAway<K, L, V>(w: Job<K, L, V>, buckets: map<int, Bucket>, done: seq<int>, a: int)
    requires w.Valid() && Packed(w.d, Some(w.routes), buckets) && a in buckets
    requires !Executed(w.b.fate(buckets[a].server))
    ensures forall i | 0 <= i < |w.kvs| :: Admitted(w, done + [a], i) == Admitted(w, done, i)
    ensures AllAdmitted(w, done + [a]) == AllAdmitted(w, done)
  {
    forall i | 0 <= i < |w.kvs|
      ensures Admitted(w, done + [a], i) == Admitted(w, done, i)
    {
      OutsidePackage(w, buckets, done, a, i);
    }
  }

  lemma PackageEnginesAgree<K, L, V>(w: Job<K, L, V>, bucket: Bucket)
    requires forall j | 0 <= j < |bucket.indexes| :: bucket.indexes[j] < |w.kvs|
    ensures Dispatch.EnginesOf(Dispatch.KeysOf(Package(w.kvs, bucket.indexes)), k => w.b.engineOf(bucket.server, k))
      == PackageEngines(w, bucket)
  {
  }

  /** One package executed by its server. */
  method SendPackage<K(==, !new), L(==, !new), V>(w: Job<K, L, V>, bucket: Bucket, world0: map<L, map<K, V>>,
                                                  walkEngines: set<L> -> seq<L>)
    returns (list: seq<int>, world: map<L, map<K, V>>)
    requires (forall j | 0 <= j < |bucket.indexes| :: bucket.indexes[j] < |w.kvs|) && EngineWalk(walkEngines)
    ensures var places := PackagePlaces(w, bucket);
      && AsSequential(world0, Package(w.kvs, bucket.indexes), places, world)
      && |list| == |bucket.indexes|
      && forall j | 0 <= j < |list| :: list[j] == if places[j].Some? then j else -1
  {
    PackageEnginesAgree(w, bucket);
    list, world := Dispatch.MSet(Package(w.kvs, bucket.indexes), k => w.b.engineOf(bucket.server, k),
                                 PackageDeny(bucket, w.deny), w.ok, world0, walkEngines);
  }

  /** A position is told a non-negative number exactly when it was admitted and the answer arrived. */
  ghost predicate Told<K, L, V>(w: Job<K, L, V>, done: seq<int>, values: seq<int>)
    requires w.Valid()
  {
    && |values| == |w.kvs|
    && forall i | 0 <= i < |w.kvs| ::
      if Admitted(w, done, i).Some? && w.b.fate(ServerOf(w.d, w.routes[i]).value) == Answered
      then values[i] >= 0 else values[i] == -1
  }

  lemma ToldOneMore<K, L, V>(w: Job<K, L, V>, buckets: map<int, Bucket>, done: seq<int>, a: int,
                             list: seq<int>, values: seq<int>, values': seq<int>)
    requires PackageReady(w, buckets, done, a) && Told(w, done, values)
    requires |list| == |buckets[a].indexes| && |values'| == |w.kvs|
    requires forall j | 0 <= j < |list| :: list[j] == if PackagePlaces(w, buckets[a])[j].Some? then j else -1
    requires if w.b.fate(buckets[a].server) == Answered
      then (forall i | 0 <= i < |values'| && i in buckets[a].indexes ::
              exists j :: 0 <= j < |list| && buckets[a].indexes[j] == i && values'[i] == list[j]) &&
           (forall i | 0 <= i < |values'| && i !in buckets[a].indexes :: values'[i] == values[i])
      else values' == values
    ensures Told(w, done + [a], values')
  {
    InPackage(w, buckets, done, a);
    forall i | 0 <= i < |w.kvs|
      ensures if Admitted(w, done + [a], i).Some? && w.b.fate(ServerOf(w.d, w.routes[i]).value) == Answered
        then values'[i] >= 0 else values'[i] == -1
    {
      AdmittedBefore(w, buckets, done, a, i);
      if i in buckets[a].indexes {
        var j :| 0 <= j < |list| && buckets[a].indexes[j] == i &&
          (w.b.fate(buckets[a].server) == Answered ==> values'[i] == list[j]);
        PackagePlace(w, buckets, done, a, j);
      }
    }
  }

  /** What the calls made so far have left: the sequential outcome, and answers that fit it. */
  ghost predicate Progress<K, L(!new), V>(w: Job<K, L, V>, called: seq<int>, world0: map<L, map<K, V>>,
                                          world: map<L, map<K, V>>, values: seq<int>)
  {
    w.Valid() && AsSequential(world0, w.kvs, AllAdmitted(w, called), world) && Told(w, called, values)
  }

  /** One address: its package is executed unless it is turned away, and its answers are written
      back if they arrive. */
  method Send<K(==, !new), L(==, !new), V>(w: Job<K, L, V>, buckets: map<int, Bucket>, ghost done: seq<int>, a: int,
                                           walkEngines: set<L> -> seq<L>, ghost world0: map<L, map<K, V>>,
                                           world1: map<L, map<K, V>>, values0: seq<int>)
    returns (values: seq<int>, world: map<L, map<K, V>>)
    requires w.Valid() && EngineWalk(walkEngines) && |values0| == |w.kvs|
    requires a in buckets && a !in done && Fits(buckets, |w.kvs|)
    ensures |values| == |w.kvs|
    ensures Packed(w.d, Some(w.routes), buckets) && OneRoutePerEngine(w) && Progress(w, done, world0, world1, values0)
      ==> Progress(w, done + [a], world0, world, values)
  {
    values, world := values0, world1;
    ghost var good := Packed(w.d, Some(w.routes), buckets) && OneRoutePerEngine(w) &&
      Progress(w, done, world0, world1, values0);
    var fate := w.b.fate(buckets[a].server);
    if fate.Rejected? {
      if good {
        TurnedAway(w, buckets, done, a);
      }
      return;
    }
    BucketFits(buckets, a, |w.kvs|);
    var list: seq<int>;
    list, world := SendPackage(w, buckets[a], world1, walkEngines);
    if fate.Answered? {
      values := WriteBack(values0, buckets[a].indexes, list);
    }
    if good {
      PackageKeepsSequential(w, buckets, done, a, world0, world1, world);
      ToldOneMore(w, buckets, done, a, list, values0, values);
    }
  }

  /** The calls, address by address, until one server cannot be called. */
  method SendAll<K(==, !new), L(==, !new), V>(w: Job<K, L, V>, buckets: map<int, Bucket>, order: seq<int>,
                                              walkEngines: set<L> -> seq<L>, world0: map<L, map<K, V>>)
    returns (sent: bool, values: seq<int>, world: map<L, map<K, V>>, called: seq<int>)
    requires w.Valid() && EngineWalk(walkEngines) && Fits(buckets, |w.kvs|) && Enumerates(order, buckets.Keys)
    ensures |values| == |w.kvs| && (!sent ==> values == seq(|w.kvs|, _ => -1))
    ensures (sent <==> Callable(w.b, buckets)) && (sent ==> called == order)
    ensures Packed(w.d, Some(w.routes), buckets) && OneRoutePerEngine(w) ==>
      AsSequential(world0, w.kvs, AllAdmitted(w, called), world) && (sent ==> Told(w, called, values))
  {
    values, world, called := seq(|w.kvs|, _ => -1), world0, [];
    NothingAdmitted(w, world0);
    for m := 0 to |order|
      invariant called == order[..m] && |values| == |w.kvs|
      invariant forall a | a in order[..m] :: a in buckets && w.b.callable(buckets[a].server)
      invariant Packed(w.d, Some(w.routes), buckets) && OneRoutePerEngine(w) ==>
        Progress(w, called, world0, world, values)
    {
      var a := order[m];
      assert a in order && a !in order[..m];
      if !w.b.callable(buckets[a].server) {
        sent, values := false, seq(|w.kvs|, _ => -1);
        return;
      }
      values, world := Send(w, buckets, called, a, walkEngines, world0, world, values);
      called := called + [a];
      assert order[..m + 1] == order[..m] + [a];
    }
    sent := true;
    assert order[..|order|] == order;
  }

  lemma EveryServerIsCalled(d: Discovery, infos: Option<seq<Route>>, buckets: map<int, Bucket>, called: seq<int>)
    requires Packed(d, infos, buckets) && infos.Some? && Enumerates(called, buckets.Keys)
    ensures forall r | r in infos.value && AddressOf(d, r).Some? :: AddressOf(d, r).value in called
  {
    forall r | r in infos.value && AddressOf(d, r).Some?
      ensures AddressOf(d, r).value in called
    {
      var i :| 0 <= i < |infos.value| && infos.value[i] == r;
      ServerOfBucket(d, infos, buckets, i);
    }
  }

  /** Position i is executed and sets key k in engine e. */
  ghost predicate SetsAt<K, L, V>(w: Job<K, L, V>, called: seq<int>, e: L, k: K, i: nat)
    requires w.Valid()
  {
    && i < |w.kvs| && w.kvs[i].0 == k && !w.deny(i) && w.ok(e)
    && ServerOf(w.d, w.routes[i]).Some?
    && var server := ServerOf(w.d, w.routes[i]).value;
    w.d.address(server) in called && !w.b.fate(server).Rejected? && w.b.engineOf(server, k) == Some(e)
  }

  /** An engine holds of each key the last value set by any executed position of the whole request, and
      what it held where none was. */
  ghost predicate Held<K, L, V>(w: Job<K, L, V>, called: seq<int>, world0: map<L, map<K, V>>,
                                world: map<L, map<K, V>>, e: L, k: K)
    requires w.Valid()
  {
    var db0, db := Dispatch.DbAt(world0, e), Dispatch.DbAt(world, e);
    && (forall i: nat | SetsAt(w, called, e, k, i) && (forall j: nat | i < j :: !SetsAt(w, called, e, k, j)) ::
      k in db && db[k] == w.kvs[i].1)
    && ((forall i: nat :: !SetsAt(w, called, e, k, i)) ==>
      (k in db <==> k in db0) && (k in db0 ==> db[k] == db0[k]))
  }

  /** Position i was executed, went into its engine, and the answer arrived. */
  predicate Confirmed<K, L, V>(w: Job<K, L, V>, i: nat)
    requires w.Valid() && i < |w.kvs|
  {
    && ServerOf(w.d, w.routes[i]).Some?
    && var server := ServerOf(w.d, w.routes[i]).value;
    var engine := w.b.engineOf(server, w.kvs[i].0);
    w.b.fate(server).Answered? && !w.deny(i) && engine.Some? && w.ok(engine.value)
  }

  lemma AdmittedSets<K, L, V>(w: Job<K, L, V>, called: seq<int>, e: L, k: K, i: nat)
    requires w.Valid() && i < |w.kvs|
    ensures AllAdmitted(w, called)[i] == Some(e) && w.kvs[i].0 == k <==> SetsAt(w, called, e, k, i)
  {
    assert AllAdmitted(w, called)[i] == Admitted(w, called, i);
  }

  lemma IsHeld<K, L, V>(w: Job<K, L, V>, called: seq<int>, world0: map<L, map<K, V>>, world: map<L, map<K, V>>,
                        e: L, k: K)
    requires w.Valid()
    requires Dispatch.DbAt(world, e) ==
      Dispatch.DbAt(Dispatch.Sequential(world0, w.kvs, AllAdmitted(w, called), |w.kvs|), e)
    ensures Held(w, called, world0, world, e, k)
  {
    var places := AllAdmitted(w, called);
    forall i: nat | i < |w.kvs|
      ensures places[i] == Some(e) && w.kvs[i].0 == k <==> SetsAt(w, called, e, k, i)
    {
      AdmittedSets(w, called, e, k, i);
    }
    forall i: nat | SetsAt(w, called, e, k, i) && forall j: nat | i < j :: !SetsAt(w, called, e, k, j)
      ensures k in Dispatch.DbAt(world, e) && Dispatch.DbAt(world, e)[k] == w.kvs[i].1
    {
      Dispatch.LastSetWins(world0, w.kvs, places, |w.kvs|, e, i);
    }
    if forall i: nat :: !SetsAt(w, called, e, k, i) {
      Dispatch.UnsetKeysStay(world0, w.kvs, places, |w.kvs|, e, k);
    }
  }

  lemma AllHeld<K(!new), L(!new), V>(w: Job<K, L, V>, called: seq<int>, world0: map<L, map<K, V>>,
                                     world: map<L, map<K, V>>)
    requires w.Valid() && AsSequential(world0, w.kvs, AllAdmitted(w, called), world)
    ensures forall e, k :: Held(w, called, world0, world, e, k)
  {
    forall e, k
      ensures Held(w, called, world0, world, e, k)
    {
      IsHeld(w, called, world0, world, e, k);
    }
  }

  lemma ToldIsConfirmed<K, L, V>(w: Job<K, L, V>, called: seq<int>, values: seq<int>)
    requires w.Valid() && Told(w, called, values)
    requires forall r | r in w.routes && AddressOf(w.d, r).Some? :: AddressOf(w.d, r).value in called
    ensures forall i | 0 <= i < |w.kvs| :: values[i] >= 0 <==> Confirmed(w, i)
  {
    forall i | 0 <= i < |w.kvs|
      ensures values[i] >= 0 <==> Confirmed(w, i)
    {
      assert w.routes[i] in w.routes;
    }
  }

  /** mset. For a request that is scattered as it should be, however it is split, every engine is left
      as if the admitted sets had run one by one in request order, so the last of several sets of one
      key wins. If a server cannot be called, the packages already sent still take effect although
      every position is told -1. */
  method MSet<K(==, !new), L(==, !new), V>(kvs: seq<(K, V)>, infos: Option<seq<Route>>, d: Discovery, b: Backend<K, L>,
                                           ok: L -> bool, deny: nat -> bool, walk: set<int> -> seq<int>,
                                           walkEngines: set<L> -> seq<L>, world0: map<L, map<K, V>>)
    returns (sent: bool, values: seq<int>, world: map<L, map<K, V>>, called: seq<int>)
    requires infos.Some? ==> |infos.value| == |kvs|
    requires Walk(walk) && EngineWalk(walkEngines)
    ensures |values| == |kvs|
    ensures infos.None? || !sent ==> values == seq(|kvs|, _ => -1)
    ensures infos.None? ==> sent && world == world0
    ensures Sound(d, infos) ==> (sent <==> !Unreachable(d, b, infos))
    ensures infos.Some? && Sound(d, infos) ==>
      var w := Job(d, b, ok, infos.value, kvs, deny);
      OneRoutePerEngine(w) ==>
        && AsSequential(world0, kvs, AllAdmitted(w, called), world)
        && (sent ==> Told(w, called, values))
        && (sent ==> forall r | r in infos.value && AddressOf(d, r).Some? :: AddressOf(d, r).value in called)
        && (forall e, k :: Held(w, called, world0, world, e, k))
        && (sent ==> forall i | 0 <= i < |kvs| :: values[i] >= 0 <==> Confirmed(w, i))
  {
    if infos.None? {
      return true, seq(|kvs|, _ => -1), world0, [];
    }
    var w := Job(d, b, ok, infos.value, kvs, deny);
    var buckets := DispatchRequest(infos, d, walk);
    var order := walk(buckets.Keys);
    assert Enumerates(order, buckets.Keys);
    sent, values, world, called := SendAll(w, buckets, order, walkEngines, world0);
    if Sound(d, infos) {
      CallableIsReachable(d, b, infos, buckets);
      EveryServerIsCalled(d, infos, buckets, order);
      if OneRoutePerEngine(w) {
        AllHeld(w, called, world0, world);
        if sent {
          ToldIsConfirmed(w, called, values);
        }
      }
    }
  }

  lemma NothingAdmitted<K, L(!new), V>(w: Job<K, L, V>, world0: map<L, map<K, V>>)
    requires w.Valid()
    ensures Progress(w, [], world0, world0, seq(|w.kvs|, _ => -1))
  {
    var places := AllAdmitted(w, []);
    forall i | 0 <= i < |w.kvs|
      ensures places[i].None?
    {
      assert places[i] == Admitted(w, [], i);
    }
    forall e
      ensures Dispatch.DbAt(world0, e) == Dispatch.DbAt(Dispatch.Sequential(world0, w.kvs, places, |w.kvs|), e)
    {
      Dispatch.SequentialPerEngine(world0, w.kvs, places, |w.kvs|, e);
      Dispatch.AtNothing(places, |w.kvs|, e);
    }
  }
}
