/** How a server spreads a multi-key request over its engines and what the handlers answer
    (dispatchRequest, mget, mgetDetail and mset of server/laser_service.cc; the engine's mset of
    server/engine/rocksdb.cc).

    Engines are values of a type L. A position has no engine where getDatabaseEngine throws, `deny`
    draws the traffic restriction of each position, and `walk` is the order a hash map is iterated in. */
module ServerDispatch {
  import opened Common

  // ---------------------------------------------------------------- positions of an engine

  /** The positions below n that belong to e, in order. */
  function At<L(==)>(engines: seq<Option<L>>, n: nat, e: L): (at: seq<nat>)
    requires n <= |engines|
    ensures forall i | i in at :: i < n
  {
    if n == 0 then [] else At(engines, n - 1, e) + (if engines[n - 1] == Some(e) then [n - 1] else [])
  }

  lemma AtStep<L>(engines: seq<Option<L>>, n: nat, e: L)
    requires n < |engines|
    ensures At(engines, n + 1, e) == if engines[n] == Some(e) then At(engines, n, e) + [n] else At(engines, n, e)
  {
  }

  lemma {:induction false} AtContains<L>(engines: seq<Option<L>>, n: nat, e: L, i: nat)
    requires n <= |engines|
    ensures i in At(engines, n, e) <==> i < n && engines[i] == Some(e)
  {
    if n > 0 {
      AtContains(engines, n - 1, e, i);
    }
  }

  lemma {:induction false} AtAscends<L>(engines: seq<Option<L>>, n: nat, e: L)
    requires n <= |engines|
    ensures Ascending(At(engines, n, e))
  {
    if n > 0 {
      AtAscends(engines, n - 1, e);
      var before := At(engines, n - 1, e);
      assert forall a | 0 <= a < |before| :: before[a] in before;
    }
  }

  lemma {:induction false} AtNothing<L>(engines: seq<Option<L>>, n: nat, e: L)
    requires n <= |engines| && forall i | 0 <= i < n :: engines[i] != Some(e)
    ensures At(engines, n, e) == []
  {
    if n > 0 {
      AtNothing(engines, n - 1, e);
    }
  }

  // ---------------------------------------------------------------- grouping by engine

  datatype Item<+K> = Item(key: K, index: nat, denied: bool)

  function EnginesOf<K, L>(keys: seq<K>, engineOf: K -> Option<L>): (engines: seq<Option<L>>)
    ensures |engines| == |keys|
  {
    seq(|keys|, i requires 0 <= i < |keys| => engineOf(keys[i]))
  }

  function Items<K>(keys: seq<K>, deny: nat -> bool, at: seq<nat>): seq<Item<K>>
    requires forall i | i in at :: i < |keys|
  {
    seq(|at|, j requires 0 <= j < |at| => assert at[j] in at; Item(keys[at[j]], at[j], deny(at[j])))
  }

  lemma ItemsAppend<K>(keys: seq<K>, deny: nat -> bool, at: seq<nat>, i: nat)
    requires i < |keys| && forall j | j in at :: j < |keys|
    ensures Items(keys, deny, at + [i]) == Items(keys, deny, at) + [Item(keys[i], i, deny(i))]
  {
  }

  ghost predicate Dispatched<K, L(!new)>(keys: seq<K>, engines: seq<Option<L>>, deny: nat -> bool, n: nat,
                                         tasks: map<L, seq<Item<K>>>)
    requires n <= |keys| == |engines|
  {
    && (forall i | 0 <= i < n && engines[i].Some? :: engines[i].value in tasks)
    && (forall e | e in tasks :: tasks[e] == Items(keys, deny, At(engines, n, e)))
  }

  function AddItem<K, L>(tasks: map<L, seq<Item<K>>>, engine: Option<L>, item: Item<K>): map<L, seq<Item<K>>> {
    match engine
    case None => tasks
    case Some(e) => tasks[e := (if e in tasks then tasks[e] else []) + [item]]
  }

  lemma AddItemKeeps<K, L(!new)>(keys: seq<K>, engines: seq<Option<L>>, deny: nat -> bool, n: nat,
                                 tasks: map<L, seq<Item<K>>>)
    requires n < |keys| == |engines| && Dispatched(keys, engines, deny, n, tasks)
    ensures Dispatched(keys, engines, deny, n + 1, AddItem(tasks, engines[n], Item(keys[n], n, deny(n))))
  {
    var tasks' := AddItem(tasks, engines[n], Item(keys[n], n, deny(n)));
    forall e | e in tasks'
      ensures tasks'[e] == Items(keys, deny, At(engines, n + 1, e))
    {
      if engines[n] == Some(e) {
        ItemsAppend(keys, deny, At(engines, n, e), n);
        if e !in tasks {
          AtNothing(engines, n, e);
        }
      }
    }
  }

  method Add<K, L(==)>(tasks0: map<L, seq<Item<K>>>, engine: Option<L>, key: K, index: nat, denied: bool)
    returns (tasks: map<L, seq<Item<K>>>)
    ensures tasks == AddItem(tasks0, engine, Item(key, index, denied))
  {
    tasks := tasks0;
    if engine.Some? {
      if engine.value !in tasks {
        tasks := tasks[engine.value := []];
      }
      tasks := tasks[engine.value := tasks[engine.value] + [Item(key, index, denied)]];
    }
  }

  /** Each position that has an engine becomes one item of that engine, in request order. */
  method DispatchRequest<K, L(==, !new)>(keys: seq<K>, engineOf: K -> Option<L>, deny: nat -> bool)
    returns (tasks: map<L, seq<Item<K>>>)
    ensures Dispatched(keys, EnginesOf(keys, engineOf), deny, |keys|, tasks)
  {
    tasks := map[];
    var index := 0;
    for n := 0 to |keys|
      invariant index == n && Dispatched(keys, EnginesOf(keys, engineOf), deny, n, tasks)
    {
      AddItemKeeps(keys, EnginesOf(keys, engineOf), deny, n, tasks);
      tasks := Add(tasks, engineOf(keys[n]), keys[n], index, deny(n));
      index := index + 1;
    }
  }

  // ---------------------------------------------------------------- answering by position

  /** What a read handler answers at one position. */
  function Answer<K, L, V>(engine: Option<L>, key: K, denied: bool, absent: V, refused: V, get: (L, K) -> V): V {
    match engine
    case None => absent
    case Some(e) => if denied then refused else get(e, key)
  }

  method AnswerEngine<K, L(!new), V>(keys: seq<K>, ghost engines: seq<Option<L>>, deny: nat -> bool, absent: V,
                                     refused: V, get: (L, K) -> V, e: L, items: seq<Item<K>>, values0: seq<V>)
    returns (values: seq<V>)
    requires |values0| == |keys| == |engines| && items == Items(keys, deny, At(engines, |keys|, e))
    ensures |values| == |keys|
    ensures forall i | 0 <= i < |keys| ::
      values[i] ==
      if engines[i] == Some(e) then Answer(engines[i], keys[i], deny(i), absent, refused, get) else values0[i]
  {
    ghost var at := At(engines, |keys|, e);
    values := values0;
    for j := 0 to |items|
      invariant |values| == |keys|
      invariant forall i | 0 <= i < |keys| ::
        values[i] == if i in at[..j] then Answer(engines[i], keys[i], deny(i), absent, refused, get) else values0[i]
    {
      assert at[j] in at;
      AtContains(engines, |keys|, e, at[j]);
      assert at[..j + 1] == at[..j] + [at[j]];
      var item := items[j];
      values := values[item.index := if item.denied then refused else get(e, item.key)];
    }
    forall i | 0 <= i < |keys|
      ensures i in at <==> engines[i] == Some(e)
    {
      AtContains(engines, |keys|, e, i);
    }
    assert at[..|items|] == at;
  }

  /** The read handlers: a list of defaults, overwritten by position engine by engine in any order,
      is the pointwise answer. */
  method MGet<K, L(==, !new), V>(keys: seq<K>, engineOf: K -> Option<L>, deny: nat -> bool, absent: V, refused: V,
                                 get: (L, K) -> V, walk: set<L> -> seq<L>)
    returns (values: seq<V>)
    requires forall s :: Enumerates(walk(s), s)
    ensures |values| == |keys|
    ensures forall i | 0 <= i < |keys| ::
      values[i] == Answer(engineOf(keys[i]), keys[i], deny(i), absent, refused, get)
    ensures forall i | 0 <= i < |keys| && engineOf(keys[i]).None? :: values[i] == absent
    ensures forall i | 0 <= i < |keys| && engineOf(keys[i]).Some? && deny(i) :: values[i] == refused
    ensures forall i | 0 <= i < |keys| && engineOf(keys[i]).Some? && !deny(i) ::
      values[i] == get(engineOf(keys[i]).value, keys[i])
  {
    var tasks := DispatchRequest(keys, engineOf, deny);
    ghost var engines := EnginesOf(keys, engineOf);
    values := seq(|keys|, _ => absent);
    var order := walk(tasks.Keys);
    for m := 0 to |order|
      invariant |values| == |keys|
      invariant forall i | 0 <= i < |keys| ::
        values[i] == if engines[i].Some? && engines[i].value in order[..m]
                     then Answer(engines[i], keys[i], deny(i), absent, refused, get) else absent
    {
      var e := order[m];
      assert e in order && e in tasks;
      assert order[..m + 1] == order[..m] + [e];
      values := AnswerEngine(keys, engines, deny, absent, refused, get, e, tasks[e], values);
    }
    assert order[..|order|] == order;
  }

  // ---------------------------------------------------------------- writing by engine

  function PutAll<K, V>(db: map<K, V>, batch: seq<(K, V)>): map<K, V>
    decreases batch
  {
    if batch == [] then db
    else
      var last := batch[|batch| - 1];
      PutAll(db, batch[..|batch| - 1])[last.0 := last.1]
  }

  lemma PutOneMore<K, V>(db: map<K, V>, batch: seq<(K, V)>, kv: (K, V))
    ensures PutAll(db, batch + [kv]) == PutAll(db, batch)[kv.0 := kv.1]
  {
    assert (batch + [kv])[..|batch|] == batch;
  }

  function DbAt<K, L, V>(world: map<L, map<K, V>>, e: L): map<K, V> {
    if e in world then world[e] else map[]
  }

  /** The writes at some positions, in that order. */
  function Writes<K, V>(kvs: seq<(K, V)>, at: seq<nat>): seq<(K, V)>
    requires forall i | i in at :: i < |kvs|
  {
    seq(|at|, j requires 0 <= j < |at| => assert at[j] in at; kvs[at[j]])
  }

  lemma WritesAppend<K, V>(kvs: seq<(K, V)>, at: seq<nat>, i: nat)
    requires i < |kvs| && forall j | j in at :: j < |kvs|
    ensures Writes(kvs, at + [i]) == Writes(kvs, at) + [kvs[i]]
  {
  }

  /** The sets run one by one in request order; `places` says which engine a position writes to, if
      any. */
  function Sequential<K, L, V>(world: map<L, map<K, V>>, kvs: seq<(K, V)>, places: seq<Option<L>>,
                               n: nat): map<L, map<K, V>>
    requires n <= |kvs| == |places|
  {
    if n == 0 then world
    else
      var before := Sequential(world, kvs, places, n - 1);
      match places[n - 1]
      case None => before
      case Some(e) => before[e := DbAt(before, e)[kvs[n - 1].0 := kvs[n - 1].1]]
  }

  lemma SequentialStep<K, L, V>(world: map<L, map<K, V>>, kvs: seq<(K, V)>, places: seq<Option<L>>, n: nat, e: L)
    requires n < |kvs| == |places|
    ensures var before := DbAt(Sequential(world, kvs, places, n), e);
      DbAt(Sequential(world, kvs, places, n + 1), e) ==
      if places[n] == Some(e) then before[kvs[n].0 := kvs[n].1] else before
  {
  }

  /** What running the sets one by one leaves in one engine is the batch of that engine's sets. */
  lemma {:induction false} SequentialPerEngine<K, L, V>(world: map<L, map<K, V>>, kvs: seq<(K, V)>,
                                                        places: seq<Option<L>>, n: nat, e: L)
    requires n <= |kvs| == |places|
    ensures DbAt(Sequential(world, kvs, places, n), e) == PutAll(DbAt(world, e), Writes(kvs, At(places, n, e)))
  {
    if n > 0 {
      var at := At(places, n - 1, e);
      SequentialPerEngine(world, kvs, places, n - 1, e);
      SequentialStep(world, kvs, places, n - 1, e);
      AtStep(places, n - 1, e);
      if places[n - 1] == Some(e) {
        WritesAppend(kvs, at, n - 1);
        PutOneMore(DbAt(world, e), Writes(kvs, at), kvs[n - 1]);
      }
    }
  }

  /** Of several sets of one key in one engine the last in request order wins. */
  lemma {:induction false} LastSetWins<K, L, V>(world: map<L, map<K, V>>, kvs: seq<(K, V)>, places: seq<Option<L>>,
                                                n: nat, e: L, i: nat)
    requires i < n <= |kvs| == |places| && places[i] == Some(e)
    requires forall j | i < j < n && places[j] == Some(e) :: kvs[j].0 != kvs[i].0
    ensures var db := DbAt(Sequential(world, kvs, places, n), e);
      kvs[i].0 in db && db[kvs[i].0] == kvs[i].1
    decreases n
  {
    SequentialStep(world, kvs, places, n - 1, e);
    if i < n - 1 {
      LastSetWins(world, kvs, places, n - 1, e, i);
    }
  }

  /** A key that is not set in an engine stays there as it was, or stays away. */
  lemma {:induction false} UnsetKeysStay<K, L, V>(world: map<L, map<K, V>>, kvs: seq<(K, V)>, places: seq<Option<L>>,
                                                  n: nat, e: L, k: K)
    requires n <= |kvs| == |places|
    requires forall j | 0 <= j < n && places[j] == Some(e) :: kvs[j].0 != k
    ensures var db, db0 := DbAt(Sequential(world, kvs, places, n), e), DbAt(world, e);
      (k in db <==> k in db0) && (k in db0 ==> db[k] == db0[k])
  {
    if n > 0 {
      SequentialStep(world, kvs, places, n - 1, e);
      UnsetKeysStay(world, kvs, places, n - 1, e, k);
    }
  }

  /** One write batch: all puts in order, or nothing. */
  method WriteBatch<K(==), V>(db0: map<K, V>, batch: seq<(K, V)>, ok: bool) returns (db: map<K, V>)
    ensures db == if ok then PutAll(db0, batch) else db0
  {
    db := db0;
    if !ok {
      return;
    }
    for j := 0 to |batch|
      invariant db == PutAll(db0, batch[..j])
    {
      assert batch[..j + 1] == batch[..j] + [batch[j]];
      PutOneMore(db0, batch[..j], batch[j]);
      db := db[batch[j].0 := batch[j].1];
    }
    assert batch[..|batch|] == batch;
  }

  function KeysOf<K, V>(kvs: seq<(K, V)>): (keys: seq<K>)
    ensures |keys| == |kvs|
  {
    seq(|kvs|, i requires 0 <= i < |kvs| => kvs[i].0)
  }

  /** A position writes to its engine if it has one, was not refused, and the batch went through. */
  function Places<L>(engines: seq<Option<L>>, deny: nat -> bool, ok: L -> bool): (places: seq<Option<L>>)
    ensures |places| == |engines|
  {
    seq(|engines|, i requires 0 <= i < |engines| =>
      if engines[i].Some? && !deny(i) && ok(engines[i].value) then engines[i] else None)
  }

  function Allowed(at: seq<nat>, deny: nat -> bool): seq<nat> {
    if at == [] then []
    else Allowed(at[..|at| - 1], deny) + (if deny(at[|at| - 1]) then [] else [at[|at| - 1]])
  }

  lemma AllowedGrows(at: seq<nat>, deny: nat -> bool, i: nat)
    ensures Allowed(at + [i], deny) == if deny(i) then Allowed(at, deny) else Allowed(at, deny) + [i]
  {
    assert (at + [i])[..|at|] == at;
  }

  lemma {:induction false} AllowedContains(at: seq<nat>, deny: nat -> bool, i: nat)
    ensures i in Allowed(at, deny) <==> i in at && !deny(i)
  {
    if at != [] {
      AllowedContains(at[..|at| - 1], deny, i);
      assert at == at[..|at| - 1] + [at[|at| - 1]];
    }
  }

  lemma {:induction false} AllowedAscends(at: seq<nat>, deny: nat -> bool)
    requires Ascending(at)
    ensures Ascending(Allowed(at, deny))
  {
    if at != [] {
      var before, last := at[..|at| - 1], at[|at| - 1];
      AllowedAscends(before, deny);
      var allowed := Allowed(before, deny);
      forall a | 0 <= a < |allowed|
        ensures allowed[a] < last
      {
        assert allowed[a] in allowed;
        AllowedContains(before, deny, allowed[a]);
      }
    }
  }

  ghost predicate ArePlaces<L>(engines: seq<Option<L>>, deny: nat -> bool, ok: L -> bool, places: seq<Option<L>>) {
    && |places| == |engines|
    && (forall i | 0 <= i < |engines| ::
      places[i] == if engines[i].Some? && !deny(i) && ok(engines[i].value) then engines[i] else None)
  }

  /** The sets an engine lets pass are the ones placed there if its batch goes through. */
  lemma AllowedArePlaced<L>(engines: seq<Option<L>>, deny: nat -> bool, ok: L -> bool, places: seq<Option<L>>, e: L)
    requires ArePlaces(engines, deny, ok, places)
    ensures At(places, |places|, e) == if ok(e) then Allowed(At(engines, |engines|, e), deny) else []
  {
    var at, placed := At(engines, |engines|, e), At(places, |places|, e);
    forall i
      ensures i in placed <==> ok(e) && i in Allowed(at, deny)
    {
      AtContains(places, |places|, e, i);
      AtContains(engines, |engines|, e, i);
      AllowedContains(at, deny, i);
    }
    AtAscends(places, |places|, e);
    AtAscends(engines, |engines|, e);
    AllowedAscends(at, deny);
    AscendingUnique(placed, if ok(e) then Allowed(at, deny) else []);
  }

  /** The items of one engine that are not refused, as a batch and as the positions they came from. */
  method SplitItems<K, V>(kvs: seq<(K, V)>, ghost at: seq<nat>, ghost deny: nat -> bool, items: seq<Item<K>>)
    returns (batch: seq<(K, V)>, passed: seq<nat>)
    requires forall i | i in at :: i < |kvs|
    requires items == Items(KeysOf(kvs), deny, at)
    ensures passed == Allowed(at, deny) && (forall i | i in passed :: i < |kvs|) && batch == Writes(kvs, passed)
  {
    batch, passed := [], [];
    for j := 0 to |items|
      invariant passed == Allowed(at[..j], deny)
      invariant forall i | i in passed :: i < |kvs|
      invariant batch == Writes(kvs, passed)
    {
      var item := items[j];
      NextAllowed(kvs, at, deny, j);
      if !item.denied {
        WritesAppend(kvs, passed, item.index);
        batch := batch + [(item.key, kvs[item.index].1)];
        passed := passed + [item.index];
      }
    }
    assert at[..|items|] == at;
  }

  lemma NextAllowed<K, V>(kvs: seq<(K, V)>, at: seq<nat>, deny: nat -> bool, j: nat)
    requires j < |at| && forall i | i in at :: i < |kvs|
    ensures at[j] < |kvs| && Items(KeysOf(kvs), deny, at)[j] == Item(kvs[at[j]].0, at[j], deny(at[j]))
    ensures Allowed(at[..j + 1], deny) ==
      if deny(at[j]) then Allowed(at[..j], deny) else Allowed(at[..j], deny) + [at[j]]
  {
    assert at[j] in at;
    assert at[..j + 1] == at[..j] + [at[j]];
    AllowedGrows(at[..j], deny, at[j]);
  }

  /** Positions are reported back as themselves when their batch went through. */
  method Report(passed: seq<nat>, ok: bool, result0: seq<int>) returns (result: seq<int>)
    requires forall i | i in passed :: i < |result0|
    ensures |result| == |result0|
    ensures forall i | 0 <= i < |result| :: result[i] == if i in passed then (if ok then i else -1) else result0[i]
  {
    result := result0;
    for j := 0 to |passed|
      invariant |result| == |result0|
      invariant forall i | 0 <= i < |result| ::
        result[i] == if i in passed[..j] then (if ok then i else -1) else result0[i]
    {
      assert passed[j] in passed;
      assert passed[..j + 1] == passed[..j] + [passed[j]];
      result := result[passed[j] := if ok then passed[j] else -1];
    }
    assert passed[..|passed|] == passed;
  }

  /** The answers and stores when the engines in `done` have written. */
  ghost predicate Reported<L>(places: seq<Option<L>>, done: seq<L>, result: seq<int>) {
    && |result| == |places|
    && (forall i | 0 <= i < |places| :: result[i] == if places[i].Some? && places[i].value in done then i else -1)
  }

  ghost predicate Written<K, L(!new), V>(world0: map<L, map<K, V>>, kvs: seq<(K, V)>, places: seq<Option<L>>,
                                         done: seq<L>, world: map<L, map<K, V>>)
    requires |kvs| == |places|
  {
    forall e ::
      DbAt(world, e) ==
      if e in done then PutAll(DbAt(world0, e), Writes(kvs, At(places, |kvs|, e))) else DbAt(world0, e)
  }

  lemma ReportedOneMore<L>(places: seq<Option<L>>, done: seq<L>, e: L, passed: seq<nat>, ok: bool, result0: seq<int>,
                           result: seq<int>)
    requires Reported(places, done, result0) && |result| == |result0|
    requires forall i | 0 <= i < |result| :: result[i] == if i in passed then (if ok then i else -1) else result0[i]
    requires At(places, |places|, e) == if ok then passed else []
    requires forall i | i in passed :: i < |places| && result0[i] == -1
    ensures Reported(places, done + [e], result)
  {
    forall i | 0 <= i < |places|
      ensures result[i] == if places[i].Some? && places[i].value in done + [e] then i else -1
    {
      AtContains(places, |places|, e, i);
    }
  }

  lemma RefusedAreUnreported<L>(engines: seq<Option<L>>, deny: nat -> bool, ok: L -> bool, places: seq<Option<L>>,
                                e: L, done: seq<L>, result: seq<int>)
    requires ArePlaces(engines, deny, ok, places) && Reported(places, done, result) && e !in done
    ensures forall i | i in Allowed(At(engines, |engines|, e), deny) :: i < |engines| && result[i] == -1
  {
    forall i | i in Allowed(At(engines, |engines|, e), deny)
      ensures i < |engines| && result[i] == -1
    {
      AllowedContains(At(engines, |engines|, e), deny, i);
      AtContains(engines, |engines|, e, i);
    }
  }

  method WriteEngine<K(==), L(==, !new), V>(kvs: seq<(K, V)>, ghost engines: seq<Option<L>>, deny: nat -> bool,
                                            ok: L -> bool, e: L, items: seq<Item<K>>, ghost world0: map<L, map<K, V>>,
                                            ghost done: seq<L>, result0: seq<int>, world1: map<L, map<K, V>>)
    returns (result: seq<int>, world: map<L, map<K, V>>)
    requires |engines| == |kvs| && items == Items(KeysOf(kvs), deny, At(engines, |kvs|, e)) && e !in done
    requires Reported(Places(engines, deny, ok), done, result0)
    requires Written(world0, kvs, Places(engines, deny, ok), done, world1)
    ensures Reported(Places(engines, deny, ok), done + [e], result)
    ensures Written(world0, kvs, Places(engines, deny, ok), done + [e], world)
  {
    var batch, passed := SplitItems(kvs, At(engines, |kvs|, e), deny, items);
    var db := WriteBatch(DbAt(world1, e), batch, ok(e));
    world := world1[e := db];
    result := Report(passed, ok(e), result0);
    ghost var places := Places(engines, deny, ok);
    AllowedArePlaced(engines, deny, ok, places, e);
    RefusedAreUnreported(engines, deny, ok, places, e, done, result0);
    ReportedOneMore(places, done, e, passed, ok(e), result0, result);
  }

  lemma AllEnginesWritten<K, L(!new), V>(world0: map<L, map<K, V>>, kvs: seq<(K, V)>, engines: seq<Option<L>>,
                                         deny: nat -> bool, ok: L -> bool, tasks: map<L, seq<Item<K>>>, done: seq<L>,
                                         result: seq<int>, world: map<L, map<K, V>>)
    requires |engines| == |kvs| && Dispatched(KeysOf(kvs), engines, deny, |kvs|, tasks)
    requires forall e :: e in done <==> e in tasks
    requires Reported(Places(engines, deny, ok), done, result)
    requires Written(world0, kvs, Places(engines, deny, ok), done, world)
    ensures forall i | 0 <= i < |kvs| :: result[i] == if Places(engines, deny, ok)[i].Some? then i else -1
    ensures forall e :: DbAt(world, e) == DbAt(Sequential(world0, kvs, Places(engines, deny, ok), |kvs|), e)
  {
    var places := Places(engines, deny, ok);
    forall e
      ensures DbAt(world, e) == DbAt(Sequential(world0, kvs, places, |kvs|), e)
    {
      SequentialPerEngine(world0, kvs, places, |kvs|, e);
      if e !in done {
        AtNothing(places, |kvs|, e);
      }
    }
  }

  /** Position i sets key k in engine e. */
  ghost predicate Sets<K, L, V>(kvs: seq<(K, V)>, engineOf: K -> Option<L>, deny: nat -> bool, ok: L -> bool,
                                e: L, k: K, i: nat)
  {
    i < |kvs| && kvs[i].0 == k && engineOf(k) == Some(e) && !deny(i) && ok(e)
  }

  /** An engine holds of each key the last value that was set, and what it held where none was. */
  ghost predicate Settled<K, L, V>(world0: map<L, map<K, V>>, kvs: seq<(K, V)>, engineOf: K -> Option<L>,
                                   deny: nat -> bool, ok: L -> bool, world: map<L, map<K, V>>, e: L, k: K)
  {
    var db0, db := DbAt(world0, e), DbAt(world, e);
    && (forall i: nat | Sets(kvs, engineOf, deny, ok, e, k, i) &&
                        (forall j: nat | i < j :: !Sets(kvs, engineOf, deny, ok, e, k, j)) ::
      k in db && db[k] == kvs[i].1)
    && ((forall i: nat :: !Sets(kvs, engineOf, deny, ok, e, k, i)) ==>
      (k in db <==> k in db0) && (k in db0 ==> db[k] == db0[k]))
  }

  lemma SequentialSettles<K, L, V>(world0: map<L, map<K, V>>, kvs: seq<(K, V)>, engineOf: K -> Option<L>,
                                   deny: nat -> bool, ok: L -> bool, world: map<L, map<K, V>>, e: L, k: K)
    requires var places := Places(EnginesOf(KeysOf(kvs), engineOf), deny, ok);
      DbAt(world, e) == DbAt(Sequential(world0, kvs, places, |kvs|), e)
    ensures Settled(world0, kvs, engineOf, deny, ok, world, e, k)
  {
    var places := Places(EnginesOf(KeysOf(kvs), engineOf), deny, ok);
    forall i: nat | i < |kvs|
      ensures places[i] == Some(e) && kvs[i].0 == k <==> Sets(kvs, engineOf, deny, ok, e, k, i)
    {
      assert EnginesOf(KeysOf(kvs), engineOf)[i] == engineOf(kvs[i].0);
    }
    forall i: nat | Sets(kvs, engineOf, deny, ok, e, k, i) &&
                    forall j: nat | i < j :: !Sets(kvs, engineOf, deny, ok, e, k, j)
      ensures k in DbAt(world, e) && DbAt(world, e)[k] == kvs[i].1
    {
      LastSetWins(world0, kvs, places, |kvs|, e, i);
    }
    if forall i: nat :: !Sets(kvs, engineOf, deny, ok, e, k, i) {
      UnsetKeysStay(world0, kvs, places, |kvs|, e, k);
    }
  }

  lemma AllSettle<K(!new), L(!new), V>(world0: map<L, map<K, V>>, kvs: seq<(K, V)>, engineOf: K -> Option<L>,
                                       deny: nat -> bool, ok: L -> bool, world: map<L, map<K, V>>)
    requires var places := Places(EnginesOf(KeysOf(kvs), engineOf), deny, ok);
      forall e :: DbAt(world, e) == DbAt(Sequential(world0, kvs, places, |kvs|), e)
    ensures forall e, k :: Settled(world0, kvs, engineOf, deny, ok, world, e, k)
  {
    forall e, k
      ensures Settled(world0, kvs, engineOf, deny, ok, world, e, k)
    {
      SequentialSettles(world0, kvs, engineOf, deny, ok, world, e, k);
    }
  }

  lemma NothingWritten<K, L(!new), V>(world0: map<L, map<K, V>>, kvs: seq<(K, V)>, places: seq<Option<L>>,
                                      result: seq<int>)
    requires |kvs| == |places| == |result| && forall i | 0 <= i < |result| :: result[i] == -1
    ensures Reported(places, [], result) && Written(world0, kvs, places, [], world0)
  {
  }

  lemma NextInWalk<L(!new)>(order: seq<L>, s: set<L>, m: nat)
    requires Enumerates(order, s) && m < |order|
    ensures order[m] in s && order[m] !in order[..m] && order[..m + 1] == order[..m] + [order[m]]
  {
    assert order[m] in order;
  }

  /** The batches of all engines, in the order of the walk. */
  method WriteAll<K(==), L(==, !new), V>(kvs: seq<(K, V)>, ghost engines: seq<Option<L>>, deny: nat -> bool,
                                         ok: L -> bool, world0: map<L, map<K, V>>, tasks: map<L, seq<Item<K>>>,
                                         order: seq<L>)
    returns (result: seq<int>, world: map<L, map<K, V>>)
    requires |engines| == |kvs| && Dispatched(KeysOf(kvs), engines, deny, |kvs|, tasks) && Enumerates(order, tasks.Keys)
    ensures var places := Places(engines, deny, ok);
      && |result| == |kvs|
      && (forall i | 0 <= i < |kvs| :: result[i] == if places[i].Some? then i else -1)
      && (forall e :: DbAt(world, e) == DbAt(Sequential(world0, kvs, places, |kvs|), e))
  {
    result := seq(|kvs|, _ => -1);
    world := world0;
    NothingWritten(world0, kvs, Places(engines, deny, ok), result);
    assert order[..0] == [];
    for m := 0 to |order|
      invariant Reported(Places(engines, deny, ok), order[..m], result)
      invariant Written(world0, kvs, Places(engines, deny, ok), order[..m], world)
    {
      var e := order[m];
      NextInWalk(order, tasks.Keys, m);
      result, world := WriteEngine(kvs, engines, deny, ok, e, tasks[e], world0, order[..m], result, world);
    }
    assert order[..|order|] == order;
    AllEnginesWritten(world0, kvs, engines, deny, ok, tasks, order, result, world);
  }

  /** mset: engine by engine in any order, one batch each, is the admitted sets run one by one in
      request order; an admitted position is answered with itself, any other with -1. */
  method MSet<K(==, !new), L(==, !new), V>(kvs: seq<(K, V)>, engineOf: K -> Option<L>, deny: nat -> bool,
                                           ok: L -> bool, world0: map<L, map<K, V>>, walk: set<L> -> seq<L>)
    returns (result: seq<int>, world: map<L, map<K, V>>)
    requires forall s :: Enumerates(walk(s), s)
    ensures var places := Places(EnginesOf(KeysOf(kvs), engineOf), deny, ok);
      && |result| == |kvs|
      && (forall i | 0 <= i < |kvs| :: result[i] == if places[i].Some? then i else -1)
      && (forall e :: DbAt(world, e) == DbAt(Sequential(world0, kvs, places, |kvs|), e))
    ensures forall i | 0 <= i < |kvs| ::
      var e := engineOf(kvs[i].0);
      result[i] == if e.Some? && !deny(i) && ok(e.value) then i else -1
    ensures forall e, k :: Settled(world0, kvs, engineOf, deny, ok, world, e, k)
  {
    var keys := KeysOf(kvs);
    var tasks := DispatchRequest(keys, engineOf, deny);
    result, world := WriteAll(kvs, EnginesOf(keys, engineOf), deny, ok, world0, tasks, walk(tasks.Keys));
    AllSettle(world0, kvs, engineOf, deny, ok, world);
  }
}
