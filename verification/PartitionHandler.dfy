/** The handler itself (server/partition_handler.cc), driven by one thread: loadBaseData and
    loadDeltaData call triggerLoadData, which calls them back until the queue is empty.

    `Load` and `Drain` say what a call computes, `DrainIsFifo` what that means, and
    `SequentialRun` that it is one of the runs of the concurrent machine. */
module PartitionHandlers {
  import opened Common
  import opened PartitionLoad

  /** The state of a handler and how many ingests it has attempted; the i-th one answers `ok(i)`. */
  datatype Progress = Progress(node: Node, attempts: nat)

  // ---------------------------------------------------------------- specification

  function LoadDelta(p: Progress, version: Version, ok: nat -> bool): Progress {
    if version in p.node.deltas then p
    else if !ok(p.attempts) then p.(attempts := p.attempts + 1)
    else
      var n := IngestDelta(p.node, version, true);
      Progress(n.(deltas := n.deltas + [version]), p.attempts + 1)
  }

  function LoadDeltas(p: Progress, versions: seq<Version>, ok: nat -> bool): (r: Progress)
    ensures r.node.queue == p.node.queue && r.node.status == p.node.status && r.node.base == p.node.base
    ensures r.node.savedBase == p.node.savedBase
    decreases versions
  {
    if versions == [] then p else LoadDeltas(LoadDelta(p, versions[0], ok), versions[1..], ok)
  }

  /** A load that is neither queued nor followed by another one. */
  function LoadOnce(p: Progress, info: LoadInfo, ok: nat -> bool): Progress {
    match info
    case BaseLoad(version) =>
      if p.node.base == version then p
      else Progress(FinishBase(p.node, version, ok(p.attempts)), p.attempts + 1)
    case DeltaLoad(base, versions) =>
      if p.node.base != base then p
      else
        var q := LoadDeltas(p.(node := p.node.(status := DeltaLoading)), versions, ok);
        q.(node := FinishDelta(q.node))
  }

  /** Whether a request is put back into the queue (or dropped) instead of being served. */
  predicate Postponed(n: Node, info: LoadInfo) {
    !CanLoad(n) && !(info.BaseLoad? && n.base == info.base)
  }

  function Load(p: Progress, info: LoadInfo, ok: nat -> bool): Progress
    decreases |p.node.queue|, 1
  {
    if Postponed(p.node, info) then p.(node := Enqueue(p.node, info).node)
    else if info.BaseLoad? && p.node.base == info.base then Drain(p, ok)
    else Drain(LoadOnce(p, info, ok), ok)
  }

  function Drain(p: Progress, ok: nat -> bool): Progress
    decreases |p.node.queue|, 0
  {
    if p.node.queue == [] then p
    else Load(WithQueue(p, p.node.queue[1..]), p.node.queue[0], ok)
  }

  function LoadAll(p: Progress, infos: seq<LoadInfo>, ok: nat -> bool): Progress
    decreases infos
  {
    if infos == [] then p else LoadAll(LoadOnce(p, infos[0], ok), infos[1..], ok)
  }

  function WithQueue(p: Progress, q: seq<LoadInfo>): Progress {
    p.(node := p.node.(queue := q))
  }

  // ---------------------------------------------------------------- what a call means

  lemma LoadOnceKeepsQueue(p: Progress, info: LoadInfo, ok: nat -> bool, q: seq<LoadInfo>)
    requires CanLoad(p.node)
    ensures CanLoad(LoadOnce(p, info, ok).node) && LoadOnce(p, info, ok).node.queue == p.node.queue
    ensures LoadOnce(WithQueue(p, q), info, ok) == WithQueue(LoadOnce(p, info, ok), q)
  {
    if info.DeltaLoad? && p.node.base == info.base {
      LoadDeltasIgnoresQueue(p.(node := p.node.(status := DeltaLoading)), info.deltas, ok, q);
    }
  }

  lemma {:induction false} LoadDeltasIgnoresQueue(p: Progress, versions: seq<Version>, ok: nat -> bool,
                                                  q: seq<LoadInfo>)
    ensures LoadDeltas(WithQueue(p, q), versions, ok) == WithQueue(LoadDeltas(p, versions, ok), q)
    decreases versions
  {
    if versions != [] {
      LoadDeltasIgnoresQueue(LoadDelta(p, versions[0], ok), versions[1..], ok, q);
    }
  }

  /** Driven by one thread, a load serves the request and then everything queued before it, in
      order, and leaves the queue empty and the handler ready. */
  lemma {:induction false} DrainIsFifo(p: Progress, info: LoadInfo, ok: nat -> bool)
    requires CanLoad(p.node)
    ensures Load(p, info, ok) == LoadAll(WithQueue(p, []), [info] + p.node.queue, ok)
    ensures CanLoad(Load(p, info, ok).node) && Load(p, info, ok).node.queue == []
    decreases |p.node.queue|
  {
    var q := p.node.queue;
    var r := LoadOnce(p, info, ok);
    LoadOnceKeepsQueue(p, info, ok, []);
    assert Load(p, info, ok) == Drain(r, ok);
    assert ([info] + q)[1..] == q;
    var empty := WithQueue(p, []);
    if q == [] {
      assert LoadAll(empty, [info] + q, ok) == LoadOnce(empty, info, ok);
    } else {
      var next := WithQueue(r, q[1..]);
      DrainIsFifo(next, q[0], ok);
      assert [q[0]] + q[1..] == q;
    }
  }

  // ---------------------------------------------------------------- link to the machine

  lemma OneMore(s: State, t: nat, ok: bool, rest: seq<Event>) returns (es: seq<Event>)
    requires Enabled(s, Advance(t, ok)) && ValidRun(Step(s, Advance(t, ok)), rest)
    ensures ValidRun(s, es) && Run(s, es) == Run(Step(s, Advance(t, ok)), rest)
  {
    RunCons(s, Advance(t, ok), rest);
    es := [Advance(t, ok)] + rest;
  }

  lemma {:induction false} DeltaRun(s: State, t: nat, p: Progress, base: Version, versions: seq<Version>, next: nat,
                                    ok: nat -> bool)
    returns (es: seq<Event>)
    requires s.node == p.node && t < |s.threads| && next <= |versions|
    requires s.threads[t] == DeltaScan(base, versions, next)
    ensures ValidRun(s, es)
    ensures Run(s, es).node == LoadDeltas(p, versions[next..], ok).node
    ensures Run(s, es).threads == s.threads[t := DeltaScan(base, versions, |versions|)]
    decreases |versions| - next
  {
    if next == |versions| {
      assert versions[next..] == [];
      es := [];
    } else {
      var p' := LoadDelta(p, versions[next], ok);
      assert versions[next..][0] == versions[next] && versions[next..][1..] == versions[next + 1..];
      var s1 := Step(s, Advance(t, true));
      if versions[next] in p.node.deltas {
        es := DeltaRun(s1, t, p', base, versions, next + 1, ok);
      } else if !ok(p.attempts) {
        var s2 := Step(s1, Advance(t, false));
        es := DeltaRun(s2, t, p', base, versions, next + 1, ok);
        es := OneMore(s1, t, false, es);
      } else {
        var s2 := Step(s1, Advance(t, true));
        var s3 := Step(s2, Advance(t, true));
        es := DeltaRun(s3, t, p', base, versions, next + 1, ok);
        es := OneMore(s2, t, true, es);
        es := OneMore(s1, t, true, es);
      }
      es := OneMore(s, t, true, es);
    }
  }

  /** What one load does before it triggers the next one is a run of its thread. */
  lemma LoadOnceRun(s: State, t: nat, p: Progress, info: LoadInfo, ok: nat -> bool) returns (es: seq<Event>)
    requires s.node == p.node && t < |s.threads| && s.threads[t] == Entering(info)
    requires !Postponed(p.node, info)
    ensures ValidRun(s, es)
    ensures Run(s, es).node ==
      if info.BaseLoad? && p.node.base == info.base then p.node else LoadOnce(p, info, ok).node
    ensures Run(s, es).threads == s.threads[t := Trigger]
  {
    var s1 := Step(s, Advance(t, true));
    if s1.threads[t] == Trigger {
      es := OneMore(s, t, true, []);
    } else if info.BaseLoad? {
      var s2 := Step(s1, Advance(t, ok(p.attempts)));
      es := OneMore(s2, t, true, []);
      es := OneMore(s1, t, ok(p.attempts), es);
      es := OneMore(s, t, true, es);
    } else {
      var p1 := p.(node := p.node.(status := DeltaLoading));
      es := DeltaRun(s1, t, p1, info.base, info.deltas, 0, ok);
      assert info.deltas[0..] == info.deltas;
      var s2 := Run(s1, es);
      RunCons(s2, Advance(t, true), []);
      RunAppend(s1, es, [Advance(t, true)] + []);
      es := OneMore(s, t, true, es + ([Advance(t, true)] + []));
    }
  }

  /** A call of the handler is one thread of the machine running alone until it returns, from any
      state of the machine and whatever the other threads are doing. */
  lemma {:induction false} SequentialRun(s: State, t: nat, p: Progress, info: LoadInfo, ok: nat -> bool)
    returns (es: seq<Event>)
    requires s.node == p.node && t < |s.threads| && s.threads[t] == Entering(info)
    ensures ValidRun(s, es)
    ensures Run(s, es).node == Load(p, info, ok).node
    ensures Run(s, es).threads == s.threads[t := Done]
    decreases |p.node.queue|
  {
    if Postponed(p.node, info) {
      es := OneMore(s, t, true, []);
    } else {
      var same := info.BaseLoad? && p.node.base == info.base;
      var p1 := if same then p else LoadOnce(p, info, ok);
      es := LoadOnceRun(s, t, p, info, ok);
      var s1 := Run(s, es);
      var rest: seq<Event>;
      if p1.node.queue == [] {
        rest := OneMore(s1, t, true, []);
      } else {
        var s2 := Step(s1, Advance(t, true));
        var p2 := WithQueue(p1, p1.node.queue[1..]);
        rest := SequentialRun(s2, t, p2, p1.node.queue[0], ok);
        rest := OneMore(s1, t, true, rest);
      }
      RunAppend(s, es, rest);
      es := es + rest;
    }
  }

  // ---------------------------------------------------------------- what a call leaves

  /** One ingest and how it ended. */
  datatype Ingest = IngestOfBase(base: Version, ok: bool) | IngestOfDelta(delta: Version, ok: bool)

  /** What the handler serves. */
  datatype Served = Served(base: Version, deltas: seq<Version>, engine: Option<Version>)

  /** The ingests one after the other: a base that went in replaces everything, a delta that went in
      comes on top, a failed ingest changes nothing. */
  function Replay(d: Served, log: seq<Ingest>): Served
    decreases log
  {
    if log == [] then d
    else
      var before := Replay(d, log[..|log| - 1]);
      match log[|log| - 1]
      case IngestOfBase(v, ok) => if ok then Served(v, [], Some(v)) else before
      case IngestOfDelta(v, ok) => if ok then before.(deltas := before.deltas + [v]) else before
  }

  lemma ReplaySingle(d: Served, i: Ingest)
    ensures Replay(d, [i]) ==
      if !i.ok then d
      else if i.IngestOfBase? then Served(i.base, [], Some(i.base))
      else d.(deltas := d.deltas + [i.delta])
  {
    assert [i][..0] == [];
  }

  lemma ReplayOne(d: Served, log: seq<Ingest>, last: Ingest)
    ensures Replay(d, log + [last]) ==
      var before := Replay(d, log);
      if !last.ok then before
      else if last.IngestOfBase? then Served(last.base, [], Some(last.base))
      else before.(deltas := before.deltas + [last.delta])
  {
    assert (log + [last])[..|log|] == log;
  }

  lemma {:induction false} ReplayConcat(d: Served, x: seq<Ingest>, y: seq<Ingest>)
    ensures Replay(d, x + y) == Replay(Replay(d, x), y)
    decreases y
  {
    if y == [] {
      assert x + y == x;
    } else {
      var n := |y| - 1;
      ReplayConcat(d, x, y[..n]);
      assert x + y == x + y[..n] + [y[n]];
      ReplayOne(d, x + y[..n], y[n]);
    }
  }

  /** The log has one entry for each of the attempts from one on, with the answer it got. */
  predicate Answered(log: seq<Ingest>, from: nat, to: nat, ok: nat -> bool)
    decreases log
  {
    if log == [] then to == from
    else from < to && log[|log| - 1].ok == ok(to - 1) && Answered(log[..|log| - 1], from, to - 1, ok)
  }

  lemma {:induction false} AnsweredConcat(x: seq<Ingest>, y: seq<Ingest>, a: nat, b: nat, c: nat, ok: nat -> bool)
    requires Answered(x, a, b, ok) && Answered(y, b, c, ok)
    ensures Answered(x + y, a, c, ok)
    decreases y
  {
    if y == [] {
      assert x + y == x;
    } else {
      AnsweredConcat(x, y[..|y| - 1], a, b, c - 1, ok);
      AnsweredAfter(y, b, c, ok);
      AnsweredAfter(x, a, b, ok);
      assert (x + y)[..|x + y| - 1] == x + y[..|y| - 1];
    }
  }

  lemma {:induction false} AnsweredAfter(log: seq<Ingest>, from: nat, to: nat, ok: nat -> bool)
    requires Answered(log, from, to, ok)
    ensures from <= to
    decreases log
  {
    if log != [] {
      AnsweredAfter(log[..|log| - 1], from, to - 1, ok);
    }
  }

  predicate NoNewBase(log: seq<Ingest>) {
    forall k | 0 <= k < |log| :: !(log[k].IngestOfBase? && log[k].ok)
  }

  /** Without a new base the base stays, and the deltas are those of before and those that went in. */
  lemma {:induction false} ReplayDeltas(d: Served, log: seq<Ingest>, v: Version)
    requires NoNewBase(log)
    ensures var r := Replay(d, log);
      r.base == d.base && (v in r.deltas <==> v in d.deltas || IngestOfDelta(v, true) in log)
    decreases log
  {
    if log != [] {
      var n := |log| - 1;
      ReplayDeltas(d, log[..n], v);
      assert log == log[..n] + [log[n]];
    }
  }

  predicate Tried(log: seq<Ingest>, v: Version) {
    IngestOfDelta(v, true) in log || IngestOfDelta(v, false) in log
  }

  /** Every version asked for that was not there before has been tried. */
  predicate AllTried(deltas: seq<Version>, versions: seq<Version>, log: seq<Ingest>) {
    forall v | v in versions :: v in deltas || Tried(log, v)
  }

  lemma TriedStays(deltas: seq<Version>, versions: seq<Version>, log: seq<Ingest>, more: seq<Ingest>)
    requires AllTried(deltas, versions, log)
    ensures AllTried(deltas, versions, log + more)
  {
  }

  lemma TriedNext(d: Served, versions: seq<Version>, i: nat, log: seq<Ingest>, mine: seq<Ingest>)
    requires i < |versions| && NoNewBase(log) && NoNewBase(mine) && AllTried(d.deltas, versions[..i], log)
    requires versions[i] in Replay(d, log).deltas || Tried(mine, versions[i])
    ensures Replay(d, log + mine) == Replay(Replay(d, log), mine) && NoNewBase(log + mine)
    ensures AllTried(d.deltas, versions[..i + 1], log + mine)
  {
    ReplayConcat(d, log, mine);
    ReplayDeltas(d, log, versions[i]);
    TriedStays(d.deltas, versions[..i], log, mine);
    assert versions[..i + 1] == versions[..i] + [versions[i]];
  }

  /** A delta asked for is recorded unless its ingest failed. */
  lemma AskedIsRecorded(d: Served, versions: seq<Version>, log: seq<Ingest>)
    requires AllTried(d.deltas, versions, log) && NoNewBase(log)
    ensures forall v | v in versions :: v in Replay(d, log).deltas || IngestOfDelta(v, false) in log
  {
    forall v | v in versions
      ensures v in Replay(d, log).deltas || IngestOfDelta(v, false) in log
    {
      ReplayDeltas(d, log, v);
    }
  }

  // ---------------------------------------------------------------- the handler

  class PartitionHandler {
    var status: LoadStatus
    var queue: seq<LoadInfo>
    var base: Version
    var deltas: seq<Version>
    var engine: Option<Version>
    var savedBase: Version
    var savedDeltas: seq<Version>
    ghost var ingested: set<(Version, Version)>
    var attempts: nat
    const ok: nat -> bool

    ghost function View(): Progress
      reads this
    {
      Progress(Node(status, queue, base, deltas, engine, savedBase, savedDeltas, ingested), attempts)
    }

    ghost function Serving(): Served
      reads this
    {
      Served(base, deltas, engine)
    }

    /** The meta database has recorded what the handler serves. */
    ghost predicate Saved()
      reads this
    {
      savedBase == base && savedDeltas == deltas
    }

    ghost predicate Ready()
      reads this
    {
      status == BaseLoaded || status == DeltaLoaded
    }

    /** A handler after init() opened its engine on the recorded version. */
    constructor (version: Version, versions: seq<Version>, ok: nat -> bool)
      ensures this.ok == ok && attempts == 0 && Saved() && Ready()
      ensures View().node ==
        Node(BaseLoaded, [], version, versions, Some(version), version, versions, set v | v in versions :: (version, v))
    {
      status, queue, base, deltas, engine := BaseLoaded, [], version, versions, Some(version);
      savedBase, savedDeltas, attempts := version, versions, 0;
      ingested := set v | v in versions :: (version, v);
      this.ok := ok;
    }

    method TryIngest() returns (good: bool)
      modifies `attempts
      ensures good == ok(old(attempts)) && attempts == old(attempts) + 1
    {
      good := ok(attempts);
      attempts := attempts + 1;
    }

    method ExchangeBaseVersion(version: Version, versions: seq<Version>)
      modifies this
      ensures Serving() == Served(version, versions, Some(version)) && Saved()
      ensures View() == old(View()).(node := Exchange(old(View()).node, version, versions))
    {
      engine, base, deltas := Some(version), version, versions;
      savedBase, savedDeltas := version, deltas;
    }

    /** The options timer closes the engine and reopens it on what the meta database recorded. */
    method ReloadRocksDbEngine(opens: bool)
      modifies this
      ensures opens ==> Serving() == Served(savedBase, savedDeltas, Some(savedBase))
      ensures !opens ==> Serving() == old(Serving()).(engine := None)
      ensures savedBase == old(savedBase) && savedDeltas == old(savedDeltas)
      ensures status == old(status) && queue == old(queue)
      ensures View() == old(View()).(node := ReloadEngine(old(View()).node, opens))
    {
      engine := None;
      if opens {
        ExchangeBaseVersion(savedBase, savedDeltas);
      }
    }

    /** The ring keeps nine requests; one more is dropped. */
    method PostponeLoad(info: LoadInfo)
      modifies `queue
      ensures queue == if |old(queue)| < 9 then old(queue) + [info] else old(queue)
      ensures View() == old(View()).(node := Enqueue(old(View()).node, info).node)
    {
      if |queue| < QUEUE_CAPACITY {
        queue := queue + [info];
      }
    }

    /** A base that is not served yet is ingested first of all, and published if that succeeds. `log`
        are the ingests of a call, those of the requests it drains included. */
    method LoadBaseData(version: Version) returns (ghost log: seq<Ingest>)
      modifies this
      ensures View() == Load(old(View()), BaseLoad(version), ok)
      ensures Serving() == Replay(old(Serving()), log) && Answered(log, old(attempts), attempts, ok)
      ensures (old(Saved()) ==> Saved()) && (old(Ready()) ==> Ready())
      ensures old(Ready() && base != version) ==> log != [] && log[0] == IngestOfBase(version, ok(old(attempts)))
      ensures old(Ready() && base != version && queue == []) ==>
        status == BaseLoaded && base == if ok(old(attempts)) then version else old(base)
      decreases |queue|, 1
    {
      if base == version {
        log := TriggerLoadData();
        return;
      }
      if status != BaseLoaded && status != DeltaLoaded {
        PostponeLoad(BaseLoad(version));
        return [];
      }
      status := BaseLoading;
      var good := TryIngest();
      if good {
        ExchangeBaseVersion(version, []);
      }
      status := BaseLoaded;
      assert View() == LoadOnce(old(View()), BaseLoad(version), ok);
      ghost var mine := [IngestOfBase(version, good)];
      ReplaySingle(old(Serving()), IngestOfBase(version, good));
      ghost var rest := TriggerLoadData();
      ReplayConcat(old(Serving()), mine, rest);
      AnsweredConcat(mine, rest, old(attempts), old(attempts) + 1, attempts, ok);
      log := mine + rest;
    }

    /** Every delta asked for that is not there yet is ingested, and what went in is recorded before
        the next request is looked at. */
    method LoadDeltaData(baseVersion: Version, versions: seq<Version>) returns (ghost log: seq<Ingest>)
      modifies this
      ensures View() == Load(old(View()), DeltaLoad(baseVersion, versions), ok)
      ensures Serving() == Replay(old(Serving()), log) && Answered(log, old(attempts), attempts, ok)
      ensures (old(Saved()) ==> Saved()) && (old(Ready()) ==> Ready())
      ensures old(Ready() && base == baseVersion) ==> AllTried(old(deltas), versions, log)
      ensures old(Ready() && Saved() && base == baseVersion) && NoNewBase(log) ==>
        base == baseVersion && forall v | v in versions :: v in savedDeltas || IngestOfDelta(v, false) in log
      ensures old(Ready() && base == baseVersion && queue == []) ==> status == DeltaLoaded
      decreases |queue|, 1
    {
      if status != BaseLoaded && status != DeltaLoaded {
        PostponeLoad(DeltaLoad(baseVersion, versions));
        return [];
      }
      if base != baseVersion {
        log := TriggerLoadData();
        return;
      }
      status := DeltaLoading;
      ghost var mine := IngestDeltas(versions);
      ghost var middle := attempts;
      status := DeltaLoaded;
      savedDeltas := deltas;
      assert View() == LoadOnce(old(View()), DeltaLoad(baseVersion, versions), ok);
      ghost var rest := TriggerLoadData();
      ReplayConcat(old(Serving()), mine, rest);
      AnsweredConcat(mine, rest, old(attempts), middle, attempts, ok);
      TriedStays(old(deltas), versions, mine, rest);
      log := mine + rest;
      if NoNewBase(log) {
        AskedIsRecorded(old(Serving()), versions, log);
        ReplayDeltas(old(Serving()), log, baseVersion);
      }
    }

    method IngestDeltas(versions: seq<Version>) returns (ghost log: seq<Ingest>)
      modifies this
      ensures View() == LoadDeltas(old(View()), versions, ok)
      ensures Serving() == Replay(old(Serving()), log) && Answered(log, old(attempts), attempts, ok)
      ensures NoNewBase(log) && AllTried(old(deltas), versions, log)
    {
      log := [];
      for i := 0 to |versions|
        invariant LoadDeltas(View(), versions[i..], ok) == LoadDeltas(old(View()), versions, ok)
        invariant Serving() == Replay(old(Serving()), log) && NoNewBase(log)
        invariant Answered(log, old(attempts), attempts, ok)
        invariant AllTried(old(deltas), versions[..i], log)
      {
        assert versions[i..][1..] == versions[i + 1..];
        ghost var before := attempts;
        ghost var mine := IngestOne(versions[i]);
        AnsweredConcat(log, mine, old(attempts), before, attempts, ok);
        TriedNext(old(Serving()), versions, i, log, mine);
        log := log + mine;
      }
      assert versions[..|versions|] == versions;
    }

    method IngestOne(version: Version) returns (ghost log: seq<Ingest>)
      modifies `deltas, `ingested, `attempts
      ensures View() == LoadDelta(old(View()), version, ok)
      ensures Serving() == Replay(old(Serving()), log) && Answered(log, old(attempts), attempts, ok) && NoNewBase(log)
      ensures version in old(deltas) || Tried(log, version)
    {
      if version in deltas {
        return [];
      }
      var good := TryIngest();
      if good {
        if engine.Some? {
          ingested := ingested + {(engine.value, version)};
        }
        deltas := deltas + [version];
      }
      ReplaySingle(old(Serving()), IngestOfDelta(version, good));
      log := [IngestOfDelta(version, good)];
    }

    method TriggerLoadData() returns (ghost log: seq<Ingest>)
      modifies this
      ensures View() == Drain(old(View()), ok)
      ensures Serving() == Replay(old(Serving()), log) && Answered(log, old(attempts), attempts, ok)
      ensures (old(Saved()) ==> Saved()) && (old(Ready()) ==> Ready())
      ensures old(queue == []) ==> View() == old(View()) && log == []
      decreases |queue|, 0
    {
      if queue == [] {
        return [];
      }
      var info := queue[0];
      queue := queue[1..];
      match info
      case BaseLoad(version) => log := LoadBaseData(version);
      case DeltaLoad(baseVersion, versions) => log := LoadDeltaData(baseVersion, versions);
    }
  }
}
