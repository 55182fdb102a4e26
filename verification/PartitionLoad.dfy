/** Loading base and delta data into one partition (server/partition_handler.cc).

    Loader threads call loadBaseData and loadDeltaData on a shared handler. Everything a thread
    does under the spinlock, every unlocked touch of the queue or of the delta list, and every
    firing of the options timer is one atomic event here; any interleaving of events is a run. */
module PartitionLoad {
  import opened Common
  import opened Tally

  datatype LoadStatus = BaseLoaded | BaseLoading | DeltaLoaded | DeltaLoading

  datatype LoadInfo =
    | BaseLoad(base: Version)
    | DeltaLoad(base: Version, deltas: seq<Version>)

  // The ring holds one element less than the size it is created with.
  const QUEUE_SIZE: nat := 10
  const QUEUE_CAPACITY: nat := QUEUE_SIZE - 1

  /** What the handler keeps, and what the meta database persists for it (`savedBase`,
      `savedDeltas`). `engine` is the version the open engine serves; `ingested` records which
      delta was ever written into the data of which base version. */
  datatype Node = Node(
    status: LoadStatus,
    queue: seq<LoadInfo>,
    base: Version,
    deltas: seq<Version>,
    engine: Option<Version>,
    savedBase: Version,
    savedDeltas: seq<Version>,
    ingested: set<(Version, Version)>)

  /** Where a loader thread stands. */
  datatype PC =
    | Entering(info: LoadInfo)                                    // about to take the lock of a load
    | BaseIngest(version: Version)                                // ingestBaseData is running
    | BaseFinish(version: Version, ok: bool)                      // about to publish the new base
    | DeltaScan(base: Version, versions: seq<Version>, next: nat) // head of the delta loop
    | DeltaIngest(base: Version, versions: seq<Version>, next: nat)
    | DeltaRecord(base: Version, versions: seq<Version>, next: nat)
    | Trigger                                                     // about to read the queue
    | Done

  /** How a request left the handler. */
  datatype Settled =
    | Pending
    | Ran(info: LoadInfo)
    | Current(info: LoadInfo)  // the base is already served
    | Stale(info: LoadInfo)    // a delta for another base
    | Dropped(info: LoadInfo)  // the queue was full

  datatype Outcome = Outcome(node: Node, pc: PC, settled: Settled)

  datatype Ledger = Ledger(
    submitted: multiset<LoadInfo>,
    ran: multiset<LoadInfo>,
    current: multiset<LoadInfo>,
    stale: multiset<LoadInfo>,
    dropped: multiset<LoadInfo>)

  datatype State = State(node: Node, threads: seq<PC>, ledger: Ledger)

  datatype Event =
    | Submit(info: LoadInfo)
    | Advance(thread: nat, ok: bool)  // `ok`: what the ingest of this step answers
    | Reload(ok: bool)                // options timer; `ok`: whether the engine reopens

  // ---------------------------------------------------------------- steps

  predicate CanLoad(n: Node) {
    n.status == BaseLoaded || n.status == DeltaLoaded
  }

  function Enqueue(n: Node, info: LoadInfo): Outcome {
    if |n.queue| < QUEUE_CAPACITY
    then Outcome(n.(queue := n.queue + [info]), Done, Pending)
    else Outcome(n, Done, Dropped(info))
  }

  /** The locked first block of loadBaseData and of loadDeltaData. */
  function Enter(n: Node, info: LoadInfo): Outcome {
    match info
    case BaseLoad(version) =>
      if n.base == version then Outcome(n, Trigger, Current(info))
      else if !CanLoad(n) then Enqueue(n, info)
      else Outcome(n.(status := BaseLoading), BaseIngest(version), Pending)
    case DeltaLoad(base, versions) =>
      if !CanLoad(n) then Enqueue(n, info)
      else if n.base != base then Outcome(n, Trigger, Stale(info))
      else Outcome(n.(status := DeltaLoading), DeltaScan(base, versions, 0), Pending)
  }

  function Exchange(n: Node, version: Version, deltas: seq<Version>): Node {
    n.(base := version, deltas := deltas, engine := Some(version), savedBase := version, savedDeltas := deltas)
  }

  function FinishBase(n: Node, version: Version, ok: bool): Node {
    (if ok then Exchange(n, version, []) else n).(status := BaseLoaded)
  }

  function FinishDelta(n: Node): Node {
    n.(status := DeltaLoaded, savedDeltas := n.deltas)
  }

  /** ingestDeltaData. Without an open engine its status variable is never assigned, so the
      answer is whatever `ok` says although nothing was written. */
  function IngestDelta(n: Node, delta: Version, ok: bool): Node {
    if ok && n.engine.Some? then n.(ingested := n.ingested + {(n.engine.value, delta)}) else n
  }

  function ReloadEngine(n: Node, ok: bool): Node {
    if ok then Exchange(n, n.savedBase, n.savedDeltas) else n.(engine := None)
  }

  /** One atomic action of a thread. */
  function Act(n: Node, pc: PC, ok: bool): Outcome {
    match pc
    case Entering(info) => Enter(n, info)
    case BaseIngest(version) => Outcome(n, BaseFinish(version, ok), Pending)
    case BaseFinish(version, good) => Outcome(FinishBase(n, version, good), Trigger, Ran(BaseLoad(version)))
    case DeltaScan(base, versions, next) =>
      if next >= |versions| then Outcome(FinishDelta(n), Trigger, Ran(DeltaLoad(base, versions)))
      else if versions[next] in n.deltas then Outcome(n, DeltaScan(base, versions, next + 1), Pending)
      else Outcome(n, DeltaIngest(base, versions, next), Pending)
    case DeltaIngest(base, versions, next) =>
      if next >= |versions| then Outcome(n, pc, Pending)
      else if ok then Outcome(IngestDelta(n, versions[next], true), DeltaRecord(base, versions, next), Pending)
      else Outcome(n, DeltaScan(base, versions, next + 1), Pending)
    case DeltaRecord(base, versions, next) =>
      if next >= |versions| then Outcome(n, pc, Pending)
      else Outcome(n.(deltas := n.deltas + [versions[next]]), DeltaScan(base, versions, next + 1), Pending)
    case Trigger =>
      if n.queue == [] then Outcome(n, Done, Pending)
      else Outcome(n.(queue := n.queue[1..]), Entering(n.queue[0]), Pending)
    case Done => Outcome(n, Done, Pending)
  }

  function Settle(l: Ledger, settled: Settled): Ledger {
    match settled
    case Pending => l
    case Ran(info) => l.(ran := l.ran + multiset{info})
    case Current(info) => l.(current := l.current + multiset{info})
    case Stale(info) => l.(stale := l.stale + multiset{info})
    case Dropped(info) => l.(dropped := l.dropped + multiset{info})
  }

  predicate Enabled(s: State, e: Event) {
    e.Advance? ==> e.thread < |s.threads| && s.threads[e.thread] != Done
  }

  function Step(s: State, e: Event): State
    requires Enabled(s, e)
  {
    match e
    case Submit(info) =>
      State(s.node, s.threads + [Entering(info)], s.ledger.(submitted := s.ledger.submitted + multiset{info}))
    case Advance(t, ok) =>
      var o := Act(s.node, s.threads[t], ok);
      State(o.node, s.threads[t := o.pc], Settle(s.ledger, o.settled))
    case Reload(ok) => s.(node := ReloadEngine(s.node, ok))
  }

  predicate ValidRun(s: State, es: seq<Event>)
    decreases es
  {
    es == [] || (Enabled(s, es[0]) && ValidRun(Step(s, es[0]), es[1..]))
  }

  function Run(s: State, es: seq<Event>): State
    requires ValidRun(s, es)
    decreases es
  {
    if es == [] then s else Run(Step(s, es[0]), es[1..])
  }

  lemma RunCons(s: State, e: Event, es: seq<Event>)
    requires Enabled(s, e) && ValidRun(Step(s, e), es)
    ensures ValidRun(s, [e] + es) && Run(s, [e] + es) == Run(Step(s, e), es)
  {
    assert ([e] + es)[1..] == es;
  }

  lemma {:induction false} RunAppend(s: State, xs: seq<Event>, ys: seq<Event>)
    requires ValidRun(s, xs) && ValidRun(Run(s, xs), ys)
    ensures ValidRun(s, xs + ys) && Run(s, xs + ys) == Run(Run(s, xs), ys)
    decreases xs
  {
    if xs == [] {
      assert xs + ys == ys;
    } else {
      RunAppend(Step(s, xs[0]), xs[1..], ys);
      RunCons(s, xs[0], xs[1..] + ys);
      assert xs + ys == [xs[0]] + (xs[1..] + ys);
    }
  }

  /** A handler right after init() opened its engine on what the meta database recorded. */
  predicate Fresh(s: State) {
    && s.node.status == BaseLoaded && s.node.queue == [] && s.threads == []
    && s.node.base == s.node.savedBase && s.node.deltas == s.node.savedDeltas
    && s.node.engine == Some(s.node.base)
    && NoDuplicates(s.node.deltas)
    && Recorded(s.node)
    && s.ledger == Ledger(multiset{}, multiset{}, multiset{}, multiset{}, multiset{})
  }

  predicate NoDuplicates(vs: seq<Version>) {
    forall i, j | 0 <= i < j < |vs| :: vs[i] != vs[j]
  }

  // Every recorded delta was written into the data of the current base.
  predicate Recorded(n: Node) {
    forall d | d in n.deltas :: (n.base, d) in n.ingested
  }

  // ---------------------------------------------------------------- invariants

  predicate InBase(pc: PC) {
    pc.BaseIngest? || pc.BaseFinish?
  }

  predicate InDelta(pc: PC) {
    pc.DeltaScan? || pc.DeltaIngest? || pc.DeltaRecord?
  }

  function BaseCount(pc: PC): nat { if InBase(pc) then 1 else 0 }

  function DeltaCount(pc: PC): nat { if InDelta(pc) then 1 else 0 }

  /** Number of threads inside a base load and inside a delta load. */
  ghost predicate Exclusive(s: State) {
    && Sum(BaseCount, s.threads) == (if s.node.status == BaseLoading then 1 else 0)
    && Sum(DeltaCount, s.threads) == (if s.node.status == DeltaLoading then 1 else 0)
  }

  /** What a thread inside a delta load may rely on although it does not hold the lock. */
  predicate ThreadOk(n: Node, pc: PC) {
    && (pc.DeltaScan? ==> pc.base == n.base && pc.next <= |pc.versions|)
    && (pc.DeltaIngest? || pc.DeltaRecord? ==>
      pc.base == n.base && pc.next < |pc.versions| && pc.versions[pc.next] !in n.deltas)
  }

  ghost predicate ThreadsOk(s: State) {
    forall t | 0 <= t < |s.threads| :: ThreadOk(s.node, s.threads[t])
  }

  /** The memory of the handler and the meta database agree. */
  predicate Persisted(n: Node) {
    && n.savedBase == n.base
    && n.savedDeltas <= n.deltas
    && (n.status != DeltaLoading ==> n.savedDeltas == n.deltas)
    && NoDuplicates(n.deltas)
    && |n.queue| <= QUEUE_CAPACITY
  }

  ghost predicate Attended(s: State) {
    s.node.queue != [] ==> exists t :: 0 <= t < |s.threads| && s.threads[t] != Done
  }

  /** The request a thread is responsible for. */
  function Request(pc: PC): Option<LoadInfo> {
    match pc
    case Entering(info) => Some(info)
    case BaseIngest(version) => Some(BaseLoad(version))
    case BaseFinish(version, _) => Some(BaseLoad(version))
    case DeltaScan(base, versions, _) => Some(DeltaLoad(base, versions))
    case DeltaIngest(base, versions, _) => Some(DeltaLoad(base, versions))
    case DeltaRecord(base, versions, _) => Some(DeltaLoad(base, versions))
    case Trigger => None
    case Done => None
  }

  function Bag<T>(item: Option<T>): multiset<T> {
    if item.Some? then multiset{item.value} else multiset{}
  }

  function Held(pc: PC): multiset<LoadInfo> {
    Bag(Request(pc))
  }

  function Closed(l: Ledger): multiset<LoadInfo> {
    l.ran + l.current + l.stale + l.dropped
  }

  ghost predicate Conserved(s: State) {
    s.ledger.submitted == multiset(s.node.queue) + Gather(Held, s.threads) + Closed(s.ledger)
  }

  ghost predicate Inv(s: State) {
    Exclusive(s) && ThreadsOk(s) && Persisted(s.node) && Attended(s) && Conserved(s)
  }

  // ---------------------------------------------------------------- preservation

  /** A thread inside a load of one kind forces the matching status, and is alone in it. */
  lemma LoaderIsAlone(s: State, t: nat)
    requires Exclusive(s) && t < |s.threads|
    ensures InBase(s.threads[t]) ==> s.node.status == BaseLoading
    ensures InDelta(s.threads[t]) ==> s.node.status == DeltaLoading
    ensures InDelta(s.threads[t]) ==> forall u | 0 <= u < |s.threads| && u != t :: !InDelta(s.threads[u])
  {
    SumAtLeast(BaseCount, s.threads, t);
    SumAtLeast(DeltaCount, s.threads, t);
    if InDelta(s.threads[t]) {
      forall u | 0 <= u < |s.threads| && u != t
        ensures !InDelta(s.threads[u])
      {
        SumAtLeastTwo(DeltaCount, s.threads, if t < u then t else u, if t < u then u else t);
      }
    }
  }

  /** While the status is not loading, nobody is inside a load. */
  lemma NobodyLoads(s: State, t: nat)
    requires Exclusive(s) && t < |s.threads|
    ensures s.node.status != BaseLoading ==> !InBase(s.threads[t])
    ensures s.node.status != DeltaLoading ==> !InDelta(s.threads[t])
  {
    SumAtLeast(BaseCount, s.threads, t);
    SumAtLeast(DeltaCount, s.threads, t);
  }

  /** An action enters or leaves a load exactly when it sets or clears the matching status. */
  lemma ActKeepsCounts(n: Node, pc: PC, ok: bool)
    requires InBase(pc) ==> n.status == BaseLoading
    requires InDelta(pc) ==> n.status == DeltaLoading
    ensures var o := Act(n, pc, ok);
      && BaseCount(o.pc) - BaseCount(pc) ==
        (if o.node.status == BaseLoading then 1 else 0) - (if n.status == BaseLoading then 1 else 0)
      && DeltaCount(o.pc) - DeltaCount(pc) ==
        (if o.node.status == DeltaLoading then 1 else 0) - (if n.status == DeltaLoading then 1 else 0)
  {
  }

  lemma AdvanceKeepsExclusive(s: State, t: nat, ok: bool)
    requires Exclusive(s) && Enabled(s, Advance(t, ok))
    ensures Exclusive(Step(s, Advance(t, ok)))
  {
    var o := Act(s.node, s.threads[t], ok);
    LoaderIsAlone(s, t);
    ActKeepsCounts(s.node, s.threads[t], ok);
    SumUpdate(BaseCount, s.threads, t, o.pc);
    SumUpdate(DeltaCount, s.threads, t, o.pc);
  }

  lemma AdvanceKeepsThreads(s: State, t: nat, ok: bool)
    requires Exclusive(s) && ThreadsOk(s) && Enabled(s, Advance(t, ok))
    ensures ThreadsOk(Step(s, Advance(t, ok)))
  {
    var s' := Step(s, Advance(t, ok));
    LoaderIsAlone(s, t);
    forall u | 0 <= u < |s'.threads|
      ensures ThreadOk(s'.node, s'.threads[u])
    {
      NobodyLoads(s, u);
      assert ThreadOk(s.node, s.threads[u]);
      assert ThreadOk(s.node, s.threads[t]);
    }
  }

  lemma AdvanceKeepsPersisted(s: State, t: nat, ok: bool)
    requires Exclusive(s) && ThreadsOk(s) && Persisted(s.node) && Enabled(s, Advance(t, ok))
    ensures Persisted(Step(s, Advance(t, ok)).node)
  {
    LoaderIsAlone(s, t);
    assert ThreadOk(s.node, s.threads[t]);
  }

  lemma AdvanceKeepsAttended(s: State, t: nat, ok: bool)
    requires Exclusive(s) && Attended(s) && Enabled(s, Advance(t, ok))
    ensures Attended(Step(s, Advance(t, ok)))
  {
    var s' := Step(s, Advance(t, ok));
    if s'.node.queue != [] {
      if s'.threads[t] == Done {
        // The thread left a request behind, which it does only while another one loads.
        assert s.threads[t].Entering? && !CanLoad(s.node);
        var u: nat;
        if s.node.status == BaseLoading {
          u := SumWitness(BaseCount, s.threads);
        } else {
          u := SumWitness(DeltaCount, s.threads);
        }
        assert s'.threads[u] != Done;
      } else {
        assert s'.threads[t] != Done;
      }
    }
  }

  function SettledRequest(settled: Settled): Option<LoadInfo> {
    if settled.Pending? then None else Some(settled.info)
  }

  /** A request stays with its thread, is settled, joins the queue, or is taken from it. */
  ghost predicate Moved<T>(q: seq<T>, mine: Option<T>, q': seq<T>, mine': Option<T>, settled: Option<T>) {
    || (q' == q && mine' == mine && settled.None?)
    || (q' == q && mine'.None? && settled == mine)
    || (mine.Some? && q' == q + [mine.value] && mine'.None? && settled.None?)
    || (q != [] && q' == q[1..] && mine.None? && mine' == Some(q[0]) && settled.None?)
  }

  lemma MovedConserves<T>(q: seq<T>, mine: Option<T>, q': seq<T>, mine': Option<T>, settled: Option<T>)
    requires Moved(q, mine, q', mine', settled)
    ensures multiset(q) + Bag(mine) == multiset(q') + Bag(mine') + Bag(settled)
  {
    if q != [] {
      assert q == [q[0]] + q[1..];
    }
  }

  lemma EnterMoves(n: Node, info: LoadInfo)
    ensures var o := Enter(n, info);
      Moved(n.queue, Some(info), o.node.queue, Request(o.pc), SettledRequest(o.settled))
  {
  }

  /** One action moves a request between thread, queue and ledger and loses none. */
  lemma ActMoves(n: Node, pc: PC, ok: bool)
    ensures var o := Act(n, pc, ok);
      Moved(n.queue, Request(pc), o.node.queue, Request(o.pc), SettledRequest(o.settled))
  {
    if pc.Entering? {
      EnterMoves(n, pc.info);
    }
  }

  lemma SettleAdds(l: Ledger, settled: Settled)
    ensures Closed(Settle(l, settled)) == Closed(l) + Bag(SettledRequest(settled))
    ensures Settle(l, settled).submitted == l.submitted
  {
  }

  lemma AdvanceConserves(s: State, t: nat, ok: bool)
    requires Conserved(s) && Enabled(s, Advance(t, ok))
    ensures Conserved(Step(s, Advance(t, ok)))
  {
    var o := Act(s.node, s.threads[t], ok);
    ActMoves(s.node, s.threads[t], ok);
    MovedConserves(s.node.queue, Request(s.threads[t]), o.node.queue, Request(o.pc), SettledRequest(o.settled));
    GatherUpdate(Held, s.threads, t, o.pc);
    var q, q' := multiset(s.node.queue), multiset(o.node.queue);
    var g, g' := Gather(Held, s.threads), Gather(Held, s.threads[t := o.pc]);
    var item, closed := Bag(SettledRequest(o.settled)), Closed(s.ledger);
    SettleAdds(s.ledger, o.settled);
    BalanceOfSums(q, g, q', g', Held(s.threads[t]), Held(o.pc), item);
    SettledLast(q', g', item, closed);
  }

  lemma SettledLast<T>(q: multiset<T>, g: multiset<T>, item: multiset<T>, closed: multiset<T>)
    ensures q + g + (closed + item) == q + g + item + closed
  {
  }

  lemma BalanceOfSums<T>(q: multiset<T>, g: multiset<T>, q': multiset<T>, g': multiset<T>,
                         h: multiset<T>, h': multiset<T>, item: multiset<T>)
    requires q + h == q' + h' + item
    requires g' + h == g + h'
    ensures q + g == q' + g' + item
  {
    forall x: T
      ensures (q + g)[x] == (q' + g' + item)[x]
    {
      assert (q + h)[x] == (q' + h' + item)[x];
      assert (g' + h)[x] == (g + h')[x];
    }
  }

  lemma ReloadKeepsInv(s: State, ok: bool)
    requires Inv(s)
    ensures Inv(Step(s, Reload(ok)))
  {
    var s' := Step(s, Reload(ok));
    forall t | 0 <= t < |s'.threads|
      ensures ThreadOk(s'.node, s'.threads[t])
    {
      assert ThreadOk(s.node, s.threads[t]);
    }
  }

  lemma SubmitConserves(s: State, info: LoadInfo)
    requires Conserved(s)
    ensures Conserved(Step(s, Submit(info)))
  {
    GatherAppend(Held, s.threads, Entering(info));
    OneMoreHeld(multiset(s.node.queue), Gather(Held, s.threads), Closed(s.ledger), multiset{info});
  }

  lemma OneMoreHeld<T>(q: multiset<T>, g: multiset<T>, c: multiset<T>, item: multiset<T>)
    ensures q + g + c + item == q + (g + item) + c
  {
  }

  lemma SubmitKeepsInv(s: State, info: LoadInfo)
    requires Inv(s)
    ensures Inv(Step(s, Submit(info)))
  {
    var s' := Step(s, Submit(info));
    SumAppend(BaseCount, s.threads, Entering(info));
    SumAppend(DeltaCount, s.threads, Entering(info));
    SubmitConserves(s, info);
    assert s'.threads[|s.threads|] == Entering(info);
  }

  lemma StepKeepsInv(s: State, e: Event)
    requires Inv(s) && Enabled(s, e)
    ensures Inv(Step(s, e))
  {
    match e
    case Submit(info) => SubmitKeepsInv(s, info);
    case Reload(ok) => ReloadKeepsInv(s, ok);
    case Advance(t, ok) =>
      AdvanceKeepsExclusive(s, t, ok);
      AdvanceKeepsThreads(s, t, ok);
      AdvanceKeepsPersisted(s, t, ok);
      AdvanceKeepsAttended(s, t, ok);
      AdvanceConserves(s, t, ok);
  }

  lemma FreshInv(s: State)
    requires Fresh(s)
    ensures Inv(s)
  {
  }

  lemma {:induction false} RunKeepsInv(s: State, es: seq<Event>)
    requires Inv(s) && ValidRun(s, es)
    ensures Inv(Run(s, es))
    decreases es
  {
    if es != [] {
      StepKeepsInv(s, es[0]);
      RunKeepsInv(Step(s, es[0]), es[1..]);
    }
  }

  // ---------------------------------------------------------------- theorems over whole runs

  /** Status and threads agree in every interleaving: a loading status is held by exactly one
      thread inside a load of that kind, and otherwise no thread is inside a load. */
  lemma LoadsAreExclusive(s: State, es: seq<Event>)
    requires Fresh(s) && ValidRun(s, es)
    ensures var r := Run(s, es);
      && (r.node.status == BaseLoading <==> exists t :: 0 <= t < |r.threads| && InBase(r.threads[t]))
      && (r.node.status == DeltaLoading <==> exists t :: 0 <= t < |r.threads| && InDelta(r.threads[t]))
      && forall t, u | 0 <= t < |r.threads| && 0 <= u < |r.threads| && t != u ::
        !((InBase(r.threads[t]) || InDelta(r.threads[t])) && (InBase(r.threads[u]) || InDelta(r.threads[u])))
  {
    FreshInv(s);
    RunKeepsInv(s, es);
    var r := Run(s, es);
    if r.node.status == BaseLoading {
      var t := SumWitness(BaseCount, r.threads);
    }
    if r.node.status == DeltaLoading {
      var t := SumWitness(DeltaCount, r.threads);
    }
    forall t, u | 0 <= t < |r.threads| && 0 <= u < |r.threads| && t != u
      ensures !((InBase(r.threads[t]) || InDelta(r.threads[t])) && (InBase(r.threads[u]) || InDelta(r.threads[u])))
    {
      LoaderIsAlone(r, t);
      LoaderIsAlone(r, u);
      if InBase(r.threads[t]) && InBase(r.threads[u]) {
        SumAtLeastTwo(BaseCount, r.threads, if t < u then t else u, if t < u then u else t);
      }
    }
    forall t | 0 <= t < |r.threads|
      ensures InBase(r.threads[t]) ==> r.node.status == BaseLoading
      ensures InDelta(r.threads[t]) ==> r.node.status == DeltaLoading
    {
      LoaderIsAlone(r, t);
    }
  }

  /** No queued load is stranded, no request is lost, and the meta database never disagrees with
      the handler, whether or not engines reopen: outside a delta load it has all of its deltas, during
      one those of before. */
  lemma LoadsAreConserved(s: State, es: seq<Event>)
    requires Fresh(s) && ValidRun(s, es)
    ensures var r := Run(s, es);
      && (r.node.queue != [] ==> exists t :: 0 <= t < |r.threads| && r.threads[t] != Done)
      && r.ledger.submitted == multiset(r.node.queue) + Gather(Held, r.threads) + Closed(r.ledger)
      && r.node.savedBase == r.node.base && r.node.savedDeltas <= r.node.deltas
      && (r.node.status != DeltaLoading ==> r.node.savedDeltas == r.node.deltas)
      && NoDuplicates(r.node.deltas)
  {
    FreshInv(s);
    RunKeepsInv(s, es);
  }

  ghost predicate Quiet(s: State) {
    forall t | 0 <= t < |s.threads| :: s.threads[t] == Done
  }

  /** When all threads have returned, the queue is empty, the status admits the next load and each
      submitted request is accounted for exactly once. */
  lemma QuietMeansSettled(s: State, es: seq<Event>)
    requires Fresh(s) && ValidRun(s, es) && Quiet(Run(s, es))
    ensures var r := Run(s, es);
      r.node.queue == [] && CanLoad(r.node) && r.ledger.submitted == Closed(r.ledger)
  {
    FreshInv(s);
    RunKeepsInv(s, es);
    var r := Run(s, es);
    QuietQueueIsEmpty(r);
    GatherNothing(Held, r.threads);
    NothingLeft(Closed(r.ledger));
  }

  lemma NothingLeft<T>(c: multiset<T>)
    ensures multiset{} + multiset{} + c == c
  {
  }

  lemma QuietQueueIsEmpty(s: State)
    requires Inv(s) && Quiet(s)
    ensures s.node.queue == [] && CanLoad(s.node)
  {
    if s.node.status == BaseLoading {
      var t := SumWitness(BaseCount, s.threads);
    } else if s.node.status == DeltaLoading {
      var t := SumWitness(DeltaCount, s.threads);
    }
  }

  // ---------------------------------------------------------------- termination

  function Weight(info: LoadInfo): nat {
    match info
    case BaseLoad(_) => 4
    case DeltaLoad(_, versions) => 4 + 3 * |versions|
  }

  function Left(versions: seq<Version>, next: nat): nat {
    if next < |versions| then 3 * (|versions| - next) else 0
  }

  /** Actions a thread may still take before it returns, not counting what it finds in the queue. */
  function Rank(pc: PC): nat {
    match pc
    case Entering(info) => Weight(info) + 1
    case BaseIngest(_) => 4
    case BaseFinish(_, _) => 3
    case DeltaScan(_, versions, next) => 3 + Left(versions, next)
    case DeltaIngest(_, versions, next) => 2 + Left(versions, next)
    case DeltaRecord(_, versions, next) => 1 + Left(versions, next)
    case Trigger => 2
    case Done => 0
  }

  function Work(s: State): nat {
    Sum(Weight, s.node.queue) + Sum(Rank, s.threads)
  }

  lemma ActConsumesWork(n: Node, pc: PC, ok: bool)
    requires ThreadOk(n, pc) && pc != Done
    ensures var o := Act(n, pc, ok);
      Sum(Weight, o.node.queue) + Rank(o.pc) < Sum(Weight, n.queue) + Rank(pc)
  {
    if pc.Entering? && Enter(n, pc.info).node.queue != n.queue {
      SumAppend(Weight, n.queue, pc.info);
    }
  }

  lemma AdvanceConsumesWork(s: State, t: nat, ok: bool)
    requires ThreadsOk(s) && Enabled(s, Advance(t, ok))
    ensures Work(Step(s, Advance(t, ok))) < Work(s)
  {
    var o := Act(s.node, s.threads[t], ok);
    assert ThreadOk(s.node, s.threads[t]);
    ActConsumesWork(s.node, s.threads[t], ok);
    SumUpdate(Rank, s.threads, t, o.pc);
  }

  function Advances(es: seq<Event>): nat {
    if es == [] then 0 else (if es[0].Advance? then 1 else 0) + Advances(es[1..])
  }

  function SubmittedWork(es: seq<Event>): nat {
    if es == [] then 0
    else (if es[0].Submit? then Weight(es[0].info) + 1 else 0) + SubmittedWork(es[1..])
  }

  /** Threads do a bounded number of actions in every interleaving, however often the timer fires:
      requests that are popped and queued again cannot circulate forever. */
  lemma {:induction false} LoadsTerminate(s: State, es: seq<Event>)
    requires Inv(s) && ValidRun(s, es)
    ensures Advances(es) + Work(Run(s, es)) <= Work(s) + SubmittedWork(es)
    decreases es
  {
    if es != [] {
      var s' := Step(s, es[0]);
      StepKeepsInv(s, es[0]);
      LoadsTerminate(s', es[1..]);
      match es[0]
      case Submit(info) => SumAppend(Rank, s.threads, Entering(info));
      case Advance(t, ok) => AdvanceConsumesWork(s, t, ok);
      case Reload(_) =>
    }
  }

  // ---------------------------------------------------------------- recorded deltas

  predicate EngineFits(n: Node) {
    n.engine.Some? ==> n.engine.value == n.base
  }

  predicate RecordOk(n: Node, pc: PC) {
    pc.DeltaRecord? ==> pc.next < |pc.versions| && (n.base, pc.versions[pc.next]) in n.ingested
  }

  /** Every delta that is recorded, or that a thread is about to record, was written. */
  ghost predicate RecordsOk(s: State) {
    EngineFits(s.node) && Recorded(s.node) && forall t | 0 <= t < |s.threads| :: RecordOk(s.node, s.threads[t])
  }

  /** A delta that is not in the base is taken as ingested although no engine is open. */
  predicate Blind(n: Node, pc: PC, ok: bool) {
    && pc.DeltaIngest? && pc.next < |pc.versions| && ok
    && n.engine.None? && (n.base, pc.versions[pc.next]) !in n.ingested
  }

  predicate BlindStep(s: State, e: Event)
    requires Enabled(s, e)
  {
    e.Advance? && Blind(s.node, s.threads[e.thread], e.ok)
  }

  lemma ActKeepsRecords(n: Node, pc: PC, ok: bool)
    requires EngineFits(n) && Recorded(n) && RecordOk(n, pc) && ThreadOk(n, pc)
    ensures var o := Act(n, pc, ok);
      EngineFits(o.node) && Recorded(o.node) && (RecordOk(o.node, o.pc) <==> !Blind(n, pc, ok))
  {
  }

  /** Only a finished base load changes the base, and nothing is ever un-ingested. */
  lemma ActKeepsIngested(n: Node, pc: PC, ok: bool)
    ensures n.ingested <= Act(n, pc, ok).node.ingested
    ensures !pc.BaseFinish? ==> Act(n, pc, ok).node.base == n.base
  {
  }

  lemma AdvanceKeepsRecords(s: State, t: nat, ok: bool)
    requires Inv(s) && RecordsOk(s) && Enabled(s, Advance(t, ok))
    ensures RecordsOk(Step(s, Advance(t, ok))) <==> !Blind(s.node, s.threads[t], ok)
  {
    var s' := Step(s, Advance(t, ok));
    assert ThreadOk(s.node, s.threads[t]) && RecordOk(s.node, s.threads[t]);
    ActKeepsRecords(s.node, s.threads[t], ok);
    ActKeepsIngested(s.node, s.threads[t], ok);
    LoaderIsAlone(s, t);
    forall u | 0 <= u < |s.threads|
      ensures u != t ==> RecordOk(s'.node, s'.threads[u])
    {
      NobodyLoads(s, u);
      assert RecordOk(s.node, s.threads[u]);
    }
    assert s'.threads[t] == Act(s.node, s.threads[t], ok).pc;
  }

  lemma StepKeepsRecords(s: State, e: Event)
    requires Inv(s) && RecordsOk(s) && Enabled(s, e)
    ensures RecordsOk(Step(s, e)) <==> !BlindStep(s, e)
  {
    match e
    case Submit(_) =>
    case Reload(_) =>
    case Advance(t, ok) => AdvanceKeepsRecords(s, t, ok);
  }

  ghost predicate AlwaysRecorded(s: State, es: seq<Event>)
    requires ValidRun(s, es)
    decreases es
  {
    RecordsOk(s) && (es == [] || AlwaysRecorded(Step(s, es[0]), es[1..]))
  }

  predicate NeverBlind(s: State, es: seq<Event>)
    requires ValidRun(s, es)
    decreases es
  {
    es == [] || (!BlindStep(s, es[0]) && NeverBlind(Step(s, es[0]), es[1..]))
  }

  /** All along a run every delta recorded or about to be recorded was written into the current base
      if and only if no new delta is ingested while the engine is closed. */
  lemma {:induction false} RecordsAreExact(s: State, es: seq<Event>)
    requires Inv(s) && RecordsOk(s) && ValidRun(s, es)
    ensures AlwaysRecorded(s, es) <==> NeverBlind(s, es)
    decreases es
  {
    if es != [] {
      StepKeepsInv(s, es[0]);
      StepKeepsRecords(s, es[0]);
      if !BlindStep(s, es[0]) {
        RecordsAreExact(Step(s, es[0]), es[1..]);
      }
    }
  }

  lemma StepKeepsOpen(s: State, e: Event)
    requires Enabled(s, e) && s.node.engine.Some? && e != Reload(false)
    ensures Step(s, e).node.engine.Some? && !BlindStep(s, e)
  {
  }

  /** As long as every reopen succeeds, each recorded delta was written into the current base. */
  lemma {:induction false} RecordedDeltasWereIngested(s: State, es: seq<Event>)
    requires Inv(s) && RecordsOk(s) && s.node.engine.Some? && ValidRun(s, es)
    requires Reload(false) !in es
    ensures Run(s, es).node.engine == Some(Run(s, es).node.base) && Recorded(Run(s, es).node)
    decreases es
  {
    if es != [] {
      StepKeepsOpen(s, es[0]);
      StepKeepsInv(s, es[0]);
      StepKeepsRecords(s, es[0]);
      RecordedDeltasWereIngested(Step(s, es[0]), es[1..]);
    }
  }

  /** One failed reopen is enough to record a delta that was never written. */
  lemma FailedReopenBreaksRecords() returns (s: State, es: seq<Event>)
    ensures Fresh(s) && ValidRun(s, es) && !Recorded(Run(s, es).node)
  {
    var base, delta := Version("base"), Version("delta");
    var node := Node(BaseLoaded, [], base, [], Some(base), base, [], {});
    s := State(node, [], Ledger(multiset{}, multiset{}, multiset{}, multiset{}, multiset{}));
    var request := DeltaLoad(base, [delta]);
    var go := Advance(0, true);
    var s1 := Step(s, Reload(false));
    var s2 := Step(s1, Submit(request));
    var s3 := Step(s2, go);
    var s4 := Step(s3, go);
    var s5 := Step(s4, go);
    var s6 := Step(s5, go);
    assert s6.node.deltas == [delta] && s6.node.ingested == {};
    assert delta in s6.node.deltas;
    RunCons(s5, go, []);
    RunCons(s4, go, [go]);
    RunCons(s3, go, [go, go]);
    RunCons(s2, go, [go, go, go]);
    RunCons(s1, Submit(request), [go, go, go, go]);
    es := [Submit(request), go, go, go, go];
    RunCons(s, Reload(false), es);
    es := [Reload(false)] + es;
  }

  /** A base load that finishes with a successful ingest publishes its version; nothing else does. */
  function PublishedBy(s: State, e: Event): seq<Version>
    requires Enabled(s, e)
  {
    if e.Advance? && s.threads[e.thread].BaseFinish? && s.threads[e.thread].ok
    then [s.threads[e.thread].version] else []
  }

  ghost function Published(s: State, es: seq<Event>): seq<Version>
    requires ValidRun(s, es)
    decreases es
  {
    if es == [] then [] else PublishedBy(s, es[0]) + Published(Step(s, es[0]), es[1..])
  }

  lemma StepPublishes(s: State, e: Event)
    requires Persisted(s.node) && Enabled(s, e)
    ensures Step(s, e).node.base == if PublishedBy(s, e) == [] then s.node.base else PublishedBy(s, e)[0]
  {
  }

  /** Nothing but a successful base load changes the base: not a failed one, not a delta load and
      not an engine reload, in any interleaving. */
  lemma {:induction false} BaseIsLastPublished(s: State, es: seq<Event>)
    requires Inv(s) && ValidRun(s, es)
    ensures var published := [s.node.base] + Published(s, es);
      Run(s, es).node.base == published[|published| - 1]
    decreases es
  {
    if es != [] {
      var s' := Step(s, es[0]);
      StepKeepsInv(s, es[0]);
      StepPublishes(s, es[0]);
      BaseIsLastPublished(s', es[1..]);
      var first, rest := PublishedBy(s, es[0]), Published(s', es[1..]);
      assert Published(s, es) == first + rest;
      assert |first| <= 1;
    }
  }

  lemma StepKeepsSaved(s: State, e: Event)
    requires Persisted(s.node) && Enabled(s, e) && PublishedBy(s, e) == []
    ensures s.node.savedDeltas <= Step(s, e).node.savedDeltas
  {
  }

  /** The record of deltas only grows until another base is published: neither a failed ingest nor a
      reload, which drops what a running delta load has not recorded yet, takes anything back. */
  lemma {:induction false} RecordsOnlyGrow(s: State, es: seq<Event>)
    requires Inv(s) && ValidRun(s, es) && Published(s, es) == []
    ensures s.node.savedDeltas <= Run(s, es).node.savedDeltas
    decreases es
  {
    if es != [] {
      StepKeepsInv(s, es[0]);
      StepKeepsSaved(s, es[0]);
      RecordsOnlyGrow(Step(s, es[0]), es[1..]);
    }
  }

  /** Queued loads do not keep their order. Here, for instance, a request for the base already served
      pops the head of the queue and puts it back at the end while another load is running. */
  lemma QueueIsNotFifo(s: State, v1: Version, v2: Version, v3: Version) returns (es: seq<Event>)
    requires Fresh(s) && s.node.base !in {v1, v2, v3}
    ensures ValidRun(s, es)
    ensures |es| > 4 && es[2] == Submit(BaseLoad(v2)) && es[4] == Submit(BaseLoad(v3))
    ensures Run(s, es).node.queue == [BaseLoad(v3), BaseLoad(v2)]
  {
    var s3, tail := LoadWhileBusy(s, v1, v2, v3);
    var b0, a3 := Submit(BaseLoad(s.node.base)), Advance(3, true);
    var s4 := Step(s3, b0);
    var s5 := Step(s4, a3);
    assert s5.threads[3] == Trigger;
    var s6 := Step(s5, a3);
    assert s6.threads[3] == Entering(BaseLoad(v2)) && s6.node.queue == [BaseLoad(v3)];
    RunCons(s6, a3, []);
    RunCons(s5, a3, [a3]);
    RunCons(s4, a3, [a3, a3]);
    RunCons(s3, b0, [a3, a3, a3]);
    RunAppend(s, tail, [b0, a3, a3, a3]);
    es := tail + [b0, a3, a3, a3];
  }

  // A request that meets a running load of another version is queued and its thread returns.
  lemma QueueBehind(s: State, v: Version) returns (s': State, es: seq<Event>)
    requires s.node.status == BaseLoading && s.node.base != v && |s.node.queue| < QUEUE_CAPACITY
    ensures |es| == 2 && es[0] == Submit(BaseLoad(v))
    ensures ValidRun(s, es) && Run(s, es) == s'
    ensures s'.node == s.node.(queue := s.node.queue + [BaseLoad(v)]) && s'.threads == s.threads + [Done]
  {
    var submit, go := Submit(BaseLoad(v)), Advance(|s.threads|, true);
    var s1 := Step(s, submit);
    s' := Step(s1, go);
    RunCons(s1, go, []);
    RunCons(s, submit, [go]);
    es := [submit] + [go];
  }

  // One thread loads v1, two more requests find it busy and are queued.
  lemma LoadWhileBusy(s: State, v1: Version, v2: Version, v3: Version) returns (s3: State, es: seq<Event>)
    requires Fresh(s) && s.node.base !in {v1, v2, v3}
    ensures |es| == 6 && es[2] == Submit(BaseLoad(v2)) && es[4] == Submit(BaseLoad(v3))
    ensures ValidRun(s, es) && Run(s, es) == s3
    ensures s3.node == s.node.(status := BaseLoading, queue := [BaseLoad(v2), BaseLoad(v3)])
    ensures s3.threads == [BaseIngest(v1), Done, Done]
  {
    var submit, go := Submit(BaseLoad(v1)), Advance(0, true);
    var s1 := Step(Step(s, submit), go);
    RunCons(Step(s, submit), go, []);
    RunCons(s, submit, [go]);
    var s2, two := QueueBehind(s1, v2);
    var three: seq<Event>;
    s3, three := QueueBehind(s2, v3);
    RunAppend(s1, two, three);
    RunAppend(s, [submit] + [go], two + three);
    es := [submit] + [go] + (two + three);
  }
}
