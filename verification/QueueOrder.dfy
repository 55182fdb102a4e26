/** When queued loads keep their order (loadBaseData, loadDeltaData and triggerLoadData of
    server/partition_handler.cc).

    A request that cannot run is queued; a thread that pops it may find another load running by then
    and queue it again, behind requests that came later. Here every request gets a ticket when it is
    queued for the first time, and keeps it. */
module QueueOrder {
  import opened Common
  import opened PartitionLoad
  import opened Tally

  /** The loading machine with the tickets of the queue, of the requests threads have popped, and of
      all pops so far. They only observe. */
  datatype Observed = Observed(
    state: State,
    waiting: seq<nat>,
    hands: seq<Option<nat>>,
    left: seq<nat>,
    next: nat)

  /** A request that is entered now is put into the queue. */
  predicate Queues(n: Node, info: LoadInfo) {
    !CanLoad(n) && (info.BaseLoad? ==> n.base != info.base) && |n.queue| < QUEUE_CAPACITY
  }

  predicate Aligned(o: Observed) {
    |o.waiting| == |o.state.node.queue| && |o.hands| == |o.state.threads|
  }

  function Observe(o: Observed, e: Event): (o': Observed)
    requires Aligned(o) && Enabled(o.state, e)
    ensures Aligned(o') && o'.state == Step(o.state, e)
  {
    var s' := Step(o.state, e);
    match e
    case Submit(_) => o.(state := s', hands := o.hands + [None])
    case Reload(_) => o.(state := s')
    case Advance(t, _) => Moved(o, s', t)
  }

  function Moved(o: Observed, s': State, t: nat): Observed
    requires Aligned(o) && t < |o.hands|
  {
    var n, pc := o.state.node, o.state.threads[t];
    if pc == Trigger && n.queue != [] then
      o.(state := s', waiting := o.waiting[1..], left := o.left + [o.waiting[0]],
         hands := o.hands[t := Some(o.waiting[0])])
    else if pc.Entering? && Queues(n, pc.info) then
      var ticket := if o.hands[t].Some? then o.hands[t].value else o.next;
      o.(state := s', waiting := o.waiting + [ticket], hands := o.hands[t := None],
         next := if o.hands[t].Some? then o.next else o.next + 1)
    else o.(state := s', hands := if pc.Entering? then o.hands[t := None] else o.hands)
  }

  // ---------------------------------------------------------------- order

  ghost predicate NonDescending(q: seq<nat>) {
    forall i, j | 0 <= i < j < |q| :: q[i] <= q[j]
  }

  /** Everything popped so far, followed by what is queued, is in the order of first queueing. */
  ghost predicate InOrder(o: Observed) {
    NonDescending(o.left + o.waiting)
  }

  /** A popped request meets a running load and is queued again although another request has been
      queued since it was. */
  predicate Overtaken(o: Observed, e: Event)
    requires Aligned(o) && Enabled(o.state, e)
  {
    e.Advance? &&
    var pc := o.state.threads[e.thread];
    pc.Entering? && Queues(o.state.node, pc.info) &&
    o.hands[e.thread].Some? && o.hands[e.thread].value + 1 < o.next
  }

  /** Tickets come from the counter, and the newest one has been queued. */
  ghost predicate Ticketed(o: Observed) {
    && Aligned(o)
    && (forall k | k in o.left + o.waiting :: k < o.next)
    && (forall t | 0 <= t < |o.hands| && o.hands[t].Some? :: o.hands[t].value < o.next)
    && (o.next > 0 ==> o.next - 1 in o.left + o.waiting)
  }

  lemma InOrderAppend(q: seq<nat>, k: nat)
    requires NonDescending(q)
    ensures NonDescending(q + [k]) <==> (q != [] ==> q[|q| - 1] <= k)
  {
    var r := q + [k];
    if q != [] {
      var n := |q| - 1;
      assert r[n] == q[n] && r[n + 1] == k;
      if q[n] <= k {
        forall i, j | 0 <= i < j < |r|
          ensures r[i] <= r[j]
        {
          assert i < n ==> q[i] <= q[n];
          assert j <= n ==> r[j] == q[j];
        }
      }
    }
  }

  /** In an ordered state the newest ticket is the last one. */
  lemma NewestIsLast(o: Observed)
    requires Ticketed(o) && InOrder(o)
    ensures var q := o.left + o.waiting;
      if o.next == 0 then q == [] else q != [] && q[|q| - 1] == o.next - 1
  {
    var q := o.left + o.waiting;
    assert q != [] ==> q[|q| - 1] in q && q[|q| - 1] < o.next;
    if o.next > 0 {
      var i :| 0 <= i < |q| && q[i] == o.next - 1;
      assert i < |q| - 1 ==> q[i] <= q[|q| - 1];
    }
  }

  lemma Popped(o: Observed)
    requires o.waiting != []
    ensures o.left + [o.waiting[0]] + o.waiting[1..] == o.left + o.waiting
  {
    assert o.waiting == [o.waiting[0]] + o.waiting[1..];
    Regroup(o.left, [o.waiting[0]], o.waiting[1..]);
  }

  lemma MovedKeepsTickets(o: Observed, s': State, t: nat)
    requires Ticketed(o) && t < |o.hands| && Aligned(Moved(o, s', t))
    ensures Ticketed(Moved(o, s', t))
  {
    var n, pc := o.state.node, o.state.threads[t];
    var o' := Moved(o, s', t);
    if pc == Trigger && n.queue != [] {
      Popped(o);
      assert o.waiting[0] in o.left + o.waiting;
    } else if pc.Entering? && Queues(n, pc.info) {
      var q, ticket := o.left + o.waiting, o'.waiting[|o.waiting|];
      Regroup(o.left, o.waiting, [ticket]);
      assert o'.left + o'.waiting == q + [ticket];
    }
  }

  lemma ObserveKeepsTickets(o: Observed, e: Event)
    requires Ticketed(o) && Enabled(o.state, e)
    ensures Ticketed(Observe(o, e))
  {
    if e.Advance? {
      MovedKeepsTickets(o, Step(o.state, e), e.thread);
    }
  }

  /** One step breaks the order exactly when it queues an overtaken request again. */
  lemma ObserveKeepsOrder(o: Observed, e: Event)
    requires Ticketed(o) && InOrder(o) && Enabled(o.state, e)
    ensures InOrder(Observe(o, e)) <==> !Overtaken(o, e)
  {
    var o' := Observe(o, e);
    if e.Advance? {
      var n, pc := o.state.node, o.state.threads[e.thread];
      if pc == Trigger && n.queue != [] {
        Popped(o);
      } else if pc.Entering? && Queues(n, pc.info) {
        var ticket := o'.waiting[|o.waiting|];
        Regroup(o.left, o.waiting, [ticket]);
        NewestIsLast(o);
        InOrderAppend(o.left + o.waiting, ticket);
      }
    }
  }

  // ---------------------------------------------------------------- runs

  ghost predicate AlwaysInOrder(o: Observed, es: seq<Event>)
    requires Aligned(o) && ValidRun(o.state, es)
    decreases es
  {
    InOrder(o) && (es == [] || AlwaysInOrder(Observe(o, es[0]), es[1..]))
  }

  predicate NeverOvertaken(o: Observed, es: seq<Event>)
    requires Aligned(o) && ValidRun(o.state, es)
    decreases es
  {
    es == [] || (!Overtaken(o, es[0]) && NeverOvertaken(Observe(o, es[0]), es[1..]))
  }

  lemma {:induction false} OrderFrom(o: Observed, es: seq<Event>)
    requires Ticketed(o) && InOrder(o) && ValidRun(o.state, es)
    ensures AlwaysInOrder(o, es) <==> NeverOvertaken(o, es)
    decreases es
  {
    if es != [] {
      ObserveKeepsTickets(o, es[0]);
      ObserveKeepsOrder(o, es[0]);
      if !Overtaken(o, es[0]) {
        OrderFrom(Observe(o, es[0]), es[1..]);
      }
    }
  }

  /** All along every run from a fresh handler, requests leave the queue in the order in which they
      were first queued, if and only if no popped request that meets a running load is queued again
      after another request has been queued behind it. */
  lemma QueueOrderIsExact(s: State, es: seq<Event>)
    requires Fresh(s) && ValidRun(s, es)
    ensures var o := Observed(s, [], [], [], 0);
      AlwaysInOrder(o, es) <==> NeverOvertaken(o, es)
  {
    OrderFrom(Observed(s, [], [], [], 0), es);
  }

  /** Only one thread is on its way. */
  ghost predicate Alone(s: State) {
    forall t, u | 0 <= t < u < |s.threads| :: s.threads[t] == Done || s.threads[u] == Done
  }

  ghost predicate AlwaysAlone(s: State, es: seq<Event>)
    requires ValidRun(s, es)
    decreases es
  {
    Alone(s) && (es == [] || AlwaysAlone(Step(s, es[0]), es[1..]))
  }

  lemma AloneMeetsNoLoad(s: State, t: nat)
    requires Inv(s) && Alone(s) && t < |s.threads| && s.threads[t].Entering?
    ensures CanLoad(s.node)
  {
    forall u | 0 <= u < |s.threads|
      ensures !InBase(s.threads[u]) && !InDelta(s.threads[u])
    {
      assert u != t ==> s.threads[u] == Done;
    }
    if !CanLoad(s.node) {
      NoLoaderNoStatus(s);
    }
  }

  lemma NoLoaderNoStatus(s: State)
    requires Exclusive(s) && !CanLoad(s.node)
    ensures exists u :: 0 <= u < |s.threads| && (InBase(s.threads[u]) || InDelta(s.threads[u]))
  {
    if s.node.status == BaseLoading {
      var u := SumWitness(BaseCount, s.threads);
    } else {
      var u := SumWitness(DeltaCount, s.threads);
    }
  }

  /** In particular loads that never overlap keep their order. */
  lemma {:induction false} AloneKeepsOrder(o: Observed, es: seq<Event>)
    requires Inv(o.state) && Aligned(o) && ValidRun(o.state, es) && AlwaysAlone(o.state, es)
    ensures NeverOvertaken(o, es)
    decreases es
  {
    if es != [] {
      var e := es[0];
      if e.Advance? && o.state.threads[e.thread].Entering? {
        AloneMeetsNoLoad(o.state, e.thread);
      }
      StepKeepsInv(o.state, e);
      AloneKeepsOrder(Observe(o, e), es[1..]);
    }
  }
}
