/** Full data synchronisation of a follower and its delayed retries
    (baseDataReplicate and delayBaseDataReplicate of server/partition_handler.cc).

    Two atomic flags are shared by update callbacks, transfer callbacks and timers. Each test-and-set
    or clear is one event; every started transfer calls back once. */
module Replication {
  import opened Common
  import opened Tally

  /** Where one synchronisation stands, from the update that started it to its last step. */
  datatype Sync =
    | Attempt(version: Version)    // baseDataReplicate entered
    | Receiving(version: Version)  // transfer under way
    | Aborted(version: Version)    // transfer failed, about to clear the replicating flag
    | Failed(version: Version)     // about to test-and-set the delay flag
    | Scheduling(version: Version) // won the delay flag, about to arm the timer
    | Waiting(version: Version)    // timer armed
    | Firing(version: Version)     // timer fired, about to clear the delay flag
    | Over

  datatype State = State(replicating: bool, delayed: bool, syncs: seq<Sync>)

  datatype Event =
    | Update(version: Version, follower: bool)
    | Advance(sync: nat, ok: bool)

  datatype Outcome = Outcome(replicating: bool, delayed: bool, sync: Sync)

  function Act(s: State, pc: Sync, ok: bool): Outcome {
    match pc
    case Attempt(v) => Outcome(s.replicating, s.delayed, if ok then Receiving(v) else Failed(v))
    case Receiving(v) => if ok then Outcome(false, s.delayed, Over) else Outcome(s.replicating, s.delayed, Aborted(v))
    case Aborted(v) => Outcome(false, s.delayed, Failed(v))
    case Failed(v) => Outcome(s.replicating, true, if s.delayed then Over else Scheduling(v))
    case Scheduling(v) => Outcome(s.replicating, s.delayed, Waiting(v))
    case Waiting(v) => Outcome(s.replicating, s.delayed, Firing(v))
    case Firing(v) => Outcome(s.replicating, false, Attempt(v))
    case Over => Outcome(s.replicating, s.delayed, Over)
  }

  predicate Enabled(s: State, e: Event) {
    e.Advance? ==> e.sync < |s.syncs| && s.syncs[e.sync] != Over
  }

  function Step(s: State, e: Event): State
    requires Enabled(s, e)
  {
    match e
    case Update(v, follower) =>
      if !follower || s.replicating then s else State(true, s.delayed, s.syncs + [Attempt(v)])
    case Advance(i, ok) =>
      var o := Act(s, s.syncs[i], ok);
      State(o.replicating, o.delayed, s.syncs[i := o.sync])
  }

  predicate ValidRun(s: State, es: seq<Event>)
    decreases es
  {
    es == [] || (Enabled(s, es[0]) && ValidRun(Step(s, es[0]), es[1..]))
  }

  function Run(s: State, es: seq<Event>): State
    requires ValidRun(s, es)
    decreases es
  {
    if es == [] then s else Run(Step(s, es[0]), es[1..])
  }

  lemma RunCons(s: State, e: Event, es: seq<Event>)
    requires Enabled(s, e) && ValidRun(Step(s, e), es)
    ensures ValidRun(s, [e] + es) && Run(s, [e] + es) == Run(Step(s, e), es)
  {
    assert ([e] + es)[1..] == es;
  }

  const START := State(false, false, [])

  // ---------------------------------------------------------------- invariants

  /** A retry is pending from winning the delay flag until the timer gives it back. */
  predicate IsRetry(pc: Sync) {
    pc.Scheduling? || pc.Waiting? || pc.Firing?
  }

  function RetryCount(pc: Sync): nat { if IsRetry(pc) then 1 else 0 }

  function LiveCount(pc: Sync): nat { if Live(pc) then 1 else 0 }

  ghost predicate Inv(s: State) {
    && Sum(RetryCount, s.syncs) == (if s.delayed then 1 else 0)
    && (s.replicating ==> Sum(LiveCount, s.syncs) > 0)
  }

  lemma RetriesAreLive(ss: seq<Sync>)
    ensures Sum(RetryCount, ss) <= Sum(LiveCount, ss)
  {
  }

  lemma StepKeepsInv(s: State, e: Event)
    requires Inv(s) && Enabled(s, e)
    ensures Inv(Step(s, e))
  {
    match e
    case Update(v, _) =>
      SumAppend(RetryCount, s.syncs, Attempt(v));
      SumAppend(LiveCount, s.syncs, Attempt(v));
    case Advance(i, ok) =>
      var o := Act(s, s.syncs[i], ok);
      SumUpdate(RetryCount, s.syncs, i, o.sync);
      SumUpdate(LiveCount, s.syncs, i, o.sync);
      SumAtLeast(RetryCount, s.syncs, i);
      RetriesAreLive(s.syncs[i := o.sync]);
  }

  lemma {:induction false} RunKeepsInv(s: State, es: seq<Event>)
    requires Inv(s) && ValidRun(s, es)
    ensures Inv(Run(s, es))
    decreases es
  {
    if es != [] {
      StepKeepsInv(s, es[0]);
      RunKeepsInv(Step(s, es[0]), es[1..]);
    }
  }

  // ---------------------------------------------------------------- theorems over whole runs

  /** The delay flag is set exactly while one retry is pending, and there is never a second one. */
  lemma OneRetryPending(es: seq<Event>)
    requires ValidRun(START, es)
    ensures var r := Run(START, es);
      && (r.delayed <==> exists i :: 0 <= i < |r.syncs| && IsRetry(r.syncs[i]))
      && forall i, j | 0 <= i < j < |r.syncs| :: !(IsRetry(r.syncs[i]) && IsRetry(r.syncs[j]))
  {
    RunKeepsInv(START, es);
    var r := Run(START, es);
    if r.delayed {
      var i := SumWitness(RetryCount, r.syncs);
    }
    forall i | 0 <= i < |r.syncs| && IsRetry(r.syncs[i])
      ensures r.delayed
    {
      SumAtLeast(RetryCount, r.syncs, i);
    }
    forall i, j | 0 <= i < j < |r.syncs|
      ensures !(IsRetry(r.syncs[i]) && IsRetry(r.syncs[j]))
    {
      SumAtLeastTwo(RetryCount, r.syncs, i, j);
    }
  }

  /** The replicating flag, which makes the node ignore updates, is never left set with nobody at
      work: some synchronisation is under way or has a retry pending. */
  lemma NeverWedged(es: seq<Event>)
    requires ValidRun(START, es) && Run(START, es).replicating
    ensures var r := Run(START, es);
      exists i :: 0 <= i < |r.syncs| && r.syncs[i] != Over
  {
    RunKeepsInv(START, es);
    var i := SumWitness(LiveCount, Run(START, es).syncs);
  }

  /** Who moves the replicating flag: an update that is accepted sets it, and the end of a transfer clears
      it. A transfer that cannot even be started leaves it set, so that updates are ignored until the
      retry has run. */
  lemma FlagMoves(s: State, e: Event)
    requires Enabled(s, e)
    ensures var s' := Step(s, e);
      && (!s.replicating && s'.replicating <==> e.Update? && e.follower && !s.replicating)
      && (s.replicating && !s'.replicating <==>
        s.replicating && e.Advance? &&
        (s.syncs[e.sync].Aborted? || (s.syncs[e.sync].Receiving? && e.ok)))
    ensures e.Update? ==> Step(s, e).delayed == s.delayed
    ensures e.Update? ==>
      Step(s, e).syncs == if e.follower && !s.replicating then s.syncs + [Attempt(e.version)] else s.syncs
  {
  }

  /** Every failed attempt leaves a retry pending. It is a retry of the failed version exactly when
      none was pending before; otherwise the older version is retried instead. */
  lemma FailureLeavesRetry(es: seq<Event>, i: nat, ok: bool)
    requires ValidRun(START, es)
    requires var r := Run(START, es); i < |r.syncs| && r.syncs[i].Failed?
    ensures var r := Run(START, es);
      var r' := Step(r, Advance(i, ok));
      && r'.delayed
      && (exists j :: 0 <= j < |r'.syncs| && IsRetry(r'.syncs[j]))
      && (IsRetry(r'.syncs[i]) && r'.syncs[i].version == r.syncs[i].version <==> !r.delayed)
  {
    var r := Run(START, es);
    RunKeepsInv(START, es);
    StepKeepsInv(r, Advance(i, ok));
    var j := SumWitness(RetryCount, Step(r, Advance(i, ok)).syncs);
  }

  // ---------------------------------------------------------------- one synchronisation at a time

  predicate Live(pc: Sync) { pc != Over }

  /** At most one synchronisation is under way or has a retry pending. */
  ghost predicate Single(s: State) {
    forall i, j | 0 <= i < j < |s.syncs| :: !(Live(s.syncs[i]) && Live(s.syncs[j]))
  }

  /** An update is accepted although an earlier synchronisation is not over. */
  ghost predicate Overlap(s: State, e: Event) {
    e.Update? && e.follower && !s.replicating && exists i :: 0 <= i < |s.syncs| && Live(s.syncs[i])
  }

  ghost predicate AlwaysSingle(s: State, es: seq<Event>)
    requires ValidRun(s, es)
    decreases es
  {
    Single(s) && (es == [] || AlwaysSingle(Step(s, es[0]), es[1..]))
  }

  ghost predicate NeverOverlaps(s: State, es: seq<Event>)
    requires ValidRun(s, es)
    decreases es
  {
    es == [] || (!Overlap(s, es[0]) && NeverOverlaps(Step(s, es[0]), es[1..]))
  }

  /** One step: nothing but an overlapping update starts a second synchronisation. */
  lemma StepKeepsSingle(s: State, e: Event)
    requires Single(s) && Enabled(s, e)
    ensures Single(Step(s, e)) <==> !Overlap(s, e)
  {
    var s' := Step(s, e);
    match e
    case Update(v, follower) =>
      var n := |s.syncs|;
      if Overlap(s, e) {
        var i :| 0 <= i < n && Live(s.syncs[i]);
        assert Live(s'.syncs[i]) && Live(s'.syncs[n]);
      } else {
        forall i, j | 0 <= i < j < |s'.syncs|
          ensures !(Live(s'.syncs[i]) && Live(s'.syncs[j]))
        {
          assert s'.syncs[i] == s.syncs[i];
          assert j < n ==> s'.syncs[j] == s.syncs[j];
        }
      }
    case Advance(k, ok) =>
      forall i, j | 0 <= i < j < |s'.syncs|
        ensures !(Live(s'.syncs[i]) && Live(s'.syncs[j]))
      {
        assert !(Live(s.syncs[i]) && Live(s.syncs[j]));
        assert Live(s.syncs[k]);
      }
  }

  /** All along a run there is at most one synchronisation if and only if no update is accepted while
      an earlier one is not over: the flags alone do not see to it. */
  lemma {:induction false} SinglesAreExact(s: State, es: seq<Event>)
    requires Single(s) && ValidRun(s, es)
    ensures AlwaysSingle(s, es) <==> NeverOverlaps(s, es)
    decreases es
  {
    if es != [] {
      StepKeepsSingle(s, es[0]);
      if !Overlap(s, es[0]) {
        SinglesAreExact(Step(s, es[0]), es[1..]);
      }
    }
  }

  lemma {:induction false} LastIsSingle(s: State, es: seq<Event>)
    requires ValidRun(s, es) && AlwaysSingle(s, es)
    ensures Single(Run(s, es))
    decreases es
  {
    if es != [] {
      LastIsSingle(Step(s, es[0]), es[1..]);
    }
  }

  /** So without such an update there are never two transfers at once. */
  lemma OneTransferAtOnce(es: seq<Event>)
    requires ValidRun(START, es) && NeverOverlaps(START, es)
    ensures var r := Run(START, es);
      forall i, j | 0 <= i < j < |r.syncs| :: !(r.syncs[i].Receiving? && r.syncs[j].Receiving?)
  {
    SinglesAreExact(START, es);
    LastIsSingle(START, es);
    var r := Run(START, es);
    forall i, j | 0 <= i < j < |r.syncs|
      ensures !(r.syncs[i].Receiving? && r.syncs[j].Receiving?)
    {
      assert !(Live(r.syncs[i]) && Live(r.syncs[j]));
    }
  }

  /** The flags do not keep two transfers apart: a retry does not take the replicating flag again. */
  lemma TwoTransfersAtOnce(v: Version, w: Version) returns (es: seq<Event>)
    ensures ValidRun(START, es)
    ensures Run(START, es).syncs == [Receiving(v), Receiving(w)]
  {
    var yes, no := Advance(0, true), Advance(0, false);
    var other := Advance(1, true);
    var s1 := Step(Step(Step(START, Update(v, true)), yes), no);
    assert s1.syncs == [Aborted(v)];
    var s2 := Step(Step(Step(Step(s1, no), no), yes), yes);
    assert s2 == State(false, true, [Firing(v)]);
    var s3 := Step(Step(s2, Update(w, true)), other);
    assert s3.syncs == [Firing(v), Receiving(w)];
    RunCons(Step(s3, yes), yes, []);
    RunCons(s3, yes, [yes]);
    RunCons(Step(s2, Update(w, true)), other, [yes, yes]);
    RunCons(s2, Update(w, true), [other, yes, yes]);
    var t := [Update(w, true), other, yes, yes];
    RunCons(Step(Step(Step(s1, no), no), yes), yes, t);
    RunCons(Step(Step(s1, no), no), yes, [yes] + t);
    RunCons(Step(s1, no), no, [yes] + ([yes] + t));
    RunCons(s1, no, [no] + ([yes] + ([yes] + t)));
    var u := [no] + ([no] + ([yes] + ([yes] + t)));
    RunCons(Step(Step(START, Update(v, true)), yes), no, u);
    RunCons(Step(START, Update(v, true)), yes, [no] + u);
    RunCons(START, Update(v, true), [yes] + ([no] + u));
    es := [Update(v, true)] + ([yes] + ([no] + u));
  }
}
