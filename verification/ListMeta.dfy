/** Lists: a meta value with two exclusive bounds (LaserValueListMeta, common/laser/format.h) and one
    stored element per index between them (listPush and listPop of server/engine/rocksdb.cc). */
module ListMeta {
  import opened Common

  datatype ListOp<+V> = PushFront(value: V) | PushBack(value: V) | PopFront | PopBack

  /** The persisted meta value and the stored elements of one list. */
  datatype ListState<V> = ListState(start: int, end: int, data: map<int, V>)

  /** An absent list reads as (0, 0); popping the last element may leave the bounds one apart. */
  ghost predicate Valid<V>(s: ListState<V>) {
    && s.start <= s.end
    && forall i :: i in s.data <==> s.start < i < s.end
  }

  function Size(start: int, end: int): int {
    if end == start then 0 else end - start - 1
  }

  /** The elements in list order. */
  ghost function Contents<V>(s: ListState<V>): seq<V>
    requires Valid(s)
  {
    seq(Size(s.start, s.end), i requires 0 <= i < Size(s.start, s.end) => s.data[s.start + 1 + i])
  }

  function Empty<V>(): ListState<V> {
    ListState(0, 0, map[])
  }

  datatype Slot = Slot(start: int, end: int, index: int)

  function FrontSlot(start: int, end: int): Slot {
    Slot(start - 1, if start == end then end + 1 else end, start)
  }

  function BackSlot(start: int, end: int): Slot {
    Slot(if start == end then start - 1 else start, end + 1, end)
  }

  function Apply<V>(s: ListState<V>, op: ListOp<V>): (ListState<V>, Option<V>)
    requires Valid(s)
  {
    match op
    case PushFront(v) =>
      var slot := FrontSlot(s.start, s.end);
      (ListState(slot.start, slot.end, s.data[slot.index := v]), None)
    case PushBack(v) =>
      var slot := BackSlot(s.start, s.end);
      (ListState(slot.start, slot.end, s.data[slot.index := v]), None)
    case PopFront =>
      if Size(s.start, s.end) == 0 then (s, None)
      else (ListState(s.start + 1, s.end, s.data - {s.start + 1}), Some(s.data[s.start + 1]))
    case PopBack =>
      if Size(s.start, s.end) == 0 then (s, None)
      else (ListState(s.start, s.end - 1, s.data - {s.end - 1}), Some(s.data[s.end - 1]))
  }

  /** The same operation on a double-ended queue. */
  function Deque<V>(q: seq<V>, op: ListOp<V>): (seq<V>, Option<V>) {
    match op
    case PushFront(v) => ([v] + q, None)
    case PushBack(v) => (q + [v], None)
    case PopFront => if q == [] then (q, None) else (q[1..], Some(q[0]))
    case PopBack => if q == [] then (q, None) else (q[..|q| - 1], Some(q[|q| - 1]))
  }

  // ---------------------------------------------------------------- one operation

  lemma PushFrontRefines<V>(s: ListState<V>, v: V)
    requires Valid(s)
    ensures var s' := Apply(s, PushFront(v)).0;
      Valid(s') && Contents(s') == [v] + Contents(s) && FrontSlot(s.start, s.end).index !in s.data
  {
  }

  lemma PushBackRefines<V>(s: ListState<V>, v: V)
    requires Valid(s)
    ensures var s' := Apply(s, PushBack(v)).0;
      Valid(s') && Contents(s') == Contents(s) + [v] && BackSlot(s.start, s.end).index !in s.data
  {
  }

  lemma PopRefines<V>(s: ListState<V>, op: ListOp<V>)
    requires Valid(s) && (op.PopFront? || op.PopBack?)
    ensures var (s', popped) := Apply(s, op);
      Valid(s') && (Contents(s'), popped) == Deque(Contents(s), op)
  {
    if Size(s.start, s.end) != 0 {
      var s' := Apply(s, op).0;
      assert Valid(s');
      assert Contents(s') == Deque(Contents(s), op).0;
    }
  }

  lemma StepRefines<V>(s: ListState<V>, op: ListOp<V>)
    requires Valid(s)
    ensures var (s', popped) := Apply(s, op);
      Valid(s') && (Contents(s'), popped) == Deque(Contents(s), op)
  {
    match op
    case PushFront(v) => PushFrontRefines(s, v);
    case PushBack(v) => PushBackRefines(s, v);
    case PopFront => PopRefines(s, op);
    case PopBack => PopRefines(s, op);
  }

  // ---------------------------------------------------------------- whole runs

  ghost function Run<V>(s: ListState<V>, ops: seq<ListOp<V>>): (r: (ListState<V>, seq<Option<V>>))
    requires Valid(s)
    decreases ops
  {
    if ops == [] then (s, [])
    else
      StepRefines(s, ops[0]);
      var (s', popped) := Apply(s, ops[0]);
      var (s'', rest) := Run(s', ops[1..]);
      (s'', [popped] + rest)
  }

  ghost function DequeRun<V>(q: seq<V>, ops: seq<ListOp<V>>): (seq<V>, seq<Option<V>>)
    decreases ops
  {
    if ops == [] then (q, [])
    else
      var (q', popped) := Deque(q, ops[0]);
      var (q'', rest) := DequeRun(q', ops[1..]);
      (q'', [popped] + rest)
  }

  function Magnitude(i: int): nat {
    if i < 0 then -i else i
  }

  lemma StepMovesByOne<V>(s: ListState<V>, op: ListOp<V>)
    requires Valid(s)
    ensures var s' := Apply(s, op).0;
      Magnitude(s'.start) <= Magnitude(s.start) + 1 && Magnitude(s'.end) <= Magnitude(s.end) + 1
  {
  }

  /** Over every run the two bounds and the stored elements behave as a double-ended queue: the same
      elements in the same order, the same answers, and a size that is the length of the list. A run
      of n operations keeps the bounds within n of where they were, so 64 bits are enough for fewer
      than 2^63 operations on a new list. */
  lemma {:induction false} RunRefinesDeque<V>(s: ListState<V>, ops: seq<ListOp<V>>)
    requires Valid(s)
    ensures var (s', answers) := Run(s, ops);
      && Valid(s')
      && (Contents(s'), answers) == DequeRun(Contents(s), ops)
      && Size(s'.start, s'.end) == |Contents(s')|
      && Magnitude(s'.start) <= Magnitude(s.start) + |ops|
      && Magnitude(s'.end) <= Magnitude(s.end) + |ops|
    decreases ops
  {
    if ops != [] {
      StepRefines(s, ops[0]);
      StepMovesByOne(s, ops[0]);
      RunRefinesDeque(Apply(s, ops[0]).0, ops[1..]);
    }
  }

  // ---------------------------------------------------------------- the objects

  class LaserValueListMeta {
    var start: int
    var end: int

    constructor (start: int, end: int)
      ensures this.start == start && this.end == end
    {
      this.start, this.end := start, end;
    }

    method PushFront() returns (index: int)
      modifies this
      ensures Slot(start, end, index) == FrontSlot(old(start), old(end))
    {
      if start == end {
        end := end + 1;
      }
      index := start;
      start := start - 1;
    }

    method PushBack() returns (index: int)
      modifies this
      ensures Slot(start, end, index) == BackSlot(old(start), old(end))
    {
      if start == end {
        start := start - 1;
      }
      index := end;
      end := end + 1;
    }

    method PopFront() returns (index: int)
      modifies `start
      ensures index == start == old(start) + 1
    {
      start := start + 1;
      index := start;
    }

    method PopBack() returns (index: int)
      modifies `end
      ensures index == end == old(end) - 1
    {
      end := end - 1;
      index := end;
    }
  }

  /** One list as the engine stores it. */
  class ListStore<V> {
    const meta: LaserValueListMeta
    var data: map<int, V>

    ghost function State(): ListState<V>
      reads this, meta
    {
      ListState(meta.start, meta.end, data)
    }

    constructor ()
      ensures State() == Empty() && fresh(meta)
    {
      meta := new LaserValueListMeta(0, 0);
      data := map[];
    }

    method Push(value: V, left: bool)
      requires Valid(State())
      modifies this, meta
      ensures Valid(State())
      ensures Contents(State()) == if left then [value] + old(Contents(State())) else old(Contents(State())) + [value]
      ensures State() == Apply(old(State()), if left then PushFront(value) else PushBack(value)).0
    {
      PushFrontRefines(State(), value);
      PushBackRefines(State(), value);
      var index: int;
      if left {
        index := meta.PushFront();
      } else {
        index := meta.PushBack();
      }
      data := data[index := value];
    }

    method Pop(left: bool) returns (popped: Option<V>)
      requires Valid(State())
      modifies this, meta
      ensures Valid(State())
      ensures (Contents(State()), popped) == Deque(old(Contents(State())), if left then PopFront else PopBack)
      ensures State() == Apply(old(State()), if left then PopFront else PopBack).0
    {
      PopRefines(State(), if left then PopFront else PopBack);
      if Size(meta.start, meta.end) == 0 {
        return None;
      }
      var index: int;
      if left {
        index := meta.PopFront();
      } else {
        index := meta.PopBack();
      }
      popped := Some(data[index]);
      data := data - {index};
    }
  }
}
