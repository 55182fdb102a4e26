/** Watching a directory of source data and downloading what changed (common/hdfs/hdfsmonitor.cc).

    The monitor lists the directory from time to time, queues downloads for changed files in a thread
    pool, retries failed ones, and calls back once every file it is tracking has arrived. Each critical
    section of its one lock is one event here. The pool may refuse a task; `accept` says for which
    files it takes one. The manager that owns the pool outlives the monitor. */
module HdfsSync {
  import opened Bytes
  import opened Common

  type File = Text
  type Checksum = Text

  // ---------------------------------------------------------------- filters

  const ALL: Text := [42]  // "*"

  function IndexOf(filters: seq<Text>, prefix: Text): (i: nat)
    ensures i <= |filters|
    ensures i < |filters| ==> filters[i] == prefix
    ensures prefix !in filters[..i]
  {
    if filters == [] || filters[0] == prefix then 0
    else
      var i := 1 + IndexOf(filters[1..], prefix);
      assert filters[..i] == [filters[0]] + filters[1..][..i - 1];
      i
  }

  /** The filters without the first occurrence of a prefix. */
  function Without(filters: seq<Text>, prefix: Text): seq<Text> {
    var i := IndexOf(filters, prefix);
    if i == |filters| then filters else filters[..i] + filters[i + 1..]
  }

  function With(filters: seq<Text>, prefix: Text): seq<Text> {
    if prefix in filters then filters else filters + [prefix]
  }

  function WithAll(filters: seq<Text>, prefixes: seq<Text>): seq<Text>
    decreases prefixes
  {
    if prefixes == [] then filters
    else With(WithAll(filters, prefixes[..|prefixes| - 1]), prefixes[|prefixes| - 1])
  }

  function WithoutAll(filters: seq<Text>, prefixes: seq<Text>): seq<Text>
    decreases prefixes
  {
    if prefixes == [] then filters
    else Without(WithoutAll(filters, prefixes[..|prefixes| - 1]), prefixes[|prefixes| - 1])
  }

  function AddFilters(filters: seq<Text>, prefixes: seq<Text>): seq<Text> {
    WithAll(Without(filters, ALL), prefixes)
  }

  function Minus(a: nat, b: nat): nat { if a < b then 0 else a - b }

  lemma WithoutCounts(filters: seq<Text>, prefix: Text, p: Text)
    ensures multiset(Without(filters, prefix))[p] == Minus(multiset(filters)[p], if p == prefix then 1 else 0)
  {
    var i := IndexOf(filters, prefix);
    if i == |filters| {
      assert filters[..i] == filters;
      assert prefix !in multiset(filters);
    } else {
      assert filters == filters[..i] + [prefix] + filters[i + 1..];
    }
  }

  lemma CountLast(ps: seq<Text>, p: Text)
    requires ps != []
    ensures var n := |ps| - 1;
      multiset(ps)[p] == multiset(ps[..n])[p] + if p == ps[n] then 1 else 0
  {
    assert ps == ps[..|ps| - 1] + [ps[|ps| - 1]];
  }

  /** Every mention of a prefix takes away one occurrence of it, as long as there are any. */
  lemma {:induction false} WithoutAllCounts(filters: seq<Text>, prefixes: seq<Text>, p: Text)
    ensures multiset(WithoutAll(filters, prefixes))[p] == Minus(multiset(filters)[p], multiset(prefixes)[p])
    decreases prefixes
  {
    if prefixes != [] {
      var n := |prefixes| - 1;
      WithoutAllCounts(filters, prefixes[..n], p);
      WithoutCounts(WithoutAll(filters, prefixes[..n]), prefixes[n], p);
      CountLast(prefixes, p);
    }
  }

  /** What is there stays in front, and what is missing is added once. */
  lemma {:induction false} WithAllCounts(filters: seq<Text>, prefixes: seq<Text>, p: Text)
    ensures filters <= WithAll(filters, prefixes)
    ensures multiset(WithAll(filters, prefixes))[p] ==
      if p in filters then multiset(filters)[p] else if p in prefixes then 1 else 0
    decreases prefixes
  {
    if prefixes != [] {
      var n := |prefixes| - 1;
      WithAllCounts(filters, prefixes[..n], p);
      assert prefixes == prefixes[..n] + [prefixes[n]];
      assert p in WithAll(filters, prefixes[..n]) <==> multiset(WithAll(filters, prefixes[..n]))[p] > 0;
    }
  }

  predicate Selected(filters: seq<Text>, name: Text) {
    exists i | 0 <= i < |filters| :: filters[i] == ALL || filters[i] <= name
  }

  // ---------------------------------------------------------------- metadata

  const TAB: Byte := 9

  predicate WellFormed(dir: Text, line: Text) {
    var fields := Split(line, TAB);
    |fields| == 2 && dir <= fields[0]
  }

  /** The selected files of the first lines, with their checksums. */
  function Listing(dir: Text, filters: seq<Text>, lines: seq<Text>): map<File, Checksum>
    requires forall i | 0 <= i < |lines| :: WellFormed(dir, lines[i])
    decreases lines
  {
    if lines == [] then map[]
    else
      assert WellFormed(dir, lines[|lines| - 1]);
      var rest := Listing(dir, filters, lines[..|lines| - 1]);
      var fields := Split(lines[|lines| - 1], TAB);
      if Selected(filters, fields[0][|dir|..]) then rest[fields[0] := fields[1]] else rest
  }

  /** What the metadata lists, unless it is empty or has a malformed line. */
  function MonitorFiles(dir: Text, filters: seq<Text>, metadata: Text): Option<map<File, Checksum>> {
    var lines := Split(metadata, NEWLINE);
    if lines == [] || exists i | 0 <= i < |lines| :: !WellFormed(dir, lines[i]) then None
    else Some(Listing(dir, filters, lines))
  }

  /** Line k is the last one about file f. */
  predicate LastLine(lines: seq<Text>, k: nat, f: File) {
    && k < |lines| && Split(lines[k], TAB) != [] && Split(lines[k], TAB)[0] == f
    && forall j | k < j < |lines| :: Split(lines[j], TAB) == [] || Split(lines[j], TAB)[0] != f
  }

  /** A file is listed exactly when a line names it and a filter selects it below the directory; its
      checksum is that of its last line. */
  lemma {:induction false} ListingIsExact(dir: Text, filters: seq<Text>, lines: seq<Text>, f: File)
    requires forall i | 0 <= i < |lines| :: WellFormed(dir, lines[i])
    ensures f in Listing(dir, filters, lines) <==>
      (exists k: nat :: LastLine(lines, k, f)) && dir <= f && Selected(filters, f[|dir|..])
    ensures forall k: nat | LastLine(lines, k, f) && f in Listing(dir, filters, lines) ::
      Listing(dir, filters, lines)[f] == Split(lines[k], TAB)[1]
    decreases lines
  {
    if lines == [] {
    } else {
      var n := |lines| - 1;
      var before := lines[..n];
      ListingIsExact(dir, filters, before, f);
      assert WellFormed(dir, lines[n]);
      if Split(lines[n], TAB)[0] == f {
        assert LastLine(lines, n, f);
      } else {
        forall k: nat
          ensures LastLine(lines, k, f) <==> LastLine(before, k, f)
        {
          if LastLine(before, k, f) {
            forall j | k < j < |lines|
              ensures Split(lines[j], TAB) == [] || Split(lines[j], TAB)[0] != f
            {
              assert j < n ==> lines[j] == before[j];
            }
          }
          if LastLine(lines, k, f) {
            assert k != n;
          }
        }
      }
    }
  }

  /** One line per file: the path, a tab and the checksum. */
  function MetadataOf(entries: seq<(File, Checksum)>): Text {
    if entries == [] then [] else entries[0].0 + [TAB] + entries[0].1 + [NEWLINE] + MetadataOf(entries[1..])
  }

  predicate Plain(t: Text) { t != [] && TAB !in t && NEWLINE !in t }

  function LineOf(entry: (File, Checksum)): Text { entry.0 + [TAB] + entry.1 }

  function LinesOf(entries: seq<(File, Checksum)>): (lines: seq<Text>)
    ensures |lines| == |entries|
    ensures forall i | 0 <= i < |entries| :: lines[i] == LineOf(entries[i])
  {
    if entries == [] then [] else [LineOf(entries[0])] + LinesOf(entries[1..])
  }

  lemma LineSplits(entry: (File, Checksum))
    requires Plain(entry.0) && Plain(entry.1)
    ensures Split(LineOf(entry), TAB) == [entry.0, entry.1]
    ensures Split(LineOf(entry), NEWLINE) == [LineOf(entry)]
  {
    SplitAtSeparator(entry.0, entry.1, TAB);
    SplitOnePiece(entry.0, TAB);
    SplitOnePiece(entry.1, TAB);
    SplitOnePiece(LineOf(entry), NEWLINE);
  }

  lemma {:induction false} MetadataSplits(entries: seq<(File, Checksum)>)
    requires forall i | 0 <= i < |entries| :: Plain(entries[i].0) && Plain(entries[i].1)
    ensures Split(MetadataOf(entries), NEWLINE) == LinesOf(entries)
  {
    if entries != [] {
      MetadataSplits(entries[1..]);
      LineSplits(entries[0]);
      SplitAtSeparator(LineOf(entries[0]), MetadataOf(entries[1..]), NEWLINE);
    }
  }

  /** Entry k is the last one about file f. */
  predicate LastEntry(entries: seq<(File, Checksum)>, k: nat, f: File) {
    k < |entries| && entries[k].0 == f && forall j | k < j < |entries| :: entries[j].0 != f
  }

  ghost predicate Carry(lines: seq<Text>, entries: seq<(File, Checksum)>) {
    |lines| == |entries| && forall i | 0 <= i < |lines| :: Split(lines[i], TAB) == [entries[i].0, entries[i].1]
  }

  lemma LinesCarry(entries: seq<(File, Checksum)>)
    requires forall i | 0 <= i < |entries| :: Plain(entries[i].0) && Plain(entries[i].1)
    ensures Carry(LinesOf(entries), entries)
  {
    forall i | 0 <= i < |entries|
      ensures Split(LinesOf(entries)[i], TAB) == [entries[i].0, entries[i].1]
    {
      LineSplits(entries[i]);
    }
  }

  lemma LastCarried(lines: seq<Text>, entries: seq<(File, Checksum)>, k: nat, f: File)
    requires Carry(lines, entries)
    ensures LastLine(lines, k, f) <==> LastEntry(entries, k, f)
  {
  }

  lemma CarriedAreListed(dir: Text, filters: seq<Text>, lines: seq<Text>, entries: seq<(File, Checksum)>, f: File)
    requires Carry(lines, entries) && forall i | 0 <= i < |lines| :: WellFormed(dir, lines[i])
    ensures var listing := Listing(dir, filters, lines);
      && (f in listing <==> (exists k: nat :: LastEntry(entries, k, f)) && dir <= f && Selected(filters, f[|dir|..]))
      && forall k: nat | LastEntry(entries, k, f) && f in listing :: listing[f] == entries[k].1
  {
    ListingIsExact(dir, filters, lines, f);
    forall k: nat
      ensures LastLine(lines, k, f) <==> LastEntry(entries, k, f)
    {
      LastCarried(lines, entries, k, f);
    }
  }

  lemma CarriedIsWellFormed(dir: Text, lines: seq<Text>, entries: seq<(File, Checksum)>, i: nat)
    requires Carry(lines, entries) && i < |lines|
    ensures WellFormed(dir, lines[i]) <==> dir <= entries[i].0
  {
    assert Split(lines[i], TAB) == [entries[i].0, entries[i].1];
  }

  predicate AllBelow(dir: Text, entries: seq<(File, Checksum)>) {
    forall i | 0 <= i < |entries| :: dir <= entries[i].0
  }

  lemma CarriedAreAccepted(dir: Text, filters: seq<Text>, metadata: Text, entries: seq<(File, Checksum)>)
    requires Carry(Split(metadata, NEWLINE), entries)
    ensures MonitorFiles(dir, filters, metadata).Some? <==> entries != [] && AllBelow(dir, entries)
  {
    var lines := Split(metadata, NEWLINE);
    forall i | 0 <= i < |lines|
      ensures WellFormed(dir, lines[i]) <==> dir <= entries[i].0
    {
      CarriedIsWellFormed(dir, lines, entries, i);
    }
  }

  lemma CarriedAreRead(dir: Text, filters: seq<Text>, metadata: Text, entries: seq<(File, Checksum)>, f: File)
    requires Carry(Split(metadata, NEWLINE), entries) && MonitorFiles(dir, filters, metadata).Some?
    ensures var listing := MonitorFiles(dir, filters, metadata).value;
      && (f in listing <==> (exists k: nat :: LastEntry(entries, k, f)) && dir <= f && Selected(filters, f[|dir|..]))
      && forall k: nat | LastEntry(entries, k, f) && f in listing :: listing[f] == entries[k].1
  {
    CarriedAreListed(dir, filters, Split(metadata, NEWLINE), entries, f);
  }

  /** A metadata file has a listing if and only if it has a line and every path lies in the directory.
      It then lists the files that a filter selects by their path below the directory, each with its
      last checksum. */
  lemma MetadataIsRead(dir: Text, filters: seq<Text>, entries: seq<(File, Checksum)>, f: File)
    requires forall i | 0 <= i < |entries| :: Plain(entries[i].0) && Plain(entries[i].1)
    ensures var listing := MonitorFiles(dir, filters, MetadataOf(entries));
      && (listing.Some? <==> entries != [] && AllBelow(dir, entries))
      && (listing.Some? ==>
        && (f in listing.value <==>
          (exists k: nat :: LastEntry(entries, k, f)) && dir <= f && Selected(filters, f[|dir|..]))
        && forall k: nat | LastEntry(entries, k, f) && f in listing.value :: listing.value[f] == entries[k].1)
  {
    MetadataSplits(entries);
    LinesCarry(entries);
    CarriedAreAccepted(dir, filters, MetadataOf(entries), entries);
    if MonitorFiles(dir, filters, MetadataOf(entries)).Some? {
      CarriedAreRead(dir, filters, MetadataOf(entries), entries, f);
    }
  }

  // ---------------------------------------------------------------- the monitor's tables

  datatype SyncStatus = Synced | Synching | SyncFailed

  /** The tables of the monitor and the pool's outstanding downloads. `queued` are the files put into
      the pool since the last notification and `arrived` the outcome of each file's last download;
      they only observe. */
  datatype State = State(
    tracked: map<File, SyncStatus>,
    checksums: map<File, Checksum>,
    tasks: multiset<File>,
    queued: set<File>,
    arrived: map<File, bool>)

  const START := State(map[], map[], multiset{}, {}, map[])

  /** A listed file is queued when its checksum is new, it is not being downloaded already and the
      pool takes it. */
  predicate Queues(s: State, listing: map<File, Checksum>, accept: File -> bool, f: File)
    requires f in listing
  {
    && !(f in s.checksums && s.checksums[f] == listing[f])
    && !InFlight(s, f)
    && accept(f)
  }

  predicate InFlight(s: State, f: File) {
    f in s.tracked && s.tracked[f] == Synching
  }

  function NewlyQueued(s: State, listing: map<File, Checksum>, accept: File -> bool): set<File> {
    set f | f in listing && Queues(s, listing, accept, f)
  }

  function Start(tracked: map<File, SyncStatus>, fs: set<File>): map<File, SyncStatus> {
    map f | f in tracked.Keys + fs :: if f in fs then Synching else tracked[f]
  }

  function Note(checksums: map<File, Checksum>, listing: map<File, Checksum>, fs: set<File>): map<File, Checksum>
    requires fs <= listing.Keys
  {
    map f | f in checksums.Keys + fs :: if f in fs then listing[f] else checksums[f]
  }

  /** The listing puts some files into the pool and records their checksums. */
  function Queue(s: State, listing: map<File, Checksum>, added: set<File>): State
    requires added <= listing.Keys
  {
    s.(tracked := Start(s.tracked, added),
       checksums := Note(s.checksums, listing, added),
       tasks := s.tasks + multiset(added),
       queued := s.queued + added)
  }

  /** Checksums of files no longer listed are forgotten. */
  function Forget(s: State, listed: set<File>): State {
    s.(checksums := map f | f in s.checksums && f in listed :: s.checksums[f])
  }

  function SyncFiles(s: State, listing: map<File, Checksum>, accept: File -> bool): State {
    Forget(Queue(s, listing, NewlyQueued(s, listing, accept)), listing.Keys)
  }

  predicate AllSynced(tracked: map<File, SyncStatus>) {
    forall f | f in tracked :: tracked[f] == Synced
  }

  function Ended(ok: bool): SyncStatus { if ok then Synced else SyncFailed }

  function FinishFile(s: State, f: File, ok: bool): State {
    var tracked := s.tracked[f := Ended(ok)];
    var s' := s.(tracked := tracked, arrived := s.arrived[f := ok]);
    if AllSynced(tracked) then s'.(tracked := map[], queued := {}) else s'
  }

  /** The files a finished download reports, if it reports any. */
  function Notice(s: State, f: File, ok: bool): Option<set<File>> {
    var tracked := s.tracked[f := Ended(ok)];
    if AllSynced(tracked) then Some(tracked.Keys) else None
  }

  /** A download leaves the pool. A path outside the directory is dropped without a word. */
  function Download(dir: Text, s: State, f: File, ok: bool): State {
    var s' := s.(tasks := s.tasks - multiset{f});
    if dir <= f then FinishFile(s', f, ok) else s'
  }

  function Retried(s: State, accept: File -> bool): set<File> {
    set f | f in s.tracked && s.tracked[f] == SyncFailed && accept(f)
  }

  function RetryFiles(s: State, accept: File -> bool): State {
    var again := Retried(s, accept);
    s.(tracked := Start(s.tracked, again), tasks := s.tasks + multiset(again))
  }

  /** What isSynching answers: some tracked file is under way or has failed. */
  predicate IsSynching(s: State) {
    exists f :: f in s.tracked && s.tracked[f] != Synced
  }

  // ---------------------------------------------------------------- runs

  /** Between two syncs the metadata and the filters may become anything, so a sync names both. */
  datatype Event =
    | Sync(filters: seq<Text>, metadata: Text, accept: File -> bool)
    | Finish(file: File, ok: bool)
    | Retry(accept: File -> bool)

  predicate Enabled(s: State, e: Event) {
    e.Finish? ==> e.file in s.tasks
  }

  function Step(dir: Text, s: State, e: Event): State {
    match e
    case Sync(filters, metadata, accept) => SyncStep(dir, s, filters, metadata, accept)
    case Finish(f, ok) => Download(dir, s, f, ok)
    case Retry(accept) => RetryFiles(s, accept)
  }

  function SyncStep(dir: Text, s: State, filters: seq<Text>, metadata: Text, accept: File -> bool): State {
    SyncTo(s, MonitorFiles(dir, filters, metadata), accept)
  }

  function SyncTo(s: State, listing: Option<map<File, Checksum>>, accept: File -> bool): State {
    if listing.None? then s else SyncFiles(s, listing.value, accept)
  }

  predicate ValidRun(dir: Text, s: State, es: seq<Event>)
    decreases es
  {
    es == [] || (Enabled(s, es[0]) && ValidRun(dir, Step(dir, s, es[0]), es[1..]))
  }

  function Run(dir: Text, s: State, es: seq<Event>): State
    decreases es
  {
    if es == [] then s else Run(dir, Step(dir, s, es[0]), es[1..])
  }

  // ---------------------------------------------------------------- invariant

  ghost predicate OneTask(s: State) {
    forall f :: s.tasks[f] == if InFlight(s, f) then 1 else 0
  }

  /** A tracking table never holds a batch that is completely done. */
  predicate Unfinished(s: State) {
    s.tracked != map[] ==> IsSynching(s)
  }

  predicate OutcomesKnown(s: State) {
    forall f | f in s.tracked && s.tracked[f] != Synching ::
      f in s.arrived && s.arrived[f] == (s.tracked[f] == Synced)
  }

  predicate Below(dir: Text, s: State) {
    forall f | f in s.tracked :: dir <= f
  }

  ghost predicate Inv(dir: Text, s: State) {
    && OneTask(s)
    && Unfinished(s)
    && s.queued == s.tracked.Keys
    && OutcomesKnown(s)
    && Below(dir, s)
  }

  lemma StartKeepsOneTask(s: State, s': State, added: set<File>)
    requires OneTask(s) && s'.tracked == Start(s.tracked, added) && s'.tasks == s.tasks + multiset(added)
    requires forall f | f in added :: !InFlight(s, f)
    ensures OneTask(s')
  {
    forall f
      ensures s'.tasks[f] == if InFlight(s', f) then 1 else 0
    {
      assert s.tasks[f] == if InFlight(s, f) then 1 else 0;
      assert multiset(added)[f] == if f in added then 1 else 0;
    }
  }

  lemma StartKeepsUnfinished(s: State, s': State, added: set<File>)
    requires Unfinished(s) && s'.tracked == Start(s.tracked, added)
    ensures Unfinished(s')
  {
    if s'.tracked != map[] {
      if added != {} {
        var f :| f in added;
        assert s'.tracked[f] == Synching;
      } else {
        assert s'.tracked == s.tracked;
      }
    }
  }

  lemma SyncKeepsInv(dir: Text, s: State, listing: map<File, Checksum>, accept: File -> bool)
    requires Inv(dir, s) && forall f | f in listing :: dir <= f
    ensures Inv(dir, SyncFiles(s, listing, accept))
  {
    var s' := SyncFiles(s, listing, accept);
    var added := NewlyQueued(s, listing, accept);
    assert s'.tracked == Start(s.tracked, added);
    StartKeepsOneTask(s, s', added);
    StartKeepsUnfinished(s, s', added);
  }

  lemma RetryKeepsInv(dir: Text, s: State, accept: File -> bool)
    requires Inv(dir, s)
    ensures Inv(dir, RetryFiles(s, accept))
  {
    var s' := RetryFiles(s, accept);
    var again := Retried(s, accept);
    StartKeepsOneTask(s, s', again);
    StartKeepsUnfinished(s, s', again);
  }

  lemma TaskIsTracked(s: State, f: File)
    requires OneTask(s) && f in s.tasks
    ensures InFlight(s, f) && s.tasks[f] == 1
  {
    assert s.tasks[f] == if InFlight(s, f) then 1 else 0;
  }

  lemma FinishKeepsInv(dir: Text, s: State, f: File, ok: bool)
    requires Inv(dir, s) && f in s.tasks
    ensures Inv(dir, Download(dir, s, f, ok)) && dir <= f
  {
    TaskIsTracked(s, f);
    var s' := Download(dir, s, f, ok);
    assert s.tracked[f := Ended(ok)].Keys == s.tracked.Keys;
    forall g
      ensures s'.tasks[g] == if InFlight(s', g) then 1 else 0
    {
      assert s.tasks[g] == if InFlight(s, g) then 1 else 0;
    }
  }

  lemma ListedBelow(dir: Text, filters: seq<Text>, metadata: Text)
    requires MonitorFiles(dir, filters, metadata).Some?
    ensures forall f | f in MonitorFiles(dir, filters, metadata).value :: dir <= f
  {
    forall f | f in MonitorFiles(dir, filters, metadata).value
      ensures dir <= f
    {
      ListingIsExact(dir, filters, Split(metadata, NEWLINE), f);
    }
  }

  lemma StepKeepsInv(dir: Text, s: State, e: Event)
    requires Inv(dir, s) && Enabled(s, e)
    ensures Inv(dir, Step(dir, s, e))
  {
    match e
    case Sync(filters, metadata, accept) =>
      var listing := MonitorFiles(dir, filters, metadata);
      if listing.Some? {
        ListedBelow(dir, filters, metadata);
        SyncKeepsInv(dir, s, listing.value, accept);
      }
    case Finish(f, ok) => FinishKeepsInv(dir, s, f, ok);
    case Retry(accept) => RetryKeepsInv(dir, s, accept);
  }

  lemma {:induction false} RunKeepsInv(dir: Text, s: State, es: seq<Event>)
    requires Inv(dir, s) && ValidRun(dir, s, es)
    ensures Inv(dir, Run(dir, s, es))
    decreases es
  {
    if es != [] {
      StepKeepsInv(dir, s, es[0]);
      RunKeepsInv(dir, Step(dir, s, es[0]), es[1..]);
    }
  }

  // ---------------------------------------------------------------- theorems over whole runs

  /** In every run a file has one outstanding download exactly while it is being synched, and none
      otherwise; and no outstanding download can hit the branch that drops a file silently. */
  lemma OneDownloadPerFile(dir: Text, es: seq<Event>, f: File)
    requires ValidRun(dir, START, es)
    ensures var r := Run(dir, START, es);
      && r.tasks[f] == (if f in r.tracked && r.tracked[f] == Synching then 1 else 0)
      && (f in r.tasks ==> dir <= f)
  {
    RunKeepsInv(dir, START, es);
    var r := Run(dir, START, es);
    assert r.tasks[f] == if InFlight(r, f) then 1 else 0;
  }

  /** A finished batch is never stranded: the monitor calls itself busy exactly while it tracks
      anything, so files that have arrived cannot hold up the next listing. */
  lemma BusyWhileTracking(dir: Text, es: seq<Event>)
    requires ValidRun(dir, START, es)
    ensures IsSynching(Run(dir, START, es)) <==> Run(dir, START, es).tracked != map[]
  {
    RunKeepsInv(dir, START, es);
  }

  /** Each notification lists exactly the files queued since the previous one, and the last download
      of every one of them succeeded. */
  lemma NoticeIsExact(dir: Text, es: seq<Event>, f: File, ok: bool)
    requires ValidRun(dir, START, es) && f in Run(dir, START, es).tasks
    requires Notice(Run(dir, START, es), f, ok).Some?
    ensures var r := Run(dir, START, es);
      var r' := Download(dir, r, f, ok);
      && Notice(r, f, ok).value == r.queued
      && (forall g | g in r.queued :: g in r'.arrived && r'.arrived[g])
      && r'.queued == {} && r'.tracked == map[]
  {
    RunKeepsInv(dir, START, es);
    NoticeOfState(dir, Run(dir, START, es), f, ok);
  }

  lemma NoticeOfState(dir: Text, s: State, f: File, ok: bool)
    requires Inv(dir, s) && f in s.tasks && Notice(s, f, ok).Some?
    ensures var s' := Download(dir, s, f, ok);
      && Notice(s, f, ok).value == s.queued
      && (forall g | g in s.queued :: g in s'.arrived && s'.arrived[g])
      && s'.queued == {} && s'.tracked == map[]
  {
    FinishKeepsInv(dir, s, f, ok);
    TaskIsTracked(s, f);
    var tracked := s.tracked[f := Ended(ok)];
    assert tracked.Keys == s.tracked.Keys;
    var s' := Download(dir, s, f, ok);
    forall g | g in s.queued
      ensures g in s'.arrived && s'.arrived[g]
    {
      assert g in tracked && tracked[g] == Synced;
    }
  }

  function Recorded(s: State, f: File): Option<Checksum> {
    if f in s.checksums then Some(s.checksums[f]) else None
  }

  lemma SyncOfFile(s: State, listing: map<File, Checksum>, accept: File -> bool, f: File)
    requires f in listing
    ensures var s' := SyncFiles(s, listing, accept);
      if Recorded(s, f) != Some(listing[f]) && !InFlight(s, f) && accept(f)
      then InFlight(s', f) && Recorded(s', f) == Some(listing[f]) && s'.tasks[f] == s.tasks[f] + 1
      else (InFlight(s', f) <==> InFlight(s, f)) && Recorded(s', f) == Recorded(s, f) && s'.tasks[f] == s.tasks[f]
  {
    var added := NewlyQueued(s, listing, accept);
    assert f in added <==> Recorded(s, f) != Some(listing[f]) && !InFlight(s, f) && accept(f);
  }

  /** A round of retries puts exactly the failed files that the pool takes back under way. */
  lemma RetryOfFile(s: State, accept: File -> bool, f: File)
    ensures var s' := RetryFiles(s, accept);
      if f in s.tracked && s.tracked[f] == SyncFailed && accept(f)
      then InFlight(s', f) && s'.tasks[f] == s.tasks[f] + 1
      else
        && (f in s'.tracked <==> f in s.tracked) && (f in s.tracked ==> s'.tracked[f] == s.tracked[f])
        && s'.tasks[f] == s.tasks[f]
    ensures RetryFiles(s, accept).checksums == s.checksums && RetryFiles(s, accept).queued == s.queued
  {
    var again := Retried(s, accept);
    assert f in again <==> f in s.tracked && s.tracked[f] == SyncFailed && accept(f);
  }

  /** What is no longer listed is forgotten, and nothing else happens to it. */
  lemma UnlistedIsForgotten(s: State, listing: map<File, Checksum>, accept: File -> bool, f: File)
    requires f !in listing
    ensures var s' := SyncFiles(s, listing, accept);
      Recorded(s', f) == None && (InFlight(s', f) <==> InFlight(s, f))
  {
    assert f !in NewlyQueued(s, listing, accept);
  }

  /** No listing of the run names the file. */
  predicate NeverListed(dir: Text, es: seq<Event>, f: File) {
    forall i | 0 <= i < |es| && es[i].Sync? ::
      var listing := MonitorFiles(dir, es[i].filters, es[i].metadata);
      listing.None? || f !in listing.value
  }

  lemma {:induction false} StaysForgotten(dir: Text, s: State, es: seq<Event>, f: File)
    requires Recorded(s, f) == None && NeverListed(dir, es, f)
    ensures Recorded(Run(dir, s, es), f) == None
    decreases es
  {
    if es != [] {
      var s' := Step(dir, s, es[0]);
      if es[0].Sync? {
        var listing := MonitorFiles(dir, es[0].filters, es[0].metadata);
        if listing.Some? {
          UnlistedIsForgotten(s, listing.value, es[0].accept, f);
        }
      }
      StaysForgotten(dir, s', es[1..], f);
    }
  }

  /** A file that was missing from a listing is queued by the next one that names it, whatever its
      checksum was before and is now, unless it is still under way or the pool refuses it. */
  lemma MissingIsQueuedAgain(dir: Text, s: State, listing: map<File, Checksum>, accept: File -> bool, es: seq<Event>,
                             f: File, listing': map<File, Checksum>, accept': File -> bool)
    requires f !in listing && NeverListed(dir, es, f) && f in listing'
    requires var r := Run(dir, SyncFiles(s, listing, accept), es); !InFlight(r, f)
    ensures var r := Run(dir, SyncFiles(s, listing, accept), es);
      var r' := SyncFiles(r, listing', accept');
      && (InFlight(r', f) <==> accept'(f))
      && (accept'(f) ==> Recorded(r', f) == Some(listing'[f]) && f in r'.queued && r'.tasks[f] == r.tasks[f] + 1)
      && (!accept'(f) ==> Recorded(r', f) == None && r'.tasks[f] == r.tasks[f])
  {
    UnlistedIsForgotten(s, listing, accept, f);
    var r := Run(dir, SyncFiles(s, listing, accept), es);
    StaysForgotten(dir, SyncFiles(s, listing, accept), es, f);
    SyncOfFile(r, listing', accept', f);
    assert f in NewlyQueued(r, listing', accept') <==> accept'(f);
  }

  /** A checksum that changes during a download keeps its recorded value. The listing that follows
      the download queues the file again exactly when the new checksum differs from that value,
      whatever the outcome of the download was. */
  lemma ChangeDuringDownload(dir: Text, s: State, f: File, listing: map<File, Checksum>, accept: File -> bool,
                             ok: bool, listing': map<File, Checksum>, accept': File -> bool)
    requires Inv(dir, s) && f in s.tasks
    requires f in listing && f in listing' && accept'(f)
    ensures var s1 := SyncFiles(s, listing, accept);
      var s2 := Download(dir, s1, f, ok);
      var s3 := SyncFiles(s2, listing', accept');
      && Recorded(s1, f) == Recorded(s, f) && InFlight(s1, f)
      && (InFlight(s3, f) <==> Recorded(s, f) != Some(listing'[f]))
      && Recorded(s3, f) == Some(listing'[f])
  {
    TaskIsTracked(s, f);
    SyncOfFile(s, listing, accept, f);
    var s2 := Download(dir, SyncFiles(s, listing, accept), f, ok);
    assert Recorded(s2, f) == Recorded(s, f) && !InFlight(s2, f);
    SyncOfFile(s2, listing', accept', f);
  }

  // ---------------------------------------------------------------- completion

  /** What a run of events tells the callback, in order. */
  function Notices(dir: Text, s: State, es: seq<Event>): seq<set<File>>
    decreases es
  {
    if es == [] then []
    else
      var later := Notices(dir, Step(dir, s, es[0]), es[1..]);
      if es[0].Finish? && dir <= es[0].file && Notice(s, es[0].file, es[0].ok).Some?
      then [Notice(s, es[0].file, es[0].ok).value] + later
      else later
  }

  function Finishes(fs: seq<File>): seq<Event> {
    if fs == [] then [] else [Finish(fs[0], true)] + Finishes(fs[1..])
  }

  function Underway(s: State): set<File> {
    set f | f in s.tracked && s.tracked[f] == Synching
  }

  predicate NoneFailed(s: State) {
    forall f | f in s.tracked :: s.tracked[f] != SyncFailed
  }

  /** When nothing has failed, the outstanding downloads of a batch, succeeding in whatever order,
      end it with exactly one notification, which lists everything that was queued. */
  lemma {:induction false} BatchCompletes(dir: Text, s: State, order: seq<File>)
    requires Inv(dir, s) && NoneFailed(s) && s.tracked != map[] && Enumerates(order, Underway(s))
    ensures ValidRun(dir, s, Finishes(order))
    ensures Notices(dir, s, Finishes(order)) == [s.queued]
    ensures Run(dir, s, Finishes(order)).tracked == map[]
    decreases order
  {
    FirstUnderway(s, order);
    var f, es := order[0], Finishes(order);
    var s' := Download(dir, s, f, true);
    FinishKeepsInv(dir, s, f, true);
    assert es[0] == Finish(f, true) && es[1..] == Finishes(order[1..]);
    if |order| == 1 {
      LastArrives(s, order);
      NoticeOfState(dir, s, f, true);
      assert es[1..] == [];
    } else {
      OthersUnderway(s, order);
      OneFewer(s, s', order);
      BatchCompletes(dir, s', order[1..]);
      assert Notices(dir, s, es) == Notices(dir, s', es[1..]);
    }
  }

  /** So in every run the next round of retries can end the batch, provided the pool takes every
      retry and the downloads then succeed. */
  lemma RetryCompletes(dir: Text, es: seq<Event>, accept: File -> bool, order: seq<File>)
    requires ValidRun(dir, START, es) && Run(dir, START, es).tracked != map[]
    requires forall f | f in Run(dir, START, es).tracked :: accept(f)
    requires Enumerates(order, Underway(RetryFiles(Run(dir, START, es), accept)))
    ensures var r := Run(dir, START, es);
      var again := RetryFiles(r, accept);
      ValidRun(dir, again, Finishes(order)) && Notices(dir, again, Finishes(order)) == [r.queued]
  {
    RunKeepsInv(dir, START, es);
    var r := Run(dir, START, es);
    RetryKeepsInv(dir, r, accept);
    BatchCompletes(dir, RetryFiles(r, accept), order);
  }

  lemma FirstUnderway(s: State, order: seq<File>)
    requires OneTask(s) && Unfinished(s) && NoneFailed(s) && s.tracked != map[] && Enumerates(order, Underway(s))
    ensures order != [] && InFlight(s, order[0]) && order[0] in s.tasks
  {
    var g :| g in s.tracked && s.tracked[g] != Synced;
    assert g in Underway(s) && g in order;
    assert order[0] in order;
    assert s.tasks[order[0]] == if InFlight(s, order[0]) then 1 else 0;
  }

  lemma LastArrives(s: State, order: seq<File>)
    requires NoneFailed(s) && Enumerates(order, Underway(s)) && |order| == 1
    ensures AllSynced(s.tracked[order[0] := Synced])
  {
    forall g | g in s.tracked && g != order[0]
      ensures s.tracked[g] == Synced
    {
      assert g in Underway(s) <==> s.tracked[g] == Synching;
      assert g in order <==> g == order[0];
    }
  }

  lemma OthersUnderway(s: State, order: seq<File>)
    requires Enumerates(order, Underway(s)) && |order| > 1
    ensures !AllSynced(s.tracked[order[0] := Synced])
  {
    assert order[1] in order && order[0] != order[1];
    assert s.tracked[order[0] := Synced][order[1]] == Synching;
  }

  lemma OneFewer(s: State, s': State, order: seq<File>)
    requires order != [] && order[0] in s.tracked && s'.tracked == s.tracked[order[0] := Synced]
    requires Enumerates(order, Underway(s))
    ensures Enumerates(order[1..], Underway(s'))
  {
    forall x
      ensures x in order[1..] <==> x in Underway(s')
    {
      assert x in order <==> x in Underway(s);
      assert x in order <==> x == order[0] || x in order[1..];
      if x in order[1..] {
        var a :| 0 <= a < |order[1..]| && order[1..][a] == x;
        assert order[0] != order[a + 1];
      }
    }
  }
}
