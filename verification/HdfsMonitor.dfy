/** The monitor object of common/hdfs/hdfsmonitor.cc: its tables are updated in place, file by file,
    and every method is proved to do one step of `HdfsSync`. Calls that take the lock run to the end. */
module HdfsMonitors {
  import opened Bytes
  import opened Common
  import opened HdfsSync

  class HdfsMonitor {
    const dir: Text
    var filters: seq<Text>
    var metadata: Text
    var started: bool
    var tracked: map<File, SyncStatus>
    var checksums: map<File, Checksum>
    var tasks: multiset<File>
    ghost var queued: set<File>
    ghost var arrived: map<File, bool>

    ghost function View(): State
      reads this
    {
      State(tracked, checksums, tasks, queued, arrived)
    }

    constructor (dir: Text)
      ensures this.dir == dir && View() == START && filters == [ALL] && metadata == [] && !started
    {
      this.dir := dir;
      filters := [ALL];
      metadata := [];
      started := false;
      tracked := map[];
      checksums := map[];
      tasks := multiset{};
      queued := {};
      arrived := map[];
    }

    /** Listing the metadata; no listing when it is empty or any of its lines is malformed. */
    method GetMonitorFiles() returns (files: Option<map<File, Checksum>>)
      ensures files == MonitorFiles(dir, filters, metadata)
      ensures files.Some? <==> var lines := Split(metadata, NEWLINE);
        lines != [] &&
        forall i | 0 <= i < |lines| :: |Split(lines[i], TAB)| == 2 && dir <= Split(lines[i], TAB)[0]
    {
      var lines := Split(metadata, NEWLINE);
      if lines == [] {
        return None;
      }
      var listing := map[];
      for n := 0 to |lines|
        invariant forall i | 0 <= i < n :: WellFormed(dir, lines[i])
        invariant listing == Listing(dir, filters, lines[..n])
      {
        var fields := Split(lines[n], TAB);
        if |fields| != 2 || !(dir <= fields[0]) {
          assert !WellFormed(dir, lines[n]);
          return None;
        }
        var has := HasFile(fields[0][|dir|..]);
        assert lines[..n + 1][..n] == lines[..n];
        if has {
          listing := listing[fields[0] := fields[1]];
        }
      }
      assert lines[..|lines|] == lines;
      return Some(listing);
    }

    /** A filter is a prefix or the one that matches everything. */
    method HasFile(name: Text) returns (has: bool)
      ensures has <==> Selected(filters, name)
      ensures has <==> ALL in filters || exists p :: p in filters && p <= name
    {
      has := false;
      for i := 0 to |filters|
        invariant has <==> exists j | 0 <= j < i :: filters[j] == ALL || filters[j] <= name
      {
        if filters[i] == ALL || filters[i] <= name {
          has := true;
        }
      }
      assert has <==> Selected(filters, name);
      SelectedIs(filters, name);
    }

    /** Queues what is new in the listing, then forgets the checksums of what is gone. */
    method SyncMonitorFiles(accept: File -> bool)
      modifies this`tracked, this`checksums, this`tasks, this`queued
      ensures View() == SyncStep(dir, old(View()), filters, metadata, accept)
    {
      var files := GetMonitorFiles();
      SyncListing(files, accept);
    }

    method SyncListing(files: Option<map<File, Checksum>>, accept: File -> bool)
      modifies this`tracked, this`checksums, this`tasks, this`queued
      ensures View() == SyncTo(old(View()), files, accept)
    {
      if files == None {
        return;
      }
      QueueFiles(files.value, accept);
      ForgetFiles(files.value.Keys);
    }

    method QueueFiles(listing: map<File, Checksum>, accept: File -> bool)
      modifies this`tracked, this`checksums, this`tasks, this`queued
      ensures View() == Queue(old(View()), listing, NewlyQueued(old(View()), listing, accept))
    {
      ghost var s := View();
      var todo := listing.Keys;
      QueueNothing(s, listing, accept);
      while todo != {}
        invariant todo <= listing.Keys
        invariant View() == QueueAllBut(s, listing, accept, todo)
        decreases todo
      {
        var f :| f in todo;
        QueueOne(s, listing, accept, todo, f);
        SyncFile(f, listing[f], accept);
        todo := todo - {f};
      }
      assert NewlyQueued(s, listing, accept) - todo == NewlyQueued(s, listing, accept);
    }

    method SyncFile(f: File, sum: Checksum, accept: File -> bool)
      modifies this`tracked, this`checksums, this`tasks, this`queued
      ensures View() == QueueFile(old(View()), f, sum, accept)
    {
      if f in checksums && checksums[f] == sum {
        return;
      }
      if f in tracked && tracked[f] == Synching {
        return;
      }
      if accept(f) {
        tasks := tasks + multiset{f};
        tracked := tracked[f := Synching];
        checksums := checksums[f := sum];
        queued := queued + {f};
      }
    }

    method ForgetFiles(listed: set<File>)
      modifies this`checksums
      ensures View() == Forget(old(View()), listed)
    {
      var stale := set f | f in checksums && f !in listed;
      ghost var all := stale;
      while stale != {}
        invariant stale <= all && stale <= checksums.Keys
        invariant checksums == map f | f in old(checksums) && f !in all - stale :: old(checksums)[f]
        decreases stale
      {
        var f :| f in stale;
        checksums := map g | g in checksums && g != f :: checksums[g];
        stale := stale - {f};
      }
    }

    /** Notes how a download ended. When that was the last file missing, all of them are reported and
        the table is cleared. */
    method UpdateSyncStatus(file: File, ok: bool) returns (notice: Option<set<File>>)
      modifies this`tracked, this`queued, this`arrived
      ensures View() == FinishFile(old(View()), file, ok)
      ensures notice == Notice(old(View()), file, ok)
    {
      tracked := tracked[file := Ended(ok)];
      arrived := arrived[file := ok];
      var synced, todo := {}, tracked.Keys;
      while todo != {}
        invariant synced + todo == tracked.Keys
        invariant forall f | f in synced :: tracked[f] == Synced
        decreases todo
      {
        var f :| f in todo;
        if tracked[f] != Synced {
          return None;
        }
        synced := synced + {f};
        todo := todo - {f};
      }
      notice := Some(synced);
      tracked := map[];
      queued := {};
    }

    /** One task of the pool. */
    method DownloadFile(file: File, ok: bool) returns (notice: Option<set<File>>)
      modifies this`tasks, this`tracked, this`queued, this`arrived
      ensures View() == Download(dir, old(View()), file, ok)
      ensures notice == if dir <= file then Notice(old(View()), file, ok) else None
    {
      tasks := tasks - multiset{file};
      if !(dir <= file) {
        return None;
      }
      notice := UpdateSyncStatus(file, ok);
    }

    /** Answers whether anything is missing, and retries what has failed. */
    method IsSynching(accept: File -> bool) returns (busy: bool)
      modifies this`tracked, this`tasks
      ensures View() == RetryFiles(old(View()), accept)
      ensures busy <==> HdfsSync.IsSynching(old(View()))
    {
      busy := false;
      ghost var s := View();
      var todo := tracked.Keys;
      RetryNothing(s, accept);
      while todo != {}
        invariant todo <= s.tracked.Keys
        invariant View() == RetryAllBut(s, accept, todo)
        invariant busy <==> exists f :: f in s.tracked.Keys - todo && s.tracked[f] != Synced
        decreases todo
      {
        var f :| f in todo;
        RetryOne(s, accept, todo, f);
        var missing := RetryFile(f, accept);
        if missing {
          busy := true;
        }
        todo := todo - {f};
      }
      assert Retried(s, accept) - todo == Retried(s, accept);
    }

    method RetryFile(f: File, accept: File -> bool) returns (missing: bool)
      requires f in tracked
      modifies this`tracked, this`tasks
      ensures View() == Requeue(old(View()), f, accept)
      ensures missing <==> old(tracked[f]) != Synced
    {
      missing := tracked[f] != Synced;
      if tracked[f] == SyncFailed && accept(f) {
        tasks := tasks + multiset{f};
        tracked := tracked[f := Synching];
      }
    }

    /** Narrowing the listing to more prefixes; the match-all filter gives way to the first. */
    method AddFilter(prefixes: seq<Text>, accept: File -> bool)
      modifies this`filters, this`tracked, this`checksums, this`tasks, this`queued
      ensures filters == AddFilters(old(filters), prefixes)
      ensures forall p | p != ALL ::
        multiset(filters)[p] ==
        if p in old(filters) then multiset(old(filters))[p] else if p in prefixes then 1 else 0
      ensures View() == SyncStep(dir, old(View()), filters, metadata, accept)
    {
      EraseFilter(ALL);
      for i := 0 to |prefixes|
        invariant filters == WithAll(Without(old(filters), ALL), prefixes[..i])
        invariant View() == old(View())
      {
        assert prefixes[..i + 1][..i] == prefixes[..i];
        if prefixes[i] !in filters {
          filters := filters + [prefixes[i]];
        }
      }
      assert prefixes[..|prefixes|] == prefixes;
      forall p | p != ALL
        ensures multiset(filters)[p] ==
          if p in old(filters) then multiset(old(filters))[p] else if p in prefixes then 1 else 0
      {
        WithoutCounts(old(filters), ALL, p);
        WithAllCounts(Without(old(filters), ALL), prefixes, p);
        assert p in Without(old(filters), ALL) <==> multiset(Without(old(filters), ALL))[p] > 0;
        assert p in old(filters) <==> multiset(old(filters))[p] > 0;
      }
      SyncMonitorFiles(accept);
    }

    method EraseFilter(prefix: Text)
      modifies this`filters
      ensures filters == Without(old(filters), prefix)
    {
      var i := IndexOf(filters, prefix);
      if i < |filters| {
        filters := filters[..i] + filters[i + 1..];
      }
    }

    method DelFilter(prefixes: seq<Text>)
      modifies this`filters
      ensures filters == WithoutAll(old(filters), prefixes)
      ensures forall p :: multiset(filters)[p] == Minus(multiset(old(filters))[p], multiset(prefixes)[p])
    {
      for i := 0 to |prefixes|
        invariant filters == WithoutAll(old(filters), prefixes[..i])
      {
        assert prefixes[..i + 1][..i] == prefixes[..i];
        EraseFilter(prefixes[i]);
      }
      assert prefixes[..|prefixes|] == prefixes;
      forall p
        ensures multiset(filters)[p] == Minus(multiset(old(filters))[p], multiset(prefixes)[p])
      {
        WithoutAllCounts(old(filters), prefixes, p);
      }
    }

    method SetFilter(prefixes: seq<Text>, accept: File -> bool)
      modifies this`filters, this`tracked, this`checksums, this`tasks, this`queued
      ensures filters == prefixes
      ensures View() == SyncStep(dir, old(View()), filters, metadata, accept)
    {
      filters := prefixes;
      SyncMonitorFiles(accept);
    }
  }

  lemma SelectedIs(filters: seq<Text>, name: Text)
    ensures Selected(filters, name) <==> ALL in filters || exists p :: p in filters && p <= name
  {
    if Selected(filters, name) {
      var i :| 0 <= i < |filters| && (filters[i] == ALL || filters[i] <= name);
      assert filters[i] in filters;
    }
    if ALL in filters {
      var i :| 0 <= i < |filters| && filters[i] == ALL;
    }
    if p :| p in filters && p <= name {
      var i :| 0 <= i < |filters| && filters[i] == p;
    }
  }

  // ---------------------------------------------------------------- one file at a time

  function QueueFile(s: State, f: File, sum: Checksum, accept: File -> bool): State {
    if Recorded(s, f) == Some(sum) || InFlight(s, f) || !accept(f) then s
    else s.(tasks := s.tasks + multiset{f}, tracked := s.tracked[f := Synching],
            checksums := s.checksums[f := sum], queued := s.queued + {f})
  }

  function QueueAllBut(s: State, listing: map<File, Checksum>, accept: File -> bool, todo: set<File>): State {
    Queue(s, listing, NewlyQueued(s, listing, accept) - todo)
  }

  function Requeue(s: State, f: File, accept: File -> bool): State {
    if f in s.tracked && s.tracked[f] == SyncFailed && accept(f)
    then s.(tasks := s.tasks + multiset{f}, tracked := s.tracked[f := Synching])
    else s
  }

  function RetryAllBut(s: State, accept: File -> bool, todo: set<File>): State {
    var again := Retried(s, accept) - todo;
    s.(tracked := Start(s.tracked, again), tasks := s.tasks + multiset(again))
  }

  lemma StartNothing(tracked: map<File, SyncStatus>)
    ensures Start(tracked, {}) == tracked
  {
  }

  lemma StartOne(tracked: map<File, SyncStatus>, added: set<File>, f: File)
    ensures Start(tracked, added + {f}) == Start(tracked, added)[f := Synching]
  {
  }

  lemma NoteNothing(checksums: map<File, Checksum>, listing: map<File, Checksum>)
    ensures Note(checksums, listing, {}) == checksums
  {
  }

  lemma NoteOne(checksums: map<File, Checksum>, listing: map<File, Checksum>, added: set<File>, f: File)
    requires added <= listing.Keys && f in listing
    ensures Note(checksums, listing, added + {f}) == Note(checksums, listing, added)[f := listing[f]]
  {
  }

  lemma OneMore(added: set<File>, todo: set<File>, f: File)
    requires f in todo
    ensures f !in added - todo
    ensures added - (todo - {f}) == if f in added then added - todo + {f} else added - todo
  {
  }

  lemma QueueNothing(s: State, listing: map<File, Checksum>, accept: File -> bool)
    ensures QueueAllBut(s, listing, accept, listing.Keys) == s
  {
    assert NewlyQueued(s, listing, accept) - listing.Keys == {};
    StartNothing(s.tracked);
    NoteNothing(s.checksums, listing);
  }

  lemma Untouched(s: State, listing: map<File, Checksum>, added: set<File>, f: File)
    requires added <= listing.Keys && f !in added
    ensures var s' := Queue(s, listing, added);
      Recorded(s', f) == Recorded(s, f) && (InFlight(s', f) <==> InFlight(s, f))
  {
  }

  lemma QueueMore(s: State, listing: map<File, Checksum>, added: set<File>, f: File)
    requires added <= listing.Keys && f !in added && f in listing
    ensures var s' := Queue(s, listing, added);
      Queue(s, listing, added + {f}) ==
      s'.(tasks := s'.tasks + multiset{f}, tracked := s'.tracked[f := Synching],
          checksums := s'.checksums[f := listing[f]], queued := s'.queued + {f})
  {
    StartOne(s.tracked, added, f);
    NoteOne(s.checksums, listing, added, f);
    assert multiset(added + {f}) == multiset(added) + multiset{f};
    assert s.queued + (added + {f}) == s.queued + added + {f};
  }

  lemma QueueOne(s: State, listing: map<File, Checksum>, accept: File -> bool, todo: set<File>, f: File)
    requires f in todo && f in listing
    ensures QueueFile(QueueAllBut(s, listing, accept, todo), f, listing[f], accept) ==
            QueueAllBut(s, listing, accept, todo - {f})
  {
    var all := NewlyQueued(s, listing, accept);
    OneMore(all, todo, f);
    Untouched(s, listing, all - todo, f);
    assert f in all <==> Recorded(s, f) != Some(listing[f]) && !InFlight(s, f) && accept(f);
    if f in all {
      QueueMore(s, listing, all - todo, f);
    }
  }

  lemma RetryNothing(s: State, accept: File -> bool)
    ensures RetryAllBut(s, accept, s.tracked.Keys) == s
  {
    assert Retried(s, accept) - s.tracked.Keys == {};
    StartNothing(s.tracked);
  }

  lemma RetryOne(s: State, accept: File -> bool, todo: set<File>, f: File)
    requires f in todo && f in s.tracked
    ensures var s' := RetryAllBut(s, accept, todo);
      && f in s'.tracked && s'.tracked[f] == s.tracked[f]
      && Requeue(s', f, accept) == RetryAllBut(s, accept, todo - {f})
  {
    var all := Retried(s, accept);
    OneMore(all, todo, f);
    if f in all {
      StartOne(s.tracked, all - todo, f);
    }
  }
}
