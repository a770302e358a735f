/** Properties of the connector of src/WatchmanConnector.js that relate
    several steps, or a step to an independent description of its effect. */
module ConnectorFacts {
  import opened Maybe
  import opened Seqs
  import FsAccuracy
  import opened WatchmanConnector

  /** The constructor's default parameter has an empty `projectPath`, so
      calling it without options always throws. */
  lemma DefaultOptionsRejected()
    ensures New(DefaultOptions) == Err(MissingProjectPath)
    ensures New(Options(None, None)).Err?
  {
  }

  /** During the initial scan a change is only queued. */
  lemma ChangeDuringScan(c: Connector, acc: int, file: string, mtime: int)
    requires c.initialScan
    ensures HandleChange(c, acc, file, mtime) ==
      Out(c.(initialScanChanged := c.initialScanChanged + [Stamp(file, mtime)]), acc, [], None)
  {
  }

  /** After the initial scan a paused connector still records the time of a
      change (replayed from the scan queue), and does nothing else. */
  lemma ChangeWhilePaused(c: Connector, acc: int, file: string, mtime: int)
    requires !c.initialScan && c.paused
    ensures var acc' := FsAccuracy.Revalidate(acc, mtime);
      HandleChange(c, acc, file, mtime) ==
        Out(c.(fileTimes := c.fileTimes[file := mtime + acc']), acc', [], None)
  {
  }

  /** A live change of `file` at `mtime` records `mtime` plus the revalidated
      accuracy, emits one `change`, leaves `file` pending exactly once
      without touching the pending removals, and starts the timer. */
  lemma LiveChange(c: Connector, acc: int, file: string, mtime: int)
    requires !c.initialScan && !c.paused
    ensures var r := HandleChange(c, acc, file, mtime);
      && r.acc == FsAccuracy.Revalidate(acc, mtime)
      && r.conn.fileTimes == c.fileTimes[file := mtime + r.acc]
      && r.events == [Change(file, mtime)]
      && r.conn.timerArmed
      && file in r.conn.aggregatedChanges
      && (NoDup(c.aggregatedChanges) ==> multiset(r.conn.aggregatedChanges)[file] == 1)
      && c.aggregatedChanges <= r.conn.aggregatedChanges
      && r.conn == c.(fileTimes := r.conn.fileTimes,
                      aggregatedChanges := r.conn.aggregatedChanges, timerArmed := true)
  {
  }

  /** During the initial scan a removal is only queued. */
  lemma RemoveDuringScan(c: Connector, acc: int, file: string)
    requires c.initialScan
    ensures HandleRemove(c, acc, file) ==
      Out(c.(initialScanRemoved := c.initialScanRemoved + [file]), acc, [], None)
  {
  }

  /** After the initial scan a paused connector still forgets the time of a
      removed file, and does nothing else. */
  lemma RemoveWhilePaused(c: Connector, acc: int, file: string)
    requires !c.initialScan && c.paused
    ensures HandleRemove(c, acc, file) == Out(c.(fileTimes := c.fileTimes - {file}), acc, [], None)
  {
  }

  /** A live removal of `file` forgets its time, emits one `remove`, leaves
      `file` pending exactly once without touching the pending changes, and
      starts the timer. */
  lemma LiveRemove(c: Connector, acc: int, file: string)
    requires !c.initialScan && !c.paused
    ensures var r := HandleRemove(c, acc, file);
      && r.conn.fileTimes == c.fileTimes - {file}
      && file !in r.conn.fileTimes
      && r.events == [Remove(file)]
      && r.conn.timerArmed
      && file in r.conn.aggregatedRemovals
      && (NoDup(c.aggregatedRemovals) ==> multiset(r.conn.aggregatedRemovals)[file] == 1)
      && c.aggregatedRemovals <= r.conn.aggregatedRemovals
      && r.conn == c.(fileTimes := c.fileTimes - {file},
                      aggregatedRemovals := r.conn.aggregatedRemovals, timerArmed := true)
  {
  }

  /** The connector does not reclassify: a path changed and then removed
      within one debounce window is pending in both lists. */
  lemma ChangeThenRemoveKeepsBoth(c: Connector, acc: int, file: string, mtime: int)
    requires !c.initialScan && !c.paused
    ensures var o := HandleChange(c, acc, file, mtime);
      var r := HandleRemove(o.conn, o.acc, file);
      file in r.conn.aggregatedChanges && file in r.conn.aggregatedRemovals
  {
    LiveChange(c, acc, file, mtime);
    var o := HandleChange(c, acc, file, mtime);
    LiveRemove(o.conn, o.acc, file);
  }

  /** While paused, every entry of a response is dropped: no event, no time
      recorded, nothing queued or aggregated. */
  lemma {:induction false} PausedDropsEntries(c: Connector, acc: int, es: seq<FileEntry>)
    requires c.paused
    ensures ApplyEntries(c, acc, es) == Out(c, acc, [], None)
    decreases |es|
  {
    if |es| > 0 {
      PausedDropsEntries(c, acc, es[1..]);
    }
  }

  /** While paused, however many copies of the listener run, a response
      only records its clock. */
  lemma {:induction false} PausedIgnoresResponses(c: Connector, acc: int, resp: Response, n: nat)
    requires c.paused
    ensures Deliveries(c, acc, resp, n).events == []
    ensures n > 0 && resp.subscription == SubscriptionName ==>
      Deliveries(c, acc, resp, n) == Out(c.(lastClock := Some(resp.clock)), acc, [], None)
    ensures n == 0 || resp.subscription != SubscriptionName ==>
      Deliveries(c, acc, resp, n) == Out(c, acc, [], None)
    decreases n
  {
    if n > 0 && resp.subscription == SubscriptionName {
      var c1 := c.(lastClock := Some(resp.clock));
      PausedDropsEntries(c1, acc, resp.files);
      PausedIgnoresResponses(c1, acc, resp, n - 1);
    }
  }

  /** A response for another subscription, or one arriving after `close`,
      changes nothing; a matching one records its clock, even while paused,
      and while paused that is all it does. */
  lemma SubscriptionResponse(c: Connector, acc: int, resp: Response)
    ensures resp.subscription != SubscriptionName || c.subscribers == 0 ==>
      HandleSubscription(c, acc, resp) == Out(c, acc, [], None)
    ensures c.subscribers > 0 && resp.subscription == SubscriptionName ==>
      HandleSubscription(c, acc, resp).conn.lastClock == Some(resp.clock)
    ensures c.subscribers > 0 && resp.subscription == SubscriptionName && c.paused ==>
      HandleSubscription(c, acc, resp) == Out(c.(lastClock := Some(resp.clock)), acc, [], None)
  {
    if c.paused {
      PausedIgnoresResponses(c, acc, resp, c.subscribers);
    }
  }

  /** `events` repeated `n` times. */
  function Repeat(events: seq<Event>, n: nat): (r: seq<Event>)
    ensures |r| == n * |events|
  {
    if n == 0 then [] else events + Repeat(events, n - 1)
  }

  /** Live, a response reaching `n` registered copies of the listener emits
      its `change`/`remove` events `n` times over, in order. */
  lemma {:induction false} LiveResponseRepeats(c: Connector, acc: int, resp: Response, n: nat)
    requires !c.initialScan && !c.paused && resp.subscription == SubscriptionName
    ensures Deliveries(c, acc, resp, n).events == Repeat(LiveEvents(c.projectPath, resp.files), n)
    decreases n
  {
    if n > 0 {
      var c1 := c.(lastClock := Some(resp.clock));
      var o := HandleResponse(c, acc, resp);
      LiveEntriesEmit(c1, acc, resp.files);
      LiveResponseRepeats(o.conn, o.acc, resp, n - 1);
    }
  }

  /** One entry during the initial scan: queued, nothing else. */
  lemma ScanQueuesEntry(c: Connector, acc: int, e: FileEntry)
    requires c.initialScan && !c.paused
    ensures HandleEntry(c, acc, e) ==
      Out(c.(initialScanChanged := c.initialScanChanged + EntryChange(c.projectPath, e),
             initialScanRemoved := c.initialScanRemoved + EntryRemoval(c.projectPath, e)),
          acc, [], None)
  {
  }

  /** Concatenation regrouped; a separate step keeps the inductions cheap. */
  lemma AppendAssoc<T>(a: seq<T>, b: seq<T>, c: seq<T>)
    ensures (a + b) + c == a + (b + c)
  {
  }

  /** During the initial scan (not paused), every entry is only appended to
      the queue of its kind, in arrival order and without deduplication:
      nothing is emitted and neither the times, the pending lists nor the
      accuracy change. */
  lemma {:induction false} ScanQueuesEntries(c: Connector, acc: int, es: seq<FileEntry>)
    requires c.initialScan && !c.paused
    ensures var r := ApplyEntries(c, acc, es);
      && r.events == [] && r.acc == acc
      && r.conn.initialScanChanged == c.initialScanChanged + QueuedChanges(c.projectPath, es)
      && r.conn.initialScanRemoved == c.initialScanRemoved + QueuedRemovals(c.projectPath, es)
      && r.conn == c.(initialScanChanged := r.conn.initialScanChanged,
                      initialScanRemoved := r.conn.initialScanRemoved)
    decreases |es|
  {
    if |es| > 0 {
      var root := c.projectPath;
      var o := HandleEntry(c, acc, es[0]);
      ScanQueuesEntry(c, acc, es[0]);
      ScanQueuesEntries(o.conn, o.acc, es[1..]);
      AppendAssoc(c.initialScanChanged, EntryChange(root, es[0]), QueuedChanges(root, es[1..]));
      AppendAssoc(c.initialScanRemoved, EntryRemoval(root, es[0]), QueuedRemovals(root, es[1..]));
    }
  }

  /** Live (initial scan over, not paused), a response emits exactly one
      `change` or `remove` per entry, in order, and leaves the timer running
      when it had any entry. */
  lemma {:induction false} LiveEntriesEmit(c: Connector, acc: int, es: seq<FileEntry>)
    requires !c.initialScan && !c.paused
    ensures ApplyEntries(c, acc, es).events == LiveEvents(c.projectPath, es)
    ensures |es| > 0 ==> ApplyEntries(c, acc, es).conn.timerArmed
    decreases |es|
  {
    if |es| > 0 {
      var o := HandleEntry(c, acc, es[0]);
      LiveEntriesEmit(o.conn, o.acc, es[1..]);
      if |es| > 1 {
        assert ApplyEntries(c, acc, es).conn == ApplyEntries(o.conn, o.acc, es[1..]).conn;
      }
    }
  }

  /** The `k`-th stat is the last one of its path. */
  predicate LastStat(results: seq<Stamp>, k: int)
    requires 0 <= k < |results|
  {
    forall j :: k < j < |results| ==> results[j].path != results[k].path
  }

  /** A file the initial scan does not stat keeps its time, or its absence. */
  lemma {:induction false} ScanKeepsOthers(c: Connector, acc: int, results: seq<Stamp>, f: string)
    requires forall j :: 0 <= j < |results| ==> results[j].path != f
    ensures var r := RecordScan(c, acc, results);
      && (f in r.conn.fileTimes <==> f in c.fileTimes)
      && (f in c.fileTimes ==> r.conn.fileTimes[f] == c.fileTimes[f])
    decreases |results|
  {
    if |results| > 0 {
      var s := results[0];
      var o := SetFileTime(c, FsAccuracy.Revalidate(acc, s.mtime), s.path, s.mtime);
      assert forall j :: 0 <= j < |results[1..]| ==> results[1..][j] == results[j + 1];
      ScanKeepsOthers(o.conn, o.acc, results[1..], f);
    }
  }

  /** The initial scan records, for the last stat of each path, the mtime
      plus an accuracy on the ladder that lies between the accuracy the scan
      ends with and the one it started from. */
  lemma {:induction false} ScanRecordsTime(c: Connector, acc: int, results: seq<Stamp>, k: int)
    requires FsAccuracy.OnLadder(acc)
    requires 0 <= k < |results| && LastStat(results, k)
    ensures var r := RecordScan(c, acc, results);
      && results[k].path in r.conn.fileTimes
      && var d := r.conn.fileTimes[results[k].path] - results[k].mtime;
      && FsAccuracy.OnLadder(d) && r.acc <= d <= acc
    decreases |results|
  {
    var s := results[0];
    var o := SetFileTime(c, FsAccuracy.Revalidate(acc, s.mtime), s.path, s.mtime);
    var tail := results[1..];
    if k == 0 {
      assert forall j :: 0 <= j < |tail| ==> tail[j] == results[j + 1];
      ScanKeepsOthers(o.conn, o.acc, tail, s.path);
    } else {
      assert tail[k - 1] == results[k];
      assert LastStat(tail, k - 1) by {
        forall j | k - 1 < j < |tail| ensures tail[j].path != tail[k - 1].path {
          assert tail[j] == results[j + 1];
        }
      }
      ScanRecordsTime(o.conn, o.acc, tail, k - 1);
    }
  }

  /** After the initial scan a change records its time, paused or not. */
  lemma ChangeRecordsTime(c: Connector, acc: int, file: string, mtime: int)
    requires !c.initialScan
    ensures HandleChange(c, acc, file, mtime).conn.fileTimes.Keys == c.fileTimes.Keys + {file}
  {
  }

  /** Replaying queued changes records a time for each of their paths. */
  lemma {:induction false} ReplayChangesTimes(c: Connector, acc: int, qs: seq<Stamp>)
    requires !c.initialScan
    ensures ReplayChanges(c, acc, qs).conn.fileTimes.Keys == c.fileTimes.Keys + Paths(qs)
    decreases |qs|
  {
    if |qs| > 0 {
      var o := HandleChange(c, acc, qs[0].path, qs[0].mtime);
      ReplayChangesTimes(o.conn, o.acc, qs[1..]);
      ChangeRecordsTime(c, acc, qs[0].path, qs[0].mtime);
    }
  }

  /** Replaying queued changes while paused only records their times. */
  lemma {:induction false} ReplayChangesPaused(c: Connector, acc: int, qs: seq<Stamp>)
    requires !c.initialScan && c.paused
    ensures ReplayChanges(c, acc, qs).events == []
    ensures ReplayChanges(c, acc, qs).conn == c.(fileTimes := ReplayChanges(c, acc, qs).conn.fileTimes)
    decreases |qs|
  {
    if |qs| > 0 {
      var o := HandleChange(c, acc, qs[0].path, qs[0].mtime);
      ReplayChangesPaused(o.conn, o.acc, qs[1..]);
    }
  }

  /** Replaying queued changes live emits one `change` per queued change, in
      queue order, keeps what was pending, adds every replayed path to the
      pending changes and leaves the pending removals alone. */
  lemma {:induction false} ReplayChangesLive(c: Connector, acc: int, qs: seq<Stamp>)
    requires !c.initialScan && !c.paused
    ensures ReplayChanges(c, acc, qs).events == ChangeEvents(qs)
    ensures c.aggregatedChanges <= ReplayChanges(c, acc, qs).conn.aggregatedChanges
    ensures forall q :: q in qs ==> q.path in ReplayChanges(c, acc, qs).conn.aggregatedChanges
    ensures ReplayChanges(c, acc, qs).conn.aggregatedRemovals == c.aggregatedRemovals
    ensures |qs| > 0 ==> ReplayChanges(c, acc, qs).conn.timerArmed
    decreases |qs|
  {
    if |qs| > 0 {
      var o := HandleChange(c, acc, qs[0].path, qs[0].mtime);
      var rest := ReplayChanges(o.conn, o.acc, qs[1..]);
      ReplayChangesLive(o.conn, o.acc, qs[1..]);
      assert qs[0].path in o.conn.aggregatedChanges;
      assert o.conn.aggregatedChanges <= rest.conn.aggregatedChanges;
      assert qs[0].path in rest.conn.aggregatedChanges by {
        var k :| 0 <= k < |o.conn.aggregatedChanges| && o.conn.aggregatedChanges[k] == qs[0].path;
        assert rest.conn.aggregatedChanges[k] == qs[0].path;
      }
      assert forall q :: q in qs ==> q == qs[0] || q in qs[1..];
    }
  }

  /** Replaying queued removals forgets the time of each of their paths,
      whether paused or not. */
  lemma {:induction false} ReplayRemovalsTimes(c: Connector, acc: int, ps: seq<string>)
    requires !c.initialScan
    ensures ReplayRemovals(c, acc, ps).conn.fileTimes == c.fileTimes - Elems(ps)
    decreases |ps|
  {
    if |ps| > 0 {
      var o := HandleRemove(c, acc, ps[0]);
      var rest := ReplayRemovals(o.conn, o.acc, ps[1..]);
      ReplayRemovalsTimes(o.conn, o.acc, ps[1..]);
      var tail := Elems(ps[1..]);
      assert o.conn.fileTimes == c.fileTimes - {ps[0]} by {
        if c.paused { RemoveWhilePaused(c, acc, ps[0]); } else { LiveRemove(c, acc, ps[0]); }
      }
      MinusTwice(c.fileTimes, ps[0], tail);
    }
  }

  /** Replaying queued removals while paused only forgets their times. */
  lemma {:induction false} ReplayRemovalsPaused(c: Connector, acc: int, ps: seq<string>)
    requires !c.initialScan && c.paused
    ensures ReplayRemovals(c, acc, ps).events == []
    ensures ReplayRemovals(c, acc, ps).conn == c.(fileTimes := ReplayRemovals(c, acc, ps).conn.fileTimes)
    decreases |ps|
  {
    if |ps| > 0 {
      var o := HandleRemove(c, acc, ps[0]);
      ReplayRemovalsPaused(o.conn, o.acc, ps[1..]);
    }
  }

  /** Replaying queued removals live emits one `remove` per queued removal,
      in queue order, and leaves the pending changes alone. */
  lemma {:induction false} ReplayRemovalsLive(c: Connector, acc: int, ps: seq<string>)
    requires !c.initialScan && !c.paused
    ensures ReplayRemovals(c, acc, ps).events == RemoveEvents(ps)
    ensures ReplayRemovals(c, acc, ps).conn.aggregatedChanges == c.aggregatedChanges
    ensures forall p :: p in ps ==> p in ReplayRemovals(c, acc, ps).conn.aggregatedRemovals
    decreases |ps|
  {
    if |ps| > 0 {
      var o := HandleRemove(c, acc, ps[0]);
      var rest := ReplayRemovals(o.conn, o.acc, ps[1..]);
      ReplayRemovalsLive(o.conn, o.acc, ps[1..]);
      assert ps[0] in rest.conn.aggregatedRemovals by {
        PendingRemovalStays(o.conn, o.acc, ps[1..], ps[0]);
      }
      assert forall p :: p in ps ==> p == ps[0] || p in ps[1..];
    }
  }

  /** Live removals never drop a pending removal. */
  lemma {:induction false} PendingRemovalStays(c: Connector, acc: int, ps: seq<string>, p: string)
    requires !c.initialScan && !c.paused && p in c.aggregatedRemovals
    ensures p in ReplayRemovals(c, acc, ps).conn.aggregatedRemovals
    decreases |ps|
  {
    if |ps| > 0 {
      var o := HandleRemove(c, acc, ps[0]);
      assert c.aggregatedRemovals <= o.conn.aggregatedRemovals;
      var k :| 0 <= k < |c.aggregatedRemovals| && c.aggregatedRemovals[k] == p;
      assert o.conn.aggregatedRemovals[k] == p;
      PendingRemovalStays(o.conn, o.acc, ps[1..], p);
    }
  }

  /** Removing keys one at a time or together is the same. */
  lemma MinusTwice(m: map<string, int>, k: string, ks: set<string>)
    ensures (m - {k}) - ks == m - ({k} + ks)
  {
  }

  /** The end of the initial scan: the queued changes are replayed before
      the queued removals, each in arrival order, and emit only when not
      paused; the scanned times and the replayed changes are known
      afterwards, the replayed removals are not. */
  lemma FinishScanReplays(c: Connector, acc: int, results: seq<Stamp>)
    ensures var r := FinishScan(c, acc, results);
      && r.events == (if c.paused then []
                      else ChangeEvents(c.initialScanChanged) + RemoveEvents(c.initialScanRemoved))
      && r.conn.fileTimes.Keys ==
           (c.fileTimes.Keys + Paths(results) + Paths(c.initialScanChanged))
             - Elems(c.initialScanRemoved)
  {
    var scanned := RecordScan(c, acc, results);
    var c1 := scanned.conn.(initialScan := false);
    var changed := ReplayChanges(c1, scanned.acc, c1.initialScanChanged);
    ReplayChangesTimes(c1, scanned.acc, c1.initialScanChanged);
    ReplayRemovalsTimes(changed.conn, changed.acc, c1.initialScanRemoved);
    if c.paused {
      ReplayChangesPaused(c1, scanned.acc, c1.initialScanChanged);
      ReplayRemovalsPaused(changed.conn, changed.acc, c1.initialScanRemoved);
    } else {
      ReplayChangesLive(c1, scanned.acc, c1.initialScanChanged);
      ReplayRemovalsLive(changed.conn, changed.acc, c1.initialScanRemoved);
    }
  }

  /** `pause` and `close` keep the pending lists and the recorded times,
      doing either twice is doing it once, and closing a connector that was
      never started is as harmless as closing any other. */
  lemma PauseAndCloseKeepPending(c: Connector)
    ensures Pause(c).aggregatedChanges == c.aggregatedChanges
    ensures Pause(c).aggregatedRemovals == c.aggregatedRemovals
    ensures Close(c).aggregatedChanges == c.aggregatedChanges
    ensures Close(c).aggregatedRemovals == c.aggregatedRemovals
    ensures Close(c).fileTimes == c.fileTimes && Pause(c).fileTimes == c.fileTimes
    ensures Pause(Pause(c)) == Pause(c)
    ensures Close(Close(c)) == Close(c)
  {
  }

  /** `watch` always unpauses; when already connected it does nothing else. */
  lemma WatchOnConnected(c: Connector, acc: int, files: seq<string>, dirs: seq<string>, since: Since)
    requires c.connected
    ensures Watch(c, acc, files, dirs, since) == Out(c.(paused := false), acc, [], None)
  {
  }

  /** Two `watch` calls before the client connects register the listener
      twice, so a later response emits each of its changes twice. */
  lemma WatchTwiceDoublesEvents()
    ensures var c := New(Options(Some(200), Some("/p"))).value;
      var resp := Response(SubscriptionName, "c1", [FileEntry("a", 20000, true)]);
      var s1 := Step(c, FsAccuracy.Initial, WatchCalled(["/p/a"], [], TimeSince(0)));
      var s2 := Step(s1.conn, s1.acc, WatchCalled(["/p/a"], [], TimeSince(0)));
      var s3 := Step(s2.conn, s2.acc, ScanFinished([]));
      var s4 := Step(s3.conn, s3.acc, SubscriptionArrived(resp));
      && s1.events + s2.events + s3.events == []
      && s4.events == [Change("/p/a", 20000), Change("/p/a", 20000)]
  {
    var c := New(Options(Some(200), Some("/p"))).value;
    var resp := Response(SubscriptionName, "c1", [FileEntry("a", 20000, true)]);
    var s1 := Step(c, FsAccuracy.Initial, WatchCalled(["/p/a"], [], TimeSince(0)));
    var s2 := Step(s1.conn, s1.acc, WatchCalled(["/p/a"], [], TimeSince(0)));
    assert s2.conn.subscribers == 2 && !s2.conn.paused && s2.conn.initialScan;
    var s3 := Step(s2.conn, s2.acc, ScanFinished([]));
    FinishScanReplays(s2.conn, s2.acc, []);
    assert !s3.conn.initialScan && !s3.conn.paused && s3.conn.subscribers == 2;
    assert s3.conn.projectPath == "/p";
    TwoListenersEmitTwice(s3.conn, s3.acc);
  }

  /** The last step of `WatchTwiceDoublesEvents`: one response reaching two
      registered listeners. */
  lemma TwoListenersEmitTwice(c: Connector, acc: int)
    requires !c.initialScan && !c.paused && c.subscribers == 2 && c.projectPath == "/p"
    ensures var resp := Response(SubscriptionName, "c1", [FileEntry("a", 20000, true)]);
      Step(c, acc, SubscriptionArrived(resp)).events == [Change("/p/a", 20000), Change("/p/a", 20000)]
  {
    var resp := Response(SubscriptionName, "c1", [FileEntry("a", 20000, true)]);
    LiveResponseRepeats(c, acc, resp, 2);
    assert Join("/p", "a") == "/p/a";
    assert LiveEvents("/p", resp.files) == [Change("/p/a", 20000)];
  }

  /** Replaying queued changes leaves the time of every other file alone. */
  lemma {:induction false} ReplayKeepsOthers(c: Connector, acc: int, qs: seq<Stamp>, f: string)
    requires !c.initialScan
    requires forall j :: 0 <= j < |qs| ==> qs[j].path != f
    ensures var r := ReplayChanges(c, acc, qs);
      && (f in r.conn.fileTimes <==> f in c.fileTimes)
      && (f in c.fileTimes ==> r.conn.fileTimes[f] == c.fileTimes[f])
    decreases |qs|
  {
    if |qs| > 0 {
      var o := HandleChange(c, acc, qs[0].path, qs[0].mtime);
      assert forall j :: 0 <= j < |qs[1..]| ==> qs[1..][j] == qs[j + 1];
      ReplayKeepsOthers(o.conn, o.acc, qs[1..], f);
    }
  }

  /** A file stat-ed by the initial scan, and neither changed nor removed
      while the scan ran, ends the scan with its mtime plus an accuracy on
      the ladder, between the final accuracy and the one before the scan. */
  lemma FinishScanRecordsScanTime(c: Connector, acc: int, results: seq<Stamp>, k: int)
    requires FsAccuracy.OnLadder(acc)
    requires 0 <= k < |results| && LastStat(results, k)
    requires forall j :: 0 <= j < |c.initialScanChanged| ==> c.initialScanChanged[j].path != results[k].path
    requires results[k].path !in c.initialScanRemoved
    ensures var r := FinishScan(c, acc, results);
      && results[k].path in r.conn.fileTimes
      && var d := r.conn.fileTimes[results[k].path] - results[k].mtime;
      && FsAccuracy.OnLadder(d) && r.acc <= d <= acc
  {
    var p := results[k].path;
    var scanned := RecordScan(c, acc, results);
    ScanRecordsTime(c, acc, results, k);
    var c1 := scanned.conn.(initialScan := false);
    var changed := ReplayChanges(c1, scanned.acc, c1.initialScanChanged);
    ReplayKeepsOthers(c1, scanned.acc, c1.initialScanChanged, p);
    ReplayRemovalsTimes(changed.conn, changed.acc, c1.initialScanRemoved);
    assert p !in Elems(c1.initialScanRemoved);
  }

  /** A `watch` on a disconnected connector is the request a run reports
      when nothing after it watches again. */
  lemma RunReportsLastWatch(c: Connector, acc: int, files: seq<string>, dirs: seq<string>, since: Since, rest: seq<Input>)
    requires !c.connected
    requires forall i :: 0 <= i < |rest| ==> !rest[i].WatchCalled?
    ensures Run(c, acc, [WatchCalled(files, dirs, since)] + rest).request
      == Some(WatchRequest(files + dirs, SinceField(since)))
  {
    var inputs := [WatchCalled(files, dirs, since)] + rest;
    assert inputs[0] == WatchCalled(files, dirs, since) && inputs[1..] == rest;
  }
}
