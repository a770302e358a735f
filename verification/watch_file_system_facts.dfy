/** What the adapter promises: the callback's lists are the sorted
    selections of the change list, removals never reach it, and each `watch`
    calls back at most once per listener. */
module WatchFileSystemFacts {
  import opened Maybe
  import opened Seqs
  import opened LexOrder
  import C = WatchmanConnector
  import ConnectorInvariant
  import opened WatchmanWatchFileSystem

  /** A selection is sorted and holds each change in `keep` as often as the
      change list does, and nothing else. */
  lemma SelectSpec(changes: seq<string>, keep: seq<string>)
    ensures Sorted(Select(changes, keep))
    ensures forall x :: multiset(Select(changes, keep))[x] == if x in keep then multiset(changes)[x] else 0
    ensures forall x :: x in Select(changes, keep) <==> x in changes && x in keep
  {
    var r := Select(changes, keep);
    assert forall x :: x in r <==> multiset(r)[x] > 0;
  }

  /** The reported files, dirs and missing are the changes that are in
      `files`, `dirs` and `missing` respectively, each list sorted. */
  lemma PartitionSpec(changes: seq<string>, files: seq<string>, dirs: seq<string>, missing: seq<string>)
    ensures var r := Partition(changes, files, dirs, missing);
      && Sorted(r.files) && Sorted(r.dirs) && Sorted(r.missing)
      && (forall x :: x in r.files <==> x in changes && x in files)
      && (forall x :: x in r.dirs <==> x in changes && x in dirs)
      && (forall x :: x in r.missing <==> x in changes && x in missing)
  {
    SelectSpec(changes, files);
    SelectSpec(changes, dirs);
    SelectSpec(changes, missing);
  }

  /** A selection is the only sorted list holding exactly the selected
      changes, as often as they occur: sorting fixes the order completely. */
  lemma SelectIsUnique(changes: seq<string>, keep: seq<string>, s: seq<string>)
    requires Sorted(s)
    requires forall x :: multiset(s)[x] == if x in keep then multiset(changes)[x] else 0
    ensures s == Select(changes, keep)
  {
    var r := Select(changes, keep);
    SelectSpec(changes, keep);
    assert multiset(s) == multiset(r) by {
      forall x ensures multiset(s)[x] == multiset(r)[x] {}
    }
    SortedUnique(s, r);
  }

  /** The order of the change list does not matter to the callback. */
  lemma SelectIgnoresOrder(a: seq<string>, b: seq<string>, keep: seq<string>)
    requires multiset(a) == multiset(b)
    ensures Select(a, keep) == Select(b, keep)
  {
    SelectIsUnique(a, keep, Select(b, keep));
  }

  /** A duplicate-free change list gives duplicate-free lists. */
  lemma SelectNoDup(changes: seq<string>, keep: seq<string>)
    requires NoDup(changes)
    ensures NoDup(Select(changes, keep))
  {
    var r := Select(changes, keep);
    SelectSpec(changes, keep);
    forall x ensures multiset(r)[x] <= 1 {}
  }

  /** A change in none of the watched lists is reported nowhere; one in two
      lists is reported in both. */
  lemma PartitionPlacement(changes: seq<string>, files: seq<string>, dirs: seq<string>, missing: seq<string>, x: string)
    requires x in changes
    ensures var r := Partition(changes, files, dirs, missing);
      && (x !in files && x !in dirs && x !in missing ==> x !in r.files && x !in r.dirs && x !in r.missing)
      && (x in files && x in dirs ==> x in r.files && x in r.dirs)
      && (x in files && x in missing ==> x in r.files && x in r.missing)
      && (x in dirs && x in missing ==> x in r.dirs && x in r.missing)
  {
    PartitionSpec(changes, files, dirs, missing);
  }

  /** The number of `callback` and of `callbackUndelayed` calls in a trace. */
  function Callbacks(calls: seq<Call>): (n: nat)
    ensures n <= |calls|
  {
    if |calls| == 0 then 0 else (if calls[0].Callback? then 1 else 0) + Callbacks(calls[1..])
  }

  function Undelays(calls: seq<Call>): (n: nat)
    ensures n <= |calls|
  {
    if |calls| == 0 then 0 else (if calls[0].Undelayed? then 1 else 0) + Undelays(calls[1..])
  }

  lemma {:induction false} CountsAppend(a: seq<Call>, b: seq<Call>)
    ensures Callbacks(a + b) == Callbacks(a) + Callbacks(b)
    ensures Undelays(a + b) == Undelays(a) + Undelays(b)
    decreases |a|
  {
    if |a| > 0 {
      assert (a + b)[0] == a[0];
      assert (a + b)[1..] == a[1..] + b;
      CountsAppend(a[1..], b);
    } else {
      assert a + b == b;
    }
  }

  function Flag(b: bool): nat { if b then 1 else 0 }

  /** A listener fires at most once: each call it makes uses it up. */
  lemma NotifyOnce(canPurge: bool, w: Watcher, l: Listeners, times: map<string, int>, e: C.Event)
    ensures var r := Notify(canPurge, w, l, times, e);
      && Callbacks(r.1) + Flag(r.0.onAggregated) == Flag(l.onAggregated)
      && Undelays(r.1) + Flag(r.0.onChange) == Flag(l.onChange)
  {
    if e.Aggregated? && l.onAggregated {
      var calls := OnAggregated(canPurge, w, e.changes, times);
      if canPurge {
        assert calls[1..][1..] == [];
      }
    }
  }

  lemma {:induction false} DispatchOnce(canPurge: bool, w: Watcher, l: Listeners, times: map<string, int>, es: seq<C.Event>)
    ensures var r := Dispatch(canPurge, w, l, times, es);
      && Callbacks(r.1) + Flag(r.0.onAggregated) == Flag(l.onAggregated)
      && Undelays(r.1) + Flag(r.0.onChange) == Flag(l.onChange)
    decreases |es|
  {
    if |es| > 0 {
      var first := Notify(canPurge, w, l, times, es[0]);
      var rest := Dispatch(canPurge, w, first.0, times, es[1..]);
      NotifyOnce(canPurge, w, l, times, es[0]);
      DispatchOnce(canPurge, w, first.0, times, es[1..]);
      CountsAppend(first.1, rest.1);
    }
  }

  lemma DeliverOnce(canPurge: bool, w: Watcher, acc: int, i: WatcherInput)
    ensures var r := Deliver(canPurge, w, acc, i);
      && Callbacks(r.2) + Flag(r.0.listeners.onAggregated) <= Flag(w.listeners.onAggregated)
      && Undelays(r.2) + Flag(r.0.listeners.onChange) <= Flag(w.listeners.onChange)
  {
    var o := C.Step(w.conn, acc, ConnectorInput(i));
    DispatchOnce(canPurge, w, w.listeners, o.conn.fileTimes, o.events);
  }

  /** However many things happen to one watcher, its callback and its
      undelayed callback are each called at most once in all. */
  lemma {:induction false} DeliverAllOnce(canPurge: bool, w: Watcher, acc: int, inputs: seq<WatcherInput>)
    ensures var r := DeliverAll(canPurge, w, acc, inputs);
      && Callbacks(r.2) + Flag(r.0.listeners.onAggregated) <= Flag(w.listeners.onAggregated)
      && Undelays(r.2) + Flag(r.0.listeners.onChange) <= Flag(w.listeners.onChange)
    decreases |inputs|
  {
    if |inputs| > 0 {
      var first := Deliver(canPurge, w, acc, inputs[0]);
      var rest := DeliverAll(canPurge, first.0, first.1, inputs[1..]);
      DeliverOnce(canPurge, w, acc, inputs[0]);
      DeliverAllOnce(canPurge, first.0, first.1, inputs[1..]);
      CountsAppend(first.2, rest.2);
    }
  }

  /** Inputs for the current watcher only: no further `watch`. */
  predicate NoWatch(inputs: seq<AdapterInput>) {
    forall k :: 0 <= k < |inputs| ==> inputs[k].ToWatcher?
  }

  lemma {:induction false} RunWithoutWatch(a: Adapter, acc: int, inputs: seq<AdapterInput>)
    requires a.watcher.Some? && NoWatch(inputs)
    ensures var r := Run(a, acc, inputs);
      && r.adapter.watcher.Some?
      && Callbacks(r.calls) + Flag(r.adapter.watcher.value.listeners.onAggregated)
           <= Flag(a.watcher.value.listeners.onAggregated)
      && Undelays(r.calls) + Flag(r.adapter.watcher.value.listeners.onChange)
           <= Flag(a.watcher.value.listeners.onChange)
    decreases |inputs|
  {
    if |inputs| > 0 {
      var first := Step(a, acc, inputs[0]);
      var rest := Run(first.adapter, first.acc, inputs[1..]);
      DeliverOnce(a.canPurge, a.watcher.value, acc, inputs[0].i);
      RunWithoutWatch(first.adapter, first.acc, inputs[1..]);
      CountsAppend(first.calls, rest.calls);
    }
  }

  /** A successful `watch` followed by anything short of another `watch`
      calls the callback at most once, and `callbackUndelayed` at most once
      and only if one was given. */
  lemma EachWatchCallsBackOnce(a: Adapter, acc: int, w: AdapterInput, inputs: seq<AdapterInput>)
    requires w.WatchCalled?
    requires Watch(a, acc, w.files, w.dirs, w.missing, w.startTime, w.options, w.hasUndelayed).Ok?
    requires NoWatch(inputs)
    ensures Callbacks(Run(a, acc, [w] + inputs).calls) <= 1
    ensures Undelays(Run(a, acc, [w] + inputs).calls) <= Flag(w.hasUndelayed)
  {
    var first := Step(a, acc, w);
    assert ([w] + inputs)[1..] == inputs;
    RunWithoutWatch(first.adapter, first.acc, inputs);
    CountsAppend(first.calls, Run(first.adapter, first.acc, inputs).calls);
  }

  /** The change lists of the `aggregated` events among `es`. */
  function ChangeLists(es: seq<C.Event>): (r: seq<seq<string>>)
    ensures forall j :: 0 <= j < |es| && es[j].Aggregated? ==> es[j].changes in r
  {
    if |es| == 0 then []
    else (if es[0].Aggregated? then [es[0].changes] else []) + ChangeLists(es[1..])
  }

  /** What one delivered event can make the adapter call. */
  lemma NotifyCallShapes(canPurge: bool, w: Watcher, l: Listeners, times: map<string, int>, e: C.Event)
    ensures var calls := Notify(canPurge, w, l, times, e).1;
      forall c | c in calls ::
        && (c.Purge? ==> canPurge && e.Aggregated? && c.paths == e.changes)
        && (c.Callback? ==> c.fileTimes == times && c.dirTimes == times)
        && !c.Thrown?
  {
    var calls := Notify(canPurge, w, l, times, e).1;
    if e.Aggregated? && l.onAggregated {
      var report := Partition(e.changes, w.files, w.dirs, w.missing);
      if canPurge {
        assert calls == [Purge(e.changes), Callback(report, times, times)];
      } else {
        assert calls == [Callback(report, times, times)];
      }
    } else if e.Change? && l.onChange {
      assert calls == [Undelayed(e.path, e.mtime)];
    } else {
      assert calls == [];
    }
  }

  /** Every purge is of the change list of an `aggregated` event and only
      happens when the input file system can purge; every callback passes
      the same time map twice, the connector's times after the step; `watch`
      is the only thing that throws. */
  lemma {:induction false} DispatchCallShapes(canPurge: bool, w: Watcher, l: Listeners, times: map<string, int>, es: seq<C.Event>)
    ensures var calls := Dispatch(canPurge, w, l, times, es).1;
      forall c | c in calls ::
        && (c.Purge? ==> canPurge && c.paths in ChangeLists(es))
        && (c.Callback? ==> c.fileTimes == times && c.dirTimes == times)
        && !c.Thrown?
    decreases |es|
  {
    if |es| > 0 {
      var first := Notify(canPurge, w, l, times, es[0]);
      var rest := Dispatch(canPurge, w, first.0, times, es[1..]);
      NotifyCallShapes(canPurge, w, l, times, es[0]);
      DispatchCallShapes(canPurge, w, first.0, times, es[1..]);
      var lists := ChangeLists(es);
      assert lists == (if es[0].Aggregated? then [es[0].changes] else []) + ChangeLists(es[1..]);
      assert forall c | c in first.1 + rest.1 :: c in first.1 || c in rest.1;
    }
  }

  /** The removal list and the clock of an `aggregated` event never reach
      the adapter's calls. */
  lemma RemovalsNeverReported(canPurge: bool, w: Watcher, l: Listeners, times: map<string, int>,
                              changes: seq<string>, r1: seq<string>, r2: seq<string>,
                              k1: Option<string>, k2: Option<string>)
    ensures Notify(canPurge, w, l, times, C.Aggregated(changes, r1, k1))
         == Notify(canPurge, w, l, times, C.Aggregated(changes, r2, k2))
  {
  }

  /** A single event is dispatched as it is notified. */
  lemma DispatchOne(canPurge: bool, w: Watcher, l: Listeners, times: map<string, int>, e: C.Event)
    ensures Dispatch(canPurge, w, l, times, [e]) == Notify(canPurge, w, l, times, e)
  {
    assert [e][1..] == [];
    var n := Notify(canPurge, w, l, times, e);
    assert n.1 + [] == n.1;
  }

  /** When the debounce timer fires and the callback is still registered,
      the callback gets the pending changes, purged first when possible,
      with the current times. */
  lemma TickReports(canPurge: bool, w: Watcher, acc: int)
    requires w.conn.timerArmed && w.listeners.onAggregated
    ensures var r := Deliver(canPurge, w, acc, Tick);
      && r.2 == OnAggregated(canPurge, w, w.conn.aggregatedChanges, w.conn.fileTimes)
      && !r.0.listeners.onAggregated
  {
    var o := C.HandleTimeout(w.conn, acc);
    assert ConnectorInput(Tick) == C.TimerFired;
    assert C.Step(w.conn, acc, C.TimerFired) == o;
    var e := C.Aggregated(w.conn.aggregatedChanges, w.conn.aggregatedRemovals, w.conn.lastClock);
    assert o.events == [e] && o.conn.fileTimes == w.conn.fileTimes;
    DispatchOne(canPurge, w, w.listeners, w.conn.fileTimes, e);
    var n := Notify(canPurge, w, w.listeners, w.conn.fileTimes, e);
    assert Deliver(canPurge, w, acc, Tick).2 == n.1;
  }

  /** The lists reported for a sound connector's batch are duplicate-free. */
  lemma ReportNoDup(w: Watcher)
    requires C.Valid(w.conn)
    ensures var p := Partition(w.conn.aggregatedChanges, w.files, w.dirs, w.missing);
      NoDup(p.files) && NoDup(p.dirs) && NoDup(p.missing)
  {
    SelectNoDup(w.conn.aggregatedChanges, w.files);
    SelectNoDup(w.conn.aggregatedChanges, w.dirs);
    SelectNoDup(w.conn.aggregatedChanges, w.missing);
  }

  /** The adapter's current connector stays sound through any run. */
  ghost predicate AdapterValid(a: Adapter) {
    a.watcher.Some? ==> C.Valid(a.watcher.value.conn)
  }

  lemma StepKeepsAdapterValid(a: Adapter, acc: int, i: AdapterInput)
    requires AdapterValid(a)
    ensures AdapterValid(Step(a, acc, i).adapter)
  {
    if i.ToWatcher? && a.watcher.Some? {
      ConnectorInvariant.StepKeepsValid(a.watcher.value.conn, acc, ConnectorInput(i.i));
    }
  }

  lemma {:induction false} RunKeepsAdapterValid(a: Adapter, acc: int, inputs: seq<AdapterInput>)
    requires AdapterValid(a)
    ensures AdapterValid(Run(a, acc, inputs).adapter)
    decreases |inputs|
  {
    if |inputs| > 0 {
      var first := Step(a, acc, inputs[0]);
      StepKeepsAdapterValid(a, acc, inputs[0]);
      RunKeepsAdapterValid(first.adapter, first.acc, inputs[1..]);
    }
  }
}
