/** src/WatchmanWatchFileSystem.js: the adapter webpack calls. Each `watch`
    starts a created connector and listens once for its first `aggregated`
    event, and, when an undelayed callback is given, once for its first
    `change` event. It turns the aggregated change list into three sorted
    lists by membership, and retires the previous connector.

    The adapter's state is its own options, whether the input file system
    has a `purge`, and the current watcher: the connector, which of its two
    one-shot listeners are still registered, and the three lists the watch
    was called with. What the adapter calls back is an output trace. */
module WatchmanWatchFileSystem {
  import opened Maybe
  import opened Seqs
  import opened LexOrder
  import FsAccuracy
  import C = WatchmanConnector

  /** The three lists passed to the callback. */
  datatype Report = Report(files: seq<string>, dirs: seq<string>, missing: seq<string>)

  /** A call the adapter makes: `callbackUndelayed(file, mtime)`,
      `inputFileSystem.purge(changes)`, `callback(null, files, dirs, missing,
      filetimes, dirtimes)`, or the exception `watch` throws. */
  datatype Call =
    | Undelayed(file: string, mtime: int)
    | Purge(paths: seq<string>)
    | Callback(report: Report, fileTimes: map<string, int>, dirTimes: map<string, int>)
    | Thrown(message: string)

  /** The `once` listeners of a watcher that have not fired yet. */
  datatype Listeners = Listeners(onChange: bool, onAggregated: bool)

  const NoListeners: Listeners := Listeners(false, false)

  /** The connector a `watch` call started, with its listeners and the
      `files`, `dirs` and `missing` of that call. */
  datatype Watcher = Watcher(
    conn: C.Connector,
    listeners: Listeners,
    files: seq<string>,
    dirs: seq<string>,
    missing: seq<string>)

  datatype Adapter = Adapter(options: C.Options, canPurge: bool, watcher: Option<Watcher>)

  /** What happens to the current watcher once `watch` has returned: the
      handle's `close` and `pause`, and the connector's own inputs. */
  datatype WatcherInput =
    | HandleClose
    | HandlePause
    | Respond(resp: C.Response)
    | Scanned(results: seq<C.Stamp>)
    | Tick
    | Connection(up: bool)

  datatype AdapterInput =
    | WatchCalled(files: seq<string>, dirs: seq<string>, missing: seq<string>,
                  startTime: int, options: C.Options, hasUndelayed: bool)
    | ToWatcher(i: WatcherInput)

  /** The result of a step of the adapter. */
  datatype Out = Out(adapter: Adapter, acc: int, calls: seq<Call>)

  /** The constructor: the options and whether `inputFileSystem.purge` exists. */
  function NewAdapter(options: C.Options, canPurge: bool): (r: Adapter)
    ensures r.watcher.None? && r.options == options && r.canPurge == canPurge
  {
    Adapter(options, canPurge, None)
  }

  /** `Object.assign({}, base, over)` on the two connector options: a key
      `over` has wins. */
  function Merge(base: C.Options, over: C.Options): (r: C.Options)
    ensures over.aggregateTimeout.Some? ==> r.aggregateTimeout == over.aggregateTimeout
    ensures over.aggregateTimeout.None? ==> r.aggregateTimeout == base.aggregateTimeout
    ensures over.projectPath.Some? ==> r.projectPath == over.projectPath
    ensures over.projectPath.None? ==> r.projectPath == base.projectPath
  {
    C.Options(
      if over.aggregateTimeout.Some? then over.aggregateTimeout else base.aggregateTimeout,
      if over.projectPath.Some? then over.projectPath else base.projectPath)
  }

  /** The members of `changes` that are in `keep`, sorted: `changes.filter(file
      => keep.indexOf(file) >= 0).sort()`. What it yields is stated by
      `WatchFileSystemFacts.SelectSpec`. */
  function Select(changes: seq<string>, keep: seq<string>): (r: seq<string>)
    ensures Sorted(r)
  {
    Sort(Filter(changes, keep))
  }

  /** The three lists of the callback, stated by
      `WatchFileSystemFacts.PartitionSpec`. */
  function Partition(changes: seq<string>, files: seq<string>, dirs: seq<string>, missing: seq<string>): (r: Report)
    ensures Sorted(r.files) && Sorted(r.dirs) && Sorted(r.missing)
  {
    Report(Select(changes, files), Select(changes, dirs), Select(changes, missing))
  }

  /** The `aggregated` listener: only the change list is used; it is purged
      from the input file system when that can purge, then reported with the
      connector's times as both time maps. */
  function OnAggregated(canPurge: bool, w: Watcher, changes: seq<string>, times: map<string, int>): (r: seq<Call>)
    ensures |r| == if canPurge then 2 else 1
    ensures canPurge ==> r[0] == Purge(changes)
    ensures r[|r| - 1] == Callback(Partition(changes, w.files, w.dirs, w.missing), times, times)
  {
    (if canPurge then [Purge(changes)] else [])
      + [Callback(Partition(changes, w.files, w.dirs, w.missing), times, times)]
  }

  /** What one emitted event makes the adapter call, and which listeners are
      left: each listener fires at most once and is then removed. */
  function Notify(canPurge: bool, w: Watcher, l: Listeners, times: map<string, int>, e: C.Event): (r: (Listeners, seq<Call>))
    ensures (r.0.onChange ==> l.onChange) && (r.0.onAggregated ==> l.onAggregated)
    ensures !l.onChange && !l.onAggregated ==> r == (l, [])
    ensures e.Remove? ==> r == (l, [])
  {
    match e
    case Change(path, mtime) =>
      if l.onChange then (l.(onChange := false), [Undelayed(path, mtime)]) else (l, [])
    case Remove(_) => (l, [])
    case Aggregated(changes, _, _) =>
      if l.onAggregated then (l.(onAggregated := false), OnAggregated(canPurge, w, changes, times))
      else (l, [])
  }

  /** The events of one step delivered to the listeners, in order. */
  function Dispatch(canPurge: bool, w: Watcher, l: Listeners, times: map<string, int>, es: seq<C.Event>): (r: (Listeners, seq<Call>))
    decreases |es|
    ensures (r.0.onChange ==> l.onChange) && (r.0.onAggregated ==> l.onAggregated)
    ensures !l.onChange && !l.onAggregated ==> r == (l, [])
  {
    if |es| == 0 then (l, [])
    else
      var first := Notify(canPurge, w, l, times, es[0]);
      var rest := Dispatch(canPurge, w, first.0, times, es[1..]);
      assert !l.onChange && !l.onAggregated ==> first.1 + rest.1 == [];
      (rest.0, first.1 + rest.1)
  }

  /** The connector input a watcher input is. */
  function ConnectorInput(i: WatcherInput): (r: C.Input)
    ensures !r.WatchCalled?
  {
    match i
    case HandleClose => C.CloseCalled
    case HandlePause => C.PauseCalled
    case Respond(resp) => C.SubscriptionArrived(resp)
    case Scanned(results) => C.ScanFinished(results)
    case Tick => C.TimerFired
    case Connection(up) => C.ConnectionChanged(up)
  }

  /** Something happens to the current watcher: the connector steps, its
      events reach the listeners still registered, and `close` removes all
      listeners. `getTimes()` is read when the listener runs, after the
      step. */
  function Deliver(canPurge: bool, w: Watcher, acc: int, i: WatcherInput): (r: (Watcher, int, seq<Call>))
    ensures (r.0.listeners.onChange ==> w.listeners.onChange)
    ensures (r.0.listeners.onAggregated ==> w.listeners.onAggregated)
    ensures i.HandleClose? ==> r.0.listeners == NoListeners && r.2 == []
    ensures !w.listeners.onChange && !w.listeners.onAggregated ==> r.2 == []
    ensures r.0.files == w.files && r.0.dirs == w.dirs && r.0.missing == w.missing
  {
    var o := C.Step(w.conn, acc, ConnectorInput(i));
    var d := Dispatch(canPurge, w, w.listeners, o.conn.fileTimes, o.events);
    var l := if i.HandleClose? then NoListeners else d.0;
    (w.(conn := o.conn, listeners := l), o.acc, d.1)
  }

  /** A run of inputs delivered to one watcher. */
  function DeliverAll(canPurge: bool, w: Watcher, acc: int, inputs: seq<WatcherInput>): (r: (Watcher, int, seq<Call>))
    decreases |inputs|
    ensures (r.0.listeners.onChange ==> w.listeners.onChange)
    ensures (r.0.listeners.onAggregated ==> w.listeners.onAggregated)
    ensures !w.listeners.onChange && !w.listeners.onAggregated ==> r.2 == []
    ensures r.0.files == w.files && r.0.dirs == w.dirs && r.0.missing == w.missing
  {
    if |inputs| == 0 then (w, acc, [])
    else
      var first := Deliver(canPurge, w, acc, inputs[0]);
      var rest := DeliverAll(canPurge, first.0, first.1, inputs[1..]);
      (rest.0, rest.1, first.2 + rest.2)
  }

  /** The result of `watch`: the adapter afterwards, the subscription and
      scan the new connector starts, and the previous connector as closed. */
  datatype Started = Started(adapter: Adapter, request: C.WatchRequest, retired: Option<C.Connector>)

  /** `watch(files, dirs, missing, startTime, options, callback,
      callbackUndelayed)`. The connector's constructor throws when the
      merged options have no project path, before anything changes. */
  function Watch(a: Adapter, acc: int, files: seq<string>, dirs: seq<string>, missing: seq<string>,
                 startTime: int, options: C.Options, hasUndelayed: bool): (r: Result<Started>)
    ensures var merged := Merge(options, a.options);
      r.Ok? <==> merged.projectPath.Some? && merged.projectPath.value != ""
    ensures r.Err? ==> r.message == C.MissingProjectPath
    ensures r.Ok? ==>
      && r.value.request.files == files + missing + dirs
      && r.value.request.since.Seconds?
      && r.value.request.since.seconds * 1000 <= startTime < r.value.request.since.seconds * 1000 + 1000
    ensures r.Ok? ==> var s := r.value;
      && s.adapter.options == a.options && s.adapter.canPurge == a.canPurge
      && s.adapter.watcher.Some?
      && var w := s.adapter.watcher.value;
      && w.listeners == Listeners(hasUndelayed, true)
      && w.files == files && w.dirs == dirs && w.missing == missing
      && w.conn.options == Merge(options, a.options)
      && !w.conn.paused && w.conn.initialScan && w.conn.subscribers == 1 && !w.conn.timerArmed
      && w.conn.fileTimes == map[] && w.conn.aggregatedChanges == [] && w.conn.aggregatedRemovals == []
      && C.Valid(w.conn)
    ensures r.Ok? ==> (r.value.retired.Some? <==> a.watcher.Some?)
    ensures r.Ok? && a.watcher.Some? ==> var before := a.watcher.value.conn; var c := r.value.retired.value;
      && c.paused && !c.timerArmed && c.subscribers == 0
      && c.aggregatedChanges == before.aggregatedChanges && c.aggregatedRemovals == before.aggregatedRemovals
  {
    match C.New(Merge(options, a.options))
    case Err(message) => Err(message)
    case Ok(created) =>
      var o := C.Watch(created, acc, files + missing, dirs, C.TimeSince(startTime));
      var w := Watcher(o.conn, Listeners(hasUndelayed, true), files, dirs, missing);
      var retired := if a.watcher.Some? then Some(C.Close(a.watcher.value.conn)) else None;
      Ok(Started(a.(watcher := Some(w)), o.request.value, retired))
  }

  /** One step of the adapter. A watcher input with no watcher yet does
      nothing: the handle that would carry it does not exist. */
  function Step(a: Adapter, acc: int, i: AdapterInput): (r: Out)
    ensures r.adapter.options == a.options && r.adapter.canPurge == a.canPurge
    ensures i.WatchCalled? && Watch(a, acc, i.files, i.dirs, i.missing, i.startTime, i.options, i.hasUndelayed).Err? ==>
      r == Out(a, acc, [Thrown(C.MissingProjectPath)])
    ensures i.WatchCalled? ==> r.acc == acc
    ensures i.ToWatcher? && a.watcher.None? ==> r == Out(a, acc, [])
  {
    match i
    case WatchCalled(files, dirs, missing, startTime, options, hasUndelayed) =>
      (match Watch(a, acc, files, dirs, missing, startTime, options, hasUndelayed)
       case Err(message) => Out(a, acc, [Thrown(message)])
       case Ok(s) => Out(s.adapter, acc, []))
    case ToWatcher(wi) =>
      if a.watcher.None? then Out(a, acc, [])
      else
        var d := Deliver(a.canPurge, a.watcher.value, acc, wi);
        Out(a.(watcher := Some(d.0)), d.1, d.2)
  }

  function Run(a: Adapter, acc: int, inputs: seq<AdapterInput>): (r: Out)
    decreases |inputs|
    ensures r.adapter.options == a.options && r.adapter.canPurge == a.canPurge
    ensures a.watcher.Some? ==> r.adapter.watcher.Some?
  {
    if |inputs| == 0 then Out(a, acc, [])
    else
      var first := Step(a, acc, inputs[0]);
      var rest := Run(first.adapter, first.acc, inputs[1..]);
      Out(rest.adapter, rest.acc, first.calls + rest.calls)
  }
}
