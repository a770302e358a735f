/** src/WatchmanConnector.js: the connector that turns watchman subscription
    responses into `change`, `remove` and debounced `aggregated` events.

    The connector's fields form one immutable record; every entry point of
    the class (a subscription response, the end of the initial scan, the
    debounce timer, `pause`, `close`, `watch`, the client's connect and end
    notifications) is a pure step from a record to a record plus the events
    it emits, in order. The accuracy estimate of src/utils/fsAccuracy.js is
    a module-global in the source, shared by every connector, so it is passed
    in and handed back by every step rather than stored in the record. */
module WatchmanConnector {
  import opened Maybe
  import opened Seqs
  import FsAccuracy

  /** Constructor options; `None` stands for a key that is absent. */
  datatype Options = Options(aggregateTimeout: Option<int>, projectPath: Option<string>)

  /** The default value of the constructor's parameter. */
  const DefaultOptions: Options := Options(Some(200), Some(""))

  /** The name the connector subscribes under and accepts responses for. */
  const SubscriptionName: string := "webpack_subscription"

  const MissingProjectPath: string := "projectPath is missing for WatchmanPlugin"

  /** The `since` argument of `watch`: a watchman clock string, or a time in
      milliseconds. */
  datatype Since = ClockSince(clock: string) | TimeSince(millis: int)

  /** The `since` field sent in the subscribe command: a clock, or seconds. */
  datatype SubscribeSince = Clock(clock: string) | Seconds(seconds: int)

  /** One file of a subscription response: `name`, `mtime_ms`, and `exists`
      (called `present` here, `exists` being a Dafny keyword). */
  datatype FileEntry = FileEntry(name: string, mtimeMs: int, present: bool)

  /** A watchman subscription response. */
  datatype Response = Response(subscription: string, clock: string, files: seq<FileEntry>)

  /** A change held back during the initial scan, and a completed `fs.stat`
      of the initial scan: a path and its mtime in milliseconds. */
  datatype Stamp = Stamp(path: string, mtime: int)

  /** What the connector emits to its listeners. */
  datatype Event =
    | Change(path: string, mtime: int)
    | Remove(path: string)
    | Aggregated(changes: seq<string>, removals: seq<string>, clock: Option<string>)

  /** What `watch` starts when it is not yet connected: the subscription and
      the initial scan, both over `files`. */
  datatype WatchRequest = WatchRequest(files: seq<string>, since: SubscribeSince)

  /** The connector's fields. `timerArmed` stands for a scheduled debounce
      timer (`timeoutRef`); `subscribers` is how many times
      `handleSubscription` is registered as a `subscription` listener on the
      live client (each `watch` made while not connected registers it once
      more); `lastClock` is `None` until the first response. */
  datatype Connector = Connector(
    options: Options,
    projectPath: string,
    paused: bool,
    initialScan: bool,
    connected: bool,
    subscribers: nat,
    timerArmed: bool,
    fileTimes: map<string, int>,
    aggregatedChanges: seq<string>,
    aggregatedRemovals: seq<string>,
    initialScanChanged: seq<Stamp>,
    initialScanRemoved: seq<string>,
    lastClock: Option<string>)

  /** The result of a step: the new record, the new accuracy, the events in
      the order they are emitted, and what `watch` started, if anything. */
  datatype Out = Out(conn: Connector, acc: int, events: seq<Event>, request: Option<WatchRequest>)

  /** The things that can happen to a connector. */
  datatype Input =
    | SubscriptionArrived(resp: Response)
    | ScanFinished(results: seq<Stamp>)
    | TimerFired
    | PauseCalled
    | CloseCalled
    | WatchCalled(files: seq<string>, dirs: seq<string>, since: Since)
    | ConnectionChanged(up: bool)

  /** The pending batch is duplicate-free, and a scheduled timer always has
      something to report and never runs while paused. */
  ghost predicate PendingOk(c: Connector) {
    && NoDup(c.aggregatedChanges)
    && NoDup(c.aggregatedRemovals)
    && (c.timerArmed ==> |c.aggregatedChanges| + |c.aggregatedRemovals| > 0)
    && (c.paused ==> !c.timerArmed)
  }

  /** `PendingOk`, and nothing is queued once the initial scan is over. */
  ghost predicate Valid(c: Connector) {
    && PendingOk(c)
    && (!c.initialScan ==> c.initialScanChanged == [] && c.initialScanRemoved == [])
  }

  /** The constructor: fails unless `projectPath` is a non-empty string. */
  function New(o: Options): (r: Result<Connector>)
    ensures r.Ok? <==> o.projectPath.Some? && o.projectPath.value != ""
    ensures r.Err? ==> r.message == MissingProjectPath
    ensures r.Ok? ==> var c := r.value;
      && c.paused && c.initialScan && !c.connected && c.subscribers == 0 && !c.timerArmed
      && c.fileTimes == map[] && c.aggregatedChanges == [] && c.aggregatedRemovals == []
      && c.initialScanChanged == [] && c.initialScanRemoved == [] && c.lastClock == None
      && c.projectPath == o.projectPath.value && c.options == o
    ensures r.Ok? ==> Valid(r.value)
  {
    if o.projectPath.None? || o.projectPath.value == "" then Err(MissingProjectPath)
    else Ok(Connector(o, o.projectPath.value, true, true, false, 0, false,
                      map[], [], [], [], [], None))
  }

  /** The subscribe command's `since`: a clock passes through, a time in
      milliseconds becomes whole seconds, rounded down (`Math.floor`). */
  function SinceField(since: Since): (r: SubscribeSince)
    ensures since.ClockSince? ==> r == Clock(since.clock)
    ensures since.TimeSince? ==>
      r.Seconds? && r.seconds * 1000 <= since.millis < r.seconds * 1000 + 1000
  {
    match since
    case ClockSince(clock) => Clock(clock)
    case TimeSince(millis) => Seconds(millis / 1000)
  }

  /** `path.join(projectPath, name)`; path normalisation is not modelled. */
  function Join(root: string, name: string): string {
    root + "/" + name
  }

  /** `setFileTime`: revalidates the accuracy with `mtime`, then records
      `mtime` plus the revalidated accuracy. */
  function SetFileTime(c: Connector, acc: int, file: string, mtime: int): (r: Out)
    ensures r.acc == FsAccuracy.Revalidate(acc, mtime)
    ensures file in r.conn.fileTimes && r.conn.fileTimes[file] - mtime == r.acc
    ensures forall f :: f != file ==>
      (f in r.conn.fileTimes <==> f in c.fileTimes)
      && (f in c.fileTimes ==> r.conn.fileTimes[f] == c.fileTimes[f])
    ensures r.conn == c.(fileTimes := r.conn.fileTimes)
    ensures r.events == [] && r.request == None
  {
    var acc' := FsAccuracy.Revalidate(acc, mtime);
    Out(c.(fileTimes := c.fileTimes[file := mtime + FsAccuracy.Get(acc')]), acc', [], None)
  }

  /** `handleAggregatedChange`: adds `file` to the pending changes unless it
      is there already, and (re)starts the debounce timer. */
  function AggregateChange(c: Connector, file: string): (r: Connector)
    ensures r.timerArmed && file in r.aggregatedChanges
    ensures c.aggregatedChanges <= r.aggregatedChanges
    ensures file in c.aggregatedChanges ==> r.aggregatedChanges == c.aggregatedChanges
    ensures file !in c.aggregatedChanges ==> r.aggregatedChanges == c.aggregatedChanges + [file]
    ensures r == c.(aggregatedChanges := r.aggregatedChanges, timerArmed := true)
  {
    c.(aggregatedChanges := PushUnique(c.aggregatedChanges, file), timerArmed := true)
  }

  /** `handleAggregatedRemove`: adds `file` to the pending removals unless it
      is there already, and (re)starts the debounce timer. */
  function AggregateRemoval(c: Connector, file: string): (r: Connector)
    ensures r.timerArmed && file in r.aggregatedRemovals
    ensures c.aggregatedRemovals <= r.aggregatedRemovals
    ensures file in c.aggregatedRemovals ==> r.aggregatedRemovals == c.aggregatedRemovals
    ensures file !in c.aggregatedRemovals ==> r.aggregatedRemovals == c.aggregatedRemovals + [file]
    ensures r == c.(aggregatedRemovals := r.aggregatedRemovals, timerArmed := true)
  {
    c.(aggregatedRemovals := PushUnique(c.aggregatedRemovals, file), timerArmed := true)
  }

  /** The fields a handler never touches. */
  predicate SameFlags(c: Connector, d: Connector) {
    && d.options == c.options && d.projectPath == c.projectPath
    && d.paused == c.paused && d.initialScan == c.initialScan
    && d.connected == c.connected && d.subscribers == c.subscribers
    && d.lastClock == c.lastClock
  }

  /** `handleChange(filePath, mtime)`: queued during the initial scan;
      afterwards the time is recorded, and unless paused a `change` is
      emitted and the path aggregated. What it does in each case is stated
      by the lemmas of `ConnectorFacts`. */
  function HandleChange(c: Connector, acc: int, file: string, mtime: int): (r: Out)
    ensures SameFlags(c, r.conn) && r.request == None
    ensures r.acc <= acc && (FsAccuracy.OnLadder(acc) ==> FsAccuracy.OnLadder(r.acc))
  {
    if c.initialScan then
      Out(c.(initialScanChanged := c.initialScanChanged + [Stamp(file, mtime)]), acc, [], None)
    else
      var t := SetFileTime(c, acc, file, mtime);
      if t.conn.paused then t
      else Out(AggregateChange(t.conn, file), t.acc, [Change(file, mtime)], None)
  }

  /** `handleRemove(filePath)`: queued during the initial scan; afterwards
      the time is forgotten, and unless paused a `remove` is emitted and the
      path aggregated. */
  function HandleRemove(c: Connector, acc: int, file: string): (r: Out)
    ensures SameFlags(c, r.conn) && r.request == None && r.acc == acc
  {
    if c.initialScan then
      Out(c.(initialScanRemoved := c.initialScanRemoved + [file]), acc, [], None)
    else
      var c1 := c.(fileTimes := c.fileTimes - {file});
      if c1.paused then Out(c1, acc, [], None)
      else Out(AggregateRemoval(c1, file), acc, [Remove(file)], None)
  }

  /** The body of the `forEach` in `handleSubscription`, for one file: a
      paused connector drops it, otherwise a file that no longer exists is a
      removal and any other a change. */
  function HandleEntry(c: Connector, acc: int, e: FileEntry): (r: Out)
    ensures SameFlags(c, r.conn) && r.request == None
    ensures c.paused ==> r == Out(c, acc, [], None)
    ensures r.acc <= acc && (FsAccuracy.OnLadder(acc) ==> FsAccuracy.OnLadder(r.acc))
  {
    var file := Join(c.projectPath, e.name);
    if c.paused then Out(c, acc, [], None)
    else if !e.present then HandleRemove(c, acc, file)
    else HandleChange(c, acc, file, e.mtimeMs)
  }

  /** What the initial scan queues for one entry, by kind. */
  function EntryChange(root: string, e: FileEntry): seq<Stamp> {
    if e.present then [Stamp(Join(root, e.name), e.mtimeMs)] else []
  }

  function EntryRemoval(root: string, e: FileEntry): seq<string> {
    if e.present then [] else [Join(root, e.name)]
  }

  /** The changes a response holds, as the initial scan queues them. */
  function QueuedChanges(root: string, es: seq<FileEntry>): seq<Stamp> {
    if |es| == 0 then [] else EntryChange(root, es[0]) + QueuedChanges(root, es[1..])
  }

  /** The removals a response holds, as the initial scan queues them; every
      entry is queued as exactly one change or one removal. */
  function QueuedRemovals(root: string, es: seq<FileEntry>): (r: seq<string>)
    ensures |QueuedChanges(root, es)| + |r| == |es|
  {
    if |es| == 0 then [] else EntryRemoval(root, es[0]) + QueuedRemovals(root, es[1..])
  }

  /** The events live entries emit: one per entry, in order. */
  function LiveEvents(root: string, es: seq<FileEntry>): (r: seq<Event>)
    ensures |r| == |es|
    ensures forall i :: 0 <= i < |es| ==>
      r[i] == if es[i].present then Change(Join(root, es[i].name), es[i].mtimeMs)
              else Remove(Join(root, es[i].name))
  {
    if |es| == 0 then []
    else [if es[0].present then Change(Join(root, es[0].name), es[0].mtimeMs)
          else Remove(Join(root, es[0].name))] + LiveEvents(root, es[1..])
  }

  /** `resp.files.forEach(...)`: the entries handled one after the other. */
  function ApplyEntries(c: Connector, acc: int, es: seq<FileEntry>): (r: Out)
    decreases |es|
    ensures r.request == None
    ensures SameFlags(c, r.conn)
    ensures r.acc <= acc && (FsAccuracy.OnLadder(acc) ==> FsAccuracy.OnLadder(r.acc))
  {
    if |es| == 0 then Out(c, acc, [], None)
    else
      var o := HandleEntry(c, acc, es[0]);
      var rest := ApplyEntries(o.conn, o.acc, es[1..]);
      Out(rest.conn, rest.acc, o.events + rest.events, None)
  }

  /** One run of the `handleSubscription(resp)` listener: a response for
      another subscription is ignored; a matching one records its clock and
      handles its entries. */
  function HandleResponse(c: Connector, acc: int, resp: Response): (r: Out)
    ensures resp.subscription != SubscriptionName ==> r == Out(c, acc, [], None)
    ensures resp.subscription == SubscriptionName ==>
      && r.conn.lastClock == Some(resp.clock)
      && SameFlags(c.(lastClock := Some(resp.clock)), r.conn)
    ensures r.request == None
    ensures r.acc <= acc && (FsAccuracy.OnLadder(acc) ==> FsAccuracy.OnLadder(r.acc))
  {
    if resp.subscription != SubscriptionName then Out(c, acc, [], None)
    else ApplyEntries(c.(lastClock := Some(resp.clock)), acc, resp.files)
  }

  /** The client emits a response to every registered copy of the listener,
      one after the other. */
  function Deliveries(c: Connector, acc: int, resp: Response, n: nat): (r: Out)
    decreases n
    ensures n == 0 || resp.subscription != SubscriptionName ==> r == Out(c, acc, [], None)
    ensures n > 0 && resp.subscription == SubscriptionName ==>
      && r.conn.lastClock == Some(resp.clock)
      && SameFlags(c.(lastClock := Some(resp.clock)), r.conn)
    ensures r.request == None
    ensures r.acc <= acc && (FsAccuracy.OnLadder(acc) ==> FsAccuracy.OnLadder(r.acc))
  {
    if n == 0 then Out(c, acc, [], None)
    else
      var o := HandleResponse(c, acc, resp);
      var rest := Deliveries(o.conn, o.acc, resp, n - 1);
      Out(rest.conn, rest.acc, o.events + rest.events, None)
  }

  /** A subscription response arriving at the client: it reaches
      `handleSubscription` once per registration, and not at all once
      `close` has detached the listener and ended the client. */
  function HandleSubscription(c: Connector, acc: int, resp: Response): (r: Out)
    ensures c.subscribers == 0 || resp.subscription != SubscriptionName ==> r == Out(c, acc, [], None)
    ensures c.subscribers > 0 && resp.subscription == SubscriptionName ==>
      && r.conn.lastClock == Some(resp.clock)
      && SameFlags(c.(lastClock := Some(resp.clock)), r.conn)
      && r.request == None
  {
    Deliveries(c, acc, resp, c.subscribers)
  }

  /** `handleTimeout`: the debounce timer fires. It emits both pending lists,
      in the order paths were first added, with the last clock seen, and
      empties them. With no timer scheduled nothing can fire. */
  function HandleTimeout(c: Connector, acc: int): (r: Out)
    ensures r.acc == acc && r.request == None
    ensures !c.timerArmed ==> r == Out(c, acc, [], None)
    ensures c.timerArmed ==>
      && |r.events| == 1 && r.events[0].Aggregated?
      && r.events[0].changes == c.aggregatedChanges
      && r.events[0].removals == c.aggregatedRemovals
      && r.events[0].clock == c.lastClock
      && !r.conn.timerArmed && r.conn.aggregatedChanges == [] && r.conn.aggregatedRemovals == []
      && r.conn == c.(timerArmed := r.conn.timerArmed, aggregatedChanges := r.conn.aggregatedChanges,
                      aggregatedRemovals := r.conn.aggregatedRemovals)
  {
    if !c.timerArmed then Out(c, acc, [], None)
    else
      Out(c.(timerArmed := false, aggregatedChanges := [], aggregatedRemovals := []), acc,
          [Aggregated(c.aggregatedChanges, c.aggregatedRemovals, c.lastClock)], None)
  }

  /** The paths of a sequence of stamps. */
  function Paths(ss: seq<Stamp>): set<string>
  {
    set s | s in ss :: s.path
  }

  /** The per-file callback of the initial scan, for every `fs.stat` that
      succeeded: revalidate the accuracy, then `setFileTime` (which
      revalidates again). */
  function RecordScan(c: Connector, acc: int, results: seq<Stamp>): (r: Out)
    decreases |results|
    ensures r.conn == c.(fileTimes := r.conn.fileTimes)
    ensures r.conn.fileTimes.Keys == c.fileTimes.Keys + Paths(results)
    ensures |results| > 0 ==>
      var last := results[|results| - 1];
      r.conn.fileTimes[last.path] == last.mtime + r.acc
    ensures r.events == [] && r.request == None
    ensures r.acc <= acc && (FsAccuracy.OnLadder(acc) ==> FsAccuracy.OnLadder(r.acc))
  {
    if |results| == 0 then Out(c, acc, [], None)
    else
      var s := results[0];
      var o := SetFileTime(c, FsAccuracy.Revalidate(acc, s.mtime), s.path, s.mtime);
      RecordScan(o.conn, o.acc, results[1..])
  }

  /** The `change` events the queued changes produce when replayed live. */
  function ChangeEvents(qs: seq<Stamp>): (r: seq<Event>)
    ensures |r| == |qs|
    ensures forall i :: 0 <= i < |qs| ==> r[i] == Change(qs[i].path, qs[i].mtime)
  {
    if |qs| == 0 then [] else [Change(qs[0].path, qs[0].mtime)] + ChangeEvents(qs[1..])
  }

  /** The `remove` events the queued removals produce when replayed live. */
  function RemoveEvents(ps: seq<string>): (r: seq<Event>)
    ensures |r| == |ps|
    ensures forall i :: 0 <= i < |ps| ==> r[i] == Remove(ps[i])
  {
    if |ps| == 0 then [] else [Remove(ps[0])] + RemoveEvents(ps[1..])
  }

  /** `initialScanChanged.map(file => handleChange(...))`, in queue order. */
  function ReplayChanges(c: Connector, acc: int, qs: seq<Stamp>): (r: Out)
    requires !c.initialScan
    decreases |qs|
    ensures SameFlags(c, r.conn) && r.request == None
    ensures r.conn.initialScanChanged == c.initialScanChanged
    ensures r.conn.initialScanRemoved == c.initialScanRemoved
    ensures r.acc <= acc && (FsAccuracy.OnLadder(acc) ==> FsAccuracy.OnLadder(r.acc))
  {
    if |qs| == 0 then Out(c, acc, [], None)
    else
      var o := HandleChange(c, acc, qs[0].path, qs[0].mtime);
      var rest := ReplayChanges(o.conn, o.acc, qs[1..]);
      Out(rest.conn, rest.acc, o.events + rest.events, None)
  }

  /** `initialScanRemoved.map(file => handleRemove(file))`, in queue order. */
  function ReplayRemovals(c: Connector, acc: int, ps: seq<string>): (r: Out)
    requires !c.initialScan
    decreases |ps|
    ensures SameFlags(c, r.conn) && r.request == None && r.acc == acc
    ensures r.conn.initialScanChanged == c.initialScanChanged
    ensures r.conn.initialScanRemoved == c.initialScanRemoved
  {
    if |ps| == 0 then Out(c, acc, [], None)
    else
      var o := HandleRemove(c, acc, ps[0]);
      var rest := ReplayRemovals(o.conn, o.acc, ps[1..]);
      Out(rest.conn, rest.acc, o.events + rest.events, None)
  }

  /** The end of the initial scan: every successful `fs.stat` is recorded,
      `initialScan` is cleared, the queued changes and then the queued
      removals are replayed through the live handlers, and both queues are
      emptied. */
  function FinishScan(c: Connector, acc: int, results: seq<Stamp>): (r: Out)
    ensures !r.conn.initialScan
    ensures r.conn.initialScanChanged == [] && r.conn.initialScanRemoved == []
    ensures r.request == None
    ensures r.conn.paused == c.paused && r.conn.lastClock == c.lastClock
    ensures r.conn.subscribers == c.subscribers && r.conn.connected == c.connected
    ensures r.acc <= acc && (FsAccuracy.OnLadder(acc) ==> FsAccuracy.OnLadder(r.acc))
  {
    var scanned := RecordScan(c, acc, results);
    var c1 := scanned.conn.(initialScan := false);
    var changed := ReplayChanges(c1, scanned.acc, c1.initialScanChanged);
    var removed := ReplayRemovals(changed.conn, changed.acc, c1.initialScanRemoved);
    Out(removed.conn.(initialScanChanged := [], initialScanRemoved := []), removed.acc,
        changed.events + removed.events, None)
  }

  /** `pause()`: stop reacting and cancel the timer; the pending lists stay. */
  function Pause(c: Connector): (r: Connector)
    ensures r.paused && !r.timerArmed
    ensures r == c.(paused := r.paused, timerArmed := r.timerArmed)
  {
    c.(paused := true, timerArmed := false)
  }

  /** `close()`: stop reacting, cancel the timer, and drop the client (its
      subscription listener is removed); the pending lists stay. */
  function Close(c: Connector): (r: Connector)
    ensures r.paused && !r.timerArmed && r.subscribers == 0
    ensures r == c.(paused := r.paused, timerArmed := r.timerArmed, subscribers := r.subscribers)
  {
    c.(paused := true, timerArmed := false, subscribers := 0)
  }

  /** `watch(files, dirs, since)`: always unpauses; when not yet connected it
      also creates the client and starts the subscription and the initial
      scan over `files` followed by `dirs`. */
  function Watch(c: Connector, acc: int, files: seq<string>, dirs: seq<string>, since: Since): (r: Out)
    ensures !r.conn.paused && r.acc == acc && r.events == []
    ensures r.conn == c.(paused := r.conn.paused, subscribers := r.conn.subscribers)
    ensures c.connected ==> r.request == None && r.conn.subscribers == c.subscribers
    ensures !c.connected ==>
      && r.request.Some? && r.request.value.files == files + dirs
      && r.request.value.since == SinceField(since)
      && r.conn.subscribers == c.subscribers + 1
  {
    var c1 := c.(paused := false);
    if c1.connected then Out(c1, acc, [], None)
    else Out(c1.(subscribers := c.subscribers + 1), acc, [], Some(WatchRequest(files + dirs, SinceField(since))))
  }

  /** One thing happening to the connector. */
  function Step(c: Connector, acc: int, i: Input): (r: Out)
    ensures r.acc <= acc && (FsAccuracy.OnLadder(acc) ==> FsAccuracy.OnLadder(r.acc))
    ensures !i.WatchCalled? ==> r.request == None
  {
    match i
    case SubscriptionArrived(resp) => HandleSubscription(c, acc, resp)
    case ScanFinished(results) => FinishScan(c, acc, results)
    case TimerFired => HandleTimeout(c, acc)
    case PauseCalled => Out(Pause(c), acc, [], None)
    case CloseCalled => Out(Close(c), acc, [], None)
    case WatchCalled(files, dirs, since) => Watch(c, acc, files, dirs, since)
    case ConnectionChanged(up) => Out(c.(connected := up), acc, [], None)
  }

  /** A sequence of things happening, everything emitted, in order, and the
      last `watch` request made. */
  function Run(c: Connector, acc: int, inputs: seq<Input>): (r: Out)
    decreases |inputs|
    ensures r.acc <= acc && (FsAccuracy.OnLadder(acc) ==> FsAccuracy.OnLadder(r.acc))
    ensures (forall i :: 0 <= i < |inputs| ==> !inputs[i].WatchCalled?) ==> r.request == None
  {
    if |inputs| == 0 then Out(c, acc, [], None)
    else
      var o := Step(c, acc, inputs[0]);
      var rest := Run(o.conn, o.acc, inputs[1..]);
      assert forall i :: 0 <= i < |inputs[1..]| ==> inputs[1..][i] == inputs[i + 1];
      Out(rest.conn, rest.acc, o.events + rest.events, if rest.request.Some? then rest.request else o.request)
  }
}
