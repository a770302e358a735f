# webpack-watchman-plugin, modelled in Dafny

This project models the deterministic core of the webpack watchman plugin. It has three parts:

- **The connector** (`src/WatchmanConnector.js`): it turns watchman subscription responses and the initial `fs.stat` scan into `change` and `remove` events, and into a debounced `aggregated` event. It also keeps a map from file to last-modified time.
- **The timestamp-accuracy estimator** (`src/utils/fsAccuracy.js`, and its duplicate `src/utils/fsAccurency.js`): a module-global value that starts at 10000 ms and only ever moves down a fixed ladder.
- **The webpack adapter** (`src/WatchmanWatchFileSystem.js`):
  - each `watch` starts a fresh connector and listens once for its first `aggregated` event. When an undelayed callback is given, it also listens once for the first `change` event. It then closes the previous connector;
  - it splits the aggregated change list into sorted `files`, `dirs` and `missing` lists by membership.

Everything is pure. The connector is one immutable record. Each entry point is a step from a record to a record plus the events it emits, in order:

- a subscription response;
- the end of the initial scan;
- the debounce timer firing;
- `pause`, `close` and `watch`;
- the client's connect and end notifications.

The accuracy estimate is a global shared by every connector, so it is an explicit value that every step takes and hands back.

Modules:

| file | module | contents |
|---|---|---|
| maybe.dfy | `Maybe` | `Option`, `Result` |
| seqs.dfy | `Seqs` | `indexOf`, push-unless-present, `filter` by membership, duplicate-freedom |
| lex_order.dfy | `LexOrder` | the string order of `Array.prototype.sort`, an insertion sort, uniqueness of sorted permutations |
| fs_accuracy.dfy | `FsAccuracy` | the accuracy ladder and `revalidate` |
| fs_accurency.dfy | `FsAccurency` | the duplicate estimator, proved equal to the first |
| connector.dfy | `WatchmanConnector` | the connector record, its handlers and the step function |
| connector_facts.dfy | `ConnectorFacts` | what each handler does in each mode; replay of the initial-scan queues |
| connector_invariant.dfy | `ConnectorInvariant` | the connector invariant (`Valid`) and its preservation by every step |
| watch_file_system.dfy | `WatchmanWatchFileSystem` | the adapter: option merge, `watch`, the once-listeners, the partition |
| watch_file_system_facts.dfy | `WatchFileSystemFacts` | partition correctness, at-most-once delivery, purge and callback shape |

### Behaviour of the code worth knowing

- The aggregated lists are never sorted by the connector. A path changed and then removed within one debounce window is pending in both lists (`ChangeThenRemoveKeepsBoth`).
- The accuracy starts at 10000 and only becomes finer. It is added to every recorded time, scanned or live.
- The initial-scan queues are not deduplicated, and the queued changes are replayed before the queued removals.
- A change replayed from the initial-scan queue while paused still records its time.
- The accuracy is one global shared by all connectors. The model threads it through the live connector of each step; a connector retired by a later `watch` is dropped (see Left out).
- An `aggregated` event is only emitted by an armed timer, and an armed timer always has something pending (`TimerReportsNonEmptyBatch`), so the batch is never empty.
- A later `watch` on an already-connected connector does not restart the initial scan.
- Each `watch` made before the client reports `connect` registers the subscription listener once more. A response then reaches every copy, so its `change` and `remove` events are emitted once per copy (`WatchTwiceDoublesEvents`). The listener is registered at `src/WatchmanConnector.js:135`.

## Model

| member | source | states |
|---|---|---|
| FsAccuracy.InitialOnLadder | src/utils/fsAccuracy.js:2 | The value starts at 10000, a rung of the ladder. |
| FsAccuracy.Revalidate | src/utils/fsAccuracy.js:4-12 | For an integer mtime, the value never increases. It stays within {1, 10, 100, 1000, 2000, 10000} and is either unchanged or one of the steps 10/100/1000/2000. |
| FsAccuracy.RevalidateFractional | src/utils/fsAccuracy.js:7 | An mtime with a fractional part sends any value above 1 straight to 1. |
| FsAccuracy.RevalidateChoosesFinestStep | src/utils/fsAccuracy.js:8-11 | The new value is the finest step below the current one that does not divide the mtime. If every such step divides it, the value is unchanged. |
| FsAccuracy.FinestIsFixed | src/utils/fsAccuracy.js:5 | Once the value is 1, revalidation of either kind keeps it 1. |
| FsAccuracy.RevalidateIdempotent | src/utils/fsAccuracy.js:4-12 | Revalidating twice with the same mtime equals revalidating once. |
| FsAccuracy.IntegerNeverFinest | src/utils/fsAccuracy.js:8-11 | An integer mtime never drives a ladder value down to 1. |
| FsAccuracy.MultipleKeepsValue | src/utils/fsAccuracy.js:8-11 | An mtime that is a multiple of the current ladder value leaves it unchanged. |
| FsAccurency.Revalidate | src/utils/fsAccurency.js:4-12 | The duplicate never increases the value and keeps it on the ladder. |
| FsAccurency.RevalidateFractional | src/utils/fsAccurency.js:7 | The duplicate's fractional branch sends any value above 1 to 1. |
| FsAccurency.SameAsFsAccuracy | src/utils/fsAccurency.js:2-12 | The duplicate has the same initial value, and for every (value, mtime) both branches give the same result as the original. |
| FsAccurency.FinestIsFixed | src/utils/fsAccurency.js:5 | Once the duplicate's value is 1 it stays 1. |
| WatchmanConnector.New | src/WatchmanConnector.js:39-46 | Construction succeeds iff `projectPath` is present and non-empty, and otherwise fails with the plugin's message. A new connector is paused, in its initial scan, not connected, and has nothing recorded or pending. It satisfies the invariant. |
| WatchmanConnector.SinceField | src/WatchmanConnector.js:130 | A clock string passes through. A millisecond time becomes the whole seconds s with s*1000 <= t < s*1000+1000. |
| WatchmanConnector.SetFileTime | src/WatchmanConnector.js:167-170 | The accuracy is revalidated with the mtime, and the file's time becomes mtime plus the revalidated accuracy. Nothing else changes. |
| WatchmanConnector.AggregateChange | src/WatchmanConnector.js:187-195 | The file is pending afterwards and the timer is armed. Earlier pending changes keep their order: an already pending file leaves the list as it was, a new one is appended at the end. Only the pending changes and the timer change. |
| WatchmanConnector.AggregateRemoval | src/WatchmanConnector.js:212-220 | The file is pending as a removal afterwards and the timer is armed. Earlier pending removals keep their order: an already pending file leaves the list as it was, a new one is appended at the end. Only the pending removals and the timer change. |
| WatchmanConnector.HandleChange | src/WatchmanConnector.js:172-185 | Never touches the flags, the clock or the options. Never starts a watch. The accuracy stays on the ladder and never grows. |
| WatchmanConnector.HandleRemove | src/WatchmanConnector.js:197-210 | Never touches the flags, the clock, the options or the accuracy. |
| WatchmanConnector.HandleEntry | src/WatchmanConnector.js:156-163 | A paused connector drops the entry entirely. The flags are never touched and the accuracy never grows. |
| WatchmanConnector.ApplyEntries | src/WatchmanConnector.js:156-163 | Handling the entries of a response in order never touches the flags, and the accuracy stays on the ladder. |
| WatchmanConnector.QueuedRemovals | src/WatchmanConnector.js:156-201 | Together with the queued changes, a response's entries split into exactly as many queued items as there are entries. |
| WatchmanConnector.HandleResponse | src/WatchmanConnector.js:152-165 | One run of the listener: a response for another subscription changes nothing. A matching one records its clock, even while paused, keeps every flag, emits no request, and keeps the accuracy on the ladder. |
| WatchmanConnector.Deliveries | src/WatchmanConnector.js:152-165 | A response delivered to n registered copies of the listener: with no copy, or for another subscription, nothing changes. Otherwise the clock is recorded and every flag kept. |
| WatchmanConnector.HandleSubscription | src/WatchmanConnector.js:152-165 | A response reaches every registered copy of the listener. Without a registration, or for another subscription, it changes nothing. Otherwise it records its clock, even while paused, and leaves every flag as it was; what its entries do is stated by the lemmas below. |
| WatchmanConnector.HandleTimeout | src/WatchmanConnector.js:238-246 | A firing timer emits exactly one `aggregated` event with both pending lists in insertion order and the last clock. It then empties both lists and disarms. Without a timer nothing happens. |
| WatchmanConnector.RecordScan | src/WatchmanConnector.js:250-266 | Every successfully stat-ed file gets a time, and nothing other than the times changes. The last stat's file gets its mtime plus the final accuracy. The accuracy stays on the ladder. |
| WatchmanConnector.ReplayChanges | src/WatchmanConnector.js:271-273 | Replaying queued changes keeps the flags and the queues, and the accuracy never grows. |
| WatchmanConnector.ReplayRemovals | src/WatchmanConnector.js:275-277 | Replaying queued removals keeps the flags, the queues and the accuracy. |
| WatchmanConnector.FinishScan | src/WatchmanConnector.js:267-283 | Scan completion leaves `initialScan` false and both queues empty. It keeps `paused`, the clock and the listener registrations. |
| WatchmanConnector.Pause | src/WatchmanConnector.js:93-97 | `pause` sets `paused` and disarms the timer, and changes nothing else. |
| WatchmanConnector.Close | src/WatchmanConnector.js:78-91 | `close` sets `paused`, disarms the timer and ends the client, so no registered listener hears from it again. It changes nothing else. |
| WatchmanConnector.Watch | src/WatchmanConnector.js:52-72 | `watch` always clears `paused`. When connected it does nothing else. Otherwise it registers the subscription listener once more and starts the subscription and scan over `files ++ dirs` with the converted `since`. |
| WatchmanConnector.Step | src/WatchmanConnector.js:225-230 | Every input, including the client's connect/end notifications, keeps the accuracy on the ladder and never increases it. |
| WatchmanConnector.Run | src/utils/fsAccuracy.js:2-11 | Any sequence of inputs keeps the shared accuracy on the ladder and never increases it. A run without a `watch` input reports no request. |
| ConnectorFacts.DefaultOptionsRejected | src/WatchmanConnector.js:39-43 | The default options, and options without a `projectPath`, make construction fail. |
| ConnectorFacts.ChangeDuringScan | src/WatchmanConnector.js:173-176 | During the initial scan a change is only appended to the change queue. |
| ConnectorFacts.ChangeWhilePaused | src/WatchmanConnector.js:178-180 | After the scan a paused connector records the change's time and does nothing else. |
| ConnectorFacts.LiveChange | src/WatchmanConnector.js:172-195 | A live change records mtime + revalidated accuracy and emits exactly one `change`. It leaves the path pending exactly once, keeps earlier pending changes, leaves the removals alone, and arms the timer. |
| ConnectorFacts.RemoveDuringScan | src/WatchmanConnector.js:198-201 | During the initial scan a removal is only appended to the removal queue. |
| ConnectorFacts.RemoveWhilePaused | src/WatchmanConnector.js:203-205 | After the scan a paused connector forgets the file's time and does nothing else. |
| ConnectorFacts.LiveRemove | src/WatchmanConnector.js:197-220 | A live removal forgets the time and emits exactly one `remove`. It leaves the path pending exactly once, leaves the changes alone, and arms the timer. |
| ConnectorFacts.ChangeThenRemoveKeepsBoth | src/WatchmanConnector.js:187-220 | A path changed then removed within one window is pending in both lists. |
| ConnectorFacts.PausedDropsEntries | src/WatchmanConnector.js:159 | While paused, a response's entries cause no event, no time, no queueing and no aggregation. |
| ConnectorFacts.PausedIgnoresResponses | src/WatchmanConnector.js:152-165 | While paused, however many copies of the listener run, a response emits nothing. It records its clock if it matches and there is a copy, and does nothing else. |
| ConnectorFacts.SubscriptionResponse | src/WatchmanConnector.js:152-165 | A foreign response, or one without a registered listener, changes nothing. A matching one always records its clock, and while paused does only that. |
| ConnectorFacts.LiveResponseRepeats | src/WatchmanConnector.js:152-165 | Live, a response reaching n copies of the listener emits its per-entry `change`/`remove` events n times over, in order. |
| ConnectorFacts.WatchTwiceDoublesEvents | src/WatchmanConnector.js:52-62 | Two `watch` calls before the client connects, then an empty scan and a response with one change, emit that `change` twice. |
| ConnectorFacts.ScanQueuesEntry | src/WatchmanConnector.js:156-176 | During the scan, one entry is appended to the queue of its kind, and nothing else happens. |
| ConnectorFacts.ScanQueuesEntries | src/WatchmanConnector.js:156-176 | During the scan, a response's entries are appended to the queues in arrival order without deduplication. Nothing is emitted and no time, pending list or accuracy changes. |
| ConnectorFacts.LiveEntriesEmit | src/WatchmanConnector.js:156-163 | Live, a response emits exactly one `change` or `remove` per entry, in order, and leaves the timer armed. |
| ConnectorFacts.ScanKeepsOthers | src/WatchmanConnector.js:254-264 | A file the scan does not stat keeps its time, or its absence. |
| ConnectorFacts.ScanRecordsTime | src/WatchmanConnector.js:254-264 | For the last stat of each path, the scan records mtime plus a ladder value between the final accuracy and the starting one. |
| ConnectorFacts.ChangeRecordsTime | src/WatchmanConnector.js:178 | After the scan every change gives its path a time, paused or not. |
| ConnectorFacts.ReplayChangesTimes | src/WatchmanConnector.js:271-273 | Replayed changes give each queued path a time. |
| ConnectorFacts.ReplayChangesPaused | src/WatchmanConnector.js:271-273 | Replayed changes while paused emit nothing and change only the times. |
| ConnectorFacts.ReplayChangesLive | src/WatchmanConnector.js:271-273 | Replayed changes live emit one `change` per queued change in queue order. Every queued path is pending, the earlier pending changes are kept, and the removals are untouched. |
| ConnectorFacts.ReplayRemovalsTimes | src/WatchmanConnector.js:275-277 | Replayed removals forget exactly the queued paths' times. |
| ConnectorFacts.ReplayRemovalsPaused | src/WatchmanConnector.js:275-277 | Replayed removals while paused emit nothing and change only the times. |
| ConnectorFacts.ReplayRemovalsLive | src/WatchmanConnector.js:275-277 | Replayed removals live emit one `remove` per queued removal in order and make every queued path pending. The changes are untouched. |
| ConnectorFacts.ReplayKeepsOthers | src/WatchmanConnector.js:271-273 | Replaying queued changes leaves every other file's time alone. |
| ConnectorFacts.FinishScanRecordsScanTime | src/WatchmanConnector.js:250-283 | A stat-ed file that was neither changed nor removed during the scan ends with mtime plus a ladder value between the final accuracy and the starting one. |
| ConnectorFacts.PendingRemovalStays | src/WatchmanConnector.js:212-220 | Further removals never drop a pending removal. |
| ConnectorFacts.FinishScanReplays | src/WatchmanConnector.js:267-283 | Scan completion emits the queued changes, then the queued removals, in arrival order, and nothing while paused. The recorded files are the old ones plus the scanned and changed paths, minus the removed ones. |
| ConnectorFacts.PauseAndCloseKeepPending | src/WatchmanConnector.js:78-97 | `pause` and `close` keep the pending lists and the times, and are idempotent. |
| ConnectorFacts.RunReportsLastWatch | src/WatchmanConnector.js:52-62 | A `watch` on a disconnected connector, followed by inputs that do not watch, is the request the run reports: the subscription and scan over `files ++ dirs` with the converted `since`. |
| ConnectorFacts.WatchOnConnected | src/WatchmanConnector.js:52-56 | `watch` on a connected connector only clears `paused`. |
| ConnectorInvariant.HandleChangeKeepsPending | src/WatchmanConnector.js:187-195 | A change keeps both pending lists duplicate-free, an armed timer non-empty, and a paused connector unarmed. |
| ConnectorInvariant.HandleRemoveKeepsPending | src/WatchmanConnector.js:212-220 | The same for a removal. |
| ConnectorInvariant.HandleEntryKeepsValid | src/WatchmanConnector.js:156-163 | One entry of a response keeps the invariant. |
| ConnectorInvariant.ApplyEntriesKeepsValid | src/WatchmanConnector.js:156-163 | A whole response keeps the invariant. |
| ConnectorInvariant.ReplayChangesKeepsPending | src/WatchmanConnector.js:271-273 | Replaying the queued changes keeps the pending lists sound. |
| ConnectorInvariant.ReplayRemovalsKeepsPending | src/WatchmanConnector.js:275-277 | Replaying the queued removals keeps the pending lists sound. |
| ConnectorInvariant.DeliveriesKeepValid | src/WatchmanConnector.js:152-165 | A response keeps the invariant however many copies of the listener run. |
| ConnectorInvariant.FinishScanKeepsValid | src/WatchmanConnector.js:267-283 | Scan completion keeps the invariant. |
| ConnectorInvariant.StepKeepsValid | src/WatchmanConnector.js:52-97 | Every entry point keeps the invariant. |
| ConnectorInvariant.RunKeepsValid | src/WatchmanConnector.js:25-37 | Any run keeps the invariant and keeps the shared accuracy on the ladder and non-increasing. |
| ConnectorInvariant.RunFromNew | src/WatchmanConnector.js:39-46 | Any run from a newly constructed connector satisfies the invariant. |
| ConnectorInvariant.TimerReportsNonEmptyBatch | src/WatchmanConnector.js:238-246 | A firing timer reports a non-empty batch and leaves nothing pending and no timer. |
| ConnectorInvariant.PausedIsSilent | src/WatchmanConnector.js:93-97 | A paused (or closed) connector emits nothing on any input. |
| ConnectorInvariant.CloseSilencesTimer | src/WatchmanConnector.js:78-81 | After `close` a timer tick emits nothing. |
| WatchmanWatchFileSystem.NewAdapter | src/WatchmanWatchFileSystem.js:20-23 | The adapter starts without a watcher, with its options and purge capability. |
| WatchmanWatchFileSystem.Merge | src/WatchmanWatchFileSystem.js:36 | For each key, the adapter's own option wins over the `watch` option when present. |
| WatchmanWatchFileSystem.Select | src/WatchmanWatchFileSystem.js:51 | A selection is sorted. |
| WatchmanWatchFileSystem.Partition | src/WatchmanWatchFileSystem.js:51-53 | All three reported lists are sorted. |
| WatchmanWatchFileSystem.OnAggregated | src/WatchmanWatchFileSystem.js:42-56 | The listener purges exactly the change list when the file system can purge. It then calls back once with the partition and the same time map twice. |
| WatchmanWatchFileSystem.Notify | src/WatchmanWatchFileSystem.js:38-42 | An event only ever removes listeners. Without listeners, or for a `remove`, nothing is called. |
| WatchmanWatchFileSystem.Dispatch | src/WatchmanWatchFileSystem.js:38-42 | Over a step's events listeners are only removed, and without listeners nothing is called. |
| WatchmanWatchFileSystem.Deliver | src/WatchmanWatchFileSystem.js:38-65 | One input only removes listeners, keeps the watched lists, and calls nothing once no listener is left. `close` removes both listeners and calls nothing. |
| WatchmanWatchFileSystem.DeliverAll | src/WatchmanWatchFileSystem.js:38-65 | Any run of inputs only removes listeners, keeps the watched lists, and calls nothing without listeners. |
| WatchmanWatchFileSystem.Watch | src/WatchmanWatchFileSystem.js:25-62 | `watch` throws, changing nothing, iff the merged options lack a non-empty project path. Otherwise: the new connector watches `files ++ missing ++ dirs` since startTime in whole seconds; the undelayed listener is registered iff given and the aggregated listener always; the previous connector is returned closed with its pending lists. |
| WatchmanWatchFileSystem.Step | src/WatchmanWatchFileSystem.js:25-66 | A throwing `watch` changes nothing and reports the error. Handle calls before any `watch` do nothing. The options and purge capability never change. |
| WatchmanWatchFileSystem.Run | src/WatchmanWatchFileSystem.js:20-66 | The options and purge capability never change, and once a watcher exists there always is one. |
| WatchFileSystemFacts.SelectSpec | src/WatchmanWatchFileSystem.js:51 | A selection is sorted and holds each change in the list exactly as often as the change list does, and nothing else. |
| WatchFileSystemFacts.PartitionSpec | src/WatchmanWatchFileSystem.js:51-53 | The three reported lists are sorted, and each holds exactly the changes that are in `files`, `dirs` or `missing` respectively. |
| WatchFileSystemFacts.SelectIsUnique | src/WatchmanWatchFileSystem.js:51 | The selection is the only sorted list with that content. |
| WatchFileSystemFacts.SelectIgnoresOrder | src/WatchmanWatchFileSystem.js:51-53 | The order of the change list does not affect the callback's lists. |
| WatchFileSystemFacts.SelectNoDup | src/WatchmanWatchFileSystem.js:51-53 | A duplicate-free change list gives duplicate-free reported lists. |
| WatchFileSystemFacts.PartitionPlacement | src/WatchmanWatchFileSystem.js:51-53 | A change in none of the three inputs is reported nowhere; one in two inputs is reported in both. |
| WatchFileSystemFacts.NotifyOnce | src/WatchmanWatchFileSystem.js:38-42 | An event calls a registered once-listener exactly once and removes it. |
| WatchFileSystemFacts.DispatchOnce | src/WatchmanWatchFileSystem.js:38-42 | Over a step's events, each listener is called exactly once if it was registered and used up, never otherwise. |
| WatchFileSystemFacts.DeliverOnce | src/WatchmanWatchFileSystem.js:38-42 | One input to the watcher calls each listener at most as often as it remains registered. |
| WatchFileSystemFacts.DeliverAllOnce | src/WatchmanWatchFileSystem.js:38-42 | Any run of inputs to one watcher calls its callback and its undelayed callback at most once each. |
| WatchFileSystemFacts.RunWithoutWatch | src/WatchmanWatchFileSystem.js:63-66 | Handle calls and connector inputs without a new `watch` call each listener at most once in all. |
| WatchFileSystemFacts.EachWatchCallsBackOnce | src/WatchmanWatchFileSystem.js:38-42 | After a successful `watch` and up to the next one, the callback runs at most once. The undelayed callback runs at most once, and only if one was given. |
| WatchFileSystemFacts.NotifyCallShapes | src/WatchmanWatchFileSystem.js:42-56 | An event can only purge when purging is possible, and only its own change list. Callbacks pass the current times twice. |
| WatchFileSystemFacts.DispatchCallShapes | src/WatchmanWatchFileSystem.js:42-56 | Over a step, every purge is of an `aggregated` change list and needs purge support. Every callback passes the same times as file and dir times. Nothing throws. |
| WatchFileSystemFacts.RemovalsNeverReported | src/WatchmanWatchFileSystem.js:42 | The removal list and the clock of an `aggregated` event do not affect what the adapter calls. |
| WatchFileSystemFacts.TickReports | src/WatchmanWatchFileSystem.js:42-56 | A timer tick with the callback registered purges and reports the pending changes with the connector's times, and uses up the listener. |
| WatchFileSystemFacts.ReportNoDup | src/WatchmanWatchFileSystem.js:51-53 | For a connector satisfying the invariant, the reported lists are duplicate-free. |
| WatchFileSystemFacts.StepKeepsAdapterValid | src/WatchmanWatchFileSystem.js:59-61 | Every adapter step keeps the current connector's invariant. |
| WatchFileSystemFacts.RunKeepsAdapterValid | src/WatchmanWatchFileSystem.js:34-61 | Any adapter run keeps the current connector's invariant. |
| LexOrder.Sort | src/WatchmanWatchFileSystem.js:51-53 | The default `sort` gives a sorted permutation of its input. |
| LexOrder.SortIdempotent | src/WatchmanWatchFileSystem.js:51-53 | Sorting an already sorted list changes nothing: sorting twice equals sorting once. |
| Seqs.Filter | src/WatchmanWatchFileSystem.js:51-53 | Filtering by membership keeps each kept element as often as it occurs and drops every other. |
| Seqs.IndexOf | src/WatchmanWatchFileSystem.js:51-53 | `indexOf` is -1 exactly when the value is absent; otherwise it is the position of the first occurrence. |
| Seqs.PushUnique | src/WatchmanConnector.js:190-192 | The value is present afterwards and the list is extended: unchanged if already present, otherwise the value is appended. |

## Left out

- The fb-watchman client (`src/WatchmanConnector.js:99-150`, `222-236`) is a foreign transport. This covers the capability check, `watch-project`, `subscribe`, `unsubscribe` and `end`. `connected` is an input (`ConnectionChanged`). The subscription is the count `subscribers` of `handleSubscription` registrations: each `watch` before `connect` adds one, and `close` sets it to 0, because it removes one copy and ends the client, so the other copies never hear from it again.
- The order in which the scan's `fs.stat` calls complete is left out; the scan is one completed sequence of successful (path, mtime) results. This covers `fs.stat` and `async.eachLimit` (`src/WatchmanConnector.js:248-266`). A failed stat is not modelled, nor is the library's early stop after an error.
- The `Promise.all` orchestration of `watch` and its `done` callback are left out. The timer's real timing (`setTimeout`, `aggregateTimeout`) is also left out: an armed flag and an explicit timer input stand for it.
- EventEmitter internals are modelled only as far as the adapter needs them: an output trace of events, plus two once-listener flags that `close` clears. A listener that re-enters the connector is not modelled.
- `path.join` and `path.relative` normalisation: `Join` is a plain `root + "/" + name`.
- Floating-point mtimes: mtimes are integers, and the fractional branch of `revalidate` is the separate function `FsAccuracy.RevalidateFractional`.
- `FsAccuracy.Get` and `FsAccurency.Get` carry no contract: the value is an explicit parameter, so `get` is the identity on it and has no side effect by construction.
- `LexOrder.Below` compares characters by code point, while JavaScript's default sort compares UTF-16 code units. The two orders differ only for strings with characters outside the Basic Multilingual Plane.
- `WatchmanWatchFileSystem.OnAggregated` passes the time map by value. In JavaScript `getTimes` returns the connector's live object, so later updates would be visible to a caller that keeps it.
- `WatchmanWatchFileSystem.Watch` drops the retired connector after closing it. A retired connector's initial scan that is still running can refine the shared accuracy later; that is not modelled.
- `WatchmanConnector.Run` reports only the last `watch` request of a run (`ConnectorFacts.RunReportsLastWatch`); the per-step requests are stated by `Step` and `Watch`.
- `src/WatchmanPlugin.js` (webpack hook registration) and debug logging are not part of this model.
- `src/__tests__/WatchmanConnector.js` and `test/` are not part of this model. They drive the real file system and timers. One test there refers to an `initialScanQueue` field that the connector does not have.
