/** The connector's invariant (`WatchmanConnector.Valid`) holds from
    construction on and is kept by every step; what follows from it. */
module ConnectorInvariant {
  import opened Maybe
  import opened Seqs
  import FsAccuracy
  import opened WatchmanConnector
  import opened ConnectorFacts

  lemma HandleChangeKeepsPending(c: Connector, acc: int, file: string, mtime: int)
    requires PendingOk(c)
    ensures PendingOk(HandleChange(c, acc, file, mtime).conn)
  {
    if !c.initialScan && !c.paused {
      PushUniqueNoDup(c.aggregatedChanges, file);
    }
  }

  lemma HandleRemoveKeepsPending(c: Connector, acc: int, file: string)
    requires PendingOk(c)
    ensures PendingOk(HandleRemove(c, acc, file).conn)
  {
    if !c.initialScan && !c.paused {
      PushUniqueNoDup(c.aggregatedRemovals, file);
    }
  }

  lemma HandleEntryKeepsValid(c: Connector, acc: int, e: FileEntry)
    requires Valid(c)
    ensures Valid(HandleEntry(c, acc, e).conn)
  {
    var file := Join(c.projectPath, e.name);
    if !c.paused {
      if e.present {
        HandleChangeKeepsPending(c, acc, file, e.mtimeMs);
      } else {
        HandleRemoveKeepsPending(c, acc, file);
      }
    }
  }

  lemma {:induction false} ApplyEntriesKeepsValid(c: Connector, acc: int, es: seq<FileEntry>)
    requires Valid(c)
    ensures Valid(ApplyEntries(c, acc, es).conn)
    decreases |es|
  {
    if |es| > 0 {
      var o := HandleEntry(c, acc, es[0]);
      HandleEntryKeepsValid(c, acc, es[0]);
      ApplyEntriesKeepsValid(o.conn, o.acc, es[1..]);
    }
  }

  lemma {:induction false} ReplayChangesKeepsPending(c: Connector, acc: int, qs: seq<Stamp>)
    requires !c.initialScan && PendingOk(c)
    ensures PendingOk(ReplayChanges(c, acc, qs).conn)
    decreases |qs|
  {
    if |qs| > 0 {
      var o := HandleChange(c, acc, qs[0].path, qs[0].mtime);
      HandleChangeKeepsPending(c, acc, qs[0].path, qs[0].mtime);
      ReplayChangesKeepsPending(o.conn, o.acc, qs[1..]);
    }
  }

  lemma {:induction false} ReplayRemovalsKeepsPending(c: Connector, acc: int, ps: seq<string>)
    requires !c.initialScan && PendingOk(c)
    ensures PendingOk(ReplayRemovals(c, acc, ps).conn)
    decreases |ps|
  {
    if |ps| > 0 {
      var o := HandleRemove(c, acc, ps[0]);
      HandleRemoveKeepsPending(c, acc, ps[0]);
      ReplayRemovalsKeepsPending(o.conn, o.acc, ps[1..]);
    }
  }

  lemma FinishScanKeepsValid(c: Connector, acc: int, results: seq<Stamp>)
    requires Valid(c)
    ensures Valid(FinishScan(c, acc, results).conn)
  {
    var scanned := RecordScan(c, acc, results);
    var c1 := scanned.conn.(initialScan := false);
    assert PendingOk(c1);
    ReplayChangesKeepsPending(c1, scanned.acc, c1.initialScanChanged);
    var changed := ReplayChanges(c1, scanned.acc, c1.initialScanChanged);
    ReplayRemovalsKeepsPending(changed.conn, changed.acc, c1.initialScanRemoved);
  }

  /** However many copies of the listener run, a response keeps the
      invariant. */
  lemma {:induction false} DeliveriesKeepValid(c: Connector, acc: int, resp: Response, n: nat)
    requires Valid(c)
    ensures Valid(Deliveries(c, acc, resp, n).conn)
    decreases n
  {
    if n > 0 {
      var o := HandleResponse(c, acc, resp);
      if resp.subscription == SubscriptionName {
        ApplyEntriesKeepsValid(c.(lastClock := Some(resp.clock)), acc, resp.files);
      }
      DeliveriesKeepValid(o.conn, o.acc, resp, n - 1);
    }
  }

  /** Every step keeps the invariant. */
  lemma StepKeepsValid(c: Connector, acc: int, i: Input)
    requires Valid(c)
    ensures Valid(Step(c, acc, i).conn)
  {
    match i
    case SubscriptionArrived(resp) => DeliveriesKeepValid(c, acc, resp, c.subscribers);
    case ScanFinished(results) => FinishScanKeepsValid(c, acc, results);
    case TimerFired =>
    case PauseCalled =>
    case CloseCalled =>
    case WatchCalled(files, dirs, since) =>
    case ConnectionChanged(up) =>
  }

  /** The invariant holds after any sequence of steps from a freshly
      constructed connector, and the shared accuracy stays on its ladder and
      never grows. */
  lemma {:induction false} RunKeepsValid(c: Connector, acc: int, inputs: seq<Input>)
    requires Valid(c) && FsAccuracy.OnLadder(acc)
    ensures Valid(Run(c, acc, inputs).conn)
    ensures FsAccuracy.OnLadder(Run(c, acc, inputs).acc) && Run(c, acc, inputs).acc <= acc
    decreases |inputs|
  {
    if |inputs| > 0 {
      var o := Step(c, acc, inputs[0]);
      StepKeepsValid(c, acc, inputs[0]);
      RunKeepsValid(o.conn, o.acc, inputs[1..]);
    }
  }

  lemma RunFromNew(o: Options, inputs: seq<Input>)
    requires New(o).Ok?
    ensures Valid(Run(New(o).value, FsAccuracy.Initial, inputs).conn)
  {
    RunKeepsValid(New(o).value, FsAccuracy.Initial, inputs);
  }

  /** When the timer fires it reports a non-empty batch, and afterwards no
      timer runs and nothing is pending. */
  lemma TimerReportsNonEmptyBatch(c: Connector, acc: int)
    requires Valid(c) && c.timerArmed
    ensures var r := HandleTimeout(c, acc);
      && |r.events| == 1 && r.events[0].Aggregated?
      && |r.events[0].changes| + |r.events[0].removals| > 0
      && !r.conn.timerArmed && r.conn.aggregatedChanges == [] && r.conn.aggregatedRemovals == []
  {
  }

  /** A paused (or closed) connector emits nothing, whatever happens to it. */
  lemma PausedIsSilent(c: Connector, acc: int, i: Input)
    requires Valid(c) && c.paused
    ensures Step(c, acc, i).events == []
  {
    match i
    case SubscriptionArrived(resp) => PausedIgnoresResponses(c, acc, resp, c.subscribers);
    case ScanFinished(results) => FinishScanReplays(c, acc, results);
    case TimerFired =>
    case PauseCalled =>
    case CloseCalled =>
    case WatchCalled(files, dirs, since) =>
    case ConnectionChanged(up) =>
  }

  /** After `close`, a timer tick that would have fired emits nothing. */
  lemma CloseSilencesTimer(c: Connector, acc: int)
    ensures HandleTimeout(Close(c), acc) == Out(Close(c), acc, [], None)
  {
  }
}
