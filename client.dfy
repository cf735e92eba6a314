/**
 * The analysis WebSocket client's batching state machine: file paths picked
 * out of monitoring events collect in a pending set; the first path of a
 * window starts one batch timer; when the timer fires, the whole set is
 * handed over as one scan request.  Starting the timer and the timer firing
 * are explicit, sequential operations; time and the request's outcome are
 * parameters.
 */
module Client {
  import opened Wrappers
  import opened EventRouting
  import opened ExtensionSummary
  import opened ClientStats

  /** The last-change time after a run of messages, message `k` arriving at
      `nows[k]`: the arrival time of the last message that schedules a path,
      or `prev` when none does. */
  function LastChange(events: seq<Event>, nows: seq<int>, prev: Option<int>): Option<int>
    requires |nows| == |events|
  {
    if events == [] then prev
    else
      var n := |events| - 1;
      if ScheduledPaths(events[n]) != [] then Some(nows[n])
      else LastChange(events[..n], nows[..n], prev)
  }

  /** Message `k` schedules a path and no later message does. */
  ghost predicate LatestScheduling(events: seq<Event>, k: int)
  {
    && 0 <= k < |events| && ScheduledPaths(events[k]) != []
    && forall m :: k < m < |events| ==> ScheduledPaths(events[m]) == []
  }

  /** The last-change time is kept when no message schedules a path. */
  lemma {:induction false} LastChangeKept(events: seq<Event>, nows: seq<int>, prev: Option<int>)
    requires |nows| == |events|
    requires forall k :: 0 <= k < |events| ==> ScheduledPaths(events[k]) == []
    ensures LastChange(events, nows, prev) == prev
  {
    if events != [] {
      var n := |events| - 1;
      var init := events[..n];
      assert forall m :: 0 <= m < n ==> init[m] == events[m];
      LastChangeKept(init, nows[..n], prev);
    }
  }

  /** Otherwise it is the arrival time of the last message that schedules a path. */
  lemma {:induction false} LastChangeIsLatest(events: seq<Event>, nows: seq<int>, prev: Option<int>, k: int)
    requires |nows| == |events|
    requires LatestScheduling(events, k)
    ensures LastChange(events, nows, prev) == Some(nows[k])
  {
    var n := |events| - 1;
    if k < n {
      var init := events[..n];
      assert ScheduledPaths(events[n]) == [];
      assert LatestScheduling(init, k) by {
        assert init[k] == events[k];
        forall m | k < m < n
          ensures ScheduledPaths(init[m]) == []
        {
          assert init[m] == events[m];
        }
      }
      LastChangeIsLatest(init, nows[..n], prev, k);
      assert nows[..n][k] == nows[k];
    }
  }

  class AnalysisClient {
    var running: bool
    var pendingChanges: set<string>
    var batchTimerRunning: bool
    /** A batch task has been started and has neither finished nor been cancelled. */
    var batchTaskActive: bool
    var lastChangeTime: Option<int>
    var stats: Stats

    /** Pending paths always have a timer flag behind them, and a live batch
        task always has the flag set. */
    ghost predicate Valid()
      reads this
    {
      && (pendingChanges != {} ==> batchTimerRunning)
      && (batchTaskActive ==> batchTimerRunning)
    }

    /** The flag says exactly whether a batch task is live (true until `Stop`). */
    ghost predicate TimerConsistent()
      reads this
    {
      batchTimerRunning == batchTaskActive
    }

    constructor ()
      ensures Valid() && TimerConsistent()
      ensures !running && pendingChanges == {} && !batchTimerRunning && !batchTaskActive
      ensures lastChangeTime == None && stats == INITIAL_STATS
    {
      running := false;
      pendingChanges := {};
      batchTimerRunning := false;
      batchTaskActive := false;
      lastChangeTime := None;
      stats := INITIAL_STATS;
    }

    /** Adds a path to the current batch; starts the batch timer only when none is running. */
    method ScheduleAnalysis(filePath: string, now: int) returns (startedTimer: bool)
      requires Valid()
      modifies this
      ensures Valid()
      ensures pendingChanges == old(pendingChanges) + {filePath}
      ensures filePath in old(pendingChanges) ==> pendingChanges == old(pendingChanges)
      ensures batchTimerRunning
      ensures startedTimer == !old(batchTimerRunning)
      ensures batchTaskActive == (old(batchTaskActive) || startedTimer)
      ensures old(TimerConsistent()) ==> TimerConsistent() && (startedTimer <==> !old(batchTaskActive))
      ensures lastChangeTime == Some(now)
      ensures running == old(running) && stats == old(stats)
    {
      pendingChanges := pendingChanges + {filePath};
      lastChangeTime := Some(now);
      if !batchTimerRunning {
        batchTimerRunning := true;
        batchTaskActive := true;
        startedTimer := true;
      } else {
        startedTimer := false;
      }
    }

    /** The loop over one list of a grouped message. */
    method ScheduleGroup(kind: ChangeKind, infos: seq<FileInfo>, now: int) returns (timersStarted: nat)
      requires Valid()
      modifies this
      ensures Valid()
      ensures pendingChanges == old(pendingChanges) + Elements(GroupScheduled(kind, infos))
      ensures batchTimerRunning == (old(batchTimerRunning) || GroupScheduled(kind, infos) != [])
      ensures timersStarted == if !old(batchTimerRunning) && GroupScheduled(kind, infos) != [] then 1 else 0
      ensures batchTaskActive == (old(batchTaskActive) || timersStarted == 1)
      ensures old(TimerConsistent()) ==> TimerConsistent()
      ensures lastChangeTime == if GroupScheduled(kind, infos) == [] then old(lastChangeTime) else Some(now)
      ensures running == old(running) && stats == old(stats)
    {
      timersStarted := 0;
      ghost var done: seq<string> := [];
      for i := 0 to |infos|
        invariant done == GroupScheduled(kind, infos[..i])
        invariant Valid()
        invariant pendingChanges == old(pendingChanges) + Elements(done)
        invariant batchTimerRunning == (old(batchTimerRunning) || done != [])
        invariant timersStarted == if !old(batchTimerRunning) && done != [] then 1 else 0
        invariant batchTaskActive == (old(batchTaskActive) || timersStarted == 1)
        invariant lastChangeTime == if done == [] then old(lastChangeTime) else Some(now)
        invariant running == old(running) && stats == old(stats)
      {
        GroupScheduledStep(kind, infos, i);
        var filePath := infos[i].filePath.GetOr("");
        var extension := infos[i].extension.GetOr("");
        if Schedules(kind, extension) {
          var started := ScheduleAnalysis(filePath, now);
          if started {
            timersStarted := timersStarted + 1;
          }
          ElementsAppend(done, [filePath]);
          done := done + [filePath];
        }
      }
      assert infos[..|infos|] == infos;
    }

    /** Handles one decoded message: counts it, then schedules the paths it selects. */
    method ProcessFileEvent(e: Event, now: int) returns (timersStarted: nat)
      requires Valid()
      modifies this
      ensures Valid()
      ensures stats == old(stats).(eventsReceived := old(stats).eventsReceived + 1)
      ensures pendingChanges == old(pendingChanges) + Elements(ScheduledPaths(e))
      ensures batchTimerRunning == (old(batchTimerRunning) || ScheduledPaths(e) != [])
      ensures timersStarted == if !old(batchTimerRunning) && ScheduledPaths(e) != [] then 1 else 0
      ensures batchTaskActive == (old(batchTaskActive) || timersStarted == 1)
      ensures old(TimerConsistent()) ==> TimerConsistent()
      ensures lastChangeTime == if ScheduledPaths(e) == [] then old(lastChangeTime) else Some(now)
      ensures running == old(running)
    {
      stats := stats.(eventsReceived := stats.eventsReceived + 1);
      if e.eventType == Some(FILES_CHANGED) {
        timersStarted := HandleFilesChanged(e.files.GetOr(NO_GROUPS), now);
        return;
      }
      timersStarted := HandleSingleEvent(e, now);
    }

    /** The grouped format: created and modified entries, then deleted ones. */
    method HandleFilesChanged(files: FileGroups, now: int) returns (timersStarted: nat)
      requires Valid()
      modifies this
      ensures Valid()
      ensures pendingChanges == old(pendingChanges) + Elements(GroupsScheduled(files))
      ensures batchTimerRunning == (old(batchTimerRunning) || GroupsScheduled(files) != [])
      ensures timersStarted == if !old(batchTimerRunning) && GroupsScheduled(files) != [] then 1 else 0
      ensures batchTaskActive == (old(batchTaskActive) || timersStarted == 1)
      ensures old(TimerConsistent()) ==> TimerConsistent()
      ensures lastChangeTime == if GroupsScheduled(files) == [] then old(lastChangeTime) else Some(now)
      ensures running == old(running) && stats == old(stats)
    {
      var created := files.created.GetOr([]);
      var modified := files.modified.GetOr([]);
      var deleted := files.deleted.GetOr([]);
      var c := ScheduleGroup(Created, created, now);
      var m := ScheduleGroup(Modified, modified, now);
      var d := ScheduleGroup(Deleted, deleted, now);
      timersStarted := c + m + d;
      ghost var sc, sm, sd := GroupScheduled(Created, created), GroupScheduled(Modified, modified),
                              GroupScheduled(Deleted, deleted);
      assert Elements(sc + sm + sd) == Elements(sc) + Elements(sm) + Elements(sd);
    }

    /** The older single-event format. */
    method HandleSingleEvent(e: Event, now: int) returns (timersStarted: nat)
      requires Valid()
      modifies this
      ensures Valid()
      ensures pendingChanges == old(pendingChanges) + Elements(SingleScheduled(e))
      ensures batchTimerRunning == (old(batchTimerRunning) || SingleScheduled(e) != [])
      ensures timersStarted == if !old(batchTimerRunning) && SingleScheduled(e) != [] then 1 else 0
      ensures batchTaskActive == (old(batchTaskActive) || timersStarted == 1)
      ensures old(TimerConsistent()) ==> TimerConsistent()
      ensures lastChangeTime == if SingleScheduled(e) == [] then old(lastChangeTime) else Some(now)
      ensures running == old(running) && stats == old(stats)
    {
      var filePath := e.filePath.GetOr("");
      var extension := e.extension.GetOr("");
      var started := false;
      if e.eventType == Some("file_created") {
        if extension == ".xlsx" {
          started := ScheduleAnalysis(filePath, now);
        }
      } else if e.eventType == Some("file_modified") {
        if extension == ".xlsx" {
          started := ScheduleAnalysis(filePath, now);
        }
      } else if e.eventType == Some("file_deleted") {
        if extension in [".xlsx", ".knfo", ".meta"] {
          started := ScheduleAnalysis(filePath, now);
        }
      }
      // `connected`, `pong` and unknown events only log.
      timersStarted := if started then 1 else 0;
    }

    /** The receive loop over a run of decoded messages received within one
        batch window (no timer fires during the run), message `k` arriving at
        `nows[k]`: however many paths they select, at most one batch timer is
        started. */
    method ReceiveMessages(events: seq<Event>, nows: seq<int>) returns (timersStarted: nat)
      requires Valid()
      requires |nows| == |events|
      modifies this
      ensures Valid()
      ensures stats == old(stats).(eventsReceived := old(stats).eventsReceived + |events|)
      ensures pendingChanges == old(pendingChanges) + AllScheduled(events)
      ensures batchTimerRunning == (old(batchTimerRunning) || AllScheduled(events) != {})
      ensures timersStarted == if !old(batchTimerRunning) && AllScheduled(events) != {} then 1 else 0
      ensures batchTaskActive == (old(batchTaskActive) || timersStarted == 1)
      ensures old(TimerConsistent()) ==> TimerConsistent()
      ensures lastChangeTime == LastChange(events, nows, old(lastChangeTime))
      ensures running == old(running)
    {
      timersStarted := 0;
      for i := 0 to |events|
        invariant Valid()
        invariant stats == old(stats).(eventsReceived := old(stats).eventsReceived + i)
        invariant pendingChanges == old(pendingChanges) + AllScheduled(events[..i])
        invariant batchTimerRunning == (old(batchTimerRunning) || AllScheduled(events[..i]) != {})
        invariant timersStarted == if !old(batchTimerRunning) && AllScheduled(events[..i]) != {} then 1 else 0
        invariant batchTaskActive == (old(batchTaskActive) || timersStarted == 1)
        invariant old(TimerConsistent()) ==> TimerConsistent()
        invariant lastChangeTime == LastChange(events[..i], nows[..i], old(lastChangeTime))
        invariant running == old(running)
      {
        assert events[..i + 1][..i] == events[..i];
        assert nows[..i + 1][..i] == nows[..i];
        var started := ProcessFileEvent(events[i], nows[i]);
        timersStarted := timersStarted + started;
      }
      assert events[..|events|] == events;
      assert nows[..|nows|] == nows;
    }

    /** Sends one scan request for `changedFiles`; `backend` and `outcome`
        stand for the HTTP library present and what the request did.
        Returns the per-extension summary it logs. */
    method ExecuteAnalysis(changedFiles: set<string>, backend: Backend, outcome: PostOutcome, now: int)
      returns (summary: seq<(string, nat)>)
      modifies this
      ensures IsSortedItemsOf(summary, ExtensionCounts(changedFiles))
      ensures stats == AfterExecution(old(stats), backend, outcome, now)
      ensures running == old(running) && pendingChanges == old(pendingChanges)
      ensures batchTimerRunning == old(batchTimerRunning) && batchTaskActive == old(batchTaskActive)
      ensures lastChangeTime == old(lastChangeTime)
    {
      summary := Summarize(changedFiles);
      match backend {
        case Aiohttp =>
          match outcome {
            case Raised =>
              // Caught by the outer handler: one error, no timestamp.
              stats := stats.(errors := stats.errors + 1);
              return;
            case NotSent =>
              // The session or request could not be set up: the outer handler again.
              stats := stats.(errors := stats.errors + 1);
              return;
            case Responded(status) =>
              if status == HTTP_OK {
                stats := stats.(analysisExecuted := stats.analysisExecuted + 1);
              } else {
                stats := stats.(errors := stats.errors + 1);
              }
          }
        case Urllib =>
          if outcome.NotSent? {
            // Building the request raised before the inner handler: the outer one counts it.
            stats := stats.(errors := stats.errors + 1);
            return;
          }
          match outcome {
            case Raised =>
              // Caught by the inner handler, which only logs.
            case Responded(status) =>
              if status == HTTP_OK {
                stats := stats.(analysisExecuted := stats.analysisExecuted + 1);
              } else {
                stats := stats.(errors := stats.errors + 1);
              }
          }
          // Counted after the inner handler whatever the outcome.
          stats := stats.(errors := stats.errors + 1);
      }
      stats := stats.(lastExecution := Some(now));
    }

    /** The batch timer fires: a non-empty pending set is snapshotted, cleared
        and sent as one request; an empty one only lowers the flag.  It runs
        only as the live batch task, so a timer must have been started and not
        cancelled.  `logged` is the summary the batch logs, `sent` the one the
        request logs; both describe the snapshot. */
    method BatchedExecute(backend: Backend, outcome: PostOutcome, now: int)
      returns (batch: Option<set<string>>, logged: seq<(string, nat)>, sent: seq<(string, nat)>)
      requires Valid() && batchTaskActive
      modifies this
      ensures Valid() && TimerConsistent()
      ensures batch == if old(pendingChanges) == {} then None else Some(old(pendingChanges))
      ensures pendingChanges == {} && !batchTimerRunning && !batchTaskActive
      ensures stats == if old(pendingChanges) == {} then old(stats)
                       else AfterExecution(old(stats), backend, outcome, now)
      ensures batch.Some? ==> IsSortedItemsOf(sent, ExtensionCounts(batch.value)) && logged == sent
      ensures running == old(running) && lastChangeTime == old(lastChangeTime)
    {
      if pendingChanges != {} {
        var filesToProcess := pendingChanges;
        logged := Summarize(filesToProcess);
        pendingChanges := {};
        batchTimerRunning := false;
        sent := ExecuteAnalysis(filesToProcess, backend, outcome, now);
        SortedItemsUnique(logged, sent, ExtensionCounts(filesToProcess));
        batch := Some(filesToProcess);
      } else {
        batchTimerRunning := false;
        batch := None;
        logged, sent := [], [];
      }
      batchTaskActive := false;
    }

    /** The event loop ends (`asyncio.run` returning or raising): every task is
        cancelled, so a batch task still sleeping is gone and its batch is
        never sent; the pending set, the flag and the counters stay. */
    method CloseLoop()
      requires Valid()
      modifies this
      ensures Valid()
      ensures !batchTaskActive
      ensures pendingChanges == old(pendingChanges) && batchTimerRunning == old(batchTimerRunning)
      ensures stats == old(stats) && running == old(running) && lastChangeTime == old(lastChangeTime)
    {
      batchTaskActive := false;
    }

    /** Stops the client: any pending paths of a running window are snapshotted
        for one last request and cleared, and the batch task is cancelled.  The
        timer flag is left as it was.  `loopRunning` says whether an event loop
        is running at the call; without one (after `CloseLoop`, so no task is
        live), scheduling the last request raises before the pending set is
        cleared (`raised`), and nothing after it runs. */
    method Stop(loopRunning: bool) returns (finalBatch: Option<set<string>>, raised: bool)
      requires Valid()
      requires loopRunning || !batchTaskActive
      modifies this
      ensures Valid()
      ensures !running
      ensures raised == (!loopRunning && old(pendingChanges) != {} && old(batchTimerRunning))
      ensures raised ==>
                finalBatch == None && pendingChanges == old(pendingChanges)
                && batchTaskActive == old(batchTaskActive)
      ensures !raised ==>
                && finalBatch == (if old(pendingChanges) != {} && old(batchTimerRunning)
                                  then Some(old(pendingChanges)) else None)
                && pendingChanges == (if finalBatch.Some? then {} else old(pendingChanges))
                && !batchTaskActive
      ensures batchTimerRunning == old(batchTimerRunning)
      ensures stats == old(stats) && lastChangeTime == old(lastChangeTime)
    {
      running := false;
      finalBatch := None;
      raised := false;
      if pendingChanges != {} && batchTimerRunning {
        if !loopRunning {
          raised := true;
          return;
        }
        finalBatch := Some(pendingChanges);
        pendingChanges := {};
      }
      if batchTaskActive {
        batchTaskActive := false;
      }
    }

    /** Interrupt handling in the program's entry point: the event loop has
        ended, then the client is stopped.  Pending paths are never sent, no
        counter moves, and stopping raises exactly when paths were pending. */
    method InterruptShutdown() returns (raised: bool)
      requires Valid()
      modifies this
      ensures Valid()
      ensures !running && !batchTaskActive
      ensures raised == (old(pendingChanges) != {})
      ensures pendingChanges == old(pendingChanges) && batchTimerRunning == old(batchTimerRunning)
      ensures stats == old(stats) && lastChangeTime == old(lastChangeTime)
    {
      CloseLoop();
      var finalBatch;
      finalBatch, raised := Stop(false);
    }
  }
}
