/**
 * The synchronous path of `JobRunner` (grimmoire/jobs/runner.py): a job is
 * marked running and journaled as started, its function runs and reports
 * progress, and the outcome decides the final status — failed when the
 * function raised, paused when a stop was requested meanwhile, completed
 * otherwise — with exactly one closing journal event.
 *
 * The job function is given as a `JobScript`: the progress reports it
 * makes and the stop requests that reach the runner while it runs, in
 * order, then whether it returns or raises. Payload timestamps (the wall
 * clock) are parameters; the store's own clock stamps `created_at`.
 */
module Runner {
  import opened Wrappers
  import opened Json
  import opened Store
  import opened Journal

  /** Something that happens while the job function runs. */
  datatype WorkStep =
    | Report(progress: Json, resultsCount: Option<int>)   // `ctx.progress_callback(p, c)`
    | Interrupt                                            // `request_stop()`

  /** How the job function finishes. */
  datatype WorkEnd = Returns(result: Json) | Raises(message: string)

  datatype JobScript = JobScript(steps: seq<WorkStep>, end: WorkEnd)

  /** A stop was requested during the steps. */
  predicate Interrupted(steps: seq<WorkStep>) {
    exists k :: 0 <= k < |steps| && steps[k].Interrupt?
  }

  /** The status a run ends in. */
  function FinalStatus(script: JobScript): (s: JobStatus)
    ensures s == Failed <==> script.end.Raises?
    ensures s == Paused <==> script.end.Returns? && Interrupted(script.steps)
    ensures s == Completed <==> script.end.Returns? && !Interrupted(script.steps)
  {
    match script.end
    case Raises(_) => Failed
    case Returns(_) => if Interrupted(script.steps) then Paused else Completed
  }

  /** The `error` the final status update carries: `str(e)` for a failure, else none. */
  function FinalError(script: JobScript): Option<string> {
    match script.end
    case Raises(m) => Some(m)
    case Returns(_) => None
  }

  /** What `_run_job_internal` returns: the function's result, or `None` after a failure. */
  function JobResult(script: JobScript): Json {
    match script.end
    case Raises(_) => JNull
    case Returns(v) => v
  }

  /** A payload with a `timestamp` entry. */
  function Stamped(fields: map<string, Json>, stamp: string): Json {
    JObj(fields["timestamp" := JStr(stamp)])
  }

  const InterruptPayload: Json := JObj(map["reason" := JStr("user_interrupt")])

  /** The event a step appends. */
  function StepEvent(jobId: int, step: WorkStep, now: int): Event {
    match step
    case Report(p, _) => Event(Some(jobId), "progress", Some(OrEmpty(p)), now)
    case Interrupt => Event(Some(jobId), "interrupt_requested", Some(InterruptPayload), now)
  }

  function StepEvents(jobId: int, steps: seq<WorkStep>, now: int): (r: seq<Event>)
    ensures |r| == |steps| && forall k :: 0 <= k < |steps| ==> r[k] == StepEvent(jobId, steps[k], now)
  {
    seq(|steps|, k requires 0 <= k < |steps| => StepEvent(jobId, steps[k], now))
  }

  function StartEvent(jobId: int, stamp: string, now: int): Event {
    Event(Some(jobId), "start", Some(Stamped(map[], stamp)), now)
  }

  /** The one event that closes a run. */
  function EndEvent(jobId: int, script: JobScript, stamp: string, now: int): Event {
    match script.end
    case Raises(m) => Event(Some(jobId), "error", Some(Stamped(map["error" := JStr(m)], stamp)), now)
    case Returns(_) =>
      if Interrupted(script.steps) then Event(Some(jobId), "paused", Some(Stamped(map["reason" := JStr("interrupt")], stamp)), now)
      else Event(Some(jobId), "complete", Some(Stamped(map[], stamp)), now)
  }

  /** Everything a run of an existing job appends to the journal. */
  function RunEvents(jobId: int, script: JobScript, startStamp: string, endStamp: string, now: int): seq<Event> {
    [StartEvent(jobId, startStamp, now)] + StepEvents(jobId, script.steps, now) + [EndEvent(jobId, script, endStamp, now)]
  }

  /** The job row after the progress reports among `steps`. */
  function ApplyReports(row: JobRow, steps: seq<WorkStep>): JobRow
    decreases |steps|
  {
    if steps == [] then row
    else
      var before := ApplyReports(row, steps[..|steps| - 1]);
      match steps[|steps| - 1]
      case Report(p, c) => ProgressUpdate(before, p, c)
      case Interrupt => before
  }

  /** The job row after a whole run. */
  function FinalRow(row: JobRow, script: JobScript, now: int): JobRow {
    StatusUpdate(ApplyReports(StatusUpdate(row, Running, None, now), script.steps), FinalStatus(script), FinalError(script), now)
  }

  /** `json.loads(job['progress']) if job['progress'] else {}`. */
  function StoredProgress(row: JobRow): Json {
    match row.progress
    case Some(p) => p
    case None => EmptyObj
  }

  function ResumeEvent(jobId: int, progress: Json, stamp: string, now: int): Event {
    Event(Some(jobId), "resume", Some(Stamped(map["from_progress" := progress], stamp)), now)
  }

  /** A paused or pending job may be resumed. */
  predicate Resumable(status: JobStatus) {
    status == Paused || status == Pending
  }

  // ---------------------------------------------------------------------
  // Properties of a run
  // ---------------------------------------------------------------------

  /**
   * A run's journal entries: one `start` first, then one `progress` event
   * per report and one `interrupt_requested` event per stop request, in
   * order, then exactly one terminal event — `error` when the function
   * raised, `paused` when it returned after a stop request, `complete`
   * otherwise — matching the final status. Every entry belongs to the job.
   */
  lemma RunEventsShape(row: JobRow, jobId: int, script: JobScript, startStamp: string, endStamp: string, now: int)
    ensures var es := RunEvents(jobId, script, startStamp, endStamp, now);
      && |es| == |script.steps| + 2
      && es[0].eventType == "start"
      && (forall k :: 1 <= k < |es| - 1 ==> es[k].eventType !in TerminalTypes && es[k].eventType != "start")
      && (forall k :: 1 <= k < |es| - 1 ==>
            (es[k].eventType == "progress" <==> script.steps[k - 1].Report?)
            && (script.steps[k - 1].Report? ==> es[k].eventData == Some(OrEmpty(script.steps[k - 1].progress))))
      && es[|es| - 1].eventType in TerminalTypes
      && (es[|es| - 1].eventType == "error" <==> FinalRow(row, script, now).status == Failed)
      && (es[|es| - 1].eventType == "paused" <==> FinalRow(row, script, now).status == Paused)
      && (es[|es| - 1].eventType == "complete" <==> FinalRow(row, script, now).status == Completed)
      && forall k :: 0 <= k < |es| ==> es[k].jobId == Some(jobId) && es[k].createdAt == now
  {
    var es := RunEvents(jobId, script, startStamp, endStamp, now);
    assert forall k :: 1 <= k < |es| - 1 ==> es[k] == StepEvent(jobId, script.steps[k - 1], now);
  }

  /**
   * One more step of a run: the prefix is interrupted when the shorter one
   * was or the new step is a stop request, gains that step's event, and the
   * row takes that step's report.
   */
  lemma PrefixExtend(row: JobRow, jobId: int, steps: seq<WorkStep>, k: int, now: int)
    requires 0 <= k < |steps|
    ensures Interrupted(steps[..k + 1]) == (Interrupted(steps[..k]) || steps[k].Interrupt?)
    ensures StepEvents(jobId, steps[..k + 1], now) == StepEvents(jobId, steps[..k], now) + [StepEvent(jobId, steps[k], now)]
    ensures steps[k].Report? ==> ApplyReports(row, steps[..k + 1]) == ProgressUpdate(ApplyReports(row, steps[..k]), steps[k].progress, steps[k].resultsCount)
    ensures steps[k].Interrupt? ==> ApplyReports(row, steps[..k + 1]) == ApplyReports(row, steps[..k])
  {
    assert steps[..k + 1][..k] == steps[..k];
    if Interrupted(steps[..k]) {
      var j :| 0 <= j < k && steps[..k][j].Interrupt?;
      assert steps[..k + 1][j].Interrupt?;
    }
    if steps[k].Interrupt? {
      assert steps[..k + 1][k].Interrupt?;
    }
  }

  /** Whatever the progress reports did, a run's status is set by its outcome alone. */
  lemma {:induction false} ReportsKeepStatus(row: JobRow, steps: seq<WorkStep>)
    ensures ApplyReports(row, steps).(progress := row.progress, resultsCount := row.resultsCount) == row
    decreases |steps|
  {
    if steps != [] {
      ReportsKeepStatus(row, steps[..|steps| - 1]);
    }
  }

  /**
   * A failed run records the message the function raised both in the row's
   * `error` and in the `error` event; a completed run clears the row's
   * `error`; a paused run keeps it. `started_at` is the run's start.
   */
  lemma FinalRowError(row: JobRow, script: JobScript, startStamp: string, endStamp: string, now: int)
    ensures var r := FinalRow(row, script, now);
      && r.startedAt == Some(now)
      && (script.end.Raises? ==>
            && r.error == Some(script.end.message)
            && EndEvent(row.id, script, endStamp, now).eventData.value.fields["error"] == JStr(script.end.message))
      && (r.status == Completed ==> r.error == None && r.completedAt == Some(now))
      && (r.status == Paused ==> r.error == row.error && r.completedAt == row.completedAt)
  {
    ReportsKeepStatus(StatusUpdate(row, Running, None, now), script.steps);
  }

  /** The last progress report's payload is what the row holds afterwards. */
  lemma {:induction false} LastReportStored(row: JobRow, steps: seq<WorkStep>, k: nat)
    requires k < |steps| && steps[k].Report?
    requires forall j :: k < j < |steps| ==> steps[j].Interrupt?
    ensures ApplyReports(row, steps).progress == Some(steps[k].progress)
    decreases |steps|
  {
    if k < |steps| - 1 {
      LastReportStored(row, steps[..|steps| - 1], k);
    }
  }

  /** The two newest events of a run are its closing event and the event of its last step. */
  lemma RunEventsTail(jobId: int, script: JobScript, startStamp: string, endStamp: string, now: int)
    requires script.steps != []
    ensures var es := RunEvents(jobId, script, startStamp, endStamp, now);
      && |es| >= 2
      && es[|es| - 1] == EndEvent(jobId, script, endStamp, now)
      && es[|es| - 2] == StepEvent(jobId, script.steps[|script.steps| - 1], now)
      && forall k :: 0 <= k < |es| ==> es[k].jobId == Some(jobId)
  {
  }

  /** A checkpoint scan whose first event offers nothing takes what the second offers. */
  lemma SecondCheckpoint(events: seq<Event>)
    requires |events| >= 2 && CheckpointOf(events[0]).None? && CheckpointOf(events[1]).Some?
    ensures LastCheckpoint(events) == CheckpointOf(events[1])
  {
  }

  /** A recovery scan whose first event offers nothing takes what the second offers. */
  lemma SecondRecovery(events: seq<Event>)
    requires |events| >= 2 && RecoveryOf(events[0]).None? && RecoveryOf(events[1]).Some?
    ensures RecoveryPoint(events) == RecoveryOf(events[1])
  {
  }

  /**
   * After a run whose last step is a progress report, the job's last
   * checkpoint is that report's payload (or `{}` for an empty one): the only
   * newer event is the terminal one.
   */
  lemma CheckpointAfterRun(journal: seq<Event>, jobId: int, script: JobScript, startStamp: string, endStamp: string, now: int)
    requires jobId != 0 && script.steps != [] && script.steps[|script.steps| - 1].Report?
    ensures LastCheckpoint(NewestFirst(journal + RunEvents(jobId, script, startStamp, endStamp, now), Some(jobId), CheckpointWindow))
            == Some(OrEmpty(script.steps[|script.steps| - 1].progress))
  {
    var es := RunEvents(jobId, script, startStamp, endStamp, now);
    RunEventsTail(jobId, script, startStamp, endStamp, now);
    var listed := NewestFirst(journal + es, Some(jobId), CheckpointWindow);
    NewestTwo(journal, es, jobId, CheckpointWindow);
    SecondCheckpoint(listed);
  }

  /**
   * After a run whose last step is a progress report, the recovery point
   * depends on how it ended: after a completed or failed run it is what the
   * last report offers, but after a paused run it is the `paused` event's
   * own payload — the reason and the timestamp, not the progress.
   */
  lemma RecoveryPointAfterRun(journal: seq<Event>, jobId: int, script: JobScript, startStamp: string, endStamp: string, now: int)
    requires jobId != 0 && script.steps != [] && script.steps[|script.steps| - 1].Report?
    requires script.steps[|script.steps| - 1].progress.JObj?
    ensures var point := RecoveryPoint(NewestFirst(journal + RunEvents(jobId, script, startStamp, endStamp, now), Some(jobId), RecoveryWindow));
      && (FinalStatus(script) == Paused ==> point == Some(Stamped(map["reason" := JStr("interrupt")], endStamp)))
      && (FinalStatus(script) != Paused ==>
            && point.Some?
            && point == RecoveryOf(StepEvent(jobId, script.steps[|script.steps| - 1], now)))
  {
    var es := RunEvents(jobId, script, startStamp, endStamp, now);
    RunEventsTail(jobId, script, startStamp, endStamp, now);
    var listed := NewestFirst(journal + es, Some(jobId), RecoveryWindow);
    NewestTwo(journal, es, jobId, RecoveryWindow);
    if FinalStatus(script) == Paused {
      PausedOffersItself(jobId, script, endStamp, now);
    } else {
      var p := script.steps[|script.steps| - 1].progress;
      assert OrEmpty(p).JObj?;
      SecondRecovery(listed);
    }
  }

  /** The `paused` event offers its own payload as the recovery point. */
  lemma PausedOffersItself(jobId: int, script: JobScript, stamp: string, now: int)
    requires FinalStatus(script) == Paused
    ensures RecoveryOf(EndEvent(jobId, script, stamp, now)) == Some(Stamped(map["reason" := JStr("interrupt")], stamp))
  {
    var f := map["reason" := JStr("interrupt")]["timestamp" := JStr(stamp)];
    assert "from_progress" !in f;
  }

  /** The newest two listed events of a job are the last two it appended. */
  lemma NewestTwo(journal: seq<Event>, es: seq<Event>, jobId: int, limit: nat)
    requires jobId != 0 && |es| >= 2 && limit >= 2
    requires forall k :: 0 <= k < |es| ==> es[k].jobId == Some(jobId)
    ensures var listed := NewestFirst(journal + es, Some(jobId), limit);
      |listed| >= 2 && listed[0] == es[|es| - 1] && listed[1] == es[|es| - 2]
  {
    ForJobAppend(journal, es, Some(jobId));
    AllSelected(es, Some(jobId));
  }

  /** Events that all belong to the job are all selected for it. */
  lemma {:induction false} AllSelected(es: seq<Event>, jobId: Option<int>)
    requires forall k :: 0 <= k < |es| ==> es[k].jobId == jobId
    ensures ForJob(es, jobId) == es
    decreases |es|
  {
    if es != [] {
      AllSelected(es[..|es| - 1], jobId);
    }
  }

  /** The `resume` event offers, as the recovery point, the progress the job function was given. */
  lemma ResumeEventOffersProgress(jobId: int, progress: Json, stamp: string, now: int)
    ensures RecoveryOf(ResumeEvent(jobId, progress, stamp, now)) == Some(progress)
  {
  }

  // ---------------------------------------------------------------------
  // The runner object
  // ---------------------------------------------------------------------

  class JobRunner {
    const db: Store
    var currentJobId: Option<int>
    var stopRequested: bool

    /** `JobRunner(db)`: no current job and no stop pending. */
    constructor (db: Store)
      ensures this.db == db && currentJobId.None? && !stopRequested
    {
      this.db := db;
      currentJobId := None;
      stopRequested := false;
    }

    /**
     * `request_stop()`: the flag is set; when a job is current (a non-zero
     * id), one `interrupt_requested` event is appended for it, which the
     * store refuses when no such job exists.
     */
    method RequestStop() returns (r: Outcome<string>)
      requires db.Valid()
      modifies this, db
      ensures db.Valid()
      ensures stopRequested && currentJobId == old(currentJobId)
      ensures !FiltersBy(currentJobId) ==> r.Pass? && db.journal == old(db.journal)
      ensures FiltersBy(currentJobId) ==>
        && (r.Fail? <==> currentJobId.value !in db.jobs)
        && (r.Pass? ==> db.journal == old(db.journal) + [Event(currentJobId, "interrupt_requested", Some(InterruptPayload), db.clock)])
        && (r.Fail? ==> db.journal == old(db.journal))
      ensures db.clock == old(db.clock) && db.sources == old(db.sources) && db.jobs == old(db.jobs)
      ensures db.nextJobId == old(db.nextJobId) && db.tables == old(db.tables)
    {
      stopRequested := true;
      r := Pass;
      if FiltersBy(currentJobId) {
        r := db.JournalEvent("interrupt_requested", InterruptPayload, currentJobId);
      }
    }

    /** `should_stop()`: whether a stop was requested since the job began. */
    function ShouldStop(): (r: bool)
      reads this
      ensures r == stopRequested
    {
      stopRequested
    }

    /**
     * `_update_progress(job_id, progress, results_count)`: the job row
     * first, then a `progress` event with the same payload.
     */
    method UpdateProgress(jobId: int, progress: Json, resultsCount: Option<int>) returns (r: Outcome<string>)
      requires db.Valid()
      modifies db
      ensures db.Valid()
      ensures db.jobs == if jobId in old(db.jobs) then old(db.jobs)[jobId := ProgressUpdate(old(db.jobs)[jobId], progress, resultsCount)] else old(db.jobs)
      ensures r.Fail? <==> jobId !in old(db.jobs)
      ensures r.Pass? ==> db.journal == old(db.journal) + [StepEvent(jobId, Report(progress, resultsCount), db.clock)]
      ensures r.Fail? ==> db.journal == old(db.journal)
      ensures db.clock == old(db.clock) && db.sources == old(db.sources)
      ensures db.nextJobId == old(db.nextJobId) && db.tables == old(db.tables)
    {
      db.UpdateJobProgress(jobId, progress, resultsCount);
      r := db.JournalEvent("progress", progress, Some(jobId));
    }

    /**
     * `_run_job_internal(job_id, job_func)`. For an existing job: the row
     * ends as `FinalRow` says, the journal gains `RunEvents`, no job is
     * current afterwards and the stop flag tells whether a stop was
     * requested. For a missing job the `start` event is refused and the
     * error escapes before the job function runs, leaving the job marked
     * current.
     */
    method RunJobInternal(jobId: int, script: JobScript, startStamp: string, endStamp: string)
      returns (r: Result<Json, string>)
      requires db.Valid()
      modifies this, db
      ensures db.Valid()
      ensures db.clock == old(db.clock) && db.sources == old(db.sources)
      ensures db.nextJobId == old(db.nextJobId) && db.tables == old(db.tables)
      ensures jobId !in old(db.jobs) ==>
        && r.Failure? && db.journal == old(db.journal) && db.jobs == old(db.jobs)
        && currentJobId == Some(jobId) && !stopRequested
      ensures jobId in old(db.jobs) ==>
        && r == Success(JobResult(script))
        && db.journal == old(db.journal) + RunEvents(jobId, script, startStamp, endStamp, old(db.clock))
        && db.jobs == old(db.jobs)[jobId := FinalRow(old(db.jobs)[jobId], script, old(db.clock))]
        && currentJobId.None?
        && stopRequested == Interrupted(script.steps)
    {
      var started := Begin(jobId, startStamp);
      if started.Fail? {
        return Failure(started.error);
      }
      r := Execute(jobId, script, endStamp);
      assert db.journal == old(db.journal) + [StartEvent(jobId, startStamp, old(db.clock))] + StepEvents(jobId, script.steps, old(db.clock))
                           + [EndEvent(jobId, script, endStamp, old(db.clock))];
    }

    /** The job function's steps and the closing update, once the job is current and running. */
    method Execute(jobId: int, script: JobScript, endStamp: string) returns (r: Result<Json, string>)
      requires db.Valid() && jobId in db.jobs && currentJobId == Some(jobId) && !stopRequested
      modifies this, db
      ensures db.Valid()
      ensures db.clock == old(db.clock) && db.sources == old(db.sources)
      ensures db.nextJobId == old(db.nextJobId) && db.tables == old(db.tables)
      ensures r == Success(JobResult(script))
      ensures db.journal == old(db.journal) + StepEvents(jobId, script.steps, db.clock) + [EndEvent(jobId, script, endStamp, db.clock)]
      ensures db.jobs == old(db.jobs)[jobId := StatusUpdate(ApplyReports(old(db.jobs)[jobId], script.steps), FinalStatus(script), FinalError(script), db.clock)]
      ensures currentJobId.None? && stopRequested == Interrupted(script.steps)
    {
      RunSteps(jobId, script.steps);
      r := Finish(jobId, script, endStamp);
      currentJobId := None;
    }

    /** The job becomes current and running, and its `start` event is journalled. */
    method Begin(jobId: int, startStamp: string) returns (started: Outcome<string>)
      requires db.Valid()
      modifies this, db
      ensures db.Valid() && currentJobId == Some(jobId) && !stopRequested
      ensures db.clock == old(db.clock) && db.sources == old(db.sources)
      ensures db.nextJobId == old(db.nextJobId) && db.tables == old(db.tables)
      ensures started.Fail? <==> jobId !in old(db.jobs)
      ensures started.Fail? ==> db.journal == old(db.journal) && db.jobs == old(db.jobs)
      ensures started.Pass? ==>
        && db.jobs == old(db.jobs)[jobId := StatusUpdate(old(db.jobs)[jobId], Running, None, old(db.clock))]
        && db.journal == old(db.journal) + [StartEvent(jobId, startStamp, old(db.clock))]
    {
      currentJobId := Some(jobId);
      stopRequested := false;
      db.UpdateJobStatus(jobId, Running, None);
      started := db.JournalEvent("start", Stamped(map[], startStamp), Some(jobId));
    }

    /** One step of the job function: a progress report or a stop request. */
    method Step(jobId: int, step: WorkStep)
      requires db.Valid() && jobId in db.jobs && currentJobId == Some(jobId)
      modifies this, db
      ensures db.Valid() && currentJobId == Some(jobId)
      ensures db.clock == old(db.clock) && db.sources == old(db.sources)
      ensures db.nextJobId == old(db.nextJobId) && db.tables == old(db.tables)
      ensures step.Report? ==> db.jobs == old(db.jobs)[jobId := ProgressUpdate(old(db.jobs)[jobId], step.progress, step.resultsCount)]
      ensures step.Interrupt? ==> db.jobs == old(db.jobs)
      ensures db.journal == old(db.journal) + [StepEvent(jobId, step, db.clock)]
      ensures stopRequested == (old(stopRequested) || step.Interrupt?)
    {
      match step {
        case Report(p, c) =>
          var _ := UpdateProgress(jobId, p, c);
        case Interrupt =>
          var _ := RequestStop();
      }
    }

    /** The job function's steps, while the job is current. */
    method RunSteps(jobId: int, steps: seq<WorkStep>)
      requires db.Valid() && jobId in db.jobs && currentJobId == Some(jobId)
      modifies this, db
      ensures db.Valid() && currentJobId == Some(jobId)
      ensures db.clock == old(db.clock) && db.sources == old(db.sources)
      ensures db.nextJobId == old(db.nextJobId) && db.tables == old(db.tables)
      ensures db.jobs == old(db.jobs)[jobId := ApplyReports(old(db.jobs)[jobId], steps)]
      ensures db.journal == old(db.journal) + StepEvents(jobId, steps, db.clock)
      ensures stopRequested == (old(stopRequested) || Interrupted(steps))
    {
      ghost var row := old(db.jobs)[jobId];
      var k := 0;
      while k < |steps|
        invariant 0 <= k <= |steps|
        invariant db.Valid() && currentJobId == Some(jobId)
        invariant db.clock == old(db.clock) && db.sources == old(db.sources)
        invariant db.nextJobId == old(db.nextJobId) && db.tables == old(db.tables)
        invariant db.jobs == old(db.jobs)[jobId := ApplyReports(row, steps[..k])]
        invariant db.journal == old(db.journal) + StepEvents(jobId, steps[..k], db.clock)
        invariant stopRequested == (old(stopRequested) || Interrupted(steps[..k]))
      {
        Step(jobId, steps[k]);
        PrefixExtend(row, jobId, steps, k, db.clock);
        k := k + 1;
      }
      assert steps[..|steps|] == steps;
    }

    /** The closing status update and journal event, after the job function. */
    method Finish(jobId: int, script: JobScript, endStamp: string) returns (r: Result<Json, string>)
      requires db.Valid() && jobId in db.jobs && stopRequested == Interrupted(script.steps)
      modifies db
      ensures db.Valid()
      ensures db.clock == old(db.clock) && db.sources == old(db.sources)
      ensures db.nextJobId == old(db.nextJobId) && db.tables == old(db.tables)
      ensures db.jobs == old(db.jobs)[jobId := StatusUpdate(old(db.jobs)[jobId], FinalStatus(script), FinalError(script), db.clock)]
      ensures db.journal == old(db.journal) + [EndEvent(jobId, script, endStamp, db.clock)]
      ensures r == Success(JobResult(script))
    {
      match script.end {
        case Returns(v) =>
          if ShouldStop() {
            db.UpdateJobStatus(jobId, Paused, None);
            var _ := db.JournalEvent("paused", Stamped(map["reason" := JStr("interrupt")], endStamp), Some(jobId));
          } else {
            db.UpdateJobStatus(jobId, Completed, None);
            var _ := db.JournalEvent("complete", Stamped(map[], endStamp), Some(jobId));
          }
          r := Success(v);
        case Raises(m) =>
          db.UpdateJobStatus(jobId, Failed, Some(m));
          var _ := db.JournalEvent("error", Stamped(map["error" := JStr(m)], endStamp), Some(jobId));
          r := Success(JNull);
      }
    }

    /**
     * `resume_job(job_id, job_func)`: refuses a missing job, or one that is
     * neither paused nor pending, before writing anything; otherwise
     * journals `resume` with the stored progress (or `{}`) and runs the job
     * function on that same progress.
     */
    method ResumeJob(jobId: int, job: Json -> JobScript, resumeStamp: string, startStamp: string, endStamp: string)
      returns (r: Result<Json, string>)
      requires db.Valid()
      modifies this, db
      ensures db.Valid()
      ensures db.clock == old(db.clock) && db.sources == old(db.sources)
      ensures db.nextJobId == old(db.nextJobId) && db.tables == old(db.tables)
      ensures jobId !in old(db.jobs) ==>
        && r == Failure("Job " + IntToString(jobId) + " not found")
        && db.journal == old(db.journal) && db.jobs == old(db.jobs)
        && currentJobId == old(currentJobId) && stopRequested == old(stopRequested)
      ensures jobId in old(db.jobs) && !Resumable(old(db.jobs)[jobId].status) ==>
        && r == Failure("Job " + IntToString(jobId) + " cannot be resumed (status: " + old(db.jobs)[jobId].status.Name() + ")")
        && db.journal == old(db.journal) && db.jobs == old(db.jobs)
        && currentJobId == old(currentJobId) && stopRequested == old(stopRequested)
      ensures jobId in old(db.jobs) && Resumable(old(db.jobs)[jobId].status) ==>
        var progress := StoredProgress(old(db.jobs)[jobId]);
        var script := job(progress);
        && r == Success(JobResult(script))
        && db.journal == old(db.journal) + [ResumeEvent(jobId, progress, resumeStamp, old(db.clock))]
                         + RunEvents(jobId, script, startStamp, endStamp, old(db.clock))
        && db.jobs == old(db.jobs)[jobId := FinalRow(old(db.jobs)[jobId], script, old(db.clock))]
        && currentJobId.None? && stopRequested == Interrupted(script.steps)
    {
      var row := db.GetJob(jobId);
      if row.None? {
        return Failure("Job " + IntToString(jobId) + " not found");
      }
      if !Resumable(row.value.status) {
        return Failure("Job " + IntToString(jobId) + " cannot be resumed (status: " + row.value.status.Name() + ")");
      }
      var progress := StoredProgress(row.value);
      var _ := db.JournalEvent("resume", Stamped(map["from_progress" := progress], resumeStamp), Some(jobId));
      r := RunJobInternal(jobId, job(progress), startStamp, endStamp);
    }

    /** `get_resumable_jobs()`: every paused job and nothing else, newest first. */
    function GetResumableJobs(): (r: seq<JobRow>)
      requires db.Valid()
      reads this, db
      ensures forall k :: 0 <= k < |r| ==> r[k].status == Paused && r[k].id in db.jobs && db.jobs[r[k].id] == r[k]
      ensures forall id :: id in db.jobs && db.jobs[id].status == Paused ==> db.jobs[id] in r
      ensures forall a, b :: 0 <= a < b < |r| ==> r[a].id > r[b].id
    {
      db.GetJobs(Some(Paused))
    }
  }
}
