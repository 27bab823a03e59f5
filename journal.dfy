/**
 * The job journal (grimmoire/jobs/journal.py): writing journal events and
 * reading a job's history back — the last checkpoint, the point to resume
 * from, the timeline, and a summary.
 *
 * Every reader works on `get_journal(job_id, limit)`, which lists a job's
 * events newest first. A payload was written by `json.dumps`, so decoding it
 * succeeds; only a `NULL` payload (`Event.eventData == None`) makes
 * `json.loads` raise.
 */
module Journal {
  import opened Wrappers
  import opened Json
  import opened Store

  /** How many of the newest events each reader looks at. */
  const CheckpointWindow: nat := 50
  const RecoveryWindow: nat := 100
  const TimelineWindow: nat := 1000
  const SummaryWindow: nat := 100

  /** The event types that end a run of a job. */
  const TerminalTypes: set<string> := {"complete", "error", "paused"}

  /** The event types a recovery point is read from. */
  const RecoveryTypes: set<string> := {"progress", "paused", "resume"}

  /** `json.loads(data) if data else {}`: a `NULL` payload reads as the empty mapping. */
  function Decoded(e: Event): (r: Json)
    ensures e.eventData.Some? ==> r == e.eventData.value
    ensures e.eventData.None? ==> r == EmptyObj
  {
    match e.eventData
    case Some(j) => j
    case None => EmptyObj
  }

  // ---------------------------------------------------------------------
  // Checkpoints and recovery points
  // ---------------------------------------------------------------------

  /** What one event offers `get_last_checkpoint`: the payload of a `progress` event. */
  function CheckpointOf(e: Event): (r: Option<Json>)
    ensures r.Some? <==> e.eventType == "progress" && e.eventData.Some?
    ensures r.Some? ==> r == e.eventData
  {
    if e.eventType == "progress" then e.eventData else None
  }

  /**
   * What one event offers `get_recovery_point`: for a `progress`, `paused`
   * or `resume` event, the `from_progress` entry of its payload when there
   * is one, else the payload itself. A payload on which `in` or indexing
   * raises `TypeError` offers nothing.
   */
  function RecoveryOf(e: Event): (r: Option<Json>)
    ensures e.eventType !in RecoveryTypes || e.eventData.None? ==> r.None?
    ensures e.eventType in RecoveryTypes && e.eventData.Some? && e.eventData.value.JObj? ==>
      var f := e.eventData.value.fields;
      r == Some(if "from_progress" in f then f["from_progress"] else e.eventData.value)
  {
    if e.eventType !in RecoveryTypes || e.eventData.None? then None
    else
      var data := e.eventData.value;
      match In("from_progress", data)
      case None => None
      case Some(found) =>
        if !found then Some(data)
        else if data.JObj? then Some(data.fields["from_progress"])
        else None
  }

  /** The first offer in the list, or `None` when nothing is offered. */
  function FirstOffer(offers: seq<Option<Json>>): (r: Option<Json>)
    ensures r.None? <==> forall k :: 0 <= k < |offers| ==> offers[k].None?
    ensures r.Some? ==> exists k :: 0 <= k < |offers| && offers[k] == r && forall j :: 0 <= j < k ==> offers[j].None?
    decreases |offers|
  {
    if offers == [] then None
    else if offers[0].Some? then offers[0]
    else
      var r := FirstOffer(offers[1..]);
      assert forall k :: 1 <= k < |offers| ==> offers[k] == offers[1..][k - 1];
      r
  }

  /**
   * The scan of `get_last_checkpoint` over newest-first events: the payload
   * of the first `progress` event whose payload decodes.
   */
  function LastCheckpoint(events: seq<Event>): (r: Option<Json>)
    ensures r.None? <==> forall k :: 0 <= k < |events| ==> CheckpointOf(events[k]).None?
    ensures r.Some? ==> exists k :: 0 <= k < |events| && CheckpointOf(events[k]) == r
                                    && forall j :: 0 <= j < k ==> CheckpointOf(events[j]).None?
  {
    var offers := seq(|events|, k requires 0 <= k < |events| => CheckpointOf(events[k]));
    var r := FirstOffer(offers);
    assert forall k :: 0 <= k < |events| ==> offers[k] == CheckpointOf(events[k]);
    assert r.Some? ==> exists k :: 0 <= k < |events| && CheckpointOf(events[k]) == r
                                   && forall j :: 0 <= j < k ==> CheckpointOf(events[j]).None? by {
      if r.Some? {
        var k :| 0 <= k < |offers| && offers[k] == r && forall j :: 0 <= j < k ==> offers[j].None?;
        assert CheckpointOf(events[k]) == r;
      }
    }
    r
  }

  /**
   * The scan of `get_recovery_point` over newest-first events: what the
   * first event that offers a recovery point offers.
   */
  function RecoveryPoint(events: seq<Event>): (r: Option<Json>)
    ensures r.None? <==> forall k :: 0 <= k < |events| ==> RecoveryOf(events[k]).None?
    ensures r.Some? ==> exists k :: 0 <= k < |events| && RecoveryOf(events[k]) == r
                                    && forall j :: 0 <= j < k ==> RecoveryOf(events[j]).None?
  {
    var offers := seq(|events|, k requires 0 <= k < |events| => RecoveryOf(events[k]));
    var r := FirstOffer(offers);
    assert forall k :: 0 <= k < |events| ==> offers[k] == RecoveryOf(events[k]);
    assert r.Some? ==> exists k :: 0 <= k < |events| && RecoveryOf(events[k]) == r
                                   && forall j :: 0 <= j < k ==> RecoveryOf(events[j]).None? by {
      if r.Some? {
        var k :| 0 <= k < |offers| && offers[k] == r && forall j :: 0 <= j < k ==> offers[j].None?;
        assert RecoveryOf(events[k]) == r;
      }
    }
    r
  }

  // ---------------------------------------------------------------------
  // Timeline
  // ---------------------------------------------------------------------

  /** One entry of `get_job_timeline`: `{'time', 'event', 'data'}`. */
  datatype TimelineEntry = TimelineEntry(time: int, event: string, data: Json)

  function EntryOf(e: Event): TimelineEntry {
    TimelineEntry(e.createdAt, e.eventType, Decoded(e))
  }

  // ---------------------------------------------------------------------
  // Summary
  // ---------------------------------------------------------------------

  /** The mapping `summarize_job` returns; `duration` is in seconds. */
  datatype Summary = Summary(
    jobId: int,
    status: string,
    totalEvents: nat,
    errors: seq<Json>,
    interrupts: nat,
    resumes: nat,
    duration: Option<int>)

  /** The variables of the summary loop. */
  datatype Scan = Scan(start: Option<int>, end: Option<int>, errors: seq<Json>, interrupts: nat, resumes: nat)

  const NoScan := Scan(None, None, [], 0, 0)

  /** `data.get('error', 'Unknown error')` on a decoded payload. */
  function ErrorMessage(data: Json): Json {
    if data.JObj? then Get(data.fields, "error", JStr("Unknown error")) else JStr("Unknown error")
  }

  /**
   * One pass of the summary loop, as written: the first `start` seen sets
   * the start, any of `complete`, `error`, `paused` sets the end, and the
   * branch that would record an error message is never reached, because an
   * `error` event already matched the branch before it.
   */
  function ScanStep(acc: Scan, e: Event): Scan {
    if e.eventType == "start" && acc.start.None? then acc.(start := Some(e.createdAt))
    else if e.eventType in TerminalTypes then acc.(end := Some(e.createdAt))
    else if e.eventType == "error" then acc.(errors := acc.errors + [ErrorMessage(Decoded(e))])
    else if e.eventType == "interrupt_requested" then acc.(interrupts := acc.interrupts + 1)
    else if e.eventType == "resume" then acc.(resumes := acc.resumes + 1)
    else acc
  }

  /** The summary loop over `events[i..]`, as written. */
  function ScanFrom(acc: Scan, events: seq<Event>, i: nat): Scan
    requires i <= |events|
    decreases |events| - i
  {
    if i == |events| then acc else ScanFrom(ScanStep(acc, events[i]), events, i + 1)
  }

  /** The duration, when both ends are known. */
  function Duration(start: Option<int>, end: Option<int>): (r: Option<int>)
    ensures r.Some? <==> start.Some? && end.Some?
    ensures r.Some? ==> r.value == end.value - start.value
  {
    if start.Some? && end.Some? then Some(end.value - start.value) else None
  }

  /** The status text: the job's, or "unknown" when there is no such job. */
  function StatusText(job: Option<JobRow>): string {
    match job
    case Some(row) => row.status.Name()
    case None => "unknown"
  }

  /** `summarize_job` as written, over the listed (newest-first) events. */
  function SummaryOf(jobId: int, job: Option<JobRow>, events: seq<Event>): Summary {
    var sc := ScanFrom(NoScan, events, 0);
    Summary(jobId, StatusText(job), |events|, sc.errors, sc.interrupts, sc.resumes, Duration(sc.start, sc.end))
  }

  /** The number of events of a type. */
  function CountOf(events: seq<Event>, t: string): (n: nat)
    ensures n <= |events|
    decreases |events|
  {
    if events == [] then 0 else (if events[0].eventType == t then 1 else 0) + CountOf(events[1..], t)
  }

  /** The time of the first event (in list order) whose type is in `ts`. */
  function FirstTime(events: seq<Event>, ts: set<string>): (r: Option<int>)
    ensures r.Some? <==> exists k :: 0 <= k < |events| && events[k].eventType in ts
    decreases |events|
  {
    if events == [] then None
    else if events[0].eventType in ts then Some(events[0].createdAt)
    else
      var r := FirstTime(events[1..], ts);
      assert r.Some? ==> exists k :: 0 <= k < |events[1..]| && events[1..][k].eventType in ts;
      assert (exists k :: 0 <= k < |events| && events[k].eventType in ts) ==>
        exists k :: 0 <= k < |events[1..]| && events[1..][k].eventType in ts by {
        if exists k :: 0 <= k < |events| && events[k].eventType in ts {
          var k :| 0 <= k < |events| && events[k].eventType in ts;
          assert events[1..][k - 1] == events[k];
        }
      }
      r
  }

  /** The time of the last event (in list order) whose type is in `ts`. */
  function LastTime(events: seq<Event>, ts: set<string>): (r: Option<int>) {
    FirstTime(Reverse(events), ts)
  }

  lemma ReverseSplit(events: seq<Event>)
    requires events != []
    ensures Reverse(events) == Reverse(events[1..]) + [events[0]]
  {
  }

  lemma LastTimeCons(events: seq<Event>, ts: set<string>)
    requires events != []
    ensures LastTime(events, ts) ==
      if LastTime(events[1..], ts).Some? then LastTime(events[1..], ts)
      else if events[0].eventType in ts then Some(events[0].createdAt) else None
  {
    ReverseSplit(events);
    FirstTimeAppend(Reverse(events[1..]), events[0], ts);
  }

  lemma {:induction false} FirstTimeAppend(events: seq<Event>, e: Event, ts: set<string>)
    ensures FirstTime(events + [e], ts) ==
      if FirstTime(events, ts).Some? then FirstTime(events, ts)
      else if e.eventType in ts then Some(e.createdAt) else None
    decreases |events|
  {
    if events != [] {
      assert (events + [e])[1..] == events[1..] + [e];
      FirstTimeAppend(events[1..], e, ts);
    }
  }

  /**
   * What the summary loop, as written, computes: it counts interrupts and
   * resumes, takes the start from the first `start` event it meets and the
   * end from the last terminal event it meets, and never records an error.
   */
  lemma {:induction false} ScanAsWritten(acc: Scan, events: seq<Event>)
    ensures var r := ScanFrom(acc, events, 0);
      && r.errors == acc.errors
      && r.interrupts == acc.interrupts + CountOf(events, "interrupt_requested")
      && r.resumes == acc.resumes + CountOf(events, "resume")
      && r.start == (if acc.start.Some? then acc.start else FirstTime(events, {"start"}))
      && r.end == (if LastTime(events, TerminalTypes).Some? then LastTime(events, TerminalTypes) else acc.end)
    decreases |events|
  {
    if events != [] {
      ScanShift(ScanStep(acc, events[0]), events);
      ScanAsWritten(ScanStep(acc, events[0]), events[1..]);
      LastTimeCons(events, TerminalTypes);
    }
  }

  /** Running the loop from index 1 is running it over the tail. */
  lemma ScanShift(acc: Scan, events: seq<Event>)
    requires events != []
    ensures ScanFrom(acc, events, 1) == ScanFrom(acc, events[1..], 0)
  {
    ScanShiftFrom(acc, events, 1);
  }

  lemma {:induction false} ScanShiftFrom(acc: Scan, events: seq<Event>, i: nat)
    requires 1 <= i <= |events|
    ensures ScanFrom(acc, events, i) == ScanFrom(acc, events[1..], i - 1)
    decreases |events| - i
  {
    if i < |events| {
      assert events[1..][i - 1] == events[i];
      ScanShiftFrom(ScanStep(acc, events[i]), events, i + 1);
    }
  }

  // ---------------------------------------------------------------------
  // Summary as evidently intended
  // ---------------------------------------------------------------------

  /** The error messages of the `error` events, in list order. */
  function ErrorsOf(events: seq<Event>): (r: seq<Json>)
    ensures |r| == CountOf(events, "error")
    decreases |events|
  {
    if events == [] then []
    else (if events[0].eventType == "error" then [ErrorMessage(Decoded(events[0]))] else []) + ErrorsOf(events[1..])
  }

  /**
   * The summary the loop was evidently written to produce, reading the
   * events oldest first: the run is timed from the first `start` to the
   * latest terminal event, and every `error` event contributes its message.
   */
  function SummaryIntended(jobId: int, job: Option<JobRow>, events: seq<Event>): (s: Summary)
    ensures s.totalEvents == |events| && s.status == StatusText(job)
    ensures s.interrupts == CountOf(events, "interrupt_requested") && s.resumes == CountOf(events, "resume")
    ensures |s.errors| == CountOf(events, "error")
  {
    var chronological := Reverse(events);
    Summary(jobId, StatusText(job), |events|, Reverse(ErrorsOf(events)),
            CountOf(events, "interrupt_requested"), CountOf(events, "resume"),
            Duration(FirstTime(chronological, {"start"}), LastTime(chronological, TerminalTypes)))
  }

  /** The events, listed newest first, carry non-increasing timestamps. */
  predicate NewestFirstTimes(events: seq<Event>) {
    forall i, j :: 0 <= i < j < |events| ==> events[i].createdAt >= events[j].createdAt
  }

  /** A time `FirstTime` reports belongs to an event of the list. */
  lemma {:induction false} FirstTimeIsSome(events: seq<Event>, ts: set<string>)
    requires FirstTime(events, ts).Some?
    ensures exists k :: 0 <= k < |events| && events[k].eventType in ts && events[k].createdAt == FirstTime(events, ts).value
    decreases |events|
  {
    if events[0].eventType !in ts {
      FirstTimeIsSome(events[1..], ts);
      var k :| 0 <= k < |events[1..]| && events[1..][k].eventType in ts && events[1..][k].createdAt == FirstTime(events[1..], ts).value;
      assert events[k + 1] == events[1..][k];
    }
  }

  /**
   * The intended duration is never negative for a complete history: when
   * the listed events carry non-increasing timestamps and the oldest of
   * them is the job's first `start`.
   */
  lemma IntendedDurationNonNegative(jobId: int, job: Option<JobRow>, events: seq<Event>)
    requires NewestFirstTimes(events)
    requires events != [] && events[|events| - 1].eventType == "start"
    ensures SummaryIntended(jobId, job, events).duration.Some? ==> SummaryIntended(jobId, job, events).duration.value >= 0
  {
    var chronological := Reverse(events);
    assert chronological[0] == events[|events| - 1];
    assert FirstTime(chronological, {"start"}) == Some(events[|events| - 1].createdAt);
    var end := LastTime(chronological, TerminalTypes);
    if end.Some? {
      FirstTimeIsSome(Reverse(chronological), TerminalTypes);
      var k :| 0 <= k < |events| && Reverse(chronological)[k].eventType in TerminalTypes
                && Reverse(chronological)[k].createdAt == end.value;
      assert Reverse(chronological)[k] == events[k];
    }
  }

  /** Reversal keeps the elements. */
  lemma ReverseMembers<T>(s: seq<T>)
    ensures forall x :: x in s <==> x in Reverse(s)
  {
    forall x | x in s ensures x in Reverse(s) {
      var k :| 0 <= k < |s| && s[k] == x;
      assert Reverse(s)[|s| - 1 - k] == x;
    }
  }

  /**
   * The intended summary records the message of every `error` event, and
   * nothing else.
   */
  lemma IntendedErrors(jobId: int, job: Option<JobRow>, events: seq<Event>)
    ensures var errs := SummaryIntended(jobId, job, events).errors;
      && |errs| == CountOf(events, "error")
      && forall k :: 0 <= k < |events| && events[k].eventType == "error" ==> ErrorMessage(Decoded(events[k])) in errs
  {
    IntendedRecordsErrors(events);
    ReverseMembers(ErrorsOf(events));
  }

  /** The error messages, newest first, include that of every `error` event. */
  lemma {:induction false} IntendedRecordsErrors(events: seq<Event>)
    ensures forall k :: 0 <= k < |events| && events[k].eventType == "error" ==> ErrorMessage(Decoded(events[k])) in ErrorsOf(events)
    decreases |events|
  {
    if events != [] {
      IntendedRecordsErrors(events[1..]);
      forall k | 0 <= k < |events| && events[k].eventType == "error"
        ensures ErrorMessage(Decoded(events[k])) in ErrorsOf(events)
      {
        if k > 0 {
          assert events[1..][k - 1] == events[k];
        }
      }
    }
  }

  /** A failed run's history, newest first: it started at 10 and failed at 20 with "boom". */
  const FailedRun: seq<Event> := [
    Event(Some(1), "error", Some(JObj(map["error" := JStr("boom")])), 20),
    Event(Some(1), "start", Some(EmptyObj), 10)]

  /** As written, the summary of a failed run reports no errors; the intended one reports "boom". */
  lemma FailedRunLosesError(job: Option<JobRow>)
    ensures SummaryOf(1, job, FailedRun).errors == []
    ensures SummaryIntended(1, job, FailedRun).errors == [JStr("boom")]
  {
    ScanAsWritten(NoScan, FailedRun);
    assert FailedRun[1..][1..] == [];
    assert ErrorsOf(FailedRun) == [JStr("boom")];
  }

  /**
   * A paused and resumed job's history, newest first: started at 10,
   * paused at 30, resumed and restarted at 40, completed at 50.
   */
  const ResumedRun: seq<Event> := [
    Event(Some(1), "complete", Some(EmptyObj), 50),
    Event(Some(1), "start", Some(EmptyObj), 40),
    Event(Some(1), "resume", Some(EmptyObj), 40),
    Event(Some(1), "paused", Some(EmptyObj), 30),
    Event(Some(1), "start", Some(EmptyObj), 10)]

  /**
   * As written, the resumed job's duration is measured from the latest
   * start back to the earliest terminal event and comes out negative.
   */
  lemma ResumedRunNegativeDuration(job: Option<JobRow>)
    ensures NewestFirstTimes(ResumedRun)
    ensures SummaryOf(1, job, ResumedRun).duration == Some(-10)
  {
    var r := ResumedRun;
    var s1 := ScanStep(NoScan, r[0]);
    var s2 := ScanStep(s1, r[1]);
    var s3 := ScanStep(s2, r[2]);
    var s4 := ScanStep(s3, r[3]);
    var s5 := ScanStep(s4, r[4]);
    assert s5.start == Some(40) && s5.end == Some(30);
    assert ScanFrom(s5, r, 5) == s5;
    assert ScanFrom(NoScan, r, 0) == ScanFrom(s1, r, 1) == ScanFrom(s2, r, 2) == ScanFrom(s3, r, 3) == ScanFrom(s4, r, 4);
  }

  /** The intended summary times the same history from 10 to 50. */
  lemma ResumedRunIntendedDuration(job: Option<JobRow>)
    ensures SummaryIntended(1, job, ResumedRun).duration == Some(40)
  {
    var r := ResumedRun;
    var c := Reverse(r);
    assert c[0] == r[4];
    assert FirstTime(c, {"start"}) == Some(10);
    assert Reverse(c) == r;
    assert FirstTime(r, TerminalTypes) == Some(50);
  }

  // ---------------------------------------------------------------------
  // The journal object
  // ---------------------------------------------------------------------

  class Journal {
    const db: Store

    constructor (db: Store)
      ensures this.db == db
    {
      this.db := db;
    }

    /**
     * `log(event_type, data, job_id)`: one event appended, with `{}` for a
     * missing payload; it fails, appending nothing, when the job does not
     * exist.
     */
    method Log(eventType: string, data: Json, jobId: Option<int>) returns (r: Outcome<string>)
      requires db.Valid()
      modifies db
      ensures db.Valid()
      ensures r.Fail? <==> jobId.Some? && jobId.value !in db.jobs
      ensures r.Pass? ==> db.journal == old(db.journal) + [Event(jobId, eventType, Some(OrEmpty(data)), db.clock)]
      ensures r.Fail? ==> db.journal == old(db.journal)
      ensures db.clock == old(db.clock) && db.sources == old(db.sources) && db.jobs == old(db.jobs)
      ensures db.nextJobId == old(db.nextJobId) && db.tables == old(db.tables)
    {
      r := db.JournalEvent(eventType, OrEmpty(data), jobId);
    }

    /**
     * `get_last_checkpoint(job_id)`: the payload of the newest `progress`
     * event among the job's 50 newest events, or `None`.
     */
    function GetLastCheckpoint(jobId: int): (r: Option<Json>)
      reads this, db
      ensures r == LastCheckpoint(NewestFirst(db.journal, Some(jobId), CheckpointWindow))
    {
      LastCheckpoint(db.GetJournal(Some(jobId), CheckpointWindow))
    }

    /**
     * `get_recovery_point(job_id)`: among the job's 100 newest events, what
     * the newest one that offers a recovery point offers, or `None`.
     */
    function GetRecoveryPoint(jobId: int): (r: Option<Json>)
      reads this, db
      ensures r == RecoveryPoint(NewestFirst(db.journal, Some(jobId), RecoveryWindow))
    {
      RecoveryPoint(db.GetJournal(Some(jobId), RecoveryWindow))
    }

    /**
     * `get_job_timeline(job_id)`: the job's 1000 newest events, oldest
     * first, each with its time, type and decoded payload — the last
     * entries of the job's history, in the order they were journaled.
     */
    method GetJobTimeline(jobId: int) returns (r: seq<TimelineEntry>)
      ensures var history := ForJob(db.journal, Some(jobId));
        && |r| == Min(TimelineWindow, |history|)
        && forall k :: 0 <= k < |r| ==> r[k] == EntryOf(history[|history| - |r| + k])
    {
      var events := db.GetJournal(Some(jobId), TimelineWindow);
      ghost var history := ForJob(db.journal, Some(jobId));
      assert events == NewestFirst(db.journal, Some(jobId), TimelineWindow);
      r := Chronological(events);
      forall k | 0 <= k < |r| ensures r[k] == EntryOf(history[|history| - |r| + k]) {
        assert r[k] == EntryOf(events[|events| - 1 - k]);
      }
    }

    /** The `for event in reversed(events)` loop: one entry per event, oldest first. */
    static method Chronological(events: seq<Event>) returns (r: seq<TimelineEntry>)
      ensures |r| == |events|
      ensures forall k :: 0 <= k < |r| ==> r[k] == EntryOf(events[|events| - 1 - k])
    {
      r := [];
      var k := |events|;
      while k > 0
        invariant 0 <= k <= |events|
        invariant |r| == |events| - k
        invariant forall j :: 0 <= j < |r| ==> r[j] == EntryOf(events[|events| - 1 - j])
      {
        k := k - 1;
        r := r + [EntryOf(events[k])];
      }
    }

    /**
     * `summarize_job(job_id)`: the loop over the job's 100 newest events,
     * newest first, as `SummaryOf` describes it.
     */
    method SummarizeJob(jobId: int) returns (s: Summary)
      ensures s == SummaryOf(jobId, db.GetJob(jobId), db.GetJournal(Some(jobId), SummaryWindow))
    {
      var events := db.GetJournal(Some(jobId), SummaryWindow);
      var job := db.GetJob(jobId);
      var acc := ScanEvents(events);
      var duration := if acc.start.Some? && acc.end.Some? then Some(acc.end.value - acc.start.value) else None;
      s := Summary(jobId, if job.Some? then job.value.status.Name() else "unknown", |events|,
                   acc.errors, acc.interrupts, acc.resumes, duration);
    }

    /** The `for event in events` loop of `summarize_job`. */
    static method ScanEvents(events: seq<Event>) returns (acc: Scan)
      ensures acc == ScanFrom(NoScan, events, 0)
    {
      acc := NoScan;
      var k := 0;
      while k < |events|
        invariant 0 <= k <= |events|
        invariant ScanFrom(NoScan, events, 0) == ScanFrom(acc, events, k)
      {
        var e := events[k];
        if e.eventType == "start" && acc.start.None? {
          acc := acc.(start := Some(e.createdAt));
        } else if e.eventType in TerminalTypes {
          acc := acc.(end := Some(e.createdAt));
        } else if e.eventType == "error" {
          acc := acc.(errors := acc.errors + [ErrorMessage(Decoded(e))]);
        } else if e.eventType == "interrupt_requested" {
          acc := acc.(interrupts := acc.interrupts + 1);
        } else if e.eventType == "resume" {
          acc := acc.(resumes := acc.resumes + 1);
        }
        k := k + 1;
      }
    }
  }
}
