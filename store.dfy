/**
 * The part of the persistent store (`DatabaseManager` in
 * grimmoire/db/manager.py) that the job subsystem uses: the jobs table,
 * the append-only journal, the source catalogue and the four entity
 * tables, each SQL statement given its in-memory meaning.
 *
 * Row identifiers: jobs are numbered from 1 in creation order; a journal
 * event or entity row is identified by its position (plus one) in its
 * append-only sequence, since the core never deletes rows.
 * Time: `clock` is the database's current timestamp, stamped into
 * `created_at`, `started_at` and `completed_at`. Rows with the same
 * timestamp are taken to be ordered by insertion.
 */
module Store {
  import opened Wrappers
  import opened Json

  /** `JobStatus` (grimmoire/jobs/runner.py); its value is the stored `status` text. */
  datatype JobStatus = Pending | Running | Paused | Completed | Failed {
    function Name(): string {
      match this
      case Pending => "pending"
      case Running => "running"
      case Paused => "paused"
      case Completed => "completed"
      case Failed => "failed"
    }
  }

  datatype JobRow = JobRow(
    id: int,
    jobType: string,
    status: JobStatus,
    query: Json,
    progress: Option<Json>,      // NULL until the first progress report
    resultsCount: int,
    error: Option<string>,
    startedAt: Option<int>,
    completedAt: Option<int>,
    createdAt: int)

  /**
   * A journal row. `eventData` is the stored text, decoded: `None` when it
   * is NULL, empty or not valid JSON (the store itself always writes JSON).
   */
  datatype Event = Event(jobId: Option<int>, eventType: string, eventData: Option<Json>, createdAt: int)

  datatype SourceRow = SourceRow(id: int, name: string, priority: int, enabled: bool)

  // ---------------------------------------------------------------------
  // Jobs
  // ---------------------------------------------------------------------

  /** `update_job_status` on one row, stamped with time `now`. */
  function StatusUpdate(row: JobRow, status: JobStatus, error: Option<string>, now: int): (r: JobRow)
    ensures r.status == status
    ensures r.(status := row.status, startedAt := row.startedAt, completedAt := row.completedAt, error := row.error) == row
    ensures status == Running ==>
      r.startedAt == Some(now) && r.completedAt == row.completedAt && r.error == row.error
    ensures (status == Completed || status == Failed) ==>
      r.completedAt == Some(now) && r.error == error && r.startedAt == row.startedAt
    ensures (status == Pending || status == Paused) ==> r == row.(status := status)
  {
    match status
    case Running => row.(status := status, startedAt := Some(now))
    case Completed => row.(status := status, completedAt := Some(now), error := error)
    case Failed => row.(status := status, completedAt := Some(now), error := error)
    case _ => row.(status := status)
  }

  /** `update_job_progress` on one row. */
  function ProgressUpdate(row: JobRow, progress: Json, resultsCount: Option<int>): (r: JobRow)
    ensures r.progress == Some(progress)
    ensures resultsCount.Some? ==> r.resultsCount == resultsCount.value
    ensures resultsCount.None? ==> r.resultsCount == row.resultsCount
    ensures r.(progress := row.progress, resultsCount := row.resultsCount) == row
  {
    row.(progress := Some(progress), resultsCount := resultsCount.GetOr(row.resultsCount))
  }

  /** `status` given to `get_jobs`: a status selects its rows, `None` selects every row. */
  predicate Selects(status: Option<JobStatus>, row: JobRow) {
    status.None? || row.status == status.value
  }

  /** Rows with identifiers `hi`, `hi - 1`, ..., 1 that `status` selects: newest first. */
  function JobsDown(jobs: map<int, JobRow>, hi: int, status: Option<JobStatus>): (r: seq<JobRow>)
    requires forall id :: id in jobs ==> jobs[id].id == id
    ensures forall k :: 0 <= k < |r| ==> 1 <= r[k].id <= hi && r[k].id in jobs && jobs[r[k].id] == r[k]
    ensures forall k :: 0 <= k < |r| ==> Selects(status, r[k])
    decreases hi
  {
    if hi < 1 then []
    else
      var rest := JobsDown(jobs, hi - 1, status);
      if hi in jobs && Selects(status, jobs[hi]) then [jobs[hi]] + rest else rest
  }

  /** Every selected row with an identifier up to `hi` is listed. */
  lemma {:induction false} JobsDownComplete(jobs: map<int, JobRow>, hi: int, status: Option<JobStatus>)
    requires forall id :: id in jobs ==> jobs[id].id == id
    ensures forall id :: 1 <= id <= hi && id in jobs && Selects(status, jobs[id]) ==> jobs[id] in JobsDown(jobs, hi, status)
    decreases hi
  {
    if hi >= 1 {
      JobsDownComplete(jobs, hi - 1, status);
    }
  }

  /** The rows go by strictly decreasing identifier: newest first. */
  predicate IdsDescending(r: seq<JobRow>) {
    forall a, b :: 0 <= a < b < |r| ==> r[a].id > r[b].id
  }

  /** The rows are listed by strictly decreasing identifier. */
  lemma {:induction false} JobsDownOrdered(jobs: map<int, JobRow>, hi: int, status: Option<JobStatus>)
    requires forall id :: id in jobs ==> jobs[id].id == id
    ensures IdsDescending(JobsDown(jobs, hi, status))
    decreases hi
  {
    if hi >= 1 {
      JobsDownOrdered(jobs, hi - 1, status);
      var rest := JobsDown(jobs, hi - 1, status);
      if hi in jobs && Selects(status, jobs[hi]) {
        var r := [jobs[hi]] + rest;
        assert r == JobsDown(jobs, hi, status);
        forall a, b | 0 <= a < b < |r| ensures r[a].id > r[b].id {
          assert r[b] == rest[b - 1];
          assert rest[b - 1].id <= hi - 1;
          if a > 0 {
            assert r[a] == rest[a - 1];
          }
        }
      }
    }
  }

  // ---------------------------------------------------------------------
  // Journal
  // ---------------------------------------------------------------------

  /** `if job_id:` in `get_journal`: only a present, non-zero identifier filters. */
  predicate FiltersBy(jobId: Option<int>) {
    jobId.Some? && jobId.value != 0
  }

  /** The rows `get_journal(job_id)` selects. */
  predicate Selected(e: Event, jobId: Option<int>) {
    !FiltersBy(jobId) || e.jobId == jobId
  }

  /** The selected events, in the order they were appended. */
  function ForJob(events: seq<Event>, jobId: Option<int>): (r: seq<Event>)
    ensures |r| <= |events|
    ensures forall k :: 0 <= k < |r| ==> Selected(r[k], jobId) && r[k] in events
    ensures forall e :: e in events && Selected(e, jobId) ==> e in r
    decreases |events|
  {
    if events == [] then []
    else
      var last := events[|events| - 1];
      ForJob(events[..|events| - 1], jobId) + (if Selected(last, jobId) then [last] else [])
  }

  /** Filtering distributes over appending: earlier events keep their selection. */
  lemma {:induction false} ForJobAppend(a: seq<Event>, b: seq<Event>, jobId: Option<int>)
    ensures ForJob(a + b, jobId) == ForJob(a, jobId) + ForJob(b, jobId)
    decreases |b|
  {
    if b == [] {
      assert a + b == a;
    } else {
      var b' := b[..|b| - 1];
      assert (a + b)[..|a + b| - 1] == a + b';
      ForJobAppend(a, b', jobId);
    }
  }

  function Reverse<T>(s: seq<T>): (r: seq<T>)
    ensures |r| == |s| && forall k :: 0 <= k < |s| ==> r[k] == s[|s| - 1 - k]
  {
    seq(|s|, k requires 0 <= k < |s| => s[|s| - 1 - k])
  }

  function Min(a: int, b: int): int {
    if a < b then a else b
  }

  /**
   * `get_journal(job_id, limit)`: the selected events newest first, at most
   * `limit` of them.
   */
  function NewestFirst(events: seq<Event>, jobId: Option<int>, limit: nat): (r: seq<Event>)
    ensures |r| == Min(limit, |ForJob(events, jobId)|)
    ensures forall k :: 0 <= k < |r| ==>
      r[k] == ForJob(events, jobId)[|ForJob(events, jobId)| - 1 - k] && Selected(r[k], jobId)
  {
    var f := Reverse(ForJob(events, jobId));
    if limit < |f| then f[..limit] else f
  }

  // ---------------------------------------------------------------------
  // Sources
  // ---------------------------------------------------------------------

  predicate SortedByPriority(s: seq<SourceRow>) {
    forall a, b :: 0 <= a < b < |s| ==> s[a].priority >= s[b].priority
  }

  /** Places `x` before the first row of no higher priority. */
  function InsertByPriority(x: SourceRow, s: seq<SourceRow>): (r: seq<SourceRow>)
    decreases |s|
  {
    if s == [] || x.priority >= s[0].priority then [x] + s
    else [s[0]] + InsertByPriority(x, s[1..])
  }

  /** Inserting adds `x` and loses nothing. */
  lemma {:induction false} InsertByPriorityPermutes(x: SourceRow, s: seq<SourceRow>)
    ensures multiset(InsertByPriority(x, s)) == multiset(s) + multiset{x}
    decreases |s|
  {
    if s != [] && x.priority < s[0].priority {
      InsertByPriorityPermutes(x, s[1..]);
      assert s == [s[0]] + s[1..];
    }
  }

  /** Every row has priority at most `bound`. */
  predicate AtMost(s: seq<SourceRow>, bound: int) {
    forall k :: 0 <= k < |s| ==> s[k].priority <= bound
  }

  /** Inserting a row of priority at most `bound` among such rows gives such rows. */
  lemma {:induction false} InsertByPriorityBounded(x: SourceRow, s: seq<SourceRow>, bound: int)
    requires x.priority <= bound && AtMost(s, bound)
    ensures AtMost(InsertByPriority(x, s), bound)
    decreases |s|
  {
    if s != [] && x.priority < s[0].priority {
      InsertByPriorityBounded(x, s[1..], bound);
      var rest := InsertByPriority(x, s[1..]);
      assert forall k :: 1 <= k < |rest| + 1 ==> ([s[0]] + rest)[k] == rest[k - 1];
    } else {
      assert forall k :: 1 <= k < |s| + 1 ==> ([x] + s)[k] == s[k - 1];
    }
  }

  /** Inserting into rows sorted by descending priority keeps them sorted. */
  lemma {:induction false} InsertByPrioritySorted(x: SourceRow, s: seq<SourceRow>)
    requires SortedByPriority(s)
    ensures SortedByPriority(InsertByPriority(x, s))
    decreases |s|
  {
    if s != [] && x.priority < s[0].priority {
      var rest := InsertByPriority(x, s[1..]);
      InsertByPrioritySorted(x, s[1..]);
      assert AtMost(s[1..], s[0].priority) by {
        forall k | 0 <= k < |s[1..]| ensures s[1..][k].priority <= s[0].priority {
          assert s[1..][k] == s[k + 1];
        }
      }
      InsertByPriorityBounded(x, s[1..], s[0].priority);
      var r := [s[0]] + rest;
      assert InsertByPriority(x, s) == r;
      forall a, b | 0 <= a < b < |r| ensures r[a].priority >= r[b].priority {
        assert r[b] == rest[b - 1];
        if a > 0 {
          assert r[a] == rest[a - 1];
        }
      }
    }
  }

  /** `ORDER BY priority DESC`; rows of equal priority keep their table order. */
  function SortByPriority(s: seq<SourceRow>): (r: seq<SourceRow>)
    decreases |s|
  {
    if s == [] then [] else InsertByPriority(s[0], SortByPriority(s[1..]))
  }

  lemma {:induction false} SortByPriorityCorrect(s: seq<SourceRow>)
    ensures SortedByPriority(SortByPriority(s))
    ensures multiset(SortByPriority(s)) == multiset(s)
    decreases |s|
  {
    if s != [] {
      SortByPriorityCorrect(s[1..]);
      InsertByPrioritySorted(s[0], SortByPriority(s[1..]));
      InsertByPriorityPermutes(s[0], SortByPriority(s[1..]));
      assert s == [s[0]] + s[1..];
    }
  }

  /** `WHERE enabled = 1`. */
  function EnabledOnly(s: seq<SourceRow>): (r: seq<SourceRow>)
    ensures multiset(r) <= multiset(s)
    ensures forall x :: x in r <==> x in s && x.enabled
    decreases |s|
  {
    if s == [] then []
    else
      assert s == [s[0]] + s[1..];
      (if s[0].enabled then [s[0]] else []) + EnabledOnly(s[1..])
  }

  /** `UPDATE sources SET enabled = ? WHERE id = ?`. */
  function WithEnabled(s: seq<SourceRow>, id: int, enabled: bool): (r: seq<SourceRow>)
    ensures |r| == |s|
    ensures forall k :: 0 <= k < |s| ==>
      r[k] == if s[k].id == id then s[k].(enabled := enabled) else s[k]
  {
    seq(|s|, k requires 0 <= k < |s| => if s[k].id == id then s[k].(enabled := enabled) else s[k])
  }

  /** Source identifiers and names are unique (primary key and UNIQUE constraint). */
  predicate UniqueSources(s: seq<SourceRow>) {
    forall a, b :: 0 <= a < b < |s| ==> s[a].id != s[b].id && s[a].name != s[b].name
  }

  function SourceIds(s: seq<SourceRow>): set<int> {
    set x | x in s :: x.id
  }

  // ---------------------------------------------------------------------
  // Entity tables
  // ---------------------------------------------------------------------

  datatype Table = Plants | Ingredients | Ailments | Recipes {
    function Name(): string {
      match this
      case Plants => "plants"
      case Ingredients => "ingredients"
      case Ailments => "ailments"
      case Recipes => "recipes"
    }
  }

  /** A stored entity row: column name to value. */
  type Row = map<string, Json>

  datatype Tables = Tables(plants: seq<Row>, ingredients: seq<Row>, ailments: seq<Row>, recipes: seq<Row>) {
    function Rows(t: Table): seq<Row> {
      match t
      case Plants => plants
      case Ingredients => ingredients
      case Ailments => ailments
      case Recipes => recipes
    }

    /** The tables after one `INSERT` into `t`. */
    function Append(t: Table, row: Row): (r: Tables)
      ensures r.Rows(t) == Rows(t) + [row]
      ensures forall u :: u != t ==> r.Rows(u) == Rows(u)
    {
      match t
      case Plants => this.(plants := plants + [row])
      case Ingredients => this.(ingredients := ingredients + [row])
      case Ailments => this.(ailments := ailments + [row])
      case Recipes => this.(recipes := recipes + [row])
    }
  }

  const NoRows := Tables([], [], [], [])

  /** The keyword parameters of `add_plant`, `add_ingredient`, `add_ailment`, `add_recipe`. */
  function Params(t: Table): set<string> {
    match t
    case Plants => {"name", "scientific_name", "family", "common_names", "description", "taxonomy_id"}
    case Ingredients => {"name", "synonyms", "cas_number", "pubchem_cid", "inchi_key", "smiles",
                         "molecular_formula", "molecular_weight", "description"}
    case Ailments => {"name", "synonyms", "icd10_code", "mesh_id", "category", "description"}
    case Recipes => {"name", "tradition", "description", "preparation", "dosage", "source_id"}
  }

  /** The parameters stored as `json.dumps(value or [])`. */
  function ListParams(t: Table): set<string> {
    match t
    case Plants => {"common_names"}
    case Ingredients => {"synonyms"}
    case Ailments => {"synonyms"}
    case Recipes => {}
  }

  /** The value stored in column `p` for the given keyword arguments. */
  function Column(t: Table, kwargs: map<string, Json>, p: string): Json {
    if p in ListParams(t) then Or(Get(kwargs, p, JNull), JList([])) else Get(kwargs, p, JNull)
  }

  /** The range of a SQLite INTEGER, a signed 64-bit value. */
  const MinInteger: int := -0x8000_0000_0000_0000
  const MaxInteger: int := 0x7FFF_FFFF_FFFF_FFFF

  /**
   * A value SQLite can bind directly: not a list or a mapping, and not an
   * integer outside the signed 64-bit range.
   */
  predicate Bindable(j: Json) {
    !j.JList? && !j.JObj? && !(j.JInt? && !(MinInteger <= j.i <= MaxInteger))
  }

  /**
   * What the binding of an unbindable value at position `i` raises: an
   * `OverflowError` for an integer that is too wide, otherwise the
   * interface error naming the position.
   */
  function BindError(j: Json, i: nat): string {
    if j.JInt? then "Python int too large to convert to SQLite INTEGER"
    else "Error binding parameter " + NatToString(i) + " - probably unsupported type."
  }

  /** The columns of each `INSERT`, in the order of its parameter tuple. */
  function Columns(t: Table): seq<string> {
    match t
    case Plants => ["name", "scientific_name", "family", "common_names", "description", "taxonomy_id"]
    case Ingredients => ["name", "synonyms", "cas_number", "pubchem_cid", "inchi_key", "smiles",
                         "molecular_formula", "molecular_weight", "description"]
    case Ailments => ["name", "synonyms", "icd10_code", "mesh_id", "category", "description"]
    case Recipes => ["name", "tradition", "description", "preparation", "dosage", "source_id"]
  }

  /** The tuple binds every keyword parameter, and nothing else. */
  lemma ColumnsAreParams(t: Table)
    ensures forall p :: p in Params(t) <==> p in Columns(t)
  {
  }

  /** The qualified name Python gives the inserting method in a `TypeError`. */
  function MethodName(t: Table): string {
    match t
    case Plants => "DatabaseManager.add_plant()"
    case Ingredients => "DatabaseManager.add_ingredient()"
    case Ailments => "DatabaseManager.add_ailment()"
    case Recipes => "DatabaseManager.add_recipe()"
  }

  /** Whether the tuple parameter in column `p` cannot be bound: a list or a mapping in a plain column. */
  predicate Unbindable(t: Table, kwargs: map<string, Json>, p: string) {
    p !in ListParams(t) && !Bindable(Column(t, kwargs, p))
  }

  /**
   * The position, counted from 0 as the binding error reports it, of the
   * first parameter from position `i` on that cannot be bound, if any.
   */
  function FirstUnbindable(t: Table, kwargs: map<string, Json>, i: nat): (r: Option<nat>)
    decreases |Columns(t)| - i
    ensures r.Some? ==> i <= r.value < |Columns(t)| && Unbindable(t, kwargs, Columns(t)[r.value])
    ensures r.Some? ==> forall j :: i <= j < r.value ==> !Unbindable(t, kwargs, Columns(t)[j])
    ensures r.None? ==> forall j :: i <= j < |Columns(t)| ==> !Unbindable(t, kwargs, Columns(t)[j])
  {
    if i >= |Columns(t)| then None
    else if Unbindable(t, kwargs, Columns(t)[i]) then Some(i)
    else FirstUnbindable(t, kwargs, i + 1)
  }

  /**
   * The row that `add_<table>(**kwargs)` inserts, or the message of what it
   * raises: an unknown keyword or a missing `name` (TypeError), a list or
   * mapping in a plain column (binding error), a null name (NOT NULL) or a
   * recipe source that is not in the catalogue (FOREIGN KEY, enforced
   * because the connection turns foreign keys on).
   */
  function BindRow(t: Table, kwargs: map<string, Json>, sourceIds: set<int>): (r: Result<Row, string>)
    ensures r.Success? ==> r.value.Keys == Params(t) && r.value["name"] != JNull
    ensures r.Success? ==> kwargs.Keys <= Params(t) && "name" in kwargs
    ensures r.Success? ==> forall p :: p in kwargs ==> p !in ListParams(t) ==> r.value[p] == kwargs[p]
    ensures (exists k :: k in kwargs && k !in Params(t)) ==> r.Failure?
    ensures kwargs.Keys <= Params(t) && "name" !in kwargs ==>
      r == Failure(MethodName(t) + " missing 1 required positional argument: 'name'")
    ensures kwargs.Keys <= Params(t) && "name" in kwargs && FirstUnbindable(t, kwargs, 0).Some? ==>
      var i := FirstUnbindable(t, kwargs, 0).value;
      r == Failure(BindError(Column(t, kwargs, Columns(t)[i]), i))
  {
    if exists k :: k in kwargs && k !in Params(t) then
      Failure(MethodName(t) + " got an unexpected keyword argument")
    else if "name" !in kwargs then
      Failure(MethodName(t) + " missing 1 required positional argument: 'name'")
    else
      match FirstUnbindable(t, kwargs, 0)
      case Some(i) =>
        Failure(BindError(Column(t, kwargs, Columns(t)[i]), i))
      case None =>
        var row := map p | p in Params(t) :: Column(t, kwargs, p);
        if row["name"] == JNull then
          Failure("NOT NULL constraint failed: " + t.Name() + ".name")
        else if t == Recipes && !(row["source_id"] == JNull || (row["source_id"].JInt? && row["source_id"].i in sourceIds)) then
          Failure("FOREIGN KEY constraint failed")
        else
          Success(row)
  }

  /** A row the store accepts binds in every plain column: SQLite stores each value as given. */
  lemma {:induction false} BoundRowBinds(t: Table, kwargs: map<string, Json>, sourceIds: set<int>)
    requires BindRow(t, kwargs, sourceIds).Success?
    ensures forall p :: p in Params(t) && p !in ListParams(t) ==> Bindable(BindRow(t, kwargs, sourceIds).value[p])
  {
    ColumnsAreParams(t);
  }

  // ---------------------------------------------------------------------
  // The store
  // ---------------------------------------------------------------------

  class Store {
    var clock: int
    var sources: seq<SourceRow>
    var jobs: map<int, JobRow>
    var nextJobId: int
    var journal: seq<Event>
    var tables: Tables

    ghost predicate Valid()
      reads this
    {
      && nextJobId >= 1
      && (forall id :: id in jobs ==> 1 <= id < nextJobId && jobs[id].id == id)
      && (forall k :: 0 <= k < |journal| && journal[k].jobId.Some? ==> journal[k].jobId.value in jobs)
      && UniqueSources(sources)
    }

    /** A store holding the seeded source catalogue and nothing else. */
    constructor (now: int, seed: seq<SourceRow>)
      requires UniqueSources(seed)
      ensures Valid()
      ensures clock == now && sources == seed && jobs == map[] && nextJobId == 1
      ensures journal == [] && tables == NoRows
    {
      clock := now;
      sources := seed;
      jobs := map[];
      nextJobId := 1;
      journal := [];
      tables := NoRows;
    }

    /** Time passes between operations. */
    method AdvanceClock(t: int)
      requires Valid() && t >= clock
      modifies this
      ensures Valid() && clock == t
      ensures sources == old(sources) && jobs == old(jobs) && nextJobId == old(nextJobId)
      ensures journal == old(journal) && tables == old(tables)
    {
      clock := t;
    }

    /** `get_sources(enabled_only)`. */
    function GetSources(enabledOnly: bool): (r: seq<SourceRow>)
      reads this
      ensures SortedByPriority(r)
      ensures multiset(r) == multiset(if enabledOnly then EnabledOnly(sources) else sources)
      ensures forall x :: x in r <==> x in sources && (enabledOnly ==> x.enabled)
    {
      var chosen := if enabledOnly then EnabledOnly(sources) else sources;
      SortByPriorityCorrect(chosen);
      assert forall x :: x in SortByPriority(chosen) <==> x in multiset(chosen);
      SortByPriority(chosen)
    }

    /** `enable_source(id)`: only that source's flag changes. */
    method EnableSource(id: int)
      requires Valid()
      modifies this
      ensures Valid()
      ensures sources == WithEnabled(old(sources), id, true)
      ensures clock == old(clock) && jobs == old(jobs) && nextJobId == old(nextJobId)
      ensures journal == old(journal) && tables == old(tables)
    {
      sources := WithEnabled(sources, id, true);
    }

    /** `disable_source(id)`: only that source's flag changes. */
    method DisableSource(id: int)
      requires Valid()
      modifies this
      ensures Valid()
      ensures sources == WithEnabled(old(sources), id, false)
      ensures clock == old(clock) && jobs == old(jobs) && nextJobId == old(nextJobId)
      ensures journal == old(journal) && tables == old(tables)
    {
      sources := WithEnabled(sources, id, false);
    }

    /** `create_job(job_type, query)`: one new pending row under a fresh identifier. */
    method CreateJob(jobType: string, query: Json) returns (id: int)
      requires Valid()
      modifies this
      ensures Valid()
      ensures id == old(nextJobId) && id >= 1 && id !in old(jobs)
      ensures jobs == old(jobs)[id := JobRow(id, jobType, Pending, OrEmpty(query), None, 0, None, None, None, clock)]
      ensures nextJobId == old(nextJobId) + 1
      ensures clock == old(clock) && sources == old(sources) && journal == old(journal) && tables == old(tables)
    {
      id := nextJobId;
      jobs := jobs[id := JobRow(id, jobType, Pending, OrEmpty(query), None, 0, None, None, None, clock)];
      nextJobId := nextJobId + 1;
    }

    /** `get_job(id)`. */
    function GetJob(id: int): (r: Option<JobRow>)
      reads this
      ensures r.Some? <==> id in jobs
      ensures r.Some? ==> r.value == jobs[id]
    {
      if id in jobs then Some(jobs[id]) else None
    }

    /** `get_jobs(status)`: the selected rows, newest first. */
    function GetJobs(status: Option<JobStatus>): (r: seq<JobRow>)
      reads this
      requires Valid()
      ensures forall k :: 0 <= k < |r| ==> r[k].id in jobs && jobs[r[k].id] == r[k] && Selects(status, r[k])
      ensures forall id :: id in jobs && Selects(status, jobs[id]) ==> jobs[id] in r
      ensures IdsDescending(r)
    {
      JobsDownComplete(jobs, nextJobId - 1, status);
      JobsDownOrdered(jobs, nextJobId - 1, status);
      JobsDown(jobs, nextJobId - 1, status)
    }

    /** `update_job_status(id, status, error)`; a missing row is left alone. */
    method UpdateJobStatus(id: int, status: JobStatus, error: Option<string>)
      requires Valid()
      modifies this
      ensures Valid()
      ensures jobs == if id in old(jobs) then old(jobs)[id := StatusUpdate(old(jobs)[id], status, error, clock)] else old(jobs)
      ensures clock == old(clock) && sources == old(sources) && nextJobId == old(nextJobId)
      ensures journal == old(journal) && tables == old(tables)
    {
      if id in jobs {
        jobs := jobs[id := StatusUpdate(jobs[id], status, error, clock)];
      }
    }

    /** `update_job_progress(id, progress, results_count)`; a missing row is left alone. */
    method UpdateJobProgress(id: int, progress: Json, resultsCount: Option<int>)
      requires Valid()
      modifies this
      ensures Valid()
      ensures jobs == if id in old(jobs) then old(jobs)[id := ProgressUpdate(old(jobs)[id], progress, resultsCount)] else old(jobs)
      ensures clock == old(clock) && sources == old(sources) && nextJobId == old(nextJobId)
      ensures journal == old(journal) && tables == old(tables)
    {
      if id in jobs {
        jobs := jobs[id := ProgressUpdate(jobs[id], progress, resultsCount)];
      }
    }

    /**
     * `journal_event(event_type, event_data, job_id)`: appends one event,
     * with `{}` for a missing payload; refused when the job does not exist.
     */
    method JournalEvent(eventType: string, eventData: Json, jobId: Option<int>) returns (r: Outcome<string>)
      requires Valid()
      modifies this
      ensures Valid()
      ensures r.Fail? <==> jobId.Some? && jobId.value !in jobs
      ensures r.Pass? ==> journal == old(journal) + [Event(jobId, eventType, Some(OrEmpty(eventData)), clock)]
      ensures r.Fail? ==> journal == old(journal)
      ensures clock == old(clock) && sources == old(sources) && jobs == old(jobs)
      ensures nextJobId == old(nextJobId) && tables == old(tables)
    {
      if jobId.Some? && jobId.value !in jobs {
        r := Fail("FOREIGN KEY constraint failed");
      } else {
        journal := journal + [Event(jobId, eventType, Some(OrEmpty(eventData)), clock)];
        r := Pass;
      }
    }

    /** `get_journal(job_id, limit)`. */
    function GetJournal(jobId: Option<int>, limit: nat): (r: seq<Event>)
      reads this
      ensures r == NewestFirst(journal, jobId, limit)
      ensures |r| <= limit
      ensures forall k :: 0 <= k < |r| ==> Selected(r[k], jobId) && r[k] in journal
    {
      NewestFirst(journal, jobId, limit)
    }

    /**
     * `add_plant`, `add_ingredient`, `add_ailment`, `add_recipe` called with
     * `**kwargs`: the new row's identifier, or the message of the error.
     */
    method AddEntity(t: Table, kwargs: map<string, Json>) returns (r: Result<int, string>)
      requires Valid()
      modifies this
      ensures Valid()
      ensures BindRow(t, kwargs, SourceIds(sources)).Success? ==>
        && r == Success(|old(tables).Rows(t)| + 1)
        && tables == old(tables).Append(t, BindRow(t, kwargs, SourceIds(sources)).value)
      ensures BindRow(t, kwargs, SourceIds(sources)).Failure? ==>
        r == Failure(BindRow(t, kwargs, SourceIds(sources)).error) && tables == old(tables)
      ensures clock == old(clock) && sources == old(sources) && jobs == old(jobs)
      ensures nextJobId == old(nextJobId) && journal == old(journal)
    {
      var bound := BindRow(t, kwargs, SourceIds(sources));
      if bound.Success? {
        r := Success(|tables.Rows(t)| + 1);
        tables := tables.Append(t, bound.value);
      } else {
        r := Failure(bound.error);
      }
    }
  }
}
