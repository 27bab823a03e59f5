/**
 * The scrape loop of `BaseScraper` (grimmoire/scraper/base.py): each item a
 * source yields is normalised, saved through the store and counted, a
 * failing item is recorded and skipped, a failure of the whole stream is
 * recorded once as "Fatal error: ...", and a stop request is honoured
 * between items.
 *
 * The source's abstract `scrape` generator is given as a `Stream`: the
 * finite list of what it did (yield an item, or write one of the snapshot
 * fields it shares with the loop), then whether it ended or raised. The
 * abstract `process_item` is a function from an item to a `Processed`, and
 * the caller's callback a function from an item and the current snapshot to
 * what it does next. `RunFrom` is the specification of the loop.
 */
module Scraper {
  import opened Wrappers
  import opened Json
  import opened Progress
  import opened Store

  /** What `process_item` does with one item: no entity, a mapping, or an exception. */
  datatype Processed = Skip | Entity(fields: map<string, Json>) | ProcessError(message: string)

  /** What the callback does after an item: returns, requests a stop and returns, or raises. */
  datatype CallbackAction = Continue | StopRequest | CallbackError(message: string)

  /** One step of the `scrape` generator. */
  datatype StreamEvent =
    | Yield(item: Json)
    | SetTotal(total: int)          // the generator writes `progress.total_items`
    | SetPage(page: int)            // ... `progress.current_page`
    | SetProcessed(count: int)      // ... `progress.processed_items`

  /** How the generator finishes: it is exhausted, or it raises. */
  datatype StreamEnd = Exhausted | StreamError(message: string)

  datatype Stream = Stream(events: seq<StreamEvent>, end: StreamEnd)

  /** One invocation of the callback: the item and the snapshot it was given. */
  datatype Call = Call(item: Json, snapshot: ScraperProgress)

  /** The scraper-specific parts of a run. */
  datatype Env = Env(
    process: Json -> Processed,
    callback: Option<(Json, ScraperProgress) -> CallbackAction>,
    sourceId: Option<int>,
    sourceIds: set<int>)

  /**
   * The state of a run: the snapshot, the entity tables, the stop flag, the
   * items attempted so far, the callback invocations, and the message of the
   * fatal error once one has ended the run.
   */
  datatype RunState = RunState(
    progress: ScraperProgress,
    tables: Tables,
    stop: bool,
    attempted: seq<Json>,
    calls: seq<Call>,
    fatal: Option<string>)

  /** The prefix that marks a stream-level failure in the error list. */
  const FatalPrefix := "Fatal error: "

  // ---------------------------------------------------------------------
  // save_item
  // ---------------------------------------------------------------------

  /** The table `save_item` writes for an entity type; `None` for an unknown type. */
  function TableFor(entityType: Json): (r: Option<Table>)
    ensures r == Some(Plants) <==> entityType == JStr("plant")
    ensures r == Some(Ingredients) <==> entityType == JStr("ingredient")
    ensures r == Some(Ailments) <==> entityType == JStr("ailment")
    ensures r == Some(Recipes) <==> entityType == JStr("recipe")
  {
    if entityType == JStr("plant") then Some(Plants)
    else if entityType == JStr("ingredient") then Some(Ingredients)
    else if entityType == JStr("ailment") then Some(Ailments)
    else if entityType == JStr("recipe") then Some(Recipes)
    else None
  }

  function SourceIdValue(sourceId: Option<int>): Json {
    match sourceId
    case Some(id) => JInt(id)
    case None => JNull
  }

  /** The keyword arguments `save_item` passes on: a recipe carries the scraper's source. */
  function SaveArgs(t: Table, fields: map<string, Json>, sourceId: Option<int>): (r: map<string, Json>)
    ensures t == Recipes ==> r == fields["source_id" := SourceIdValue(sourceId)]
    ensures t != Recipes ==> r == fields
  {
    if t == Recipes then fields["source_id" := SourceIdValue(sourceId)] else fields
  }

  /**
   * What `save_item(fields, entity_type)` writes: nothing for an unknown
   * type (it returns 0), one row in the named table, or an error.
   */
  function SaveEffect(fields: map<string, Json>, entityType: Json, sourceId: Option<int>, sourceIds: set<int>)
    : (r: Result<Option<(Table, Row)>, string>)
    ensures TableFor(entityType).None? ==> r == Success(None)
    ensures r.Success? && r.value.Some? ==>
      && TableFor(entityType) == Some(r.value.value.0)
      && BindRow(r.value.value.0, SaveArgs(r.value.value.0, fields, sourceId), sourceIds) == Success(r.value.value.1)
    ensures r.Success? && r.value.Some? && r.value.value.0 == Recipes ==>
      && r.value.value.1["source_id"] == SourceIdValue(sourceId)
      && (sourceId.Some? ==> sourceId.value in sourceIds)
  {
    match TableFor(entityType)
    case None => Success(None)
    case Some(t) =>
      match BindRow(t, SaveArgs(t, fields, sourceId), sourceIds)
      case Success(row) => Success(Some((t, row)))
      case Failure(m) => Failure(m)
  }

  /** The tables after a save. */
  function Write(tables: Tables, w: Option<(Table, Row)>): Tables {
    match w
    case None => tables
    case Some((t, row)) => tables.Append(t, row)
  }

  // ---------------------------------------------------------------------
  // The loop, as a specification
  // ---------------------------------------------------------------------

  /** What the body of the per-item `try` does with one item. */
  datatype ItemResult = Skipped | Saved(write: Option<(Table, Row)>) | ItemFailed(message: string)

  /**
   * `processed = process_item(item)`; a truthy result has its `_type`
   * popped (default "plant") and is saved.
   */
  function ItemOutcome(item: Json, env: Env): ItemResult {
    match env.process(item)
    case ProcessError(m) => ItemFailed(m)
    case Skip => Skipped
    case Entity(f) =>
      if f == map[] then Skipped
      else
        match SaveEffect(f - {"_type"}, Get(f, "_type", JStr("plant")), env.sourceId, env.sourceIds)
        case Success(w) => Saved(w)
        case Failure(m) => ItemFailed(m)
  }

  /** One attempted item: counted when saved, its message recorded when it fails. */
  function Attempt(st: RunState, item: Json, env: Env): (r: RunState)
    ensures r.attempted == st.attempted + [item] && r.calls == st.calls
    ensures r.stop == st.stop && r.fatal == st.fatal
  {
    var st' := st.(attempted := st.attempted + [item]);
    match ItemOutcome(item, env)
    case Skipped => st'
    case Saved(w) =>
      st'.(tables := Write(st.tables, w), progress := st.progress.(processedItems := st.progress.processedItems + 1))
    case ItemFailed(m) => st'.(progress := st.progress.(errors := st.progress.errors + [m]))
  }

  /** The outer `except`: one "Fatal error" entry, and the run is over. */
  function Fatal(st: RunState, message: string): (r: RunState)
    ensures r.progress.errors == st.progress.errors + [FatalPrefix + message] && r.fatal == Some(message)
  {
    st.(progress := st.progress.(errors := st.progress.errors + [FatalPrefix + message]), fatal := Some(message))
  }

  /** A write the generator makes to the shared snapshot. */
  function Apply(st: RunState, e: StreamEvent): (r: RunState)
    requires !e.Yield?
    ensures r.progress.errors == st.progress.errors && r.tables == st.tables && r.stop == st.stop
    ensures r.attempted == st.attempted && r.calls == st.calls && r.fatal == st.fatal
  {
    match e
    case SetTotal(n) => st.(progress := st.progress.(totalItems := n))
    case SetPage(p) => st.(progress := st.progress.(currentPage := p))
    case SetProcessed(n) => st.(progress := st.progress.(processedItems := n))
  }

  /**
   * The body of the loop for one yielded item when no stop is pending: the
   * attempt, then the callback with the updated snapshot. The flag says
   * whether the callback raised, which ends the run.
   */
  function AfterItem(st: RunState, item: Json, env: Env): (r: (RunState, bool))
    ensures r.0.attempted == st.attempted + [item]
    ensures r.0.tables == Attempt(st, item, env).tables
    ensures env.callback.None? ==> r.0 == Attempt(st, item, env) && !r.1
    ensures env.callback.Some? ==> r.0.calls == st.calls + [Call(item, Attempt(st, item, env).progress)]
    ensures r.1 ==> r.0.fatal.Some? && r.0 == Fatal(Attempt(st, item, env).(calls := r.0.calls), r.0.fatal.value)
    ensures !r.1 ==> r.0.progress == Attempt(st, item, env).progress && r.0.fatal == st.fatal
  {
    var st1 := Attempt(st, item, env);
    match env.callback
    case None => (st1, false)
    case Some(cb) =>
      var st2 := st1.(calls := st1.calls + [Call(item, st1.progress)]);
      match cb(item, st1.progress)
      case Continue => (st2, false)
      case StopRequest => (st2.(stop := true), false)
      case CallbackError(m) => (Fatal(st2, m), true)
  }

  /** The run from generator step `i` on, in state `st`. */
  function RunFrom(st: RunState, s: Stream, i: nat, env: Env): RunState
    requires i <= |s.events|
    decreases |s.events| - i
  {
    if i == |s.events| then
      match s.end
      case Exhausted => st
      case StreamError(m) => Fatal(st, m)
    else if !s.events[i].Yield? then
      RunFrom(Apply(st, s.events[i]), s, i + 1, env)
    else if st.stop then
      st
    else
      var (next, halted) := AfterItem(st, s.events[i].item, env);
      if halted then next else RunFrom(next, s, i + 1, env)
  }

  /** The state a run starts in: the stop flag cleared, the resume snapshot or a fresh one. */
  function Start(resumeFrom: Option<ScraperProgress>, tables: Tables): RunState {
    RunState(resumeFrom.GetOr(Fresh), tables, false, [], [], None)
  }

  // ---------------------------------------------------------------------
  // Properties of the loop
  // ---------------------------------------------------------------------

  /** The items a stream yields, in order. */
  function Yields(events: seq<StreamEvent>): (r: seq<Json>)
    ensures |r| <= |events|
    decreases |events|
  {
    if events == [] then []
    else (if events[0].Yield? then [events[0].item] else []) + Yields(events[1..])
  }

  /** The generator never writes `processed_items` itself. */
  predicate NoCounterWrites(events: seq<StreamEvent>) {
    forall k :: 0 <= k < |events| ==> !events[k].SetProcessed?
  }

  /** The number of items that are saved (or of an unknown type, which counts too). */
  function Successes(items: seq<Json>, env: Env): (n: nat)
    ensures n <= |items|
    decreases |items|
  {
    if items == [] then 0
    else Successes(items[..|items| - 1], env) + (if ItemOutcome(items[|items| - 1], env).Saved? then 1 else 0)
  }

  /** The messages of the items that fail, in order. */
  function ItemErrors(items: seq<Json>, env: Env): (r: seq<string>)
    ensures |r| <= |items|
    decreases |items|
  {
    if items == [] then []
    else
      var last := items[|items| - 1];
      ItemErrors(items[..|items| - 1], env) + (if ItemOutcome(last, env).ItemFailed? then [ItemOutcome(last, env).message] else [])
  }

  function FatalEntry(fatal: Option<string>): seq<string> {
    match fatal
    case Some(m) => [FatalPrefix + m]
    case None => []
  }

  /** The rows the saved items write, in order. */
  function WriteAll(tables: Tables, items: seq<Json>, env: Env): Tables
    decreases |items|
  {
    if items == [] then tables
    else
      var before := WriteAll(tables, items[..|items| - 1], env);
      match ItemOutcome(items[|items| - 1], env)
      case Saved(w) => Write(before, w)
      case _ => before
  }

  /** `s` extends `p`. */
  predicate Extends<T(==)>(s: seq<T>, p: seq<T>) {
    |p| <= |s| && s[..|p|] == p
  }

  /** The accounting of a single item, in the terms of `RunAccounting`. */
  lemma ItemAccounting(st: RunState, item: Json, env: Env)
    requires st.fatal.None?
    ensures var (r, halted) := AfterItem(st, item, env);
      && r.progress.errors == st.progress.errors + ItemErrors([item], env) + FatalEntry(r.fatal)
      && r.tables == WriteAll(st.tables, [item], env)
      && (halted <==> r.fatal.Some?)
  {
    assert [item][..0] == [];
  }

  /** Over a run, the items attempted and the callback invocations only grow. */
  lemma {:induction false} RunExtends(st: RunState, s: Stream, i: nat, env: Env)
    requires i <= |s.events|
    ensures var r := RunFrom(st, s, i, env);
      Extends(r.attempted, st.attempted) && Extends(r.calls, st.calls)
    decreases |s.events| - i
  {
    if i < |s.events| {
      if !s.events[i].Yield? {
        RunExtends(Apply(st, s.events[i]), s, i + 1, env);
      } else if !st.stop {
        var (next, halted) := AfterItem(st, s.events[i].item, env);
        if !halted {
          RunExtends(next, s, i + 1, env);
          var r := RunFrom(next, s, i + 1, env);
          assert r.attempted[..|st.attempted|] == r.attempted[..|next.attempted|][..|st.attempted|];
          assert r.calls[..|st.calls|] == r.calls[..|next.calls|][..|st.calls|];
        }
      }
    }
  }

  /**
   * Accounting for errors and saved rows: over a run, the error list grows
   * by the messages of the failing items, in order, followed by at most one
   * "Fatal error" entry; the tables grow by the rows of the saved items.
   */
  lemma {:induction false} RunAccounting(st: RunState, s: Stream, i: nat, env: Env)
    requires i <= |s.events| && st.fatal.None?
    ensures var r := RunFrom(st, s, i, env);
      && Extends(r.attempted, st.attempted)
      && r.progress.errors == st.progress.errors + ItemErrors(r.attempted[|st.attempted|..], env) + FatalEntry(r.fatal)
      && r.tables == WriteAll(st.tables, r.attempted[|st.attempted|..], env)
    decreases |s.events| - i
  {
    RunExtends(st, s, i, env);
    var r := RunFrom(st, s, i, env);
    RunExtends(st, s, i, env);
    if i == |s.events| || (s.events[i].Yield? && st.stop) {
      assert r.attempted[|st.attempted|..] == [];
    } else if !s.events[i].Yield? {
      RunAccounting(Apply(st, s.events[i]), s, i + 1, env);
    } else {
      var item := s.events[i].item;
      var (next, halted) := AfterItem(st, item, env);
      ItemAccounting(st, item, env);
      if halted {
        assert r == next;
        assert r.attempted[|st.attempted|..] == [item];
      } else {
        assert r == RunFrom(next, s, i + 1, env);
        RunAccounting(next, s, i + 1, env);
        Compose(st, next, r, item, env);
      }
    }
  }

  /** Joins the accounting of one item with the accounting of the rest of the run. */
  lemma Compose(st: RunState, next: RunState, r: RunState, item: Json, env: Env)
    requires next.attempted == st.attempted + [item] && next.fatal.None?
    requires next.progress.errors == st.progress.errors + ItemErrors([item], env)
    requires next.tables == WriteAll(st.tables, [item], env)
    requires Extends(r.attempted, next.attempted)
    requires r.progress.errors == next.progress.errors + ItemErrors(r.attempted[|next.attempted|..], env) + FatalEntry(r.fatal)
    requires r.tables == WriteAll(next.tables, r.attempted[|next.attempted|..], env)
    ensures Extends(r.attempted, st.attempted)
    ensures r.progress.errors == st.progress.errors + ItemErrors(r.attempted[|st.attempted|..], env) + FatalEntry(r.fatal)
    ensures r.tables == WriteAll(st.tables, r.attempted[|st.attempted|..], env)
  {
    var tail := r.attempted[|next.attempted|..];
    assert r.attempted[|st.attempted|..] == [item] + tail;
    ItemErrorsCons(item, tail, env);
    WriteAllCons(st.tables, item, tail, env);
  }

  lemma {:induction false} ItemErrorsCons(item: Json, tail: seq<Json>, env: Env)
    ensures ItemErrors([item] + tail, env) == ItemErrors([item], env) + ItemErrors(tail, env)
    decreases |tail|
  {
    if tail == [] {
      assert [item] + tail == [item];
    } else {
      var t' := tail[..|tail| - 1];
      assert ([item] + tail)[..|[item] + tail| - 1] == [item] + t';
      ItemErrorsCons(item, t', env);
    }
  }

  lemma {:induction false} WriteAllCons(tables: Tables, item: Json, tail: seq<Json>, env: Env)
    ensures WriteAll(tables, [item] + tail, env) == WriteAll(WriteAll(tables, [item], env), tail, env)
    decreases |tail|
  {
    if tail == [] {
      assert [item] + tail == [item];
    } else {
      var t' := tail[..|tail| - 1];
      assert ([item] + tail)[..|[item] + tail| - 1] == [item] + t';
      WriteAllCons(tables, item, t', env);
    }
  }

  lemma {:induction false} SuccessesCons(item: Json, tail: seq<Json>, env: Env)
    ensures Successes([item] + tail, env) == Successes([item], env) + Successes(tail, env)
    decreases |tail|
  {
    if tail == [] {
      assert [item] + tail == [item];
    } else {
      var t' := tail[..|tail| - 1];
      assert ([item] + tail)[..|[item] + tail| - 1] == [item] + t';
      SuccessesCons(item, t', env);
    }
  }

  /**
   * While the generator leaves `processed_items` alone, the counter grows by
   * exactly the number of items that were saved.
   */
  lemma {:induction false} ProcessedAccounting(st: RunState, s: Stream, i: nat, env: Env)
    requires i <= |s.events| && NoCounterWrites(s.events[i..])
    ensures var r := RunFrom(st, s, i, env);
      && Extends(r.attempted, st.attempted)
      && r.progress.processedItems == st.progress.processedItems + Successes(r.attempted[|st.attempted|..], env)
    decreases |s.events| - i
  {
    RunExtends(st, s, i, env);
    var r := RunFrom(st, s, i, env);
    RunExtends(st, s, i, env);
    if i == |s.events| || (s.events[i].Yield? && st.stop) {
      assert r.attempted[|st.attempted|..] == [];
    } else if !s.events[i].Yield? {
      assert s.events[i] == s.events[i..][0];
      assert s.events[i + 1..] == s.events[i..][1..];
      ProcessedAccounting(Apply(st, s.events[i]), s, i + 1, env);
    } else {
      var item := s.events[i].item;
      var (next, halted) := AfterItem(st, item, env);
      assert [item][..0] == [];
      assert next.progress.processedItems == st.progress.processedItems + Successes([item], env);
      if halted {
        assert r == next;
        assert r.attempted[|st.attempted|..] == [item];
      } else {
        assert s.events[i + 1..] == s.events[i..][1..];
        assert r == RunFrom(next, s, i + 1, env);
        ProcessedAccounting(next, s, i + 1, env);
        ProcessedCompose(st, next, r, item, env);
      }
    }
  }

  /** Joins the count of one item with the count of the rest of the run. */
  lemma ProcessedCompose(st: RunState, next: RunState, r: RunState, item: Json, env: Env)
    requires next.attempted == st.attempted + [item]
    requires next.progress.processedItems == st.progress.processedItems + Successes([item], env)
    requires Extends(r.attempted, next.attempted)
    requires r.progress.processedItems == next.progress.processedItems + Successes(r.attempted[|next.attempted|..], env)
    ensures |st.attempted| <= |r.attempted|
    ensures r.progress.processedItems == st.progress.processedItems + Successes(r.attempted[|st.attempted|..], env)
  {
    var tail := r.attempted[|next.attempted|..];
    assert r.attempted[|st.attempted|..] == [item] + tail;
    SuccessesCons(item, tail, env);
  }

  /** The items a run attempts are the first items the generator yields, in order. */
  lemma {:induction false} AttemptedArePrefixOfYields(st: RunState, s: Stream, i: nat, env: Env)
    requires i <= |s.events|
    ensures var r := RunFrom(st, s, i, env);
      && Extends(r.attempted, st.attempted)
      && Extends(Yields(s.events[i..]), r.attempted[|st.attempted|..])
    decreases |s.events| - i
  {
    var r := RunFrom(st, s, i, env);
    RunExtends(st, s, i, env);
    if i == |s.events| || (s.events[i].Yield? && st.stop) {
      assert r.attempted[|st.attempted|..] == [];
    } else {
      assert s.events[i..] == [s.events[i]] + s.events[i + 1..];
      assert Yields(s.events[i..]) == (if s.events[i].Yield? then [s.events[i].item] else []) + Yields(s.events[i + 1..]);
      if !s.events[i].Yield? {
        AttemptedArePrefixOfYields(Apply(st, s.events[i]), s, i + 1, env);
      } else {
        var item := s.events[i].item;
        var (next, halted) := AfterItem(st, item, env);
        if halted {
          assert r == next;
          assert r.attempted[|st.attempted|..] == [item];
        } else {
          assert r == RunFrom(next, s, i + 1, env);
          AttemptedArePrefixOfYields(next, s, i + 1, env);
          assert r.attempted[|st.attempted|..] == [item] + r.attempted[|next.attempted|..];
        }
      }
    }
  }

  /**
   * Once a stop is pending, no further item is processed, saved or handed to
   * the callback; only the generator's own writes to the snapshot and a
   * failure of the generator still take effect.
   */
  lemma {:induction false} StopHalts(st: RunState, s: Stream, i: nat, env: Env)
    requires i <= |s.events| && st.stop
    ensures var r := RunFrom(st, s, i, env);
      && r.attempted == st.attempted && r.calls == st.calls && r.tables == st.tables && r.stop
    decreases |s.events| - i
  {
    if i < |s.events| && !s.events[i].Yield? {
      StopHalts(Apply(st, s.events[i]), s, i + 1, env);
    }
  }

  /** What the generator's ending contributes: the message it raises, if any. */
  function EndFailure(end: StreamEnd): Option<string> {
    match end
    case Exhausted => None
    case StreamError(m) => Some(m)
  }

  /**
   * Without a callback and without a stop pending at the start, a run
   * attempts every item the generator yields, and it ends with a fatal
   * error exactly when the generator raises.
   */
  lemma {:induction false} UninterruptedRunAttemptsAll(st: RunState, s: Stream, i: nat, env: Env)
    requires i <= |s.events| && env.callback.None? && !st.stop && st.fatal.None?
    ensures var r := RunFrom(st, s, i, env);
      && r.attempted == st.attempted + Yields(s.events[i..])
      && r.fatal == EndFailure(s.end)
      && !r.stop
    decreases |s.events| - i
  {
    if i == |s.events| {
      assert s.events[i..] == [];
    } else {
      assert s.events[i..] == [s.events[i]] + s.events[i + 1..];
      assert Yields(s.events[i..]) == (if s.events[i].Yield? then [s.events[i].item] else []) + Yields(s.events[i + 1..]);
      if !s.events[i].Yield? {
        UninterruptedRunAttemptsAll(Apply(st, s.events[i]), s, i + 1, env);
      } else {
        var next := Attempt(st, s.events[i].item, env);
        UninterruptedRunAttemptsAll(next, s, i + 1, env);
      }
    }
  }

  /**
   * With a callback, it is invoked exactly once per attempted item, with
   * that item, and with the snapshot as it stands after that item.
   */
  lemma {:induction false} CallbackOncePerItem(st: RunState, s: Stream, i: nat, env: Env)
    requires i <= |s.events| && env.callback.Some?
    requires |st.calls| == |st.attempted|
    requires forall k :: 0 <= k < |st.calls| ==> st.calls[k].item == st.attempted[k]
    ensures var r := RunFrom(st, s, i, env);
      && |r.calls| == |r.attempted|
      && forall k :: 0 <= k < |r.calls| ==> r.calls[k].item == r.attempted[k]
    decreases |s.events| - i
  {
    if i < |s.events| {
      if !s.events[i].Yield? {
        CallbackOncePerItem(Apply(st, s.events[i]), s, i + 1, env);
      } else if !st.stop {
        var (next, halted) := AfterItem(st, s.events[i].item, env);
        if !halted {
          CallbackOncePerItem(next, s, i + 1, env);
        }
      }
    }
  }

  // ---------------------------------------------------------------------
  // The scraper object
  // ---------------------------------------------------------------------

  /** A concrete scraper class: its name and its `process_item`. */
  datatype ScraperClass = ScraperClass(className: string, process: Json -> Processed)

  /**
   * `_get_source_id`: the id of the first listed source with the given
   * name, or `None` when no source has it.
   */
  method SourceIdOf(rows: seq<SourceRow>, name: string) returns (id: Option<int>)
    ensures id.None? <==> forall k :: 0 <= k < |rows| ==> rows[k].name != name
    ensures id.Some? ==> exists k :: 0 <= k < |rows| && rows[k].name == name && rows[k].id == id.value
                                       && forall j :: 0 <= j < k ==> rows[j].name != name
  {
    var k := 0;
    while k < |rows|
      invariant 0 <= k <= |rows|
      invariant forall j :: 0 <= j < k ==> rows[j].name != name
    {
      if rows[k].name == name {
        return Some(rows[k].id);
      }
      k := k + 1;
    }
    return None;
  }

  class Scraper {
    const db: Store
    const sourceName: string
    const config: Json
    const cls: ScraperClass
    const sourceId: Option<int>
    var progress: ScraperProgress
    var stopRequested: bool

    /**
     * `BaseScraper(db, source_name, config)`: a fresh snapshot, no stop
     * pending, `config or {}`, and the id of the source with this name.
     */
    constructor (db: Store, sourceName: string, config: Json, cls: ScraperClass)
      ensures this.db == db && this.sourceName == sourceName && this.cls == cls
      ensures this.config == OrEmpty(config)
      ensures progress == Fresh && !stopRequested
      ensures sourceId.None? <==> forall x :: x in db.sources ==> x.name != sourceName
      ensures sourceId.Some? ==> exists x :: x in db.sources && x.name == sourceName && x.id == sourceId.value
    {
      this.db := db;
      this.sourceName := sourceName;
      this.config := OrEmpty(config);
      this.cls := cls;
      var rows := db.GetSources(false);
      var id := SourceIdOf(rows, sourceName);
      sourceId := id;
      progress := Fresh;
      stopRequested := false;
      if id.None? {
        forall x | x in db.sources ensures x.name != sourceName {
          var k :| 0 <= k < |rows| && rows[k] == x;
        }
      } else {
        var k :| 0 <= k < |rows| && rows[k].name == sourceName && rows[k].id == id.value;
        assert rows[k] in db.sources;
      }
    }

    /** `request_stop`: the loop halts before the next item. */
    method RequestStop()
      modifies this
      ensures stopRequested && progress == old(progress)
    {
      stopRequested := true;
    }

    /** `should_stop()`: whether a stop was requested since the run began. */
    function ShouldStop(): (r: bool)
      reads this
      ensures r == stopRequested
    {
      stopRequested
    }

    /** The source ids the store knows, which a recipe's `source_id` must name. */
    function KnownSourceIds(): set<int>
      reads this, db
    {
      SourceIds(db.sources)
    }

    /**
     * `save_item(item, entity_type)`: dispatches on the entity type and
     * writes at most one row; returns the new row's id, or 0 for an unknown
     * type, or the error the store raised.
     */
    method SaveItem(item: map<string, Json>, entityType: Json) returns (r: Result<int, string>)
      requires db.Valid()
      modifies db
      ensures db.Valid()
      ensures match SaveEffect(item, entityType, sourceId, SourceIds(old(db.sources)))
        case Success(None) => r == Success(0) && db.tables == old(db.tables)
        case Success(Some((t, row))) => r == Success(|old(db.tables).Rows(t)| + 1) && db.tables == old(db.tables).Append(t, row)
        case Failure(m) => r == Failure(m) && db.tables == old(db.tables)
      ensures db.clock == old(db.clock) && db.sources == old(db.sources) && db.jobs == old(db.jobs)
      ensures db.nextJobId == old(db.nextJobId) && db.journal == old(db.journal)
    {
      var t := TableFor(entityType);
      if t.None? {
        return Success(0);
      }
      r := db.AddEntity(t.value, SaveArgs(t.value, item, sourceId));
    }

    /**
     * The inner `try` of `run` for one item: process it, save it when there
     * is something to save, and count it or record its error.
     */
    method TryItem(item: Json, ghost before: RunState, ghost env: Env)
      requires db.Valid()
      requires before.progress == progress && before.tables == db.tables
      requires env.process == cls.process && env.sourceId == sourceId && env.sourceIds == SourceIds(db.sources)
      modifies this, db
      ensures db.Valid()
      ensures progress == Attempt(before, item, env).progress && db.tables == Attempt(before, item, env).tables
      ensures stopRequested == old(stopRequested)
      ensures db.clock == old(db.clock) && db.sources == old(db.sources) && db.jobs == old(db.jobs)
      ensures db.nextJobId == old(db.nextJobId) && db.journal == old(db.journal)
    {
      var processed := cls.process(item);
      match processed {
        case ProcessError(m) =>
          progress := progress.(errors := progress.errors + [m]);
        case Skip =>
        case Entity(f) =>
          if f != map[] {
            var entityType := Get(f, "_type", JStr("plant"));
            var saved := SaveItem(f - {"_type"}, entityType);
            if saved.Success? {
              progress := progress.(processedItems := progress.processedItems + 1);
            } else {
              progress := progress.(errors := progress.errors + [saved.error]);
            }
          }
      }
    }

    /**
     * `run(resume_from, callback)`: the loop over the generator's steps. Its
     * outcome is the one `RunFrom` specifies, from the resume snapshot (or a
     * fresh one) with the stop flag cleared; the store changes only in its
     * entity tables.
     */
    method Run(resumeFrom: Option<ScraperProgress>, stream: Stream,
               callback: Option<(Json, ScraperProgress) -> CallbackAction>)
      returns (result: ScraperProgress, calls: seq<Call>)
      requires db.Valid()
      modifies this, db
      ensures db.Valid()
      ensures var out := RunFrom(Start(resumeFrom, old(db.tables)), stream, 0,
                                 Env(cls.process, callback, sourceId, SourceIds(old(db.sources))));
        && result == out.progress && progress == out.progress
        && stopRequested == out.stop && calls == out.calls && db.tables == out.tables
      ensures db.clock == old(db.clock) && db.sources == old(db.sources) && db.jobs == old(db.jobs)
      ensures db.nextJobId == old(db.nextJobId) && db.journal == old(db.journal)
    {
      stopRequested := false;
      progress := resumeFrom.GetOr(Fresh);
      calls := [];
      ghost var env := Env(cls.process, callback, sourceId, SourceIds(db.sources));
      ghost var whole := RunFrom(Start(resumeFrom, db.tables), stream, 0, env);
      ghost var attempted: seq<Json> := [];
      var i := 0;
      while i < |stream.events|
        invariant 0 <= i <= |stream.events|
        invariant db.Valid() && env.sourceIds == SourceIds(db.sources)
        invariant db.clock == old(db.clock) && db.sources == old(db.sources) && db.jobs == old(db.jobs)
        invariant db.nextJobId == old(db.nextJobId) && db.journal == old(db.journal)
        invariant whole == RunFrom(RunState(progress, db.tables, stopRequested, attempted, calls, None), stream, i, env)
      {
        var event := stream.events[i];
        if !event.Yield? {
          match event {
            case SetTotal(n) => progress := progress.(totalItems := n);
            case SetPage(p) => progress := progress.(currentPage := p);
            case SetProcessed(n) => progress := progress.(processedItems := n);
          }
        } else {
          var item := event.item;
          if ShouldStop() {
            return progress, calls;
          }
          ghost var before := RunState(progress, db.tables, stopRequested, attempted, calls, None);
          TryItem(item, before, env);
          attempted := attempted + [item];
          assert RunState(progress, db.tables, stopRequested, attempted, calls, None) == Attempt(before, item, env);
          if callback.Some? {
            calls := calls + [Call(item, progress)];
            var action := callback.value(item, progress);
            match action {
              case Continue =>
              case StopRequest =>
                RequestStop();
              case CallbackError(m) =>
                progress := progress.(errors := progress.errors + [FatalPrefix + m]);
                return progress, calls;
            }
          }
        }
        i := i + 1;
      }
      if stream.end.StreamError? {
        progress := progress.(errors := progress.errors + [FatalPrefix + stream.end.message]);
      }
      result := progress;
    }
  }
}
